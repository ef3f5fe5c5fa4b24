/**
  What holds in every run of the prompt dispatcher.
 */
module PromptTheorems {
  import opened Basics
  import opened PromptQueue
  import opened PromptDispatch

  ghost function Reach(steps: seq<Step>): World
    requires Legal(Init(), steps)
  {
    Run(Init(), steps)
  }

  lemma ReachedInv(steps: seq<Step>)
    requires Legal(Init(), steps)
    ensures Inv(Reach(steps))
  {
    hide Inv;
    InitInv();
    RunKeepsInv(Init(), steps);
  }

  // ---------- one prompt at a time ----------

  // The entry was dispatched and its own completion has not reached the board.
  ghost predicate Open(w: World, e: nat) {
    && e in w.d.dispatched
    && (e in w.completers ==> w.completers[e].at == Offered || w.completers[e].at == Advancing(e))
  }

  // At every boundary of the critical sections: nobody waits while nobody is active, no entry is
  // on the board twice, no queued entry was dispatched, and a prompt that is open and was not
  // revoked is the active one, so there is at most one.
  lemma OnePromptAtATime(steps: seq<Step>)
    requires Legal(Init(), steps)
    ensures Ordered(Reach(steps).d.board)
    ensures forall e | e in Reach(steps).d.board.queue :: e !in Reach(steps).d.dispatched
    ensures forall e | Open(Reach(steps), e) && e !in Reach(steps).d.revoked :: Reach(steps).d.board.active == Some(e)
  {
    hide Legal, Reach;
    ReachedInv(steps);
    OpenIsActive(Reach(steps));
    BoardOrdered(Reach(steps).d);
    BoardFacts(Reach(steps).d);
  }

  lemma OpenIsActive(w: World)
    requires Inv(w)
    ensures forall e | Open(w, e) && e !in w.d.revoked :: w.d.board.active == Some(e)
  {
    BoardFacts(w.d);
    CompletedFacts(w);
    hide DispatcherInv, CompletersInv;
    forall e | Open(w, e) && e !in w.d.revoked ensures w.d.board.active == Some(e) {
      if e in w.completers { CompleterFacts(w, e); }
    }
  }

  lemma BoardOrdered(d: Dispatcher)
    requires QueueIsTail(d)
    ensures Ordered(d.board)
  {
    var all := Everyone(d.board);
    var offset := |all| - |d.board.queue|;
    forall i, j | 0 <= i < j < |all| ensures all[i] != all[j] {
      assert all[j] == d.board.queue[j - offset] == d.arrivals[Served(d) + j - offset];
      if i >= offset {
        assert all[i] == d.board.queue[i - offset] == d.arrivals[Served(d) + i - offset];
      } else {
        assert all[j] in d.board.queue;
      }
    }
  }

  // The active entry is on its way: it was dispatched, or its own request or the completion
  // before it is about to dispatch it.
  lemma ActiveIsServed(steps: seq<Step>)
    requires Legal(Init(), steps)
    ensures ActiveServed(Reach(steps))
  {
    hide Legal, Reach;
    ReachedInv(steps);
  }

  // ---------- first come, first served ----------

  // Entries become active in the order in which they were queued: an entry queued before one that
  // became active either became active before it or was revoked.
  lemma FirstComeFirstServed(steps: seq<Step>, j: nat, q: nat)
    requires Legal(Init(), steps) && j < |Reach(steps).d.activated|
             && q < Reach(steps).d.activated[j] < |Reach(steps).d.arrivals|
    ensures Reach(steps).d.arrivals[q] in Reach(steps).d.revoked
            || exists i :: 0 <= i < j && Reach(steps).d.activated[i] == q
  {
    hide Legal, Reach;
    ReachedInv(steps);
    EarlierServed(Reach(steps).d, j, q);
  }

  lemma EarlierServed(d: Dispatcher, j: nat, q: nat)
    requires DispatcherInv(d) && j < |d.activated| && q < d.activated[j] < |d.arrivals|
    ensures d.arrivals[q] in d.revoked || exists i :: 0 <= i < j && d.activated[i] == q
  {
    assert d.activated[j] in d.activated;
    if d.arrivals[q] !in d.revoked {
      var i :| 0 <= i < |d.activated| && d.activated[i] == q;
      assert i < j;
    }
  }

  // The history is exact: the active entry is the one that became active last, everybody queued
  // after it still waits in order, and no entry was queued twice.
  lemma WaitingInOrder(steps: seq<Step>)
    requires Legal(Init(), steps)
    ensures var d := Reach(steps).d;
            && Distinct(d.arrivals) && |d.board.queue| <= |d.arrivals|
            && d.board.queue == d.arrivals[|d.arrivals| - |d.board.queue|..]
            && (d.board.active.Some? ==>
                  && d.activated != [] && d.activated[|d.activated| - 1] < |d.arrivals|
                  && d.board.active.value == d.arrivals[d.activated[|d.activated| - 1]])
  {
    hide Legal, Reach;
    ReachedInv(steps);
  }

  // ---------- completion ----------

  // What is left to do for the completion of `e`.
  function LoopRank(w: World, e: nat): nat {
    if e !in w.completers then 0 else
    match w.completers[e].at
    case Offered => 4
    case Advancing(current) => if current == e then 3 else 1
    case Dispatching(_) => 2
    case Finished => 0
  }

  // Only the completion of the active entry itself makes room for another one; a section for any
  // other entry disturbs nothing and is the loop's last.
  ghost predicate SectionOk(w: World, w': World, e: nat, current: nat) {
    && (w.d.board.active == Some(current) ==> current == e)
    && (w.d.board.active != Some(current) ==> w'.d.board == w.d.board && LoopRank(w', e) == 0)
    && LoopRank(w', e) < LoopRank(w, e)
  }

  lemma SectionProgress(steps: seq<Step>, e: nat)
    requires Legal(Init(), steps) && Enabled(Reach(steps), AdvanceSection(e))
    ensures SectionOk(Reach(steps), Next(Reach(steps), AdvanceSection(e)), e, Reach(steps).completers[e].at.current)
  {
    hide Legal, Reach, SectionOk, Next, DispatcherInv, CompletersInv, ThreadsInv, ActiveServed, SlotsInv, CancelsInv,
      RepliesInv;
    ReachedInv(steps);
    SectionOnce(Reach(steps), e);
  }

  lemma SectionOnce(w: World, e: nat)
    requires DispatcherInv(w.d) && CompletersInv(w) && Enabled(w, AdvanceSection(e))
    ensures SectionOk(w, Next(w, AdvanceSection(e)), e, w.completers[e].at.current)
  {
    hide DispatcherInv, CompletersInv, Advanced;
    CompleterFacts(w, e);
    AdvancedKeeps(w.d, e, w.completers[e].at.current);
  }

  // A failed dispatch leads to one more section, which is for an entry that is not active: the
  // advance loop goes around at most twice, and the second time exactly if a dispatch was refused.
  lemma LoopEnds(steps: seq<Step>, e: nat)
    requires Legal(Init(), steps) && Enabled(Reach(steps), Redispatch(e))
    ensures LoopRank(Next(Reach(steps), Redispatch(e)), e) < LoopRank(Reach(steps), e) == 2
    ensures var w, n := Reach(steps), Reach(steps).completers[e].at.next;
            LoopRank(Next(w, Redispatch(e)), e) > 0 <==> n in w.d.canceled || n in w.d.dispatched
  {
    hide Legal, Reach, Dispatched, DispatcherInv, CompletersInv, ThreadsInv, ActiveServed, SlotsInv, CancelsInv,
      RepliesInv;
    ReachedInv(steps);
    OtherDispatch(Reach(steps), e);
  }

  lemma OtherDispatch(w: World, e: nat)
    requires CompletersInv(w) && Enabled(w, Redispatch(e))
    ensures w.completers[e].at.next != e
  {
    hide CompletersInv;
    CompleterFacts(w, e);
  }

  // ---------- nobody is forgotten ----------

  // A request that waits for its turn is in the queue, or active with its dispatch under way, or a
  // running cancel-all will wake it.
  lemma WaitingForTurn(steps: seq<Step>, t: nat)
    requires Legal(Init(), steps) && PcIs(Reach(steps), t, AwaitDispatch)
    requires t !in Reach(steps).d.dispatched && t !in Reach(steps).d.canceled
    ensures var w := Reach(steps);
            || t in w.d.board.queue
            || (w.d.board.active == Some(t) && exists c :: AtIs(w, c, Dispatching(t)))
            || ToBeMarked(w.running, t)
  {
    hide Legal, Reach;
    ReachedInv(steps);
    var w := Reach(steps);
    BoardFacts(w.d);
    ThreadFacts(w, t);
    hide DispatcherInv, ThreadsInv, CompletersInv;
  }

  // Somebody will answer the slot without any cancel-all: its own request is still on the way to
  // the prompt, or the prompt is offered.
  ghost predicate Answerable(w: World, slot: nat) {
    || PcIs(w, slot, Created) || PcIs(w, slot, DispatchNow) || PcIs(w, slot, AwaitDispatch) || PcIs(w, slot, Prompting)
    || AtIs(w, slot, Offered)
  }

  // A request that waits for a reply waits for a slot that the next cancel-all finds or a running
  // one finishes; and the slot is answerable unless a running cancel-all has it.
  lemma NoStrandedWaiter(steps: seq<Step>, t: nat)
    requires Legal(Init(), steps) && PcIs(Reach(steps), t, AwaitSlot)
    requires Reach(steps).threads[t].slot !in Reach(steps).s.replies
    ensures var w := Reach(steps);
            var slot := w.threads[t].slot;
            && (Listed(w.s, slot) || Collected(w.running, slot))
            && (Answerable(w, slot) || Collected(w.running, slot))
  {
    hide Legal, Reach;
    ReachedInv(steps);
    var w := Reach(steps);
    var slot := w.threads[t].slot;
    ThreadFacts(w, t);
    ReasonFacts(w);
    ThreadFacts(w, slot);
    if slot in w.completers { CompleterFacts(w, slot); }
    hide DispatcherInv, ThreadsInv, CompletersInv;
  }

  // All requests of one slot that have returned got the same reply.
  lemma OneReplyPerSlot(steps: seq<Step>, t: nat, u: nat)
    requires Legal(Init(), steps) && t in Reach(steps).threads && u in Reach(steps).threads
    requires Reach(steps).threads[t].pc.Returned? && Reach(steps).threads[u].pc.Returned?
    requires Reach(steps).threads[t].slot == Reach(steps).threads[u].slot
    ensures Reach(steps).threads[t].pc == Reach(steps).threads[u].pc
  {
    hide Legal, Reach;
    ReachedInv(steps);
    ThreadFacts(Reach(steps), t);
    ThreadFacts(Reach(steps), u);
    hide DispatcherInv, ThreadsInv, CompletersInv;
  }

  // ---------- over runs ----------

  // What later steps keep of a slot: its reply is final, it never gets back into the lists, and a
  // cancel-all that has it goes on until it is done.
  ghost predicate Kept(w: World, w': World, slot: nat, c: nat) {
    && (slot in w.s.replies ==> slot in w'.s.replies && w'.s.replies[slot] == w.s.replies[slot])
    && (slot in w.s.reasons ==> slot in w'.s.reasons)
    && (slot in w.s.reasons && !Listed(w.s, slot) ==> !Listed(w'.s, slot))
    && w.cancels <= w'.cancels
    && (c < w.cancels && (Has(w, c, slot) || slot in w.s.replies) ==> Has(w', c, slot) || slot in w'.s.replies)
    && (c < w.cancels && (Marks(w, c, slot) || slot in w.d.canceled) ==> Marks(w', c, slot) || slot in w'.d.canceled)
  }

  ghost predicate Has(w: World, c: nat, slot: nat) {
    c in w.running && slot in w.running[c].slots
  }

  ghost predicate Marks(w: World, c: nat, e: nat) {
    c in w.running && e in w.running[c].dispatches
  }

  lemma ListsShrink(w: World, step: Step, slot: nat)
    requires Inv(w) && Enabled(w, step) && slot in w.s.reasons && !Listed(w.s, slot)
    ensures !Listed(Next(w, step).s, slot) && slot in Next(w, step).s.reasons
  {
    if step.Register? { ReasonFacts(w); }
    FieldsKept(w, step);
    hide Inv, Next, Enabled;
    ListFields(w, step);
    var s' := Next(w, step).s;
  }

  // Only a request adds to the lists, and only itself.
  lemma ListFields(w: World, step: Step)
    requires Enabled(w, step)
    ensures var s' := Next(w, step).s;
            && (forall x | x in s'.orphans :: x in w.s.orphans || (step.Register? && x == step.t))
            && (forall k | k in s'.pending :: (k in w.s.pending && s'.pending[k] == w.s.pending[k])
                                              || (step.Register? && s'.pending[k] == step.t))
            && (forall x | x in w.s.reasons :: x in s'.reasons)
            && (step.Register? ==> step.t !in w.threads)
  {
    hide Queued, Dispatched, Advanced, Revoked, NextActive, CanDispatch, Everyone;
  }

  lemma StepKeeps(w: World, step: Step, slot: nat, c: nat)
    requires Inv(w) && Enabled(w, step)
    ensures Kept(w, Next(w, step), slot, c)
  {
    if slot in w.s.reasons && !Listed(w.s, slot) { ListsShrink(w, step, slot); }
    RunningKeeps(w, step, slot, c);
    RepliesKeep(w, step, slot);
    hide Inv, Next, Enabled, Listed;
  }

  lemma RepliesKeep(w: World, step: Step, slot: nat)
    requires Enabled(w, step)
    ensures slot in w.s.replies ==>
              slot in Next(w, step).s.replies && Next(w, step).s.replies[slot] == w.s.replies[slot]
    ensures slot in w.s.reasons ==> slot in Next(w, step).s.reasons
  {
    hide Queued, Dispatched, Advanced, Revoked, NextActive, CanDispatch;
  }

  lemma RunningKeeps(w: World, step: Step, slot: nat, c: nat)
    requires Inv(w) && Enabled(w, step)
    ensures var w' := Next(w, step);
            && w.cancels <= w'.cancels
            && (c < w.cancels && Has(w, c, slot) ==> Has(w', c, slot) || slot in w'.s.replies)
            && (c < w.cancels && Marks(w, c, slot) ==> Marks(w', c, slot) || slot in w'.d.canceled)
            && (slot in w.d.canceled ==> slot in w'.d.canceled)
  {
    hide Inv, Next, Enabled;
    FieldsKept(w, step);
    match step
    case CancelBegin => CancelBeginFields(w);
    case CancelMark(b) => CancelMarkFields(w, b);
    case CancelFinish(b, x) => CancelFinishFields(w, b, x);
    case CancelEnd(b) => CancelEndFields(w, b);
    case _ =>
  }

  lemma {:induction false} RunKeeps(w: World, steps: seq<Step>, slot: nat, c: nat)
    requires Inv(w) && Legal(w, steps)
    ensures Kept(w, Run(w, steps), slot, c)
    decreases |steps|
  {
    if steps != [] {
      StepKeeps(w, steps[0], slot, c);
      StepKeepsInv(w, steps[0]);
      var w1 := Next(w, steps[0]);
      hide Inv, Next, Enabled;
      RunKeeps(w1, steps[1..], slot, c);
      hide Listed, Has, Marks;
    }
  }

  // A slot's reply is written once.
  lemma ReplyIsFinal(before: seq<Step>, after: seq<Step>, slot: nat)
    requires Legal(Init(), before) && Legal(Reach(before), after) && slot in Reach(before).s.replies
    ensures slot in Run(Reach(before), after).s.replies
    ensures Run(Reach(before), after).s.replies[slot] == Reach(before).s.replies[slot]
  {
    ReachedInv(before);
    hide Inv, Reach, Run, Legal;
    RunKeeps(Reach(before), after, slot, 0);
  }

  // What the cancel-all that began in `w0` has done for `slot` by `w`: every slot that existed is
  // done or in the hands of a running cancel-all; once this one has ended, every slot it found is
  // done and every entry it found on the board is marked; and whenever no cancel-all is running,
  // every slot that existed is done.
  ghost predicate Reached(w0: World, w: World, slot: nat) {
    && (slot in w0.s.reasons ==> slot in w.s.replies || Collected(w.running, slot))
    && (slot in w0.s.reasons && w.running == map[] ==> slot in w.s.replies)
    && (w0.cancels !in w.running && Listed(w0.s, slot) ==> slot in w.s.replies)
    && (w0.cancels !in w.running && slot in Everyone(w0.d.board) ==> slot in w.d.canceled)
  }

  // A cancel-all reaches everybody who was there when it began.
  lemma CancelAllReachesEveryone(before: seq<Step>, after: seq<Step>, slot: nat)
    requires Legal(Init(), before) && Legal(Next(Reach(before), CancelBegin), after)
    ensures Reached(Reach(before), Run(Next(Reach(before), CancelBegin), after), slot)
  {
    hide Reach, Inv, Next, Run, Legal, Reached;
    ReachedInv(before);
    StepKeepsInv(Reach(before), CancelBegin);
    FromBegin(Reach(before), after, slot);
  }

  lemma FromBegin(w0: World, after: seq<Step>, slot: nat)
    requires Inv(w0) && Inv(Next(w0, CancelBegin)) && Legal(Next(w0, CancelBegin), after)
    ensures Reached(w0, Run(Next(w0, CancelBegin), after), slot)
  {
    hide Inv, Run, Legal, Next, Everyone;
    var w1 := Next(w0, CancelBegin);
    var w := Run(w1, after);
    CancelBeginFields(w0);
    RunKeeps(w1, after, slot, w0.cancels);
    RunKeepsInv(w1, after);
    if slot in w.s.reasons && slot !in w.s.replies { UndoneIsKnown(w, slot); }
  }

  lemma UndoneIsKnown(w: World, slot: nat)
    requires Inv(w) && slot in w.s.reasons && slot !in w.s.replies
    ensures Listed(w.s, slot) || Collected(w.running, slot)
  {}

  // The cancel-all `c` does its own work and ends, while nobody else does anything.
  lemma {:induction false} EndsAlone(w: World, c: nat, slot: nat) returns (after: seq<Step>)
    requires c in w.running && slot !in w.running[c].slots && slot !in w.s.replies
    ensures Legal(w, after) && c !in Run(w, after).running && slot !in Run(w, after).s.replies
    decreases |w.running[c].dispatches| + |w.running[c].slots|
  {
    var work := w.running[c];
    var step := if work.dispatches != [] then CancelMark(c)
    else if x :| x in work.slots then CancelFinish(c, x) else CancelEnd(c);
    var rest: seq<Step> := [];
    if step != CancelEnd(c) {
      rest := EndsAlone(Next(w, step), c, slot);
    }
    after := [step] + rest;
    assert after[0] == step && after[1..] == rest;
  }

  // Whatever happens after a cancel-all began, a slot is done when the cancel-all has ended, exactly
  // if it was done or in the lists when it began. A slot that an earlier cancel-all had taken from
  // the lists may be left to that one.
  lemma CancelAllReachesExactly(before: seq<Step>, slot: nat)
    requires Legal(Init(), before) && slot in Reach(before).s.reasons
    ensures var w0 := Reach(before);
            var w1 := Next(w0, CancelBegin);
            (forall after | Legal(w1, after) && w0.cancels !in Run(w1, after).running ::
               slot in Run(w1, after).s.replies)
            <==> slot in w0.s.replies || Listed(w0.s, slot)
  {
    hide Reach, Inv, Legal, Next, Run, Listed;
    var w0 := Reach(before);
    var w1 := Next(w0, CancelBegin);
    if slot in w0.s.replies || Listed(w0.s, slot) {
      ReachedInv(before);
      forall after | Legal(w1, after) && w0.cancels !in Run(w1, after).running
        ensures slot in Run(w1, after).s.replies
      {
        CancelAllReachesEveryone(before, after, slot);
        if slot in w0.s.replies { DoneStays(w0, after, slot); }
      }
    } else {
      CancelBeginFields(w0);
      Unlisted(w0.s, slot);
      var after := EndsAlone(w1, w0.cancels, slot);
    }
  }

  lemma Unlisted(s: Slots, slot: nat)
    requires !Listed(s, slot)
    ensures slot !in s.pending.Values + s.orphans
  {}

  lemma DoneStays(w: World, after: seq<Step>, slot: nat)
    requires Inv(w) && Legal(Next(w, CancelBegin), after) && slot in w.s.replies
    ensures slot in Run(Next(w, CancelBegin), after).s.replies
  {
    hide Inv, Run, Legal, Next;
    StepKeepsInv(w, CancelBegin);
    RepliesKeep(w, CancelBegin, slot);
    RunKeeps(Next(w, CancelBegin), after, slot, 0);
  }

  // A request opened slot 0, and a first cancel-all took it from the lists and was delayed. A second
  // one ends while the slot is not done.
  lemma CancelAllMayLeaveASlot()
    ensures var before := [Register(0, "k", "r"), CancelBegin];
            var after := [CancelBegin, CancelEnd(1)];
            && Legal(Init(), before) && Reach(before).cancels == 1 && 0 in Reach(before).s.reasons
            && Legal(Reach(before), after)
            && 1 !in Run(Reach(before), after).running && 0 !in Run(Reach(before), after).s.replies
  {
    var before := [Register(0, "k", "r"), CancelBegin];
    var after := [CancelBegin, CancelEnd(1)];
    var w1 := Next(Init(), before[0]);
    var w2 := Next(w1, before[1]);
    var w3 := Next(w2, after[0]);
    assert w3.running[1] == CancelAll([], {});
    assert before[1..] == [CancelBegin] && before[1..][1..] == [];
    assert after[1..] == [CancelEnd(1)] && after[1..][1..] == [];
    assert Run(w1, before[1..]) == w2;
    assert Run(w3, after[1..]) == Next(w3, after[1]);
  }
}
