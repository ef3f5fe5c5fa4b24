/**
  What a password request gets: the reply that was given first, from the one prompt that
  requests with the same question share.
 */
module PromptReplies {
  import opened Basics
  import opened PromptQueue
  import opened PromptDispatch
  import opened PromptTheorems

  // ---------- the first reply counts ----------

  // The reply that the step offers to the slot.
  function OfferedBy(step: Step, slot: nat): Option<Reply> {
    match step
    case Answer(e, reply) => if e == slot then Some(reply) else None
    case CancelFinish(_, x) => if x == slot then Some(Canceled) else None
    case _ => None
  }

  function FirstOffer(steps: seq<Step>, slot: nat): Option<Reply>
    decreases |steps|
  {
    if steps == [] then None
    else if OfferedBy(steps[0], slot).Some? then OfferedBy(steps[0], slot)
    else FirstOffer(steps[1..], slot)
  }

  ghost function ReplyOf(w: World, slot: nat): Option<Reply> {
    if slot in w.s.replies then Some(w.s.replies[slot]) else None
  }

  lemma StepReplies(w: World, step: Step, slot: nat)
    requires Enabled(w, step)
    ensures ReplyOf(Next(w, step), slot) ==
            if slot in w.s.replies then ReplyOf(w, slot) else OfferedBy(step, slot)
  {
    hide Queued, Dispatched, Advanced, Revoked, NextActive, CanDispatch, Everyone;
  }

  lemma {:induction false} RunReplies(w: World, steps: seq<Step>, slot: nat)
    requires Legal(w, steps)
    ensures ReplyOf(Run(w, steps), slot) ==
            if slot in w.s.replies then ReplyOf(w, slot) else FirstOffer(steps, slot)
    decreases |steps|
  {
    hide Enabled, Next, OfferedBy;
    if steps != [] {
      StepReplies(w, steps[0], slot);
      RunReplies(Next(w, steps[0]), steps[1..], slot);
    }
  }

  // In every run a slot is done exactly if an answer or a cancel-all reached it, and it keeps the
  // reply that came first.
  lemma FirstOfferCounts(steps: seq<Step>, slot: nat)
    requires Legal(Init(), steps)
    ensures slot in Reach(steps).s.replies <==> FirstOffer(steps, slot).Some?
    ensures slot in Reach(steps).s.replies ==> Reach(steps).s.replies[slot] == FirstOffer(steps, slot).value
  {
    hide Legal, Run, FirstOffer;
    RunReplies(Init(), steps, slot);
  }

  // A request returns a password exactly if that password was the first thing its slot was offered.
  lemma RequestReturns(steps: seq<Step>, t: nat, password: string)
    requires Legal(Init(), steps) && t in Reach(steps).threads && Reach(steps).threads[t].pc.Returned?
    ensures Reach(steps).threads[t].pc.reply == Provided(password) <==>
            FirstOffer(steps, Reach(steps).threads[t].slot) == Some(Provided(password))
  {
    hide Legal, Reach, FirstOffer;
    FirstOfferCounts(steps, Reach(steps).threads[t].slot);
    ReachedInv(steps);
    ThreadFacts(Reach(steps), t);
    hide DispatcherInv, ThreadsInv, CompletersInv;
  }

  // ... and only a prompt that was shown through a callback offers a password.
  lemma PasswordWasAskedFor(steps: seq<Step>, slot: nat)
    requires Legal(Init(), steps) && slot in Reach(steps).s.replies && Reach(steps).s.replies[slot].Provided?
    ensures Prompt(slot, true) in steps
  {
    hide Legal, Run;
    ReachedInv(steps);
    hide Inv, Reach;
    AskedBy(Reach(steps), slot);
    RunHandles(Init(), steps, slot);
    assert Reach(steps) == Run(Init(), steps) by { ReachIsRun(steps); }
  }

  lemma ReachIsRun(steps: seq<Step>)
    requires Legal(Init(), steps)
    ensures Reach(steps) == Run(Init(), steps)
  {}

  lemma AskedBy(w: World, slot: nat)
    requires Inv(w) && slot in w.s.replies && w.s.replies[slot].Provided?
    ensures HasHandle(w, slot)
  {
    hide DispatcherInv, ThreadsInv, CompletersInv, ActiveServed, SlotsInv, CancelsInv;
  }

  ghost predicate HasHandle(w: World, e: nat) {
    e in w.completers && w.completers[e].handle
  }

  lemma StepHandles(w: World, step: Step, e: nat)
    requires Enabled(w, step) && HasHandle(Next(w, step), e) && !HasHandle(w, e)
    ensures step == Prompt(e, true)
  {
    hide Queued, Dispatched, Advanced, Revoked, NextActive, CanDispatch, Everyone;
  }

  lemma {:induction false} RunHandles(w: World, steps: seq<Step>, e: nat)
    requires Legal(w, steps) && HasHandle(Run(w, steps), e) && !HasHandle(w, e)
    ensures Prompt(e, true) in steps
    decreases |steps|
  {
    hide Enabled, Next, HasHandle;
    if steps != [] {
      if HasHandle(Next(w, steps[0]), e) {
        StepHandles(w, steps[0], e);
      } else {
        RunHandles(Next(w, steps[0]), steps[1..], e);
      }
    }
  }

  // ---------- the same question is asked once ----------

  // A request joins the slot that is pending under its key if that slot is undone and was opened for
  // the same reason; otherwise it opens its own, which the next cancel-all finds.
  ghost predicate Shares(w: World, key: string, reason: string, slot: nat) {
    && key in w.s.pending && w.s.pending[key] == slot && slot !in w.s.replies
    && slot in w.s.reasons && w.s.reasons[slot] == reason
  }

  lemma RegisterShares(steps: seq<Step>, t: nat, key: string, reason: string)
    requires Legal(Init(), steps) && Enabled(Reach(steps), Register(t, key, reason))
    ensures var w, w' := Reach(steps), Next(Reach(steps), Register(t, key, reason));
            && t in w'.threads && w'.threads[t].key == key
            && (forall slot | Shares(w, key, reason, slot) ::
                  w'.threads[t] == Thread(key, slot, AwaitSlot) && slot != t)
            && ((forall slot :: !Shares(w, key, reason, slot)) ==>
                  && w'.threads[t] == Thread(key, t, Created) && t !in w.s.reasons
                  && t in w'.s.reasons && w'.s.reasons[t] == reason && Listed(w'.s, t))
  {
    hide Legal, Reach, Inv;
    ReachedInv(steps);
    Shared(Reach(steps), t, key, reason);
  }

  lemma Shared(w: World, t: nat, key: string, reason: string)
    requires Inv(w) && Enabled(w, Register(t, key, reason))
    ensures var w' := Next(w, Register(t, key, reason));
            && t in w'.threads && w'.threads[t].key == key
            && (forall slot | Shares(w, key, reason, slot) ::
                  w'.threads[t] == Thread(key, slot, AwaitSlot) && slot != t)
            && ((forall slot :: !Shares(w, key, reason, slot)) ==>
                  && w'.threads[t] == Thread(key, t, Created) && t !in w.s.reasons
                  && t in w'.s.reasons && w'.s.reasons[t] == reason && Listed(w'.s, t))
  {
    ReasonFacts(w);
    hide Inv;
    assert key in w.s.pending && !Shares(w, key, reason, w.s.pending[key]) ==> !Joins(w.s, key, reason);
    if key !in w.s.pending { assert Next(w, Register(t, key, reason)).s.pending[key] == t; }
  }

  // The slot is the one that this question finds.
  ghost predicate Pending(w: World, key: string, reason: string, slot: nat) {
    && key in w.s.pending && w.s.pending[key] == slot
    && slot in w.s.reasons && w.s.reasons[slot] == reason
  }

  lemma StepKeepsPending(w: World, step: Step, key: string, reason: string, slot: nat)
    requires Inv(w) && Enabled(w, step) && step != CancelBegin && Pending(w, key, reason, slot)
    requires slot !in w.s.replies && slot in w.s.reasons && key in w.s.pending && w.s.pending[key] == slot
    ensures Pending(Next(w, step), key, reason, slot)
  {
    ReasonFacts(w);
    hide Inv, ThreadsInv, Pending;
    if step.EraseSlot? { ErasedIsDone(w, step.t, key, slot); }
    OthersKeepPending(w, step, key, reason, slot);
  }

  lemma OthersKeepPending(w: World, step: Step, key: string, reason: string, slot: nat)
    requires Enabled(w, step) && step != CancelBegin && Pending(w, key, reason, slot) && slot in w.threads
    requires step.EraseSlot? ==> w.threads[step.t].slot != slot
    ensures Pending(Next(w, step), key, reason, slot)
  {
    hide Queued, Dispatched, Advanced, Revoked, NextActive, CanDispatch, Everyone;
  }

  // Only a request of a done slot drops it from the list.
  lemma ErasedIsDone(w: World, t: nat, key: string, slot: nat)
    requires Inv(w) && t in w.threads && w.threads[t].pc.Erasing? && key in w.s.pending && w.s.pending[key] == slot
    ensures slot !in w.s.replies ==> w.threads[t].slot != slot
  {
    ThreadFacts(w, t);
    assert Listed(w.s, slot);
    hide DispatcherInv, ThreadsInv, CompletersInv, ActiveServed, CancelsInv, RepliesInv;
  }

  lemma PendingFacts(w: World, key: string, reason: string, slot: nat)
    requires Pending(w, key, reason, slot)
    ensures slot in w.s.reasons && key in w.s.pending && w.s.pending[key] == slot
  {}

  lemma {:induction false} RunKeepsPending(w: World, steps: seq<Step>, key: string, reason: string, slot: nat)
    requires Inv(w) && Legal(w, steps) && CancelBegin !in steps && Pending(w, key, reason, slot)
    requires slot !in Run(w, steps).s.replies
    ensures Pending(Run(w, steps), key, reason, slot)
    decreases |steps|
  {
    hide Inv, Enabled, Next, Pending;
    if steps != [] {
      RunKeeps(w, steps, slot, 0);
      PendingFacts(w, key, reason, slot);
      StepKeepsPending(w, steps[0], key, reason, slot);
      StepKeepsInv(w, steps[0]);
      RunKeepsPending(Next(w, steps[0]), steps[1..], key, reason, slot);
    }
  }

  // While a question is open, whoever asks it again for the same reason waits for the same slot; and
  // who asks it for another reason does not.
  lemma SameQuestionIsShared(before: seq<Step>, t: nat, key: string, reason: string, between: seq<Step>, u: nat,
                             again: string)
    requires Legal(Init(), before) && Enabled(Reach(before), Register(t, key, reason))
    requires key !in Reach(before).s.pending
    requires Legal(Next(Reach(before), Register(t, key, reason)), between) && CancelBegin !in between
    requires t !in Run(Next(Reach(before), Register(t, key, reason)), between).s.replies
    requires Enabled(Run(Next(Reach(before), Register(t, key, reason)), between), Register(u, key, again))
    ensures var w := Next(Run(Next(Reach(before), Register(t, key, reason)), between), Register(u, key, again));
            u in w.threads && w.threads[u].slot == if again == reason then t else u
  {
    hide Legal, Run, Reach, Inv, Shares, Next;
    var w0 := Reach(before);
    ReachedInv(before);
    var w1 := Next(w0, Register(t, key, reason));
    Opens(w0, t, key, reason);
    StepKeepsInv(w0, Register(t, key, reason));
    RunKeepsInv(w1, between);
    RunKeepsPending(w1, between, key, reason, t);
    JoinsPending(Run(w1, between), u, key, reason, again, t);
  }

  lemma Opens(w: World, t: nat, key: string, reason: string)
    requires Enabled(w, Register(t, key, reason)) && key !in w.s.pending
    ensures Pending(Next(w, Register(t, key, reason)), key, reason, t)
  {}

  lemma JoinsPending(w: World, u: nat, key: string, reason: string, again: string, slot: nat)
    requires Inv(w) && Enabled(w, Register(u, key, again)) && Pending(w, key, reason, slot) && slot !in w.s.replies
    ensures var w' := Next(w, Register(u, key, again));
            u in w'.threads && w'.threads[u].slot == if again == reason then slot else u
  {
    hide Inv, Next;
    Shared(w, u, key, again);
    if again == reason { assert Shares(w, key, again, slot); }
  }
}
