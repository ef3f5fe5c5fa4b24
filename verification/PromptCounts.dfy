/**
  The waiter counts of the prompt slots, and what they keep out of the list of
  pending slots.
 */
module PromptCounts {
  import opened Basics
  import opened PromptDispatch

  // The request has not given up its place in the count.
  predicate Counts(pc: Pc) {
    !pc.Erasing? && !pc.Returned?
  }

  ghost function Users(threads: map<nat, Thread>, slot: nat): set<nat> {
    set t | t in threads && threads[t].slot == slot && Counts(threads[t].pc)
  }

  ghost predicate Eraser(threads: map<nat, Thread>, slot: nat) {
    exists t :: t in threads && threads[t].slot == slot && threads[t].pc.Erasing?
  }

  ghost predicate CountsExact(waiters: multiset<nat>, threads: map<nat, Thread>) {
    forall slot :: waiters[slot] == |Users(threads, slot)|
  }

  ghost predicate FiledUnder(threads: map<nat, Thread>, slot: nat, key: string) {
    slot in threads && threads[slot].key == key
  }

  ghost predicate SharesKey(threads: map<nat, Thread>, t: nat) {
    t in threads ==> FiledUnder(threads, threads[t].slot, threads[t].key)
  }

  // A slot is filed under its opener's key, and so are the requests that share it.
  ghost predicate KeysAgree(pending: map<string, nat>, threads: map<nat, Thread>) {
    && (forall k | k in pending :: FiledUnder(threads, pending[k], k))
    && (forall t {:trigger SharesKey(threads, t)} :: SharesKey(threads, t))
  }

  ghost predicate InUse(pending: map<string, nat>, threads: map<nat, Thread>) {
    forall k | k in pending :: Users(threads, pending[k]) != {} || Eraser(threads, pending[k])
  }

  ghost predicate CountInv(w: World) {
    CountsExact(w.waiters, w.threads) && KeysAgree(w.s.pending, w.threads) && InUse(w.s.pending, w.threads)
  }

  // The thread as it is after a step of its own.
  lemma UsersAfter(threads: map<nat, Thread>, t: nat, th: Thread, slot: nat)
    requires t in threads ==> threads[t].slot == th.slot
    ensures var users := Users(threads, slot);
            Users(threads[t := th], slot) == if slot != th.slot then users
                                             else if Counts(th.pc) then users + {t} else users - {t}
  {}

  lemma KeysKept(pending: map<string, nat>, threads: map<nat, Thread>, t: nat, th: Thread)
    requires KeysAgree(pending, threads) && t in threads && th.slot == threads[t].slot && th.key == threads[t].key
    ensures KeysAgree(pending, threads[t := th])
  {
    var threads' := threads[t := th];
    forall u ensures SharesKey(threads', u) { assert SharesKey(threads, u); }
  }

  lemma EraserKept(threads: map<nat, Thread>, t: nat, th: Thread, slot: nat)
    requires Eraser(threads, slot) && (t in threads ==> !threads[t].pc.Erasing? || threads[t].slot != slot)
    ensures Eraser(threads[t := th], slot)
  {
    var u :| u in threads && threads[u].slot == slot && threads[u].pc.Erasing?;
    assert threads[t := th][u] == threads[u];
  }

  // A request moves on without giving up its place.
  lemma Untouched(waiters: multiset<nat>, pending: map<string, nat>, threads: map<nat, Thread>, t: nat, pc: Pc)
    requires CountsExact(waiters, threads) && KeysAgree(pending, threads) && InUse(pending, threads)
    requires t in threads && Counts(threads[t].pc) && Counts(pc)
    ensures var threads' := threads[t := threads[t].(pc := pc)];
            CountsExact(waiters, threads') && KeysAgree(pending, threads') && InUse(pending, threads')
  {
    var th := threads[t].(pc := pc);
    var threads' := threads[t := th];
    KeysKept(pending, threads, t, th);
    hide KeysAgree;
    forall slot ensures Users(threads', slot) == Users(threads, slot) {
      UsersAfter(threads, t, th, slot);
      assert slot == th.slot ==> t in Users(threads, slot);
    }
    hide Users;
    forall k | k in pending && Eraser(threads, pending[k]) ensures Eraser(threads', pending[k]) {
      EraserKept(threads, t, th, pending[k]);
    }
  }

  // Steps that touch neither the counts nor the list.
  lemma QuietStep(w: World, step: Step)
    requires Enabled(w, step) && !step.Register? && !step.Leave? && !step.EraseSlot? && !step.CancelBegin?
    ensures var w' := Next(w, step);
            && w'.waiters == w.waiters && w'.s.pending == w.s.pending
            && (|| w'.threads == w.threads
                || exists t, pc :: t in w.threads && Counts(w.threads[t].pc) && Counts(pc)
                                   && w'.threads == w.threads[t := w.threads[t].(pc := pc)])
  {
    hide Queued, Dispatched, Advanced, Revoked, NextActive, CanDispatch;
    var w' := Next(w, step);
    match step
    case Queue(t) => assert w'.threads == w.threads[t := w.threads[t].(pc := w'.threads[t].pc)];
    case DispatchOwn(t) => assert w'.threads == w.threads[t := w.threads[t].(pc := w'.threads[t].pc)];
    case Observe(t) => assert w'.threads == w.threads[t := w.threads[t].(pc := w'.threads[t].pc)];
    case Prompt(t, _) => assert w'.threads == w.threads[t := w.threads[t].(pc := w'.threads[t].pc)];
    case Resume(t) => assert w'.threads == w.threads[t := w.threads[t].(pc := w'.threads[t].pc)];
    case ReadReply(t) => assert w'.threads == w.threads[t := w.threads[t].(pc := w'.threads[t].pc)];
    case _ =>
  }

  // A new request: it opens a slot of its own, or joins one that is pending under its key.
  lemma Admission(waiters: multiset<nat>, s: Slots, threads: map<nat, Thread>, t: nat, key: string, reason: string)
    requires CountsExact(waiters, threads) && KeysAgree(s.pending, threads) && InUse(s.pending, threads)
             && t !in threads
    ensures var th := Admitted(s, t, key, reason);
            && CountsExact(waiters + multiset{th.slot}, threads[t := th])
            && KeysAgree(Registered(s, t, key, reason).pending, threads[t := th])
            && InUse(Registered(s, t, key, reason).pending, threads[t := th])
  {
    var th := Admitted(s, t, key, reason);
    var threads' := threads[t := th];
    AdmittedKeys(s, threads, t, key, reason);
    hide KeysAgree;
    forall slot
      ensures Users(threads', slot) == if slot == th.slot then Users(threads, slot) + {t} else Users(threads, slot)
      ensures t !in Users(threads, slot)
    {
      UsersAfter(threads, t, th, slot);
    }
    hide Users;
    forall k | k in s.pending && Eraser(threads, s.pending[k]) ensures Eraser(threads', s.pending[k]) {
      EraserKept(threads, t, th, s.pending[k]);
    }
    hide Eraser;
  }

  lemma AdmittedKeys(s: Slots, threads: map<nat, Thread>, t: nat, key: string, reason: string)
    requires KeysAgree(s.pending, threads) && t !in threads
    ensures KeysAgree(Registered(s, t, key, reason).pending, threads[t := Admitted(s, t, key, reason)])
  {
    var pending', threads' := Registered(s, t, key, reason).pending, threads[t := Admitted(s, t, key, reason)];
    forall u ensures SharesKey(threads', u) { assert SharesKey(threads, u); }
    forall k | k in pending' ensures FiledUnder(threads', pending'[k], k) {
      if k in s.pending { assert FiledUnder(threads, s.pending[k], k); }
    }
  }

  lemma RegisterCounts(w: World, t: nat, key: string, reason: string)
    requires CountInv(w) && Enabled(w, Register(t, key, reason))
    ensures CountInv(Next(w, Register(t, key, reason)))
  {
    hide CountsExact, KeysAgree, InUse, Registered, Admitted;
    Admission(w.waiters, w.s, w.threads, t, key, reason);
  }

  // A request leaves; the last one becomes the slot's eraser.
  lemma Departure(waiters: multiset<nat>, pending: map<string, nat>, threads: map<nat, Thread>, t: nat, pc: Pc)
    requires CountsExact(waiters, threads) && KeysAgree(pending, threads) && InUse(pending, threads)
    requires t in threads && Counts(threads[t].pc) && !Counts(pc) && (pc.Erasing? <==> waiters[threads[t].slot] == 1)
    ensures var threads' := threads[t := threads[t].(pc := pc)];
            && CountsExact(waiters - multiset{threads[t].slot}, threads') && KeysAgree(pending, threads')
            && InUse(pending, threads')
  {
    var th := threads[t].(pc := pc);
    var threads' := threads[t := th];
    KeysKept(pending, threads, t, th);
    hide KeysAgree;
    assert t in Users(threads, th.slot);
    forall slot
      ensures Users(threads', slot) == if slot == th.slot then Users(threads, slot) - {t} else Users(threads, slot)
    {
      UsersAfter(threads, t, th, slot);
    }
    hide Users;
    assert |Users(threads', th.slot)| == |Users(threads, th.slot)| - 1;
    forall k | k in pending ensures Users(threads', pending[k]) != {} || Eraser(threads', pending[k]) {
      if Eraser(threads, pending[k]) {
        EraserKept(threads, t, th, pending[k]);
      } else if pending[k] == th.slot && pc.Erasing? {
        assert threads'[t].pc.Erasing?;
      }
    }
  }

  lemma LeaveCounts(w: World, t: nat)
    requires CountInv(w) && Enabled(w, Leave(t))
    ensures CountInv(Next(w, Leave(t)))
  {
    hide CountsExact, KeysAgree, InUse;
    Departure(w.waiters, w.s.pending, w.threads, t, Next(w, Leave(t)).threads[t].pc);
  }

  // The eraser goes together with the slot.
  lemma Erasure(waiters: multiset<nat>, s: Slots, threads: map<nat, Thread>, t: nat, pc: Pc)
    requires CountsExact(waiters, threads) && KeysAgree(s.pending, threads) && InUse(s.pending, threads)
    requires t in threads && threads[t].pc.Erasing? && pc.Returned?
    ensures var threads', pending' := threads[t := threads[t].(pc := pc)], Erased(s, threads[t].key,
            threads[t].slot).pending;
            CountsExact(waiters, threads') && KeysAgree(pending', threads') && InUse(pending', threads')
  {
    var th := threads[t].(pc := pc);
    var threads', pending' := threads[t := th], Erased(s, th.key, th.slot).pending;
    ErasedKeys(s, threads, t);
    KeysKept(pending', threads, t, th);
    hide KeysAgree;
    forall slot ensures Users(threads', slot) == Users(threads, slot) {
      UsersAfter(threads, t, th, slot);
      assert t !in Users(threads, slot);
    }
    hide Users, Erased;
    forall k | k in pending' && Eraser(threads, pending'[k]) ensures Eraser(threads', pending'[k]) {
      EraserKept(threads, t, th, pending'[k]);
    }
    hide Eraser;
  }

  lemma ErasedKeys(s: Slots, threads: map<nat, Thread>, t: nat)
    requires KeysAgree(s.pending, threads) && t in threads
    ensures var pending' := Erased(s, threads[t].key, threads[t].slot).pending;
            && KeysAgree(pending', threads)
            && forall k | k in pending' ::
                 k in s.pending && pending'[k] == s.pending[k] && pending'[k] != threads[t].slot
  {
    assert SharesKey(threads, t);
    var pending' := Erased(s, threads[t].key, threads[t].slot).pending;
    forall k | k in pending' ensures pending'[k] != threads[t].slot {
      assert FiledUnder(threads, s.pending[k], k);
    }
  }

  lemma EraseCounts(w: World, t: nat)
    requires CountInv(w) && Enabled(w, EraseSlot(t))
    ensures CountInv(Next(w, EraseSlot(t)))
  {
    hide CountsExact, KeysAgree, InUse, Erased;
    Erasure(w.waiters, w.s, w.threads, t, Next(w, EraseSlot(t)).threads[t].pc);
  }

  lemma NothingPending(pending: map<string, nat>, threads: map<nat, Thread>)
    requires KeysAgree(pending, threads)
    ensures KeysAgree(map[], threads) && InUse(map[], threads)
  {}

  lemma StepCounts(w: World, step: Step)
    requires CountInv(w) && Enabled(w, step)
    ensures CountInv(Next(w, step))
  {
    hide CountsExact, KeysAgree, InUse;
    if step.Register? {
      RegisterCounts(w, step.t, step.key, step.reason);
    } else if step.Leave? {
      LeaveCounts(w, step.t);
    } else if step.EraseSlot? {
      EraseCounts(w, step.t);
    } else if step.CancelBegin? {
      CancelBeginFields(w);
      NothingPending(w.s.pending, w.threads);
    } else {
      QuietStep(w, step);
      hide Next, Enabled;
      var w' := Next(w, step);
      if w'.threads != w.threads {
        var t, pc :| t in w.threads && Counts(w.threads[t].pc) && Counts(pc)
                     && w'.threads == w.threads[t := w.threads[t].(pc := pc)];
        Untouched(w.waiters, w.s.pending, w.threads, t, pc);
      }
    }
  }

  lemma InitCounts()
    ensures CountInv(Init())
  {
    var threads: map<nat, Thread> := map[];
    forall slot ensures Users(threads, slot) == {} {}
  }

  lemma {:induction false} RunCounts(w: World, steps: seq<Step>)
    requires CountInv(w) && Legal(w, steps)
    ensures CountInv(Run(w, steps))
    decreases |steps|
  {
    hide CountInv, Next, Enabled;
    if steps != [] {
      StepCounts(w, steps[0]);
      RunCounts(Next(w, steps[0]), steps[1..]);
    }
  }

  // The waiter count of a slot is the number of its requests that have not left, and no slot stays
  // pending after the last of them: somebody still uses it or is about to take it off the list.
  lemma PendingSlotsAreInUse(steps: seq<Step>, key: string, slot: nat)
    requires Legal(Init(), steps)
    ensures var w := Run(Init(), steps);
            && w.waiters[slot] == |Users(w.threads, slot)|
            && (key in w.s.pending && w.s.pending[key] == slot ==> w.waiters[slot] > 0 || Eraser(w.threads, slot))
  {
    hide Run, Legal;
    InitCounts();
    RunCounts(Init(), steps);
    hide Users;
  }
}
