/**
  What every run of the task table guarantees.
 */
module TaskTheorems {
  import opened Basics
  import opened QtStream
  import opened AsciiText
  import opened TaskSlots
  import opened PayloadCodec
  import opened TaskTable
  import opened TaskProtocol

  // The world after a run of legal steps, if they are all legal.
  ghost function Exec(w: World, steps: seq<Step>, digest: Digest): Option<World>
    decreases |steps|
  {
    if steps == [] then Some(w)
    else if !WellFormed(w.table) || !Legal(w, steps[0]) then None
    else Exec(Apply(w, steps[0], digest), steps[1..], digest)
  }

  ghost predicate Reachable(w: World, digest: Digest) {
    exists steps :: Exec(Init(), steps, digest) == Some(w)
  }

  lemma {:induction false} ExecKeepsInv(w: World, steps: seq<Step>, digest: Digest)
    requires Inv(w, digest) && Exec(w, steps, digest).Some?
    ensures Inv(Exec(w, steps, digest).value, digest)
    decreases |steps|
  {
    hide Inv, Apply, Legal;
    if steps != [] {
      StepKeepsInv(w, steps[0], digest);
      ExecKeepsInv(Apply(w, steps[0], digest), steps[1..], digest);
    }
  }

  lemma ReachableInv(w: World, digest: Digest)
    requires Reachable(w, digest)
    ensures Inv(w, digest) && WellFormed(w.table)
  {
    hide Inv;
    InitInv(digest);
    var steps :| Exec(Init(), steps, digest) == Some(w);
    ExecKeepsInv(Init(), steps, digest);
    InvBasics(w, digest);
  }

  // The i-th slot.
  ghost function At(t: Table, i: nat): Slot {
    if i < |t.slots| then t.slots[i] else EmptySlot(1)
  }

  // ---------- how one step moves one slot ----------

  ghost predicate Releases(w: World, step: Step, s: Slot) {
    match step
    case RollbackStep(id) => id == s.session_id
    case AckStep(k, _) =>
      k < |w.collected| && w.collected[k].session_id == s.session_id
      && w.collected[k].kind == CompletedEvent && s.state == Completed
    case _ => false
  }

  ghost predicate Starts(w: World, step: Step, s': Slot) {
    && step.DispatchStep?
    && s'.state == Dispatched && s'.session_id == |w.sent| + 1
    && s'.acknowledged == 0 && !s'.cancel_requested && s'.summary == FixedBuffer([], SUMMARY_CAPACITY)
  }

  // What the monitor of `owner` reports: a task that waited too long for a worker, and a task whose
  // worker died.
  ghost predicate TimesOut(s: Slot, owner: Bytes, now: int) {
    s.state == Dispatched && MatchesOwner(s, owner) && now - s.updated_msecs >= UNCLAIMED_DISPATCHED_RECLAIM_MSECS
  }

  ghost predicate FoundDead(s: Slot, owner: Bytes, alive: set<int>) {
    s.state == Claimed && MatchesOwner(s, owner) && s.worker_pid > 0 && s.worker_pid !in alive
  }

  // The step carries the result and the summary that the task has now; a minimal completion leaves
  // the summary alone.
  ghost predicate Writes(w: World, step: Step, s: Slot, s': Slot) {
    match step
    case CompleteStep(k, code, summary, _, alive) =>
      && k < |w.claims| && w.claims[k].session_id == s.session_id
      && (w.claims[k].launcher_pid > 0 ==> w.claims[k].launcher_pid in alive)
      && s'.result_code == code && s'.summary == FixedBuffer(summary, SUMMARY_CAPACITY)
    case MinimalStep(k, code, _) =>
      k < |w.claims| && w.claims[k].session_id == s.session_id && s'.result_code == code && s'.summary == s.summary
    case MonitorStep(owner, alive, now) =>
      && s'.result_code == TIMEOUT_CODE
      && (|| (TimesOut(s, owner, now) && s'.summary == FixedBuffer(TIMEOUT_SUMMARY, SUMMARY_CAPACITY))
          || (FoundDead(s, owner, alive) && s'.summary == FixedBuffer(WORKER_EXIT_SUMMARY, SUMMARY_CAPACITY)))
    case _ => false
  }

  // What changes in a task is what the step was for: it is claimed by a claim; a result comes from a
  // completion of this task or from the monitor, the cancel flag from a cancel request for it, the
  // worker's PID from its launcher before the claim or from the claim. Who sent the task, and what,
  // never changes.
  ghost predicate Caused(w: World, step: Step, s: Slot, s': Slot) {
    && (if s'.state == Completed
        then (s.state == Completed && s'.result_code == s.result_code && s'.summary == s.summary)
             || Writes(w, step, s, s')
        else s'.result_code == s.result_code && s'.summary == s.summary)
    && (s'.state == Claimed && s.state != Claimed ==>
          s.state == Dispatched && step.ClaimStep? && step.session_id == s.session_id)
    && (s'.cancel_requested ==>
          || s.cancel_requested
          || (step.CancelStep? && step.session_id == s.session_id && step.generation == s.generation))
    && (s'.worker_pid != s.worker_pid ==>
          && s.state == Dispatched
          && (|| (step.WriteBackStep? && step.started == s.session_id && s'.worker_pid == step.worker)
              || (step.ClaimStep? && step.session_id == s.session_id && s'.worker_pid == step.pid)))
    && s'.owner == s.owner && s'.launcher_pid == s.launcher_pid && s'.command_kind == s.command_kind
    && s'.request_pool_slot == s.request_pool_slot && s'.request_payload_size == s.request_payload_size
  }

  ghost predicate Advances(w: World, step: Step, s: Slot, s': Slot) {
    && s.state != Empty && s'.state != Empty
    && s'.session_id == s.session_id && s'.generation == s.generation
    && s.published <= s'.published && s.acknowledged <= s'.acknowledged
    && (s.cancel_requested ==> s'.cancel_requested)
    && Caused(w, step, s, s')
  }

  // A slot stays, advances, is given back, or starts a new task.
  ghost predicate Moves(w: World, step: Step, s: Slot, s': Slot) {
    || s' == s
    || Advances(w, step, s, s')
    || (s.state != Empty && Clean(s') && Releases(w, step, s))
    || (s.state == Empty && Starts(w, step, s'))
  }

  lemma StayMoves(w: World, step: Step, s: Slot)
    ensures Moves(w, step, s, s)
  {}

  lemma AdvanceMoves(w: World, step: Step, s: Slot, s': Slot)
    requires s' == s || Advances(w, step, s, s')
    ensures Moves(w, step, s, s')
  {}

  lemma ReleaseMoves(w: World, step: Step, s: Slot, s': Slot)
    requires s.state != Empty && Clean(s') && Releases(w, step, s)
    ensures Moves(w, step, s, s')
  {}

  // Only slot j changes, and it moves as it may.
  lemma UpdateMoves(w: World, step: Step, i: nat, j: nat, s': Slot)
    requires WellFormed(w.table) && i < SLOT_COUNT && j < SLOT_COUNT && Moves(w, step, w.table.slots[j], s')
    ensures Moves(w, step, At(w.table, i), At(w.table.(slots := w.table.slots[j := s']), i))
  {
    hide Moves;
    StayMoves(w, step, w.table.slots[i]);
  }

  lemma RollbackMoves(w: World, id: nat, i: nat, digest: Digest)
    requires Inv(w, digest) && id in w.sent && i < SLOT_COUNT
    ensures Moves(w, RollbackStep(id), At(w.table, i),
                  At(Rollback(w.table, w.sent[id].slot, id, w.sent[id].generation), i))
  {
    hide Inv, Clean, Moves, ClearSlot, At;
    InvBasics(w, digest);
    SentOkAt(w, id, digest);
    var r := w.sent[id];
    var s := w.table.slots[r.slot];
    if IsTask(s, id, r.generation) {
      SessionSlot(w, r.slot, id, digest);
      ClearedIsClean(s, 0);
      ReleaseMoves(w, RollbackStep(id), s, ClearSlot(s, true));
      UpdateMoves(w, RollbackStep(id), i, r.slot, ClearSlot(s, true));
    } else {
      StayMoves(w, RollbackStep(id), At(w.table, i));
    }
  }

  lemma WriteBackMoves(w: World, id: nat, pid: int, now: int, i: nat, digest: Digest)
    requires Inv(w, digest) && id in w.sent && i < SLOT_COUNT
    ensures Moves(w, WriteBackStep(id, pid, now), At(w.table, i),
                  At(WriteBackPid(w.table, w.sent[id].slot, id, w.sent[id].generation, pid, now), i))
  {
    hide Inv, Moves, At, Encode;
    InvBasics(w, digest);
    SentOkAt(w, id, digest);
    var r, step := w.sent[id], WriteBackStep(id, pid, now);
    var s := w.table.slots[r.slot];
    if IsTask(s, id, r.generation) {
      var s' := if s.state == Dispatched then s.(worker_pid := pid, updated_msecs := now) else s;
      AdvanceMoves(w, step, s, s');
      UpdateMoves(w, step, i, r.slot, s');
    } else {
      StayMoves(w, step, At(w.table, i));
    }
  }

  lemma CompleteMoves(w: World, k: nat, code: int, summary: Bytes, now: int, alive: set<int>, i: nat, digest: Digest)
    requires Inv(w, digest) && k < |w.claims| && i < SLOT_COUNT
    ensures Moves(w, CompleteStep(k, code, summary, now, alive), At(w.table, i),
                  At(Complete(w.table, w.claims[k], code, summary, now, alive), i))
  {
    hide Inv, Moves, At, ClaimOk, FixedBuffer;
    InvBasics(w, digest);
    ClaimOkAt(w, k, digest);
    var c, step := w.claims[k], CompleteStep(k, code, summary, now, alive);
    var s := w.table.slots[c.slot_index];
    StayMoves(w, step, At(w.table, i));
    if IsTask(s, c.session_id, c.generation) {
      SessionSlot(w, c.slot_index, c.session_id, digest);
      var s' := PublishCompletion(s, code, summary, now).0;
      if c.launcher_pid > 0 ==> c.launcher_pid in alive {
        PublishedMoves(w, k, code, summary, now, alive, s);
        hide PublishCompletion;
        UpdateMoves(w, step, i, c.slot_index, s');
      }
    }
  }

  lemma PublishedMoves(w: World, k: nat, code: int, summary: Bytes, now: int, alive: set<int>, s: Slot)
    requires k < |w.claims| && w.claims[k].session_id == s.session_id && s.state != Empty && Counts(s)
    requires w.claims[k].launcher_pid > 0 ==> w.claims[k].launcher_pid in alive
    ensures Moves(w, CompleteStep(k, code, summary, now, alive), s, PublishCompletion(s, code, summary, now).0)
  {
    hide Clean, FixedBuffer;
  }

  lemma MinimalMoves(w: World, k: nat, code: int, now: int, i: nat, digest: Digest)
    requires Inv(w, digest) && k < |w.claims| && i < SLOT_COUNT
    ensures Moves(w, MinimalStep(k, code, now), At(w.table, i),
                  At(CompleteMinimal(w.table, w.claims[k], code, now), i))
  {
    hide Inv, Moves, At, ClaimOk, FixedBuffer;
    InvBasics(w, digest);
    ClaimOkAt(w, k, digest);
    var c, step := w.claims[k], MinimalStep(k, code, now);
    var s := w.table.slots[c.slot_index];
    StayMoves(w, step, At(w.table, i));
    if IsTask(s, c.session_id, c.generation) {
      SessionSlot(w, c.slot_index, c.session_id, digest);
      var s' := s.(result_code := code, updated_msecs := now, published := COMPLETED_SEQUENCE, state := Completed);
      AdvanceMoves(w, step, s, s');
      UpdateMoves(w, step, i, c.slot_index, s');
    }
  }

  lemma CancelMoves(w: World, id: nat, g: nat, now: int, i: nat, digest: Digest)
    requires Inv(w, digest) && WellFormed(w.table) && i < SLOT_COUNT
    ensures Moves(w, CancelStep(id, g, now), At(w.table, i), At(Cancel(w.table, id, g, now).0, i))
  {
    hide Inv, Clean;
    InvBasics(w, digest);
  }

  lemma MonitorMoves(w: World, owner: Bytes, alive: set<int>, now: int, i: nat, digest: Digest)
    requires Inv(w, digest) && i < SLOT_COUNT
    ensures Moves(w, MonitorStep(owner, alive, now), At(w.table, i), At(Monitor(w.table, owner, alive, now), i))
  {
    hide Inv, Moves, MonitorSlot;
    InvBasics(w, digest);
    SlotOkAt(w, i, digest);
    var s := w.table.slots[i];
    MonitorAdvances(w, s, owner, alive, now);
    AdvanceMoves(w, MonitorStep(owner, alive, now), s, MonitorSlot(s, owner, alive, now));
  }

  lemma MonitorAdvances(w: World, s: Slot, owner: Bytes, alive: set<int>, now: int)
    requires Counts(s)
    ensures var s' := MonitorSlot(s, owner, alive, now);
            s' == s || Advances(w, MonitorStep(owner, alive, now), s, s')
  {
    hide UpToNul, FixedBuffer, TextBytes;
  }

  lemma ClaimMoves(w: World, id: nat, g: nat, pid: int, now: int, lock_ok: bool, i: nat, digest: Digest)
    requires Inv(w, digest) && WellFormed(w.table) && i < SLOT_COUNT
    ensures Moves(w, ClaimStep(id, g, pid, now, lock_ok), At(w.table, i),
                  At(Claim(w.table, id, g, pid, now, digest, lock_ok).0, i))
  {
    hide Inv, Moves, TaskOf, At;
    InvBasics(w, digest);
    var step := ClaimStep(id, g, pid, now, lock_ok);
    var (t, outcome) := Claim(w.table, id, g, pid, now, digest, lock_ok);
    StayMoves(w, step, At(w.table, i));
    if outcome.Won? {
      var j := FirstTask(w.table.slots, id, g, true);
      var s := w.table.slots[j];
      AdvanceMoves(w, step, s, ClaimSlot(s, pid, now));
      UpdateMoves(w, step, i, j, ClaimSlot(s, pid, now));
    }
  }

  lemma AckMoves(w: World, k: nat, now: int, i: nat, digest: Digest)
    requires Inv(w, digest) && k < |w.collected| && i < SLOT_COUNT
    ensures Moves(w, AckStep(k, now), At(w.table, i), At(Acknowledge(w.table, w.collected[k], now).0, i))
  {
    hide Inv, Moves, AcknowledgeSlot, MatchesOwner, Trim, UpToNul, At;
    InvBasics(w, digest);
    EventOkAt(w, k, digest);
    var e, step := w.collected[k], AckStep(k, now);
    var t := Acknowledge(w.table, e, now).0;
    StayMoves(w, step, At(w.table, i));
    if t.slots != w.table.slots {
      var j :| 0 <= j < SLOT_COUNT && t.slots == w.table.slots[j := t.slots[j]]
               && w.table.slots[j].session_id == e.session_id
               && t.slots[j] == AcknowledgeSlot(w.table.slots[j], e.sequence, now);
      var s := w.table.slots[j];
      SessionSlot(w, j, e.session_id, digest);
      AcknowledgedMoves(w, k, now, s);
      UpdateMoves(w, step, i, j, t.slots[j]);
    }
  }

  lemma AcknowledgedMoves(w: World, k: nat, now: int, s: Slot)
    requires k < |w.collected| && w.collected[k].session_id == s.session_id
    requires w.collected[k].kind == KindForSequence(w.collected[k].sequence)
    requires Counts(s) && s.state != Empty && w.collected[k].sequence <= s.published
    ensures Moves(w, AckStep(k, now), s, AcknowledgeSlot(s, w.collected[k].sequence, now))
  {
    hide Clean, ClearSlot;
    ClearedIsClean(s.(acknowledged := w.collected[k].sequence, updated_msecs := now), now);
  }

  lemma DispatchMoves(w: World, r: Request, semaphore_ok: bool, lock_ok: bool, i: nat, digest: Digest)
    requires Inv(w, digest) && WellFormed(w.table) && |w.sent| < SESSION_MODULUS - 1 && i < SLOT_COUNT
    ensures Moves(w, DispatchStep(r, semaphore_ok, lock_ok), At(w.table, i),
                  At(Dispatch(w.table, r, digest, semaphore_ok, lock_ok).0, i))
  {
    hide Inv, Encode, PoolWrite, Trim, FixedBuffer, UpToNul;
    InvBasics(w, digest);
    NextSession(w, digest);
    SlotOkAt(w, i, digest);
  }

  // Every slot moves as it may under every step.
  lemma StepMoves(w: World, step: Step, i: nat, digest: Digest)
    requires Inv(w, digest) && WellFormed(w.table) && Legal(w, step) && i < SLOT_COUNT
    ensures Moves(w, step, At(w.table, i), At(Apply(w, step, digest).table, i))
  {
    hide Inv, Moves, At, Dispatch, Rollback, WriteBackPid, Claim, Cancel, Complete, CompleteMinimal, Monitor,
         Collect, Acknowledge;
    match step
    case DispatchStep(r, semaphore_ok, lock_ok) => DispatchMoves(w, r, semaphore_ok, lock_ok, i, digest);
    case RollbackStep(id) => RollbackMoves(w, id, i, digest);
    case WriteBackStep(id, pid, now) => WriteBackMoves(w, id, pid, now, i, digest);
    case ClaimStep(id, g, pid, now, lock_ok) => ClaimMoves(w, id, g, pid, now, lock_ok, i, digest);
    case CancelStep(id, g, now) => CancelMoves(w, id, g, now, i, digest);
    case CompleteStep(k, code, summary, now, alive) => CompleteMoves(w, k, code, summary, now, alive, i, digest);
    case MinimalStep(k, code, now) => MinimalMoves(w, k, code, now, i, digest);
    case MonitorStep(owner, alive, now) => MonitorMoves(w, owner, alive, now, i, digest);
    case CollectStep(owner, readable) => CollectMoves(w, owner, readable, i, digest);
    case AckStep(k, now) => AckMoves(w, k, now, i, digest);
  }

  lemma CollectMoves(w: World, owner: Bytes, readable: set<nat>, i: nat, digest: Digest)
    requires Inv(w, digest) && i < SLOT_COUNT
    ensures Moves(w, CollectStep(owner, readable), At(w.table, i), At(Collect(w.table, owner, readable, digest).0, i))
  {
    hide Inv, Moves, At;
    InvBasics(w, digest);
    StayMoves(w, CollectStep(owner, readable), At(w.table, i));
  }

  // ---------- identity ----------

  // Tasks in the table have distinct, non-zero sessions that were all handed out by a dispatch.
  lemma SessionsAreUnique(w: World, i: nat, j: nat, digest: Digest)
    requires Reachable(w, digest) && i < j < SLOT_COUNT
    requires At(w.table, i).state != Empty && At(w.table, j).state != Empty
    ensures 0 < At(w.table, i).session_id <= |w.sent|
    ensures At(w.table, i).session_id != At(w.table, j).session_id
  {
    hide Inv, Encode, Reachable;
    ReachableInv(w, digest);
    SlotOkAt(w, i, digest);
    SlotOkAt(w, j, digest);
    SentOkAt(w, w.table.slots[i].session_id, digest);
  }

  // The task was dispatched once and no slot is its any more.
  ghost predicate Ended(w: World, session_id: nat) {
    session_id in w.sent && forall i | 0 <= i < |w.table.slots| :: w.table.slots[i].session_id != session_id
  }

  lemma SentStays(w: World, step: Step, digest: Digest)
    requires Inv(w, digest) && WellFormed(w.table) && Legal(w, step)
    ensures forall s | s in w.sent :: s in Apply(w, step, digest).sent && Apply(w, step, digest).sent[s] == w.sent[s]
  {
    hide Inv, Encode, Rollback, WriteBackPid, Claim, Cancel, Complete, CompleteMinimal, Monitor, Collect, Acknowledge,
         PoolWrite, FreshSlot, Reclaim, ValidOwner;
    if step.DispatchStep? { NextSession(w, digest); }
  }

  lemma EndedStays(w: World, step: Step, session_id: nat, digest: Digest)
    requires Inv(w, digest) && WellFormed(w.table) && Legal(w, step) && Ended(w, session_id)
    ensures Ended(Apply(w, step, digest), session_id)
  {
    hide Inv, Apply, Clean;
    var w' := Apply(w, step, digest);
    StepKeepsInv(w, step, digest);
    InvBasics(w', digest);
    SentStays(w, step, digest);
    SentOkAt(w, session_id, digest);
    forall i | 0 <= i < SLOT_COUNT ensures w'.table.slots[i].session_id != session_id {
      StepMoves(w, step, i, digest);
      MovedSession(w, step, At(w.table, i), At(w'.table, i), session_id, digest);
    }
  }

  lemma MovedSession(w: World, step: Step, s: Slot, s': Slot, session_id: nat, digest: Digest)
    requires Inv(w, digest) && Moves(w, step, s, s') && session_id in w.sent && s.session_id != session_id
    ensures s'.session_id != session_id
  {
    hide Inv;
    SentOkAt(w, session_id, digest);
  }

  // A task that ended never comes back, however the run goes on.
  lemma {:induction false} NoIncarnationReturns(w: World, steps: seq<Step>, session_id: nat, digest: Digest)
    requires Inv(w, digest) && Ended(w, session_id) && Exec(w, steps, digest).Some?
    ensures Ended(Exec(w, steps, digest).value, session_id)
    decreases |steps|
  {
    hide Inv, Apply, Legal, Ended;
    if steps != [] {
      StepKeepsInv(w, steps[0], digest);
      EndedStays(w, steps[0], session_id, digest);
      NoIncarnationReturns(Apply(w, steps[0], digest), steps[1..], session_id, digest);
    }
  }

  // Whatever is done with a handle or an event of an ended task changes nothing.
  lemma StaleHandlesAreInert(w: World, session_id: nat, generation: nat, digest: Digest)
    requires Inv(w, digest) && WellFormed(w.table) && Ended(w, session_id)
    ensures forall i, g :: Rollback(w.table, i, session_id, g) == w.table
    ensures forall i, g, pid, now :: WriteBackPid(w.table, i, session_id, g, pid, now) == w.table
    ensures forall pid, now, ok ::
              Claim(w.table, session_id, generation, pid, now, digest, ok).0 == w.table
              && !Claim(w.table, session_id, generation, pid, now, digest, ok).1.Won?
    ensures forall now ::
              Cancel(w.table, session_id, generation, now).0 == w.table
              && !Cancel(w.table, session_id, generation, now).1.CancelPosted?
    ensures forall task: ClaimedTask | task.session_id == session_id :: !CancelRequested(w.table, task)
    ensures forall task: ClaimedTask, code, summary, now, alive | task.session_id == session_id ::
              Complete(w.table, task, code, summary, now, alive) == w.table
    ensures forall task: ClaimedTask, code, now | task.session_id == session_id ::
              CompleteMinimal(w.table, task, code, now) == w.table
    ensures forall e: Event, now | e.session_id == session_id :: Acknowledge(w.table, e, now).0 == w.table
  {
    hide Inv, Trim, MatchesOwner, PublishCompletion, ClearSlot, TaskOf, AcknowledgeSlot, ClaimSlot;
    InvBasics(w, digest);
    assert w.table.(slots := w.table.slots) == w.table;
  }

  // A live task's handle reaches that task's slot and no other.
  lemma HandlesReachOnlyTheirTask(w: World, task: ClaimedTask, i: nat, digest: Digest)
    requires Inv(w, digest) && WellFormed(w.table) && i < SLOT_COUNT && At(w.table, i).session_id != task.session_id
    ensures forall j, g :: At(Rollback(w.table, j, task.session_id, g), i) == At(w.table, i)
    ensures forall j, g, pid, now :: At(WriteBackPid(w.table, j, task.session_id, g, pid, now), i) == At(w.table, i)
    ensures forall g, pid, now, ok ::
              At(Claim(w.table, task.session_id, g, pid, now, digest, ok).0, i) == At(w.table, i)
    ensures forall g, now :: At(Cancel(w.table, task.session_id, g, now).0, i) == At(w.table, i)
    ensures forall code, summary, now, alive ::
              At(Complete(w.table, task, code, summary, now, alive), i) == At(w.table, i)
    ensures forall code, now :: At(CompleteMinimal(w.table, task, code, now), i) == At(w.table, i)
    ensures forall e: Event, now | e.session_id == task.session_id ::
              At(Acknowledge(w.table, e, now).0, i) == At(w.table, i)
  {
    hide Inv, At, Rollback, WriteBackPid, Claim, Cancel, Complete, CompleteMinimal, Acknowledge;
    LaunchReachesOnlyItsTask(w, task.session_id, i, digest);
    ClaimReachesOnlyItsTask(w, task.session_id, i, digest);
    CompletionReachesOnlyItsTask(w, task, i, digest);
  }

  lemma LaunchReachesOnlyItsTask(w: World, session_id: nat, i: nat, digest: Digest)
    requires Inv(w, digest) && WellFormed(w.table) && i < SLOT_COUNT && At(w.table, i).session_id != session_id
    ensures forall j, g :: At(Rollback(w.table, j, session_id, g), i) == At(w.table, i)
    ensures forall j, g, pid, now :: At(WriteBackPid(w.table, j, session_id, g, pid, now), i) == At(w.table, i)
  {
    hide Inv, ClearSlot;
    InvBasics(w, digest);
  }

  lemma ClaimReachesOnlyItsTask(w: World, session_id: nat, i: nat, digest: Digest)
    requires Inv(w, digest) && WellFormed(w.table) && i < SLOT_COUNT && At(w.table, i).session_id != session_id
    ensures forall g, pid, now, ok :: At(Claim(w.table, session_id, g, pid, now, digest, ok).0, i) == At(w.table, i)
    ensures forall g, now :: At(Cancel(w.table, session_id, g, now).0, i) == At(w.table, i)
  {
    hide Inv, TaskOf, ClaimSlot;
    InvBasics(w, digest);
  }

  lemma CompletionReachesOnlyItsTask(w: World, task: ClaimedTask, i: nat, digest: Digest)
    requires Inv(w, digest) && WellFormed(w.table) && i < SLOT_COUNT && At(w.table, i).session_id != task.session_id
    ensures forall code, summary, now, alive ::
              At(Complete(w.table, task, code, summary, now, alive), i) == At(w.table, i)
    ensures forall code, now :: At(CompleteMinimal(w.table, task, code, now), i) == At(w.table, i)
    ensures forall e: Event, now | e.session_id == task.session_id ::
              At(Acknowledge(w.table, e, now).0, i) == At(w.table, i)
  {
    hide Inv, Trim, MatchesOwner, PublishCompletion, AcknowledgeSlot;
    InvBasics(w, digest);
  }

  // ---------- the worker gets what the launcher sent ----------

  lemma ClaimDelivers(w: World, session_id: nat, generation: nat, pid: int, now: int, lock_ok: bool, digest: Digest)
    requires Inv(w, digest) && WellFormed(w.table)
    requires Claim(w.table, session_id, generation, pid, now, digest, lock_ok).1.Won?
    ensures var task := Claim(w.table, session_id, generation, pid, now, digest, lock_ok).1.task;
            && session_id in w.sent && w.sent[session_id].generation == generation
            && task.payload == Ok(w.sent[session_id].request.payload)
            && task.launcher_pid == w.sent[session_id].request.launcher_pid
            && task.worker_pid == pid
  {
    var (t, outcome) := Claim(w.table, session_id, generation, pid, now, digest, lock_ok);
    var w' := w.(table := t, claims := w.claims + [outcome.task]);
    hide Inv, TaskOf, Encode, UpToNul;
    ClaimKeepsInv(w, session_id, generation, pid, now, lock_ok, digest);
    ClaimOkAt(w', |w.claims|, digest);
    ClaimedIdentity(w, session_id, generation, pid, now, lock_ok, digest);
  }

  lemma ClaimedIdentity(w: World, session_id: nat, generation: nat, pid: int, now: int, lock_ok: bool, digest: Digest)
    requires WellFormed(w.table)
    requires Claim(w.table, session_id, generation, pid, now, digest, lock_ok).1.Won?
    ensures var task := Claim(w.table, session_id, generation, pid, now, digest, lock_ok).1.task;
            task.session_id == session_id && task.generation == generation && task.worker_pid == pid
  {
    hide Reclaim, ReadRequestPayload, UpToNul;
  }

  lemma {:induction false} SentStaysAlong(w: World, steps: seq<Step>, session_id: nat, digest: Digest)
    requires Inv(w, digest) && session_id in w.sent && Exec(w, steps, digest).Some?
    ensures session_id in Exec(w, steps, digest).value.sent
    ensures Exec(w, steps, digest).value.sent[session_id] == w.sent[session_id]
    decreases |steps|
  {
    hide Inv, Apply, Legal;
    if steps != [] {
      StepKeepsInv(w, steps[0], digest);
      SentStays(w, steps[0], digest);
      SentStaysAlong(Apply(w, steps[0], digest), steps[1..], session_id, digest);
    }
  }

  // End to end: dispatch a request, let anything happen, claim it: the payload is the one dispatched.
  lemma EndToEnd(w: World, r: Request, semaphore_ok: bool, lock_ok: bool, between: seq<Step>, pid: int, now: int,
                 claim_ok: bool, digest: Digest)
    requires Reachable(w, digest) && WellFormed(w.table) && Legal(w, DispatchStep(r, semaphore_ok, lock_ok))
    requires Dispatch(w.table, r, digest, semaphore_ok, lock_ok).1.Started?
    requires Exec(Apply(w, DispatchStep(r, semaphore_ok, lock_ok), digest), between, digest).Some?
    requires var started := Dispatch(w.table, r, digest, semaphore_ok, lock_ok).1;
             var w2 := Exec(Apply(w, DispatchStep(r, semaphore_ok, lock_ok), digest), between, digest).value;
             && WellFormed(w2.table)
             && Claim(w2.table, started.session_id, started.generation, pid, now, digest, claim_ok).1.Won?
    ensures var started := Dispatch(w.table, r, digest, semaphore_ok, lock_ok).1;
            var w2 := Exec(Apply(w, DispatchStep(r, semaphore_ok, lock_ok), digest), between, digest).value;
            Claim(w2.table, started.session_id, started.generation, pid, now, digest, claim_ok).1.task.payload
            == Ok(r.payload)
  {
    hide Inv, Claim, Dispatch, Exec, Reachable;
    ReachableInv(w, digest);
    var step := DispatchStep(r, semaphore_ok, lock_ok);
    var started := Dispatch(w.table, r, digest, semaphore_ok, lock_ok).1;
    var w1 := Apply(w, step, digest);
    StepKeepsInv(w, step, digest);
    ExecKeepsInv(w1, between, digest);
    SentStaysAlong(w1, between, started.session_id, digest);
    ClaimDelivers(Exec(w1, between, digest).value, started.session_id, started.generation, pid, now, claim_ok, digest);
  }

  // At most one claim ever succeeds for a task.
  lemma OneClaimPerTask(w: World, j: nat, k: nat, digest: Digest)
    requires Reachable(w, digest) && j < |w.claims| && k < |w.claims|
    requires w.claims[j].session_id == w.claims[k].session_id
    ensures j == k
  {
    hide SlotOk, ClaimOk, EventOk, SentOk, Reachable;
    ReachableInv(w, digest);
  }

  // ---------- the life of a slot ----------

  lemma StateIsSequence(w: World, i: nat, digest: Digest)
    requires Reachable(w, digest) && i < SLOT_COUNT
    ensures var s := At(w.table, i);
            && StateCode(s.state) == s.published
            && s.acknowledged <= s.published && s.acknowledged < COMPLETED_SEQUENCE
            && Reclaim(w.table.slots) == w.table.slots
  {
    hide Inv, Encode, Reachable;
    ReachableInv(w, digest);
    InvBasics(w, digest);
    SlotOkAt(w, i, digest);
  }

  // A task only moves forward, is given back only by its acknowledged completion or by launch
  // rollback, and the slot it leaves starts the next one without a cancel request.
  lemma SlotLifeCycle(w: World, step: Step, i: nat, digest: Digest)
    requires Reachable(w, digest) && WellFormed(w.table) && Legal(w, step) && i < SLOT_COUNT
    ensures var s, s' := At(w.table, i), At(Apply(w, step, digest).table, i);
            && (s'.session_id == s.session_id ==> StateCode(s.state) <= StateCode(s'.state))
            && (s'.session_id == s.session_id && s.state != Empty ==> s' == s || Caused(w, step, s, s'))
            && (s'.session_id != s.session_id && s.state != Empty ==> s'.state == Empty && Releases(w, step, s))
            && (s'.session_id != s.session_id && s.state == Empty ==> Starts(w, step, s'))
  {
    hide Inv, Apply, Reachable, Encode, UpToNul;
    ReachableInv(w, digest);
    StepKeepsInv(w, step, digest);
    StepMoves(w, step, i, digest);
    SlotOkAt(w, i, digest);
    SlotOkAt(Apply(w, step, digest), i, digest);
    if At(w.table, i).state != Empty { SentOkAt(w, At(w.table, i).session_id, digest); }
  }

  // ---------- what an owner collects ----------

  lemma {:induction false} EventsFromExactly(s: Slot, owner: Bytes, sequence: nat, payload: Payload, k: nat)
    requires sequence <= s.published + 1
    ensures |EventsFrom(s, owner, sequence, payload)| == s.published + 1 - sequence
    ensures k < |EventsFrom(s, owner, sequence, payload)| ==>
              EventsFrom(s, owner, sequence, payload)[k] == BuildEvent(s, owner, sequence + k, payload)
    decreases s.published + 1 - sequence
  {
    hide BuildEvent;
    if sequence <= s.published {
      EventsFromExactly(s, owner, sequence + 1, payload, if k > 0 then k - 1 else 0);
    }
  }

  // The pending events are acknowledged + 1, ..., published, each once and in this order.
  lemma PendingExactly(s: Slot, owner: Bytes, payload: Payload, k: nat)
    requires s.acknowledged <= s.published
    ensures |PendingEvents(s, owner, payload)| == s.published - s.acknowledged
    ensures k < |PendingEvents(s, owner, payload)| ==>
              && PendingEvents(s, owner, payload)[k].sequence == s.acknowledged + 1 + k
              && PendingEvents(s, owner, payload)[k].kind == KindForSequence(s.acknowledged + 1 + k)
              && PendingEvents(s, owner, payload)[k].session_id == s.session_id
              && PendingEvents(s, owner, payload)[k].result_code == s.result_code
  {
    if HasPendingEvents(s) { EventsFromExactly(s, owner, s.acknowledged + 1, payload, k); }
  }

  // The events of a collection are the pending events of the slots that answer to the owner.
  lemma CollectedExactly(slots: seq<Slot>, pool: Bytes, owner: Bytes, readable: set<nat>, digest: Digest, i: nat,
                         e: Event)
    requires i <= |slots|
    ensures e in EventsOf(slots, pool, owner, readable, digest, i) <==>
            exists j: nat | i <= j < |slots| :: e in SlotEvents(slots[j], pool, owner, j in readable, digest)
  {
    hide *;
    if e in EventsOf(slots, pool, owner, readable, digest, i) {
      var j := CollectedSlot(slots, pool, owner, readable, digest, i, e);
    }
    if j: nat :| i <= j < |slots| && e in SlotEvents(slots[j], pool, owner, j in readable, digest) {
      SlotCollected(slots, pool, owner, readable, digest, i, j, e);
    }
  }

  lemma {:induction false} CollectedSlot(slots: seq<Slot>, pool: Bytes, owner: Bytes, readable: set<nat>,
                                         digest: Digest, i: nat, e: Event)
    returns (j: nat)
    requires i <= |slots| && e in EventsOf(slots, pool, owner, readable, digest, i)
    ensures i <= j < |slots| && e in SlotEvents(slots[j], pool, owner, j in readable, digest)
    decreases |slots| - i
  {
    hide *;
    if i == |slots| {
      NothingCollected(slots, pool, owner, readable, digest);
      assert false;
    } else {
      CollectedUnfold(slots, pool, owner, readable, digest, i, e);
      if e in SlotEvents(slots[i], pool, owner, i in readable, digest) {
        j := i;
      } else {
        j := CollectedSlot(slots, pool, owner, readable, digest, i + 1, e);
      }
    }
  }

  lemma {:induction false} SlotCollected(slots: seq<Slot>, pool: Bytes, owner: Bytes, readable: set<nat>,
                                         digest: Digest, i: nat, j: nat, e: Event)
    requires i <= j < |slots| && e in SlotEvents(slots[j], pool, owner, j in readable, digest)
    ensures e in EventsOf(slots, pool, owner, readable, digest, i)
    decreases j - i
  {
    hide *;
    var next: nat := i + 1;
    CollectedUnfold(slots, pool, owner, readable, digest, i, e);
    if i < j {
      SlotCollected(slots, pool, owner, readable, digest, next, j, e);
      assert e in EventsOf(slots, pool, owner, readable, digest, i);
    }
  }

  lemma NothingCollected(slots: seq<Slot>, pool: Bytes, owner: Bytes, readable: set<nat>, digest: Digest)
    ensures EventsOf(slots, pool, owner, readable, digest, |slots|) == []
  {}

  lemma CollectedUnfold(slots: seq<Slot>, pool: Bytes, owner: Bytes, readable: set<nat>, digest: Digest, i: nat,
                        e: Event)
    requires i < |slots|
    ensures e in EventsOf(slots, pool, owner, readable, digest, i) <==>
            e in SlotEvents(slots[i], pool, owner, i in readable, digest)
            || e in EventsOf(slots, pool, owner, readable, digest, i + 1)
  {
    hide SlotEvents;
  }

  lemma EventsUnfold(slots: seq<Slot>, pool: Bytes, owner: Bytes, readable: set<nat>, digest: Digest, i: nat)
    requires i < |slots|
    ensures EventsOf(slots, pool, owner, readable, digest, i) ==
            SlotEvents(slots[i], pool, owner, i in readable, digest)
            + EventsOf(slots, pool, owner, readable, digest, i + 1)
  {
    hide SlotEvents;
  }

  lemma UpToNulOfFixed(value: Bytes)
    requires |value| < OWNER_CAPACITY
    ensures UpToNul(FixedBuffer(value, OWNER_CAPACITY)) == value <==> 0 !in value
  {
    FixedBufferRoundTrip(value, OWNER_CAPACITY);
  }

  // A task's events reach its own owner, and nobody else, exactly when the owner id has no NUL.
  lemma EventsReachOnlyTheOwner(w: World, i: nat, digest: Digest)
    requires Reachable(w, digest) && i < SLOT_COUNT && At(w.table, i).state != Empty
    ensures At(w.table, i).session_id in w.sent
    ensures var sender := w.sent[At(w.table, i).session_id].request.owner;
            (forall owner :: MatchesOwner(At(w.table, i), Trim(owner)) <==> Trim(owner) == Trim(sender))
            <==> 0 !in Trim(sender)
  {
    hide Inv, Encode, FixedBuffer, UpToNul, Trim, Reachable;
    ReachableInv(w, digest);
    SlotOkAt(w, i, digest);
    var s := At(w.table, i);
    SentOkAt(w, s.session_id, digest);
    var sender := w.sent[s.session_id].request.owner;
    UpToNulOfFixed(Trim(sender));
  }
}
