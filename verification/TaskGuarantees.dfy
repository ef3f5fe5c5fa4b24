/**
  What a caller of the task table can rely on: when a dispatch starts a task and a claim
  wins it, what launch handles do, that an acknowledged event is not seen again, and that
  a cancel request is seen until the task is over.
 */
module TaskGuarantees {
  import opened Basics
  import opened QtStream
  import opened AsciiText
  import opened TaskSlots
  import opened PayloadCodec
  import opened TaskTable
  import opened TaskProtocol
  import opened TaskTheorems
  import opened TaskResults
  import opened TaskEffects

  // ---------- dispatch ----------

  ghost predicate SomeEmpty(t: Table) {
    exists i :: 0 <= i < |t.slots| && t.slots[i].state == Empty
  }

  ghost predicate Acceptable(r: Request, digest: Digest) {
    Trim(r.owner) != [] && |Trim(r.owner)| < OWNER_CAPACITY && |Encode(r.payload, digest)| <= POOL_SLOT_SIZE
  }

  // What a new task looks like.
  ghost predicate NewTask(s: Slot, generation: nat, id: nat, r: Request) {
    && s.state == Dispatched && s.session_id == id && s.generation == generation
    && s.published == DISPATCHED_SEQUENCE && s.acknowledged == 0 && !s.cancel_requested
    && s.result_code == 0 && s.worker_pid == 0 && s.launcher_pid == r.launcher_pid
    && s.command_kind == r.payload.command && s.refresh_after_finish == r.payload.refresh_after_finish
    && s.updated_msecs == r.now
  }

  // A dispatch starts a task exactly if the request is acceptable, a slot is empty, and the
  // semaphore and the region's lock are to be had. The task takes an empty slot, under the next
  // session id; otherwise nothing changes.
  lemma DispatchStarts(w: World, r: Request, semaphore_ok: bool, lock_ok: bool, digest: Digest)
    requires Inv(w, digest) && WellFormed(w.table) && |w.sent| < SESSION_MODULUS - 1
    ensures var outcome := Dispatch(w.table, r, digest, semaphore_ok, lock_ok).1;
            outcome.Started? <==> Acceptable(r, digest) && SomeEmpty(w.table) && semaphore_ok && lock_ok
    ensures var outcome := Dispatch(w.table, r, digest, semaphore_ok, lock_ok).1;
            && (outcome.QueueFull? <==> Acceptable(r, digest) && !SomeEmpty(w.table))
            && (outcome.NoSemaphore? <==> Acceptable(r, digest) && SomeEmpty(w.table) && !semaphore_ok)
            && (outcome.BadOwner? <==> Trim(r.owner) == [] || |Trim(r.owner)| >= OWNER_CAPACITY)
    ensures var (t, outcome) := Dispatch(w.table, r, digest, semaphore_ok, lock_ok);
            if outcome.Started?
            then
              && outcome.session_id == |w.sent| + 1 && outcome.slot_index < SLOT_COUNT
              && w.table.slots[outcome.slot_index].state == Empty
              && outcome.generation == w.table.slots[outcome.slot_index].generation
              && |t.slots| == SLOT_COUNT
              && NewTask(t.slots[outcome.slot_index], outcome.generation, outcome.session_id, r)
              && t.slots == w.table.slots[outcome.slot_index := t.slots[outcome.slot_index]]
            else t == w.table
  {
    hide Inv, Encode, PoolWrite, Trim, FixedBuffer, UpToNul, Reclaim;
    InvBasics(w, digest);
    NextSession(w, digest);
    var i := FirstEmpty(w.table.slots);
    if i < SLOT_COUNT {
      SlotOkAt(w, i, digest);
      assert w.table.slots[i := w.table.slots[i]] == w.table.slots;
    }
  }

  // ---------- launch handles ----------

  // A rollback takes the task out of the table, whatever has become of it, and the slot moves on to
  // another generation.
  lemma RollbackEnds(w: World, id: nat, i: nat, digest: Digest)
    requires Inv(w, digest) && WellFormed(w.table) && id in w.sent && i < SLOT_COUNT
    ensures Ended(After(w, RollbackStep(id), digest), id)
    ensures w.table.slots[i].session_id == id ==>
              var s' := SlotAfter(w, RollbackStep(id), i, digest);
              s'.state == Empty && s'.generation == NextGeneration(w.table.slots[i].generation)
  {
    hide Inv, Encode, UpToNul, FixedBuffer, Trim, Dispatch, WriteBackPid, Claim, Cancel, Complete, CompleteMinimal,
      Monitor, Collect, Acknowledge, Zeros;
    InvBasics(w, digest);
    SentOkAt(w, id, digest);
    forall j | 0 <= j < SLOT_COUNT && w.table.slots[j].session_id == id
      ensures w.sent[id].slot == j && w.table.slots[j].generation == w.sent[id].generation
    {
      SessionSlot(w, j, id, digest);
    }
  }

  // The launcher's PID write-back arrives as long as the task is unclaimed.
  lemma WriteBackArrives(w: World, id: nat, pid: int, now: int, i: nat, digest: Digest)
    requires Inv(w, digest) && WellFormed(w.table) && id in w.sent && i < SLOT_COUNT
    requires w.table.slots[i].session_id == id
    ensures var s := w.table.slots[i];
            SlotAfter(w, WriteBackStep(id, pid, now), i, digest) ==
            if s.state == Dispatched then s.(worker_pid := pid, updated_msecs := now) else s
  {
    hide Inv, Encode, UpToNul, FixedBuffer, Trim, Dispatch, Rollback, Claim, Cancel, Complete, CompleteMinimal,
      Monitor, Collect, Acknowledge;
    InvBasics(w, digest);
    SentOkAt(w, id, digest);
    SessionSlot(w, i, id, digest);
  }

  // ---------- claim ----------

  ghost predicate Offered(t: Table, id: nat, generation: nat) {
    exists i :: 0 <= i < |t.slots| && t.slots[i].state == Dispatched
                && t.slots[i].session_id == id && t.slots[i].generation == generation
  }

  // A claim wins exactly if the region's lock is to be had and the task waits in some slot. The
  // claimer is recorded there and the Claimed event is published; otherwise nothing changes.
  lemma ClaimWins(w: World, id: nat, generation: nat, pid: int, now: int, lock_ok: bool, digest: Digest)
    requires Inv(w, digest) && WellFormed(w.table)
    ensures var outcome := Claim(w.table, id, generation, pid, now, digest, lock_ok).1;
            outcome.Won? <==> Offered(w.table, id, generation) && lock_ok
    ensures var (t, outcome) := Claim(w.table, id, generation, pid, now, digest, lock_ok);
            if outcome.Won?
            then
              var i := outcome.task.slot_index;
              && 0 <= i < SLOT_COUNT && IsTask(w.table.slots[i], id, generation)
              && t == w.table.(slots := w.table.slots[i := w.table.slots[i].(
                   state := Claimed, published := CLAIMED_SEQUENCE, worker_pid := pid, updated_msecs := now)])
            else t == w.table
  {
    hide Inv, TaskOf, Counts;
    InvBasics(w, digest);
    forall i | 0 <= i < SLOT_COUNT && w.table.slots[i].state == Dispatched
      ensures w.table.slots[i].session_id > 0 && w.table.slots[i].generation > 0 && w.table.slots[i].published == 1
    {
      WaitingSlot(w, i, digest);
    }
    if Claim(w.table, id, generation, pid, now, digest, lock_ok).1.Won? {
      WonSlot(w, id, generation, pid, now, digest);
    }
  }

  lemma WonSlot(w: World, id: nat, generation: nat, pid: int, now: int, digest: Digest)
    requires WellFormed(w.table) && Claim(w.table, id, generation, pid, now, digest, true).1.Won?
    ensures var i := Claim(w.table, id, generation, pid, now, digest, true).1.task.slot_index;
            i == FirstTask(Reclaim(w.table.slots), id, generation, true)
  {
    hide Reclaim, ReadRequestPayload, UpToNul, ClaimSlot;
  }

  lemma WaitingSlot(w: World, i: nat, digest: Digest)
    requires Inv(w, digest) && WellFormed(w.table) && i < SLOT_COUNT && w.table.slots[i].state == Dispatched
    ensures w.table.slots[i].session_id > 0 && w.table.slots[i].generation > 0 && w.table.slots[i].published == 1
  {
    hide Inv, Encode, UpToNul, FixedBuffer, Trim;
    SlotOkAt(w, i, digest);
    SentOkAt(w, w.table.slots[i].session_id, digest);
  }

  // ---------- cancel ----------

  ghost predicate Cancellable(t: Table, id: nat, generation: nat) {
    exists i :: 0 <= i < |t.slots| && IsTask(t.slots[i], id, generation)
                && (t.slots[i].state == Dispatched || t.slots[i].state == Claimed)
  }

  // A cancel request is posted exactly for a task that is waiting or running.
  lemma CancelPosts(w: World, id: nat, generation: nat, now: int, digest: Digest)
    requires Inv(w, digest) && WellFormed(w.table)
    ensures Cancel(w.table, id, generation, now).1.CancelPosted? <==> Cancellable(w.table, id, generation)
    ensures Cancel(w.table, id, generation, now).1.CancelPosted? ==>
              exists i :: 0 <= i < SLOT_COUNT && IsTask(w.table.slots[i], id, generation)
                          && Cancel(w.table, id, generation, now).0 == w.table.(slots := w.table.slots[
                               i := w.table.slots[i].(cancel_requested := true, updated_msecs := now)])
    ensures !Cancel(w.table, id, generation, now).1.CancelPosted? ==> Cancel(w.table, id, generation, now).0 == w.table
  {
    hide Inv;
    InvBasics(w, digest);
    var i := FirstTask(w.table.slots, id, generation, false);
    forall j | 0 <= j < SLOT_COUNT && IsTask(w.table.slots[j], id, generation) && w.table.slots[j].state != Empty
      ensures id > 0 && generation > 0 && i == j
    {
      TaskHandle(w, j, digest);
      OneSlot(w, i, j, id, digest);
    }
  }

  lemma TaskHandle(w: World, j: nat, digest: Digest)
    requires Inv(w, digest) && WellFormed(w.table) && j < SLOT_COUNT && w.table.slots[j].state != Empty
    ensures w.table.slots[j].session_id > 0 && w.table.slots[j].generation > 0
  {
    hide Inv, Encode, UpToNul, FixedBuffer, Trim;
    SlotOkAt(w, j, digest);
    SentOkAt(w, w.table.slots[j].session_id, digest);
  }

  // The tasks for which the step posts a cancel request.
  ghost function CancelsOf(w: World, step: Step): set<nat> {
    match step
    case CancelStep(id, generation, _) => if Cancellable(w.table, id, generation) then {id} else {}
    case _ => {}
  }

  ghost function Cancels(w: World, steps: seq<Step>, digest: Digest): set<nat>
    decreases |steps|
  {
    if steps == [] || !WellFormed(w.table) || !Legal(w, steps[0]) then {}
    else CancelsOf(w, steps[0]) + Cancels(Apply(w, steps[0], digest), steps[1..], digest)
  }

  // The flag tells for which tasks a request was posted.
  ghost predicate Flagged(w: World, ids: set<nat>) {
    && (forall id | id in ids :: id in w.sent)
    && forall i | 0 <= i < |w.table.slots| && w.table.slots[i].state != Empty ::
         w.table.slots[i].cancel_requested <==> w.table.slots[i].session_id in ids
  }

  lemma StepFlags(w: World, step: Step, ids: set<nat>, digest: Digest)
    requires Inv(w, digest) && WellFormed(w.table) && Legal(w, step) && Flagged(w, ids)
    ensures Flagged(Apply(w, step, digest), ids + CancelsOf(w, step))
  {
    hide Inv, Apply, CancelsOf, At, Legal;
    var w', more := Apply(w, step, digest), ids + CancelsOf(w, step);
    StepKeepsInv(w, step, digest);
    InvBasics(w', digest);
    SentStays(w, step, digest);
    CanceledWereSent(w, step, digest);
    forall i | 0 <= i < |w'.table.slots| && w'.table.slots[i].state != Empty
      ensures w'.table.slots[i].cancel_requested <==> w'.table.slots[i].session_id in more
    {
      SlotFlag(w, step, ids, i, digest);
    }
  }

  lemma CanceledWereSent(w: World, step: Step, digest: Digest)
    requires Inv(w, digest) && WellFormed(w.table)
    ensures forall id | id in CancelsOf(w, step) :: id in w.sent
  {
    hide Inv;
    forall id | id in CancelsOf(w, step) ensures id in w.sent {
      var i :| 0 <= i < SLOT_COUNT && IsTask(w.table.slots[i], id, step.generation) && w.table.slots[i].state != Empty;
      InUse(w, i, digest);
    }
  }

  lemma SlotFlag(w: World, step: Step, ids: set<nat>, i: nat, digest: Digest)
    requires Inv(w, digest) && WellFormed(w.table) && Legal(w, step) && Flagged(w, ids) && i < SLOT_COUNT
    requires |Apply(w, step, digest).table.slots| == SLOT_COUNT
    requires Apply(w, step, digest).table.slots[i].state != Empty
    ensures var s' := Apply(w, step, digest).table.slots[i];
            s'.cancel_requested <==> s'.session_id in ids + CancelsOf(w, step)
  {
    hide Inv, Apply, Legal, Caused, Releases;
    var s, s' := w.table.slots[i], Apply(w, step, digest).table.slots[i];
    StepMoves(w, step, i, digest);
    if s.state == Empty {
      assert Starts(w, step, s');
      FreshId(w, ids, step, digest);
    } else {
      RequestFlags(w, step, i, digest);
    }
  }

  lemma FreshId(w: World, ids: set<nat>, step: Step, digest: Digest)
    requires Inv(w, digest) && Legal(w, step) && step.DispatchStep? && forall id | id in ids :: id in w.sent
    ensures |w.sent| + 1 !in ids + CancelsOf(w, step)
  {
    hide Inv;
    if |w.sent| + 1 in ids { SentOkAt(w, |w.sent| + 1, digest); }
  }

  // Among the tasks in the table the step flags exactly those that it posts a request for.
  lemma RequestFlags(w: World, step: Step, i: nat, digest: Digest)
    requires Inv(w, digest) && WellFormed(w.table) && Legal(w, step) && i < SLOT_COUNT
    requires w.table.slots[i].state != Empty && |Apply(w, step, digest).table.slots| == SLOT_COUNT
    requires Apply(w, step, digest).table.slots[i].state != Empty
    ensures var s, s' := w.table.slots[i], Apply(w, step, digest).table.slots[i];
            && s'.session_id == s.session_id
            && (s'.cancel_requested <==> s.cancel_requested || s.session_id in CancelsOf(w, step))
  {
    hide Inv, Apply, Moves, Cancellable;
    StepMoves(w, step, i, digest);
    MoveFlags(w, step, w.table.slots[i], Apply(w, step, digest).table.slots[i]);
    if step.CancelStep? { CancelFlags(w, step.session_id, step.generation, step.now, i, digest); }
  }

  lemma MoveFlags(w: World, step: Step, s: Slot, s': Slot)
    requires Moves(w, step, s, s') && s.state != Empty && s'.state != Empty
    ensures s'.session_id == s.session_id
    ensures !step.CancelStep? ==> s'.cancel_requested == s.cancel_requested
  {
    hide Writes, Releases;
  }

  lemma CancelFlags(w: World, id: nat, generation: nat, now: int, i: nat, digest: Digest)
    requires Inv(w, digest) && WellFormed(w.table) && i < SLOT_COUNT && w.table.slots[i].state != Empty
    ensures var s, s' := w.table.slots[i], SlotAfter(w, CancelStep(id, generation, now), i, digest);
            s'.cancel_requested <==> s.cancel_requested || (s.session_id == id && Cancellable(w.table, id, generation))
  {
    hide Inv, Cancel, Dispatch, Rollback, WriteBackPid, Claim, Complete, CompleteMinimal, Monitor, Collect, Acknowledge;
    CancelPosts(w, id, generation, now, digest);
    if Cancellable(w.table, id, generation) && w.table.slots[i].session_id == id {
      var j :| 0 <= j < SLOT_COUNT && IsTask(w.table.slots[j], id, generation)
               && Cancel(w.table, id, generation, now).0 == w.table.(slots := w.table.slots[
                    j := w.table.slots[j].(cancel_requested := true, updated_msecs := now)]);
      TaskHandle(w, i, digest);
      OneSlot(w, i, j, id, digest);
    }
  }

  lemma {:induction false} RunFlags(w: World, steps: seq<Step>, ids: set<nat>, digest: Digest)
    requires Inv(w, digest) && Flagged(w, ids) && Exec(w, steps, digest).Some?
    ensures Flagged(Exec(w, steps, digest).value, ids + Cancels(w, steps, digest))
    decreases |steps|
  {
    hide Inv, Flagged, Apply, Legal, CancelsOf;
    if steps == [] {
      assert ids + {} == ids;
    } else {
      var now := CancelsOf(w, steps[0]);
      StepKeepsInv(w, steps[0], digest);
      StepFlags(w, steps[0], ids, digest);
      RunFlags(Apply(w, steps[0], digest), steps[1..], ids + now, digest);
      assert ids + now + Cancels(Apply(w, steps[0], digest), steps[1..], digest) == ids + Cancels(w, steps, digest);
    }
  }

  // In every run, the worker that queries its task sees a cancel request exactly if one was posted
  // for the task and the task still has its slot.
  lemma QuerySeesCancel(steps: seq<Step>, k: nat, digest: Digest)
    requires Exec(Init(), steps, digest).Some? && k < |Exec(Init(), steps, digest).value.claims|
    ensures var w := Exec(Init(), steps, digest).value;
            CancelRequested(w.table, w.claims[k]) <==>
            w.claims[k].session_id in Cancels(Init(), steps, digest) && !Ended(w, w.claims[k].session_id)
  {
    NothingFlagged(digest);
    hide Inv, Exec, Cancels, Init, CancelRequested, Ended, Flagged;
    RunFlags(Init(), steps, {}, digest);
    ExecKeepsInv(Init(), steps, digest);
    var w := Exec(Init(), steps, digest).value;
    assert {} + Cancels(Init(), steps, digest) == Cancels(Init(), steps, digest);
    QueryIs(w, k, Cancels(Init(), steps, digest), digest);
  }

  lemma NothingFlagged(digest: Digest)
    ensures Inv(Init(), digest) && Flagged(Init(), {})
  {
    hide Inv;
    InitInv(digest);
  }

  lemma QueryIs(w: World, k: nat, ids: set<nat>, digest: Digest)
    requires Inv(w, digest) && Flagged(w, ids) && k < |w.claims|
    ensures CancelRequested(w.table, w.claims[k]) <==>
            w.claims[k].session_id in ids && !Ended(w, w.claims[k].session_id)
  {
    hide Inv, UpToNul, FixedBuffer, Trim;
    InvBasics(w, digest);
    ClaimOkAt(w, k, digest);
    var id := w.claims[k].session_id;
    if !Ended(w, id) {
      var i :| 0 <= i < SLOT_COUNT && w.table.slots[i].session_id == id;
      ClaimSlotIs(w, k, i, digest);
    }
    if CancelRequested(w.table, w.claims[k]) { ClaimSlotIs(w, k, w.claims[k].slot_index, digest); }
  }

  // ---------- acknowledgement ----------

  // An event that was collected names the owner that collected it.
  ghost predicate Named(w: World) {
    forall e | e in w.collected :: ValidOwner(e.owner)
  }

  lemma TrimAgain(s: Bytes)
    ensures Trim(Trim(s)) == Trim(s)
  {
    var l, r := TrimSplits(s);
    hide Trim;
    TrimmedIsFixed(Trim(s));
  }

  lemma StepNames(w: World, step: Step, digest: Digest)
    requires Inv(w, digest) && WellFormed(w.table) && Legal(w, step) && Named(w)
    ensures Named(Apply(w, step, digest))
  {
    hide Inv, Trim, ValidOwner, Shows, Pending, Legal;
    EventsStay(w, step, digest);
    hide Apply, Collect;
    forall e | e in Apply(w, step, digest).collected ensures ValidOwner(e.owner) {
      if e !in w.collected { NewNamed(w, step.owner, step.readable, e, digest); }
    }
  }

  lemma NewNamed(w: World, owner: Bytes, readable: set<nat>, e: Event, digest: Digest)
    requires Inv(w, digest) && WellFormed(w.table) && e in Collect(w.table, owner, readable, digest).1
    ensures ValidOwner(e.owner)
  {
    hide Inv, Trim, UpToNul, EventsOf;
    assert ValidOwner(owner);
    InvBasics(w, digest);
    NewEventsAre(w, owner, readable, digest);
    hide ValidOwner, NewEvents, Pending, Collect;
    var i := EventSlot(w, owner, readable, e, digest);
    TrimAgain(owner);
    ValidTrimmed(owner);
  }

  lemma ValidTrimmed(owner: Bytes)
    requires ValidOwner(owner) && Trim(Trim(owner)) == Trim(owner)
    ensures ValidOwner(Trim(owner))
  {
    hide Trim;
  }

  lemma {:induction false} RunNames(w: World, steps: seq<Step>, digest: Digest)
    requires Inv(w, digest) && Named(w) && Exec(w, steps, digest).Some?
    ensures Named(Exec(w, steps, digest).value)
    decreases |steps|
  {
    hide Inv, Named, Apply, Legal;
    if steps != [] {
      StepKeepsInv(w, steps[0], digest);
      StepNames(w, steps[0], digest);
      RunNames(Apply(w, steps[0], digest), steps[1..], digest);
    }
  }

  lemma ReachableNamed(w: World, digest: Digest)
    requires Reachable(w, digest)
    ensures Inv(w, digest) && WellFormed(w.table) && Named(w)
  {
    hide Inv, Exec, Init, ValidOwner;
    ReachableInv(w, digest);
    InitInv(digest);
    var steps :| Exec(Init(), steps, digest) == Some(w);
    NothingNamed();
    RunNames(Init(), steps, digest);
  }

  lemma NothingNamed()
    ensures Named(Init())
  {
    hide ValidOwner;
  }

  function Larger(a: nat, b: nat): nat {
    if a < b then b else a
  }

  // What an acknowledgement of event number n does to the slot of its task: the last event gives the
  // slot back for another generation, any other is remembered.
  ghost predicate Noted(s: Slot, s': Slot, n: nat, now: int) {
    if n == COMPLETED_SEQUENCE
    then s'.state == Empty && s'.session_id == 0 && s'.generation == NextGeneration(s.generation)
    else s' == s.(acknowledged := Larger(s.acknowledged, n),
                  updated_msecs := if s.acknowledged < n then now else s.updated_msecs)
  }

  // Every event that was ever collected can be acknowledged.
  lemma AcknowledgementCounts(w: World, k: nat, now: int, i: nat, digest: Digest)
    requires Reachable(w, digest) && WellFormed(w.table) && k < |w.collected| && i < SLOT_COUNT
    requires w.table.slots[i].session_id == w.collected[k].session_id
    ensures Acknowledge(w.table, w.collected[k], now).1 == Acknowledged
    ensures Noted(w.table.slots[i], SlotAfter(w, AckStep(k, now), i, digest), w.collected[k].sequence, now)
  {
    hide Inv, Reachable, Trim, UpToNul, FixedBuffer, Encode, AcknowledgeSlot, Noted, ValidOwner, Dispatch, Rollback,
      WriteBackPid, Claim, Cancel, Complete, CompleteMinimal, Monitor, Collect;
    ReachableNamed(w, digest);
    var e, s := w.collected[k], w.table.slots[i];
    EventOkAt(w, k, digest);
    EventFinds(w, k, i, digest);
    assert e in w.collected;
    NotedBy(s, e.sequence, now);
  }

  lemma NotedBy(s: Slot, n: nat, now: int)
    requires Counts(s) && 1 <= n <= s.published
    ensures Noted(s, AcknowledgeSlot(s, n, now), n, now)
  {
    hide Zeros;
  }

  // A collected event finds the slot of its task.
  lemma EventFinds(w: World, k: nat, i: nat, digest: Digest)
    requires Inv(w, digest) && WellFormed(w.table) && k < |w.collected| && i < SLOT_COUNT
    requires w.table.slots[i].session_id == w.collected[k].session_id
    ensures var e, s := w.collected[k], w.table.slots[i];
            && FirstTask(w.table.slots, e.session_id, e.generation, false) == i && MatchesOwner(s, e.owner)
            && Counts(s) && 1 <= e.sequence <= s.published && EventSequence(e.kind) == e.sequence
  {
    hide Inv, Trim, UpToNul, FixedBuffer, Encode;
    EventOkAt(w, k, digest);
    var e := w.collected[k];
    SessionSlot(w, i, e.session_id, digest);
    SlotOkAt(w, i, digest);
    OneSlot(w, FirstTask(w.table.slots, e.session_id, e.generation, false), i, e.session_id, digest);
  }

  // The task's events up to number n are done with.
  ghost predicate Past(w: World, id: nat, n: nat) {
    id in w.sent
    && forall i | 0 <= i < |w.table.slots| && w.table.slots[i].session_id == id :: w.table.slots[i].acknowledged >= n
  }

  // Events from position `from` on are none of those.
  ghost predicate NoneAgain(events: seq<Event>, from: nat, id: nat, n: nat) {
    forall j | from <= j < |events| :: !(events[j].session_id == id && events[j].sequence <= n)
  }

  lemma AckedIsPast(w: World, k: nat, now: int, digest: Digest)
    requires Reachable(w, digest) && WellFormed(w.table) && k < |w.collected|
    ensures Past(After(w, AckStep(k, now), digest), w.collected[k].session_id, w.collected[k].sequence)
  {
    hide Inv, Reachable, Apply, Moves;
    ReachableInv(w, digest);
    var e, w' := w.collected[k], After(w, AckStep(k, now), digest);
    StepKeepsInv(w, AckStep(k, now), digest);
    InvBasics(w', digest);
    EventOkAt(w, k, digest);
    SentStays(w, AckStep(k, now), digest);
    forall i | 0 <= i < SLOT_COUNT && w'.table.slots[i].session_id == e.session_id
      ensures w'.table.slots[i].acknowledged >= e.sequence
    {
      StepMoves(w, AckStep(k, now), i, digest);
      KeptSession(w, AckStep(k, now), w.table.slots[i], w'.table.slots[i], e.session_id, digest);
      AcknowledgementCounts(w, k, now, i, digest);
    }
  }

  // A slot carries a task that was sent before only if it did so before.
  lemma KeptSession(w: World, step: Step, s: Slot, s': Slot, id: nat, digest: Digest)
    requires Inv(w, digest) && Moves(w, step, s, s') && id in w.sent && s'.session_id == id
    ensures s.session_id == id && s.acknowledged <= s'.acknowledged
  {
    hide Inv, Caused, Releases;
    SentOkAt(w, id, digest);
  }

  lemma StepStaysPast(w: World, step: Step, id: nat, n: nat, digest: Digest)
    requires Inv(w, digest) && WellFormed(w.table) && Legal(w, step) && Past(w, id, n)
    ensures Past(Apply(w, step, digest), id, n)
    ensures w.collected <= Apply(w, step, digest).collected
    ensures NoneAgain(Apply(w, step, digest).collected, |w.collected|, id, n)
  {
    hide Inv, Apply, Moves, Legal, Collect, Shows;
    var w' := Apply(w, step, digest);
    StepKeepsInv(w, step, digest);
    InvBasics(w', digest);
    SentStays(w, step, digest);
    forall i | 0 <= i < SLOT_COUNT && w'.table.slots[i].session_id == id ensures w'.table.slots[i].acknowledged >= n {
      StepMoves(w, step, i, digest);
      KeptSession(w, step, w.table.slots[i], w'.table.slots[i], id, digest);
    }
    EventsStay(w, step, digest);
    forall j | |w.collected| <= j < |w'.collected| && w'.collected[j].session_id == id
      ensures w'.collected[j].sequence > n
    {
      assert w'.collected[j] == w'.collected[|w.collected|..][j - |w.collected|];
      var i := EventSlot(w, step.owner, step.readable, w'.collected[j], digest);
    }
  }

  lemma {:induction false} RunStaysPast(w: World, steps: seq<Step>, id: nat, n: nat, digest: Digest)
    requires Inv(w, digest) && Past(w, id, n) && Exec(w, steps, digest).Some?
    ensures Past(Exec(w, steps, digest).value, id, n)
    ensures |w.collected| <= |Exec(w, steps, digest).value.collected|
    ensures w.collected <= Exec(w, steps, digest).value.collected
    ensures NoneAgain(Exec(w, steps, digest).value.collected, |w.collected|, id, n)
    decreases |steps|
  {
    hide Inv, Past, Apply, Legal;
    if steps != [] {
      var w1 := Apply(w, steps[0], digest);
      StepKeepsInv(w, steps[0], digest);
      StepStaysPast(w, steps[0], id, n, digest);
      RunStaysPast(w1, steps[1..], id, n, digest);
      var all := Exec(w, steps, digest).value.collected;
      hide Exec;
      forall j | |w.collected| <= j < |all| ensures !(all[j].session_id == id && all[j].sequence <= n) {
        if j < |w1.collected| { assert all[j] == w1.collected[j]; }
      }
    }
  }

  // Once an event was acknowledged, the owner does not collect it again, nor any earlier event of
  // that task, however the run goes on; and with its last event the task leaves the table for good.
  lemma AcknowledgedIsOver(w: World, k: nat, now: int, after: seq<Step>, digest: Digest)
    requires Reachable(w, digest) && WellFormed(w.table) && k < |w.collected|
    requires Exec(After(w, AckStep(k, now), digest), after, digest).Some?
    ensures var e, w' := w.collected[k], Exec(After(w, AckStep(k, now), digest), after, digest).value;
            && NoneAgain(w'.collected, |w.collected|, e.session_id, e.sequence)
            && (e.sequence == COMPLETED_SEQUENCE ==> Ended(w', e.session_id))
  {
    hide Inv, Reachable, Exec, Past;
    ReachableInv(w, digest);
    var step := AckStep(k, now);
    var e, w1 := w.collected[k], After(w, step, digest);
    AckedIsPast(w, k, now, digest);
    StepKeepsInv(w, step, digest);
    EventsStay(w, step, digest);
    assert w1.collected == w.collected;
    hide Apply;
    RunStaysPast(w1, after, e.session_id, e.sequence, digest);
    ExecKeepsInv(w1, after, digest);
    if e.sequence == COMPLETED_SEQUENCE { PastIsEnded(Exec(w1, after, digest).value, e.session_id, digest); }
  }

  lemma PastIsEnded(w: World, id: nat, digest: Digest)
    requires Inv(w, digest) && Past(w, id, COMPLETED_SEQUENCE)
    ensures Ended(w, id)
  {
    hide Inv;
    InvBasics(w, digest);
    forall i | 0 <= i < SLOT_COUNT ensures w.table.slots[i].session_id != id { CountsAt(w, i, digest); }
  }
}
