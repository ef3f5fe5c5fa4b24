/**
  What the events that an owner collects mean: where their results come from, and
  when a Claimed event stands for a claim.
 */
module TaskResults {
  import opened Basics
  import opened QtStream
  import opened AsciiText
  import opened TaskSlots
  import opened PayloadCodec
  import opened TaskTable
  import opened TaskProtocol
  import opened TaskTheorems

  // ---------- what a run published and timed out ----------

  // A result published for a task; a minimal completion has no summary of its own.
  datatype Result = Result(session_id: nat, code: int, summary: Option<Bytes>)

  // A summary as it is read back from its buffer.
  function Shown(summary: Bytes): Bytes {
    UpToNul(FixedBuffer(summary, SUMMARY_CAPACITY))
  }

  // A completion published by the worker that claimed the task while its launcher lived; a timeout
  // or a worker exit that the monitor found.
  ghost function ResultOf(w: World, step: Step): set<Result> {
    match step
    case CompleteStep(k, code, summary, _, alive) =>
      if k < |w.claims| && (w.claims[k].launcher_pid > 0 ==> w.claims[k].launcher_pid in alive)
      then {Result(w.claims[k].session_id, code, Some(Shown(summary)))} else {}
    case MinimalStep(k, code, _) =>
      if k < |w.claims| then {Result(w.claims[k].session_id, code, None)} else {}
    case MonitorStep(owner, alive, now) =>
      (set s | s in w.table.slots && TimesOut(s, owner, now) ::
         Result(s.session_id, TIMEOUT_CODE, Some(Shown(TIMEOUT_SUMMARY))))
      + (set s | s in w.table.slots && FoundDead(s, owner, alive) ::
           Result(s.session_id, TIMEOUT_CODE, Some(Shown(WORKER_EXIT_SUMMARY))))
    case _ => {}
  }

  ghost function Results(w: World, steps: seq<Step>, digest: Digest): set<Result>
    decreases |steps|
  {
    if steps == [] || !WellFormed(w.table) || !Legal(w, steps[0]) then {}
    else ResultOf(w, steps[0]) + Results(Apply(w, steps[0], digest), steps[1..], digest)
  }

  // The tasks that the step found unclaimed for too long.
  ghost function TimeoutsOf(w: World, step: Step): set<nat> {
    match step
    case MonitorStep(owner, _, now) => set s | s in w.table.slots && TimesOut(s, owner, now) :: s.session_id
    case _ => {}
  }

  ghost function Timeouts(w: World, steps: seq<Step>, digest: Digest): set<nat>
    decreases |steps|
  {
    if steps == [] || !WellFormed(w.table) || !Legal(w, steps[0]) then {}
    else TimeoutsOf(w, steps[0]) + Timeouts(Apply(w, steps[0], digest), steps[1..], digest)
  }

  // ---------- collected events are built from slots ----------

  lemma CollectedFrom(w: World, owner: Bytes, readable: set<nat>, e: Event, digest: Digest)
    returns (j: nat, sequence: nat, payload: Payload)
    requires Inv(w, digest) && e in Collect(w.table, owner, readable, digest).1
    ensures j < |w.table.slots| && 1 <= sequence <= w.table.slots[j].published && w.table.slots[j].state != Empty
    ensures e == BuildEvent(w.table.slots[j], Trim(owner), sequence, payload) && Counts(w.table.slots[j])
  {
    hide Inv, EventsOf, SlotEvents, BuildEvent, Counts;
    InvBasics(w, digest);
    var t := w.table;
    CollectedExactly(t.slots, t.pool, Trim(owner), readable, digest, 0, e);
    var i: nat :| i < |t.slots| && e in SlotEvents(t.slots[i], t.pool, Trim(owner), i in readable, digest);
    j := i;
    CountsAt(w, j, digest);
    sequence, payload := BuiltFrom(t.slots[j], t.pool, Trim(owner), j in readable, e, digest);
  }

  lemma BuiltFrom(s: Slot, pool: Bytes, owner: Bytes, readable: bool, e: Event, digest: Digest)
    returns (sequence: nat, payload: Payload)
    requires e in SlotEvents(s, pool, owner, readable, digest)
    ensures s.state != Empty && 1 <= sequence <= s.published && e == BuildEvent(s, owner, sequence, payload)
  {
    payload := EventPayload(pool, s, readable, digest);
    PendingOf(s, pool, owner, readable, e, digest);
    hide EventsFrom, BuildEvent, EventPayload, SlotEvents;
    sequence := BuiltAt(s, owner, s.acknowledged + 1, payload, e);
  }

  lemma PendingOf(s: Slot, pool: Bytes, owner: Bytes, readable: bool, e: Event, digest: Digest)
    requires e in SlotEvents(s, pool, owner, readable, digest)
    ensures s.state != Empty
    ensures e in EventsFrom(s, owner, s.acknowledged + 1, EventPayload(pool, s, readable, digest))
  {
    hide EventsFrom, EventPayload, UpToNul;
  }

  lemma {:induction false} BuiltAt(s: Slot, owner: Bytes, from: nat, payload: Payload, e: Event) returns (sequence: nat)
    requires from > 0 && e in EventsFrom(s, owner, from, payload)
    ensures from <= sequence <= s.published && e == BuildEvent(s, owner, sequence, payload)
    decreases s.published + 1 - from
  {
    hide BuildEvent;
    if e == BuildEvent(s, owner, from, payload) {
      sequence := from;
    } else {
      sequence := BuiltAt(s, owner, from + 1, payload, e);
    }
  }

  lemma CountsAt(w: World, i: nat, digest: Digest)
    requires Inv(w, digest) && i < |w.table.slots|
    ensures Counts(w.table.slots[i])
  {
    hide Inv, Carries, Clean;
    InvBasics(w, digest);
    SlotOkAt(w, i, digest);
  }

  // Only a collection adds events.
  lemma EventsStay(w: World, step: Step, digest: Digest)
    requires WellFormed(w.table) && Legal(w, step)
    ensures Apply(w, step, digest).collected ==
            w.collected + if step.CollectStep? then Collect(w.table, step.owner, step.readable, digest).1 else []
  {
    hide Dispatch, Rollback, WriteBackPid, Claim, Cancel, Complete, CompleteMinimal, Monitor, Acknowledge, Collect;
  }

  // ---------- results ----------

  // The pair was published together; or a minimal completion set the code, and the summary is empty
  // or stems from another completion of the task.
  ghost predicate Explains(results: set<Result>, session_id: nat, code: int, summary: Bytes) {
    || Result(session_id, code, Some(summary)) in results
    || (&& Result(session_id, code, None) in results
        && (summary == [] || exists c :: Result(session_id, c, Some(summary)) in results))
  }

  ghost predicate SlotExplained(s: Slot, results: set<Result>) {
    && (s.state == Completed ==> Explains(results, s.session_id, s.result_code, UpToNul(s.summary)))
    && (s.state == Dispatched || s.state == Claimed ==> UpToNul(s.summary) == [])
  }

  ghost predicate EventExplained(e: Event, results: set<Result>) {
    e.kind == CompletedEvent ==> Explains(results, e.session_id, e.result_code, e.summary)
  }

  ghost predicate Explained(w: World, results: set<Result>) {
    && (forall i | 0 <= i < |w.table.slots| :: SlotExplained(w.table.slots[i], results))
    && (forall e | e in w.collected :: EventExplained(e, results))
  }

  lemma MoreExplains(results: set<Result>, more: set<Result>, session_id: nat, code: int, summary: Bytes)
    requires Explains(results, session_id, code, summary) && results <= more
    ensures Explains(more, session_id, code, summary)
  {
    if c :| Result(session_id, c, Some(summary)) in results {
      assert Result(session_id, c, Some(summary)) in more;
    }
  }

  lemma SlotStays(w: World, step: Step, s: Slot, s': Slot, results: set<Result>)
    requires Moves(w, step, s, s') && s in w.table.slots && Counts(s) && Counts(s') && SlotExplained(s, results)
    ensures SlotExplained(s', results + ResultOf(w, step))
  {
    hide UpToNul, FixedBuffer;
    var more := results + ResultOf(w, step);
    EmptySummary();
    if s'.state == Completed {
      if s.state == Completed { MoreExplains(results, more, s.session_id, s.result_code, UpToNul(s.summary)); }
      if s.state == Completed && step.MinimalStep? && UpToNul(s.summary) != [] {
        var c :| Result(s.session_id, c, Some(UpToNul(s.summary))) in results;
        assert Result(s.session_id, c, Some(UpToNul(s.summary))) in more;
      }
    }
  }

  lemma EmptySummary()
    ensures Shown([]) == []
  {
    assert FixedBuffer([], SUMMARY_CAPACITY)[0] == 0;
  }

  lemma StepExplained(w: World, step: Step, results: set<Result>, digest: Digest)
    requires Inv(w, digest) && WellFormed(w.table) && Legal(w, step) && Explained(w, results)
    ensures Explained(Apply(w, step, digest), results + ResultOf(w, step))
  {
    hide Inv, Moves, SlotExplained, EventExplained, ResultOf, Apply, Counts;
    var w', more := Apply(w, step, digest), results + ResultOf(w, step);
    StepKeepsInv(w, step, digest);
    InvBasics(w, digest);
    InvBasics(w', digest);
    EventsStay(w, step, digest);
    hide Collect;
    forall i | 0 <= i < |w'.table.slots| ensures SlotExplained(w'.table.slots[i], more) {
      StepMoves(w, step, i, digest);
      CountsAt(w, i, digest);
      CountsAt(w', i, digest);
      SlotStays(w, step, w.table.slots[i], w'.table.slots[i], results);
    }
    forall e | e in w'.collected ensures EventExplained(e, more) {
      if e in w.collected {
        EventStays(e, results, more);
      } else {
        NewEventExplained(w, step.owner, step.readable, e, results, digest);
        EventStays(e, results, more);
      }
    }
  }

  lemma EventStays(e: Event, results: set<Result>, more: set<Result>)
    requires EventExplained(e, results) && results <= more
    ensures EventExplained(e, more)
  {
    if e.kind == CompletedEvent { MoreExplains(results, more, e.session_id, e.result_code, e.summary); }
  }

  lemma NewEventExplained(w: World, owner: Bytes, readable: set<nat>, e: Event, results: set<Result>, digest: Digest)
    requires Inv(w, digest) && Explained(w, results) && e in Collect(w.table, owner, readable, digest).1
    ensures EventExplained(e, results)
  {
    hide Inv, Collect, Explains, UpToNul;
    var j, sequence, payload := CollectedFrom(w, owner, readable, e, digest);
    assert SlotExplained(w.table.slots[j], results);
  }

  lemma {:induction false} RunExplained(w: World, steps: seq<Step>, results: set<Result>, digest: Digest)
    requires Inv(w, digest) && Explained(w, results) && Exec(w, steps, digest).Some?
    ensures Explained(Exec(w, steps, digest).value, results + Results(w, steps, digest))
    decreases |steps|
  {
    hide Inv, Explained, Apply, Legal, ResultOf;
    if steps == [] {
      assert results + {} == results;
    } else {
      var now := ResultOf(w, steps[0]);
      StepKeepsInv(w, steps[0], digest);
      StepExplained(w, steps[0], results, digest);
      RunExplained(Apply(w, steps[0], digest), steps[1..], results + now, digest);
      assert results + now + Results(Apply(w, steps[0], digest), steps[1..], digest)
          == results + Results(w, steps, digest);
    }
  }

  // In every run, the result and the summary of a collected completion were published for this very
  // task: by the worker that claimed it, or by the monitor that found it unclaimed for too long or
  // its worker dead.
  lemma OwnerGetsTheResult(steps: seq<Step>, k: nat, digest: Digest)
    requires Exec(Init(), steps, digest).Some? && k < |Exec(Init(), steps, digest).value.collected|
    requires Exec(Init(), steps, digest).value.collected[k].kind == CompletedEvent
    ensures var e := Exec(Init(), steps, digest).value.collected[k];
            Explains(Results(Init(), steps, digest), e.session_id, e.result_code, e.summary)
  {
    NothingToExplain(digest);
    hide Inv, Exec, Results, Init, SlotExplained, Explains;
    RunExplained(Init(), steps, {}, digest);
    var w := Exec(Init(), steps, digest).value;
    assert w.collected[k] in w.collected;
    assert {} + Results(Init(), steps, digest) == Results(Init(), steps, digest);
  }

  lemma NothingToExplain(digest: Digest)
    ensures Inv(Init(), digest) && Explained(Init(), {})
  {
    hide Inv;
    InitInv(digest);
  }

  // ---------- claims ----------

  ghost predicate ClaimedBy(w: World, session_id: nat) {
    exists k :: 0 <= k < |w.claims| && w.claims[k].session_id == session_id
  }

  // A task that timed out is over; a task that was claimed has a claim; a completed one has either.
  ghost predicate SlotSettled(w: World, timeouts: set<nat>, s: Slot) {
    && (s.session_id in timeouts ==> s.state == Completed)
    && (s.state == Claimed ==> ClaimedBy(w, s.session_id))
    && (s.state == Completed ==> ClaimedBy(w, s.session_id) || s.session_id in timeouts)
  }

  ghost predicate EventSettled(w: World, timeouts: set<nat>, e: Event) {
    e.sequence >= CLAIMED_SEQUENCE ==> ClaimedBy(w, e.session_id) || e.session_id in timeouts
  }

  ghost predicate Settled(w: World, timeouts: set<nat>) {
    && (forall id | id in timeouts :: id in w.sent && !ClaimedBy(w, id))
    && (forall i | 0 <= i < |w.table.slots| :: SlotSettled(w, timeouts, w.table.slots[i]))
    && (forall e | e in w.collected :: EventSettled(w, timeouts, e))
  }

  // The task has a slot and nobody has claimed it.
  ghost predicate Waits(w: World, session_id: nat) {
    exists i :: 0 <= i < |w.table.slots| && w.table.slots[i].state == Dispatched
                && w.table.slots[i].session_id == session_id
  }

  // Only a successful claim adds to the claims.
  lemma ClaimsStay(w: World, step: Step, digest: Digest)
    requires Inv(w, digest) && WellFormed(w.table) && Legal(w, step)
    ensures forall id | ClaimedBy(w, id) :: ClaimedBy(Apply(w, step, digest), id)
    ensures forall id | ClaimedBy(Apply(w, step, digest), id) && !ClaimedBy(w, id) ::
              step.ClaimStep? && step.session_id == id && Waits(w, id)
  {
    var w' := Apply(w, step, digest);
    assert w.claims <= w'.claims by { ClaimsGrow(w, step, digest); }
    forall id | ClaimedBy(w, id) ensures ClaimedBy(w', id) {
      var k :| 0 <= k < |w.claims| && w.claims[k].session_id == id;
      assert w'.claims[k].session_id == id;
    }
    if step.ClaimStep? { ClaimAdds(w, step, digest); } else { ClaimsGrow(w, step, digest); }
  }

  lemma ClaimsGrow(w: World, step: Step, digest: Digest)
    requires WellFormed(w.table) && Legal(w, step)
    ensures w.claims <= Apply(w, step, digest).claims
    ensures !step.ClaimStep? ==> Apply(w, step, digest).claims == w.claims
  {
    hide Dispatch, Rollback, WriteBackPid, Claim, Cancel, Complete, CompleteMinimal, Monitor, Acknowledge, Collect;
  }

  lemma ClaimAdds(w: World, step: Step, digest: Digest)
    requires Inv(w, digest) && WellFormed(w.table) && step.ClaimStep?
    ensures forall id | ClaimedBy(Apply(w, step, digest), id) && !ClaimedBy(w, id) ::
              step.session_id == id && Waits(w, id)
  {
    hide Inv, TaskOf, ClaimSlot;
    InvBasics(w, digest);
    var (t, outcome) :=
      Claim(w.table, step.session_id, step.generation, step.pid, step.now, digest, step.claim_lock_ok);
    if outcome.Won? {
      ClaimedIdentity(w, step.session_id, step.generation, step.pid, step.now, step.claim_lock_ok, digest);
      var i := FirstTask(w.table.slots, step.session_id, step.generation, true);
      assert w.table.slots[i].state == Dispatched && w.table.slots[i].session_id == step.session_id;
    }
  }

  // Claims and timeouts never meet in one task, because both need it to be unclaimed.
  lemma ClaimedIsNotDispatched(w: World, i: nat, digest: Digest)
    requires Inv(w, digest) && i < |w.table.slots| && w.table.slots[i].state == Dispatched
    ensures !ClaimedBy(w, w.table.slots[i].session_id) && w.table.slots[i].session_id in w.sent
  {
    hide Inv;
    InvBasics(w, digest);
    SlotOkAt(w, i, digest);
    if ClaimedBy(w, w.table.slots[i].session_id) {
      var k :| 0 <= k < |w.claims| && w.claims[k].session_id == w.table.slots[i].session_id;
      ClaimOkAt(w, k, digest);
    }
  }

  // The monitor completes what it times out.
  lemma TimeoutCompletes(w: World, step: Step, i: nat, digest: Digest)
    requires Inv(w, digest) && WellFormed(w.table) && Legal(w, step) && i < |w.table.slots|
    requires w.table.slots[i].session_id in TimeoutsOf(w, step)
    ensures w.table.slots[i].state == Dispatched
    ensures Apply(w, step, digest).table.slots[i].state == Completed
    ensures Apply(w, step, digest).table.slots[i].session_id == w.table.slots[i].session_id
  {
    hide Inv, UpToNul, FixedBuffer;
    InvBasics(w, digest);
    var id := w.table.slots[i].session_id;
    var s :| s in w.table.slots && TimesOut(s, step.owner, step.now) && s.session_id == id;
    var j :| 0 <= j < |w.table.slots| && w.table.slots[j] == s;
    ClaimedIsNotDispatched(w, j, digest);
    SentOkAt(w, id, digest);
    SessionSlot(w, i, id, digest);
    SessionSlot(w, j, id, digest);
    assert i == j;
    TimedOutSlot(s, step.owner, step.alive, step.now);
  }

  lemma TimedOutSlot(s: Slot, owner: Bytes, alive: set<int>, now: int)
    requires Counts(s) && TimesOut(s, owner, now)
    ensures MonitorSlot(s, owner, alive, now).state == Completed
    ensures MonitorSlot(s, owner, alive, now).session_id == s.session_id
  {
    hide UpToNul, FixedBuffer;
  }

  lemma TimeoutsAreNew(w: World, step: Step, digest: Digest)
    requires Inv(w, digest) && WellFormed(w.table) && Legal(w, step)
    ensures forall id | id in TimeoutsOf(w, step) :: id in w.sent && !ClaimedBy(w, id)
    ensures TimeoutsOf(w, step) != {} ==> step.MonitorStep?
  {
    hide Inv, ClaimedBy, UpToNul;
    forall id | id in TimeoutsOf(w, step) ensures id in w.sent && !ClaimedBy(w, id) {
      var s :| s in w.table.slots && TimesOut(s, step.owner, step.now) && s.session_id == id;
      var j :| 0 <= j < |w.table.slots| && w.table.slots[j] == s;
      ClaimedIsNotDispatched(w, j, digest);
    }
  }

  // A slot becomes claimed only together with a claim.
  lemma ClaimedWithClaim(w: World, step: Step, i: nat, digest: Digest)
    requires Inv(w, digest) && WellFormed(w.table) && Legal(w, step) && step.ClaimStep? && i < |w.table.slots|
    requires i < |Apply(w, step, digest).table.slots|
    requires Apply(w, step, digest).table.slots[i] != w.table.slots[i]
    ensures ClaimedBy(Apply(w, step, digest), step.session_id)
  {
    hide Inv, TaskOf, ClaimSlot;
    InvBasics(w, digest);
    var (t, outcome) :=
      Claim(w.table, step.session_id, step.generation, step.pid, step.now, digest, step.claim_lock_ok);
    assert outcome.Won?;
    ClaimedIdentity(w, step.session_id, step.generation, step.pid, step.now, step.claim_lock_ok, digest);
    var w' := Apply(w, step, digest);
    assert w'.claims[|w.claims|].session_id == step.session_id;
  }

  // The cases of one slot's move, given what the step did to claims and timeouts.
  lemma MovedSettled(w: World, w': World, step: Step, s: Slot, s': Slot, timeouts: set<nat>, more: set<nat>)
    requires Moves(w, step, s, s') && Counts(s) && Counts(s') && SlotSettled(w, timeouts, s)
    requires forall id | ClaimedBy(w, id) :: ClaimedBy(w', id)
    requires timeouts <= more && s.session_id !in more - timeouts && 0 !in more && |w.sent| + 1 !in more
    requires step.ClaimStep? && s' != s ==> ClaimedBy(w', step.session_id)
    requires forall owner, alive, now | step == MonitorStep(owner, alive, now) ::
               TimesOut(s, owner, now) ==> s.session_id in more
    ensures SlotSettled(w', more, s')
  {
    hide TimesOut, UpToNul, FixedBuffer;
    if step.CompleteStep? && step.claim < |w.claims| { assert ClaimedBy(w, w.claims[step.claim].session_id); }
    if step.MinimalStep? && step.claim < |w.claims| { assert ClaimedBy(w, w.claims[step.claim].session_id); }
    hide ClaimedBy;
  }

  lemma SlotStaysSettled(w: World, step: Step, i: nat, timeouts: set<nat>, digest: Digest)
    requires Inv(w, digest) && WellFormed(w.table) && Legal(w, step) && i < |w.table.slots| && Settled(w, timeouts)
    ensures var w' := Apply(w, step, digest);
            i < |w'.table.slots| && SlotSettled(w', timeouts + TimeoutsOf(w, step), w'.table.slots[i])
  {
    hide Inv, Apply, TimeoutsOf, ClaimedBy, Moves, EventSettled, Counts, TimesOut;
    InvBasics(w, digest);
    var w', more := Apply(w, step, digest), timeouts + TimeoutsOf(w, step);
    StepKeepsInv(w, step, digest);
    InvBasics(w', digest);
    ClaimsStay(w, step, digest);
    var s, s' := w.table.slots[i], w'.table.slots[i];
    assert SlotSettled(w, timeouts, s);
    TimeoutsAreNew(w, step, digest);
    if s.session_id in TimeoutsOf(w, step) {
      TimeoutCompletes(w, step, i, digest);
    } else {
      StepMoves(w, step, i, digest);
      CountsAt(w, i, digest);
      CountsAt(w', i, digest);
      if step.ClaimStep? && s' != s { ClaimedWithClaim(w, step, i, digest); }
      NotSent(w, step, more, digest);
      TimeoutsCover(w, step, s);
      MovedSettled(w, w', step, s, s', timeouts, more);
    }
  }

  lemma TimeoutsCover(w: World, step: Step, s: Slot)
    requires s in w.table.slots
    ensures forall owner, alive, now | step == MonitorStep(owner, alive, now) ::
              TimesOut(s, owner, now) ==> s.session_id in TimeoutsOf(w, step)
  {
    hide TimesOut;
  }

  lemma NotSent(w: World, step: Step, ids: set<nat>, digest: Digest)
    requires Inv(w, digest) && Legal(w, step) && forall id | id in ids :: id in w.sent
    ensures 0 !in ids && |w.sent| + 1 !in ids
  {
    hide Inv;
    if 0 in ids { SentOkAt(w, 0, digest); }
    if |w.sent| + 1 in ids { SentOkAt(w, |w.sent| + 1, digest); }
  }

  lemma NewEventSettled(w: World, owner: Bytes, readable: set<nat>, e: Event, timeouts: set<nat>, digest: Digest)
    requires Inv(w, digest) && Settled(w, timeouts) && e in Collect(w.table, owner, readable, digest).1
    ensures EventSettled(w, timeouts, e)
  {
    hide Inv, Collect, ClaimedBy, UpToNul;
    var j, sequence, payload := CollectedFrom(w, owner, readable, e, digest);
    assert SlotSettled(w, timeouts, w.table.slots[j]);
  }

  lemma TimeoutsStayUnclaimed(w: World, step: Step, timeouts: set<nat>, digest: Digest)
    requires Inv(w, digest) && WellFormed(w.table) && Legal(w, step) && Settled(w, timeouts)
    ensures forall id | id in timeouts + TimeoutsOf(w, step) ::
              id in Apply(w, step, digest).sent && !ClaimedBy(Apply(w, step, digest), id)
  {
    hide Inv, Apply, TimeoutsOf, ClaimedBy, EventSettled;
    TimeoutsAreNew(w, step, digest);
    ClaimsStay(w, step, digest);
    SentStays(w, step, digest);
    assert forall i | 0 <= i < |w.table.slots| && w.table.slots[i].state == Dispatched ::
        w.table.slots[i].session_id !in timeouts;
    hide SlotSettled;
  }

  lemma StepSettled(w: World, step: Step, timeouts: set<nat>, digest: Digest)
    requires Inv(w, digest) && WellFormed(w.table) && Legal(w, step) && Settled(w, timeouts)
    ensures Settled(Apply(w, step, digest), timeouts + TimeoutsOf(w, step))
  {
    hide Inv, Apply, TimeoutsOf, ClaimedBy, SlotSettled;
    var w', more := Apply(w, step, digest), timeouts + TimeoutsOf(w, step);
    StepKeepsInv(w, step, digest);
    InvBasics(w, digest);
    InvBasics(w', digest);
    TimeoutsStayUnclaimed(w, step, timeouts, digest);
    ClaimsStay(w, step, digest);
    EventsStay(w, step, digest);
    hide Collect;
    forall i | 0 <= i < |w'.table.slots| ensures SlotSettled(w', more, w'.table.slots[i]) {
      SlotStaysSettled(w, step, i, timeouts, digest);
    }
    forall e | e in w'.collected ensures EventSettled(w', more, e) {
      if e !in w.collected { NewEventSettled(w, step.owner, step.readable, e, timeouts, digest); }
      assert EventSettled(w, timeouts, e);
    }
  }

  lemma {:induction false} RunSettled(w: World, steps: seq<Step>, timeouts: set<nat>, digest: Digest)
    requires Inv(w, digest) && Settled(w, timeouts) && Exec(w, steps, digest).Some?
    ensures Settled(Exec(w, steps, digest).value, timeouts + Timeouts(w, steps, digest))
    decreases |steps|
  {
    hide Inv, Settled, Apply, Legal, TimeoutsOf;
    if steps == [] {
      assert timeouts + {} == timeouts;
    } else {
      var now := TimeoutsOf(w, steps[0]);
      StepKeepsInv(w, steps[0], digest);
      StepSettled(w, steps[0], timeouts, digest);
      RunSettled(Apply(w, steps[0], digest), steps[1..], timeouts + now, digest);
      assert timeouts + now + Timeouts(Apply(w, steps[0], digest), steps[1..], digest)
          == timeouts + Timeouts(w, steps, digest);
    }
  }

  // In every run, a collected Claimed event means that the task was claimed if and only if the
  // monitor did not find the task waiting for too long.
  lemma ClaimedEventMeansClaim(steps: seq<Step>, k: nat, digest: Digest)
    requires Exec(Init(), steps, digest).Some? && k < |Exec(Init(), steps, digest).value.collected|
    requires Exec(Init(), steps, digest).value.collected[k].kind == ClaimedEvent
    ensures var w := Exec(Init(), steps, digest).value;
            ClaimedBy(w, w.collected[k].session_id) <==>
            w.collected[k].session_id !in Timeouts(Init(), steps, digest)
  {
    NothingSettled(digest);
    hide Inv, Exec, Timeouts, Init, SlotSettled, ClaimedBy;
    RunSettled(Init(), steps, {}, digest);
    ExecKeepsInv(Init(), steps, digest);
    var w := Exec(Init(), steps, digest).value;
    assert w.collected[k] in w.collected;
    KindOfEvent(w, k, digest);
    assert {} + Timeouts(Init(), steps, digest) == Timeouts(Init(), steps, digest);
  }

  lemma KindOfEvent(w: World, k: nat, digest: Digest)
    requires Inv(w, digest) && k < |w.collected| && w.collected[k].kind == ClaimedEvent
    ensures w.collected[k].sequence == CLAIMED_SEQUENCE
  {
    hide Inv, UpToNul, FixedBuffer;
    EventOkAt(w, k, digest);
  }

  lemma NothingSettled(digest: Digest)
    ensures Inv(Init(), digest) && Settled(Init(), {})
  {
    hide Inv;
    InitInv(digest);
  }
}
