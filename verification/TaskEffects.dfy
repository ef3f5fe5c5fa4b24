/**
  What each operation on the task table achieves: the other theorems say what a step
  may change, these say what it does change.
 */
module TaskEffects {
  import opened Basics
  import opened QtStream
  import opened AsciiText
  import opened TaskSlots
  import opened PayloadCodec
  import opened TaskTable
  import opened TaskProtocol
  import opened TaskTheorems
  import opened TaskResults

  // The world after a legal step, and one of its slots.
  ghost function After(w: World, step: Step, digest: Digest): World {
    if WellFormed(w.table) && Legal(w, step) then Apply(w, step, digest) else w
  }

  ghost function SlotAfter(w: World, step: Step, i: nat, digest: Digest): Slot {
    At(After(w, step, digest).table, i)
  }

  // ---------- which slot a handle finds ----------

  lemma OneSlot(w: World, i: nat, j: nat, id: nat, digest: Digest)
    requires Inv(w, digest) && WellFormed(w.table) && i < SLOT_COUNT && j < SLOT_COUNT && id > 0
    requires w.table.slots[i].session_id == id && w.table.slots[j].session_id == id
    ensures i == j
  {
    hide Inv;
    SessionSlot(w, i, id, digest);
    SessionSlot(w, j, id, digest);
  }

  lemma ClaimSlotIs(w: World, k: nat, i: nat, digest: Digest)
    requires Inv(w, digest) && WellFormed(w.table) && k < |w.claims| && i < SLOT_COUNT
    requires w.table.slots[i].session_id == w.claims[k].session_id
    ensures w.claims[k].slot_index == i && IsTask(w.table.slots[i], w.claims[k].session_id, w.claims[k].generation)
    ensures Counts(w.table.slots[i]) && w.table.slots[i].state != Empty
  {
    hide Inv, UpToNul, FixedBuffer, Trim;
    ClaimOkAt(w, k, digest);
    SessionSlot(w, i, w.claims[k].session_id, digest);
  }

  // ---------- completion ----------

  ghost predicate Reports(s: Slot, s': Slot, code: int, summary: Bytes) {
    && s'.session_id == s.session_id && s'.owner == s.owner && s'.acknowledged == s.acknowledged
    && s'.state == Completed && s'.published == COMPLETED_SEQUENCE
    && s'.result_code == code && UpToNul(s'.summary) == summary
  }

  // A completion by the worker is published, unless its launcher is dead.
  lemma CompletionIsPublished(w: World, k: nat, code: int, summary: Bytes, now: int, alive: set<int>, i: nat,
                              digest: Digest)
    requires Inv(w, digest) && WellFormed(w.table) && k < |w.claims| && i < SLOT_COUNT
    requires w.table.slots[i].session_id == w.claims[k].session_id
    ensures var s, s' := w.table.slots[i], SlotAfter(w, CompleteStep(k, code, summary, now, alive), i, digest);
            if w.claims[k].launcher_pid > 0 && w.claims[k].launcher_pid !in alive then s' == s
            else Reports(s, s', code, Shown(summary))
  {
    hide Inv, UpToNul, FixedBuffer, Dispatch, Rollback, WriteBackPid, Claim, Cancel, Complete, CompleteMinimal, Monitor,
      Collect, Acknowledge;
    ClaimSlotIs(w, k, i, digest);
    CompletedSlot(w.table, i, w.claims[k], code, summary, now, alive);
  }

  lemma CompletedSlot(t: Table, i: nat, c: ClaimedTask, code: int, summary: Bytes, now: int, alive: set<int>)
    requires i < |t.slots| && c.slot_index == i && IsTask(t.slots[i], c.session_id, c.generation) && Counts(t.slots[i])
    ensures var s, s' := t.slots[i], At(Complete(t, c, code, summary, now, alive), i);
            if c.launcher_pid > 0 && c.launcher_pid !in alive then s' == s else Reports(s, s', code, Shown(summary))
  {
    hide UpToNul, FixedBuffer;
  }

  // ... and so is a minimal completion, which leaves the summary as it is.
  lemma MinimalIsPublished(w: World, k: nat, code: int, now: int, i: nat, digest: Digest)
    requires Inv(w, digest) && WellFormed(w.table) && k < |w.claims| && i < SLOT_COUNT
    requires w.table.slots[i].session_id == w.claims[k].session_id
    ensures var s, s' := w.table.slots[i], SlotAfter(w, MinimalStep(k, code, now), i, digest);
            Reports(s, s', code, UpToNul(s.summary))
  {
    hide Inv, UpToNul, FixedBuffer, Dispatch, Rollback, WriteBackPid, Claim, Cancel, Complete, Monitor, Collect,
      Acknowledge;
    ClaimSlotIs(w, k, i, digest);
  }

  // The monitor completes exactly what it finds.
  lemma MonitorReports(w: World, owner: Bytes, alive: set<int>, now: int, i: nat, digest: Digest)
    requires Inv(w, digest) && WellFormed(w.table) && i < SLOT_COUNT
    ensures var s, s' := w.table.slots[i], SlotAfter(w, MonitorStep(owner, alive, now), i, digest);
            if TimesOut(s, owner, now) then Reports(s, s', TIMEOUT_CODE, Shown(TIMEOUT_SUMMARY))
            else if FoundDead(s, owner, alive) then Reports(s, s', TIMEOUT_CODE, Shown(WORKER_EXIT_SUMMARY))
            else s' == s
  {
    hide Inv, UpToNul, FixedBuffer, TextBytes, Reclaim;
    InvBasics(w, digest);
    CountsAt(w, i, digest);
    Reported(w.table.slots[i], owner, alive, now);
    hide MonitorSlot;
  }

  lemma Reported(s: Slot, owner: Bytes, alive: set<int>, now: int)
    requires Counts(s)
    ensures var s' := MonitorSlot(s, owner, alive, now);
            if TimesOut(s, owner, now) then Reports(s, s', TIMEOUT_CODE, Shown(TIMEOUT_SUMMARY))
            else if FoundDead(s, owner, alive) then Reports(s, s', TIMEOUT_CODE, Shown(WORKER_EXIT_SUMMARY))
            else s' == s
  {
    hide UpToNul, FixedBuffer, TextBytes;
  }

  // ---------- collection ----------

  // The slot has event number n to show to the owner.
  ghost predicate Pending(s: Slot, owner: Bytes, n: nat) {
    s.state != Empty && UpToNul(s.owner) == owner && s.acknowledged < n <= s.published
  }

  // The event shows the slot's fields and this payload.
  ghost predicate Shows(e: Event, s: Slot, owner: Bytes, payload: Payload) {
    && e.session_id == s.session_id && e.generation == s.generation
    && EventSequence(e.kind) == e.sequence && e.owner == owner && e.worker_pid == s.worker_pid
    && e.result_code == s.result_code && e.refresh_after_finish == s.refresh_after_finish
    && e.summary == UpToNul(s.summary) && e.payload == payload
  }

  // The payload that the slot's task was sent with.
  ghost function SentPayload(w: World, s: Slot): Payload {
    if s.session_id in w.sent then w.sent[s.session_id].request.payload else DEFAULT_PAYLOAD
  }

  ghost function NewEvents(w: World, owner: Bytes, readable: set<nat>, digest: Digest): seq<Event> {
    var after := After(w, CollectStep(owner, readable), digest).collected;
    if |w.collected| <= |after| then after[|w.collected|..] else []
  }

  lemma PayloadShown(w: World, i: nat, readable: bool, digest: Digest)
    requires Inv(w, digest) && WellFormed(w.table) && i < SLOT_COUNT && w.table.slots[i].state != Empty
    ensures EventPayload(w.table.pool, w.table.slots[i], readable, digest) ==
            if readable then SentPayload(w, w.table.slots[i]) else DEFAULT_PAYLOAD
  {
    hide Inv, Encode, ReadRequestPayload, FixedBuffer, Trim, PoolHolds;
    var s := w.table.slots[i];
    SlotOkAt(w, i, digest);
    SentOkAt(w, s.session_id, digest);
    RegionDecodes(s, i, w.table.pool, w.sent[s.session_id], digest);
    EncodedDecodes(w.sent[s.session_id].request.payload, digest);
  }

  lemma SlotEventsUnfold(s: Slot, pool: Bytes, owner: Bytes, readable: bool, digest: Digest)
    requires Counts(s)
    ensures SlotEvents(s, pool, owner, readable, digest) ==
            if s.state != Empty && UpToNul(s.owner) == owner
            then EventsFrom(s, owner, s.acknowledged + 1, EventPayload(pool, s, readable, digest)) else []
  {
    hide EventPayload, UpToNul, BuildEvent;
  }

  lemma BuiltShows(s: Slot, owner: Bytes, n: nat, payload: Payload)
    requires 1 <= n <= COMPLETED_SEQUENCE
    ensures Shows(BuildEvent(s, owner, n, payload), s, owner, payload) && BuildEvent(s, owner, n, payload).sequence == n
  {
    hide UpToNul;
  }

  lemma PendingBuilt(s: Slot, owner: Bytes, payload: Payload, n: nat)
    requires Counts(s) && s.acknowledged < n <= s.published
    ensures exists e :: e in EventsFrom(s, owner, s.acknowledged + 1, payload) && e.sequence == n
  {
    hide EventsFrom, BuildEvent;
    var k := n - s.acknowledged - 1;
    EventsFromExactly(s, owner, s.acknowledged + 1, payload, k);
    BuiltShows(s, owner, n, payload);
    assert EventsFrom(s, owner, s.acknowledged + 1, payload)[k] in EventsFrom(s, owner, s.acknowledged + 1, payload);
  }

  // The events of a slot are its pending ones.
  lemma SlotEventsAre(s: Slot, pool: Bytes, owner: Bytes, readable: bool, n: nat, digest: Digest)
    requires Counts(s)
    ensures forall e | e in SlotEvents(s, pool, owner, readable, digest) ::
              Pending(s, owner, e.sequence) && Shows(e, s, owner, EventPayload(pool, s, readable, digest))
    ensures Pending(s, owner, n) ==> exists e :: e in SlotEvents(s, pool, owner, readable, digest) && e.sequence == n
  {
    hide SlotEvents, EventPayload, UpToNul, EventsFrom, BuildEvent, Shows;
    var payload := EventPayload(pool, s, readable, digest);
    SlotEventsUnfold(s, pool, owner, readable, digest);
    forall e | e in SlotEvents(s, pool, owner, readable, digest)
      ensures Pending(s, owner, e.sequence) && Shows(e, s, owner, payload)
    {
      var sequence := BuiltAt(s, owner, s.acknowledged + 1, payload, e);
      BuiltShows(s, owner, sequence, payload);
    }
    if Pending(s, owner, n) { PendingBuilt(s, owner, payload, n); }
  }

  lemma NewEventsAre(w: World, owner: Bytes, readable: set<nat>, digest: Digest)
    requires Inv(w, digest) && WellFormed(w.table)
    ensures NewEvents(w, owner, readable, digest) ==
            if ValidOwner(owner) then EventsOf(w.table.slots, w.table.pool, Trim(owner), readable, digest, 0) else []
    ensures After(w, CollectStep(owner, readable), digest).table == w.table
  {
    hide Inv, Dispatch, Rollback, WriteBackPid, Claim, Cancel, Complete, CompleteMinimal, Monitor, Acknowledge,
      EventsOf, ValidOwner, Trim;
    InvBasics(w, digest);
  }

  // A collection yields an event of a task exactly if it is pending in a slot of that task and owner.
  lemma CollectionIsExact(w: World, owner: Bytes, readable: set<nat>, id: nat, n: nat, digest: Digest)
    requires Inv(w, digest) && WellFormed(w.table) && ValidOwner(owner)
    ensures (exists e :: e in NewEvents(w, owner, readable, digest) && e.session_id == id && e.sequence == n) <==>
            (exists i :: 0 <= i < SLOT_COUNT && w.table.slots[i].session_id == id
                         && Pending(w.table.slots[i], Trim(owner), n))
  {
    hide Inv, NewEvents, EventsOf, SlotEvents, Counts, Pending, Trim, ValidOwner, After;
    NewEventsAre(w, owner, readable, digest);
    var slots, pool, events := w.table.slots, w.table.pool, NewEvents(w, owner, readable, digest);
    if e :| e in events && e.session_id == id && e.sequence == n {
      var i := EventSlot(w, owner, readable, e, digest);
    }
    if i :| 0 <= i < SLOT_COUNT && slots[i].session_id == id && Pending(slots[i], Trim(owner), n) {
      CountsAt(w, i, digest);
      SlotEventsAre(slots[i], pool, Trim(owner), i in readable, n, digest);
      var e :| e in SlotEvents(slots[i], pool, Trim(owner), i in readable, digest) && e.sequence == n;
      CollectedExactly(slots, pool, Trim(owner), readable, digest, 0, e);
      SameSession(slots[i], Trim(owner), e, EventPayload(pool, slots[i], i in readable, digest));
    }
  }

  lemma SameSession(s: Slot, owner: Bytes, e: Event, payload: Payload)
    requires Shows(e, s, owner, payload)
    ensures e.session_id == s.session_id && e.owner == owner
  {}

  // Where a collected event comes from: it shows the slot as it is, and the payload that the task was
  // sent with if its region could be locked.
  lemma EventSlot(w: World, owner: Bytes, readable: set<nat>, e: Event, digest: Digest) returns (i: nat)
    requires Inv(w, digest) && WellFormed(w.table) && e in NewEvents(w, owner, readable, digest)
    ensures ValidOwner(owner) && i < SLOT_COUNT && w.table.slots[i].session_id == e.session_id
    ensures Pending(w.table.slots[i], Trim(owner), e.sequence)
    ensures Shows(e, w.table.slots[i], Trim(owner),
                  if i in readable then SentPayload(w, w.table.slots[i]) else DEFAULT_PAYLOAD)
  {
    hide Inv, NewEvents, EventsOf, SlotEvents, Counts, Trim, ValidOwner, UpToNul, Shows, After;
    NewEventsAre(w, owner, readable, digest);
    var slots, pool := w.table.slots, w.table.pool;
    CollectedExactly(slots, pool, Trim(owner), readable, digest, 0, e);
    var j: nat :| j < |slots| && e in SlotEvents(slots[j], pool, Trim(owner), j in readable, digest);
    i := j;
    CountsAt(w, i, digest);
    SlotEventsAre(slots[i], pool, Trim(owner), i in readable, e.sequence, digest);
    PayloadShown(w, i, i in readable, digest);
    SameSession(slots[i], Trim(owner), e, EventPayload(pool, slots[i], i in readable, digest));
  }

  // Two events of one task come in the order of their numbers, and none comes twice.
  ghost predicate InOrder(events: seq<Event>) {
    forall a, b | 0 <= a < b < |events| && events[a].session_id == events[b].session_id ::
      events[a].sequence < events[b].sequence
  }

  // A collection is in order.
  lemma CollectedInOrder(w: World, owner: Bytes, readable: set<nat>, digest: Digest)
    requires Inv(w, digest) && WellFormed(w.table)
    ensures InOrder(NewEvents(w, owner, readable, digest))
  {
    hide Inv, NewEvents, EventsOf, After, ValidOwner, Trim;
    NewEventsAre(w, owner, readable, digest);
    EventsInOrder(w, Trim(owner), readable, digest, 0);
  }

  lemma {:induction false} EventsInOrder(w: World, owner: Bytes, readable: set<nat>, digest: Digest, i: nat)
    requires Inv(w, digest) && WellFormed(w.table) && i <= |w.table.slots|
    ensures InOrder(EventsOf(w.table.slots, w.table.pool, owner, readable, digest, i))
    decreases |w.table.slots| - i
  {
    hide Inv, EventsOf, SlotEvents, InOrder;
    var slots, pool := w.table.slots, w.table.pool;
    if i == |slots| {
      NothingCollected(slots, pool, owner, readable, digest);
      NothingInOrder();
    } else {
      EventsInOrder(w, owner, readable, digest, i + 1);
      CountsAt(w, i, digest);
      SlotInOrder(slots[i], pool, owner, i in readable, digest);
      OthersFollow(w, owner, readable, i, digest);
      EventsUnfold(slots, pool, owner, readable, digest, i);
      JoinedInOrder(SlotEvents(slots[i], pool, owner, i in readable, digest),
                    EventsOf(slots, pool, owner, readable, digest, i + 1));
    }
  }

  lemma NothingInOrder()
    ensures InOrder([])
  {}

  lemma JoinedInOrder(here: seq<Event>, rest: seq<Event>)
    requires InOrder(here) && InOrder(rest)
    requires forall e, f | e in here && f in rest :: e.session_id != f.session_id
    ensures InOrder(here + rest)
  {
    var all := here + rest;
    assert forall a | 0 <= a < |here| :: all[a] == here[a] && here[a] in here;
    assert forall b | |here| <= b < |all| :: all[b] == rest[b - |here|] && rest[b - |here|] in rest;
  }

  lemma SlotInOrder(s: Slot, pool: Bytes, owner: Bytes, readable: bool, digest: Digest)
    requires Counts(s)
    ensures InOrder(SlotEvents(s, pool, owner, readable, digest))
  {
    hide SlotEvents, EventsFrom, EventPayload, UpToNul, InOrder;
    SlotEventsUnfold(s, pool, owner, readable, digest);
    BuiltInOrder(s, owner, EventPayload(pool, s, readable, digest));
    NothingInOrder();
  }

  lemma BuiltInOrder(s: Slot, owner: Bytes, payload: Payload)
    requires Counts(s)
    ensures InOrder(EventsFrom(s, owner, s.acknowledged + 1, payload))
  {
    hide EventsFrom, UpToNul;
    var events := EventsFrom(s, owner, s.acknowledged + 1, payload);
    forall a, b | 0 <= a < b < |events| ensures events[a].sequence < events[b].sequence {
      EventsFromExactly(s, owner, s.acknowledged + 1, payload, a);
      EventsFromExactly(s, owner, s.acknowledged + 1, payload, b);
    }
  }

  // The events of later slots belong to other tasks.
  lemma OthersFollow(w: World, owner: Bytes, readable: set<nat>, i: nat, digest: Digest)
    requires Inv(w, digest) && WellFormed(w.table) && i < SLOT_COUNT
    ensures forall e, f |
              e in SlotEvents(w.table.slots[i], w.table.pool, owner, i in readable, digest)
              && f in EventsOf(w.table.slots, w.table.pool, owner, readable, digest, i + 1) ::
              e.session_id != f.session_id
  {
    hide Inv, EventsOf, SlotEvents, Counts, UpToNul, EventPayload;
    var slots, pool := w.table.slots, w.table.pool;
    forall e, f | e in SlotEvents(slots[i], pool, owner, i in readable, digest)
                  && f in EventsOf(slots, pool, owner, readable, digest, i + 1)
      ensures e.session_id != f.session_id
    {
      CountsAt(w, i, digest);
      SlotEventsAre(slots[i], pool, owner, i in readable, 0, digest);
      CollectedExactly(slots, pool, owner, readable, digest, i + 1, f);
      var j: nat :| i + 1 <= j < |slots| && f in SlotEvents(slots[j], pool, owner, j in readable, digest);
      CountsAt(w, j, digest);
      SlotEventsAre(slots[j], pool, owner, j in readable, 0, digest);
      OtherTasks(w, i, j, digest);
    }
  }

  lemma OtherTasks(w: World, i: nat, j: nat, digest: Digest)
    requires Inv(w, digest) && WellFormed(w.table) && i < j < SLOT_COUNT && w.table.slots[i].state != Empty
    ensures w.table.slots[i].session_id != w.table.slots[j].session_id
  {
    hide Inv, UpToNul, FixedBuffer, Trim, Encode;
    SlotOkAt(w, i, digest);
    SentOkAt(w, w.table.slots[i].session_id, digest);
    if w.table.slots[i].session_id == w.table.slots[j].session_id {
      OneSlot(w, i, j, w.table.slots[i].session_id, digest);
    }
  }

  // ---------- from the worker to the owner ----------

  ghost function OwnerOf(w: World, id: nat): Bytes {
    if id in w.sent then w.sent[id].request.owner else []
  }

  // The owner of the task collects a completion with this result and summary.
  ghost predicate Arrives(w: World, id: nat, readable: set<nat>, code: int, summary: Bytes, digest: Digest) {
    exists e :: e in NewEvents(w, OwnerOf(w, id), readable, digest) && e.session_id == id
                && e.kind == CompletedEvent && e.result_code == code && e.summary == summary
  }

  lemma CompletedArrives(w: World, i: nat, readable: set<nat>, digest: Digest)
    requires Inv(w, digest) && WellFormed(w.table) && i < SLOT_COUNT && w.table.slots[i].state == Completed
    requires 0 !in Trim(OwnerOf(w, w.table.slots[i].session_id))
    ensures var s := w.table.slots[i];
            Arrives(w, s.session_id, readable, s.result_code, UpToNul(s.summary), digest)
  {
    hide Inv, NewEvents, FixedBuffer, Trim, UpToNul, Encode, After;
    var s := w.table.slots[i];
    var owner := OwnerOf(w, s.session_id);
    SlotOkAt(w, i, digest);
    SentOkAt(w, s.session_id, digest);
    UpToNulOfFixed(Trim(owner));
    CollectionIsExact(w, owner, readable, s.session_id, COMPLETED_SEQUENCE, digest);
    assert Pending(s, Trim(owner), COMPLETED_SEQUENCE);
    var e :| e in NewEvents(w, owner, readable, digest)
             && e.session_id == s.session_id && e.sequence == COMPLETED_SEQUENCE;
    var j := EventSlot(w, owner, readable, e, digest);
    OneSlot(w, i, j, s.session_id, digest);
  }

  // The worker completes its task, and the owner's next collection holds the result and the summary.
  lemma CompletionArrives(w: World, k: nat, code: int, summary: Bytes, now: int, alive: set<int>, i: nat,
                          readable: set<nat>, digest: Digest)
    requires Inv(w, digest) && WellFormed(w.table) && k < |w.claims| && i < SLOT_COUNT
    requires w.table.slots[i].session_id == w.claims[k].session_id
    requires w.claims[k].launcher_pid > 0 ==> w.claims[k].launcher_pid in alive
    requires 0 !in Trim(OwnerOf(w, w.claims[k].session_id))
    ensures Arrives(After(w, CompleteStep(k, code, summary, now, alive), digest), w.claims[k].session_id, readable,
                    code, Shown(summary), digest)
  {
    hide Inv, Apply, Arrives, UpToNul, Trim;
    var step := CompleteStep(k, code, summary, now, alive);
    ClaimSlotIs(w, k, i, digest);
    CompletionIsPublished(w, k, code, summary, now, alive, i, digest);
    hide SlotAfter, Reports, IsTask, Counts, After, FixedBuffer;
    ReportArrives(w, step, i, readable, code, Shown(summary), digest);
  }

  // A minimal completion arrives with the summary that the slot has.
  lemma MinimalArrives(w: World, k: nat, code: int, now: int, i: nat, readable: set<nat>, digest: Digest)
    requires Inv(w, digest) && WellFormed(w.table) && k < |w.claims| && i < SLOT_COUNT
    requires w.table.slots[i].session_id == w.claims[k].session_id
    requires 0 !in Trim(OwnerOf(w, w.claims[k].session_id))
    ensures Arrives(After(w, MinimalStep(k, code, now), digest), w.claims[k].session_id, readable, code,
                    UpToNul(w.table.slots[i].summary), digest)
  {
    hide Inv, Apply, Arrives, UpToNul, Trim;
    ClaimSlotIs(w, k, i, digest);
    MinimalIsPublished(w, k, code, now, i, digest);
    hide SlotAfter, Reports, IsTask, Counts, After;
    ReportArrives(w, MinimalStep(k, code, now), i, readable, code, UpToNul(w.table.slots[i].summary), digest);
  }

  // So does what the monitor finds: a dead worker, or a task that nobody claimed.
  lemma MonitorArrives(w: World, owner: Bytes, alive: set<int>, now: int, i: nat, readable: set<nat>, digest: Digest)
    requires Inv(w, digest) && WellFormed(w.table) && i < SLOT_COUNT
    requires FoundDead(w.table.slots[i], owner, alive) || TimesOut(w.table.slots[i], owner, now)
    requires 0 !in Trim(OwnerOf(w, w.table.slots[i].session_id))
    ensures Arrives(After(w, MonitorStep(owner, alive, now), digest), w.table.slots[i].session_id, readable,
                    TIMEOUT_CODE,
                    Shown(if w.table.slots[i].state == Claimed then WORKER_EXIT_SUMMARY else TIMEOUT_SUMMARY), digest)
  {
    hide Inv, Apply, Arrives, UpToNul, Trim, TextBytes;
    var summary := if w.table.slots[i].state == Claimed then WORKER_EXIT_SUMMARY else TIMEOUT_SUMMARY;
    MonitorReports(w, owner, alive, now, i, digest);
    hide SlotAfter, Reports, After, FixedBuffer;
    ReportArrives(w, MonitorStep(owner, alive, now), i, readable, TIMEOUT_CODE, Shown(summary), digest);
  }

  lemma InUse(w: World, i: nat, digest: Digest)
    requires Inv(w, digest) && WellFormed(w.table) && i < SLOT_COUNT && w.table.slots[i].state != Empty
    ensures w.table.slots[i].session_id in w.sent
  {
    hide Inv, Encode, UpToNul, Trim, FixedBuffer;
    SlotOkAt(w, i, digest);
  }

  lemma ReportArrives(w: World, step: Step, i: nat, readable: set<nat>, code: int, summary: Bytes, digest: Digest)
    requires Inv(w, digest) && WellFormed(w.table) && Legal(w, step) && i < SLOT_COUNT
    requires Reports(w.table.slots[i], SlotAfter(w, step, i, digest), code, summary)
    requires w.table.slots[i].state != Empty && 0 !in Trim(OwnerOf(w, w.table.slots[i].session_id))
    ensures Arrives(After(w, step, digest), w.table.slots[i].session_id, readable, code, summary, digest)
  {
    hide Inv, Apply, Arrives, UpToNul, Trim;
    var w1 := After(w, step, digest);
    InUse(w, i, digest);
    StepKeepsInv(w, step, digest);
    InvBasics(w1, digest);
    SentStays(w, step, digest);
    CompletedArrives(w1, i, readable, digest);
  }
}
