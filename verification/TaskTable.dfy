/**
  The shared task table: sixteen slots, the request pool and the session counter.
  Each locked operation is a function from table to table and result, and a
  method of the class that performs it in place.
 */
module TaskTable {
  import opened Basics
  import opened QtStream
  import opened AsciiText
  import opened TaskSlots
  import opened PayloadCodec

  datatype Table = Table(next_session_id: nat, slots: seq<Slot>, pool: Bytes)

  datatype ClaimedTask = ClaimedTask(
    slot_index: int, session_id: nat, generation: nat, owner: Bytes, launcher_pid: int, worker_pid: int,
    payload: Decoded)

  datatype Event = Event(
    session_id: nat, generation: nat, kind: EventKind, sequence: nat, owner: Bytes, worker_pid: int,
    result_code: int, refresh_after_finish: bool, summary: Bytes, payload: Payload)

  datatype DispatchOutcome =
    | Started(slot_index: nat, session_id: nat, generation: nat)
    | BadOwner | PayloadTooLarge | QueueFull | NoSemaphore | PoolSlotBusy

  datatype ClaimOutcome = Won(task: ClaimedTask) | BadIdentity | NotAvailable | ClaimPoolBusy

  datatype CancelOutcome = CancelPosted | CancelIgnored | CancelRejected

  datatype AckOutcome = Acknowledged | AckRejected

  const SESSION_MODULUS := 0x1_0000_0000_0000_0000
  const DEFAULT_PAYLOAD :=
    Payload(0, false, true, false, NullString, None, None, None, None, None, None, None, None)

  ghost predicate WellFormed(t: Table) {
    |t.slots| == SLOT_COUNT && |t.pool| == POOL_SIZE
  }

  // The index of the first empty slot, or the number of slots.
  function FirstEmpty(slots: seq<Slot>): (i: nat)
    ensures i <= |slots| && (i < |slots| ==> slots[i].state == Empty)
    ensures forall k | 0 <= k < i :: slots[k].state != Empty
  {
    if slots == [] || slots[0].state == Empty then 0 else 1 + FirstEmpty(slots[1..])
  }

  predicate IsTask(s: Slot, session_id: nat, generation: nat) {
    s.session_id == session_id && s.generation == generation
  }

  // The first slot of a task, or the number of slots; a claim only looks at dispatched ones.
  function FirstTask(slots: seq<Slot>, session_id: nat, generation: nat, dispatched_only: bool): (i: nat)
    ensures i <= |slots|
    ensures i < |slots| ==>
              IsTask(slots[i], session_id, generation) && (dispatched_only ==> slots[i].state == Dispatched)
    ensures forall k | 0 <= k < i ::
              !(IsTask(slots[k], session_id, generation) && (dispatched_only ==> slots[k].state == Dispatched))
  {
    if slots == [] then 0
    else if IsTask(slots[0], session_id, generation) && (dispatched_only ==> slots[0].state == Dispatched) then 0
    else 1 + FirstTask(slots[1..], session_id, generation, dispatched_only)
  }

  function Reclaim(slots: seq<Slot>): (r: seq<Slot>)
    ensures |r| == |slots|
  {
    seq(|slots|, i requires 0 <= i < |slots| => ReclaimSlot(slots[i]))
  }

  // An owner id is trimmed, must not vanish and must leave room for a terminator.
  predicate ValidOwner(owner: Bytes) {
    Trim(owner) != [] && |Trim(owner)| < OWNER_CAPACITY
  }

  // ---------- dispatch ----------

  datatype Request = Request(owner: Bytes, payload: Payload, launcher_pid: int, now: int)

  function FreshSlot(s: Slot, i: nat, session_id: nat, r: Request, size: nat): Slot {
    s.(session_id := session_id, state := Dispatched, command_kind := r.payload.command,
       published := DISPATCHED_SEQUENCE, acknowledged := 0, result_code := 0,
       refresh_after_finish := r.payload.refresh_after_finish, launcher_pid := r.launcher_pid, worker_pid := 0,
       request_pool_slot := i, request_payload_size := size, updated_msecs := r.now,
       owner := FixedBuffer(Trim(r.owner), OWNER_CAPACITY), summary := FixedBuffer([], SUMMARY_CAPACITY))
  }

  function WithGeneration(s: Slot): Slot {
    if s.generation == 0 then s.(generation := 1) else s
  }

  function Dispatch(t: Table, r: Request, digest: Digest, semaphore_ok: bool, pool_lock_ok: bool)
    : (Table, DispatchOutcome)
    requires WellFormed(t)
  {
    var encoded := Encode(r.payload, digest);
    if !ValidOwner(r.owner) then (t, BadOwner)
    else if |encoded| > POOL_SLOT_SIZE then (t, PayloadTooLarge)
    else DispatchLocked(t, r, encoded, semaphore_ok, pool_lock_ok)
  }

  // What happens once the table is locked.
  function DispatchLocked(t: Table, r: Request, encoded: Bytes, semaphore_ok: bool, pool_lock_ok: bool)
    : (Table, DispatchOutcome)
    requires WellFormed(t) && |encoded| <= POOL_SLOT_SIZE
  {
    var session_id := if t.next_session_id == 0 then 1 else t.next_session_id;
    var slots := Reclaim(t.slots);
    var i := FirstEmpty(slots);
    if i == SLOT_COUNT then (Table(session_id, slots, t.pool), QueueFull)
    else
      var s := WithGeneration(slots[i]);
      var numbered := Table(session_id, slots[i := s], t.pool);
      if !semaphore_ok then (numbered, NoSemaphore)
      else if !pool_lock_ok then (numbered, PoolSlotBusy)
      else
        (Table((session_id + 1) % SESSION_MODULUS,
               slots[i := FreshSlot(s, i, session_id, r, |encoded|)],
               PoolWrite(t.pool, i, encoded)),
         Started(i, session_id, s.generation))
  }

  // The handle's slot, if it still belongs to that task; otherwise the table as it is.
  function UpdateIfTask(t: Table, i: int, session_id: nat, generation: nat, f: Slot -> Slot): Table {
    if 0 <= i < |t.slots| && IsTask(t.slots[i], session_id, generation)
    then t.(slots := t.slots[i := f(t.slots[i])])
    else t
  }

  function Rollback(t: Table, i: nat, session_id: nat, generation: nat): Table {
    UpdateIfTask(t, i, session_id, generation, (s: Slot) => ClearSlot(s, true))
  }

  function WriteBackPid(t: Table, i: nat, session_id: nat, generation: nat, pid: int, now: int): Table {
    UpdateIfTask(t, i, session_id, generation,
                 (s: Slot) => if s.state == Dispatched then s.(worker_pid := pid, updated_msecs := now) else s)
  }

  // ---------- claim, cancel ----------

  function ReadRequestPayload(pool: Bytes, pool_slot: nat, size: nat, digest: Digest): Decoded {
    if pool_slot >= SLOT_COUNT || size == 0 || size > POOL_SLOT_SIZE || |pool| < POOL_SIZE
    then Err(InvalidBodySize)
    else Decode(pool[PoolAddress(pool_slot)..PoolAddress(pool_slot) + size], digest)
  }

  function ClaimSlot(s: Slot, pid: int, now: int): Slot {
    PublishStage(s.(state := Claimed, worker_pid := pid), ClaimedEvent, now).0
  }

  function TaskOf(s: Slot, i: nat, pool: Bytes, digest: Digest): ClaimedTask {
    ClaimedTask(i, s.session_id, s.generation, UpToNul(s.owner), s.launcher_pid, s.worker_pid,
                ReadRequestPayload(pool, s.request_pool_slot, s.request_payload_size, digest))
  }

  function Claim(t: Table, session_id: nat, generation: nat, pid: int, now: int, digest: Digest,
                 pool_lock_ok: bool): (Table, ClaimOutcome)
    requires WellFormed(t)
  {
    if session_id == 0 || generation == 0 then (t, BadIdentity)
    else
      var slots := Reclaim(t.slots);
      var i := FirstTask(slots, session_id, generation, true);
      if i == SLOT_COUNT then (t.(slots := slots), NotAvailable)
      else if !pool_lock_ok then (t.(slots := slots), ClaimPoolBusy)
      else
        var s := ClaimSlot(slots[i], pid, now);
        (t.(slots := slots[i := s]), Won(TaskOf(s, i, t.pool, digest)))
  }

  function Cancel(t: Table, session_id: nat, generation: nat, now: int): (Table, CancelOutcome)
    requires WellFormed(t)
  {
    if session_id == 0 || generation == 0 then (t, CancelRejected)
    else
      var slots := Reclaim(t.slots);
      var i := FirstTask(slots, session_id, generation, false);
      if i == SLOT_COUNT || slots[i].state == Empty || slots[i].state == Completed
      then (t.(slots := slots), CancelIgnored)
      else (t.(slots := slots[i := slots[i].(cancel_requested := true, updated_msecs := now)]), CancelPosted)
  }

  predicate CancelRequested(t: Table, task: ClaimedTask) {
    && 0 <= task.slot_index < |t.slots|
    && IsTask(t.slots[task.slot_index], task.session_id, task.generation)
    && t.slots[task.slot_index].cancel_requested
  }

  // ---------- completion, monitor ----------

  function Complete(t: Table, task: ClaimedTask, code: int, summary: Bytes, now: int, alive: set<int>): Table {
    if task.launcher_pid > 0 && task.launcher_pid !in alive then t
    else UpdateIfTask(t, task.slot_index, task.session_id, task.generation,
                      (s: Slot) => PublishCompletion(s, code, summary, now).0)
  }

  // The lock-free form, taken as one step: no sequence guard and no summary.
  function CompleteMinimal(t: Table, task: ClaimedTask, code: int, now: int): Table {
    UpdateIfTask(t, task.slot_index, task.session_id, task.generation,
                 (s: Slot) => s.(result_code := code, updated_msecs := now, published := COMPLETED_SEQUENCE,
                                 state := Completed))
  }

  function MonitorSlot(s: Slot, owner: Bytes, alive: set<int>, now: int): Slot {
    if MatchesOwner(s, owner) then PublishWorkerExit(PublishUnclaimedTimeout(s, now).0, alive, now).0 else s
  }

  function Monitor(t: Table, owner: Bytes, alive: set<int>, now: int): Table {
    var slots := Reclaim(t.slots);
    t.(slots := seq(|slots|, i requires 0 <= i < |slots| => MonitorSlot(slots[i], owner, alive, now)))
  }

  // ---------- collect, acknowledge ----------

  function BuildEvent(s: Slot, owner: Bytes, sequence: nat, payload: Payload): Event {
    Event(s.session_id, s.generation, KindForSequence(sequence), sequence, owner, s.worker_pid, s.result_code,
          s.refresh_after_finish, UpToNul(s.summary), payload)
  }

  function EventsFrom(s: Slot, owner: Bytes, sequence: nat, payload: Payload): seq<Event>
    decreases s.published + 1 - sequence
  {
    if sequence > s.published then []
    else [BuildEvent(s, owner, sequence, payload)] + EventsFrom(s, owner, sequence + 1, payload)
  }

  function PendingEvents(s: Slot, owner: Bytes, payload: Payload): seq<Event> {
    if !HasPendingEvents(s) then [] else EventsFrom(s, owner, NextPendingSequence(s), payload)
  }

  function EventPayload(pool: Bytes, s: Slot, readable: bool, digest: Digest): Payload {
    if s.request_payload_size == 0 || !readable then DEFAULT_PAYLOAD
    else match ReadRequestPayload(pool, s.request_pool_slot, s.request_payload_size, digest)
         case Ok(p) => p
         case Err(_) => DEFAULT_PAYLOAD
  }

  function SlotEvents(s: Slot, pool: Bytes, owner: Bytes, readable: bool, digest: Digest): seq<Event> {
    if s.state == Empty || !MatchesOwner(s, owner) then []
    else PendingEvents(s, owner, EventPayload(pool, s, readable, digest))
  }

  function EventsOf(slots: seq<Slot>, pool: Bytes, owner: Bytes, readable: set<nat>, digest: Digest, i: nat)
    : seq<Event>
    requires i <= |slots|
    decreases |slots| - i
  {
    if i == |slots| then []
    else SlotEvents(slots[i], pool, owner, i in readable, digest)
         + EventsOf(slots, pool, owner, readable, digest, i + 1)
  }

  // `readable` are the slots whose payload region could be locked while collecting.
  function Collect(t: Table, owner: Bytes, readable: set<nat>, digest: Digest): (Table, seq<Event>) {
    if !ValidOwner(owner) then (t, [])
    else
      var slots := Reclaim(t.slots);
      (t.(slots := slots), EventsOf(slots, t.pool, Trim(owner), readable, digest, 0))
  }

  function AcknowledgeSlot(s: Slot, sequence: nat, now: int): Slot {
    var acked := if s.acknowledged < sequence then s.(acknowledged := sequence, updated_msecs := now) else s;
    if acked.acknowledged >= COMPLETED_SEQUENCE then ClearSlot(acked, true).(updated_msecs := now) else acked
  }

  function Acknowledge(t: Table, e: Event, now: int): (Table, AckOutcome) {
    var sequence := EventSequence(e.kind);
    if !ValidOwner(e.owner) || sequence == 0 || sequence != e.sequence then (t, AckRejected)
    else
      var i := FirstTask(t.slots, e.session_id, e.generation, false);
      if i == |t.slots| || !MatchesOwner(t.slots[i], e.owner) then (t, Acknowledged)
      else (t.(slots := t.slots[i := AcknowledgeSlot(t.slots[i], sequence, now)]), Acknowledged)
  }
}
