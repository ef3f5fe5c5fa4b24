/**
  One slot of the task table: its fields, its life cycle of numbered events, and
  the address of its payload region inside the request pool.
 */
module TaskSlots {
  import opened QtStream
  import opened AsciiText

  datatype SlotState = Empty | Dispatched | Claimed | Completed

  datatype EventKind = NoEvent | DispatchedEvent | ClaimedEvent | CompletedEvent

  const DISPATCHED_SEQUENCE := 1
  const CLAIMED_SEQUENCE := 2
  const COMPLETED_SEQUENCE := 3

  const OWNER_CAPACITY := 512
  const SUMMARY_CAPACITY := 256
  const UNCLAIMED_DISPATCHED_RECLAIM_MSECS := 15000

  datatype Slot = Slot(
    generation: nat, state: SlotState, session_id: nat, command_kind: nat, published: nat, acknowledged: nat,
    cancel_requested: bool, result_code: int, refresh_after_finish: bool, launcher_pid: int, worker_pid: int,
    request_pool_slot: nat, request_payload_size: nat, updated_msecs: int, owner: Bytes, summary: Bytes)

  function StateCode(s: SlotState): nat {
    match s
    case Empty => 0
    case Dispatched => 1
    case Claimed => 2
    case Completed => 3
  }

  // The generation counter is a quint32 that skips zero.
  function NextGeneration(g: nat): (r: nat)
    ensures 0 < r < 0x1_0000_0000 && r != g
  {
    var n := (g + 1) % 0x1_0000_0000;
    if n == 0 then 1 else n
  }

  function EmptySlot(generation: nat): Slot {
    Slot(generation, Empty, 0, 0, 0, 0, false, 0, false, 0, 0, 0, 0, 0, Zeros(OWNER_CAPACITY),
         Zeros(SUMMARY_CAPACITY))
  }

  // Everything is zeroed but the generation, which moves on when asked.
  function ClearSlot(s: Slot, bump_generation: bool): Slot {
    EmptySlot(if bump_generation then NextGeneration(s.generation) else s.generation)
  }

  function EventSequence(k: EventKind): nat {
    match k
    case NoEvent => 0
    case DispatchedEvent => DISPATCHED_SEQUENCE
    case ClaimedEvent => CLAIMED_SEQUENCE
    case CompletedEvent => COMPLETED_SEQUENCE
  }

  function KindForSequence(n: nat): EventKind {
    if n == DISPATCHED_SEQUENCE then DispatchedEvent
    else if n == CLAIMED_SEQUENCE then ClaimedEvent
    else if n == COMPLETED_SEQUENCE then CompletedEvent
    else NoEvent
  }

  // The published sequence only ever grows.
  function PublishStage(s: Slot, k: EventKind, now: int): (Slot, bool) {
    var n := EventSequence(k);
    if n == 0 || n <= s.published then (s, false) else (s.(published := n, updated_msecs := now), true)
  }

  // State, result and summary are overwritten even when the event itself is refused.
  function PublishCompletion(s: Slot, code: int, summary: Bytes, now: int): (Slot, bool) {
    PublishStage(s.(state := Completed, result_code := code, summary := FixedBuffer(summary, SUMMARY_CAPACITY)),
                 CompletedEvent, now)
  }

  const TIMEOUT_CODE := 2
  const TIMEOUT_SUMMARY: Bytes := TextBytes("7zG worker did not claim task before timing out.")
  const WORKER_EXIT_SUMMARY: Bytes := TextBytes("7zG worker exited before publishing completion.")

  function TextBytes(s: string): Bytes {
    seq(|s|, i requires 0 <= i < |s| => s[i] as int % 256)
  }

  function PublishUnclaimedTimeout(s: Slot, now: int): (Slot, bool) {
    if s.state != Dispatched || s.published >= COMPLETED_SEQUENCE
       || now - s.updated_msecs < UNCLAIMED_DISPATCHED_RECLAIM_MSECS
    then (s, false)
    else PublishCompletion(s, TIMEOUT_CODE, TIMEOUT_SUMMARY, now)
  }

  function PublishWorkerExit(s: Slot, alive: set<int>, now: int): (Slot, bool) {
    if s.state != Claimed || s.published >= COMPLETED_SEQUENCE || s.worker_pid <= 0 || s.worker_pid in alive
    then (s, false)
    else PublishCompletion(s, TIMEOUT_CODE, WORKER_EXIT_SUMMARY, now)
  }

  predicate HasPendingEvents(s: Slot) {
    s.acknowledged < s.published
  }

  function NextPendingSequence(s: Slot): nat {
    if HasPendingEvents(s) then s.acknowledged + 1 else 0
  }

  // A completed slot whose completion was acknowledged is given back.
  function ReclaimSlot(s: Slot): Slot {
    if s.state == Completed && s.acknowledged >= COMPLETED_SEQUENCE then ClearSlot(s, true) else s
  }

  predicate MatchesOwner(s: Slot, owner: Bytes) {
    UpToNul(s.owner) == owner
  }

  // ---------- the request pool ----------

  const SLOT_COUNT := 16
  const POOL_SLOT_SIZE := 1024 * 1024
  // A header of 76 bytes (magic, version, counts, padding and sixteen lock words), rounded up to 64.
  const POOL_HEADER_SIZE := 76
  const POOL_PAYLOAD_OFFSET := (POOL_HEADER_SIZE + 63) / 64 * 64
  const POOL_SIZE := POOL_PAYLOAD_OFFSET + SLOT_COUNT * POOL_SLOT_SIZE

  function PoolAddress(i: nat): nat {
    POOL_PAYLOAD_OFFSET + i * POOL_SLOT_SIZE
  }

  // Regions lie inside the mapping, past the header, and do not overlap.
  lemma PoolRegionsDisjoint(i: nat, j: nat)
    requires i < j < SLOT_COUNT
    ensures POOL_HEADER_SIZE <= PoolAddress(i)
    ensures PoolAddress(i) + POOL_SLOT_SIZE <= PoolAddress(j)
    ensures PoolAddress(j) + POOL_SLOT_SIZE <= POOL_SIZE
  {}

  predicate PoolHolds(pool: Bytes, i: nat, bytes: Bytes) {
    && PoolAddress(i) + |bytes| <= |pool|
    && pool[PoolAddress(i)..PoolAddress(i) + |bytes|] == bytes
  }

  // The region is zeroed, then filled from its start.
  function PoolWrite(pool: Bytes, i: nat, bytes: Bytes): (r: Bytes)
    requires i < SLOT_COUNT && |pool| == POOL_SIZE && |bytes| <= POOL_SLOT_SIZE
    ensures |r| == |pool|
  {
    pool[..PoolAddress(i)] + bytes + Zeros(POOL_SLOT_SIZE - |bytes|) + pool[PoolAddress(i) + POOL_SLOT_SIZE..]
  }

  lemma PoolWriteHolds(pool: Bytes, i: nat, bytes: Bytes)
    requires i < SLOT_COUNT && |pool| == POOL_SIZE && |bytes| <= POOL_SLOT_SIZE
    ensures PoolHolds(PoolWrite(pool, i, bytes), i, bytes)
  {
    var a := PoolAddress(i);
    assert PoolWrite(pool, i, bytes)[a..a + |bytes|] == bytes;
  }

  lemma PoolWriteElsewhere(pool: Bytes, i: nat, bytes: Bytes, j: nat, kept: Bytes)
    requires i < SLOT_COUNT && j < SLOT_COUNT && i != j && |pool| == POOL_SIZE
    requires |bytes| <= POOL_SLOT_SIZE && |kept| <= POOL_SLOT_SIZE && PoolHolds(pool, j, kept)
    ensures PoolHolds(PoolWrite(pool, i, bytes), j, kept)
  {
    var r, b := PoolWrite(pool, i, bytes), PoolAddress(j);
    if i < j { PoolRegionsDisjoint(i, j); } else { PoolRegionsDisjoint(j, i); }
    forall k | 0 <= k < |kept| ensures r[b + k] == kept[k] {
      assert pool[b..b + |kept|][k] == kept[k];
    }
    assert r[b..b + |kept|] == kept;
  }
}
