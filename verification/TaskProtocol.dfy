/**
  Runs of the task table: any interleaving of launchers, workers, owners and
  monitors, each doing one locked operation at a time with whatever handles it
  was ever given. The history records every dispatch by its session, every
  successful claim and every collected event.
 */
module TaskProtocol {
  import opened QtStream
  import opened AsciiText
  import opened TaskSlots
  import opened PayloadCodec
  import opened TaskTable

  datatype Sent = Sent(slot: nat, generation: nat, request: Request)

  datatype World = World(table: Table, sent: map<nat, Sent>, claims: seq<ClaimedTask>, collected: seq<Event>)

  datatype Step =
    | DispatchStep(request: Request, semaphore_ok: bool, dispatch_lock_ok: bool)
    | RollbackStep(started: nat)
    | WriteBackStep(started: nat, worker: int, now: int)
    | ClaimStep(session_id: nat, generation: nat, pid: int, now: int, claim_lock_ok: bool)
    | CancelStep(session_id: nat, generation: nat, now: int)
    | CompleteStep(claim: nat, code: int, summary: Bytes, now: int, alive: set<int>)
    | MinimalStep(claim: nat, code: int, now: int)
    | MonitorStep(owner: Bytes, alive: set<int>, now: int)
    | CollectStep(owner: Bytes, readable: set<nat>)
    | AckStep(event: nat, now: int)

  // The bootstrap state: sixteen empty slots of generation one, session ids from one.
  function InitialTable(): Table {
    Table(1, seq(SLOT_COUNT, _ => EmptySlot(1)), Zeros(POOL_SIZE))
  }

  function Init(): World {
    World(InitialTable(), map[], [], [])
  }

  // Handles come from the history; the 64-bit session counter has not wrapped around.
  predicate Legal(w: World, step: Step) {
    match step
    case DispatchStep(_, _, _) => |w.sent| < SESSION_MODULUS - 1
    case RollbackStep(s) => s in w.sent
    case WriteBackStep(s, _, _) => s in w.sent
    case CompleteStep(k, _, _, _, _) => k < |w.claims|
    case MinimalStep(k, _, _) => k < |w.claims|
    case AckStep(k, _) => k < |w.collected|
    case _ => true
  }

  function Apply(w: World, step: Step, digest: Digest): World
    requires WellFormed(w.table) && Legal(w, step)
  {
    match step
    case DispatchStep(r, semaphore_ok, lock_ok) =>
      var (t, outcome) := Dispatch(w.table, r, digest, semaphore_ok, lock_ok);
      if outcome.Started?
      then w.(table := t, sent := w.sent[outcome.session_id := Sent(outcome.slot_index, outcome.generation, r)])
      else w.(table := t)
    case RollbackStep(s) => w.(table := Rollback(w.table, w.sent[s].slot, s, w.sent[s].generation))
    case WriteBackStep(s, pid, now) =>
      w.(table := WriteBackPid(w.table, w.sent[s].slot, s, w.sent[s].generation, pid, now))
    case ClaimStep(s, g, pid, now, lock_ok) =>
      var (t, outcome) := Claim(w.table, s, g, pid, now, digest, lock_ok);
      if outcome.Won? then w.(table := t, claims := w.claims + [outcome.task]) else w.(table := t)
    case CancelStep(s, g, now) => w.(table := Cancel(w.table, s, g, now).0)
    case CompleteStep(k, code, summary, now, alive) =>
      w.(table := Complete(w.table, w.claims[k], code, summary, now, alive))
    case MinimalStep(k, code, now) => w.(table := CompleteMinimal(w.table, w.claims[k], code, now))
    case MonitorStep(owner, alive, now) => w.(table := Monitor(w.table, owner, alive, now))
    case CollectStep(owner, readable) =>
      var (t, events) := Collect(w.table, owner, readable, digest);
      w.(table := t, collected := w.collected + events)
    case AckStep(k, now) => w.(table := Acknowledge(w.table, w.collected[k], now).0)
  }

  // ---------- the invariant ----------

  // An empty slot keeps nothing of its last task, least of all its cancel flag.
  ghost predicate Clean(s: Slot) {
    && s.state == Empty && s.session_id == 0 && s.generation > 0
    && s.published == 0 && s.acknowledged == 0 && !s.cancel_requested && UpToNul(s.owner) == []
  }

  // A slot in use carries the task that was sent there, and so does its payload region.
  ghost predicate Carries(s: Slot, i: nat, pool: Bytes, r: Sent, digest: Digest) {
    && r.slot == i && r.generation == s.generation
    && s.request_pool_slot == i
    && s.owner == FixedBuffer(Trim(r.request.owner), OWNER_CAPACITY)
    && s.launcher_pid == r.request.launcher_pid
    && s.request_payload_size == |Encode(r.request.payload, digest)|
    && PoolHolds(pool, i, Encode(r.request.payload, digest))
  }

  ghost predicate Counts(s: Slot) {
    && s.published == StateCode(s.state)
    && s.acknowledged <= s.published && s.acknowledged < COMPLETED_SEQUENCE
  }

  ghost predicate SlotOk(s: Slot, i: nat, pool: Bytes, sent: map<nat, Sent>, digest: Digest) {
    && Counts(s)
    && (s.state == Empty ==> Clean(s))
    && (s.state != Empty ==> s.session_id in sent && Carries(s, i, pool, sent[s.session_id], digest))
  }

  ghost predicate SentOk(s: nat, r: Sent, count: nat, digest: Digest) {
    && 1 <= s <= count && r.slot < SLOT_COUNT && r.generation > 0
    && ValidOwner(r.request.owner) && |Encode(r.request.payload, digest)| <= POOL_SLOT_SIZE
  }

  // A claimed task is what was sent, and its slot has left the dispatched state for good.
  ghost predicate ClaimOk(c: ClaimedTask, t: Table, sent: map<nat, Sent>) {
    && c.session_id in sent
    && var r := sent[c.session_id];
    && c.slot_index == r.slot && c.generation == r.generation
    && c.launcher_pid == r.request.launcher_pid
    && c.owner == UpToNul(FixedBuffer(Trim(r.request.owner), OWNER_CAPACITY))
    && c.payload == Ok(r.request.payload)
    && Reached(t, c.session_id, CLAIMED_SEQUENCE)
  }

  ghost predicate EventOk(e: Event, t: Table, sent: map<nat, Sent>) {
    && e.session_id in sent && e.generation == sent[e.session_id].generation
    && e.owner == UpToNul(FixedBuffer(Trim(sent[e.session_id].request.owner), OWNER_CAPACITY))
    && 1 <= e.sequence <= COMPLETED_SEQUENCE && e.kind == KindForSequence(e.sequence)
    && Reached(t, e.session_id, e.sequence)
  }

  // If the session still has a slot, that slot has published at least this much.
  ghost predicate Reached(t: Table, session_id: nat, sequence: nat) {
    forall i | 0 <= i < |t.slots| && t.slots[i].session_id == session_id :: t.slots[i].published >= sequence
  }

  ghost predicate Inv(w: World, digest: Digest) {
    && WellFormed(w.table)
    && |w.sent| < SESSION_MODULUS && w.table.next_session_id == (|w.sent| + 1) % SESSION_MODULUS
    && (forall s | s in w.sent :: SentOk(s, w.sent[s], |w.sent|, digest))
    && (forall i | 0 <= i < SLOT_COUNT :: SlotOk(w.table.slots[i], i, w.table.pool, w.sent, digest))
    && (forall k | 0 <= k < |w.claims| :: ClaimOk(w.claims[k], w.table, w.sent))
    && (forall j, k | 0 <= j < k < |w.claims| :: w.claims[j].session_id != w.claims[k].session_id)
    && (forall k | 0 <= k < |w.collected| :: EventOk(w.collected[k], w.table, w.sent))
  }

  // ---------- one slot's evolution ----------

  // The same task, further along; or no task any more.
  ghost predicate Evolves(s: Slot, s': Slot) {
    s' == s || Clean(s') ||
    (&& s.state != Empty && s'.state != Empty
     && s' == s.(state := s'.state, published := s'.published, acknowledged := s'.acknowledged,
                 cancel_requested := s'.cancel_requested, result_code := s'.result_code,
                 worker_pid := s'.worker_pid, updated_msecs := s'.updated_msecs, summary := s'.summary)
     && s.published <= s'.published && Counts(s'))
  }

  lemma EvolvingKeepsInv(w: World, w': World, digest: Digest)
    requires Inv(w, digest) && WellFormed(w'.table)
    requires w' == w.(table := w.table.(slots := w'.table.slots))
    requires forall i | 0 <= i < SLOT_COUNT :: Evolves(w.table.slots[i], w'.table.slots[i])
    ensures Inv(w', digest)
  {
    hide Encode, FixedBuffer, Trim, PoolHolds;
    forall i | 0 <= i < SLOT_COUNT
      ensures SlotOk(w'.table.slots[i], i, w'.table.pool, w'.sent, digest)
    {
      assert SlotOk(w.table.slots[i], i, w.table.pool, w.sent, digest);
    }
    forall session_id: nat, sequence | session_id > 0 && Reached(w.table, session_id, sequence)
      ensures Reached(w'.table, session_id, sequence)
    {
      forall i | 0 <= i < SLOT_COUNT && w'.table.slots[i].session_id == session_id
        ensures w'.table.slots[i].published >= sequence
      {
        assert Evolves(w.table.slots[i], w'.table.slots[i]);
      }
    }
    forall k | 0 <= k < |w.claims| ensures ClaimOk(w.claims[k], w'.table, w.sent) {
      assert ClaimOk(w.claims[k], w.table, w.sent)
        && SentOk(w.claims[k].session_id, w.sent[w.claims[k].session_id], |w.sent|, digest);
    }
    forall k | 0 <= k < |w.collected| ensures EventOk(w.collected[k], w'.table, w.sent) {
      assert EventOk(w.collected[k], w.table, w.sent)
        && SentOk(w.collected[k].session_id, w.sent[w.collected[k].session_id], |w.sent|, digest);
    }
  }

  lemma InitInv(digest: Digest)
    ensures Inv(Init(), digest)
  {
    UpToNulOf([], Zeros(OWNER_CAPACITY));
    assert [] + Zeros(OWNER_CAPACITY) == Zeros(OWNER_CAPACITY);
  }

  // On reachable tables there is never anything to reclaim.
  lemma ReclaimIsNoOp(w: World, digest: Digest)
    requires Inv(w, digest)
    ensures Reclaim(w.table.slots) == w.table.slots
  {
    forall i | 0 <= i < SLOT_COUNT ensures ReclaimSlot(w.table.slots[i]) == w.table.slots[i] {
      assert SlotOk(w.table.slots[i], i, w.table.pool, w.sent, digest);
    }
  }

  // ---------- every step keeps the invariant ----------

  function Put(w: World, i: nat, s: Slot): World
    requires i < |w.table.slots|
  {
    w.(table := w.table.(slots := w.table.slots[i := s]))
  }

  lemma PutKeepsInv(w: World, i: nat, s: Slot, digest: Digest)
    requires Inv(w, digest) && i < SLOT_COUNT && Evolves(w.table.slots[i], s)
    ensures Inv(Put(w, i, s), digest)
  {
    hide SentOk, SlotOk, ClaimOk, EventOk;
    EvolvingKeepsInv(w, Put(w, i, s), digest);
  }

  // What the invariant says, one piece at a time.
  lemma InvBasics(w: World, digest: Digest)
    requires Inv(w, digest)
    ensures WellFormed(w.table) && Reclaim(w.table.slots) == w.table.slots
  {
    ReclaimIsNoOp(w, digest);
  }

  lemma SlotOkAt(w: World, i: nat, digest: Digest)
    requires Inv(w, digest) && i < SLOT_COUNT
    ensures WellFormed(w.table) && SlotOk(w.table.slots[i], i, w.table.pool, w.sent, digest)
  {}

  lemma SentOkAt(w: World, session_id: nat, digest: Digest)
    requires Inv(w, digest) && session_id in w.sent
    ensures SentOk(session_id, w.sent[session_id], |w.sent|, digest)
  {}

  lemma ClaimOkAt(w: World, k: nat, digest: Digest)
    requires Inv(w, digest) && k < |w.claims|
    ensures ClaimOk(w.claims[k], w.table, w.sent)
    ensures 0 <= w.claims[k].slot_index < SLOT_COUNT && w.claims[k].session_id > 0
  {
    assert ClaimOk(w.claims[k], w.table, w.sent);
    SentOkAt(w, w.claims[k].session_id, digest);
  }

  lemma EventOkAt(w: World, k: nat, digest: Digest)
    requires Inv(w, digest) && k < |w.collected|
    ensures EventOk(w.collected[k], w.table, w.sent) && w.collected[k].session_id > 0
  {
    assert EventOk(w.collected[k], w.table, w.sent);
    SentOkAt(w, w.collected[k].session_id, digest);
  }

  // The slot that belongs to a session in the history.
  lemma SessionSlot(w: World, i: nat, session_id: nat, digest: Digest)
    requires Inv(w, digest) && i < SLOT_COUNT && session_id > 0 && |w.table.slots| == SLOT_COUNT
    requires w.table.slots[i].session_id == session_id
    ensures Counts(w.table.slots[i]) && w.table.slots[i].state != Empty
    ensures session_id in w.sent && w.sent[session_id].slot == i
    ensures w.sent[session_id].generation == w.table.slots[i].generation
  {
    SlotOkAt(w, i, digest);
  }

  lemma ClearedIsClean(s: Slot, now: int)
    ensures Clean(ClearSlot(s, true)) && Clean(ClearSlot(s, true).(updated_msecs := now))
  {
    UpToNulOf([], Zeros(OWNER_CAPACITY));
    assert [] + Zeros(OWNER_CAPACITY) == Zeros(OWNER_CAPACITY);
  }

  lemma RollbackKeepsInv(w: World, session_id: nat, digest: Digest)
    requires Inv(w, digest) && session_id in w.sent
    ensures Inv(w.(table := Rollback(w.table, w.sent[session_id].slot, session_id, w.sent[session_id].generation)),
                digest)
  {
    hide Inv, EmptySlot, Clean;
    InvBasics(w, digest);
    var r := w.sent[session_id];
    SentOkAt(w, session_id, digest);
    var s := w.table.slots[r.slot];
    if IsTask(s, session_id, r.generation) {
      ClearedIsClean(s, 0);
      PutKeepsInv(w, r.slot, ClearSlot(s, true), digest);
    }
  }

  lemma WriteBackKeepsInv(w: World, session_id: nat, pid: int, now: int, digest: Digest)
    requires Inv(w, digest) && session_id in w.sent
    ensures Inv(w.(table := WriteBackPid(w.table, w.sent[session_id].slot, session_id, w.sent[session_id].generation,
                                         pid, now)), digest)
  {
    hide Inv, Encode;
    InvBasics(w, digest);
    var r := w.sent[session_id];
    SentOkAt(w, session_id, digest);
    var s := w.table.slots[r.slot];
    if IsTask(s, session_id, r.generation) {
      SessionSlot(w, r.slot, session_id, digest);
      PutKeepsInv(w, r.slot, if s.state == Dispatched then s.(worker_pid := pid, updated_msecs := now) else s, digest);
    }
  }

  lemma CompleteKeepsInv(w: World, k: nat, code: int, summary: Bytes, now: int, alive: set<int>, digest: Digest)
    requires Inv(w, digest) && k < |w.claims|
    ensures Inv(w.(table := Complete(w.table, w.claims[k], code, summary, now, alive)), digest)
  {
    hide Inv, Encode, FixedBuffer, Trim, UpToNul, ClaimOk;
    InvBasics(w, digest);
    var c := w.claims[k];
    ClaimOkAt(w, k, digest);
    var s := w.table.slots[c.slot_index];
    if IsTask(s, c.session_id, c.generation) {
      SessionSlot(w, c.slot_index, c.session_id, digest);
      PutKeepsInv(w, c.slot_index, PublishCompletion(s, code, summary, now).0, digest);
    }
  }

  lemma MinimalKeepsInv(w: World, k: nat, code: int, now: int, digest: Digest)
    requires Inv(w, digest) && k < |w.claims|
    ensures Inv(w.(table := CompleteMinimal(w.table, w.claims[k], code, now)), digest)
  {
    hide Inv, Encode, FixedBuffer, Trim, UpToNul, ClaimOk;
    InvBasics(w, digest);
    var c := w.claims[k];
    ClaimOkAt(w, k, digest);
    var s := w.table.slots[c.slot_index];
    if IsTask(s, c.session_id, c.generation) {
      SessionSlot(w, c.slot_index, c.session_id, digest);
      PutKeepsInv(w, c.slot_index, s.(result_code := code, updated_msecs := now, published := COMPLETED_SEQUENCE,
                                      state := Completed), digest);
    }
  }

  lemma CancelKeepsInv(w: World, session_id: nat, generation: nat, now: int, digest: Digest)
    requires Inv(w, digest) && WellFormed(w.table)
    ensures Inv(w.(table := Cancel(w.table, session_id, generation, now).0), digest)
  {
    hide Inv, Encode;
    InvBasics(w, digest);
    var t := Cancel(w.table, session_id, generation, now).0;
    if t.slots != w.table.slots {
      var i :| 0 <= i < SLOT_COUNT && t.slots == w.table.slots[i := t.slots[i]]
               && w.table.slots[i].session_id == session_id
               && t.slots[i] == w.table.slots[i].(cancel_requested := true, updated_msecs := now);
      SessionSlot(w, i, session_id, digest);
      PutKeepsInv(w, i, t.slots[i], digest);
    }
  }

  lemma MonitorKeepsInv(w: World, owner: Bytes, alive: set<int>, now: int, digest: Digest)
    requires Inv(w, digest)
    ensures Inv(w.(table := Monitor(w.table, owner, alive, now)), digest)
  {
    hide Inv, Encode;
    InvBasics(w, digest);
    var t := Monitor(w.table, owner, alive, now);
    forall i | 0 <= i < SLOT_COUNT ensures Evolves(w.table.slots[i], t.slots[i]) {
      SlotOkAt(w, i, digest);
      MonitorEvolves(w.table.slots[i], owner, alive, now);
    }
    EvolvingKeepsInv(w, w.(table := t), digest);
  }

  lemma MonitorEvolves(s: Slot, owner: Bytes, alive: set<int>, now: int)
    requires Counts(s)
    ensures Evolves(s, MonitorSlot(s, owner, alive, now))
  {
    hide UpToNul, FixedBuffer, TextBytes;
  }

  lemma AckKeepsInv(w: World, k: nat, now: int, digest: Digest)
    requires Inv(w, digest) && k < |w.collected|
    ensures Inv(w.(table := Acknowledge(w.table, w.collected[k], now).0), digest)
  {
    hide Inv, Encode, Trim, UpToNul, FixedBuffer;
    InvBasics(w, digest);
    EventOkAt(w, k, digest);
    var e := w.collected[k];
    var t := Acknowledge(w.table, e, now).0;
    if t.slots != w.table.slots {
      var i :| 0 <= i < SLOT_COUNT && t.slots == w.table.slots[i := t.slots[i]]
               && w.table.slots[i].session_id == e.session_id
               && t.slots[i] == AcknowledgeSlot(w.table.slots[i], e.sequence, now);
      SessionSlot(w, i, e.session_id, digest);
      AcknowledgeEvolves(w.table.slots[i], e.sequence, now);
      PutKeepsInv(w, i, t.slots[i], digest);
    }
  }

  lemma AcknowledgeEvolves(s: Slot, sequence: nat, now: int)
    requires Counts(s) && s.state != Empty && sequence <= s.published
    ensures Evolves(s, AcknowledgeSlot(s, sequence, now))
  {
    hide Clean, ClearSlot;
    ClearedIsClean(s.(acknowledged := sequence, updated_msecs := now), now);
  }

  lemma CollectKeepsInv(w: World, owner: Bytes, readable: set<nat>, digest: Digest)
    requires Inv(w, digest)
    ensures var (t, events) := Collect(w.table, owner, readable, digest);
            Inv(w.(table := t, collected := w.collected + events), digest)
  {
    hide Inv, EventsOf, Trim, ValidOwner;
    InvBasics(w, digest);
    var (t, events) := Collect(w.table, owner, readable, digest);
    assert t == w.table;
    if ValidOwner(owner) {
      CollectedOk(w, Trim(owner), readable, digest, 0);
      hide Collect;
      AddEvents(w, events, digest);
    } else {
      assert w.collected + [] == w.collected;
    }
  }

  lemma AddEvents(w: World, events: seq<Event>, digest: Digest)
    requires Inv(w, digest) && forall e | e in events :: EventOk(e, w.table, w.sent)
    ensures Inv(w.(collected := w.collected + events), digest)
  {
    hide EventOk, ClaimOk, SlotOk, SentOk;
  }

  lemma {:induction false} CollectedOk(w: World, owner: Bytes, readable: set<nat>, digest: Digest, i: nat)
    requires Inv(w, digest) && i <= |w.table.slots|
    ensures forall e | e in EventsOf(w.table.slots, w.table.pool, owner, readable, digest, i) ::
              EventOk(e, w.table, w.sent)
    decreases |w.table.slots| - i
  {
    hide EventOk, Inv, EventPayload, EventsFrom;
    InvBasics(w, digest);
    if i < SLOT_COUNT {
      CollectedOk(w, owner, readable, digest, i + 1);
      var s := w.table.slots[i];
      if s.state != Empty && MatchesOwner(s, owner) {
        PendingOk(w, i, owner, s.acknowledged + 1, EventPayload(w.table.pool, s, i in readable, digest), digest);
      }
    }
  }

  lemma {:induction false} PendingOk(w: World, i: nat, owner: Bytes, sequence: nat, payload: Payload, digest: Digest)
    requires Inv(w, digest) && i < SLOT_COUNT && sequence > 0 && |w.table.slots| == SLOT_COUNT
    requires w.table.slots[i].state != Empty && MatchesOwner(w.table.slots[i], owner)
    ensures forall e | e in EventsFrom(w.table.slots[i], owner, sequence, payload) :: EventOk(e, w.table, w.sent)
    decreases w.table.slots[i].published + 1 - sequence
  {
    hide EventOk, Inv, BuildEvent, MatchesOwner;
    if sequence <= w.table.slots[i].published {
      PendingOk(w, i, owner, sequence + 1, payload, digest);
      BuiltEventOk(w, i, owner, sequence, payload, digest);
    }
  }

  lemma BuiltEventOk(w: World, i: nat, owner: Bytes, sequence: nat, payload: Payload, digest: Digest)
    requires Inv(w, digest) && i < SLOT_COUNT && |w.table.slots| == SLOT_COUNT
    requires w.table.slots[i].state != Empty && MatchesOwner(w.table.slots[i], owner)
    requires 1 <= sequence <= w.table.slots[i].published
    ensures EventOk(BuildEvent(w.table.slots[i], owner, sequence, payload), w.table, w.sent)
  {
    hide Inv, Encode, UpToNul, Trim, FixedBuffer;
    var s := w.table.slots[i];
    SlotOkAt(w, i, digest);
    SentOkAt(w, s.session_id, digest);
    forall j | 0 <= j < SLOT_COUNT && w.table.slots[j].session_id == s.session_id
      ensures w.table.slots[j].published >= sequence
    {
      SessionSlot(w, j, s.session_id, digest);
    }
  }

  // Reading the region of a slot in use yields the payload that was sent there.
  lemma RegionDecodes(s: Slot, i: nat, pool: Bytes, r: Sent, digest: Digest)
    requires Carries(s, i, pool, r, digest) && i < SLOT_COUNT && |pool| == POOL_SIZE
    requires |Encode(r.request.payload, digest)| <= POOL_SLOT_SIZE
    ensures ReadRequestPayload(pool, s.request_pool_slot, s.request_payload_size, digest) == Ok(r.request.payload)
  {
    hide Encode, FixedBuffer, Trim, ReadRequestPayload;
    EncodedDecodes(r.request.payload, digest);
    ReadHeld(pool, i, Encode(r.request.payload, digest), digest);
  }

  lemma ReadHeld(pool: Bytes, i: nat, bytes: Bytes, digest: Digest)
    requires i < SLOT_COUNT && |pool| == POOL_SIZE && 0 < |bytes| <= POOL_SLOT_SIZE && PoolHolds(pool, i, bytes)
    ensures ReadRequestPayload(pool, i, |bytes|, digest) == Decode(bytes, digest)
  {
    hide Decode;
  }

  lemma EncodedDecodes(p: Payload, digest: Digest)
    requires |Encode(p, digest)| <= POOL_SLOT_SIZE
    ensures |Encode(p, digest)| > 0 && Decode(Encode(p, digest), digest) == Ok(p)
  {
    hide Encode, Decode, EncBody;
    EncodeLength(p, digest);
    RoundTrip(p, digest, []);
    assert Encode(p, digest) + [] == Encode(p, digest);
  }

  lemma EncodeLength(p: Payload, digest: Digest)
    ensures |Encode(p, digest)| == 46 + |EncBody(p)|
  {
    hide EncBody;
  }

  lemma ClaimKeepsInv(w: World, session_id: nat, generation: nat, pid: int, now: int, lock_ok: bool, digest: Digest)
    requires Inv(w, digest) && WellFormed(w.table)
    ensures var (t, outcome) := Claim(w.table, session_id, generation, pid, now, digest, lock_ok);
            Inv(if outcome.Won? then w.(table := t, claims := w.claims + [outcome.task]) else w.(table := t), digest)
  {
    hide Inv, Encode, ReadRequestPayload, UpToNul;
    InvBasics(w, digest);
    var (t, outcome) := Claim(w.table, session_id, generation, pid, now, digest, lock_ok);
    if outcome.Won? {
      var i := outcome.task.slot_index;
      var s := w.table.slots[i];
      assert IsTask(s, session_id, generation) && s.state == Dispatched && session_id > 0;
      SessionSlot(w, i, session_id, digest);
      var s' := ClaimSlot(s, pid, now);
      PutKeepsInv(w, i, s', digest);
      assert w.(table := t) == Put(w, i, s');
      ClaimRecorded(w, i, pid, now, digest);
    }
  }

  lemma ClaimRecorded(w: World, i: nat, pid: int, now: int, digest: Digest)
    requires Inv(w, digest) && i < SLOT_COUNT && WellFormed(w.table)
    requires w.table.slots[i].state == Dispatched
    requires Inv(Put(w, i, ClaimSlot(w.table.slots[i], pid, now)), digest)
    ensures var w1 := Put(w, i, ClaimSlot(w.table.slots[i], pid, now));
            var task := TaskOf(w1.table.slots[i], i, w.table.pool, digest);
            Inv(w1.(claims := w.claims + [task]), digest)
  {
    hide Inv, ClaimSlot, Encode, ReadRequestPayload, UpToNul, FixedBuffer, Trim;
    var s := w.table.slots[i];
    var w1 := Put(w, i, ClaimSlot(s, pid, now));
    var task := TaskOf(w1.table.slots[i], i, w.table.pool, digest);
    TaskIsSent(w, w1, i, pid, now, digest);
    assert task.session_id == s.session_id;
    forall k | 0 <= k < |w.claims| ensures w.claims[k].session_id != s.session_id {
      ClaimOkAt(w, k, digest);
      SlotOkAt(w, i, digest);
    }
    AddClaim(w1, task, digest);
  }

  lemma AddClaim(w: World, task: ClaimedTask, digest: Digest)
    requires Inv(w, digest) && ClaimOk(task, w.table, w.sent)
    requires forall k | 0 <= k < |w.claims| :: w.claims[k].session_id != task.session_id
    ensures Inv(w.(claims := w.claims + [task]), digest)
  {
    hide SlotOk, ClaimOk, EventOk, SentOk;
  }

  lemma TaskIsSent(w: World, w1: World, i: nat, pid: int, now: int, digest: Digest)
    requires Inv(w, digest) && i < SLOT_COUNT && WellFormed(w.table) && Inv(w1, digest)
    requires w.table.slots[i].state == Dispatched
    requires w1 == Put(w, i, ClaimSlot(w.table.slots[i], pid, now))
    ensures ClaimOk(TaskOf(w1.table.slots[i], i, w.table.pool, digest), w1.table, w.sent)
    ensures w1.table.slots[i].session_id == w.table.slots[i].session_id
  {
    hide Inv, Encode, ReadRequestPayload, UpToNul, FixedBuffer, Trim;
    var s1 := w1.table.slots[i];
    SlotOkAt(w, i, digest);
    SlotOkAt(w1, i, digest);
    SentOkAt(w, s1.session_id, digest);
    RegionDecodes(s1, i, w.table.pool, w.sent[s1.session_id], digest);
    forall j | 0 <= j < SLOT_COUNT && w1.table.slots[j].session_id == s1.session_id
      ensures w1.table.slots[j].published >= CLAIMED_SEQUENCE
    {
      SessionSlot(w1, j, s1.session_id, digest);
    }
  }

  // ---------- dispatch ----------

  lemma DispatchKeepsInv(w: World, r: Request, semaphore_ok: bool, lock_ok: bool, digest: Digest)
    requires Inv(w, digest) && WellFormed(w.table) && |w.sent| < SESSION_MODULUS - 1
    ensures var (t, outcome) := Dispatch(w.table, r, digest, semaphore_ok, lock_ok);
            Inv(if outcome.Started?
                then w.(table := t, sent := w.sent[outcome.session_id := Sent(outcome.slot_index, outcome.generation,
                  r)])
                else w.(table := t), digest)
  {
    hide Inv, Encode, PoolWrite, FreshSlot, Trim;
    InvBasics(w, digest);
    NextSession(w, digest);
    var (t, outcome) := Dispatch(w.table, r, digest, semaphore_ok, lock_ok);
    if ValidOwner(r.owner) && |Encode(r.payload, digest)| <= POOL_SLOT_SIZE {
      var i := FirstEmpty(w.table.slots);
      if i < SLOT_COUNT {
        SlotOkAt(w, i, digest);
        assert w.table.slots[i := w.table.slots[i]] == w.table.slots;
        if outcome.Started? {
          FreshKeepsInv(w, i, r, digest);
        }
      }
    }
  }

  lemma NextSession(w: World, digest: Digest)
    requires Inv(w, digest) && |w.sent| < SESSION_MODULUS - 1
    ensures w.table.next_session_id == |w.sent| + 1 && |w.sent| + 1 !in w.sent
  {
    hide SlotOk, ClaimOk, EventOk, ValidOwner, Encode;
    if |w.sent| + 1 in w.sent { SentOkAt(w, |w.sent| + 1, digest); }
  }

  // The world after a task was written to the empty slot i under the next session id.
  ghost function Sending(w: World, i: nat, r: Request, digest: Digest): World
    requires WellFormed(w.table) && i < SLOT_COUNT && |Encode(r.payload, digest)| <= POOL_SLOT_SIZE
  {
    var id, encoded := |w.sent| + 1, Encode(r.payload, digest);
    w.(table := Table((id + 1) % SESSION_MODULUS,
                      w.table.slots[i := FreshSlot(w.table.slots[i], i, id, r, |encoded|)],
                      PoolWrite(w.table.pool, i, encoded)),
       sent := w.sent[id := Sent(i, w.table.slots[i].generation, r)])
  }

  lemma FreshKeepsInv(w: World, i: nat, r: Request, digest: Digest)
    requires Inv(w, digest) && WellFormed(w.table) && |w.sent| < SESSION_MODULUS - 1
    requires i < SLOT_COUNT && w.table.slots[i].state == Empty && w.table.slots[i].generation > 0
    requires ValidOwner(r.owner) && |Encode(r.payload, digest)| <= POOL_SLOT_SIZE
    ensures Inv(Sending(w, i, r, digest), digest)
  {
    hide Encode, PoolWrite, PoolHolds, Trim, FixedBuffer, UpToNul, SlotOk, ClaimOk, EventOk, Carries;
    var w' := Sending(w, i, r, digest);
    NextSession(w, digest);
    assert |w'.sent| == |w.sent| + 1;
    forall j | 0 <= j < SLOT_COUNT ensures SlotOk(w'.table.slots[j], j, w'.table.pool, w'.sent, digest) {
      SlotOkAfterSending(w, i, r, j, digest);
    }
    forall k | 0 <= k < |w.claims| ensures ClaimOk(w.claims[k], w'.table, w'.sent) {
      ClaimOkAfterSending(w, i, r, k, digest);
    }
    forall k | 0 <= k < |w.collected| ensures EventOk(w.collected[k], w'.table, w'.sent) {
      EventOkAfterSending(w, i, r, k, digest);
    }
  }

  lemma SlotOkAfterSending(w: World, i: nat, r: Request, j: nat, digest: Digest)
    requires Inv(w, digest) && WellFormed(w.table) && |w.sent| < SESSION_MODULUS - 1
    requires i < SLOT_COUNT && w.table.slots[i].state == Empty && j < SLOT_COUNT
    requires |Encode(r.payload, digest)| <= POOL_SLOT_SIZE
    ensures var w' := Sending(w, i, r, digest);
            SlotOk(w'.table.slots[j], j, w'.table.pool, w'.sent, digest)
  {
    hide Inv, Encode, PoolWrite, PoolHolds, Trim, FixedBuffer, UpToNul;
    NextSession(w, digest);
    SlotOkAt(w, j, digest);
    var encoded := Encode(r.payload, digest);
    var s := w.table.slots[j];
    if j == i {
      PoolWriteHolds(w.table.pool, i, encoded);
    } else if s.state != Empty {
      SentOkAt(w, s.session_id, digest);
      PoolWriteElsewhere(w.table.pool, i, encoded, j, Encode(w.sent[s.session_id].request.payload, digest));
    }
  }

  lemma ReachedAfterSending(w: World, i: nat, r: Request, session_id: nat, sequence: nat, digest: Digest)
    requires Inv(w, digest) && WellFormed(w.table) && |w.sent| < SESSION_MODULUS - 1
    requires i < SLOT_COUNT && |Encode(r.payload, digest)| <= POOL_SLOT_SIZE
    requires session_id in w.sent && Reached(w.table, session_id, sequence)
    ensures Reached(Sending(w, i, r, digest).table, session_id, sequence)
  {
    hide Inv, Encode, PoolWrite, Trim, FixedBuffer;
    NextSession(w, digest);
  }

  lemma ClaimOkAfterSending(w: World, i: nat, r: Request, k: nat, digest: Digest)
    requires Inv(w, digest) && WellFormed(w.table) && |w.sent| < SESSION_MODULUS - 1
    requires i < SLOT_COUNT && |Encode(r.payload, digest)| <= POOL_SLOT_SIZE && k < |w.claims|
    ensures ClaimOk(w.claims[k], Sending(w, i, r, digest).table, Sending(w, i, r, digest).sent)
  {
    hide Inv, Encode, PoolWrite, Trim, FixedBuffer, UpToNul, Reached, FreshSlot;
    NextSession(w, digest);
    ClaimOkAt(w, k, digest);
    ReachedAfterSending(w, i, r, w.claims[k].session_id, CLAIMED_SEQUENCE, digest);
  }

  lemma EventOkAfterSending(w: World, i: nat, r: Request, k: nat, digest: Digest)
    requires Inv(w, digest) && WellFormed(w.table) && |w.sent| < SESSION_MODULUS - 1
    requires i < SLOT_COUNT && |Encode(r.payload, digest)| <= POOL_SLOT_SIZE && k < |w.collected|
    ensures EventOk(w.collected[k], Sending(w, i, r, digest).table, Sending(w, i, r, digest).sent)
  {
    hide Inv, Encode, PoolWrite, Trim, FixedBuffer, UpToNul, Reached, FreshSlot;
    NextSession(w, digest);
    EventOkAt(w, k, digest);
    ReachedAfterSending(w, i, r, w.collected[k].session_id, w.collected[k].sequence, digest);
  }

  // ---------- whole runs ----------

  lemma StepKeepsInv(w: World, step: Step, digest: Digest)
    requires Inv(w, digest) && WellFormed(w.table) && Legal(w, step)
    ensures Inv(Apply(w, step, digest), digest)
  {
    hide Inv, Dispatch, Rollback, WriteBackPid, Claim, Cancel, Complete, CompleteMinimal, Monitor, Collect, Acknowledge;
    match step
    case DispatchStep(r, semaphore_ok, lock_ok) => DispatchKeepsInv(w, r, semaphore_ok, lock_ok, digest);
    case RollbackStep(s) => RollbackKeepsInv(w, s, digest);
    case WriteBackStep(s, pid, now) => WriteBackKeepsInv(w, s, pid, now, digest);
    case ClaimStep(s, g, pid, now, lock_ok) => ClaimKeepsInv(w, s, g, pid, now, lock_ok, digest);
    case CancelStep(s, g, now) => CancelKeepsInv(w, s, g, now, digest);
    case CompleteStep(k, code, summary, now, alive) => CompleteKeepsInv(w, k, code, summary, now, alive, digest);
    case MinimalStep(k, code, now) => MinimalKeepsInv(w, k, code, now, digest);
    case MonitorStep(owner, alive, now) => MonitorKeepsInv(w, owner, alive, now, digest);
    case CollectStep(owner, readable) => CollectKeepsInv(w, owner, readable, digest);
    case AckStep(k, now) => AckKeepsInv(w, k, now, digest);
  }
}
