/**
  The table in shared memory, changed in place by each locked operation.
 */
module SharedTaskTable {
  import opened QtStream
  import opened AsciiText
  import opened TaskSlots
  import opened PayloadCodec
  import opened TaskTable

  class SharedTable {
    var next_session_id: nat
    const slots: array<Slot>
    const pool: array<Byte>
    const digest: Digest

    ghost predicate Valid() {
      slots.Length == SLOT_COUNT && pool.Length == POOL_SIZE
    }

    ghost function Value(): Table
      reads this, slots, pool
    {
      Table(next_session_id, slots[..], pool[..])
    }

    method ReclaimStaleSlots()
      requires Valid()
      modifies slots
      ensures slots[..] == Reclaim(old(slots[..]))
      ensures forall i | 0 <= i < SLOT_COUNT ::
                var s, s' := old(slots[i]), slots[i];
                if s.state == Completed && s.acknowledged >= COMPLETED_SEQUENCE
                then s' == EmptySlot(NextGeneration(s.generation)) else s' == s
    {
      hide EmptySlot;
      for i := 0 to SLOT_COUNT
        invariant forall k | 0 <= k < i :: slots[k] == ReclaimSlot(old(slots[k]))
        invariant forall k | i <= k < SLOT_COUNT :: slots[k] == old(slots[k])
      {
        if slots[i].state == Completed && slots[i].acknowledged >= COMPLETED_SEQUENCE {
          slots[i] := ClearSlot(slots[i], true);
        }
      }
    }

    method WriteRequestPayloadToSlot(i: nat, payload: Bytes)
      requires Valid() && i < SLOT_COUNT && |payload| <= POOL_SLOT_SIZE
      modifies pool
      ensures pool[..] == PoolWrite(old(pool[..]), i, payload)
    {
      var base := PoolAddress(i);
      PoolRegionInside(i);
      for k := base to base + POOL_SLOT_SIZE
        invariant pool[..base] == old(pool[..base])
        invariant forall n | base <= n < k :: pool[n] == 0
        invariant pool[base + POOL_SLOT_SIZE..] == old(pool[base + POOL_SLOT_SIZE..])
      {
        pool[k] := 0;
      }
      for k := 0 to |payload|
        invariant pool[..base] == old(pool[..base])
        invariant forall n | 0 <= n < k :: pool[base + n] == payload[n]
        invariant forall n | base + k <= n < base + POOL_SLOT_SIZE :: pool[n] == 0
        invariant pool[base + POOL_SLOT_SIZE..] == old(pool[base + POOL_SLOT_SIZE..])
      {
        pool[base + k] := payload[k];
      }
      assert pool[base..base + |payload|] == payload;
      assert pool[base + |payload|..base + POOL_SLOT_SIZE] == Zeros(POOL_SLOT_SIZE - |payload|);
      assert pool[..] == pool[..base] + pool[base..base + |payload|]
                         + pool[base + |payload|..base + POOL_SLOT_SIZE] + pool[base + POOL_SLOT_SIZE..];
    }

    lemma PoolRegionInside(i: nat)
      requires i < SLOT_COUNT
      ensures PoolAddress(i) + POOL_SLOT_SIZE <= POOL_SIZE
    {}

    method FindEmpty() returns (i: nat)
      requires Valid()
      ensures i == FirstEmpty(slots[..])
    {
      i := 0;
      while i < SLOT_COUNT && slots[i].state != Empty
        invariant i <= SLOT_COUNT && forall k | 0 <= k < i :: slots[k].state != Empty
      {
        i := i + 1;
      }
    }

    method FindTask(session_id: nat, generation: nat, dispatched_only: bool) returns (i: nat)
      requires Valid()
      ensures i == FirstTask(slots[..], session_id, generation, dispatched_only)
    {
      i := 0;
      while i < SLOT_COUNT
            && !(IsTask(slots[i], session_id, generation) && (dispatched_only ==> slots[i].state == Dispatched))
        invariant i <= SLOT_COUNT
        invariant forall k | 0 <= k < i ::
                    !(IsTask(slots[k], session_id, generation) && (dispatched_only ==> slots[k].state == Dispatched))
      {
        i := i + 1;
      }
    }

    method DispatchTask(r: Request, semaphore_ok: bool, pool_lock_ok: bool) returns (outcome: DispatchOutcome)
      requires Valid()
      modifies this, slots, pool
      ensures (Value(), outcome) == Dispatch(old(Value()), r, digest, semaphore_ok, pool_lock_ok)
    {
      hide Encode, DispatchLocked, ValidOwner;
      var encoded := SerializeTaskPayload(r.payload, digest);
      if !ValidOwner(r.owner) { return BadOwner; }
      if |encoded| > POOL_SLOT_SIZE { return PayloadTooLarge; }
      outcome := DispatchUnderLock(r, encoded, semaphore_ok, pool_lock_ok);
    }

    method DispatchUnderLock(r: Request, encoded: Bytes, semaphore_ok: bool, pool_lock_ok: bool)
      returns (outcome: DispatchOutcome)
      requires Valid() && |encoded| <= POOL_SLOT_SIZE
      modifies this, slots, pool
      ensures (Value(), outcome) == DispatchLocked(old(Value()), r, encoded, semaphore_ok, pool_lock_ok)
    {
      hide PoolWrite, Reclaim, FreshSlot, WithGeneration, FirstEmpty;
      ReclaimStaleSlots();
      if next_session_id == 0 { next_session_id := 1; }
      var i := FindEmpty();
      if i == SLOT_COUNT { return QueueFull; }
      ghost var reclaimed := slots[..];
      NumberSlot(i);
      var generation, session_id := slots[i].generation, next_session_id;
      if !semaphore_ok { return NoSemaphore; }
      if !pool_lock_ok { return PoolSlotBusy; }
      StartTask(i, session_id, r, encoded);
      assert slots[..] == reclaimed[i := slots[i]];
      outcome := Started(i, session_id, generation);
    }

    method NumberSlot(i: nat)
      requires Valid() && i < SLOT_COUNT
      modifies slots
      ensures slots[..] == old(slots[..])[i := WithGeneration(old(slots[i]))]
    {
      if slots[i].generation == 0 { slots[i] := slots[i].(generation := 1); }
      assert slots[..] == old(slots[..])[i := slots[i]];
    }

    method StartTask(i: nat, session_id: nat, r: Request, encoded: Bytes)
      requires Valid() && i < SLOT_COUNT && |encoded| <= POOL_SLOT_SIZE
      modifies this, slots, pool
      ensures next_session_id == (old(next_session_id) + 1) % SESSION_MODULUS
      ensures slots[..] == old(slots[..])[i := FreshSlot(old(slots[i]), i, session_id, r, |encoded|)]
      ensures pool[..] == PoolWrite(old(pool[..]), i, encoded)
    {
      hide PoolWrite, FreshSlot;
      WriteRequestPayloadToSlot(i, encoded);
      next_session_id := (next_session_id + 1) % SESSION_MODULUS;
      slots[i] := FreshSlot(slots[i], i, session_id, r, |encoded|);
    }

    method RollbackLaunch(i: nat, session_id: nat, generation: nat)
      requires Valid() && i < SLOT_COUNT
      modifies slots
      ensures Value() == Rollback(old(Value()), i, session_id, generation)
    {
      hide ClearSlot;
      if IsTask(slots[i], session_id, generation) { slots[i] := ClearSlot(slots[i], true); }
      assert slots[..] == old(slots[..])[i := slots[i]];
    }

    method WriteBackWorkerPid(i: nat, session_id: nat, generation: nat, pid: int, now: int)
      requires Valid() && i < SLOT_COUNT
      modifies slots
      ensures Value() == WriteBackPid(old(Value()), i, session_id, generation, pid, now)
    {
      if IsTask(slots[i], session_id, generation) && slots[i].state == Dispatched {
        slots[i] := slots[i].(worker_pid := pid, updated_msecs := now);
      }
      assert slots[..] == old(slots[..])[i := slots[i]];
    }

    method ReadRequestPayloadFromSlot(pool_slot: nat, size: nat) returns (r: Decoded)
      requires Valid()
      ensures r == ReadRequestPayload(pool[..], pool_slot, size, digest)
    {
      hide Decode;
      if pool_slot >= SLOT_COUNT || size == 0 || size > POOL_SLOT_SIZE { return Err(InvalidBodySize); }
      var base := PoolAddress(pool_slot);
      PoolRegionInside(pool_slot);
      assert pool[..][base..base + size] == pool[base..base + size];
      r := DeserializeTaskPayload(pool[base..base + size], digest);
    }

    method ClaimTask(session_id: nat, generation: nat, pid: int, now: int, pool_lock_ok: bool)
      returns (outcome: ClaimOutcome)
      requires Valid()
      modifies slots
      ensures (Value(), outcome) == Claim(old(Value()), session_id, generation, pid, now, digest, pool_lock_ok)
    {
      hide ReadRequestPayload, Reclaim, UpToNul, FirstTask;
      if session_id == 0 || generation == 0 { return BadIdentity; }
      ReclaimStaleSlots();
      ghost var reclaimed := slots[..];
      var i := FindTask(session_id, generation, true);
      if i == SLOT_COUNT { return NotAvailable; }
      if !pool_lock_ok { return ClaimPoolBusy; }
      slots[i] := slots[i].(state := Claimed, worker_pid := pid);
      slots[i] := PublishStage(slots[i], ClaimedEvent, now).0;
      assert slots[..] == reclaimed[i := ClaimSlot(reclaimed[i], pid, now)];
      var s := slots[i];
      var payload := ReadRequestPayloadFromSlot(s.request_pool_slot, s.request_payload_size);
      outcome := Won(ClaimedTask(i, s.session_id, s.generation, UpToNul(s.owner), s.launcher_pid, s.worker_pid,
        payload));
    }

    method RequestCancel(session_id: nat, generation: nat, now: int) returns (outcome: CancelOutcome)
      requires Valid()
      modifies slots
      ensures (Value(), outcome) == Cancel(old(Value()), session_id, generation, now)
    {
      hide Reclaim, FirstTask;
      if session_id == 0 || generation == 0 { return CancelRejected; }
      ReclaimStaleSlots();
      ghost var reclaimed := slots[..];
      var i := FindTask(session_id, generation, false);
      if i == SLOT_COUNT || slots[i].state == Empty || slots[i].state == Completed { return CancelIgnored; }
      slots[i] := slots[i].(cancel_requested := true, updated_msecs := now);
      assert slots[..] == reclaimed[i := slots[i]];
      outcome := CancelPosted;
    }

    // `posted`: whether the owner's semaphore can be posted afterwards. A dead launcher needs no
    // completion; a handle that no longer matches is refused.
    method PublishTaskCompletion(task: ClaimedTask, code: int, summary: Bytes, now: int, alive: set<int>, posted: bool)
      returns (ok: bool)
      requires Valid()
      modifies slots
      ensures Value() == Complete(old(Value()), task, code, summary, now, alive)
      ensures var i := task.slot_index;
              0 <= i < SLOT_COUNT && IsTask(old(slots[..])[i], task.session_id, task.generation)
              && (task.launcher_pid > 0 ==> task.launcher_pid in alive) ==>
                slots[i].state == Completed && slots[i].published >= COMPLETED_SEQUENCE && slots[i].result_code == code
                && slots[i].summary == FixedBuffer(summary, SUMMARY_CAPACITY)
      ensures ok <==>
              && 0 <= task.slot_index < SLOT_COUNT
              && (|| (task.launcher_pid > 0 && task.launcher_pid !in alive)
                  || (IsTask(old(slots[..])[task.slot_index], task.session_id, task.generation) && posted))
    {
      hide FixedBuffer;
      if task.slot_index < 0 || task.slot_index >= SLOT_COUNT { return false; }
      if task.launcher_pid > 0 && task.launcher_pid !in alive { return true; }
      var i := task.slot_index;
      if !IsTask(slots[i], task.session_id, task.generation) { return false; }
      var (s, _) := PublishCompletion(slots[i], code, summary, now);
      slots[i] := s;
      assert slots[..] == old(slots[..])[i := slots[i]];
      ok := posted;
    }

    // What the two publications report is whether they raised the published sequence.
    static lemma PublishedIsRaised(s: Slot, alive: set<int>, now: int)
      ensures var (s1, timed_out) := PublishUnclaimedTimeout(s, now);
              var (s2, exited) := PublishWorkerExit(s1, alive, now);
              (timed_out || exited <==> s2.published > s.published)
    {
      hide FixedBuffer, TextBytes;
    }

    method ScanOwnerEvents(owner: Bytes, alive: set<int>, now: int) returns (notify: bool)
      requires Valid()
      modifies slots
      ensures Value() == Monitor(old(Value()), owner, alive, now)
      ensures notify <==> exists i :: 0 <= i < SLOT_COUNT && slots[i].published > Reclaim(old(slots[..]))[i].published
    {
      hide ReclaimSlot, PublishUnclaimedTimeout, PublishWorkerExit, UpToNul;
      notify := false;
      ReclaimStaleSlots();
      ghost var reclaimed := slots[..];
      for i := 0 to SLOT_COUNT
        invariant forall k | 0 <= k < i :: slots[k] == MonitorSlot(reclaimed[k], owner, alive, now)
        invariant forall k | i <= k < SLOT_COUNT :: slots[k] == reclaimed[k]
        invariant notify <==> exists k :: 0 <= k < i && slots[k].published > reclaimed[k].published
      {
        if MatchesOwner(slots[i], owner) {
          PublishedIsRaised(slots[i], alive, now);
          var (s1, timed_out) := PublishUnclaimedTimeout(slots[i], now);
          var (s2, exited) := PublishWorkerExit(s1, alive, now);
          slots[i] := s2;
          notify := notify || timed_out || exited;
        }
      }
    }

    method CollectEvents(owner: Bytes, readable: set<nat>) returns (events: seq<Event>)
      requires Valid()
      modifies slots
      ensures (Value(), events) == Collect(old(Value()), owner, readable, digest)
    {
      hide ReclaimSlot, SlotEvents, Trim;
      events := [];
      if !ValidOwner(owner) { return; }
      ReclaimStaleSlots();
      ghost var table := Value();
      for i := 0 to SLOT_COUNT
        invariant Value() == table
        invariant events + EventsOf(slots[..], pool[..], Trim(owner), readable, digest, i)
                  == EventsOf(slots[..], pool[..], Trim(owner), readable, digest, 0)
      {
        var found := CollectSlotEvents(i, Trim(owner), i in readable);
        assert events + (found + EventsOf(slots[..], pool[..], Trim(owner), readable, digest, i + 1))
               == (events + found) + EventsOf(slots[..], pool[..], Trim(owner), readable, digest, i + 1);
        events := events + found;
      }
      assert events + [] == events;
    }

    method CollectSlotEvents(i: nat, owner: Bytes, readable: bool) returns (events: seq<Event>)
      requires Valid() && i < SLOT_COUNT
      ensures events == SlotEvents(slots[i], pool[..], owner, readable, digest)
    {
      hide ReadRequestPayload, UpToNul, PendingEvents;
      events := [];
      var s := slots[i];
      if s.state == Empty || !MatchesOwner(s, owner) { return; }
      var payload := DEFAULT_PAYLOAD;
      if s.request_payload_size != 0 && readable {
        var decoded := ReadRequestPayloadFromSlot(s.request_pool_slot, s.request_payload_size);
        if decoded.Ok? { payload := decoded.payload; }
      }
      events := AppendPendingEvents(s, owner, payload);
    }

    method AppendPendingEvents(s: Slot, owner: Bytes, payload: Payload) returns (events: seq<Event>)
      ensures events == PendingEvents(s, owner, payload)
    {
      hide BuildEvent;
      events := [];
      if !HasPendingEvents(s) { return; }
      var sequence := NextPendingSequence(s);
      while sequence <= s.published
        invariant s.acknowledged < sequence <= s.published + 1
        invariant events + EventsFrom(s, owner, sequence, payload) == PendingEvents(s, owner, payload)
      {
        assert events + ([BuildEvent(s, owner, sequence, payload)] + EventsFrom(s, owner, sequence + 1, payload))
               == (events + [BuildEvent(s, owner, sequence, payload)]) + EventsFrom(s, owner, sequence + 1, payload);
        events := events + [BuildEvent(s, owner, sequence, payload)];
        sequence := sequence + 1;
      }
      assert events + [] == events;
    }

    method AcknowledgeEvent(e: Event, now: int) returns (outcome: AckOutcome)
      requires Valid()
      modifies slots
      ensures (Value(), outcome) == Acknowledge(old(Value()), e, now)
    {
      hide Trim, UpToNul, ClearSlot;
      var sequence := EventSequence(e.kind);
      if !ValidOwner(e.owner) || sequence == 0 || sequence != e.sequence { return AckRejected; }
      var i := FindTask(e.session_id, e.generation, false);
      outcome := Acknowledged;
      if i == SLOT_COUNT || !MatchesOwner(slots[i], e.owner) { return; }
      if slots[i].acknowledged < sequence {
        slots[i] := slots[i].(acknowledged := sequence, updated_msecs := now);
      }
      if slots[i].acknowledged >= COMPLETED_SEQUENCE {
        slots[i] := ClearSlot(slots[i], true);
        slots[i] := slots[i].(updated_msecs := now);
      }
      assert slots[..] == old(slots[..])[i := slots[i]];
    }
  }
}
