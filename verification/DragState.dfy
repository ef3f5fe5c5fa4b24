/**
  The shared state of a native drag: two counting gates for the writes and the
  counters that a write updates when it starts and when it finishes.
 */
module DragState {
  const MAX_CONCURRENCY: int := 32
  const MAX_THRESHOLD: int := 1024 * 1024 * 1024 * 1024
  const MAX_INT64: int := 0x7FFF_FFFF_FFFF_FFFF

  datatype Policy = Policy(limit: int, threshold: int, largeLimit: int)

  datatype Metrics = Metrics(
    started: nat, finished: nat, requestedByItem: seq<bool>, succeededByItem: seq<bool>,
    attempts: nat, successes: nat, failures: nat, exportAttempts: nat, exportSuccesses: nat,
    largeAttempts: nat, largeSuccesses: nat, largeFailures: nat, largeTotal: int, maxSingle: int,
    active: nat, maxActive: nat, exportMs: int, totalMs: int)

  datatype Gates = Gates(limit: int, threshold: int, largeLimit: int, slots: nat, largeSlots: nat)

  function Bound(lo: int, v: int, hi: int): int {
    if v < lo then lo else if v > hi then hi else v
  }

  function Positive(v: int): int {
    if v < 0 then 0 else v
  }

  function InitialGates(p: Policy): Gates {
    Gates(Bound(1, p.limit, MAX_CONCURRENCY), Bound(0, p.threshold, MAX_THRESHOLD),
          Bound(1, p.largeLimit, MAX_CONCURRENCY), 0, 0)
  }

  function InitialMetrics(items: nat): Metrics {
    Metrics(0, 0, seq(items, _ => false), seq(items, _ => false), 0, 0, 0, 0, 0, 0, 0, 0, 0, 0, 0, 0, 0, 0)
  }

  function Mark(flags: seq<bool>, item: int, value: bool): seq<bool> {
    if 0 <= item < |flags| then flags[item := value] else flags
  }

  function Requested(m: Metrics, item: int): Metrics {
    m.(started := m.started + 1, requestedByItem := Mark(m.requestedByItem, item, true))
  }

  function Started(m: Metrics): Metrics {
    m.(active := m.active + 1, maxActive := if m.active + 1 > m.maxActive then m.active + 1 else m.maxActive)
  }

  // The total stops at the largest 64-bit value.
  function SaturatingAdd(total: int, bytes: int): int {
    if MAX_INT64 - total < bytes then MAX_INT64 else total + bytes
  }

  datatype Outcome = Outcome(
    exportMs: int, totalMs: int, success: bool, exportAttempted: bool, exportSucceeded: bool, payload: int,
    large: bool, item: int)

  function One(b: bool): nat {
    if b then 1 else 0
  }

  // A count that never goes below zero.
  function OneLess(n: nat): nat {
    if n > 0 then n - 1 else 0
  }

  function Finished(m: Metrics, o: Outcome): Metrics {
    var bytes := Positive(o.payload);
    m.(attempts := m.attempts + 1, successes := m.successes + One(o.success), failures := m.failures + One(!o.success),
       succeededByItem := Mark(m.succeededByItem, o.item, o.success),
       exportAttempts := m.exportAttempts + One(o.exportAttempted),
       exportSuccesses := m.exportSuccesses + One(o.exportAttempted && o.exportSucceeded),
       finished := m.finished + 1,
       maxSingle := if bytes > m.maxSingle then bytes else m.maxSingle,
       largeAttempts := m.largeAttempts + One(o.large),
       largeSuccesses := m.largeSuccesses + One(o.large && o.success),
       largeFailures := m.largeFailures + One(o.large && !o.success),
       largeTotal := if o.large then SaturatingAdd(m.largeTotal, bytes) else m.largeTotal,
       exportMs := m.exportMs + Positive(o.exportMs), totalMs := m.totalMs + Positive(o.totalMs),
       active := OneLess(m.active))
  }

  predicate Throttled(g: Gates, payload: int) {
    payload > 0 && g.threshold > 0 && payload >= g.threshold
  }

  class SharedState {
    var promise_requests_started: nat
    var promise_requests_finished: nat
    var promise_write_requested_by_item: seq<bool>
    var promise_write_succeeded_by_item: seq<bool>
    var write_attempts: nat
    var write_successes: nat
    var write_failures: nat
    var direct_export_attempts: nat
    var direct_export_successes: nat
    var large_file_write_attempts: nat
    var large_file_write_successes: nat
    var large_file_write_failures: nat
    var large_file_total_bytes: int
    var max_single_write_bytes: int
    var active_write_operations: nat
    var max_active_write_operations: nat
    var total_direct_export_ms: int
    var total_total_ms: int
    var effective_concurrency_limit: int
    var effective_large_file_threshold_bytes: int
    var effective_large_file_concurrency_limit: int
    var active_write_slots: nat
    var active_large_file_write_slots: nat

    ghost function Counters(): Metrics
      reads this
    {
      Metrics(
        promise_requests_started, promise_requests_finished, promise_write_requested_by_item,
        promise_write_succeeded_by_item, write_attempts, write_successes, write_failures, direct_export_attempts,
        direct_export_successes, large_file_write_attempts, large_file_write_successes, large_file_write_failures,
        large_file_total_bytes, max_single_write_bytes, active_write_operations, max_active_write_operations,
        total_direct_export_ms, total_total_ms)
    }

    ghost function GateState(): Gates
      reads this
    {
      Gates(effective_concurrency_limit, effective_large_file_threshold_bytes,
                  effective_large_file_concurrency_limit, active_write_slots, active_large_file_write_slots)
    }

    constructor (items: nat, policy: Policy)
      ensures Counters() == InitialMetrics(items) && GateState() == InitialGates(policy)
    {
      promise_requests_started, promise_requests_finished := 0, 0;
      promise_write_requested_by_item := seq(items, _ => false);
      promise_write_succeeded_by_item := seq(items, _ => false);
      write_attempts, write_successes, write_failures := 0, 0, 0;
      direct_export_attempts, direct_export_successes := 0, 0;
      large_file_write_attempts, large_file_write_successes, large_file_write_failures := 0, 0, 0;
      large_file_total_bytes, max_single_write_bytes := 0, 0;
      active_write_operations, max_active_write_operations := 0, 0;
      total_direct_export_ms, total_total_ms := 0, 0;
      effective_concurrency_limit := Bound(1, policy.limit, MAX_CONCURRENCY);
      effective_large_file_threshold_bytes := Bound(0, policy.threshold, MAX_THRESHOLD);
      effective_large_file_concurrency_limit := Bound(1, policy.largeLimit, MAX_CONCURRENCY);
      active_write_slots, active_large_file_write_slots := 0, 0;
    }

    method OnPromiseRequestStarted(item: int)
      modifies this
      ensures Counters() == Requested(old(Counters()), item) && GateState() == old(GateState())
    {
      promise_requests_started := promise_requests_started + 1;
      if 0 <= item < |promise_write_requested_by_item| {
        promise_write_requested_by_item := promise_write_requested_by_item[item := true];
      }
    }

    // Runs when the wait for a free slot is over.
    method AcquireWriteSlot()
      requires active_write_slots < effective_concurrency_limit
      modifies this
      ensures GateState() == old(GateState()).(slots := old(GateState()).slots + 1) && Counters() == old(Counters())
    {
      active_write_slots := active_write_slots + 1;
    }

    method ReleaseWriteSlot()
      modifies this
      ensures GateState() == old(GateState()).(slots := OneLess(old(GateState()).slots))
      ensures Counters() == old(Counters())
    {
      if active_write_slots > 0 {
        active_write_slots := active_write_slots - 1;
      }
    }

    method ShouldUseLargeFileThrottle(payload: int) returns (r: bool)
      ensures r == Throttled(GateState(), payload)
    {
      if payload <= 0 { return false; }
      r := effective_large_file_threshold_bytes > 0 && payload >= effective_large_file_threshold_bytes;
    }

    method AcquireLargeFileWriteSlot()
      requires active_large_file_write_slots < effective_large_file_concurrency_limit
      modifies this
      ensures GateState() == old(GateState()).(largeSlots := old(GateState()).largeSlots + 1)
              && Counters() == old(Counters())
    {
      active_large_file_write_slots := active_large_file_write_slots + 1;
    }

    method ReleaseLargeFileWriteSlot()
      modifies this
      ensures GateState() == old(GateState()).(largeSlots := OneLess(old(GateState()).largeSlots))
      ensures Counters() == old(Counters())
    {
      if active_large_file_write_slots > 0 {
        active_large_file_write_slots := active_large_file_write_slots - 1;
      }
    }

    method OnWriteStart() returns (count: nat)
      modifies this
      ensures Counters() == Started(old(Counters())) && count == Counters().active && GateState() == old(GateState())
    {
      active_write_operations := active_write_operations + 1;
      if active_write_operations > max_active_write_operations {
        max_active_write_operations := active_write_operations;
      }
      count := active_write_operations;
    }

    // The first part of OnWriteFinish: the attempt itself.
    method CountAttempt(o: Outcome)
      modifies this`write_attempts, this`write_successes, this`write_failures, this`promise_write_succeeded_by_item,
               this`direct_export_attempts, this`direct_export_successes
      ensures write_attempts == old(write_attempts) + 1
      ensures write_successes == old(write_successes) + One(o.success)
      ensures write_failures == old(write_failures) + One(!o.success)
      ensures promise_write_succeeded_by_item == Mark(old(promise_write_succeeded_by_item), o.item, o.success)
      ensures direct_export_attempts == old(direct_export_attempts) + One(o.exportAttempted)
      ensures direct_export_successes == old(direct_export_successes) + One(o.exportAttempted && o.exportSucceeded)
    {
      write_attempts := write_attempts + 1;
      if o.success {
        write_successes := write_successes + 1;
      } else {
        write_failures := write_failures + 1;
      }
      if 0 <= o.item < |promise_write_succeeded_by_item| {
        promise_write_succeeded_by_item := promise_write_succeeded_by_item[o.item := o.success];
      }
      if o.exportAttempted {
        direct_export_attempts := direct_export_attempts + 1;
        if o.exportSucceeded {
          direct_export_successes := direct_export_successes + 1;
        }
      }
    }

    // The second part of OnWriteFinish: the bytes.
    method CountBytes(o: Outcome)
      modifies this`max_single_write_bytes, this`large_file_write_attempts, this`large_file_write_successes,
               this`large_file_write_failures, this`large_file_total_bytes
      ensures var bytes := Positive(o.payload);
              && max_single_write_bytes == (if bytes > old(max_single_write_bytes) then bytes
                else old(max_single_write_bytes))
              && large_file_total_bytes ==
                 if o.large then SaturatingAdd(old(large_file_total_bytes), bytes) else old(large_file_total_bytes)
      ensures large_file_write_attempts == old(large_file_write_attempts) + One(o.large)
      ensures large_file_write_successes == old(large_file_write_successes) + One(o.large && o.success)
      ensures large_file_write_failures == old(large_file_write_failures) + One(o.large && !o.success)
    {
      var bytes := Positive(o.payload);
      if bytes > max_single_write_bytes {
        max_single_write_bytes := bytes;
      }
      if o.large {
        large_file_write_attempts := large_file_write_attempts + 1;
        if o.success {
          large_file_write_successes := large_file_write_successes + 1;
        } else {
          large_file_write_failures := large_file_write_failures + 1;
        }
        if MAX_INT64 - large_file_total_bytes < bytes {
          large_file_total_bytes := MAX_INT64;
        } else {
          large_file_total_bytes := large_file_total_bytes + bytes;
        }
      }
    }

    // The last part of OnWriteFinish: the times and the end of the operation.
    method CountEnd(o: Outcome)
      modifies this`promise_requests_finished, this`total_direct_export_ms, this`total_total_ms,
               this`active_write_operations
      ensures promise_requests_finished == old(promise_requests_finished) + 1
      ensures total_direct_export_ms == old(total_direct_export_ms) + Positive(o.exportMs)
      ensures total_total_ms == old(total_total_ms) + Positive(o.totalMs)
      ensures active_write_operations == OneLess(old(active_write_operations))
    {
      promise_requests_finished := promise_requests_finished + 1;
      total_direct_export_ms := total_direct_export_ms + Positive(o.exportMs);
      total_total_ms := total_total_ms + Positive(o.totalMs);
      if active_write_operations > 0 {
        active_write_operations := active_write_operations - 1;
      }
    }

    method OnWriteFinish(o: Outcome)
      modifies this
      ensures Counters() == Finished(old(Counters()), o) && GateState() == old(GateState())
    {
      hide Mark, SaturatingAdd, One, Positive;
      CountAttempt(o);
      CountBytes(o);
      CountEnd(o);
    }
  }
}
