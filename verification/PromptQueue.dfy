/**
  The prompt dispatcher's shared board: one active entry and a queue of waiting
  ones. Each function is one critical section under the session mutex; the class
  runs the same sections in place. Entries are named by numbers.
 */
module PromptQueue {
  import opened Basics

  datatype Board = Board(active: Option<nat>, queue: seq<nat>)

  // The entry becomes active at once, or waits behind the others.
  function Enqueue(b: Board, e: nat): Board {
    if b.active.None? then b.(active := Some(e)) else b.(queue := b.queue + [e])
  }

  // The queue without its canceled front, cut after the first entry that is not canceled.
  function Pop(queue: seq<nat>, canceled: set<nat>): Board {
    if queue == [] then Board(None, [])
    else if queue[0] in canceled then Pop(queue[1..], canceled)
    else Board(Some(queue[0]), queue[1..])
  }

  function Erase(queue: seq<nat>, e: nat): seq<nat> {
    if queue == [] then []
    else if queue[0] == e then queue[1..]
    else [queue[0]] + Erase(queue[1..], e)
  }

  // The section of the advance loop for `current`: the active entry makes room for the next one,
  // any other entry only gives up its place in the queue.
  function Advance(b: Board, current: nat, canceled: set<nat>): Board {
    if b.active == Some(current) then Pop(b.queue, canceled) else b.(queue := Erase(b.queue, current))
  }

  // What a cancel-all takes off the board.
  function Everyone(b: Board): seq<nat> {
    (if b.active.Some? then [b.active.value] else []) + b.queue
  }

  // ---------- what the sections keep ----------

  ghost predicate Distinct(s: seq<nat>) {
    forall i, j | 0 <= i < j < |s| :: s[i] != s[j]
  }

  // Nobody waits while nobody is active, and no entry is on the board twice.
  ghost predicate Ordered(b: Board) {
    (b.active.None? ==> b.queue == []) && Distinct(Everyone(b))
  }

  lemma EnqueueKeepsOrder(b: Board, e: nat)
    requires Ordered(b) && e !in Everyone(b)
    ensures Ordered(Enqueue(b, e)) && Everyone(Enqueue(b, e)) == Everyone(b) + [e]
  {
    assert Everyone(Enqueue(b, e)) == Everyone(b) + [e];
  }

  lemma {:induction false} PopSplits(queue: seq<nat>, canceled: set<nat>) returns (k: nat)
    ensures k <= |queue| && (forall i | 0 <= i < k :: queue[i] in canceled)
    ensures Pop(queue, canceled).active.None? ==> k == |queue| && Pop(queue, canceled).queue == []
    ensures Pop(queue, canceled).active.Some? ==> Pop(queue, canceled).active.value !in canceled
    ensures Everyone(Pop(queue, canceled)) == queue[k..]
    decreases |queue|
  {
    if queue == [] || queue[0] !in canceled {
      k := 0;
    } else {
      var j := PopSplits(queue[1..], canceled);
      k := j + 1;
    }
  }

  lemma {:induction false} EraseAbsent(queue: seq<nat>, e: nat)
    requires e !in queue
    ensures Erase(queue, e) == queue
    decreases |queue|
  {
    if queue != [] {
      EraseAbsent(queue[1..], e);
    }
  }

  lemma {:induction false} EraseAt(queue: seq<nat>, k: nat)
    requires k < |queue| && queue[k] !in queue[..k]
    ensures Erase(queue, queue[k]) == queue[..k] + queue[k + 1..]
    decreases k
  {
    if k > 0 {
      assert queue[0] in queue[..k];
      assert queue[1..][..k - 1] == queue[..k][1..];
      EraseAt(queue[1..], k - 1);
      assert queue[1..][k..] == queue[k + 1..];
      assert queue[..k] == [queue[0]] + queue[1..][..k - 1];
    }
  }

  lemma DistinctDrop(s: seq<nat>, k: nat)
    requires Distinct(s) && 0 < k <= |s|
    ensures Distinct(s[k..]) && s[0] !in s[k..]
  {}

  lemma DistinctRemove(s: seq<nat>, k: nat)
    requires Distinct(s) && k < |s|
    ensures Distinct(s[..k] + s[k + 1..]) && s[k] !in s[..k] + s[k + 1..]
    ensures s[k] !in s[..k]
  {}

  // Completing the active entry keeps the board ordered: what is left is the end of what was
  // there, only canceled entries are skipped, and the new active entry is not canceled.
  lemma AdvanceActive(b: Board, current: nat, canceled: set<nat>) returns (k: nat)
    requires Ordered(b) && b.active == Some(current)
    ensures Ordered(Advance(b, current, canceled)) && current !in Everyone(Advance(b, current, canceled))
    ensures 0 < k <= |Everyone(b)| && Everyone(Advance(b, current, canceled)) == Everyone(b)[k..]
    ensures forall i | 0 < i < k :: Everyone(b)[i] in canceled
    ensures Advance(b, current, canceled).active.Some? ==> Advance(b, current, canceled).active.value !in canceled
  {
    hide Pop, Distinct;
    var skipped := PopSplits(b.queue, canceled);
    k := skipped + 1;
    assert Everyone(b)[1..] == b.queue && b.queue[skipped..] == Everyone(b)[k..];
    assert forall i | 0 < i < k :: Everyone(b)[i] == b.queue[i - 1];
    DistinctDrop(Everyone(b), k);
  }

  // Completing a waiting entry takes nothing but that entry's place.
  lemma AdvanceWaiting(b: Board, k: nat, canceled: set<nat>)
    requires Ordered(b) && k < |b.queue|
    ensures Advance(b, b.queue[k], canceled) == b.(queue := b.queue[..k] + b.queue[k + 1..])
    ensures Ordered(Advance(b, b.queue[k], canceled)) && b.queue[k] !in Everyone(Advance(b, b.queue[k], canceled))
  {
    hide Distinct, Erase;
    var all := Everyone(b);
    assert all == [b.active.value] + b.queue && all[k + 1] == b.queue[k];
    DistinctRemove(all, k + 1);
    assert all[..k + 1] == [b.active.value] + b.queue[..k];
    assert b.active.value in all[..k + 1];
    assert b.queue[k] !in b.queue[..k];
    EraseAt(b.queue, k);
    assert all[..k + 1] + all[k + 2..] == [b.active.value] + (b.queue[..k] + b.queue[k + 1..]);
  }

  // Completing an entry that is not on the board disturbs nothing.
  lemma AdvanceAbsent(b: Board, current: nat, canceled: set<nat>)
    requires current !in Everyone(b)
    ensures Advance(b, current, canceled) == b
  {
    EraseAbsent(b.queue, current);
  }

  class PromptBoard {
    var active_prompt_dispatch: Option<nat>
    var queued_prompt_dispatches: seq<nat>

    ghost function Value(): Board
      reads this
    {
      Board(active_prompt_dispatch, queued_prompt_dispatches)
    }

    method QueueDispatch(e: nat) returns (dispatchNow: bool)
      modifies this
      ensures Value() == Enqueue(old(Value()), e)
      ensures dispatchNow <==> Value().active == Some(e) && old(Value()).active.None?
      ensures Ordered(old(Value())) && e !in Everyone(old(Value())) ==>
                Ordered(Value()) && Everyone(Value()) == Everyone(old(Value())) + [e]
    {
      ghost var before := Value();
      if Ordered(before) && e !in Everyone(before) { EnqueueKeepsOrder(before, e); }
      dispatchNow := active_prompt_dispatch.None?;
      if dispatchNow {
        active_prompt_dispatch := Some(e);
      } else {
        queued_prompt_dispatches := queued_prompt_dispatches + [e];
      }
    }

    // `next` is the entry that the caller must now dispatch.
    method AdvanceDispatch(current: nat, canceled: set<nat>) returns (next: Option<nat>)
      modifies this
      ensures Value() == Advance(old(Value()), current, canceled)
      ensures next == if old(Value()).active == Some(current) then Value().active else None
    {
      next := None;
      if active_prompt_dispatch == Some(current) {
        active_prompt_dispatch := None;
        while queued_prompt_dispatches != []
          invariant active_prompt_dispatch.None? && next.None?
          invariant Pop(queued_prompt_dispatches, canceled) == Pop(old(queued_prompt_dispatches), canceled)
          decreases |queued_prompt_dispatches|
        {
          var candidate := queued_prompt_dispatches[0];
          queued_prompt_dispatches := queued_prompt_dispatches[1..];
          if candidate !in canceled {
            next := Some(candidate);
            active_prompt_dispatch := Some(candidate);
            break;
          }
        }
      } else {
        var i := 0;
        while i < |queued_prompt_dispatches| && queued_prompt_dispatches[i] != current
          invariant 0 <= i <= |queued_prompt_dispatches| && current !in queued_prompt_dispatches[..i]
        {
          i := i + 1;
        }
        if i == |queued_prompt_dispatches| {
          EraseAbsent(queued_prompt_dispatches, current);
        } else {
          EraseAt(queued_prompt_dispatches, i);
          queued_prompt_dispatches := queued_prompt_dispatches[..i] + queued_prompt_dispatches[i + 1..];
        }
      }
    }

    method TakeAll() returns (dispatches: seq<nat>)
      modifies this
      ensures dispatches == Everyone(old(Value())) && Value() == Board(None, [])
    {
      dispatches := [];
      if active_prompt_dispatch.Some? {
        dispatches := dispatches + [active_prompt_dispatch.value];
        active_prompt_dispatch := None;
      }
      while queued_prompt_dispatches != []
        invariant active_prompt_dispatch.None?
        invariant dispatches + queued_prompt_dispatches == Everyone(old(Value()))
        decreases |queued_prompt_dispatches|
      {
        dispatches := dispatches + [queued_prompt_dispatches[0]];
        queued_prompt_dispatches := queued_prompt_dispatches[1..];
      }
    }
  }
}
