/**
  What holds in every run of the nested-session cache.
 */
module NestedTheorems {
  import opened Basics
  import opened CachePrune
  import opened NestedChains

  ghost function Reach(steps: seq<Step>): World {
    Run(Init(), steps)
  }

  lemma ReachedInv(steps: seq<Step>)
    requires Legal(Init(), steps)
    ensures Inv(Reach(steps))
  {
    hide Inv;
    InitInv();
    RunKeepsInv(Init(), steps);
  }

  // ---------- safety ----------

  // A chain that a task may use is whole: none of its tokens was closed, and nobody closes it or
  // is going to.
  lemma NeverClosedInUse(steps: seq<Step>, t: nat, c: nat)
    requires Legal(Init(), steps) && Holds(Reach(steps), t, c)
    ensures var w := Reach(steps);
            && c in w.chains && !w.chains[c].closed && w.chains[c].log == []
            && w.chains[c].tokens == w.chains[c].tokensOpened
            && forall u :: !Todo(w, u, c) && !Closing(w, u, c)
  {
    hide Legal, Reach, Inv;
    ReachedInv(steps);
    HeldIsOpen(Reach(steps), t, c);
  }

  lemma HeldIsOpen(w: World, t: nat, c: nat)
    requires Inv(w) && Holds(w, t, c)
    ensures c in w.chains && !w.chains[c].closed && w.chains[c].log == []
    ensures w.chains[c].tokens == w.chains[c].tokensOpened
    ensures forall u :: !Todo(w, u, c) && !Closing(w, u, c)
  {
    hide ChainsInv, TasksInv, CacheInv, Conserved;
    TaskFacts(w, t);
    ChainFacts(w, c);
    forall u | Todo(w, u, c) ensures false { TaskFacts(w, u); }
    forall u | Closing(w, u, c) ensures false { ClosingFacts(w, u, c); }
  }

  // No token is closed twice, in one chain or across chains.
  lemma ClosedAtMostOnce(steps: seq<Step>, c: nat, d: nat, i: nat, j: nat)
    requires Legal(Init(), steps) && c in Reach(steps).chains && d in Reach(steps).chains
    requires i < |Reach(steps).chains[c].log| && j < |Reach(steps).chains[d].log|
    requires Reach(steps).chains[c].log[i] == Reach(steps).chains[d].log[j]
    ensures c == d && i == j
  {
    hide Legal, Reach, Inv;
    ReachedInv(steps);
    OneClosing(Reach(steps), c, d, i, j);
  }

  lemma OneClosing(w: World, c: nat, d: nat, i: nat, j: nat)
    requires Inv(w) && c in w.chains && d in w.chains && i < |w.chains[c].log| && j < |w.chains[d].log|
    requires w.chains[c].log[i] == w.chains[d].log[j]
    ensures c == d && i == j
  {
    hide TasksInv, CacheInv, Conserved;
    assert ChainOk(c, w.chains[c], w.nextToken) && ChainOk(d, w.chains[d], w.nextToken);
    var a, b := w.chains[c].tokensOpened, w.chains[d].tokensOpened;
    assert w.chains[c].log[i] == a[|a| - 1 - i] && w.chains[d].log[j] == b[|b| - 1 - j];
    assert c != d ==> Disjoint(a, b);
    assert a[|a| - 1 - i] in a && b[|b| - 1 - j] in b;
  }

  // A child is closed before its parent: when the token opened at position p is closed, every token
  // opened after it in the chain was closed earlier.
  lemma ChildBeforeParent(steps: seq<Step>, c: nat, p: nat, q: nat, i: nat)
    requires Legal(Init(), steps) && c in Reach(steps).chains
    requires p < q < |Reach(steps).chains[c].tokensOpened| && i < |Reach(steps).chains[c].log|
    requires Reach(steps).chains[c].log[i] == Reach(steps).chains[c].tokensOpened[p]
    ensures exists j :: 0 <= j < i && Reach(steps).chains[c].log[j] == Reach(steps).chains[c].tokensOpened[q]
  {
    hide Legal, Reach, Inv;
    ReachedInv(steps);
    EarlierChild(Reach(steps), c, p, q, i);
  }

  lemma EarlierChild(w: World, c: nat, p: nat, q: nat, i: nat)
    requires Inv(w) && c in w.chains && p < q < |w.chains[c].tokensOpened| && i < |w.chains[c].log|
    requires w.chains[c].log[i] == w.chains[c].tokensOpened[p]
    ensures exists j :: 0 <= j < i && w.chains[c].log[j] == w.chains[c].tokensOpened[q]
  {
    hide TasksInv, CacheInv, Conserved;
    assert ChainOk(c, w.chains[c], w.nextToken);
    hide ChainsInv;
    var all := w.chains[c].tokensOpened;
    assert i == |all| - 1 - p;
    assert w.chains[c].log[|all| - 1 - q] == all[q];
  }

  // The user count is the number of tasks that count as users.
  lemma CountIsExact(steps: seq<Step>, c: nat)
    requires Legal(Init(), steps) && c in Reach(steps).chains
    ensures var w := Reach(steps);
            w.chains[c].users == |set t | t in w.tasks && w.tasks[t].chain == c && Counted(w.tasks[t].pc)|
  {
    hide Legal, Reach, Inv;
    ReachedInv(steps);
    HoldersAreUsers(Reach(steps), c);
  }

  lemma HoldersAreUsers(w: World, c: nat)
    requires Inv(w) && c in w.chains
    ensures w.chains[c].users == |set t | t in w.tasks && w.tasks[t].chain == c && Counted(w.tasks[t].pc)|
  {
    hide ChainsInv, TasksInv, CacheInv, Conserved;
    ChainFacts(w, c);
    var users := set t | t in w.tasks && w.tasks[t].chain == c && Counted(w.tasks[t].pc);
    forall t | t in users ensures t in w.chains[c].holders { TaskFacts(w, t); }
    forall t | t in w.chains[c].holders ensures t in users {
      assert Holder(w, t, c);
      HolderFacts(w, t, c);
    }
    assert users == w.chains[c].holders;
  }

  // ---------- the bound ----------

  // After every prune the cache holds at most four chains or only chains in use; its size is the
  // number of chains that are not stale if they fit; and a chain taken to make room was used no
  // later than any idle chain that stayed.
  lemma PruneBound(steps: seq<Step>, t: nat, gone: seq<string>, now: int)
    requires Legal(Init(), steps) && Enabled(Reach(steps), Prune(t, gone, now))
    ensures var w, w' := Reach(steps), Next(Reach(steps), Prune(t, gone, now));
            Bounded(w, w', now)
  {
    hide Legal, Reach, Inv, Bounded;
    ReachedInv(steps);
    BoundAfter(Reach(steps), t, gone, now);
  }

  ghost predicate Bounded(w: World, w': World, now: int) {
    var before, after := Views(w, w.cache), Views(w, w'.cache);
    && before.Keys == w.cache.Keys && after.Keys == w'.cache.Keys <= w.cache.Keys
    && (|w'.cache| <= CAPACITY || forall k | k in after :: after[k].users != 0)
    && |w'.cache| == (if |Fresh(before, now)| <= CAPACITY then |Fresh(before, now)|
                      else if |Busy(before)| <= CAPACITY then CAPACITY else |Busy(before)|)
    && (forall k, j | k in before && k !in after && !Stale(before[k], now) && j in after && after[j].users == 0 ::
          before[k].lastUsed <= after[j].lastUsed)
    && Deserved(before, after, now)
  }

  // What goes was idle, and was not used for over thirty seconds or had to make room for four; what
  // stays is in use or was used within the last thirty seconds, and is in use if more than four stay.
  ghost predicate Deserved(before: map<string, View>, after: map<string, View>, now: int) {
    && (forall k | k in before && k !in after ::
          before[k].users == 0 && (now - before[k].lastUsed > 30 || |after| >= 4))
    && (forall k | k in after ::
          k in before && after[k] == before[k]
          && (after[k].users > 0 || (now - after[k].lastUsed <= 30 && |after| <= 4)))
  }

  lemma BoundAfter(w: World, t: nat, gone: seq<string>, now: int)
    requires Inv(w) && Enabled(w, Prune(t, gone, now))
    ensures Bounded(w, Next(w, Prune(t, gone, now)), now)
  {
    hide ChainsInv, TasksInv, CacheInv, Conserved, PruneOk, Bounded, Views;
    var w' := Next(w, Prune(t, gone, now));
    assert w'.cache == Without(w.cache, gone);
    PrunedCache(w, w', now);
  }

  lemma PrunedCache(w: World, w': World, now: int)
    requires CacheInv(w) && w'.cache.Keys <= w.cache.Keys && forall k | k in w'.cache :: w'.cache[k] == w.cache[k]
    requires PruneOk(Views(w, w.cache), Views(w, w'.cache), now)
    ensures Bounded(w, w', now)
  {
    hide CacheInv, Views, PruneOk, Deserved;
    forall k | k in w.cache ensures w.cache[k] in w.chains { CacheFacts(w, k); }
    ViewKeys(w, w.cache);
    ViewKeys(w, w'.cache);
    PruneSize(Views(w, w.cache), Views(w, w'.cache), now);
    BoundOf(Views(w, w.cache), Views(w, w'.cache), now);
    OnlyDeserved(Views(w, w.cache), Views(w, w'.cache), now);
  }

  lemma OnlyDeserved(before: map<string, View>, after: map<string, View>, now: int)
    requires PruneOk(before, after, now)
    ensures Deserved(before, after, now)
  {
    forall k | k in before && k !in after ensures now - before[k].lastUsed > 30 || |after| >= 4 {
      if !Stale(before[k], now) { assert Evicted(before, after, now, k); }
    }
  }

  lemma BoundOf(before: map<string, View>, after: map<string, View>, now: int)
    requires PruneOk(before, after, now)
    ensures |after| <= CAPACITY || forall k | k in after :: after[k].users != 0
    ensures forall k, j | k in before && k !in after && !Stale(before[k], now) && j in after && after[j].users == 0 ::
              before[k].lastUsed <= after[j].lastUsed
  {
    forall k, j | k in before && k !in after && !Stale(before[k], now) && j in after && after[j].users == 0
      ensures before[k].lastUsed <= after[j].lastUsed
    {
      assert Evicted(before, after, now, k);
    }
  }

  lemma ViewKeys(w: World, cache: map<string, nat>)
    requires forall k | k in cache :: cache[k] in w.chains
    ensures Views(w, cache).Keys == cache.Keys && |Views(w, cache)| == |cache|
  {
    assert Views(w, cache).Keys == cache.Keys;
    assert |Views(w, cache).Keys| == |Views(w, cache)| && |cache.Keys| == |cache|;
  }

  // Every chain in the cache is marked as cached, so the sweep of a release never takes one.
  lemma SweepTakesNothing(steps: seq<Step>, t: nat, gone: seq<string>)
    requires Legal(Init(), steps) && Enabled(Reach(steps), Sweep(t, gone))
    ensures gone == []
  {
    hide Legal, Reach, Inv;
    ReachedInv(steps);
    SweepFindsNothing(Reach(steps), t, gone);
  }

  // ---------- conservation ----------

  ghost predicate WithOpener(w: World, c: nat) {
    && c in w.tasks && w.tasks[c].chain == c
    && var pc := w.tasks[c].pc;
       pc.Building? || pc.Marking? || pc.Inserting? || pc == Using || pc == Releasing || pc == Testing
  }

  // As long as no insertion hits a key in the cache, every chain is cached, with its opener, waiting
  // to be closed, being closed, or closed down to its last token.
  lemma EveryChainIsAccountedFor(steps: seq<Step>, c: nat)
    requires Legal(Init(), steps) && c in Reach(steps).chains && Reach(steps).liveInserts == 0
    ensures var w := Reach(steps);
            || c in w.cache.Values || WithOpener(w, c)
            || (exists t :: Todo(w, t, c)) || (exists t :: Closing(w, t, c))
            || |w.chains[c].log| == |w.chains[c].tokensOpened|
  {
    hide Legal, Reach, Inv;
    ReachedInv(steps);
    WhereItIs(Reach(steps), c);
  }

  lemma WhereItIs(w: World, c: nat)
    requires Inv(w) && c in w.chains && w.liveInserts == 0
    ensures || c in w.cache.Values || WithOpener(w, c)
            || (exists t :: Todo(w, t, c)) || (exists t :: Closing(w, t, c))
            || |w.chains[c].log| == |w.chains[c].tokensOpened|
  {
    hide ChainsInv, TasksInv, CacheInv, Conserved;
    ChainFacts(w, c);
  }

  // Once the session is destroyed, no task is anything but over.
  ghost predicate DestroyedInv(w: World) {
    w.destroyed ==>
      && w.cache == map[]
      && forall t | t in w.tasks :: w.tasks[t].pc == Over || w.tasks[t].pc == Failed
  }

  lemma StepKeepsDestroyed(w: World, step: Step)
    requires DestroyedInv(w) && Enabled(w, step)
    ensures DestroyedInv(Next(w, step))
  {
    hide PruneOk, Views, Chosen, ChainAt, Doom;
    if w.destroyed {
      assert step.CloseNext? || step.CloseToken?;
    }
  }

  lemma {:induction false} RunKeepsDestroyed(w: World, steps: seq<Step>)
    requires DestroyedInv(w) && Legal(w, steps)
    ensures DestroyedInv(Run(w, steps))
    decreases |steps|
  {
    if steps != [] {
      StepKeepsDestroyed(w, steps[0]);
      hide DestroyedInv, Next, Enabled;
      RunKeepsDestroyed(Next(w, steps[0]), steps[1..]);
    }
  }

  // When the session is destroyed and all closing is over, every token of every chain was closed
  // if and only if no insertion had hit a key in the cache.
  lemma AllClosedInTheEnd(steps: seq<Step>)
    requires Legal(Init(), steps) && Reach(steps).destroyed
    requires forall t | t in Reach(steps).tasks :: Free(Reach(steps).tasks[t])
    ensures (forall c | c in Reach(steps).chains ::
               |Reach(steps).chains[c].log| == |Reach(steps).chains[c].tokensOpened|)
            <==> Reach(steps).liveInserts == 0
  {
    RunKeepsDestroyed(Init(), steps);
    hide Legal, Reach, Inv;
    ReachedInv(steps);
    TheEnd(Reach(steps));
  }

  lemma TheEnd(w: World)
    requires Inv(w) && DestroyedInv(w) && w.destroyed && forall t | t in w.tasks :: Free(w.tasks[t])
    ensures (forall c | c in w.chains :: |w.chains[c].log| == |w.chains[c].tokensOpened|) <==> w.liveInserts == 0
  {
    hide ChainsInv, TasksInv, CacheInv;
    if w.liveInserts == 0 {
      forall c | c in w.chains ensures |w.chains[c].log| == |w.chains[c].tokensOpened| {
        ChainFacts(w, c);
      }
    } else {
      var c :| c in w.chains && w.chains[c].status == Dropped;
      ChainFacts(w, c);
    }
  }

  // The chain that an insertion overwrites is never closed, in whatever run follows.
  lemma OverwrittenIsLeaked(before: seq<Step>, t: nat, after: seq<Step>)
    requires Legal(Init(), before) && Enabled(Reach(before), Insert(t))
    requires Reach(before).tasks[t].pc.key in Reach(before).cache
    requires Legal(Next(Reach(before), Insert(t)), after)
    ensures var c, w := Reach(before).cache[Reach(before).tasks[t].pc.key], Run(Next(Reach(before), Insert(t)), after);
            c in w.chains && w.chains[c].log == [] && !w.chains[c].closed
  {
    var w0 := Reach(before);
    hide Reach, Legal, Inv;
    ReachedInv(before);
    Overwrites(w0, t);
    StepKeepsInv(w0, Insert(t));
    var w1 := Next(w0, Insert(t));
    hide Next;
    RunKeepsDropped(w1, after, w0.cache[w0.tasks[t].pc.key]);
  }

  lemma Overwrites(w: World, t: nat)
    requires Inv(w) && Enabled(w, Insert(t)) && w.tasks[t].pc.key in w.cache
    ensures var c := w.cache[w.tasks[t].pc.key];
            c in Next(w, Insert(t)).chains && Next(w, Insert(t)).chains[c].status == Dropped
  {
    hide ChainsInv, TasksInv, CacheInv, Conserved;
    CacheFacts(w, w.tasks[t].pc.key);
    BuilderFacts(w, t);
  }

  lemma {:induction false} RunKeepsDropped(w: World, steps: seq<Step>, c: nat)
    requires Inv(w) && Legal(w, steps) && c in w.chains && w.chains[c].status == Dropped
    ensures c in Run(w, steps).chains && Run(w, steps).chains[c].log == [] && !Run(w, steps).chains[c].closed
    decreases |steps|
  {
    if steps == [] {
      ChainFacts(w, c);
    } else {
      StepKeepsInv(w, steps[0]);
      StepKeepsDropped(w, steps[0], c);
      hide Inv, Next, Enabled;
      RunKeepsDropped(Next(w, steps[0]), steps[1..], c);
    }
  }

  lemma StepKeepsDropped(w: World, step: Step, c: nat)
    requires Inv(w) && Enabled(w, step) && c in w.chains && w.chains[c].status == Dropped
    ensures c in Next(w, step).chains && Next(w, step).chains[c].status == Dropped
  {
    hide ChainsInv, TasksInv, CacheInv, Conserved;
    DroppedElsewhere(w, c);
    match step
    case Prune(t, gone, _) => NotTaken(w, gone, c);
    case Sweep(t, gone) => NotTaken(w, gone, c);
    case Destroy(t, gone) => NotTaken(w, gone, c);
    case _ => OthersKeepDropped(w, step, c);
  }

  lemma OthersKeepDropped(w: World, step: Step, c: nat)
    requires Inv(w) && Enabled(w, step) && c in w.chains && w.chains[c].status == Dropped
    requires !step.Prune? && !step.Sweep? && !step.Destroy? && forall k | k in w.cache :: w.cache[k] != c
    ensures c in Next(w, step).chains && Next(w, step).chains[c].status == Dropped
  {
    hide ChainsInv, TasksInv, CacheInv, Conserved;
    ChainFacts(w, c);
    if step.t in w.tasks { TaskFacts(w, step.t); }
    hide PruneOk, Views, Accounted, Take;
  }

  lemma DroppedElsewhere(w: World, c: nat)
    requires CacheInv(w) && c in w.chains && w.chains[c].status == Dropped
    ensures forall k | k in w.cache :: w.cache[k] != c
  {}

  lemma NotTaken(w: World, gone: seq<string>, c: nat)
    requires CacheInv(w) && c in w.chains && w.chains[c].status == Dropped
    ensures c !in Chosen(w.cache, gone)
  {}
}
