/**
  Pruning as a step of a run: there always is one, and the prune that works in place
  takes it.
 */
module NestedPruning {
  import opened Basics
  import opened CachePrune
  import opened NestedChains
  import opened NestedTheorems

  // ---------- there always is a way to prune ----------

  lemma {:induction false} OldestIdle(keys: set<string>, before: map<string, View>, some: string)
    returns (oldest: string)
    requires keys <= before.Keys && some in keys && before[some].users == 0
    ensures oldest in keys && before[oldest].users == 0
    ensures forall k | k in keys && before[k].users == 0 :: before[oldest].lastUsed <= before[k].lastUsed
    decreases |keys|
  {
    if older :| older in keys && before[older].users == 0 && before[older].lastUsed < before[some].lastUsed {
      oldest := OldestIdle(keys - {some}, before, older);
    } else {
      oldest := some;
    }
  }

  lemma {:induction false} EvictAll(keys: set<string>, before: map<string, View>, now: int)
    returns (left: set<string>)
    requires Pruning(keys, before, now)
    ensures left <= keys && Pruning(left, before, now)
    ensures |left| <= CAPACITY || forall k | k in left :: k in before && before[k].users != 0
    decreases |keys|
  {
    if |keys| <= CAPACITY {
      left := keys;
    } else if some :| some in keys && before[some].users == 0 {
      var oldest := OldestIdle(keys, before, some);
      EvictionKeeps(keys, before, now, oldest);
      left := EvictAll(keys - {oldest}, before, now);
    } else {
      left := keys;
    }
  }

  lemma {:induction false} Enumerated(keys: set<string>) returns (list: seq<string>)
    ensures forall k :: k in keys <==> k in list
    ensures forall i, j | 0 <= i < j < |list| :: list[i] != list[j]
    decreases |keys|
  {
    if keys == {} {
      list := [];
    } else {
      var key :| key in keys;
      var rest := Enumerated(keys - {key});
      list := [key] + rest;
    }
  }

  ghost predicate AtPrune(w: World, t: nat) {
    t in w.tasks && Free(w.tasks[t]) && (w.tasks[t].pc.PruneFirst? || w.tasks[t].pc.PruneLast?)
  }

  // A task that is to prune always can, whatever the cache holds and whatever the time.
  lemma PruneIsPossible(steps: seq<Step>, t: nat, now: int) returns (gone: seq<string>)
    requires Legal(Init(), steps) && AtPrune(Reach(steps), t)
    ensures Enabled(Reach(steps), Prune(t, gone, now))
  {
    hide Legal, Reach, Inv, AtPrune, Enabled;
    ReachedInv(steps);
    gone := KeysToPrune(Reach(steps), t, now);
  }

  lemma KeysToPrune(w: World, t: nat, now: int) returns (gone: seq<string>)
    requires Inv(w) && AtPrune(w, t)
    ensures Enabled(w, Prune(t, gone, now))
  {
    hide Inv, ChainsInv, TasksInv, CacheInv, Conserved, Pruning, PruneOk, Views, Without;
    CachedChains(w);
    ViewKeys(w, w.cache);
    var before := Views(w, w.cache);
    var kept := Fresh(before, now);
    FreshIsPruning(before, now);
    var left := EvictAll(kept, before, now);
    gone := Enumerated(before.Keys - left);
    LeftViews(w, gone, left);
    PruningEnds(before, Views(w, Without(w.cache, gone)), now);
    assert forall i | 0 <= i < |gone| :: gone[i] in gone;
    assert DistinctKeys(w.cache, gone);
  }

  lemma CachedChains(w: World)
    requires Inv(w)
    ensures forall k | k in w.cache :: w.cache[k] in w.chains
  {
    hide Inv;
    forall k | k in w.cache ensures w.cache[k] in w.chains {
      assert CacheInv(w) by { InvHasCache(w); }
      CacheFacts(w, k);
    }
  }

  lemma InvHasCache(w: World)
    requires Inv(w)
    ensures CacheInv(w)
  {}

  lemma FreshIsPruning(before: map<string, View>, now: int)
    ensures Pruning(Fresh(before, now), before, now)
  {}

  lemma LeftViews(w: World, gone: seq<string>, left: set<string>)
    requires forall k | k in w.cache :: w.cache[k] in w.chains
    requires left <= w.cache.Keys && forall k :: k in gone <==> k in w.cache.Keys - left
    ensures var before, after := Views(w, w.cache), Views(w, Without(w.cache, gone));
            after.Keys == left && |after| == |left| && forall k | k in after :: k in before && after[k] == before[k]
  {
    var after := Views(w, Without(w.cache, gone));
    assert after.Keys == left;
    assert |after.Keys| == |after|;
  }

  // ---------- the prune in place takes such a step ----------

  // The object holds what the world holds of the cache and of its chains.
  ghost predicate Mirrors(c: ChainCache, w: World)
    reads c
  {
    && c.Valid() && c.nested_session_cache == w.cache
    && (forall k | k in w.cache :: w.cache[k] in w.chains
          && c.chains[w.cache[k]] == View(w.chains[w.cache[k]].users, w.chains[w.cache[k]].lastUsed))
    && (forall x | x in w.chains :: x in c.cached <==> w.chains[x].cached)
  }

  lemma MirroredViews(c: ChainCache, w: World, cache: map<string, nat>)
    requires Mirrors(c, w) && cache.Keys <= w.cache.Keys && forall k | k in cache :: cache[k] == w.cache[k]
    ensures Views(w, cache) == map k | k in cache :: c.chains[w.cache[k]]
  {}

  // The object is pruned; the world takes the step that removes the same keys, and the task closes
  // the chains removed in the same order.
  method PruneCache(c: ChainCache, now: int, ghost w: World, ghost t: nat)
    returns (removed: seq<nat>, ghost gone: seq<string>)
    requires Mirrors(c, w) && AtPrune(w, t)
    modifies c`nested_session_cache, c`cached
    ensures Enabled(w, Prune(t, gone, now))
    ensures Mirrors(c, Next(w, Prune(t, gone, now))) && Next(w, Prune(t, gone, now)).tasks[t].todo == removed
  {
    ghost var before := c.Views();
    MirroredViews(c, w, w.cache);
    assert Views(w, w.cache) == before;
    removed, gone := c.Prune(now);
    assert Views(w, Without(w.cache, gone)) == c.Views();
  }
}
