/**
  The nested-session cache, changed in place. Pruning drops the idle chains that
  were not used for a while, and then the least recently used idle ones until the
  cache is small enough; its specification leaves open which of several equally
  old chains goes.
 */
module CachePrune {
  import opened Basics

  const TTL_SECONDS := 30
  const CAPACITY := 4

  // What pruning looks at: the user count and the time of the last use.
  datatype View = View(users: nat, lastUsed: int)

  predicate Stale(v: View, now: int) {
    v.users == 0 && now - v.lastUsed > TTL_SECONDS
  }

  // `after` is what one prune of `before` at time `now` leaves.
  ghost predicate PruneOk(before: map<string, View>, after: map<string, View>, now: int) {
    && (forall k | k in after :: k in before && after[k] == before[k] && !Stale(before[k], now))
    && (forall k | k in before && before[k].users != 0 :: k in after)
    && (|after| <= CAPACITY || forall k | k in after :: after[k].users != 0)
    && (forall k | Evicted(before, after, now, k) :: |after| >= CAPACITY)
    && (forall k, j | Evicted(before, after, now, k) && j in after && after[j].users == 0 ::
          before[k].lastUsed <= after[j].lastUsed)
  }

  // The chain was not stale and had to make room.
  ghost predicate Evicted(before: map<string, View>, after: map<string, View>, now: int, k: string) {
    k in before && k !in after && !Stale(before[k], now)
  }

  ghost function Fresh(m: map<string, View>, now: int): set<string> {
    set k | k in m && !Stale(m[k], now)
  }

  ghost function Busy(m: map<string, View>): set<string> {
    set k | k in m && m[k].users != 0
  }

  // The size is determined: everything fresh stays while it fits, and otherwise the cache shrinks
  // to its capacity or to the chains in use.
  lemma PruneSize(before: map<string, View>, after: map<string, View>, now: int)
    requires PruneOk(before, after, now)
    ensures var live, busy := |Fresh(before, now)|, |Busy(before)|;
            |after| == if live <= CAPACITY then live else if busy <= CAPACITY then CAPACITY else busy
  {
    var live, busy := Fresh(before, now), Busy(before);
    SubsetSize(after.Keys, live);
    SubsetSize(busy, after.Keys);
    if after.Keys != live {
      var k :| k in live && k !in after;
      assert Evicted(before, after, now, k);
    }
    if forall k | k in after :: after[k].users != 0 {
      assert after.Keys == busy;
    }
  }

  // What the eviction loop keeps of the keys that are still cached.
  ghost predicate Pruning(keys: set<string>, before: map<string, View>, now: int) {
    && (forall k | k in keys :: k in before && !Stale(before[k], now))
    && (forall k | k in before && before[k].users != 0 :: k in keys)
    && (forall k | k in before && k !in keys && !Stale(before[k], now) ::
          && |keys| >= CAPACITY
          && forall j | j in keys && j in before && before[j].users == 0 :: before[k].lastUsed <= before[j].lastUsed)
  }

  lemma EvictionKeeps(keys: set<string>, before: map<string, View>, now: int, oldest: string)
    requires Pruning(keys, before, now) && |keys| > CAPACITY && oldest in keys && before[oldest].users == 0
    requires forall k | k in keys && before[k].users == 0 :: before[oldest].lastUsed <= before[k].lastUsed
    ensures Pruning(keys - {oldest}, before, now)
  {
    assert |keys - {oldest}| == |keys| - 1;
  }

  lemma PruningEnds(before: map<string, View>, after: map<string, View>, now: int)
    requires Pruning(after.Keys, before, now) && forall k | k in after :: k in before && after[k] == before[k]
    requires |after| <= CAPACITY || forall k | k in after :: after[k].users != 0
    ensures PruneOk(before, after, now)
  {}

  // ---------- taking keys out of a map ----------

  ghost predicate DistinctKeys(m: map<string, nat>, keys: seq<string>) {
    && (forall i | 0 <= i < |keys| :: keys[i] in m)
    && (forall i, j | 0 <= i < j < |keys| :: keys[i] != keys[j])
  }

  function Without(m: map<string, nat>, keys: seq<string>): map<string, nat> {
    map k | k in m && k !in keys :: m[k]
  }

  function Chosen(m: map<string, nat>, keys: seq<string>): (r: seq<nat>)
    ensures forall k | k in keys && k in m :: m[k] in r
    ensures forall c | c in r :: exists k :: k in keys && k in m && m[k] == c
    decreases |keys|
  {
    if keys == [] then []
    else if keys[0] in m then
      assert keys[0] in keys;
      assert forall k | k in keys[1..] :: k in keys;
      assert forall k | k in keys :: k == keys[0] || k in keys[1..];
      [m[keys[0]]] + Chosen(m, keys[1..])
    else Chosen(m, keys[1..])
  }

  lemma {:induction false} ChosenNext(m: map<string, nat>, keys: seq<string>, key: string)
    requires key in m
    ensures Chosen(m, keys + [key]) == Chosen(m, keys) + [m[key]]
    decreases |keys|
  {
    if keys == [] {
      assert keys + [key] == [key] && [key][1..] == [];
    } else {
      assert (keys + [key])[1..] == keys[1..] + [key];
      ChosenNext(m, keys[1..], key);
    }
  }

  function LastFirst(s: seq<nat>): seq<nat> {
    if s == [] then [] else [s[|s| - 1]] + LastFirst(s[..|s| - 1])
  }

  lemma {:induction false} LastFirstAt(s: seq<nat>, k: nat)
    requires k < |s|
    ensures |LastFirst(s)| == |s| && LastFirst(s)[k] == s[|s| - 1 - k]
    decreases |s|
  {
    if k > 0 {
      LastFirstAt(s[..|s| - 1], k - 1);
    } else if |s| > 1 {
      LastFirstAt(s[..|s| - 1], 0);
    }
  }

  // The cache and the fields of its chains; a chain is a number.
  class ChainCache {
    var nested_session_cache: map<string, nat>
    var chains: map<nat, View>
    var cached: set<nat>
    var closed: set<nat>
    var tokens: map<nat, seq<nat>>   // the open tokens of each chain, in opening order

    ghost predicate Valid()
      reads this
    {
      && (forall k | k in nested_session_cache :: nested_session_cache[k] in chains)
      && (forall j, k | j in nested_session_cache && k in nested_session_cache && j != k ::
            nested_session_cache[j] != nested_session_cache[k])
    }

    ghost function Views(): map<string, View>
      requires Valid()
      reads this
    {
      map k | k in nested_session_cache :: chains[nested_session_cache[k]]
    }

    // The keys `gone` were taken out of `all`: the cache is what is left, `removed` are their chains
    // in the same order, and the flags of these chains, and no others, are cleared.
    ghost predicate TakenOut(all: map<string, nat>, flags: set<nat>, gone: seq<string>, removed: seq<nat>)
      reads this
    {
      && DistinctKeys(all, gone) && nested_session_cache == Without(all, gone)
      && removed == Chosen(all, gone) && cached == flags - (set c | c in removed)
    }

    // What is left in the cache looks as it did before.
    ghost predicate LooksAs(before: map<string, View>)
      requires Valid()
      reads this
    {
      forall k | k in nested_session_cache :: k in before && chains[nested_session_cache[k]] == before[k]
    }

    lemma LooksAt(before: map<string, View>, key: string)
      requires Valid() && LooksAs(before) && key in nested_session_cache
      ensures nested_session_cache[key] in chains && key in before && chains[nested_session_cache[key]] == before[key]
    {}

    method Drop(key: string, removed: seq<nat>, ghost gone: seq<string>, ghost all: map<string, nat>,
                ghost before: map<string, View>, ghost flags: set<nat>)
      returns (removed': seq<nat>)
      requires Valid() && LooksAs(before) && TakenOut(all, flags, gone, removed) && key in nested_session_cache
      modifies this`nested_session_cache, this`cached
      ensures Valid() && LooksAs(before) && TakenOut(all, flags, gone + [key], removed')
      ensures nested_session_cache == old(nested_session_cache) - {key}
    {
      var chain := nested_session_cache[key];
      cached := cached - {chain};
      nested_session_cache := nested_session_cache - {key};
      removed' := removed + [chain];
      assert all[key] == chain;
      ChosenNext(all, gone, key);
    }

    method DropStale(now: int, ghost all: map<string, nat>, ghost before: map<string, View>, ghost flags: set<nat>)
      returns (removed: seq<nat>, ghost gone: seq<string>)
      requires Valid() && LooksAs(before) && nested_session_cache == all && all.Keys == before.Keys && cached == flags
      modifies this`nested_session_cache, this`cached
      ensures Valid() && LooksAs(before) && TakenOut(all, flags, gone, removed)
      ensures forall k | k in before :: k in nested_session_cache <==> !Stale(before[k], now)
    {
      removed, gone := [], [];
      assert TakenOut(all, flags, gone, removed);
      hide TakenOut, LooksAs, Valid;
      var rest := nested_session_cache.Keys;
      while rest != {}
        invariant rest <= nested_session_cache.Keys && Valid() && LooksAs(before) && TakenOut(all, flags, gone, removed)
        invariant nested_session_cache.Keys <= before.Keys
        invariant forall k | k in before && k !in rest :: k in nested_session_cache <==> !Stale(before[k], now)
        decreases |rest|
      {
        var key :| key in rest;
        rest := rest - {key};
        LooksAt(before, key);
        var chain := chains[nested_session_cache[key]];
        if chain.users == 0 && now - chain.lastUsed > TTL_SECONDS {
          removed := Drop(key, removed, gone, all, before, flags);
          gone := gone + [key];
        }
      }
    }

    // The least recently used idle chain.
    method FindOldest() returns (found: bool, oldest: string)
      requires Valid()
      ensures found ==> oldest in Views() && Views()[oldest].users == 0
      ensures forall k | k in Views() && Views()[k].users == 0 ::
                found && Views()[oldest].lastUsed <= Views()[k].lastUsed
    {
      found, oldest := false, "";
      var rest := nested_session_cache.Keys;
      while rest != {}
        invariant rest <= nested_session_cache.Keys
        invariant found ==> oldest in Views() && Views()[oldest].users == 0
        invariant forall k | k in Views() && k !in rest && Views()[k].users == 0 ::
                    found && Views()[oldest].lastUsed <= Views()[k].lastUsed
        decreases |rest|
      {
        var key :| key in rest;
        rest := rest - {key};
        var chain := chains[nested_session_cache[key]];
        if chain.users == 0 && (!found || chain.lastUsed < chains[nested_session_cache[oldest]].lastUsed) {
          found, oldest := true, key;
        }
      }
    }

    // `gone` are the keys of the chains removed.
    method Prune(now: int) returns (removed: seq<nat>, ghost gone: seq<string>)
      requires Valid()
      modifies this`nested_session_cache, this`cached
      ensures Valid() && PruneOk(old(Views()), Views(), now)
      ensures TakenOut(old(nested_session_cache), old(cached), gone, removed)
    {
      ghost var all, before, flags := nested_session_cache, Views(), cached;
      assert before.Keys == all.Keys && LooksAs(before);
      hide TakenOut, PruneOk;
      removed, gone := DropStale(now, all, before, flags);
      assert Pruning(nested_session_cache.Keys, before, now);
      hide Pruning;
      while |nested_session_cache| > CAPACITY
        invariant Valid() && LooksAs(before) && TakenOut(all, flags, gone, removed)
        invariant Pruning(nested_session_cache.Keys, before, now)
        decreases |nested_session_cache|
      {
        var found, oldest := FindOldest();
        if !found { break; }
        removed := EvictOldest(oldest, now, removed, gone, all, before, flags);
        gone := gone + [oldest];
      }
      SmallEnough(before, now);
    }

    lemma SmallEnough(before: map<string, View>, now: int)
      requires Valid() && LooksAs(before) && Pruning(nested_session_cache.Keys, before, now)
      requires |nested_session_cache| <= CAPACITY || forall k | k in Views() :: Views()[k].users != 0
      ensures PruneOk(before, Views(), now)
    {
      hide PruneOk, Pruning;
      assert Views().Keys == nested_session_cache.Keys && |Views()| == |nested_session_cache|;
      PruningEnds(before, Views(), now);
    }

    method EvictOldest(oldest: string, now: int, removed: seq<nat>, ghost gone: seq<string>,
                       ghost all: map<string, nat>, ghost before: map<string, View>, ghost flags: set<nat>)
      returns (removed': seq<nat>)
      requires Valid() && LooksAs(before) && TakenOut(all, flags, gone, removed)
      requires Pruning(nested_session_cache.Keys, before, now) && |nested_session_cache| > CAPACITY
      requires oldest in Views() && Views()[oldest].users == 0
      requires forall k | k in Views() && Views()[k].users == 0 :: Views()[oldest].lastUsed <= Views()[k].lastUsed
      modifies this`nested_session_cache, this`cached
      ensures Valid() && LooksAs(before) && TakenOut(all, flags, gone + [oldest], removed')
      ensures Pruning(nested_session_cache.Keys, before, now)
      ensures nested_session_cache == old(nested_session_cache) - {oldest}
    {
      hide TakenOut;
      ghost var keys := nested_session_cache.Keys;
      assert forall k | k in keys :: k in Views() && Views()[k] == before[k];
      EvictionKeeps(keys, before, now, oldest);
      removed' := Drop(oldest, removed, gone, all, before, flags);
      assert nested_session_cache.Keys == keys - {oldest};
    }

    // A chain found under the key gets one more user.
    method Hit(key: string, now: int) returns (found: bool, chain: nat)
      requires Valid()
      modifies this`chains
      ensures Valid() && found == (key in nested_session_cache)
      ensures found ==> chain == nested_session_cache[key]
                        && chains == old(chains)[chain := View(old(chains)[chain].users + 1, now)]
      ensures !found ==> chains == old(chains)
    {
      found, chain := key in nested_session_cache, 0;
      if found {
        chain := nested_session_cache[key];
        chains := chains[chain := View(chains[chain].users + 1, now)];
      }
    }

    // The release of a user: the time first, then the count. `last` is what the caller goes by.
    method ReleaseUser(chain: nat, now: int) returns (last: bool)
      requires chain in chains && chains[chain].users > 0
      modifies this`chains
      ensures chains == old(chains)[chain := View(old(chains)[chain].users - 1, now)]
      ensures last <==> chains[chain].users == 0
    {
      chains := chains[chain := chains[chain].(lastUsed := now)];
      var previous := chains[chain].users;
      chains := chains[chain := chains[chain].(users := previous - 1)];
      last := previous <= 1;
    }

    // A marked chain enters the cache; whatever was under the key is no longer reachable.
    method Insert(key: string, chain: nat)
      requires Valid() && chain in chains && chain !in nested_session_cache.Values
      modifies this`nested_session_cache, this`cached
      ensures Valid() && nested_session_cache == old(nested_session_cache)[key := chain]
              && cached == old(cached) + {chain}
    {
      cached := cached + {chain};
      nested_session_cache := nested_session_cache[key := chain];
    }

    // The first caller closes the tokens, the last opened one first; every other one closes nothing.
    method Close(chain: nat) returns (closings: seq<nat>)
      requires chain in tokens
      modifies this`closed, this`cached, this`tokens
      ensures closings == if chain in old(closed) then [] else LastFirst(old(tokens)[chain])
      ensures closed == old(closed) + {chain}
      ensures chain !in old(closed) ==> tokens == old(tokens)[chain := []] && cached == old(cached) - {chain}
      ensures chain in old(closed) ==> tokens == old(tokens) && cached == old(cached)
    {
      closings := [];
      if chain in closed { return; }
      closed := closed + {chain};
      cached := cached - {chain};
      var taken := tokens[chain];
      tokens := tokens[chain := []];
      var i := |taken|;
      assert taken[..i] == taken;
      while i > 0
        invariant 0 <= i <= |taken| && unchanged(this`chains)
        invariant closings + LastFirst(taken[..i]) == LastFirst(taken)
      {
        assert taken[..i][..i - 1] == taken[..i - 1];
        closings := closings + [taken[i - 1]];
        i := i - 1;
      }
      assert closings + [] == closings;
    }

    // Everything leaves the cache, unmarked.
    method TakeForDestroy() returns (taken: seq<nat>)
      requires Valid()
      modifies this`nested_session_cache, this`cached
      ensures Valid() && nested_session_cache == map[]
      ensures (set c | c in taken) == old(nested_session_cache).Values
              && cached == old(cached) - old(nested_session_cache).Values
    {
      ghost var all, flags := nested_session_cache, cached;
      taken := [];
      var rest := nested_session_cache.Keys;
      while rest != {}
        invariant rest <= all.Keys && nested_session_cache == all && cached == flags - (set c | c in taken)
        invariant forall k | k in all && k !in rest :: all[k] in taken
        invariant forall c | c in taken :: c in all.Values
        decreases |rest|
      {
        var key :| key in rest;
        rest := rest - {key};
        cached := cached - {nested_session_cache[key]};
        taken := taken + [nested_session_cache[key]];
      }
      nested_session_cache := map[];
    }
  }
}
