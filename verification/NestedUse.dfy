/**
  What the nested-session cache does for its tasks: a cached chain is shared, its time of use
  is recorded, and a task that has chains to close gets them closed.
 */
module NestedUse {
  import opened Basics
  import opened CachePrune
  import opened NestedChains
  import opened NestedTheorems

  // ---------- sharing ----------

  // What a look-up under the key does: it takes the cached chain as one more user and opens nothing,
  // or goes on to open the archive.
  ghost predicate LooksUp(w: World, w': World, u: nat, key: string, now: int) {
    if key in w.cache
    then
      var c := w.cache[key];
      && c in w.chains && u !in w.chains[c].holders && u in w'.tasks && Holds(w', u, c) && w'.tasks[u].pc == Using
      && w'.chains == w.chains[c := w.chains[c].(users := w.chains[c].users + 1, lastUsed := now,
                                                 holders := w.chains[c].holders + {u})]
      && w'.nextToken == w.nextToken
    else u in w'.tasks && w'.tasks[u].pc == Opening(Some(key)) && w'.chains == w.chains
  }

  lemma LookUpHits(steps: seq<Step>, u: nat, now: int)
    requires Legal(Init(), steps) && Enabled(Reach(steps), LookUpKey(u, now))
    ensures var w := Reach(steps);
            LooksUp(w, Next(w, LookUpKey(u, now)), u, w.tasks[u].pc.key, now)
  {
    hide Legal, Reach, Inv, LooksUp, Next;
    ReachedInv(steps);
    LookedUpHits(Reach(steps), u, now);
  }

  lemma LookedUpHits(w: World, u: nat, now: int)
    requires Inv(w) && u in w.tasks && Free(w.tasks[u]) && w.tasks[u].pc.LookUp?
    ensures LooksUp(w, Next(w, LookUpKey(u, now)), u, w.tasks[u].pc.key, now)
  {
    hide ChainsInv, TasksInv, CacheInv, Conserved;
    TaskFacts(w, u);
    var key := w.tasks[u].pc.key;
    if key in w.cache {
      CacheFacts(w, key);
      if Holder(w, u, w.cache[key]) { HolderFacts(w, u, w.cache[key]); }
    }
  }

  // The step may take the key out of the cache.
  predicate Removes(step: Step, key: string) {
    match step
    case Prune(_, gone, _) => key in gone
    case Sweep(_, gone) => key in gone
    case Destroy(_, _) => true
    case _ => false
  }

  lemma StepKeepsKey(w: World, step: Step, key: string)
    requires Enabled(w, step) && key in w.cache && !Removes(step, key)
    ensures w.liveInserts <= Next(w, step).liveInserts
    ensures Next(w, step).liveInserts == w.liveInserts ==>
              key in Next(w, step).cache && Next(w, step).cache[key] == w.cache[key]
  {
    hide PruneOk, Views, Chosen;
  }

  lemma StepCounts(w: World, step: Step)
    requires Enabled(w, step)
    ensures w.liveInserts <= Next(w, step).liveInserts
  {
    hide PruneOk, Views, Chosen;
  }

  lemma {:induction false} RunCounts(w: World, steps: seq<Step>)
    requires Legal(w, steps)
    ensures w.liveInserts <= Run(w, steps).liveInserts
    decreases |steps|
  {
    hide Enabled, Next;
    if steps != [] {
      StepCounts(w, steps[0]);
      RunCounts(Next(w, steps[0]), steps[1..]);
    }
  }

  lemma {:induction false} RunKeepsKey(w: World, steps: seq<Step>, key: string)
    requires Legal(w, steps) && key in w.cache && (forall step | step in steps :: !Removes(step, key))
    requires Run(w, steps).liveInserts == w.liveInserts
    ensures key in Run(w, steps).cache && Run(w, steps).cache[key] == w.cache[key]
    decreases |steps|
  {
    hide Enabled, Next, Removes;
    if steps != [] {
      StepKeepsKey(w, steps[0], key);
      RunCounts(Next(w, steps[0]), steps[1..]);
      RunKeepsKey(Next(w, steps[0]), steps[1..], key);
    }
  }

  // A chain that a task put into the cache is what every later look-up under its key gets, until the
  // key is pruned, the session destroyed or a cached chain overwritten.
  lemma CachedIsShared(before: seq<Step>, t: nat, between: seq<Step>, u: nat, now: int)
    requires Legal(Init(), before) && Enabled(Reach(before), Insert(t))
    requires Legal(Next(Reach(before), Insert(t)), between)
    requires forall step | step in between :: !Removes(step, Reach(before).tasks[t].pc.key)
    requires Run(Next(Reach(before), Insert(t)), between).liveInserts == Next(Reach(before), Insert(t)).liveInserts
    requires Enabled(Run(Next(Reach(before), Insert(t)), between), LookUpKey(u, now))
    requires Run(Next(Reach(before), Insert(t)), between).tasks[u].pc == LookUp(Reach(before).tasks[t].pc.key)
    ensures var w := Run(Next(Reach(before), Insert(t)), between);
            Holds(Next(w, LookUpKey(u, now)), u, t) && Next(w, LookUpKey(u, now)).nextToken == w.nextToken
  {
    var key := Reach(before).tasks[t].pc.key;
    assert key in Next(Reach(before), Insert(t)).cache && Next(Reach(before), Insert(t)).cache[key] == t;
    hide Legal, Reach, Inv, Next, Run, Removes;
    ReachedInv(before);
    StepKeepsInv(Reach(before), Insert(t));
    RunKeepsInv(Next(Reach(before), Insert(t)), between);
    RunKeepsKey(Next(Reach(before), Insert(t)), between, key);
    LookedUpHits(Run(Next(Reach(before), Insert(t)), between), u, now);
  }

  // The task is opening a chain for a key, or has opened it.
  predicate OpensFor(pc: Pc) {
    || (pc.Opening? && pc.cacheKey.Some?) || (pc.Building? && pc.cacheKey.Some?)
    || pc.Marking? || pc.Inserting?
  }

  lemma StepOpens(w: World, step: Step, t: nat)
    requires Enabled(w, step) && OpensFor(TaskAt(Next(w, step), t).pc) && !OpensFor(TaskAt(w, t).pc)
    ensures step.LookUpKey? && step.t == t && t in w.tasks && w.tasks[t].pc.LookUp? && w.tasks[t].pc.key !in w.cache
  {
    hide PruneOk, Views, Chosen, ChainAt;
  }

  lemma {:induction false} RunOpens(w: World, steps: seq<Step>, t: nat)
    requires Legal(w, steps) && OpensFor(TaskAt(Run(w, steps), t).pc) && !OpensFor(TaskAt(w, t).pc)
    ensures exists i :: 0 <= i < |steps| && Misses(w, steps, i, t)
    decreases |steps|
  {
    hide Enabled, Next, OpensFor, TaskAt;
    if steps != [] {
      if OpensFor(TaskAt(Next(w, steps[0]), t).pc) {
        StepOpens(w, steps[0], t);
        assert steps[..0] == [];
        assert Misses(w, steps, 0, t);
      } else {
        RunOpens(Next(w, steps[0]), steps[1..], t);
        var i :| 0 <= i < |steps| - 1 && Misses(Next(w, steps[0]), steps[1..], i, t);
        assert steps[..i + 1][1..] == steps[1..][..i] && steps[..i + 1][0] == steps[0];
        assert Misses(w, steps, i + 1, t);
      }
    }
  }

  // Step number i is a look-up of task t that found its key not in the cache.
  ghost predicate Misses(w: World, steps: seq<Step>, i: nat, t: nat) {
    && i < |steps| && steps[i].LookUpKey? && steps[i].t == t
    && var at := Run(w, steps[..i]);
       t in at.tasks && at.tasks[t].pc.LookUp? && at.tasks[t].pc.key !in at.cache
  }

  // A chain is opened for a key only after the key was looked up and missed.
  lemma OpenedAfterMiss(steps: seq<Step>, t: nat)
    requires Legal(Init(), steps) && t in Reach(steps).tasks && OpensFor(Reach(steps).tasks[t].pc)
    ensures exists i :: 0 <= i < |steps| && Misses(Init(), steps, i, t)
  {
    hide Legal, Run;
    RunOpens(Init(), steps, t);
  }

  // The archive and each archive inside it that the task opens get a token of their own.
  predicate Opens(step: Step, c: nat) {
    match step
    case OpenRoot(t, _) => t == c
    case OpenChild(t) => t == c
    case _ => false
  }

  function Openings(steps: seq<Step>, c: nat): nat
    decreases |steps|
  {
    if steps == [] then 0 else (if Opens(steps[0], c) then 1 else 0) + Openings(steps[1..], c)
  }

  ghost function TokenCount(w: World, c: nat): nat {
    if c in w.chains then |w.chains[c].tokensOpened| else 0
  }

  lemma StepTokens(w: World, step: Step, c: nat)
    requires Inv(w) && Enabled(w, step)
    ensures TokenCount(Next(w, step), c) == TokenCount(w, c) + if Opens(step, c) then 1 else 0
  {
    hide ChainsInv, TasksInv, CacheInv, Conserved;
    if step.t in w.tasks { TaskFacts(w, step.t); }
    if step.LookUpKey? || step.Insert? {
      KeyedTokens(w, step, c);
    } else {
      OtherTokens(w, step, c);
    }
  }

  lemma KeyedTokens(w: World, step: Step, c: nat)
    requires CacheInv(w) && Enabled(w, step) && (step.LookUpKey? || step.Insert?)
    requires UseOk(w, step.t, w.tasks[step.t])
    ensures TokenCount(Next(w, step), c) == TokenCount(w, c)
  {
    hide CacheInv;
    var key := w.tasks[step.t].pc.key;
    if key in w.cache { CacheFacts(w, key); }
  }

  lemma OtherTokens(w: World, step: Step, c: nat)
    requires Enabled(w, step) && !step.LookUpKey? && !step.Insert?
    requires step.t in w.tasks ==> UseOk(w, step.t, w.tasks[step.t]) && WorkOk(w, w.tasks[step.t])
    ensures TokenCount(Next(w, step), c) == TokenCount(w, c) + if Opens(step, c) then 1 else 0
  {
    hide PruneOk, Views, Chosen, Holder;
  }

  lemma {:induction false} RunTokens(w: World, steps: seq<Step>, c: nat)
    requires Inv(w) && Legal(w, steps)
    ensures TokenCount(Run(w, steps), c) == TokenCount(w, c) + Openings(steps, c)
    decreases |steps|
  {
    hide Inv, Enabled, Next, Opens, TokenCount;
    if steps != [] {
      StepTokens(w, steps[0], c);
      StepKeepsInv(w, steps[0]);
      RunTokens(Next(w, steps[0]), steps[1..], c);
    }
  }

  lemma TokensAreCounted(steps: seq<Step>, c: nat)
    requires Legal(Init(), steps) && c in Reach(steps).chains
    ensures |Reach(steps).chains[c].tokensOpened| == Openings(steps, c)
  {
    hide Legal, Run, Inv, Openings;
    InitInv();
    RunTokens(Init(), steps, c);
  }

  // ---------- the time of use ----------

  // The chain that the step uses, and when.
  ghost function Use(w: World, step: Step): Option<(nat, int)> {
    match step
    case OpenRoot(t, now) => Some((t, now))
    case LookUpKey(t, now) =>
      if t in w.tasks && w.tasks[t].pc.LookUp? && w.tasks[t].pc.key in w.cache
      then Some((w.cache[w.tasks[t].pc.key], now)) else None
    case Touch(t, now) => if t in w.tasks then Some((w.tasks[t].chain, now)) else None
    case _ => None
  }

  ghost function LastUse(w: World, steps: seq<Step>, c: nat, since: int): int
    decreases |steps|
  {
    if steps == [] then since
    else
      var used := Use(w, steps[0]);
      LastUse(Next(w, steps[0]), steps[1..], c, if used.Some? && used.value.0 == c then used.value.1 else since)
  }

  ghost predicate Stamped(w: World, w': World, used: Option<(nat, int)>, c: nat) {
    c in w'.chains ==>
      if used.Some? && used.value.0 == c then w'.chains[c].lastUsed == used.value.1
      else c in w.chains && w'.chains[c].lastUsed == w.chains[c].lastUsed
  }

  lemma StepStamps(w: World, step: Step, c: nat)
    requires Inv(w) && Enabled(w, step)
    ensures Stamped(w, Next(w, step), Use(w, step), c)
  {
    hide ChainsInv, TasksInv, CacheInv, Conserved, Stamped;
    if step.t in w.tasks { TaskFacts(w, step.t); }
    if step.LookUpKey? || step.Insert? {
      KeyedStamps(w, step, c);
    } else {
      OtherStamps(w, step, c);
    }
  }

  lemma KeyedStamps(w: World, step: Step, c: nat)
    requires CacheInv(w) && Enabled(w, step) && (step.LookUpKey? || step.Insert?)
    requires UseOk(w, step.t, w.tasks[step.t])
    ensures Stamped(w, Next(w, step), Use(w, step), c)
  {
    hide CacheInv;
    var key := w.tasks[step.t].pc.key;
    if key in w.cache { CacheFacts(w, key); }
  }

  lemma OtherStamps(w: World, step: Step, c: nat)
    requires Enabled(w, step) && !step.LookUpKey? && !step.Insert?
    requires step.t in w.tasks ==> UseOk(w, step.t, w.tasks[step.t]) && WorkOk(w, w.tasks[step.t])
    ensures Stamped(w, Next(w, step), Use(w, step), c)
  {
    hide PruneOk, Views, Chosen, Holder;
  }

  lemma {:induction false} RunStamps(w: World, steps: seq<Step>, c: nat, since: int)
    requires Inv(w) && Legal(w, steps) && (c in w.chains ==> w.chains[c].lastUsed == since)
    requires c in Run(w, steps).chains
    ensures Run(w, steps).chains[c].lastUsed == LastUse(w, steps, c, since)
    decreases |steps|
  {
    hide Inv, Enabled, Next, Use;
    if steps != [] {
      var used := Use(w, steps[0]);
      StepStamps(w, steps[0], c);
      StepKeepsInv(w, steps[0]);
      RunStamps(Next(w, steps[0]), steps[1..], c, if used.Some? && used.value.0 == c then used.value.1 else since);
    }
  }

  // What pruning goes by: the recorded time of a chain is that of its latest opening, hit or release.
  lemma LastUseIsRecorded(steps: seq<Step>, c: nat)
    requires Legal(Init(), steps) && c in Reach(steps).chains
    ensures Reach(steps).chains[c].lastUsed == LastUse(Init(), steps, c, 0)
  {
    hide Legal, Run, Inv, LastUse;
    InitInv();
    RunStamps(Init(), steps, c, 0);
  }

  // ---------- closing ends ----------

  ghost predicate OnlyCloses(steps: seq<Step>, t: nat) {
    forall step | step in steps :: step == CloseNext(t) || step == CloseToken(t)
  }

  // A closed chain stays closed while a task closes.
  lemma CloseStep(w: World, t: nat, step: Step)
    requires t in w.tasks && Enabled(w, step) && (step == CloseNext(t) || step == CloseToken(t))
    ensures var w' := Next(w, step);
            && t in w'.tasks && w'.tasks[t].pc == w.tasks[t].pc
            && (forall c | c in w.chains && w.chains[c].closed :: c in w'.chains && w'.chains[c].closed)
            && (step == CloseNext(t) ==>
                  && w'.tasks[t].todo == w.tasks[t].todo[1..]
                  && w.tasks[t].todo[0] in w'.chains && w'.chains[w.tasks[t].todo[0]].closed)
            && (step == CloseToken(t) ==>
                  && w'.tasks[t].todo == w.tasks[t].todo
                  && (w'.tasks[t].closing.None? || |w'.tasks[t].tokens| < |w.tasks[t].tokens|))
  {}

  // A task left alone closes everything it has to close and is free again.
  lemma {:induction false} ClosesUp(w: World, t: nat) returns (after: seq<Step>)
    requires t in w.tasks
    ensures Legal(w, after) && OnlyCloses(after, t)
    ensures var w' := Run(w, after);
            && t in w'.tasks && Free(w'.tasks[t]) && w'.tasks[t].pc == w.tasks[t].pc
            && (forall c | c in w.chains && w.chains[c].closed :: c in w'.chains && w'.chains[c].closed)
            && (forall c | c in w.tasks[t].todo :: c in w'.chains && w'.chains[c].closed)
    decreases |w.tasks[t].todo|, if w.tasks[t].closing.Some? then 1 + |w.tasks[t].tokens| else 0
  {
    var th := w.tasks[t];
    if Free(th) {
      after := [];
    } else {
      var step := if th.closing.Some? then CloseToken(t) else CloseNext(t);
      CloseStep(w, t, step);
      hide Next;
      var rest := ClosesUp(Next(w, step), t);
      after := [step] + rest;
      assert after[0] == step && after[1..] == rest;
      assert forall c | c in th.todo :: c == th.todo[0] || c in th.todo[1..];
    }
  }

  // ... and every chain it had to close is closed down to its last token, unless another task is
  // about to do the rest.
  lemma ClosingEnds(steps: seq<Step>, t: nat) returns (after: seq<Step>)
    requires Legal(Init(), steps) && t in Reach(steps).tasks
    ensures Legal(Reach(steps), after) && OnlyCloses(after, t)
    ensures var w, w' := Reach(steps), Run(Reach(steps), after);
            && t in w'.tasks && Free(w'.tasks[t])
            && forall c | Todo(w, t, c) :: c in w'.chains && w'.chains[c].closed
                 && (|w'.chains[c].log| == |w'.chains[c].tokensOpened| || exists u :: u != t && Closing(w', u, c))
  {
    hide Legal, Reach, Inv, Next, Run;
    ReachedInv(steps);
    var w := Reach(steps);
    after := ClosesUp(w, t);
    var w' := Run(w, after);
    RunKeepsInv(w, after);
    forall c | Todo(w, t, c)
      ensures c in w'.chains && w'.chains[c].closed
      ensures |w'.chains[c].log| == |w'.chains[c].tokensOpened| || exists u :: u != t && Closing(w', u, c)
    {
      ClosedIs(w', t, c);
    }
  }

  lemma ClosedIs(w: World, t: nat, c: nat)
    requires Inv(w) && t in w.tasks && Free(w.tasks[t]) && c in w.chains && w.chains[c].closed
    ensures |w.chains[c].log| == |w.chains[c].tokensOpened| || exists u :: u != t && Closing(w, u, c)
  {
    hide ChainsInv, TasksInv, CacheInv, Conserved;
    ChainFacts(w, c);
  }
}
