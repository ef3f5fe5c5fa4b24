/**
  A run of the nested-session cache in which an insertion overwrites a cached chain.
 */
module NestedWitnesses {
  import opened Basics
  import opened CachePrune
  import opened NestedChains
  import opened NestedTheorems

  lemma {:induction false} OneMore(w: World, before: seq<Step>, step: Step)
    requires Legal(w, before) && Enabled(Run(w, before), step)
    ensures Legal(w, before + [step]) && Run(w, before + [step]) == Next(Run(w, before), step)
    decreases |before|
  {
    hide Enabled, Next;
    if before == [] {
      assert before + [step] == [step] && [step][1..] == [];
    } else {
      assert (before + [step])[0] == before[0] && (before + [step])[1..] == before[1..] + [step];
      OneMore(Next(w, before[0]), before[1..], step);
    }
  }

  lemma TwoMore(before: seq<Step>, w: World, a: Step, b: Step)
    requires Legal(Init(), before) && Reach(before) == w && Enabled(w, a) && Enabled(Next(w, a), b)
    ensures Legal(Init(), before + [a, b]) && Reach(before + [a, b]) == Next(Next(w, a), b)
  {
    hide Enabled, Next, Legal, Run, Init;
    OneMore(Init(), before, a);
    OneMore(Init(), before + [a], b);
    assert before + [a] + [b] == before + [a, b];
  }

  // Two tasks at the same point of their way to the same key.
  function Both(chains: map<nat, Chain>, pc: Pc, own: bool): World {
    World(chains, map[], map[0 := Task(pc, 0, [], None, []), 1 := Task(pc, if own then 1 else 0, [], None, [])],
          |chains|, false, 0)
  }

  function Opened(t: nat): Chain {
    Chain(1, false, false, 0, [t], Private, {t}, [t], [])
  }

  const STARTED: seq<Step> := [Start(0, Some("k")), Start(1, Some("k"))]
  const PRUNED := STARTED + [Prune(0, [], 0), Prune(1, [], 0)]
  const MISSED := PRUNED + [LookUpKey(0, 0), LookUpKey(1, 0)]
  const OPENED := MISSED + [OpenRoot(0, 0), OpenRoot(1, 0)]
  const BUILT := OPENED + [Built(0), Built(1)]
  const MARKED := BUILT + [Mark(0), Mark(1)]
  const INSERTED := MARKED + [Insert(0)]

  lemma BothStart()
    ensures Legal(Init(), STARTED) && Reach(STARTED) == Both(map[], PruneFirst("k"), false)
  {
    assert Next(Next(Init(), STARTED[0]), STARTED[1]) == Both(map[], PruneFirst("k"), false);
    hide Next, Both;
    TwoMore([], Init(), STARTED[0], STARTED[1]);
    assert [] + STARTED == STARTED;
  }

  // Nothing is cached, so there is nothing to prune.
  lemma NothingToPrune(w: World, t: nat)
    requires w.cache == map[] && w.chains == map[] && t in w.tasks && Free(w.tasks[t]) && w.tasks[t].pc.PruneFirst?
    ensures Enabled(w, Prune(t, [], 0)) && Next(w, Prune(t, [], 0)) == SetPc(w, t, LookUp(w.tasks[t].pc.key))
  {
    assert Views(w, map[]) == map[] && Without(map[], []) == map[];
    assert PruneOk(map[], map[], 0);
    hide PruneOk, Views;
    assert Next(w, Prune(t, [], 0)).chains == map[];
  }

  lemma BothPrune()
    ensures Legal(Init(), PRUNED) && Reach(PRUNED) == Both(map[], LookUp("k"), false)
  {
    BothStart();
    hide Next, Enabled, Reach, Legal, STARTED;
    var w := Both(map[], PruneFirst("k"), false);
    NothingToPrune(w, 0);
    NothingToPrune(Next(w, Prune(0, [], 0)), 1);
    TwoMore(STARTED, w, Prune(0, [], 0), Prune(1, [], 0));
  }

  lemma BothMiss()
    ensures Legal(Init(), MISSED) && Reach(MISSED) == Both(map[], Opening(Some("k")), false)
  {
    BothPrune();
    hide Reach, Legal, PRUNED;
    TwoMore(PRUNED, Both(map[], LookUp("k"), false), LookUpKey(0, 0), LookUpKey(1, 0));
  }

  lemma BothOpen()
    ensures Legal(Init(), OPENED)
    ensures Reach(OPENED) == Both(map[0 := Opened(0), 1 := Opened(1)], Building(Some("k")), true)
  {
    BothMiss();
    hide Reach, Legal, MISSED;
    TwoMore(MISSED, Both(map[], Opening(Some("k")), false), OpenRoot(0, 0), OpenRoot(1, 0));
  }

  lemma BothBuilt()
    ensures Legal(Init(), BUILT)
    ensures Reach(BUILT) == Both(map[0 := Opened(0), 1 := Opened(1)], Marking("k"), true)
  {
    BothOpen();
    hide Reach, Legal, OPENED, Opened;
    TwoMore(OPENED, Both(map[0 := Opened(0), 1 := Opened(1)], Building(Some("k")), true), Built(0), Built(1));
  }

  function Marked(t: nat): Chain {
    Opened(t).(cached := true, status := Ready)
  }

  lemma BothMark()
    ensures Legal(Init(), MARKED)
    ensures Reach(MARKED) == Both(map[0 := Marked(0), 1 := Marked(1)], Inserting("k"), true)
  {
    BothBuilt();
    hide Reach, Legal, BUILT, Opened;
    TwoMore(BUILT, Both(map[0 := Opened(0), 1 := Opened(1)], Marking("k"), true), Mark(0), Mark(1));
  }

  // Two tasks miss the same key, and both open its archive; the second insertion hits the first
  // one's chain.
  lemma InsertionHitsLiveKey()
    ensures Legal(Init(), INSERTED) && Enabled(Reach(INSERTED), Insert(1))
    ensures Reach(INSERTED).tasks[1].pc == Inserting("k") && "k" in Reach(INSERTED).cache
  {
    BothMark();
    hide Reach, Legal, MARKED, Marked;
    InsertLast(MARKED);
  }

  lemma InsertLast(before: seq<Step>)
    requires Legal(Init(), before) && Enabled(Reach(before), Insert(0))
    ensures Legal(Init(), before + [Insert(0)]) && Reach(before + [Insert(0)]) == Next(Reach(before), Insert(0))
  {
    hide Enabled, Next, Legal, Run, Init;
    OneMore(Init(), before, Insert(0));
  }
}
