/**
  Completion of a task that has its own mapping, store by store. Claims, locked
  completions, timeouts, collections and acknowledgements run one at a time under
  the lock; minimal completions of the claimed task write the same fields without
  it. Memory is sequentially consistent.
 */
module PosixCompletion {
  import opened TaskSlots

  // What the lock holder does next.
  datatype Locked =
    | Unlocked
    | ClaimState                         // state was Dispatched
    | ClaimGuard                         // about to read the published sequence
    | ClaimPublish                       // it was below 2
    | StoreState(code: int)
    | StoreResult(code: int)
    | GuardPublish                       // about to read the published sequence
    | StorePublished                     // it was below 3
    | CollectCheck                       // state was not Empty
    | CollectNext(sequence: nat)         // about to read the published sequence
    | CollectBuild(sequence: nat)        // it had reached this event
    | AckStore(sequence: nat)

  // What a minimal completion does next.
  datatype Minimal = MinResult(code: int) | MinPublished | MinState | MinDone

  datatype World = World(
    state: SlotState, published: nat, acknowledged: nat, result: int,
    locked: Locked, minimals: map<nat, Minimal>, claimed: bool,
    written: set<int>,             // the result codes stored so far
    events: seq<(nat, int)>)       // the collected events: sequence and result code

  datatype Step =
    | BeginClaim
    | BeginComplete(code: int)
    | BeginTimeout
    | BeginWorkerExit
    | BeginCollect
    | BeginAck(event: nat)
    | LockedStep
    | BeginMinimal(id: nat, code: int)
    | MinimalStep(id: nat)

  // The owner's fresh mapping.
  function Init(): World {
    World(Dispatched, DISPATCHED_SEQUENCE, 0, 0, Unlocked, map[], false, {}, [])
  }

  ghost predicate Enabled(w: World, step: Step) {
    match step
    case BeginClaim => w.locked.Unlocked?
    case BeginComplete(_) => w.locked.Unlocked? && w.claimed
    case BeginTimeout => w.locked.Unlocked?
    case BeginWorkerExit => w.locked.Unlocked?
    case BeginCollect => w.locked.Unlocked?
    case BeginAck(k) => w.locked.Unlocked? && k < |w.events|
    case LockedStep => !w.locked.Unlocked?
    case BeginMinimal(id, _) => w.claimed && id !in w.minimals
    case MinimalStep(id) => id in w.minimals && !w.minimals[id].MinDone?
  }

  function LockedNext(w: World): World {
    match w.locked
    case Unlocked => w
    case ClaimState => w.(state := Claimed, locked := ClaimGuard)
    case ClaimGuard =>
      if w.published < CLAIMED_SEQUENCE then w.(locked := ClaimPublish) else w.(locked := Unlocked, claimed := true)
    case ClaimPublish => w.(published := CLAIMED_SEQUENCE, locked := Unlocked, claimed := true)
    case StoreState(code) => w.(state := Completed, locked := StoreResult(code))
    case StoreResult(code) => w.(result := code, written := w.written + {code}, locked := GuardPublish)
    case GuardPublish =>
      w.(locked := if w.published < COMPLETED_SEQUENCE then StorePublished else Unlocked)
    case StorePublished => w.(published := COMPLETED_SEQUENCE, locked := Unlocked)
    case CollectCheck =>
      w.(locked := if w.acknowledged < w.published then CollectNext(w.acknowledged + 1) else Unlocked)
    case CollectNext(n) => w.(locked := if n <= w.published then CollectBuild(n) else Unlocked)
    case CollectBuild(n) => w.(events := w.events + [(n, w.result)], locked := CollectNext(n + 1))
    case AckStore(n) => w.(acknowledged := if w.acknowledged < n then n else w.acknowledged, locked := Unlocked)
  }

  function Next(w: World, step: Step): World {
    match step
    case BeginClaim => if w.state == Dispatched then w.(locked := ClaimState) else w
    case BeginComplete(code) => w.(locked := StoreState(code))
    case BeginTimeout =>
      if w.state == Dispatched && w.published < COMPLETED_SEQUENCE then w.(locked := StoreState(TIMEOUT_CODE)) else w
    case BeginWorkerExit =>
      if w.state == Claimed && w.published < COMPLETED_SEQUENCE then w.(locked := StoreState(TIMEOUT_CODE)) else w
    case BeginCollect => if w.state != Empty then w.(locked := CollectCheck) else w
    case BeginAck(k) => if k < |w.events| then w.(locked := AckStore(w.events[k].0)) else w
    case LockedStep => LockedNext(w)
    case BeginMinimal(id, code) => w.(minimals := w.minimals[id := MinResult(code)])
    case MinimalStep(id) =>
      if id !in w.minimals then w else
      (match w.minimals[id]
       case MinResult(code) =>
         w.(result := code, written := w.written + {code}, minimals := w.minimals[id := MinPublished])
       case MinPublished => w.(published := COMPLETED_SEQUENCE, minimals := w.minimals[id := MinState])
       case MinState => w.(state := Completed, minimals := w.minimals[id := MinDone])
       case MinDone => w)
  }

  ghost predicate Legal(w: World, steps: seq<Step>)
    decreases |steps|
  {
    steps == [] || (Enabled(w, steps[0]) && Legal(Next(w, steps[0]), steps[1..]))
  }

  ghost function Run(w: World, steps: seq<Step>): World
    decreases |steps|
  {
    if steps == [] then w else Run(Next(w, steps[0]), steps[1..])
  }

  ghost predicate Claiming(l: Locked) {
    l.ClaimState? || l.ClaimGuard? || l.ClaimPublish?
  }

  // A locked completion that has stored the state.
  ghost predicate Storing(l: Locked) {
    l.StoreResult? || l.GuardPublish? || l.StorePublished?
  }

  // Every path stores its result before it publishes the completion.
  ghost predicate ResultFirst(w: World) {
    && (w.written != {} ==> w.result in w.written)
    && (w.locked.GuardPublish? || w.locked.StorePublished? ==> w.written != {})
    && (forall id | id in w.minimals && !w.minimals[id].MinResult? :: w.written != {})
    && (w.published >= COMPLETED_SEQUENCE ==> w.written != {})
    && (w.locked.CollectBuild? ==> 1 <= w.locked.sequence <= w.published)
    && (w.locked.CollectNext? ==> 1 <= w.locked.sequence <= w.published + 1)
    && (forall e | e in w.events :: 1 <= e.0 <= w.published && (e.0 == COMPLETED_SEQUENCE ==> e.1 in w.written))
  }

  // Until the claim is over nobody holds a handle, so nothing races with its publication.
  ghost predicate ClaimFirst(w: World) {
    && DISPATCHED_SEQUENCE <= w.published <= COMPLETED_SEQUENCE
    && w.acknowledged <= w.published
    && (w.locked.AckStore? ==> w.locked.sequence <= w.published)
    && (!w.claimed ==> w.minimals == map[])
    && (w.state == Dispatched ==> !w.claimed && w.published == DISPATCHED_SEQUENCE && w.written == {})
    && (Claiming(w.locked) ==> !w.claimed && w.published == DISPATCHED_SEQUENCE && w.written == {})
    && (w.locked.ClaimState? ==> w.state == Dispatched)
    && (w.locked.ClaimGuard? || w.locked.ClaimPublish? || Storing(w.locked) ==> w.state != Dispatched)
    && w.state != Empty
  }

  ghost predicate Inv(w: World) {
    ResultFirst(w) && ClaimFirst(w)
  }

  // The published sequence never goes back.
  lemma StepKeepsInv(w: World, step: Step)
    requires Inv(w) && Enabled(w, step)
    ensures Inv(Next(w, step)) && w.published <= Next(w, step).published && w.written <= Next(w, step).written
  {
    match step
    case LockedStep => LockedKeepsInv(w);
    case MinimalStep(id) =>
      hide LockedNext;
      var w' := Next(w, step);
      assert forall j | j in w'.minimals && j != id :: j in w.minimals && w'.minimals[j] == w.minimals[j];
    case _ =>
      hide LockedNext;
  }

  lemma LockedKeepsInv(w: World)
    requires Inv(w) && !w.locked.Unlocked?
    ensures Inv(LockedNext(w)) && w.published <= LockedNext(w).published && w.written <= LockedNext(w).written
  {
    LockedKeepsResultFirst(w);
    LockedKeepsClaimFirst(w);
    hide ResultFirst;
  }

  lemma LockedKeepsClaimFirst(w: World)
    requires Inv(w) && !w.locked.Unlocked?
    ensures ClaimFirst(LockedNext(w))
  {
    hide ResultFirst;
  }

  lemma LockedKeepsResultFirst(w: World)
    requires Inv(w) && !w.locked.Unlocked?
    ensures ResultFirst(LockedNext(w))
  {
    var w' := LockedNext(w);
    if w.locked.CollectBuild? {
      assert w'.events == w.events + [(w.locked.sequence, w.result)];
    } else if !w.locked.StoreResult? {
      assert w'.events == w.events && w'.minimals == w.minimals && w'.written == w.written && w'.result == w.result;
    }
  }

  lemma {:induction false} RunKeepsInv(w: World, steps: seq<Step>)
    requires Inv(w) && Legal(w, steps)
    ensures Inv(Run(w, steps)) && w.published <= Run(w, steps).published
    decreases |steps|
  {
    hide Inv, Next, Enabled;
    if steps != [] {
      StepKeepsInv(w, steps[0]);
      RunKeepsInv(Next(w, steps[0]), steps[1..]);
    }
  }

  // ---------- where result codes come from ----------

  function CodeOf(step: Step): set<int> {
    match step
    case BeginComplete(code) => {code}
    case BeginMinimal(_, code) => {code}
    case BeginTimeout => {TIMEOUT_CODE}
    case BeginWorkerExit => {TIMEOUT_CODE}
    case _ => {}
  }

  // The codes that the completions, timeouts and worker-exit checks begun in a run carry.
  ghost function CodesOf(steps: seq<Step>): set<int>
    decreases |steps|
  {
    if steps == [] then {} else CodeOf(steps[0]) + CodesOf(steps[1..])
  }

  // Every stored code, and every code on its way to be stored, is one of `codes`.
  ghost predicate CodesWithin(w: World, codes: set<int>) {
    && w.written <= codes
    && (w.locked.StoreState? || w.locked.StoreResult? ==> w.locked.code in codes)
    && (forall id | id in w.minimals && w.minimals[id].MinResult? :: w.minimals[id].code in codes)
  }

  lemma {:induction false} RunCodes(w: World, steps: seq<Step>, codes: set<int>)
    requires CodesWithin(w, codes)
    ensures CodesWithin(Run(w, steps), codes + CodesOf(steps))
    decreases |steps|
  {
    if steps == [] {
      assert codes + {} == codes;
    } else {
      hide CodesWithin, Next, CodeOf;
      StepCodes(w, steps[0], codes);
      RunCodes(Next(w, steps[0]), steps[1..], codes + CodeOf(steps[0]));
      assert codes + CodeOf(steps[0]) + CodesOf(steps[1..]) == codes + CodesOf(steps);
    }
  }

  lemma StepCodes(w: World, step: Step, codes: set<int>)
    requires CodesWithin(w, codes)
    ensures CodesWithin(Next(w, step), codes + CodeOf(step))
  {
    var w' := Next(w, step);
    assert forall j | j in w'.minimals && w'.minimals[j].MinResult? ::
        (j in w.minimals && w'.minimals[j] == w.minimals[j]) || (step.BeginMinimal?
          && w'.minimals[j].code == step.code);
  }

  // A collected completion carries the result code of a completion of this task that was begun in
  // the run: the worker's own, or the one of a timeout or a worker exit.
  lemma CollectedResultWasWritten(steps: seq<Step>, k: nat)
    requires Legal(Init(), steps) && k < |Run(Init(), steps).events|
    requires Run(Init(), steps).events[k].0 == COMPLETED_SEQUENCE
    ensures Run(Init(), steps).events[k].1 in CodesOf(steps)
  {
    hide Run, Legal, CodesOf;
    RunKeepsInv(Init(), steps);
    RunCodes(Init(), steps, {});
    assert Run(Init(), steps).events[k] in Run(Init(), steps).events;
  }

  // Nothing that was published is taken back, whatever the interleaving.
  lemma PublishedIsMonotone(before: seq<Step>, after: seq<Step>)
    requires Legal(Init(), before) && Legal(Run(Init(), before), after)
    ensures Run(Init(), before).published <= Run(Run(Init(), before), after).published <= COMPLETED_SEQUENCE
  {
    hide Run, Legal;
    RunKeepsInv(Init(), before);
    RunKeepsInv(Run(Init(), before), after);
  }

  // ---------- what an operation does if nobody interferes ----------

  function LockedSteps(n: nat): seq<Step> {
    if n == 0 then [] else [LockedStep] + LockedSteps(n - 1)
  }

  // The lock holder, left alone, ends in w'.
  ghost predicate Finishes(w: World, w': World) {
    w'.locked.Unlocked? && exists n: nat :: Legal(w, LockedSteps(n)) && Run(w, LockedSteps(n)) == w'
  }

  lemma Over(w: World)
    requires w.locked.Unlocked?
    ensures Finishes(w, w)
  {
    assert Legal(w, LockedSteps(0)) && Run(w, LockedSteps(0)) == w;
  }

  lemma OneMore(w: World, w': World)
    requires !w.locked.Unlocked? && Finishes(LockedNext(w), w')
    ensures Finishes(w, w')
  {
    hide LockedNext;
    var n: nat :| Legal(LockedNext(w), LockedSteps(n)) && Run(LockedNext(w), LockedSteps(n)) == w';
    assert LockedSteps(n + 1)[0] == LockedStep && LockedSteps(n + 1)[1..] == LockedSteps(n);
    assert Legal(w, LockedSteps(n + 1)) && Run(w, LockedSteps(n + 1)) == w';
  }

  // A claim takes a waiting task and publishes the Claimed event.
  lemma ClaimAlone(w: World)
    requires Inv(w) && w.locked.Unlocked? && w.state == Dispatched
    ensures Finishes(Next(w, BeginClaim), w.(state := Claimed, published := CLAIMED_SEQUENCE, claimed := true))
  {
    hide Finishes;
    var w1 := Next(w, BeginClaim);
    var w4 := LockedNext(LockedNext(LockedNext(w1)));
    Over(w4);
    OneMore(LockedNext(LockedNext(w1)), w4);
    OneMore(LockedNext(w1), w4);
    OneMore(w1, w4);
  }

  // A locked completion, a timeout and a worker exit store their result and publish the completion.
  lemma StoreAlone(w: World, code: int)
    requires Inv(w) && w.locked == StoreState(code)
    ensures Finishes(w, w.(state := Completed, result := code, written := w.written + {code},
                           published := COMPLETED_SEQUENCE, locked := Unlocked))
  {
    hide Finishes;
    var w2 := LockedNext(LockedNext(w));
    var w3 := LockedNext(w2);
    if w.published < COMPLETED_SEQUENCE {
      Over(LockedNext(w3));
      OneMore(w3, LockedNext(w3));
      OneMore(w2, LockedNext(w3));
      OneMore(LockedNext(w), LockedNext(w3));
      OneMore(w, LockedNext(w3));
    } else {
      Over(w3);
      OneMore(w2, w3);
      OneMore(LockedNext(w), w3);
      OneMore(w, w3);
    }
  }

  // The worker's locked completion ends with its result; a timeout does so for a task that waits, and
  // a worker exit for one that is claimed and has not published its completion.
  lemma CompletionAlone(w: World, step: Step)
    requires Inv(w) && w.locked.Unlocked? && (step.BeginComplete? || step == BeginTimeout || step == BeginWorkerExit)
    ensures var code := if step.BeginComplete? then step.code else TIMEOUT_CODE;
            if || step.BeginComplete? || (step == BeginTimeout && w.state == Dispatched)
               || (step == BeginWorkerExit && w.state == Claimed && w.published < COMPLETED_SEQUENCE)
            then Finishes(Next(w, step), w.(state := Completed, result := code, written := w.written + {code},
                                            published := COMPLETED_SEQUENCE))
            else Next(w, step) == w
  {
    hide Finishes, LockedNext;
    var w1 := Next(w, step);
    if w1.locked.StoreState? { StoreAlone(w1, w1.locked.code); }
  }

  // A minimal completion does the same without the lock.
  lemma MinimalAlone(w: World, id: nat, code: int)
    requires Enabled(w, BeginMinimal(id, code))
    ensures var steps := [BeginMinimal(id, code), MinimalStep(id), MinimalStep(id), MinimalStep(id)];
            && Legal(w, steps)
            && Run(w, steps) == w.(state := Completed, result := code, written := w.written + {code},
                                   published := COMPLETED_SEQUENCE, minimals := w.minimals[id := MinDone])
  {
    hide LockedNext;
    var m := MinimalStep(id);
    var w1 := Next(w, BeginMinimal(id, code));
    var w2 := Next(w1, m);
    var w3 := Next(w2, m);
    var w4 := Next(w3, m);
    assert [BeginMinimal(id, code), m, m, m][1..] == [m, m, m] && [m, m, m][1..] == [m, m];
    assert [m, m][1..] == [m] && [m][1..] == [];
    assert Run(w3, [m]) == w4 && Legal(w3, [m]);
    assert Run(w2, [m, m]) == w4 && Legal(w2, [m, m]);
    assert Run(w1, [m, m, m]) == w4 && Legal(w1, [m, m, m]);
  }

  // The events from number `from` to the last one published.
  function Collection(from: nat, published: nat, result: int): seq<(nat, int)>
    decreases published + 1 - from
  {
    if from > published then [] else [(from, result)] + Collection(from + 1, published, result)
  }

  // An owner that collects gets every event that it has not acknowledged, once and in order.
  lemma CollectAlone(w: World)
    requires Inv(w) && w.locked.Unlocked?
    ensures Finishes(Next(w, BeginCollect),
                     w.(events := w.events + Collection(w.acknowledged + 1, w.published, w.result)))
  {
    hide Finishes;
    var w1 := Next(w, BeginCollect);
    var w2 := LockedNext(w1);
    if w.acknowledged < w.published {
      CollectFrom(w2, w.acknowledged + 1);
      OneMore(w1, w2.(events := w2.events + Collection(w.acknowledged + 1, w.published, w.result), locked := Unlocked));
    } else {
      assert w.events + [] == w.events;
      Over(w2);
      OneMore(w1, w2);
    }
  }

  lemma {:induction false} CollectFrom(w: World, n: nat)
    requires w.locked == CollectNext(n)
    ensures Finishes(w, w.(events := w.events + Collection(n, w.published, w.result), locked := Unlocked))
    decreases w.published + 1 - n
  {
    hide Finishes;
    var w1 := LockedNext(w);
    var w' := w.(events := w.events + Collection(n, w.published, w.result), locked := Unlocked);
    if n <= w.published {
      var w2 := LockedNext(w1);
      CollectFrom(w2, n + 1);
      assert w2.events + Collection(n + 1, w.published, w.result) == w'.events;
      OneMore(w1, w');
    } else {
      assert w.events + [] == w.events;
      Over(w1);
    }
    OneMore(w, w');
  }

  // An acknowledgement is remembered, and never moves back.
  lemma AckAlone(w: World, k: nat)
    requires w.locked.Unlocked? && k < |w.events|
    ensures var n := w.events[k].0;
            Finishes(Next(w, BeginAck(k)), w.(acknowledged := if w.acknowledged < n then n else w.acknowledged))
  {
    hide Finishes;
    var w1 := Next(w, BeginAck(k));
    Over(LockedNext(w1));
    OneMore(w1, LockedNext(w1));
  }
}
