/**
  The thread that waits for a native drag to settle. Everybody who changes the
  drag's state raises the epoch afterwards and wakes the waiter; the waiter takes
  a snapshot and goes to sleep unless the epoch has moved since its last wait.
  Every lock section, every load and every wake-up is one step.
 */
module SettleWaiter {
  datatype Metrics = Metrics(ended: bool, started: nat, finished: nat)

  datatype Waiter =
    | CheckStop
    | Snapshot
    | Entering                 // about to lock and test the wait condition
    | Asleep
    | Woken                    // about to test the wait condition again
    | Exited

  // `changed` notifiers still have to raise the epoch, `raised` ones still have to wake the
  // waiter; `finishing` says where the one that holds the metrics lock is.
  datatype Finishing = Nobody | ToRaise | ToWake

  datatype World = World(
    m: Metrics, epoch: nat, stop: bool, changed: nat, raised: nat, finishing: Finishing,
    waiter: Waiter, observed: nat, grace: bool,
    snap: Metrics)   // history: the last snapshot

  datatype Step =
    | StartPromise
    | EndDrag
    | FinishWrite      // keeps the metrics lock until it has woken the waiter
    | SetError
    | Stop
    | Raise
    | Wake
    | RaiseFinishing
    | WakeFinishing
    | WaiterStep(late: bool)   // `late`: the grace period is over
    | GraceTimeout

  function Init(): World {
    World(Metrics(false, 0, 0), 0, false, 0, 0, Nobody, CheckStop, 0, false, Metrics(false, 0, 0))
  }

  predicate Settled(m: Metrics) {
    m.ended && m.started > 0 && m.finished >= m.started
  }

  ghost predicate Enabled(w: World, step: Step) {
    match step
    case StartPromise => w.finishing == Nobody
    case EndDrag => w.finishing == Nobody
    case FinishWrite => w.finishing == Nobody
    case SetError => w.finishing == Nobody
    case Stop => true
    case Raise => w.changed > 0
    case Wake => w.raised > 0
    case RaiseFinishing => w.finishing == ToRaise
    case WakeFinishing => w.finishing == ToWake
    case WaiterStep(_) =>
      w.waiter != Asleep && w.waiter != Exited && (w.waiter == Snapshot ==> w.finishing == Nobody)
    case GraceTimeout => w.waiter == Asleep && w.grace
  }

  // The condition that ends a wait.
  predicate MayGoOn(w: World) {
    w.stop || w.epoch != w.observed
  }

  function AfterWake(w: World): World {
    if w.waiter == Asleep then w.(waiter := Woken) else w
  }

  function WaiterNext(w: World, late: bool): World {
    match w.waiter
    case CheckStop => w.(waiter := if w.stop then Exited else Snapshot)
    case Snapshot =>
      var graceNow := w.m.ended && w.m.started == 0;
      var leave := Settled(w.m) || (graceNow && w.grace && late);
      w.(snap := w.m, grace := graceNow, waiter := if leave then Exited else Entering)
    case Entering => if MayGoOn(w) then w.(observed := w.epoch, waiter := CheckStop) else w.(waiter := Asleep)
    case Woken => if MayGoOn(w) then w.(observed := w.epoch, waiter := CheckStop) else w.(waiter := Asleep)
    case _ => w
  }

  function Next(w: World, step: Step): World {
    match step
    case StartPromise => w.(m := w.m.(started := w.m.started + 1), changed := w.changed + 1)
    case EndDrag => w.(m := w.m.(ended := true), changed := w.changed + 1)
    case FinishWrite => w.(m := w.m.(finished := w.m.finished + 1), finishing := ToRaise)
    case SetError => w.(changed := w.changed + 1)
    case Stop => w.(stop := true, changed := w.changed + 1)
    case Raise => if w.changed > 0 then w.(epoch := w.epoch + 1, changed := w.changed - 1,
      raised := w.raised + 1) else w
    case Wake => if w.raised > 0 then AfterWake(w.(raised := w.raised - 1)) else w
    case RaiseFinishing => w.(epoch := w.epoch + 1, finishing := ToWake)
    case WakeFinishing => AfterWake(w.(finishing := Nobody))
    case WaiterStep(late) => WaiterNext(w, late)
    case GraceTimeout => w.(observed := w.epoch, waiter := CheckStop)
  }

  ghost predicate Legal(w: World, steps: seq<Step>)
    decreases |steps|
  {
    steps == [] || (Enabled(w, steps[0]) && Legal(Next(w, steps[0]), steps[1..]))
  }

  ghost function Run(w: World, steps: seq<Step>): World
    decreases |steps|
  {
    if steps == [] then w else Run(Next(w, steps[0]), steps[1..])
  }

  // The epoch is ahead of the waiter, or somebody is about to raise it.
  ghost predicate News(w: World) {
    w.epoch > w.observed || w.changed > 0 || w.finishing == ToRaise
  }

  ghost predicate Waiting(w: World) {
    w.waiter == Entering || w.waiter == Asleep || w.waiter == Woken
  }

  ghost predicate Inv(w: World) {
    && w.observed <= w.epoch
    && (Waiting(w) ==> !Settled(w.snap) && (w.m != w.snap ==> News(w)))
    && (Waiting(w) ==> (w.grace <==> w.snap.ended && w.snap.started == 0))
    && (w.waiter == Asleep && w.stop ==> News(w))
    && (w.waiter == Asleep && w.epoch > w.observed ==> w.raised > 0 || w.finishing == ToWake)
  }

  lemma StepKeepsInv(w: World, step: Step)
    requires Inv(w) && Enabled(w, step)
    ensures Inv(Next(w, step))
  {
    match step
    case WaiterStep(late) => WaiterKeepsInv(w, late);
    case _ => hide WaiterNext;
  }

  lemma WaiterKeepsInv(w: World, late: bool)
    requires Inv(w) && Enabled(w, WaiterStep(late))
    ensures Inv(WaiterNext(w, late))
  {}

  lemma {:induction false} RunKeepsInv(w: World, steps: seq<Step>)
    requires Inv(w) && Legal(w, steps)
    ensures Inv(Run(w, steps))
    decreases |steps|
  {
    hide Inv, Next, Enabled;
    if steps != [] {
      StepKeepsInv(w, steps[0]);
      RunKeepsInv(Next(w, steps[0]), steps[1..]);
    }
  }

  lemma Reached(steps: seq<Step>)
    requires Legal(Init(), steps)
    ensures Inv(Run(Init(), steps))
  {
    hide Run, Legal, Next;
    RunKeepsInv(Init(), steps);
  }

  // Everybody who changed something has returned.
  ghost predicate Quiet(w: World) {
    w.changed == 0 && w.raised == 0 && w.finishing == Nobody
  }

  // No wake-up is lost: once the drag has settled, or the waiter was told to stop, and the
  // notifiers have returned, the waiter is not asleep.
  lemma NoLostWakeUp(steps: seq<Step>)
    requires Legal(Init(), steps) && Quiet(Run(Init(), steps))
    requires var w := Run(Init(), steps);
             (w.m.ended && 0 < w.m.started <= w.m.finished) || w.stop
    ensures Run(Init(), steps).waiter != Asleep
  {
    hide Run, Legal;
    Reached(steps);
  }

  // How many steps the waiter takes from here to its end in a settled, quiet drag.
  function Distance(waiter: Waiter): nat {
    match waiter
    case Entering => 3
    case Woken => 3
    case CheckStop => 2
    case Snapshot => 1
    case _ => 0
  }

  // ... and it ends by itself: each of its steps is possible and brings it closer to its end.
  lemma WaiterEnds(steps: seq<Step>, late: bool)
    requires Legal(Init(), steps) && Quiet(Run(Init(), steps)) && Settled(Run(Init(), steps).m)
    requires Run(Init(), steps).waiter != Exited
    ensures var w := Run(Init(), steps);
            && Enabled(w, WaiterStep(late))
            && Distance(Next(w, WaiterStep(late)).waiter) < Distance(w.waiter)
            && (Distance(w.waiter) == 1 ==> Next(w, WaiterStep(late)).waiter == Exited)
            && Quiet(Next(w, WaiterStep(late))) && Settled(Next(w, WaiterStep(late)).m)
  {
    hide Run, Legal;
    Reached(steps);
  }

  // A drag that ended with nothing asked for: the waiter that sleeps is in its grace period, and the
  // end of that period ends it.
  lemma GraceEnds(steps: seq<Step>)
    requires Legal(Init(), steps) && Quiet(Run(Init(), steps)) && Run(Init(), steps).waiter == Asleep
    requires Run(Init(), steps).m.ended && Run(Init(), steps).m.started == 0
    ensures var more := [GraceTimeout, WaiterStep(true), WaiterStep(true)];
            Legal(Run(Init(), steps), more) && Run(Run(Init(), steps), more).waiter == Exited
  {
    NotSettledAsleep(steps);
    var w := Run(Init(), steps);
    GraceSteps(w);
  }

  lemma NotSettledAsleep(steps: seq<Step>)
    requires Legal(Init(), steps) && Quiet(Run(Init(), steps)) && Run(Init(), steps).waiter == Asleep
    ensures !Run(Init(), steps).stop && Run(Init(), steps).snap == Run(Init(), steps).m
    ensures Inv(Run(Init(), steps))
  {
    hide Run, Legal;
    Reached(steps);
  }

  lemma GraceSteps(w: World)
    requires w.waiter == Asleep && w.grace && !w.stop && w.finishing == Nobody && w.m.ended && w.m.started == 0
    ensures var more := [GraceTimeout, WaiterStep(true), WaiterStep(true)];
            Legal(w, more) && Run(w, more).waiter == Exited
  {
    var step := WaiterStep(true);
    var w1 := Next(w, GraceTimeout);
    var w2 := Next(w1, step);
    var w3 := Next(w2, step);
    assert [GraceTimeout, step, step][1..] == [step, step] && [step, step][1..] == [step] && [step][1..] == [];
    assert Run(w2, [step]) == w3 && Legal(w2, [step]);
    assert Run(w1, [step, step]) == w3 && Legal(w1, [step, step]);
  }

  // ---------- what the metrics tell ----------

  ghost function Count(steps: seq<Step>, step: Step): nat
    decreases |steps|
  {
    if steps == [] then 0 else (if steps[0] == step then 1 else 0) + Count(steps[1..], step)
  }

  lemma {:induction false} RunTells(w: World, steps: seq<Step>)
    requires Legal(w, steps)
    ensures var m, m' := w.m, Run(w, steps).m;
            && m'.started == m.started + Count(steps, StartPromise)
            && m'.finished == m.finished + Count(steps, FinishWrite)
            && (m'.ended <==> m.ended || EndDrag in steps)
            && (Run(w, steps).stop <==> w.stop || Stop in steps)
    decreases |steps|
  {
    if steps != [] {
      StepTells(w, steps[0]);
      hide Next, Enabled;
      assert forall step | step in steps :: step == steps[0] || step in steps[1..];
      RunTells(Next(w, steps[0]), steps[1..]);
    }
  }

  lemma StepTells(w: World, step: Step)
    ensures var m, m' := w.m, Next(w, step).m;
            && m'.started == m.started + (if step == StartPromise then 1 else 0)
            && m'.finished == m.finished + (if step == FinishWrite then 1 else 0)
            && (m'.ended <==> m.ended || step == EndDrag)
            && (Next(w, step).stop <==> w.stop || step == Stop)
  {}

  // The metrics count the promises and the writes of the run, and tell whether the drag ended.
  lemma MetricsTellTheSteps(steps: seq<Step>)
    requires Legal(Init(), steps)
    ensures var w := Run(Init(), steps);
            && w.m.started == Count(steps, StartPromise) && w.m.finished == Count(steps, FinishWrite)
            && (w.m.ended <==> EndDrag in steps) && (w.stop <==> Stop in steps)
  {
    hide Run, Legal, Count;
    RunTells(Init(), steps);
  }

  // ---------- why it ends ----------

  // Step number `k` is a snapshot of the waiter.
  ghost predicate SnapshotAt(steps: seq<Step>, k: nat) {
    k < |steps| && steps[k].WaiterStep? && Run(Init(), steps[..k]).waiter == Snapshot
  }

  // Step number `k` is a snapshot that finds the drag over with no write begun.
  ghost predicate SeesNoWrite(steps: seq<Step>, k: nat) {
    SnapshotAt(steps, k) && Run(Init(), steps[..k]).m.ended && Run(Init(), steps[..k]).m.started == 0
  }

  // The waiter leaves at step number `k`: it was told to stop, every write of the drag that is over
  // was finished, or the drag was over with no write begun at an earlier snapshot already and the
  // grace period passed since.
  ghost predicate LeavesAt(steps: seq<Step>, k: nat) {
    && k < |steps| && steps[k].WaiterStep?
    && var w := Run(Init(), steps[..k]);
    || (w.waiter == CheckStop && w.stop)
    || (SnapshotAt(steps, k) && w.m.ended && 0 < w.m.started <= w.m.finished)
    || (SeesNoWrite(steps, k) && steps[k].late && exists j :: 0 <= j < k && SeesNoWrite(steps, j))
  }

  lemma {:induction false} LastStep(w: World, steps: seq<Step>)
    requires Legal(w, steps) && steps != []
    ensures var before, last := steps[..|steps| - 1], steps[|steps| - 1];
            Legal(w, before) && Enabled(Run(w, before), last) && Run(w, steps) == Next(Run(w, before), last)
    decreases |steps|
  {
    hide Enabled, Next;
    if |steps| == 1 {
      assert steps[..0] == [] && steps[1..] == [];
    } else {
      LastStep(Next(w, steps[0]), steps[1..]);
      assert steps[1..][..|steps| - 2] == steps[..|steps| - 1][1..];
    }
  }

  // The waiter is in its grace period only after a snapshot that began it.
  lemma {:induction false} GraceWasSeen(steps: seq<Step>)
    requires Legal(Init(), steps) && Run(Init(), steps).grace
    ensures exists j :: 0 <= j < |steps| && SeesNoWrite(steps, j)
    decreases |steps|
  {
    if steps != [] {
      LastStep(Init(), steps);
      hide Run, Legal;
      var n := |steps| - 1;
      if SeesNoWrite(steps, n) {
      } else {
        GraceWasSeen(steps[..n]);
        var j :| 0 <= j < n && SeesNoWrite(steps[..n], j);
        assert steps[..n][..j] == steps[..j];
        assert SeesNoWrite(steps, j);
      }
    }
  }

  // In every run, the waiter has ended if and only if it met one of the three reasons.
  lemma EndsForAReason(steps: seq<Step>)
    requires Legal(Init(), steps)
    ensures Run(Init(), steps).waiter == Exited <==> exists k :: 0 <= k < |steps| && LeavesAt(steps, k)
  {
    hide Run, Legal, LeavesAt;
    if Run(Init(), steps).waiter == Exited { HadAReason(steps); }
    if k :| 0 <= k < |steps| && LeavesAt(steps, k) { ReasonEnds(steps, k, |steps|); }
  }

  lemma {:induction false} HadAReason(steps: seq<Step>)
    requires Legal(Init(), steps) && Run(Init(), steps).waiter == Exited
    ensures exists k :: 0 <= k < |steps| && LeavesAt(steps, k)
    decreases |steps|
  {
    if steps != [] {
      LastStep(Init(), steps);
      hide Run, Legal;
      var n := |steps| - 1;
      var w := Run(Init(), steps[..n]);
      if w.waiter == Exited {
        HadAReason(steps[..n]);
        var k :| 0 <= k < n && LeavesAt(steps[..n], k);
        EarlierLeave(steps, n, k);
      } else {
        if w.grace {
          GraceWasSeen(steps[..n]);
          var j :| 0 <= j < n && SeesNoWrite(steps[..n], j);
          assert steps[..n][..j] == steps[..j];
          assert SeesNoWrite(steps, j);
        }
        assert LeavesAt(steps, n);
      }
    }
  }

  lemma EarlierLeave(steps: seq<Step>, n: nat, k: nat)
    requires k < n <= |steps| && LeavesAt(steps[..n], k)
    ensures LeavesAt(steps, k)
  {
    hide Run;
    assert steps[..n][..k] == steps[..k];
    if j :| 0 <= j < k && SeesNoWrite(steps[..n], j) {
      assert steps[..n][..j] == steps[..j];
      assert SeesNoWrite(steps, j);
    }
  }

  lemma {:induction false} PrefixStep(w: World, steps: seq<Step>, k: nat)
    requires Legal(w, steps) && k < |steps|
    ensures Enabled(Run(w, steps[..k]), steps[k])
    ensures Run(w, steps[..k + 1]) == Next(Run(w, steps[..k]), steps[k])
    decreases |steps|
  {
    hide Enabled, Next;
    if k == 0 {
      assert steps[..1][0] == steps[0] && steps[..1][1..] == [] && steps[..0] == [];
    } else {
      PrefixStep(Next(w, steps[0]), steps[1..], k - 1);
      assert steps[1..][..k - 1] == steps[..k][1..] && steps[1..][..k] == steps[..k + 1][1..];
    }
  }

  // The grace period goes on while no write begins.
  lemma {:induction false} GraceStays(steps: seq<Step>, j: nat, k: nat)
    requires Legal(Init(), steps) && j < k <= |steps| && SeesNoWrite(steps, j)
    requires Run(Init(), steps[..k]).m.started == 0
    ensures Run(Init(), steps[..k]).waiter != Exited ==> Run(Init(), steps[..k]).grace
    ensures Run(Init(), steps[..k]).m.ended
    decreases k
  {
    hide Run, Legal;
    PrefixStep(Init(), steps, k - 1);
    if j < k - 1 { GraceStays(steps, j, k - 1); }
  }

  lemma {:induction false} ReasonEnds(steps: seq<Step>, k: nat, n: nat)
    requires Legal(Init(), steps) && LeavesAt(steps, k) && k < n <= |steps|
    ensures Run(Init(), steps[..n]).waiter == Exited
    ensures Run(Init(), steps[..|steps|]) == Run(Init(), steps)
    decreases n
  {
    hide Run, Legal;
    assert steps[..|steps|] == steps;
    PrefixStep(Init(), steps, n - 1);
    if k < n - 1 {
      ReasonEnds(steps, k, n - 1);
    } else if SeesNoWrite(steps, k) && steps[k].late && exists j :: 0 <= j < k && SeesNoWrite(steps, j) {
      var j :| 0 <= j < k && SeesNoWrite(steps, j);
      GraceStays(steps, j, k);
    }
  }
}
