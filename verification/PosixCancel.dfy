/**
  Lock-free cancellation of a task that has its own shared-memory mapping. A
  canceller stores the flag and then posts the semaphore; the worker queries the
  flag once and, if it is not set, starts a thread that acquires and queries in
  turn. Every load, store, post and acquire is one step.
 */
module PosixCancel {
  import opened Basics

  datatype Canceller = Loading | StoringFlag | StoringTime | Posting | Returned(posted: bool)

  datatype Waiter = FirstQuery | Opening | Acquiring | Querying | Notified | GaveUp

  datatype World = World(
    finished: bool,  // the state field reads Empty or Completed
    flag: bool, count: nat, cancellers: map<nat, Canceller>, waiter: Waiter)

  datatype Step =
    | RequestCancel(id: nat)
    | CancellerStep(id: nat)
    | WaiterStep
    | WaiterFails    // opening, acquiring or querying reports an error
    | FinishTask

  function Init(): World {
    World(false, false, 0, map[], FirstQuery)
  }

  ghost predicate Enabled(w: World, step: Step) {
    match step
    case RequestCancel(id) => id !in w.cancellers
    case CancellerStep(id) => id in w.cancellers && !w.cancellers[id].Returned?
    case WaiterStep =>
      !w.waiter.Notified? && !w.waiter.GaveUp? && (w.waiter.Acquiring? ==> w.count > 0)
    case WaiterFails => !w.waiter.Notified? && !w.waiter.GaveUp?
    case FinishTask => true
  }

  function Next(w: World, step: Step): World {
    match step
    case RequestCancel(id) => w.(cancellers := w.cancellers[id := Loading])
    case CancellerStep(id) =>
      if id !in w.cancellers then w else
      (match w.cancellers[id]
       case Loading => w.(cancellers := w.cancellers[id := if w.finished then Returned(false) else StoringFlag])
       case StoringFlag => w.(flag := true, cancellers := w.cancellers[id := StoringTime])
       case StoringTime => w.(cancellers := w.cancellers[id := Posting])
       case Posting => w.(count := w.count + 1, cancellers := w.cancellers[id := Returned(true)])
       case Returned(_) => w)
    case WaiterStep =>
      (match w.waiter
       case FirstQuery => w.(waiter := if w.flag then Notified else Opening)
       case Opening => w.(waiter := Acquiring)
       case Acquiring => if w.count > 0 then w.(count := w.count - 1, waiter := Querying) else w
       case Querying => w.(waiter := if w.flag then Notified else Acquiring)
       case _ => w)
    case WaiterFails => w.(waiter := GaveUp)
    case FinishTask => w.(finished := true)
  }

  ghost predicate Legal(w: World, steps: seq<Step>)
    decreases |steps|
  {
    steps == [] || (Enabled(w, steps[0]) && Legal(Next(w, steps[0]), steps[1..]))
  }

  ghost function Run(w: World, steps: seq<Step>): World
    decreases |steps|
  {
    if steps == [] then w else Run(Next(w, steps[0]), steps[1..])
  }

  // The request found the task live and goes on; or it found the task finished and posts nothing.
  ghost predicate Accepted(w: World, id: nat) {
    id in w.cancellers && !w.cancellers[id].Loading? && w.cancellers[id] != Returned(false)
  }

  ghost predicate Dropped(w: World, id: nat) {
    id in w.cancellers && w.cancellers[id] == Returned(false)
  }

  // Some cancel request has returned success on the live task.
  ghost predicate Posted(w: World) {
    exists id :: id in w.cancellers && w.cancellers[id] == Returned(true)
  }

  ghost predicate Delivered(w: World) {
    || w.waiter.Notified? || w.waiter.GaveUp?
    || w.waiter.FirstQuery? || w.waiter.Querying?
    || ((w.waiter.Opening? || w.waiter.Acquiring?) && w.count > 0)
  }

  ghost predicate Inv(w: World) {
    && (forall id | id in w.cancellers && (w.cancellers[id].StoringTime? || w.cancellers[id].Posting?) :: w.flag)
    && (Posted(w) ==> w.flag && Delivered(w))
    && (w.waiter.Notified? ==> w.flag)
    && (w.flag ==> exists id :: Accepted(w, id))
  }

  lemma StepKeepsInv(w: World, step: Step)
    requires Inv(w) && Enabled(w, step)
    ensures Inv(Next(w, step))
  {
    var w' := Next(w, step);
    if Posted(w') && !Posted(w) {
      assert step.CancellerStep? && w.cancellers[step.id].Posting?;
    }
    if w.flag {
      var id :| Accepted(w, id);
      assert Accepted(w', id);
    } else if w'.flag {
      assert Accepted(w', step.id);
    }
    if Posted(w) {
      var id :| id in w.cancellers && w.cancellers[id] == Returned(true);
      assert w'.cancellers[id] == Returned(true);
    }
  }

  lemma {:induction false} RunKeepsInv(w: World, steps: seq<Step>)
    requires Inv(w) && Legal(w, steps)
    ensures Inv(Run(w, steps))
    decreases |steps|
  {
    hide Inv, Next, Enabled;
    if steps != [] {
      StepKeepsInv(w, steps[0]);
      RunKeepsInv(Next(w, steps[0]), steps[1..]);
    }
  }

  // A successful cancel is never lost: the notifier has run, or the waiter is about to look at a
  // flag that is set, or it will find a positive count.
  lemma CancelIsNeverLost(steps: seq<Step>)
    requires Legal(Init(), steps) && Posted(Run(Init(), steps))
    ensures Run(Init(), steps).flag && Delivered(Run(Init(), steps))
  {
    hide Run, Legal, Delivered, Posted;
    InitInv();
    RunKeepsInv(Init(), steps);
  }

  lemma InitInv()
    ensures Inv(Init())
  {}

  // ---------- which requests are accepted ----------

  // Whether the task was finished when the request took its first step, if it took one.
  function FirstLook(finished: bool, steps: seq<Step>, id: nat): Option<bool>
    decreases |steps|
  {
    if steps == [] then None
    else if steps[0] == CancellerStep(id) then Some(finished)
    else FirstLook(finished || steps[0] == FinishTask, steps[1..], id)
  }

  lemma StepDecides(w: World, step: Step, id: nat)
    requires Enabled(w, step)
    ensures Next(w, step).finished <==> w.finished || step == FinishTask
    ensures Accepted(w, id) ==> Accepted(Next(w, step), id)
    ensures Dropped(w, id) ==> Dropped(Next(w, step), id)
    ensures !Accepted(w, id) && !Dropped(w, id) ==>
              && (Accepted(Next(w, step), id) <==> step == CancellerStep(id) && !w.finished)
              && (Dropped(Next(w, step), id) <==> step == CancellerStep(id) && w.finished)
  {}

  lemma {:induction false} RunDecides(w: World, steps: seq<Step>, id: nat)
    requires Legal(w, steps)
    ensures Accepted(Run(w, steps), id) <==>
            Accepted(w, id) || (!Dropped(w, id) && FirstLook(w.finished, steps, id) == Some(false))
    ensures Dropped(Run(w, steps), id) <==>
            Dropped(w, id) || (!Accepted(w, id) && FirstLook(w.finished, steps, id) == Some(true))
    decreases |steps|
  {
    if steps != [] {
      StepDecides(w, steps[0], id);
      hide Next, Enabled;
      RunDecides(Next(w, steps[0]), steps[1..], id);
    }
  }

  // In every run, a cancel request goes ahead exactly if the task was live when it looked, and it is
  // dropped exactly if the task was finished by then.
  lemma CancelIsDecided(steps: seq<Step>, id: nat)
    requires Legal(Init(), steps)
    ensures Accepted(Run(Init(), steps), id) <==> FirstLook(false, steps, id) == Some(false)
    ensures Dropped(Run(Init(), steps), id) <==> FirstLook(false, steps, id) == Some(true)
  {
    hide Run, Legal;
    RunDecides(Init(), steps, id);
  }

  // The flag is set, and the notifier runs, only for a request that looked while the task was live.
  lemma NoSpuriousNotification(steps: seq<Step>)
    requires Legal(Init(), steps) && (Run(Init(), steps).waiter.Notified? || Run(Init(), steps).flag)
    ensures exists id :: FirstLook(false, steps, id) == Some(false)
  {
    hide Run, Legal, FirstLook;
    InitInv();
    RunKeepsInv(Init(), steps);
    var id :| Accepted(Run(Init(), steps), id);
    CancelIsDecided(steps, id);
  }

  // A request that nobody interferes with: for a live task it sets the flag and posts once; for a
  // finished one it changes nothing and posts nothing.
  lemma CancelAlone(w: World, id: nat)
    requires id !in w.cancellers
    ensures var step := CancellerStep(id);
            var steps := if w.finished then [RequestCancel(id), step] else [RequestCancel(id), step, step, step, step];
            && Legal(w, steps)
            && Run(w, steps) ==
               w.(flag := w.flag || !w.finished, count := if w.finished then w.count else w.count + 1,
                  cancellers := w.cancellers[id := Returned(!w.finished)])
  {
    var step := CancellerStep(id);
    var w1 := Next(w, RequestCancel(id));
    var w2 := Next(w1, step);
    if w.finished {
      assert [RequestCancel(id), step][1..] == [step] && [step][1..] == [];
      assert Run(w1, [step]) == w2 && Legal(w1, [step]);
    } else {
      var w3 := Next(w2, step);
      var w4 := Next(w3, step);
      var w5 := Next(w4, step);
      assert [RequestCancel(id), step, step, step, step][1..] == [step, step, step, step];
      assert [step, step, step, step][1..] == [step, step, step] && [step, step, step][1..] == [step, step];
      assert [step, step][1..] == [step] && [step][1..] == [];
      assert Run(w4, [step]) == w5 && Legal(w4, [step]);
      assert Run(w3, [step, step]) == w5 && Legal(w3, [step, step]);
      assert Run(w2, [step, step, step]) == w5 && Legal(w2, [step, step, step]);
      assert Run(w1, [step, step, step, step]) == w5 && Legal(w1, [step, step, step, step]);
    }
  }

  // How many of its own steps the waiter still needs once a cancel has been posted.
  function Distance(w: Waiter): nat {
    match w
    case Opening => 3
    case Acquiring => 2
    case FirstQuery => 1
    case Querying => 1
    case _ => 0
  }

  // From then on the waiter can always step, each of its steps brings the notification closer, and
  // nobody else's step takes it further away.
  lemma NotificationApproaches(steps: seq<Step>, step: Step)
    requires Legal(Init(), steps) && Posted(Run(Init(), steps)) && Enabled(Run(Init(), steps), step)
    requires step != WaiterFails
    ensures var w := Run(Init(), steps);
            && Posted(Next(w, step))
            && (!w.waiter.Notified? && !w.waiter.GaveUp? ==> Enabled(w, WaiterStep))
            && Distance(Next(w, step).waiter) == Distance(w.waiter) - (if step == WaiterStep then 1 else 0)
            && (Distance(w.waiter) == 1 && step == WaiterStep ==> Next(w, step).waiter.Notified?)
  {
    hide Run, Legal;
    InitInv();
    RunKeepsInv(Init(), steps);
    var w := Run(Init(), steps);
    var id :| id in w.cancellers && w.cancellers[id] == Returned(true);
    assert Next(w, step).cancellers[id] == Returned(true);
  }
}
