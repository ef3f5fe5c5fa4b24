/**
  File-promise writes of a native drag, any number at once: each takes a slot,
  takes a second slot if its payload is large, exports, and gives the slots back.
 */
module DragWrites {
  import opened Basics
  import opened DragState

  datatype Pc =
    | WaitSlot     // counted as started
    | Starting     // has a slot
    | Preparing    // counted as active
    | WaitLarge    // measured, and too large to go on without a second slot
    | Exporting
    | DropLarge    // counted as finished
    | DropSlot
    | Over

  datatype Writer = Writer(item: int, payload: int, large: bool, pc: Pc)

  datatype World = World(
    g: Gates, m: Metrics, writers: map<nat, Writer>,
    log: seq<Outcome>)   // history: how the writes ended, in order

  datatype Step =
    | Begin(i: nat, item: int)
    | Acquire(i: nat)
    | Start(i: nat)
    | EmptyPath(i: nat, totalMs: int)
    | Measure(i: nat, payload: int)
    | AcquireLarge(i: nat)
    | Export(i: nat, ok: bool, exportMs: int, totalMs: int)
    | ReleaseLarge(i: nat)
    | ReleaseSlot(i: nat)

  function Init(items: nat, policy: Policy): World {
    World(InitialGates(policy), InitialMetrics(items), map[], [])
  }

  predicate At(w: World, i: nat, pc: Pc) {
    i in w.writers && w.writers[i].pc == pc
  }

  predicate Enabled(w: World, step: Step) {
    match step
    case Begin(i, _) => i !in w.writers
    case Acquire(i) => At(w, i, WaitSlot) && w.g.slots < w.g.limit
    case Start(i) => At(w, i, Starting)
    case EmptyPath(i, _) => At(w, i, Preparing)
    case Measure(i, payload) => At(w, i, Preparing) && payload >= 0
    case AcquireLarge(i) => At(w, i, WaitLarge) && w.g.largeSlots < w.g.largeLimit
    case Export(i, _, _, _) => At(w, i, Exporting)
    case ReleaseLarge(i) => At(w, i, DropLarge)
    case ReleaseSlot(i) => At(w, i, DropSlot)
  }

  function Move(w: World, i: nat, pc: Pc): World {
    if i in w.writers then w.(writers := w.writers[i := w.writers[i].(pc := pc)]) else w
  }

  function Finish(w: World, o: Outcome): World {
    w.(m := Finished(w.m, o), log := w.log + [o])
  }

  function Next(w: World, step: Step): World
    requires Enabled(w, step)
  {
    match step
    case Begin(i, item) =>
      w.(m := Requested(w.m, item), writers := w.writers[i := Writer(item, 0, false, WaitSlot)])
    case Acquire(i) => Move(w.(g := w.g.(slots := w.g.slots + 1)), i, Starting)
    case Start(i) => Move(w.(m := Started(w.m)), i, Preparing)
    case EmptyPath(i, ms) =>
      Move(Finish(w, Outcome(0, ms, false, false, false, 0, false, w.writers[i].item)), i, DropSlot)
    case Measure(i, payload) =>
      var large := Throttled(w.g, payload);
      var x := w.writers[i].(payload := payload, large := large, pc := if large then WaitLarge else Exporting);
      w.(writers := w.writers[i := x])
    case AcquireLarge(i) => Move(w.(g := w.g.(largeSlots := w.g.largeSlots + 1)), i, Exporting)
    case Export(i, ok, exportMs, ms) =>
      var x := w.writers[i];
      Move(Finish(w, Outcome(exportMs, ms, ok, true, ok, x.payload, x.large, x.item)), i,
           if x.large then DropLarge else DropSlot)
    case ReleaseLarge(i) =>
      Move(w.(g := w.g.(largeSlots := if w.g.largeSlots > 0 then w.g.largeSlots - 1 else 0)), i, DropSlot)
    case ReleaseSlot(i) =>
      Move(w.(g := w.g.(slots := if w.g.slots > 0 then w.g.slots - 1 else 0)), i, Over)
  }

  ghost predicate Legal(w: World, steps: seq<Step>)
    decreases |steps|
  {
    steps == [] || (Enabled(w, steps[0]) && Legal(Next(w, steps[0]), steps[1..]))
  }

  ghost function Run(w: World, steps: seq<Step>): World
    requires Legal(w, steps)
    decreases |steps|
  {
    if steps == [] then w else Run(Next(w, steps[0]), steps[1..])
  }

  // ---------- counting writers ----------

  ghost function Those(ws: map<nat, Writer>, p: Writer -> bool): set<nat> {
    set i | i in ws && p(ws[i])
  }

  function Count(b: bool): int {
    if b then 1 else 0
  }

  lemma ThoseAfter(ws: map<nat, Writer>, i: nat, x: Writer, p: Writer -> bool)
    ensures |Those(ws[i := x], p)| == |Those(ws, p)| + Count(p(x)) - Count(i in ws && p(ws[i]))
  {
    var before, after := Those(ws, p), Those(ws[i := x], p);
    var rest := before - {i};
    forall j | j != i ensures j in after <==> j in before {}
    assert i in after <==> p(x);
    assert i in before <==> i in ws && p(ws[i]);
    hide Those;
    assert after == if p(x) then rest + {i} else rest;
    assert before == if i in before then rest + {i} else rest;
  }

  // Some writer is counted as soon as the count is not zero, and none when it is.
  lemma NoneCounted(ws: map<nat, Writer>, p: Writer -> bool)
    ensures |Those(ws, p)| == 0 <==> forall i | i in ws :: !p(ws[i])
  {
    if forall i | i in ws :: !p(ws[i]) { assert Those(ws, p) == {}; }
    if |Those(ws, p)| == 0 { assert forall i | i in ws && p(ws[i]) :: i in Those(ws, p); }
  }

  predicate HasSlot(x: Writer) {
    x.pc != WaitSlot && x.pc != Over
  }

  predicate HasLarge(x: Writer) {
    x.pc == DropLarge || (x.pc == Exporting && x.large)
  }

  predicate Active(x: Writer) {
    x.pc == Preparing || x.pc == WaitLarge || x.pc == Exporting
  }

  predicate Ended(x: Writer) {
    x.pc == DropLarge || x.pc == DropSlot || x.pc == Over
  }

  predicate Any(x: Writer) {
    true
  }

  // ---------- what the counters mean ----------

  ghost function Tally(log: seq<Outcome>, p: Outcome -> bool): nat
    decreases |log|
  {
    if log == [] then 0 else Tally(log[..|log| - 1], p) + if p(log[|log| - 1]) then 1 else 0
  }

  ghost function LargeBytes(log: seq<Outcome>): nat
    decreases |log|
  {
    if log == [] then 0 else
    var o := log[|log| - 1];
    LargeBytes(log[..|log| - 1]) + if o.large && o.payload > 0 then o.payload else 0
  }

  ghost function Largest(log: seq<Outcome>): int
    decreases |log|
  {
    if log == [] then 0 else
    var m, bytes := Largest(log[..|log| - 1]), Positive(log[|log| - 1].payload);
    if bytes > m then bytes else m
  }

  ghost function ExportTime(log: seq<Outcome>): int
    decreases |log|
  {
    if log == [] then 0 else ExportTime(log[..|log| - 1]) + Positive(log[|log| - 1].exportMs)
  }

  ghost function TotalTime(log: seq<Outcome>): int
    decreases |log|
  {
    if log == [] then 0 else TotalTime(log[..|log| - 1]) + Positive(log[|log| - 1].totalMs)
  }

  // How the latest write of the item ended.
  ghost predicate LatestSucceeded(log: seq<Outcome>, item: int)
    decreases |log|
  {
    log != [] && if log[|log| - 1].item == item then log[|log| - 1].success else LatestSucceeded(log[..|log| - 1], item)
  }

  const SUCCESS: Outcome -> bool := (o: Outcome) => o.success
  const ATTEMPTED: Outcome -> bool := (o: Outcome) => o.exportAttempted
  const LARGE: Outcome -> bool := (o: Outcome) => o.large
  const LARGE_SUCCESS: Outcome -> bool := (o: Outcome) => o.large && o.success

  // The counters tell the log.
  ghost predicate Counted(m: Metrics, log: seq<Outcome>) {
    && m.attempts == m.finished == |log| == m.successes + m.failures
    && m.successes == m.exportSuccesses == Tally(log, SUCCESS)
    && m.exportAttempts == Tally(log, ATTEMPTED)
    && m.largeAttempts == m.largeSuccesses + m.largeFailures == Tally(log, LARGE)
    && m.largeSuccesses == Tally(log, LARGE_SUCCESS)
    && m.largeTotal == (if LargeBytes(log) < MAX_INT64 then LargeBytes(log) else MAX_INT64)
    && m.maxSingle == Largest(log) && m.exportMs == ExportTime(log) && m.totalMs == TotalTime(log)
    && (forall k | 0 <= k < |m.succeededByItem| :: m.succeededByItem[k] == LatestSucceeded(log, k))
  }

  // The flags tell which items were asked for, and a write is large exactly when it is throttled.
  ghost predicate Flagged(w: World) {
    && (forall k | 0 <= k < |w.m.requestedByItem| ::
          w.m.requestedByItem[k] <==> exists i :: i in w.writers && w.writers[i].item == k)
    && (forall o | o in w.log :: o.large == Throttled(w.g, o.payload))
    && (forall i | i in w.writers && (w.writers[i].pc == WaitLarge || w.writers[i].pc == Exporting) ::
          w.writers[i].large == Throttled(w.g, w.writers[i].payload))
  }

  // The gates and the counters tell where the writers are.
  ghost predicate Located(w: World) {
    && w.g.slots == |Those(w.writers, HasSlot)| && w.g.largeSlots == |Those(w.writers, HasLarge)|
    && w.m.active == |Those(w.writers, Active)|
    && w.m.finished == |Those(w.writers, Ended)| && w.m.started == |Those(w.writers, Any)|
  }

  ghost predicate Limited(w: World) {
    && 1 <= w.g.limit <= MAX_CONCURRENCY && 1 <= w.g.largeLimit <= MAX_CONCURRENCY
    && w.g.slots <= w.g.limit && w.g.largeSlots <= w.g.largeLimit
    && w.m.active <= w.g.slots && w.m.maxActive <= w.g.limit && w.m.active <= w.m.maxActive
    && w.m.finished <= w.m.started
    && (forall i | i in w.writers :: (w.writers[i].pc == WaitLarge || w.writers[i].pc == DropLarge ==>
      w.writers[i].large)
                                     && w.writers[i].payload >= 0)
  }

  ghost predicate Inv(w: World) {
    Counted(w.m, w.log) && Located(w) && Limited(w) && Flagged(w)
  }

  lemma FinishedCounts(m: Metrics, log: seq<Outcome>, o: Outcome)
    requires Counted(m, log) && o.payload >= 0 && (o.success ==> o.exportAttempted) && o.exportSucceeded == o.success
    ensures Counted(Finished(m, o), log + [o])
  {
    assert (log + [o])[..|log|] == log && (log + [o])[|log|] == o;
  }

  // Every active write holds a slot, and every finished one was started.
  lemma Contained(ws: map<nat, Writer>)
    ensures |Those(ws, Active)| <= |Those(ws, HasSlot)| && |Those(ws, Ended)| <= |Those(ws, Any)|
  {
    SubsetSize(Those(ws, Active), Those(ws, HasSlot));
    SubsetSize(Those(ws, Ended), Those(ws, Any));
  }

  // The gates and counters follow the move of one writer.
  ghost predicate Moved(w: World, w': World, i: nat, x: Writer) {
    var before := i in w.writers;
    && w'.writers == w.writers[i := x]
    && w'.g.slots == w.g.slots + Count(HasSlot(x)) - Count(before && HasSlot(w.writers[i]))
    && w'.g.largeSlots == w.g.largeSlots + Count(HasLarge(x)) - Count(before && HasLarge(w.writers[i]))
    && w'.m.active == w.m.active + Count(Active(x)) - Count(before && Active(w.writers[i]))
    && w'.m.finished == w.m.finished + Count(Ended(x)) - Count(before && Ended(w.writers[i]))
    && w'.m.started == w.m.started + 1 - Count(before)
  }

  lemma LocatedAfter(w: World, w': World, i: nat, x: Writer)
    requires Located(w) && Moved(w, w', i, x)
    ensures Located(w')
  {
    hide HasSlot, HasLarge, Active, Ended, Those;
    ThoseAfter(w.writers, i, x, HasSlot);
    ThoseAfter(w.writers, i, x, HasLarge);
    ThoseAfter(w.writers, i, x, Active);
    ThoseAfter(w.writers, i, x, Ended);
    ThoseAfter(w.writers, i, x, Any);
  }

  lemma HolderCounted(w: World, i: nat)
    requires Located(w) && i in w.writers
    ensures HasSlot(w.writers[i]) ==> w.g.slots > 0
    ensures HasLarge(w.writers[i]) ==> w.g.largeSlots > 0
    ensures Active(w.writers[i]) ==> w.m.active > 0
  {
    NoneCounted(w.writers, HasSlot);
    NoneCounted(w.writers, HasLarge);
    NoneCounted(w.writers, Active);
  }

  // What the position of the stepping writer says about the counts.
  ghost predicate Backed(w: World, i: nat) {
    i in w.writers ==>
      var x := w.writers[i];
      && (HasSlot(x) ==> w.g.slots > 0) && (HasLarge(x) ==> w.g.largeSlots > 0) && (Active(x) ==> w.m.active > 0)
      && (x.pc == WaitLarge || x.pc == DropLarge ==> x.large)
  }

  lemma MovedGates(w: World, step: Step)
    requires Enabled(w, step) && Backed(w, step.i)
    requires step.Acquire? || step.AcquireLarge? || step.ReleaseLarge? || step.ReleaseSlot? || step.Measure?
    ensures step.i in Next(w, step).writers && Moved(w, Next(w, step), step.i, Next(w, step).writers[step.i])
  {
    hide Throttled;
  }

  lemma MovedMetrics(w: World, step: Step)
    requires Enabled(w, step) && Backed(w, step.i)
    requires step.Begin? || step.Start? || step.EmptyPath? || step.Export?
    ensures step.i in Next(w, step).writers && Moved(w, Next(w, step), step.i, Next(w, step).writers[step.i])
  {
    hide Finished;
    match step
    case EmptyPath(i, ms) =>
      FinishedFields(w.m, Outcome(0, ms, false, false, false, 0, false, w.writers[i].item));
    case Export(i, ok, exportMs, ms) =>
      var x := w.writers[i];
      FinishedFields(w.m, Outcome(exportMs, ms, ok, true, ok, x.payload, x.large, x.item));
    case Begin(_, _) =>
    case Start(_) =>
  }

  lemma FinishedFields(m: Metrics, o: Outcome)
    ensures Finished(m, o).finished == m.finished + 1 && Finished(m, o).started == m.started
    ensures Finished(m, o).active == (if m.active > 0 then m.active - 1 else 0)
  {}

  lemma LocatedStep(w: World, step: Step)
    requires Inv(w) && Enabled(w, step)
    ensures Located(Next(w, step))
  {
    if step.i in w.writers { HolderCounted(w, step.i); }
    assert Backed(w, step.i);
    hide Counted, Located, Moved, Next, Enabled, Backed;
    if step.Begin? || step.Start? || step.EmptyPath? || step.Export? {
      MovedMetrics(w, step);
    } else {
      MovedGates(w, step);
    }
    LocatedAfter(w, Next(w, step), step.i, Next(w, step).writers[step.i]);
  }

  // A start may raise the maximum, but no further than the slots in use.
  lemma LimitedStep(w: World, step: Step)
    requires Inv(w) && Enabled(w, step) && Located(Next(w, step))
    ensures Limited(Next(w, step))
  {
    Contained(Next(w, step).writers);
    hide Counted, Those;
  }

  lemma StepKeepsInv(w: World, step: Step)
    requires Inv(w) && Enabled(w, step)
    ensures Inv(Next(w, step))
  {
    hide Counted, Located, Limited, Flagged, Next, Enabled;
    CountsStep(w, step);
    LocatedStep(w, step);
    LimitedStep(w, step);
    FlaggedStep(w, step);
  }

  lemma FlaggedStep(w: World, step: Step)
    requires Flagged(w) && Enabled(w, step)
    ensures Flagged(Next(w, step))
  {
    hide Throttled;
    var w' := Next(w, step);
    SameThreshold(w, step);
    forall k | 0 <= k < |w'.m.requestedByItem|
      ensures w'.m.requestedByItem[k] <==> exists i :: i in w'.writers && w'.writers[i].item == k
    {
      ItemsStep(w, step, k);
    }
    hide Next;
    LogStep(w, step);
    WritersStep(w, step);
  }

  lemma SameThreshold(w: World, step: Step)
    requires Enabled(w, step)
    ensures Next(w, step).g.threshold == w.g.threshold && Next(w, step).g.largeLimit == w.g.largeLimit
    ensures |Next(w, step).m.requestedByItem| == |w.m.requestedByItem|
  {}

  lemma ItemsStep(w: World, step: Step, k: nat)
    requires Enabled(w, step) && k < |w.m.requestedByItem| == |Next(w, step).m.requestedByItem|
    requires w.m.requestedByItem[k] <==> exists i :: i in w.writers && w.writers[i].item == k
    ensures Next(w, step).m.requestedByItem[k] <==>
            exists i :: i in Next(w, step).writers && Next(w, step).writers[i].item == k
  {
    var w' := Next(w, step);
    if i :| i in w.writers && w.writers[i].item == k { assert i in w'.writers && w'.writers[i].item == k; }
    if i :| i in w'.writers && w'.writers[i].item == k && i != step.i { assert i in w.writers
      && w.writers[i].item == k; }
    assert step.i in w'.writers;
    if step.i in w.writers { assert w'.writers[step.i].item == w.writers[step.i].item; }
  }

  lemma LogStep(w: World, step: Step)
    requires Flagged(w) && Enabled(w, step)
    ensures forall o | o in Next(w, step).log :: o.large == Throttled(Next(w, step).g, o.payload)
  {}

  lemma WritersStep(w: World, step: Step)
    requires Flagged(w) && Enabled(w, step)
    ensures var w' := Next(w, step);
            forall i | i in w'.writers && (w'.writers[i].pc == WaitLarge || w'.writers[i].pc == Exporting) ::
              w'.writers[i].large == Throttled(w'.g, w'.writers[i].payload)
  {}

  lemma CountsStep(w: World, step: Step)
    requires Inv(w) && Enabled(w, step)
    ensures Counted(Next(w, step).m, Next(w, step).log)
  {
    hide Counted, Located;
    match step
    case EmptyPath(i, ms) =>
      FinishedCounts(w.m, w.log, Outcome(0, ms, false, false, false, 0, false, w.writers[i].item));
    case Export(i, ok, exportMs, ms) =>
      var x := w.writers[i];
      FinishedCounts(w.m, w.log, Outcome(exportMs, ms, ok, true, ok, x.payload, x.large, x.item));
    case Begin(i, item) => OthersCount(w.m, Next(w, step).m, w.log);
    case Start(i) => OthersCount(w.m, Next(w, step).m, w.log);
    case _ =>
  }

  lemma OthersCount(m: Metrics, m': Metrics, log: seq<Outcome>)
    requires Counted(m, log)
    requires m' == m.(started := m'.started, requestedByItem := m'.requestedByItem, active := m'.active,
             maxActive := m'.maxActive)
    ensures Counted(m', log)
  {}

  lemma InitInv(items: nat, policy: Policy)
    ensures Inv(Init(items, policy))
  {
    var ws: map<nat, Writer> := map[];
    NoneCounted(ws, HasSlot);
    NoneCounted(ws, HasLarge);
    NoneCounted(ws, Active);
    NoneCounted(ws, Ended);
    NoneCounted(ws, Any);
  }

  lemma {:induction false} RunKeepsInv(w: World, steps: seq<Step>)
    requires Inv(w) && Legal(w, steps)
    ensures Inv(Run(w, steps))
    decreases |steps|
  {
    hide Inv, Next, Enabled;
    if steps != [] {
      StepKeepsInv(w, steps[0]);
      RunKeepsInv(Next(w, steps[0]), steps[1..]);
    }
  }

  ghost function Reach(items: nat, policy: Policy, steps: seq<Step>): World
    requires Legal(Init(items, policy), steps)
  {
    Run(Init(items, policy), steps)
  }

  lemma ReachedInv(items: nat, policy: Policy, steps: seq<Step>)
    requires Legal(Init(items, policy), steps)
    ensures Inv(Reach(items, policy, steps))
  {
    hide Inv;
    InitInv(items, policy);
    RunKeepsInv(Init(items, policy), steps);
  }

  // In every run both gates stay within their limits, the recorded maximum does too, and no more
  // writes finish than were started.
  lemma WithinLimits(items: nat, policy: Policy, steps: seq<Step>)
    requires Legal(Init(items, policy), steps)
    ensures Limited(Reach(items, policy, steps))
  {
    hide Reach, Legal;
    ReachedInv(items, policy, steps);
  }

  // In every run the counters are those of the writes that ended, the large-file total being cut
  // off at the largest 64-bit value; the item flags tell which items were asked for and how their
  // latest writes ended; and the large writes are exactly those at or over the threshold.
  lemma CountersTellTheLog(items: nat, policy: Policy, steps: seq<Step>)
    requires Legal(Init(items, policy), steps)
    ensures Counted(Reach(items, policy, steps).m, Reach(items, policy, steps).log)
    ensures Flagged(Reach(items, policy, steps))
  {
    hide Reach, Legal;
    ReachedInv(items, policy, steps);
  }

  // The writes of at least this size that are exporting.
  ghost function Exports(w: World, size: int): set<nat> {
    set i | i in w.writers && w.writers[i].pc == Exporting && w.writers[i].payload >= size
  }

  // No more writes at or over a positive threshold export at once than the policy allows for large
  // ones, and no other write ever waits for the second gate.
  lemma LargeExportsAreLimited(items: nat, policy: Policy, steps: seq<Step>)
    requires Legal(Init(items, policy), steps)
    ensures var w, threshold := Reach(items, policy, steps), Bound(0, policy.threshold, MAX_THRESHOLD);
            && (threshold > 0 ==> |Exports(w, threshold)| <= Bound(1, policy.largeLimit, MAX_CONCURRENCY))
            && forall i | i in w.writers && w.writers[i].pc == WaitLarge :: 0 < threshold <= w.writers[i].payload
  {
    PolicyStays(Init(items, policy), steps);
    hide Reach, Legal;
    ReachedInv(items, policy, steps);
    ExportingHasLarge(Reach(items, policy, steps));
  }

  lemma ExportingHasLarge(w: World)
    requires Inv(w)
    ensures w.g.threshold > 0 ==> |Exports(w, w.g.threshold)| <= w.g.largeLimit
    ensures forall i | i in w.writers && w.writers[i].pc == WaitLarge :: 0 < w.g.threshold <= w.writers[i].payload
  {
    hide Counted;
    if w.g.threshold > 0 {
      SubsetSize(Exports(w, w.g.threshold), Those(w.writers, HasLarge));
    }
  }

  lemma {:induction false} PolicyStays(w: World, steps: seq<Step>)
    requires Legal(w, steps)
    ensures Run(w, steps).g.threshold == w.g.threshold && Run(w, steps).g.largeLimit == w.g.largeLimit
    decreases |steps|
  {
    if steps != [] {
      SameThreshold(w, steps[0]);
      hide Next, Enabled;
      PolicyStays(Next(w, steps[0]), steps[1..]);
    }
  }

  // ---------- the counters and the steps ----------

  ghost function Most(a: nat, b: nat): nat {
    if a < b then b else a
  }

  // The largest number of active writes at any time of the run.
  ghost function Peak(w: World, steps: seq<Step>): nat
    requires Legal(w, steps)
    decreases |steps|
  {
    var here := |Those(w.writers, Active)|;
    if steps == [] then here else Most(here, Peak(Next(w, steps[0]), steps[1..]))
  }

  lemma StepPeak(w: World, step: Step)
    requires Inv(w) && Enabled(w, step) && Inv(Next(w, step))
    ensures Next(w, step).m.maxActive == Most(w.m.maxActive, |Those(Next(w, step).writers, Active)|)
  {
    hide Counted, Flagged, Those, Throttled;
  }

  lemma {:induction false} RunPeak(w: World, steps: seq<Step>)
    requires Inv(w) && Legal(w, steps)
    ensures Run(w, steps).m.maxActive == Most(w.m.maxActive, Peak(w, steps))
    decreases |steps|
  {
    assert |Those(w.writers, Active)| <= w.m.maxActive by { hide Counted, Flagged; }
    if steps != [] {
      StepKeepsInv(w, steps[0]);
      StepPeak(w, steps[0]);
      hide Inv, Next, Enabled, Those;
      RunPeak(Next(w, steps[0]), steps[1..]);
    }
  }

  // The recorded maximum is the largest number of writes that were ever active at once.
  lemma MaximumIsPeak(items: nat, policy: Policy, steps: seq<Step>)
    requires Legal(Init(items, policy), steps)
    ensures Reach(items, policy, steps).m.maxActive == Peak(Init(items, policy), steps)
  {
    hide Legal, Inv, Peak, Run;
    InitInv(items, policy);
    RunPeak(Init(items, policy), steps);
  }

  // The item that the write was begun for, and the payload that was measured for it.
  function ItemOf(steps: seq<Step>, i: nat): int
    decreases |steps|
  {
    if steps == [] then 0 else
    var last := steps[|steps| - 1];
    if last.Begin? && last.i == i then last.item else ItemOf(steps[..|steps| - 1], i)
  }

  function PayloadOf(steps: seq<Step>, i: nat): int
    decreases |steps|
  {
    if steps == [] then 0 else
    var last := steps[|steps| - 1];
    if last.Measure? && last.i == i then last.payload else PayloadOf(steps[..|steps| - 1], i)
  }

  // How the step ends a write, after the steps `done`.
  function EndedBy(done: seq<Step>, step: Step, threshold: int): seq<Outcome> {
    match step
    case EmptyPath(i, totalMs) => [Outcome(0, totalMs, false, false, false, 0, false, ItemOf(done, i))]
    case Export(i, ok, exportMs, totalMs) =>
      var payload := PayloadOf(done, i);
      [Outcome(exportMs, totalMs, ok, true, ok, payload, 0 < threshold <= payload, ItemOf(done, i))]
    case _ => []
  }

  function Endings(done: seq<Step>, steps: seq<Step>, threshold: int): seq<Outcome>
    decreases |steps|
  {
    if steps == [] then []
    else EndedBy(done, steps[0], threshold) + Endings(done + [steps[0]], steps[1..], threshold)
  }

  ghost predicate Tracks(w: World, done: seq<Step>) {
    forall i ::
      if i in w.writers then w.writers[i].item == ItemOf(done, i) && w.writers[i].payload == PayloadOf(done, i)
      else PayloadOf(done, i) == 0
  }

  lemma StepTracks(w: World, done: seq<Step>, step: Step)
    requires Enabled(w, step) && Tracks(w, done)
    ensures Tracks(Next(w, step), done + [step])
  {
    hide Finished, Started, Requested, Throttled;
    var all := done + [step];
    assert all[|all| - 1] == step && all[..|all| - 1] == done;
  }

  lemma StepLogs(w: World, done: seq<Step>, step: Step)
    requires Enabled(w, step) && Tracks(w, done) && Flagged(w) && Limited(w)
    ensures Next(w, step).log == w.log + EndedBy(done, step, w.g.threshold)
  {
    hide Finished, Started, Requested, ItemOf, PayloadOf;
    if !step.Export? && !step.EmptyPath? { assert w.log + [] == w.log; }
  }

  lemma {:induction false} RunLogs(w: World, done: seq<Step>, steps: seq<Step>)
    requires Inv(w) && Legal(w, steps) && Tracks(w, done)
    ensures Run(w, steps).log == w.log + Endings(done, steps, w.g.threshold)
    decreases |steps|
  {
    hide Next, Enabled, EndedBy, Tracks, Counted, Located, Limited, Flagged;
    if steps == [] {
      assert w.log + [] == w.log;
    } else {
      StepLogs(w, done, steps[0]);
      StepTracks(w, done, steps[0]);
      StepKeepsInv(w, steps[0]);
      SameThreshold(w, steps[0]);
      RunLogs(Next(w, steps[0]), done + [steps[0]], steps[1..]);
    }
  }

  // The log that the counters tell is that of the steps that ended writes, in order: their results
  // and times, the items they were begun for and the payloads that were measured.
  lemma LogTellsTheSteps(items: nat, policy: Policy, steps: seq<Step>)
    requires Legal(Init(items, policy), steps)
    ensures Reach(items, policy, steps).log == Endings([], steps, Bound(0, policy.threshold, MAX_THRESHOLD))
  {
    hide Legal, Inv, Endings, Run;
    InitInv(items, policy);
    RunLogs(Init(items, policy), [], steps);
  }

  // As long as a write is not over, some write can take a step: the gates never deadlock.
  lemma SomebodyCanStep(items: nat, policy: Policy, steps: seq<Step>, i: nat)
    requires Legal(Init(items, policy), steps)
    requires i in Reach(items, policy, steps).writers && Reach(items, policy, steps).writers[i].pc != Over
    ensures exists step: Step :: !step.Begin? && Enabled(Reach(items, policy, steps), step)
  {
    hide Reach, Legal;
    ReachedInv(items, policy, steps);
    NoDeadlock(Reach(items, policy, steps), i);
  }

  lemma NoDeadlock(w: World, i: nat)
    requires Inv(w) && i in w.writers && w.writers[i].pc != Over
    ensures exists step: Step :: !step.Begin? && Enabled(w, step)
  {
    NoneCounted(w.writers, HasSlot);
    NoneCounted(w.writers, HasLarge);
    hide Counted;
    if j :| j in w.writers && (w.writers[j].pc == DropLarge || w.writers[j].pc == Exporting) {
      assert Enabled(w, if w.writers[j].pc == DropLarge then ReleaseLarge(j) else Export(j, true, 0, 0));
    } else if j :| j in w.writers && w.writers[j].pc == WaitLarge {
      assert w.g.largeSlots == 0;
      assert Enabled(w, AcquireLarge(j));
    } else if j :| j in w.writers && HasSlot(w.writers[j]) {
      var pc := w.writers[j].pc;
      assert Enabled(w, if pc == Starting then Start(j) else if pc == Preparing then EmptyPath(j, 0)
        else ReleaseSlot(j));
    } else {
      assert w.g.slots == 0;
      assert Enabled(w, Acquire(i));
    }
  }

  // How many steps a write still needs.
  function Rank(pc: Pc): nat {
    match pc
    case WaitSlot => 7
    case Starting => 6
    case Preparing => 5
    case WaitLarge => 4
    case Exporting => 3
    case DropLarge => 2
    case DropSlot => 1
    case Over => 0
  }

  // Every step brings exactly one write closer to its end, and leaves the others where they are.
  lemma EveryStepAdvances(w: World, step: Step, j: nat)
    requires Enabled(w, step) && !step.Begin? && j in w.writers
    ensures j in Next(w, step).writers
    ensures j == step.i ==> Rank(Next(w, step).writers[j].pc) < Rank(w.writers[j].pc)
    ensures j != step.i ==> Next(w, step).writers[j] == w.writers[j]
  {}
}
