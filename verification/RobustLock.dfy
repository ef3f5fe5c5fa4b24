/**
  The lock word in shared memory: zero, or the PID of the process that holds it.
  Acquisition, take-over from a dead owner and release are modelled one load,
  store or compare-and-swap at a time, in any number of threads of any number of
  processes, each of which may die at any point.
 */
module RobustLock {
  datatype Pc =
    | Idle                  // not trying, or an attempt came to nothing
    | SawOwner(owner: nat)  // the first compare-and-swap failed and returned this owner
    | SawDead(owner: nat)   // ... and that owner was not alive
    | Cleared               // the dead owner's PID was swapped out
    | Holding
    | Releasing             // the release has loaded its own PID

  // `used` are the PIDs ever given out; none is given out twice. `alive` only loses members by death.
  datatype World = World(word: nat, used: set<nat>, alive: set<nat>, pid: map<nat, nat>, pc: map<nat, Pc>)

  datatype Step =
    | Spawn(thread: nat, process: nat)
    | Die(process: nat)
    | Act(thread: nat)

  function Init(): World {
    World(0, {}, {}, map[], map[])
  }

  ghost predicate Enabled(w: World, step: Step) {
    match step
    case Spawn(t, p) => t !in w.pc && p != 0 && (p in w.alive || p !in w.used)
    case Die(p) => p in w.alive
    case Act(t) => t in w.pc && t in w.pid && w.pid[t] in w.alive
  }

  // The next atomic action of a thread with PID `self`: the new word and the new position.
  function Action(word: nat, alive: set<nat>, self: nat, pc: Pc): (nat, Pc) {
    match pc
    case Idle => if word == 0 then (self, Holding) else (word, SawOwner(word))
    case SawOwner(o) => if o != self && o != 0 && o !in alive then (word, SawDead(o)) else (word, Idle)
    case SawDead(o) => if word == o then (0, Cleared) else (word, Idle)
    case Cleared => if word == 0 then (self, Holding) else (word, Idle)
    case Holding => if word == self then (word, Releasing) else (word, Idle)
    case Releasing => (0, Idle)
  }

  function Next(w: World, step: Step): World {
    match step
    case Spawn(t, p) =>
      w.(used := w.used + {p}, alive := w.alive + {p}, pid := w.pid[t := p], pc := w.pc[t := Idle])
    case Die(p) => w.(alive := w.alive - {p})
    case Act(t) =>
      if t in w.pc && t in w.pid then
        var (word, pc) := Action(w.word, w.alive, w.pid[t], w.pc[t]);
        w.(word := word, pc := w.pc[t := pc])
      else w
  }

  ghost function Run(w: World, steps: seq<Step>): World
    decreases |steps|
  {
    if steps == [] then w else Run(Next(w, steps[0]), steps[1..])
  }

  ghost predicate Legal(w: World, steps: seq<Step>)
    decreases |steps|
  {
    steps == [] || (Enabled(w, steps[0]) && Legal(Next(w, steps[0]), steps[1..]))
  }

  ghost predicate Live(w: World, t: nat) {
    t in w.pc && t in w.pid && w.pid[t] in w.alive
  }

  // Between a successful acquisition and the store that ends its release.
  ghost predicate Holds(w: World, t: nat) {
    Live(w, t) && (w.pc[t] == Holding || w.pc[t] == Releasing)
  }

  ghost predicate Inv(w: World) {
    && w.pc.Keys == w.pid.Keys && w.alive <= w.used && 0 !in w.used && (w.word == 0 || w.word in w.used)
    && (forall t | t in w.pid :: w.pid[t] in w.used)
    && (forall t | t in w.pc && w.pc[t].SawDead? :: w.pc[t].owner in w.used && w.pc[t].owner !in w.alive)
    && (forall t | Holds(w, t) :: w.word == w.pid[t])
    && (forall t, u | Holds(w, t) && Holds(w, u) :: t == u)
    && (forall t | t in w.pc && w.pc[t].SawOwner? :: w.pc[t].owner in w.used)
  }

  lemma SpawnKeepsInv(w: World, t: nat, p: nat)
    requires Inv(w) && Enabled(w, Spawn(t, p))
    ensures Inv(Next(w, Spawn(t, p)))
  {
    var w' := Next(w, Spawn(t, p));
    assert forall u | Holds(w', u) :: Holds(w, u);
  }

  lemma DieKeepsInv(w: World, p: nat)
    requires Inv(w) && Enabled(w, Die(p))
    ensures Inv(Next(w, Die(p)))
  {
    var w' := Next(w, Die(p));
    assert forall u | Holds(w', u) :: Holds(w, u);
  }

  // The word changes only from zero, from a dead owner's PID, or by the holder's own release.
  lemma WordChange(w: World, t: nat, u: nat)
    requires Inv(w) && Live(w, t) && Holds(w, u) && u != t
    ensures Action(w.word, w.alive, w.pid[t], w.pc[t]).0 == w.word
    ensures !Action(w.word, w.alive, w.pid[t], w.pc[t]).1.Holding?
    ensures !Action(w.word, w.alive, w.pid[t], w.pc[t]).1.Releasing?
  {
    assert !Holds(w, t);
  }

  lemma ActKeepsInv(w: World, t: nat)
    requires Inv(w) && Live(w, t)
    ensures Inv(Next(w, Act(t)))
  {
    var w' := Next(w, Act(t));
    forall u | u != t && Holds(w', u) ensures Holds(w, u) && w'.word == w.word && !Holds(w', t) {
      assert Holds(w, u);
      WordChange(w, t, u);
    }
    hide Action;
    ActorAfter(w, t);
  }

  lemma ActorAfter(w: World, t: nat)
    requires Inv(w) && Live(w, t)
    ensures var (word, pc) := Action(w.word, w.alive, w.pid[t], w.pc[t]);
            && (word == 0 || word in w.used)
            && (pc.Holding? || pc.Releasing? ==> word == w.pid[t])
            && (pc.SawDead? ==> pc.owner in w.used && pc.owner !in w.alive)
            && (pc.SawOwner? ==> pc.owner in w.used)
  {
    if w.pc[t].Releasing? || w.pc[t].Holding? { assert Holds(w, t); }
  }

  lemma StepKeepsInv(w: World, step: Step)
    requires Inv(w) && Enabled(w, step)
    ensures Inv(Next(w, step))
  {
    hide Inv, Next;
    match step
    case Spawn(t, p) => SpawnKeepsInv(w, t, p);
    case Die(p) => DieKeepsInv(w, p);
    case Act(t) => ActKeepsInv(w, t);
  }

  lemma {:induction false} RunKeepsInv(w: World, steps: seq<Step>)
    requires Inv(w) && Legal(w, steps)
    ensures Inv(Run(w, steps))
    decreases |steps|
  {
    hide Inv, Next, Enabled;
    if steps != [] {
      StepKeepsInv(w, steps[0]);
      RunKeepsInv(Next(w, steps[0]), steps[1..]);
    }
  }

  // In every run at most one live thread holds the lock, and the word is then its PID.
  lemma MutualExclusion(steps: seq<Step>, t: nat, u: nat)
    requires Legal(Init(), steps)
    requires Holds(Run(Init(), steps), t) && Holds(Run(Init(), steps), u)
    ensures t == u && Run(Init(), steps).word == Run(Init(), steps).pid[t]
  {
    hide Run, Legal;
    RunKeepsInv(Init(), steps);
  }

  // A live holder's release always finds its own PID and frees the word; no other thread's
  // action touches the word while it holds.
  lemma HolderIsUndisturbed(steps: seq<Step>, t: nat, u: nat)
    requires Legal(Init(), steps) && Holds(Run(Init(), steps), t) && Live(Run(Init(), steps), u)
    ensures var w := Run(Init(), steps);
            && (w.pc[t] == Holding ==> Next(w, Act(t)).pc[t] == Releasing)
            && (w.pc[t] == Releasing ==> Next(w, Act(t)).word == 0)
            && (u != t ==> Next(w, Act(u)).word == w.word && Holds(Next(w, Act(u)), t))
  {
    hide Run, Legal, Inv;
    InitInv();
    RunKeepsInv(Init(), steps);
    Undisturbed(Run(Init(), steps), t, u);
  }

  lemma InitInv()
    ensures Inv(Init())
  {}

  lemma Undisturbed(w: World, t: nat, u: nat)
    requires Inv(w) && Holds(w, t) && Live(w, u)
    ensures w.pc[t] == Holding ==> Next(w, Act(t)).pc[t] == Releasing
    ensures w.pc[t] == Releasing ==> Next(w, Act(t)).word == 0
    ensures u != t ==> Next(w, Act(u)).word == w.word && Holds(Next(w, Act(u)), t)
  {
    assert w.word == w.pid[t];
    if u != t { WordChange(w, u, t); }
    hide Inv;
  }

  // ---------- one attempt without interference ----------

  datatype AcquireResult = Acquired | AlreadyHeld | Busy | NoPid

  function TryAcquireSpec(word: nat, self: nat, alive: set<nat>): (nat, AcquireResult) {
    if self == 0 then (word, NoPid)
    else if word == 0 then (self, Acquired)
    else if word == self then (word, AlreadyHeld)
    else if word in alive then (word, Busy)
    else (self, Acquired)
  }

  // Left alone, an idle thread's attempt ends as the specification says: a free word and a dead
  // owner's word are taken, a live owner's word is left as it is.
  lemma AloneAcquires(w: World, t: nat)
    requires Inv(w) && Live(w, t) && w.pc[t] == Idle
    ensures var steps := if w.word == 0 then [Act(t)]
                         else if w.word == w.pid[t] || w.word in w.alive then [Act(t), Act(t)]
                         else [Act(t), Act(t), Act(t), Act(t)];
            var w' := Run(w, steps);
            var (word, result) := TryAcquireSpec(w.word, w.pid[t], w.alive);
            && Legal(w, steps) && w'.word == word && t in w'.pc
            && (w'.pc[t] == Holding <==> result == Acquired)
            && (result != Acquired ==> w'.pc[t] == Idle)
  {
    var a := Act(t);
    var w1 := Next(w, a);
    var w2 := Next(w1, a);
    var w3 := Next(w2, a);
    var w4 := Next(w3, a);
    RunOne(w, a);
    RunOne(w1, a);
    RunTwo(w, a);
    RunTwo(w2, a);
    assert [a, a, a, a] == [a, a] + [a, a];
    RunFour(w, a);
  }

  lemma RunOne(w: World, a: Step)
    ensures Run(w, [a]) == Next(w, a) && (Legal(w, [a]) <==> Enabled(w, a))
  {
    hide Next, Enabled;
    assert Run(Next(w, a), [a][1..]) == Next(w, a);
  }

  lemma RunTwo(w: World, a: Step)
    ensures Run(w, [a, a]) == Next(Next(w, a), a)
    ensures Legal(w, [a, a]) <==> Enabled(w, a) && Enabled(Next(w, a), a)
  {
    hide Next, Enabled;
    assert [a, a][1..] == [a];
    RunOne(Next(w, a), a);
  }

  lemma RunFour(w: World, a: Step)
    ensures Run(w, [a, a, a, a]) == Run(Next(Next(w, a), a), [a, a])
    ensures Legal(w, [a, a, a, a]) <==>
            Enabled(w, a) && Enabled(Next(w, a), a) && Legal(Next(Next(w, a), a), [a, a])
  {
    hide Next, Enabled;
    assert [a, a, a, a][1..] == [a, a, a] && [a, a, a][1..] == [a, a];
  }

  class LockWord {
    var locker_pid: nat

    method CompareExchange(expected: nat, desired: nat) returns (ok: bool, actual: nat)
      modifies this
      ensures actual == old(locker_pid) && (ok <==> actual == expected)
      ensures locker_pid == if ok then desired else actual
    {
      actual := locker_pid;
      ok := actual == expected;
      if ok { locker_pid := desired; }
    }

    method TryAcquire(self: nat, alive: set<nat>) returns (r: AcquireResult)
      modifies this
      ensures (locker_pid, r) == TryAcquireSpec(old(locker_pid), self, alive)
      ensures r == AlreadyHeld <==> self != 0 && old(locker_pid) == self
    {
      if self == 0 { return NoPid; }
      var ok, current_owner := CompareExchange(0, self);
      if ok { return Acquired; }
      if current_owner == self { return AlreadyHeld; }
      if current_owner != 0 && current_owner !in alive {
        var cleared, _ := CompareExchange(current_owner, 0);
        if cleared {
          var taken, _ := CompareExchange(0, self);
          if taken { return Acquired; }
        }
      }
      return Busy;
    }

    method Release(self: nat) returns (ok: bool)
      modifies this
      ensures ok <==> self != 0 && old(locker_pid) == self
      ensures locker_pid == if ok then 0 else old(locker_pid)
    {
      ok := self != 0 && locker_pid == self;
      if ok { locker_pid := 0; }
    }
  }
}
