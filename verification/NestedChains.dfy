/**
  Chains of nested archive sessions and the tasks that open, share, release, prune
  and close them. Every critical section, every atomic operation on a user count
  or a flag, and every closing of a token is one step. A chain carries the number
  of the task that opened it.
 */
module NestedChains {
  import opened Basics
  import opened CachePrune

  // History: where a chain stands.
  datatype Status =
    | Private   // only its opener knows it
    | Ready     // marked as cached, not yet in the cache
    | InCache
    | Dropped   // another chain was inserted under its key
    | Doomed    // taken for closing

  datatype Chain = Chain(
    users: nat, cached: bool, closed: bool, lastUsed: int, tokens: seq<nat>,
    status: Status, holders: set<nat>,   // history
    tokensOpened: seq<nat>, log: seq<nat>)     // history: tokens in opening and in closing order

  datatype Pc =
    | PruneFirst(key: string)
    | LookUp(key: string)
    | Opening(cacheKey: Option<string>)
    | Building(cacheKey: Option<string>)
    | Marking(key: string)
    | Inserting(key: string)
    | PruneLast
    | Using
    | Releasing       // the time of use is written, the count not yet decremented
    | Testing         // was the last user: about to read the cached flag
    | Sweeping
    | Failed          // gave its half-built chain up for closing
    | Over

  // `todo` are the chains that the task must close before it goes on, `closing` is the one it is
  // closing and `tokens` are that chain's tokens still to close.
  datatype Task = Task(pc: Pc, chain: nat, todo: seq<nat>, closing: Option<nat>, tokens: seq<nat>)

  datatype World = World(
    chains: map<nat, Chain>, cache: map<string, nat>, tasks: map<nat, Task>, nextToken: nat, destroyed: bool,
    liveInserts: nat)   // history: how many insertions hit a key in the cache

  datatype Step =
    | Start(t: nat, key: Option<string>)
    | Prune(t: nat, gone: seq<string>, now: int)
    | LookUpKey(t: nat, now: int)
    | OpenRoot(t: nat, now: int)
    | OpenFails(t: nat)
    | OpenChild(t: nat)
    | BuildFails(t: nat)
    | Built(t: nat)
    | Mark(t: nat)
    | Insert(t: nat)
    | Touch(t: nat, now: int)
    | Decrement(t: nat)
    | TestCached(t: nat)
    | Sweep(t: nat, gone: seq<string>)
    | CloseNext(t: nat)
    | CloseToken(t: nat)
    | Destroy(t: nat, gone: seq<string>)

  function Init(): World {
    World(map[], map[], map[], 0, false, 0)
  }

  // ---------- the steps ----------

  // The task is not closing anything.
  predicate Free(th: Task) {
    th.todo == [] && th.closing.None?
  }

  predicate At(w: World, t: nat, pc: Pc) {
    t in w.tasks && w.tasks[t].pc == pc && Free(w.tasks[t])
  }

  ghost function Views(w: World, cache: map<string, nat>): map<string, View> {
    map k | k in cache && cache[k] in w.chains :: View(w.chains[cache[k]].users, w.chains[cache[k]].lastUsed)
  }

  ghost predicate Enabled(w: World, step: Step) {
    match step
    case Start(t, _) => t !in w.tasks && !w.destroyed
    case Prune(t, gone, now) =>
      && t in w.tasks && Free(w.tasks[t]) && (w.tasks[t].pc.PruneFirst? || w.tasks[t].pc.PruneLast?)
      && DistinctKeys(w.cache, gone) && PruneOk(Views(w, w.cache), Views(w, Without(w.cache, gone)), now)
    case LookUpKey(t, _) => t in w.tasks && Free(w.tasks[t]) && w.tasks[t].pc.LookUp?
    case OpenRoot(t, _) => t in w.tasks && Free(w.tasks[t]) && w.tasks[t].pc.Opening?
    case OpenFails(t) => t in w.tasks && Free(w.tasks[t]) && w.tasks[t].pc.Opening?
    case OpenChild(t) => t in w.tasks && Free(w.tasks[t]) && w.tasks[t].pc.Building?
    case BuildFails(t) => t in w.tasks && Free(w.tasks[t]) && w.tasks[t].pc.Building?
    case Built(t) => t in w.tasks && Free(w.tasks[t]) && w.tasks[t].pc.Building?
    case Mark(t) => t in w.tasks && Free(w.tasks[t]) && w.tasks[t].pc.Marking?
    case Insert(t) => t in w.tasks && Free(w.tasks[t]) && w.tasks[t].pc.Inserting?
    case Touch(t, _) => At(w, t, Using)
    case Decrement(t) => At(w, t, Releasing)
    case TestCached(t) => At(w, t, Testing)
    case Sweep(t, gone) =>
      && At(w, t, Sweeping) && DistinctKeys(w.cache, gone)
      && forall k | k in w.cache :: k in gone <==> !ChainAt(w, w.cache[k]).cached
    case CloseNext(t) => t in w.tasks && w.tasks[t].closing.None? && w.tasks[t].todo != []
    case CloseToken(t) => t in w.tasks && w.tasks[t].closing.Some?
    case Destroy(t, gone) =>
      && t !in w.tasks && !w.destroyed && DistinctKeys(w.cache, gone) && (forall k | k in w.cache :: k in gone)
      && forall u | u in w.tasks :: Free(w.tasks[u]) && (w.tasks[u].pc == Over || w.tasks[u].pc == Failed)
  }

  const NO_CHAIN := Chain(0, false, false, 0, [], Private, {}, [], [])
  const NO_TASK := Task(Over, 0, [], None, [])

  function ChainAt(w: World, c: nat): Chain {
    if c in w.chains then w.chains[c] else NO_CHAIN
  }

  function TaskAt(w: World, t: nat): Task {
    if t in w.tasks then w.tasks[t] else NO_TASK
  }

  function SetTask(w: World, t: nat, th: Task): World {
    w.(tasks := w.tasks[t := th])
  }

  function SetPc(w: World, t: nat, pc: Pc): World {
    SetTask(w, t, TaskAt(w, t).(pc := pc))
  }

  function SetChain(w: World, c: nat, ch: Chain): World {
    w.(chains := w.chains[c := ch])
  }

  function Doom(ch: Chain): Chain {
    ch.(cached := false, status := Doomed)
  }

  // The chains of these keys leave the cache, unmarked, and the task has to close them.
  function Take(w: World, t: nat, gone: seq<string>, pc: Pc, destroy: bool): World {
    var taken := Chosen(w.cache, gone);
    w.(cache := Without(w.cache, gone),
       chains := map c | c in w.chains :: if c in taken then Doom(w.chains[c]) else w.chains[c],
       tasks := w.tasks[t := TaskAt(w, t).(pc := pc, todo := taken)], destroyed := w.destroyed || destroy)
  }

  function Next(w: World, step: Step): World {
    match step
    case Start(t, key) =>
      SetTask(w, t, NO_TASK.(pc := match key case Some(k) => PruneFirst(k) case None => Opening(None)))
    case Prune(t, gone, _) =>
      var pc := TaskAt(w, t).pc;
      Take(w, t, gone, if pc.PruneFirst? then LookUp(pc.key) else Using, false)
    case LookUpKey(t, now) => LookedUp(w, t, now)
    case OpenRoot(t, now) =>
      var pc := TaskAt(w, t).pc;
      SetTask(SetChain(w, t, Chain(1, false, false, now, [w.nextToken], Private, {t}, [w.nextToken], [])), t,
              TaskAt(w, t).(pc := Building(if pc.Opening? then pc.cacheKey else None), chain := t))
      .(nextToken := w.nextToken + 1)
    case OpenFails(t) => SetPc(w, t, Over)
    case OpenChild(t) =>
      var ch := ChainAt(w, t);
      SetChain(w, t, ch.(tokens := ch.tokens + [w.nextToken], tokensOpened := ch.tokensOpened + [w.nextToken]))
      .(nextToken := w.nextToken + 1)
    case BuildFails(t) =>
      SetTask(SetChain(w, t, Doom(ChainAt(w, t))), t, TaskAt(w, t).(pc := Failed, todo := [t]))
    case Built(t) =>
      var pc := TaskAt(w, t).pc;
      SetPc(w, t, if pc.Building? && pc.cacheKey.Some? then Marking(pc.cacheKey.value) else Using)
    case Mark(t) =>
      var pc := TaskAt(w, t).pc;
      SetPc(SetChain(w, t, ChainAt(w, t).(cached := true, status := Ready)), t,
            Inserting(if pc.Marking? then pc.key else ""))
    case Insert(t) => Inserted(w, t)
    case Touch(t, now) =>
      var c := TaskAt(w, t).chain;
      SetPc(SetChain(w, c, ChainAt(w, c).(lastUsed := now)), t, Releasing)
    case Decrement(t) =>
      var c := TaskAt(w, t).chain;
      var ch := ChainAt(w, c);
      SetPc(SetChain(w, c, ch.(users := if ch.users > 0 then ch.users - 1 else 0, holders := ch.holders - {t})), t,
            if ch.users <= 1 then Testing else Over)
    case TestCached(t) =>
      var c := TaskAt(w, t).chain;
      if ChainAt(w, c).cached then SetPc(w, t, Sweeping)
      else SetTask(SetChain(w, c, Doom(ChainAt(w, c))), t, TaskAt(w, t).(pc := Over, todo := [c]))
    case Sweep(t, gone) => Take(w, t, gone, Over, false)
    case CloseNext(t) =>
      // Only the task that finds the flag unset goes on to the tokens.
      var th := TaskAt(w, t);
      if th.todo == [] then w else
      var c := th.todo[0];
      var ch := ChainAt(w, c);
      if ch.closed then SetTask(w, t, th.(todo := th.todo[1..]))
      else SetTask(SetChain(w, c, ch.(closed := true, cached := false, tokens := [])), t,
                   th.(todo := th.todo[1..], closing := Some(c), tokens := ch.tokens))
    case CloseToken(t) =>
      var th := TaskAt(w, t);
      if th.closing.None? then w
      else if th.tokens == [] then SetTask(w, t, th.(closing := None))
      else
        var c := th.closing.value;
        var ch := ChainAt(w, c);
        SetTask(SetChain(w, c, ch.(log := ch.log + [th.tokens[|th.tokens| - 1]])), t,
                th.(tokens := th.tokens[..|th.tokens| - 1]))
    case Destroy(t, gone) => Take(w, t, gone, Over, true)
  }

  function LookedUp(w: World, t: nat, now: int): World {
    var pc := TaskAt(w, t).pc;
    var key := if pc.LookUp? then pc.key else "";
    if key in w.cache then
      var c := w.cache[key];
      var ch := ChainAt(w, c);
      SetTask(SetChain(w, c, ch.(users := ch.users + 1, holders := ch.holders + {t}, lastUsed := now)), t,
              TaskAt(w, t).(pc := Using, chain := c))
    else SetPc(w, t, Opening(Some(key)))
  }

  // An insertion under a key in the cache overwrites the other chain's entry and nothing else.
  function Inserted(w: World, t: nat): World {
    var pc := TaskAt(w, t).pc;
    var key := if pc.Inserting? then pc.key else "";
    var live := key in w.cache;
    var w1 := if live then SetChain(w, w.cache[key], ChainAt(w, w.cache[key]).(status := Dropped)) else w;
    SetPc(SetChain(w1, t, ChainAt(w1, t).(status := InCache)), t, PruneLast)
    .(cache := w.cache[key := t], liveInserts := w.liveInserts + if live then 1 else 0)
  }

  ghost predicate Legal(w: World, steps: seq<Step>)
    decreases |steps|
  {
    steps == [] || (Enabled(w, steps[0]) && Legal(Next(w, steps[0]), steps[1..]))
  }

  ghost function Run(w: World, steps: seq<Step>): World
    decreases |steps|
  {
    if steps == [] then w else Run(Next(w, steps[0]), steps[1..])
  }

  // ---------- the invariant ----------

  // The task counts as a user of its chain.
  predicate Counted(pc: Pc) {
    !pc.PruneFirst? && !pc.LookUp? && !pc.Opening? && !pc.Testing? && !pc.Sweeping? && !pc.Over?
  }

  // ... and may use it.
  ghost predicate Holds(w: World, t: nat, c: nat) {
    t in w.tasks && w.tasks[t].chain == c && Counted(w.tasks[t].pc) && !w.tasks[t].pc.Failed?
  }

  ghost predicate ChainOk(c: nat, ch: Chain, nextToken: nat) {
    && (ch.cached <==> ch.status.Ready? || ch.status.InCache? || ch.status.Dropped?)
    && ch.users == |ch.holders|
    && (ch.closed ==> ch.status == Doomed && ch.tokens == [])
    && (!ch.closed ==> ch.log == [] && ch.tokens == ch.tokensOpened)
    && |ch.log| <= |ch.tokensOpened| && ch.tokensOpened != []
    && (forall i | 0 <= i < |ch.log| :: ch.log[i] == ch.tokensOpened[|ch.tokensOpened| - 1 - i])
    && (forall x | x in ch.tokensOpened :: x < nextToken)
    && (forall i, j | 0 <= i < j < |ch.tokensOpened| :: ch.tokensOpened[i] < ch.tokensOpened[j])
  }

  // What a task's position says about its chain.
  ghost predicate PositionOk(t: nat, pc: Pc, c: nat, status: Status) {
    match pc
    case Building(_) => c == t && status == Private
    case Marking(_) => c == t && status == Private
    case Inserting(_) => c == t && status == Ready
    case PruneLast => c == t && (status == InCache || status == Dropped)
    case Using => status != Doomed && status != Ready && (c == t || status != Private)
    case Releasing => status != Doomed && status != Ready && (c == t || status != Private)
    case Testing => status != Ready && (c == t || status != Private)
    case Failed => c == t && status == Doomed
    case _ => true
  }

  ghost function StatusOf(w: World, c: nat): Option<Status> {
    if c in w.chains then Some(w.chains[c].status) else None
  }

  ghost predicate Holder(w: World, t: nat, c: nat) {
    c in w.chains && t in w.chains[c].holders
  }

  // What a task's position says about its chain, whether it is counted there and whether it has
  // opened one.
  ghost predicate Fits(t: nat, pc: Pc, c: nat, status: Option<Status>, holder: bool, own: bool) {
    && (Counted(pc) || pc.Testing? ==> status.Some? && PositionOk(t, pc, c, status.value))
    && (Counted(pc) <==> holder)
    && (pc.PruneFirst? || pc.LookUp? || pc.Opening? ==> !own)
  }

  // The task and its own chain; it is counted nowhere else.
  ghost predicate UseOk(w: World, t: nat, th: Task) {
    && Fits(t, th.pc, th.chain, StatusOf(w, th.chain), Holder(w, t, th.chain), t in w.chains)
    && forall c | Holder(w, t, c) :: c == th.chain
  }

  // The task and the chains it closes.
  ghost predicate WorkOk(w: World, th: Task) {
    && (forall c | c in th.todo :: c in w.chains && w.chains[c].status == Doomed)
    && (th.closing.None? ==> th.tokens == [])
    && (th.closing.Some? ==> th.closing.value in w.chains && TokensLeft(w.chains[th.closing.value], th.tokens))
  }

  // A closed chain's tokens that are not in its log.
  ghost predicate TokensLeft(ch: Chain, tokens: seq<nat>) {
    ch.closed && |ch.log| <= |ch.tokensOpened| && tokens == ch.tokensOpened[..|ch.tokensOpened| - |ch.log|]
  }

  ghost predicate Todo(w: World, t: nat, c: nat) {
    t in w.tasks && c in w.tasks[t].todo
  }

  ghost predicate Closing(w: World, t: nat, c: nat) {
    t in w.tasks && w.tasks[t].closing == Some(c)
  }

  // Where a chain is to be found.
  ghost predicate Accounted(w: World, c: nat, ch: Chain) {
    match ch.status
    case Private =>
      && c in w.tasks && w.tasks[c].chain == c
      && var pc := w.tasks[c].pc; pc.Building? || pc.Marking? || pc == Using || pc == Releasing || pc == Testing
    case Ready => c in w.tasks && w.tasks[c].chain == c && w.tasks[c].pc.Inserting?
    case InCache => c in w.cache.Values
    case Dropped => w.liveInserts > 0
    case Doomed =>
      && (!ch.closed ==> exists t :: Todo(w, t, c))
      && (ch.closed && |ch.log| < |ch.tokensOpened| ==> exists t :: Closing(w, t, c))
  }

  ghost predicate ChainsInv(w: World) {
    && (forall c | c in w.chains :: ChainOk(c, w.chains[c], w.nextToken) && c in w.tasks)
    && (forall c, d | c in w.chains && d in w.chains && c != d ::
          Disjoint(w.chains[c].tokensOpened, w.chains[d].tokensOpened))
  }

  ghost predicate Disjoint(a: seq<nat>, b: seq<nat>) {
    forall x | x in a :: x !in b
  }

  ghost predicate TasksInv(w: World) {
    && (forall t | t in w.tasks :: UseOk(w, t, w.tasks[t]) && WorkOk(w, w.tasks[t]))
    && (forall c, t | Holder(w, t, c) :: t in w.tasks)
    && (forall t, u, c | Closing(w, t, c) && Closing(w, u, c) :: t == u)
  }

  ghost predicate CacheInv(w: World) {
    && (forall k | k in w.cache :: w.cache[k] in w.chains && w.chains[w.cache[k]].status == InCache)
    && (forall j, k | j in w.cache && k in w.cache && j != k :: w.cache[j] != w.cache[k])
  }

  ghost predicate Conserved(w: World) {
    && (forall c | c in w.chains :: Accounted(w, c, w.chains[c]))
    && (w.liveInserts > 0 ==> exists c :: c in w.chains && w.chains[c].status == Dropped)
  }

  ghost predicate Inv(w: World) {
    ChainsInv(w) && TasksInv(w) && CacheInv(w) && Conserved(w)
  }

  // ---------- what a step of task `t` may do to a chain ----------

  ghost predicate Moves(w: World, t: nat, c: nat, ch: Chain, ch': Chain) {
    && (forall u | u != t :: u in ch'.holders <==> u in ch.holders)
    && (|| ch'.status == ch.status
        || (ch.status == InCache && ch'.status == Dropped)
        || (ch.status == InCache && ch'.status == Doomed && ch.holders == {})
        || ((ch.status == Private || ch.status == Ready) && c == t))
    && (ch.closed ==> ch'.closed)
    && (ch'.log == ch.log || Closing(w, t, c))
    && (ch'.tokensOpened == ch.tokensOpened || (c == t && ch.status == Private))
  }

  ghost predicate OthersStay(w: World, w': World, t: nat) {
    && (forall u | u != t :: (u in w'.tasks <==> u in w.tasks) && (u in w.tasks ==> w'.tasks[u] == w.tasks[u]))
    && (forall c | c in w.chains :: c in w'.chains && Moves(w, t, c, w.chains[c], w'.chains[c]))
    && (forall c | c in w'.chains && c !in w.chains :: c == t && w'.chains[c].holders <= {t})
  }

  lemma UseKept(w: World, w': World, t: nat, u: nat)
    requires u in w.tasks && UseOk(w, u, w.tasks[u]) && OthersStay(w, w', t) && u != t
    ensures u in w'.tasks && UseOk(w', u, w'.tasks[u])
  {
    var th := w.tasks[u];
    if th.chain in w.chains { assert Moves(w, t, th.chain, w.chains[th.chain], w'.chains[th.chain]); }
    forall c | Holder(w', u, c) ensures Holder(w, u, c) { HolderKept(w, w', t, c, u); }
  }

  lemma HolderKept(w: World, w': World, t: nat, c: nat, u: nat)
    requires OthersStay(w, w', t) && Holder(w', u, c) && u != t
    ensures Holder(w, u, c)
  {
    if c in w.chains { assert Moves(w, t, c, w.chains[c], w'.chains[c]); }
  }

  lemma WorkKept(w: World, w': World, t: nat, u: nat)
    requires u in w.tasks && WorkOk(w, w.tasks[u]) && OthersStay(w, w', t) && u != t
    requires forall c | Closing(w, u, c) :: !Closing(w, t, c) && c in w.chains && (w.chains[c].closed ==>
             w.chains[c].status == Doomed)
    ensures u in w'.tasks && WorkOk(w', w'.tasks[u])
  {
    var th := w.tasks[u];
    if th.closing.Some? {
      assert Closing(w, u, th.closing.value);
      assert Moves(w, t, th.closing.value, w.chains[th.closing.value], w'.chains[th.closing.value]);
    }
    forall c | c in th.todo ensures c in w'.chains && w'.chains[c].status == Doomed {
      assert Moves(w, t, c, w.chains[c], w'.chains[c]);
    }
  }

  lemma ClosingFacts(w: World, u: nat, c: nat)
    requires TasksInv(w) && ChainsInv(w) && Closing(w, u, c)
    ensures c in w.chains && w.chains[c].closed && w.chains[c].status == Doomed
    ensures TokensLeft(w.chains[c], w.tasks[u].tokens)
    ensures forall t | Closing(w, t, c) :: t == u
  {
    assert WorkOk(w, w.tasks[u]);
    assert ChainOk(c, w.chains[c], w.nextToken);
  }

  lemma TasksKept(w: World, w': World, t: nat)
    requires TasksInv(w) && ChainsInv(w) && OthersStay(w, w', t) && t in w'.tasks
    requires UseOk(w', t, w'.tasks[t]) && WorkOk(w', w'.tasks[t])
    requires forall u: nat, c: nat | u != t && Closing(w, u, c) :: w'.tasks[t].closing != Some(c)
    ensures TasksInv(w')
  {
    hide ChainsInv, UseOk, WorkOk, Moves;
    forall u | u in w'.tasks ensures UseOk(w', u, w'.tasks[u]) && WorkOk(w', w'.tasks[u]) {
      if u != t {
        UseKept(w, w', t, u);
        forall c | Closing(w, u, c)
          ensures !Closing(w, t, c) && c in w.chains && (w.chains[c].closed ==> w.chains[c].status == Doomed)
        {
          ClosingFacts(w, u, c);
        }
        WorkKept(w, w', t, u);
      }
    }
    forall c, u | Holder(w', u, c) ensures u in w'.tasks {
      if u != t { HolderKept(w, w', t, c, u); }
    }
    forall x, u, c | Closing(w', x, c) && Closing(w', u, c) ensures x == u {
      if x != t { assert Closing(w, x, c); }
      if u != t { assert Closing(w, u, c); }
    }
  }

  // At most chain `c` is new or different.
  ghost predicate OnlyChain(w: World, w': World, c: nat) {
    w'.chains == w.chains || (c in w'.chains && w'.chains == w.chains[c := w'.chains[c]])
  }

  ghost predicate OneChain(w: World, w': World, c: nat) {
    w'.cache == w.cache && w'.liveInserts == w.liveInserts && OnlyChain(w, w', c)
  }

  lemma ChainsKept(w: World, w': World, t: nat, c: nat)
    requires ChainsInv(w) && OnlyChain(w, w', c) && w.nextToken <= w'.nextToken
    requires forall u | u in w.tasks :: u in w'.tasks
    requires w'.chains != w.chains ==>
               && c in w'.tasks && ChainOk(c, w'.chains[c], w'.nextToken)
               && forall x | x in w'.chains[c].tokensOpened ::
                    x == w.nextToken || (c in w.chains && x in w.chains[c].tokensOpened)
    ensures ChainsInv(w')
  {
    forall d | d in w'.chains ensures ChainOk(d, w'.chains[d], w'.nextToken) && d in w'.tasks {
      if w'.chains == w.chains || d != c { assert ChainOk(d, w.chains[d], w.nextToken); }
    }
    forall d | d in w'.chains && w'.chains != w.chains && d != c
      ensures Disjoint(w'.chains[c].tokensOpened, w'.chains[d].tokensOpened)
    {
      assert d in w.chains && w'.chains[d] == w.chains[d] && ChainOk(d, w.chains[d], w.nextToken);
      if c in w.chains { assert Disjoint(w.chains[c].tokensOpened, w.chains[d].tokensOpened); }
    }
  }

  lemma CacheKept(w: World, w': World, c: nat)
    requires CacheInv(w) && OneChain(w, w', c)
    requires c in w.chains && w.chains[c].status == InCache && c in w'.chains ==> w'.chains[c].status == InCache
    ensures CacheInv(w')
  {}

  lemma AccountKept(w: World, w': World, t: nat, d: nat, ch: Chain)
    requires Accounted(w, d, ch) && d in w.chains && ch == w.chains[d] && w'.liveInserts == w.liveInserts
    requires forall k | k in w.cache :: k in w'.cache && w'.cache[k] == w.cache[k]
    requires forall u | u != t && u in w.tasks :: u in w'.tasks && w'.tasks[u] == w.tasks[u]
    requires forall u | u != t && u in w'.tasks :: u in w.tasks
    requires Todo(w, t, d) && !ch.closed ==> Todo(w', t, d)
    requires Closing(w, t, d) && |ch.log| < |ch.tokensOpened| ==> Closing(w', t, d)
    requires d == t && t in w.tasks && (ch.status == Private || ch.status == Ready) ==>
               t in w'.tasks && w'.tasks[t].pc == w.tasks[t].pc && w'.tasks[t].chain == w.tasks[t].chain
    ensures Accounted(w', d, ch)
  {
    if ch.status == InCache {
      var k :| k in w.cache && w.cache[k] == d;
      assert w'.cache[k] == d;
    }
    if ch.status == Doomed && !ch.closed {
      var u :| Todo(w, u, d);
      assert Todo(w', u, d);
    }
    if ch.status == Doomed && ch.closed && |ch.log| < |ch.tokensOpened| {
      var u :| Closing(w, u, d);
      assert Closing(w', u, d);
    }
  }

  lemma ConservedKept(w: World, w': World, t: nat, c: nat)
    requires Conserved(w) && OneChain(w, w', c)
    requires forall u | u != t && u in w.tasks :: u in w'.tasks && w'.tasks[u] == w.tasks[u]
    requires forall u | u != t && u in w'.tasks :: u in w.tasks
    requires c in w'.chains && (w'.chains != w.chains || c == t) ==> Accounted(w', c, w'.chains[c])
    requires c in w.chains && w.chains[c].status == Dropped && c in w'.chains ==> w'.chains[c].status == Dropped
    requires forall d | d in w.chains && Todo(w, t, d) && !w.chains[d].closed && d != c :: Todo(w', t, d)
    requires forall d | d in w.chains && Closing(w, t, d) && |w.chains[d].log| < |w.chains[d].tokensOpened| && d != c ::
               Closing(w', t, d)
    requires w'.chains == w.chains && c in w.chains ==> Accounted(w', c, w.chains[c])
    requires t in w.tasks && t in w.chains && t != c
             && (w.chains[t].status == Private || w.chains[t].status == Ready) ==>
               t in w'.tasks && w'.tasks[t].pc == w.tasks[t].pc && w'.tasks[t].chain == w.tasks[t].chain
    ensures Conserved(w')
  {
    hide Accounted;
    forall d | d in w'.chains ensures Accounted(w', d, w'.chains[d]) {
      if d != c { AccountKept(w, w', t, d, w.chains[d]); }
    }
    if w.liveInserts > 0 {
      var d :| d in w.chains && w.chains[d].status == Dropped;
      assert d in w'.chains && w'.chains[d].status == Dropped;
    }
  }

  ghost predicate SameOtherTasks(w: World, w': World, t: nat) {
    && t in w'.tasks
    && forall u | u != t :: (u in w'.tasks <==> u in w.tasks) && (u in w.tasks ==> w'.tasks[u] == w.tasks[u])
  }

  // What a step of task `t` on chain `c` must show about the chain ...
  ghost predicate ChainStep(w: World, w': World, t: nat, c: nat) {
    && OneChain(w, w', c) && w.nextToken <= w'.nextToken
    && (c in w.chains ==> c in w'.chains)
    && (c in w'.chains ==>
          var ch' := w'.chains[c];
          && ChainOk(c, ch', w'.nextToken) && c in w'.tasks && Accounted(w', c, ch')
          && (c !in w.chains ==> c == t && ch'.holders <= {t} && ch'.tokensOpened == [w.nextToken])
          && (c in w.chains ==>
                var ch := w.chains[c];
                && Moves(w, t, c, ch, ch')
                && (ch'.tokensOpened == ch.tokensOpened || ch'.tokensOpened == ch.tokensOpened + [w.nextToken])
                && (ch.status == InCache ==> ch'.status == InCache) && (ch.status == Dropped ==>
                  ch'.status == Dropped)))
  }

  // ... and about the task.
  ghost predicate TaskStep(w: World, w': World, t: nat, c: nat) {
    && SameOtherTasks(w, w', t)
    && UseOk(w', t, w'.tasks[t]) && WorkOk(w', w'.tasks[t])
    && (w'.tasks[t].closing.Some? ==> var d := w'.tasks[t].closing.value; forall u | u != t :: !Closing(w, u, d))
    && (forall d | Todo(w, t, d) && d != c && d in w.chains && !w.chains[d].closed :: Todo(w', t, d))
    && (forall d | Closing(w, t, d) && d != c && d in w.chains && |w.chains[d].log| < |w.chains[d].tokensOpened| ::
          Closing(w', t, d))
    && (t in w.tasks && t in w.chains && t != c && (w.chains[t].status == Private || w.chains[t].status == Ready) ==>
          w'.tasks[t].pc == w.tasks[t].pc && w'.tasks[t].chain == w.tasks[t].chain)
  }

  lemma MovesRefl(w: World, t: nat, c: nat, ch: Chain)
    ensures Moves(w, t, c, ch, ch)
  {}

  lemma StayOthers(w: World, w': World, t: nat, c: nat)
    requires ChainStep(w, w', t, c) && SameOtherTasks(w, w', t)
    ensures OthersStay(w, w', t)
  {
    hide Moves, ChainOk, Accounted;
    forall d | d in w.chains ensures d in w'.chains && Moves(w, t, d, w.chains[d], w'.chains[d]) {
      MovesRefl(w, t, d, w.chains[d]);
    }
  }

  lemma OneStep(w: World, w': World, t: nat, c: nat)
    requires Inv(w) && ChainStep(w, w', t, c) && TaskStep(w, w', t, c)
    ensures Inv(w')
  {
    hide ChainsInv, TasksInv, CacheInv, Conserved, Moves, UseOk, WorkOk, Accounted, ChainOk;
    StayOthers(w, w', t, c);
    TasksKept(w, w', t);
    ChainsKept(w, w', t, c);
    CacheKept(w, w', c);
    ConservedKept(w, w', t, c);
  }

  // ---------- what the invariant says about one task and one chain ----------

  lemma TaskFacts(w: World, t: nat)
    requires TasksInv(w) && t in w.tasks
    ensures UseOk(w, t, w.tasks[t]) && WorkOk(w, w.tasks[t])
  {
    hide UseOk, WorkOk;
  }

  lemma ChainFacts(w: World, c: nat)
    requires ChainsInv(w) && Conserved(w) && c in w.chains
    ensures ChainOk(c, w.chains[c], w.nextToken) && Accounted(w, c, w.chains[c]) && c in w.tasks
  {
    hide ChainOk, Accounted;
  }

  lemma HolderFacts(w: World, t: nat, c: nat)
    requires TasksInv(w) && Holder(w, t, c)
    ensures t in w.tasks && w.tasks[t].chain == c && Counted(w.tasks[t].pc)
  {
    assert UseOk(w, t, w.tasks[t]);
  }

  lemma CacheFacts(w: World, key: string)
    requires CacheInv(w) && key in w.cache
    ensures w.cache[key] in w.chains && w.chains[w.cache[key]].status == InCache
  {}

  // The step of a task that changes no chain.
  lemma TaskOnly(w: World, w': World, t: nat)
    requires Inv(w) && w' == w.(tasks := w.tasks[t := TaskAt(w', t)])
    requires TaskStep(w, w', t, t) && (t in w.chains ==> Accounted(w', t, w.chains[t]))
    ensures Inv(w')
  {
    hide ChainsInv, TasksInv, CacheInv, Conserved;
    if t in w.chains {
      ChainFacts(w, t);
      MovesRefl(w, t, t, w.chains[t]);
    }
    hide TaskStep, Accounted, ChainOk, Moves;
    OneStep(w, w', t, t);
  }

  lemma UseMoves(w: World, w': World, t: nat, th: Task, pc: Pc)
    requires UseOk(w, t, th) && w'.chains == w.chains
    requires Fits(t, pc, th.chain, StatusOf(w, th.chain), Holder(w, t, th.chain), t in w.chains)
    ensures UseOk(w', t, th.(pc := pc))
  {
    hide Fits;
    assert forall c :: Holder(w', t, c) == Holder(w, t, c);
    assert StatusOf(w', th.chain) == StatusOf(w, th.chain);
  }

  lemma WorkMoves(w: World, w': World, th: Task, pc: Pc)
    requires WorkOk(w, th) && w'.chains == w.chains
    ensures WorkOk(w', th.(pc := pc))
  {}

  // A task with nothing to close moves on.
  lemma PcKeeps(w: World, t: nat, pc: Pc)
    requires Inv(w) && t in w.tasks && Free(w.tasks[t])
    requires Fits(t, pc, w.tasks[t].chain, StatusOf(w, w.tasks[t].chain), Holder(w, t, w.tasks[t].chain), t in w.chains)
    requires t in w.chains ==> Accounted(SetPc(w, t, pc), t, w.chains[t])
    ensures Inv(SetPc(w, t, pc))
  {
    hide ChainsInv, TasksInv, CacheInv, Conserved;
    TaskFacts(w, t);
    hide Fits, Accounted, UseOk, WorkOk, StatusOf, Holder;
    var w' := SetPc(w, t, pc);
    UseMoves(w, w', t, w.tasks[t], pc);
    WorkMoves(w, w', w.tasks[t], pc);
    assert TaskStep(w, w', t, t);
    hide TaskStep;
    TaskOnly(w, w', t);
  }

  lemma OpeningKeeps(w: World, t: nat, pc: Pc)
    requires Inv(w) && t in w.tasks && Free(w.tasks[t])
    requires (w.tasks[t].pc.Opening? && pc == Over) || (w.tasks[t].pc.LookUp? && pc.Opening?)
    ensures Inv(SetPc(w, t, pc))
  {
    hide ChainsInv, TasksInv, CacheInv, Conserved;
    TaskFacts(w, t);
    PcKeeps(w, t, pc);
  }

  // A chain that only its opener knows is accounted for by the opener's position.
  lemma OpenerAccounts(w: World, c: nat, ch: Chain)
    requires c in w.tasks && w.tasks[c].chain == c
    requires var pc := w.tasks[c].pc;
             || (ch.status == Private && (pc.Building? || pc.Marking? || pc == Using || pc == Releasing
               || pc == Testing))
             || (ch.status == Ready && pc.Inserting?)
    ensures Accounted(w, c, ch)
  {}

  lemma BuilderFacts(w: World, t: nat)
    requires TasksInv(w) && t in w.tasks
    requires w.tasks[t].pc.Building? || w.tasks[t].pc.Marking? || w.tasks[t].pc.Inserting?
    ensures w.tasks[t].chain == t && t in w.chains && Holder(w, t, t)
    ensures w.chains[t].status == if w.tasks[t].pc.Inserting? then Ready else Private
  {
    TaskFacts(w, t);
  }

  lemma BuiltKeeps(w: World, t: nat, pc: Pc)
    requires Inv(w) && t in w.tasks && Free(w.tasks[t])
    requires w.tasks[t].pc.Building? && (pc.Marking? || pc == Using)
    ensures Inv(SetPc(w, t, pc))
  {
    hide ChainsInv, TasksInv, CacheInv, Conserved;
    BuilderFacts(w, t);
    hide Accounted;
    OpenerAccounts(SetPc(w, t, pc), t, w.chains[t]);
    PcKeeps(w, t, pc);
  }

  lemma StartKeeps(w: World, t: nat, key: Option<string>)
    requires Inv(w) && Enabled(w, Start(t, key))
    ensures Inv(Next(w, Start(t, key)))
  {
    hide ChainsInv, TasksInv, CacheInv, Conserved, Accounted, ChainOk;
    var w' := Next(w, Start(t, key));
    if t in w.chains { ChainFacts(w, t); }
    forall c | Holder(w', t, c) ensures false { HolderFacts(w, t, c); }
    assert TaskStep(w, w', t, t);
    hide TaskStep;
    TaskOnly(w, w', t);
  }

  // ---------- steps on one chain ----------

  // A task that had nothing to close steps on chain `c`, which is or becomes its own.
  lemma OwnStep(w: World, w': World, t: nat, c: nat, th: Task)
    requires Inv(w) && t in w.tasks && Free(w.tasks[t]) && ChainStep(w, w', t, c)
    requires w'.tasks == w.tasks[t := th] && th.chain == c && th.closing.None? && th.tokens == []
    requires forall d | d in th.todo :: d in w'.chains && w'.chains[d].status == Doomed
    requires Fits(t, th.pc, c, StatusOf(w', c), Holder(w', t, c), t in w'.chains)
    requires forall d | Holder(w, t, d) :: d == c
    requires t != c && t in w.chains ==> w.chains[t].status != Private && w.chains[t].status != Ready
    ensures Inv(w')
  {
    hide ChainsInv, TasksInv, CacheInv, Conserved, Accounted, ChainOk, Moves, Fits, StatusOf;
    assert forall d | Holder(w', t, d) && d != c :: Holder(w, t, d);
    assert UseOk(w', t, th);
    hide UseOk;
    assert TaskStep(w, w', t, c);
    hide TaskStep, ChainStep;
    OneStep(w, w', t, c);
  }

  lemma OnlyHolds(w: World, t: nat, c: nat)
    requires TasksInv(w) && t in w.tasks && (w.tasks[t].chain == c || !Counted(w.tasks[t].pc))
    ensures forall d | Holder(w, t, d) :: d == c
  {
    hide UseOk, WorkOk, TasksInv;
    forall d | Holder(w, t, d) ensures d == c { HolderFacts(w, t, d); }
  }

  // A task that shares another task's chain has none of its own under construction.
  lemma NoOwn(w: World, t: nat)
    requires Conserved(w) && t in w.tasks && t in w.chains && w.tasks[t].chain != t
    ensures w.chains[t].status != Private && w.chains[t].status != Ready
  {
    assert Accounted(w, t, w.chains[t]);
  }

  lemma HitKeeps(w: World, t: nat, now: int)
    requires Inv(w) && Enabled(w, LookUpKey(t, now)) && w.tasks[t].pc.key in w.cache
    ensures Inv(LookedUp(w, t, now))
  {
    hide ChainsInv, TasksInv, CacheInv, Conserved;
    var w' := LookedUp(w, t, now);
    var c := w.cache[w.tasks[t].pc.key];
    TaskFacts(w, t);
    CacheFacts(w, w.tasks[t].pc.key);
    ChainFacts(w, c);
    OnlyHolds(w, t, c);
    assert !Holder(w, t, c) by { if Holder(w, t, c) { HolderFacts(w, t, c); } }
    assert w'.cache[w.tasks[t].pc.key] == c;
    assert ChainStep(w, w', t, c);
    hide ChainStep, ChainOk, Accounted;
    OwnStep(w, w', t, c, w'.tasks[t]);
  }

  lemma OpenRootKeeps(w: World, t: nat, now: int)
    requires Inv(w) && Enabled(w, OpenRoot(t, now))
    ensures Inv(Next(w, OpenRoot(t, now)))
  {
    hide ChainsInv, TasksInv, CacheInv, Conserved;
    var w' := Next(w, OpenRoot(t, now));
    TaskFacts(w, t);
    OnlyHolds(w, t, t);
    assert ChainStep(w, w', t, t);
    hide ChainStep, ChainOk, Accounted;
    OwnStep(w, w', t, t, w'.tasks[t]);
  }

  lemma OpenChildKeeps(w: World, t: nat)
    requires Inv(w) && Enabled(w, OpenChild(t))
    ensures Inv(Next(w, OpenChild(t)))
  {
    hide ChainsInv, TasksInv, CacheInv, Conserved;
    var w' := Next(w, OpenChild(t));
    TaskFacts(w, t);
    BuilderFacts(w, t);
    ChainFacts(w, t);
    OnlyHolds(w, t, t);
    assert w'.tasks == w.tasks[t := w.tasks[t]];
    assert ChainOk(t, w'.chains[t], w'.nextToken) by {
      assert forall i | 0 <= i < |w.chains[t].tokensOpened| :: w.chains[t].tokensOpened[i] in w.chains[t].tokensOpened;
    }
    assert ChainStep(w, w', t, t);
    hide ChainStep, ChainOk, Accounted;
    OwnStep(w, w', t, t, w.tasks[t]);
  }

  lemma BuildFailsKeeps(w: World, t: nat)
    requires Inv(w) && Enabled(w, BuildFails(t))
    ensures Inv(Next(w, BuildFails(t)))
  {
    hide ChainsInv, TasksInv, CacheInv, Conserved;
    var w' := Next(w, BuildFails(t));
    TaskFacts(w, t);
    BuilderFacts(w, t);
    ChainFacts(w, t);
    OnlyHolds(w, t, t);
    assert Todo(w', t, t);
    assert ChainStep(w, w', t, t);
    hide ChainStep, ChainOk, Accounted;
    OwnStep(w, w', t, t, w'.tasks[t]);
  }

  lemma MarkKeeps(w: World, t: nat)
    requires Inv(w) && Enabled(w, Mark(t))
    ensures Inv(Next(w, Mark(t)))
  {
    hide ChainsInv, TasksInv, CacheInv, Conserved;
    var w' := Next(w, Mark(t));
    TaskFacts(w, t);
    BuilderFacts(w, t);
    ChainFacts(w, t);
    OnlyHolds(w, t, t);
    assert ChainStep(w, w', t, t);
    hide ChainStep, ChainOk, Accounted;
    OwnStep(w, w', t, t, w'.tasks[t]);
  }

  lemma TouchKeeps(w: World, t: nat, now: int)
    requires Inv(w) && Enabled(w, Touch(t, now))
    ensures Inv(Next(w, Touch(t, now)))
  {
    hide ChainsInv, TasksInv, CacheInv, Conserved;
    var w' := Next(w, Touch(t, now));
    var c := w.tasks[t].chain;
    TaskFacts(w, t);
    ChainFacts(w, c);
    OnlyHolds(w, t, c);
    if t in w.chains && c != t { NoOwn(w, t); }
    assert ChainStep(w, w', t, c);
    hide ChainStep, ChainOk, Accounted;
    OwnStep(w, w', t, c, w'.tasks[t]);
  }

  lemma DecrementKeeps(w: World, t: nat)
    requires Inv(w) && Enabled(w, Decrement(t))
    ensures Inv(Next(w, Decrement(t)))
  {
    hide ChainsInv, TasksInv, CacheInv, Conserved;
    var w' := Next(w, Decrement(t));
    var c := w.tasks[t].chain;
    TaskFacts(w, t);
    ChainFacts(w, c);
    OnlyHolds(w, t, c);
    if t in w.chains && c != t { NoOwn(w, t); }
    if w.chains[c].status == Private { PrivateHolders(w, c); }
    assert |w.chains[c].holders - {t}| == |w.chains[c].holders| - 1;
    assert ChainOk(c, w'.chains[c], w'.nextToken);
    hide ChainOk;
    assert Accounted(w', c, w'.chains[c]);
    hide Accounted;
    assert ChainStep(w, w', t, c);
    hide ChainStep;
    OwnStep(w, w', t, c, w'.tasks[t]);
  }

  // Nobody but its opener counts as a user of a chain that only the opener knows.
  lemma PrivateHolders(w: World, c: nat)
    requires TasksInv(w) && c in w.chains && w.chains[c].status == Private
    ensures |w.chains[c].holders| <= 1
  {
    forall u | u in w.chains[c].holders ensures u == c {
      assert Holder(w, u, c);
      HolderFacts(w, u, c);
      TaskFacts(w, u);
    }
    SubsetSize(w.chains[c].holders, {c});
  }

  lemma TestCachedKeeps(w: World, t: nat)
    requires Inv(w) && Enabled(w, TestCached(t))
    ensures Inv(Next(w, TestCached(t)))
  {
    hide ChainsInv, TasksInv, CacheInv, Conserved;
    TaskFacts(w, t);
    if ChainAt(w, w.tasks[t].chain).cached {
      ChainFacts(w, w.tasks[t].chain);
      if t in w.chains {
        if w.tasks[t].chain != t { NoOwn(w, t); }
        SharedAccount(w, t);
      }
      hide ChainOk, Accounted;
      PcKeeps(w, t, Sweeping);
    } else {
      LastUserCloses(w, t);
    }
  }

  lemma LastUserCloses(w: World, t: nat)
    requires Inv(w) && Enabled(w, TestCached(t)) && !ChainAt(w, w.tasks[t].chain).cached
    ensures Inv(Next(w, TestCached(t)))
  {
    hide ChainsInv, TasksInv, CacheInv, Conserved;
    var w' := Next(w, TestCached(t));
    var c := w.tasks[t].chain;
    TaskFacts(w, t);
    ChainFacts(w, c);
    OnlyHolds(w, t, c);
    if t in w.chains && c != t { NoOwn(w, t); }
    NotHolding(w, t);
    assert Todo(w', t, c);
    if w.chains[c].status == Doomed {
      assert w'.chains[c] == w.chains[c] && !Closing(w, t, c);
      AccountKept(w, w', t, c, w.chains[c]);
    }
    assert ChainOk(c, w'.chains[c], w'.nextToken);
    hide ChainOk;
    assert Accounted(w', c, w'.chains[c]);
    hide Accounted;
    assert ChainStep(w, w', t, c);
    hide ChainStep;
    OwnStep(w, w', t, c, w'.tasks[t]);
  }

  lemma NotHolding(w: World, t: nat)
    requires TasksInv(w) && t in w.tasks && !Counted(w.tasks[t].pc)
    ensures forall c :: !Holder(w, t, c)
  {
    hide TasksInv;
    forall c | Holder(w, t, c) ensures false { HolderFacts(w, t, c); }
  }

  // The opener's position does not matter once the chain is marked.
  lemma SharedAccount(w: World, t: nat)
    requires Conserved(w) && t in w.tasks && t in w.chains && Free(w.tasks[t])
    requires w.chains[t].status != Private && w.chains[t].status != Ready
    ensures forall pc :: Accounted(SetPc(w, t, pc), t, w.chains[t])
  {
    forall pc ensures Accounted(SetPc(w, t, pc), t, w.chains[t]) {
      assert Accounted(w, t, w.chains[t]);
      assert !Todo(w, t, t) && !Closing(w, t, t);
      AccountKept(w, SetPc(w, t, pc), t, t, w.chains[t]);
    }
  }

  // ---------- closing ----------

  // The task's own position is not touched by what it closes.
  lemma UseSame(w: World, w': World, t: nat, th: Task, th': Task)
    requires UseOk(w, t, th) && th'.pc == th.pc && th'.chain == th.chain && (t in w.chains <==> t in w'.chains)
    requires forall c :: StatusOf(w', c) == StatusOf(w, c) && Holder(w', t, c) == Holder(w, t, c)
    ensures UseOk(w', t, th')
  {
    hide Fits, StatusOf, Holder;
  }

  lemma CloseFirst(w: World, t: nat, c: nat)
    requires Inv(w) && t in w.tasks && w.tasks[t].closing.None? && w.tasks[t].todo != [] && c == w.tasks[t].todo[0]
    requires !ChainAt(w, c).closed
    ensures Inv(Next(w, CloseNext(t)))
  {
    hide ChainsInv, TasksInv, CacheInv, Conserved;
    var w' := Next(w, CloseNext(t));
    TaskFacts(w, t);
    ChainFacts(w, c);
    UseSame(w, w', t, w.tasks[t], w'.tasks[t]);
    assert Closing(w', t, c);
    assert ChainStep(w, w', t, c);
    forall u | Closing(w, u, c) ensures false { ClosingFacts(w, u, c); }
    hide ChainOk, Accounted, UseOk, ChainStep, Moves;
    assert w'.tasks[t].todo == w.tasks[t].todo[1..];
    forall d | Todo(w, t, d) && d != c ensures Todo(w', t, d) {}
    assert TokensLeft(w'.chains[c], w'.tasks[t].tokens);
    assert TaskStep(w, w', t, c);
    hide TaskStep;
    OneStep(w, w', t, c);
  }

  // The task drops work that is done: a chain that somebody else closed, or its own last token.
  lemma WorkDone(w: World, t: nat, th: Task)
    requires Inv(w) && t in w.tasks
    requires || (w.tasks[t].closing.None? && w.tasks[t].todo != [] && ChainAt(w, w.tasks[t].todo[0]).closed
                 && th == w.tasks[t].(todo := w.tasks[t].todo[1..]))
             || (w.tasks[t].closing.Some? && w.tasks[t].tokens == [] && th == w.tasks[t].(closing := None))
    ensures Inv(SetTask(w, t, th))
  {
    hide ChainsInv, TasksInv, CacheInv, Conserved;
    var w' := SetTask(w, t, th);
    TaskFacts(w, t);
    UseSame(w, w', t, w.tasks[t], th);
    hide UseOk;
    forall d | Todo(w, t, d) && d in w.chains && !w.chains[d].closed ensures Todo(w', t, d) {}
    if t in w.chains {
      ChainFacts(w, t);
      hide ChainOk;
      AccountKept(w, w', t, t, w.chains[t]);
    }
    hide Accounted;
    assert TaskStep(w, w', t, t);
    hide TaskStep;
    TaskOnly(w, w', t);
  }

  lemma CloseTokenKeeps(w: World, t: nat)
    requires Inv(w) && t in w.tasks && w.tasks[t].closing.Some? && w.tasks[t].tokens != []
    ensures Inv(Next(w, CloseToken(t)))
  {
    hide ChainsInv, TasksInv, CacheInv, Conserved;
    var w' := Next(w, CloseToken(t));
    var c := w.tasks[t].closing.value;
    TaskFacts(w, t);
    ChainFacts(w, c);
    ClosingFacts(w, t, c);
    UseSame(w, w', t, w.tasks[t], w'.tasks[t]);
    assert Closing(w', t, c);
    assert ChainStep(w, w', t, c);
    hide ChainOk, Accounted, UseOk, ChainStep, Moves;
    assert TokensLeft(w'.chains[c], w'.tasks[t].tokens);
    assert WorkOk(w', w'.tasks[t]);
    assert TaskStep(w, w', t, c);
    hide TaskStep;
    OneStep(w, w', t, c);
  }

  // ---------- insertion ----------

  // The entry under the key gives way; its chain stays marked as cached and is in nobody's hands.
  function Displaced(w: World, key: string): World
    requires key in w.cache
  {
    SetChain(w, w.cache[key], ChainAt(w, w.cache[key]).(status := Dropped))
    .(cache := w.cache - {key}, liveInserts := w.liveInserts + 1)
  }

  lemma DisplacedKeeps(w: World, t: nat, key: string)
    requires Inv(w) && key in w.cache && t in w.tasks && Free(w.tasks[t])
    ensures Inv(Displaced(w, key))
  {
    hide ChainsInv, TasksInv, CacheInv, Conserved;
    var w' := Displaced(w, key);
    var c := w.cache[key];
    CacheFacts(w, key);
    ChainFacts(w, c);
    TaskFacts(w, t);
    assert ChainOk(c, w'.chains[c], w'.nextToken);
    ChainsKept(w, w', t, c);
    hide ChainOk, ChainsInv;
    DisplacedTasks(w, t, key);
    DisplacedCache(w, key);
    DisplacedAccounts(w, key);
  }

  lemma DisplacedTasks(w: World, t: nat, key: string)
    requires Inv(w) && key in w.cache && t in w.tasks && Free(w.tasks[t])
    ensures TasksInv(Displaced(w, key))
  {
    hide ChainsInv, TasksInv, CacheInv, Conserved;
    var w' := Displaced(w, key);
    CacheFacts(w, key);
    TaskFacts(w, t);
    forall d | d in w.chains ensures d in w'.chains && Moves(w, t, d, w.chains[d], w'.chains[d]) {
      MovesRefl(w, t, d, w.chains[d]);
    }
    assert forall d :: Holder(w', t, d) == Holder(w, t, d);
    assert UseOk(w', t, w'.tasks[t]) && WorkOk(w', w'.tasks[t]);
    hide UseOk, WorkOk, Moves;
    TasksKept(w, w', t);
  }

  lemma DisplacedCache(w: World, key: string)
    requires CacheInv(w) && key in w.cache
    ensures CacheInv(Displaced(w, key))
  {}

  lemma DisplacedAccounts(w: World, key: string)
    requires Conserved(w) && CacheInv(w) && key in w.cache
    ensures Conserved(Displaced(w, key))
  {
    var w', c := Displaced(w, key), w.cache[key];
    CacheFacts(w, key);
    hide CacheInv;
    forall d | d in w'.chains ensures Accounted(w', d, w'.chains[d]) {
      if d != c {
        assert Accounted(w, d, w.chains[d]);
        if w.chains[d].status == InCache {
          var k :| k in w.cache && w.cache[k] == d;
          assert w'.cache[k] == d;
        }
        if u :| Todo(w, u, d) { assert Todo(w', u, d); }
        if u :| Closing(w, u, d) { assert Closing(w', u, d); }
      }
    }
    assert w'.chains[c].status == Dropped;
  }

  lemma InsertFresh(w: World, t: nat)
    requires Inv(w) && t in w.tasks && Free(w.tasks[t]) && w.tasks[t].pc.Inserting? && w.tasks[t].pc.key !in w.cache
    ensures Inv(Inserted(w, t))
  {
    hide ChainsInv, TasksInv, CacheInv, Conserved;
    var w' := Inserted(w, t);
    BuilderFacts(w, t);
    ChainFacts(w, t);
    assert ChainOk(t, w'.chains[t], w'.nextToken);
    ChainsKept(w, w', t, t);
    hide ChainOk;
    InsertedTasks(w, t);
    InsertedCache(w, t);
    InsertedAccounts(w, t);
  }

  lemma InsertedTasks(w: World, t: nat)
    requires Inv(w) && t in w.tasks && Free(w.tasks[t]) && w.tasks[t].pc.Inserting? && w.tasks[t].pc.key !in w.cache
    ensures TasksInv(Inserted(w, t))
  {
    hide ChainsInv, TasksInv, CacheInv, Conserved;
    var w' := Inserted(w, t);
    BuilderFacts(w, t);
    TaskFacts(w, t);
    forall d | d in w.chains ensures d in w'.chains && Moves(w, t, d, w.chains[d], w'.chains[d]) {
      MovesRefl(w, t, d, w.chains[d]);
    }
    assert forall d :: Holder(w', t, d) == Holder(w, t, d);
    assert UseOk(w', t, w'.tasks[t]) && WorkOk(w', w'.tasks[t]);
    hide UseOk, WorkOk, Moves;
    TasksKept(w, w', t);
  }

  lemma InsertedCache(w: World, t: nat)
    requires CacheInv(w) && t in w.tasks && w.tasks[t].pc.Inserting? && w.tasks[t].pc.key !in w.cache
    requires t in w.chains && w.chains[t].status == Ready
    ensures CacheInv(Inserted(w, t))
  {}

  lemma InsertedAccounts(w: World, t: nat)
    requires Conserved(w) && t in w.tasks && Free(w.tasks[t]) && w.tasks[t].pc.Inserting?
             && w.tasks[t].pc.key !in w.cache
    requires t in w.chains && w.chains[t].status == Ready
    ensures Conserved(Inserted(w, t))
  {
    var w' := Inserted(w, t);
    hide Accounted;
    forall d | d in w'.chains ensures Accounted(w', d, w'.chains[d]) {
      if d != t {
        assert Accounted(w, d, w.chains[d]);
        AccountKept(w, w', t, d, w.chains[d]);
      } else {
        NowInCache(w', t, w.tasks[t].pc.key);
      }
    }
    if w.liveInserts > 0 {
      var d :| d in w.chains && w.chains[d].status == Dropped;
      assert w'.chains[d].status == Dropped;
    }
  }

  lemma NowInCache(w: World, c: nat, key: string)
    requires key in w.cache && w.cache[key] == c && c in w.chains && w.chains[c].status == InCache
    ensures Accounted(w, c, w.chains[c])
  {}

  lemma SameInsertion(w: World, t: nat, key: string)
    requires t in w.tasks && w.tasks[t].pc == Inserting(key) && key in w.cache && w.cache[key] != t && t in w.chains
    ensures Inserted(Displaced(w, key), t) == Inserted(w, t)
  {
    assert (w.cache - {key})[key := t] == w.cache[key := t];
  }

  lemma InsertKeeps(w: World, t: nat)
    requires Inv(w) && Enabled(w, Insert(t))
    ensures Inv(Next(w, Insert(t)))
  {
    hide ChainsInv, TasksInv, CacheInv, Conserved;
    var key := w.tasks[t].pc.key;
    BuilderFacts(w, t);
    if key in w.cache {
      CacheFacts(w, key);
      SameInsertion(w, t, key);
      DisplacedKeeps(w, t, key);
      hide Inv, Inserted;
      InsertFresh(Displaced(w, key), t);
    } else {
      InsertFresh(w, t);
    }
  }

  // ---------- taking chains out of the cache ----------

  // Nobody uses the chains under these keys, and the task may go on to `pc`.
  ghost predicate MayTake(w: World, t: nat, gone: seq<string>, pc: Pc) {
    && Free(TaskAt(w, t)) && WorkOk(w, TaskAt(w, t))
    && (forall k | k in gone :: k in w.cache && w.cache[k] in w.chains && w.chains[w.cache[k]].holders == {}
                                && w.chains[w.cache[k]].status == InCache)
    && (forall c | Holder(w, t, c) :: c == TaskAt(w, t).chain && (pc == Using && TaskAt(w, t).pc == PruneLast))
    && (pc == Over || pc.LookUp? || pc == Using)
    && (pc == Using ==> t in w.tasks && TaskAt(w, t).pc == PruneLast && UseOk(w, t, w.tasks[t]))
    && (pc.LookUp? ==> t !in w.chains)
    && (t in w.chains ==> w.chains[t].status != Private && w.chains[t].status != Ready)
  }

  lemma TakenFacts(w: World, t: nat, gone: seq<string>, pc: Pc)
    requires MayTake(w, t, gone, pc)
    ensures forall c | c in Chosen(w.cache, gone) ::
            c in w.chains && w.chains[c].holders == {} && w.chains[c].status == InCache
    ensures forall c | c in Chosen(w.cache, gone) :: !Holder(w, t, c)
  {
    hide WorkOk, UseOk;
    forall c | c in Chosen(w.cache, gone)
      ensures c in w.chains && w.chains[c].holders == {} && w.chains[c].status == InCache
    {
      var k :| k in gone && k in w.cache && w.cache[k] == c;
    }
  }

  lemma TakeChains(w: World, t: nat, gone: seq<string>, pc: Pc, destroy: bool)
    requires ChainsInv(w) && MayTake(w, t, gone, pc)
    ensures ChainsInv(Take(w, t, gone, pc, destroy))
  {
    TakenFacts(w, t, gone, pc);
    var w' := Take(w, t, gone, pc, destroy);
    hide MayTake;
    forall c | c in w'.chains ensures ChainOk(c, w'.chains[c], w'.nextToken) && c in w'.tasks {
      assert ChainOk(c, w.chains[c], w.nextToken);
    }
    forall c, d | c in w'.chains && d in w'.chains && c != d
      ensures Disjoint(w'.chains[c].tokensOpened, w'.chains[d].tokensOpened)
    {
      assert w'.chains[c].tokensOpened == w.chains[c].tokensOpened
        && w'.chains[d].tokensOpened == w.chains[d].tokensOpened;
    }
  }

  lemma TakeTasks(w: World, t: nat, gone: seq<string>, pc: Pc, destroy: bool)
    requires ChainsInv(w) && TasksInv(w) && MayTake(w, t, gone, pc)
    ensures TasksInv(Take(w, t, gone, pc, destroy))
  {
    hide ChainsInv, TasksInv;
    TakenFacts(w, t, gone, pc);
    var w' := Take(w, t, gone, pc, destroy);
    forall d | d in w.chains ensures d in w'.chains && Moves(w, t, d, w.chains[d], w'.chains[d]) {
      MovesRefl(w, t, d, w.chains[d]);
    }
    hide Moves;
    assert forall d :: Holder(w', t, d) == Holder(w, t, d);
    assert WorkOk(w', w'.tasks[t]);
    hide WorkOk;
    assert UseOk(w', t, w'.tasks[t]);
    hide UseOk;
    TasksKept(w, w', t);
  }

  lemma TakeCache(w: World, t: nat, gone: seq<string>, pc: Pc, destroy: bool)
    requires CacheInv(w)
    ensures CacheInv(Take(w, t, gone, pc, destroy))
  {
    var w' := Take(w, t, gone, pc, destroy);
    forall k | k in w'.cache ensures w'.cache[k] in w'.chains && w'.chains[w'.cache[k]].status == InCache {
      assert w.cache[k] !in Chosen(w.cache, gone);
    }
  }

  lemma StillAccounted(w: World, t: nat, gone: seq<string>, pc: Pc, destroy: bool, d: nat)
    requires MayTake(w, t, gone, pc) && d in w.chains && d !in Chosen(w.cache, gone) && Accounted(w, d, w.chains[d])
    ensures Accounted(Take(w, t, gone, pc, destroy), d, w.chains[d])
  {
    hide UseOk, WorkOk;
    var w' := Take(w, t, gone, pc, destroy);
    if w.chains[d].status == InCache {
      var k :| k in w.cache && w.cache[k] == d;
      assert k !in gone && w'.cache[k] == d;
    }
    if u :| Todo(w, u, d) { assert u != t && Todo(w', u, d); }
    if u :| Closing(w, u, d) { assert u != t && Closing(w', u, d); }
  }

  lemma NowDoomed(w: World, t: nat, d: nat)
    requires Todo(w, t, d) && d in w.chains && w.chains[d].status == Doomed && !w.chains[d].closed
    ensures Accounted(w, d, w.chains[d])
  {}

  lemma DroppedWitness(w: World)
    requires Conserved(w)
    ensures w.liveInserts > 0 ==> exists d :: d in w.chains && w.chains[d].status == Dropped
  {
    hide Accounted;
  }

  lemma TakeAccounts(w: World, t: nat, gone: seq<string>, pc: Pc, destroy: bool)
    requires ChainsInv(w) && Conserved(w) && MayTake(w, t, gone, pc)
    ensures Conserved(Take(w, t, gone, pc, destroy))
  {
    TakenFacts(w, t, gone, pc);
    var w' := Take(w, t, gone, pc, destroy);
    hide MayTake, ChainsInv, Conserved, Accounted;
    forall d | d in w'.chains ensures Accounted(w', d, w'.chains[d]) {
      ChainFacts(w, d);
      if d in Chosen(w.cache, gone) {
        assert Todo(w', t, d);
        NowDoomed(w', t, d);
      } else {
        StillAccounted(w, t, gone, pc, destroy, d);
      }
    }
    DroppedWitness(w);
    hide ChainOk;
    if w.liveInserts > 0 {
      var d :| d in w.chains && w.chains[d].status == Dropped;
      assert w'.chains[d].status == Dropped;
    }
    assert Conserved(w') by { ConservedBy(w'); }
  }

  lemma ConservedBy(w: World)
    requires forall c | c in w.chains :: Accounted(w, c, w.chains[c])
    requires w.liveInserts > 0 ==> exists c :: c in w.chains && w.chains[c].status == Dropped
    ensures Conserved(w)
  {
    hide Accounted;
  }

  lemma TakeKeeps(w: World, t: nat, gone: seq<string>, pc: Pc, destroy: bool)
    requires Inv(w) && MayTake(w, t, gone, pc)
    ensures Inv(Take(w, t, gone, pc, destroy))
  {
    hide ChainsInv, TasksInv, CacheInv, Conserved, MayTake, Take;
    TakeChains(w, t, gone, pc, destroy);
    TakeTasks(w, t, gone, pc, destroy);
    TakeCache(w, t, gone, pc, destroy);
    TakeAccounts(w, t, gone, pc, destroy);
  }

  // ---------- prune, sweep and destroy ----------

  lemma PruneKeeps(w: World, t: nat, gone: seq<string>, now: int)
    requires Inv(w) && Enabled(w, Prune(t, gone, now))
    ensures Inv(Next(w, Prune(t, gone, now)))
  {
    hide ChainsInv, TasksInv, CacheInv, Conserved;
    var pc := if w.tasks[t].pc.PruneFirst? then LookUp(w.tasks[t].pc.key) else Using;
    PrunedIdle(w, gone, now);
    hide PruneOk;
    TaskFacts(w, t);
    OnlyHolds(w, t, w.tasks[t].chain);
    if w.tasks[t].pc.PruneFirst? { NotHolding(w, t); }
    hide ChainOk, WorkOk, Accounted;
    TakeKeeps(w, t, gone, pc, false);
  }

  // What a prune takes has no user.
  lemma PrunedIdle(w: World, gone: seq<string>, now: int)
    requires Inv(w) && DistinctKeys(w.cache, gone) && PruneOk(Views(w, w.cache), Views(w, Without(w.cache, gone)), now)
    ensures forall k | k in gone :: k in w.cache && w.cache[k] in w.chains && w.chains[w.cache[k]].holders == {}
                                    && w.chains[w.cache[k]].status == InCache
  {
    hide ChainsInv, TasksInv, CacheInv, Conserved;
    forall k | k in gone
      ensures k in w.cache && w.cache[k] in w.chains && w.chains[w.cache[k]].holders == {}
              && w.chains[w.cache[k]].status == InCache
    {
      CacheFacts(w, k);
      ChainFacts(w, w.cache[k]);
      assert k !in Views(w, Without(w.cache, gone)) && k in Views(w, w.cache);
    }
  }

  // Every chain in the cache is marked as cached, so a sweep finds nothing.
  lemma SweepFindsNothing(w: World, t: nat, gone: seq<string>)
    requires Inv(w) && Enabled(w, Sweep(t, gone))
    ensures gone == []
  {
    hide ChainsInv, TasksInv, CacheInv, Conserved;
    if gone != [] {
      var k := gone[0];
      assert k in gone;
      CacheFacts(w, k);
      ChainFacts(w, w.cache[k]);
    }
  }

  lemma SweepKeeps(w: World, t: nat, gone: seq<string>)
    requires Inv(w) && Enabled(w, Sweep(t, gone))
    ensures Inv(Next(w, Sweep(t, gone)))
  {
    hide ChainsInv, TasksInv, CacheInv, Conserved;
    SweepFindsNothing(w, t, gone);
    TaskFacts(w, t);
    NotHolding(w, t);
    if t in w.chains { SweeperShares(w, t); }
    hide WorkOk, UseOk;
    TakeKeeps(w, t, gone, Over, false);
  }

  lemma SweeperShares(w: World, t: nat)
    requires Conserved(w) && t in w.tasks && t in w.chains && w.tasks[t].pc == Sweeping
    ensures w.chains[t].status != Private && w.chains[t].status != Ready
  {
    assert Accounted(w, t, w.chains[t]);
  }

  lemma DestroyKeeps(w: World, t: nat, gone: seq<string>)
    requires Inv(w) && Enabled(w, Destroy(t, gone))
    ensures Inv(Next(w, Destroy(t, gone)))
  {
    hide ChainsInv, TasksInv, CacheInv, Conserved;
    forall k | k in gone
      ensures k in w.cache && w.cache[k] in w.chains && w.chains[w.cache[k]].holders == {}
              && w.chains[w.cache[k]].status == InCache
    {
      CacheFacts(w, k);
      forall u | u in w.chains[w.cache[k]].holders ensures false {
        assert Holder(w, u, w.cache[k]);
        HolderFacts(w, u, w.cache[k]);
        TaskFacts(w, u);
      }
    }
    forall c | Holder(w, t, c) ensures false { HolderFacts(w, t, c); }
    if t in w.chains { ChainFacts(w, t); }
    hide ChainOk, Accounted;
    TakeKeeps(w, t, gone, Over, true);
  }

  // ---------- every step keeps the invariant ----------

  lemma ClosingKeeps(w: World, step: Step)
    requires Inv(w) && Enabled(w, step) && (step.CloseNext? || step.CloseToken?)
    ensures Inv(Next(w, step))
  {
    hide Inv;
    var t := step.t;
    if step.CloseNext? {
      if ChainAt(w, w.tasks[t].todo[0]).closed {
        WorkDone(w, t, w.tasks[t].(todo := w.tasks[t].todo[1..]));
      } else {
        CloseFirst(w, t, w.tasks[t].todo[0]);
      }
    } else if w.tasks[t].tokens == [] {
      WorkDone(w, t, w.tasks[t].(closing := None));
    } else {
      CloseTokenKeeps(w, t);
    }
  }

  lemma StepKeepsInv(w: World, step: Step)
    requires Inv(w) && Enabled(w, step)
    ensures Inv(Next(w, step))
  {
    hide Inv, Take, LookedUp, Inserted;
    match step
    case Start(t, key) => StartKeeps(w, t, key);
    case Prune(t, gone, now) => PruneKeeps(w, t, gone, now);
    case LookUpKey(t, now) => LookUpKeeps(w, t, now);
    case OpenRoot(t, now) => OpenRootKeeps(w, t, now);
    case OpenFails(t) => OpeningKeeps(w, t, Over);
    case OpenChild(t) => OpenChildKeeps(w, t);
    case BuildFails(t) => BuildFailsKeeps(w, t);
    case Built(t) =>
      var pc := w.tasks[t].pc;
      BuiltKeeps(w, t, if pc.cacheKey.Some? then Marking(pc.cacheKey.value) else Using);
    case Mark(t) => MarkKeeps(w, t);
    case Insert(t) => InsertKeeps(w, t);
    case Touch(t, now) => TouchKeeps(w, t, now);
    case Decrement(t) => DecrementKeeps(w, t);
    case TestCached(t) => TestCachedKeeps(w, t);
    case Sweep(t, gone) => SweepKeeps(w, t, gone);
    case CloseNext(_) => ClosingKeeps(w, step);
    case CloseToken(_) => ClosingKeeps(w, step);
    case Destroy(t, gone) => DestroyKeeps(w, t, gone);
  }

  lemma LookUpKeeps(w: World, t: nat, now: int)
    requires Inv(w) && Enabled(w, LookUpKey(t, now))
    ensures Inv(LookedUp(w, t, now))
  {
    hide Inv;
    if w.tasks[t].pc.key in w.cache {
      HitKeeps(w, t, now);
    } else {
      OpeningKeeps(w, t, Opening(Some(w.tasks[t].pc.key)));
    }
  }

  lemma InitInv()
    ensures Inv(Init())
  {}

  lemma {:induction false} RunKeepsInv(w: World, steps: seq<Step>)
    requires Inv(w) && Legal(w, steps)
    ensures Inv(Run(w, steps))
    decreases |steps|
  {
    hide Inv, Next, Enabled;
    if steps != [] {
      StepKeepsInv(w, steps[0]);
      RunKeepsInv(Next(w, steps[0]), steps[1..]);
    }
  }
}
