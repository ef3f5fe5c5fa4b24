/**
  Password prompts of a Quick Look session: requests that share a prompt slot or
  open a new one, the dispatcher that shows one prompt at a time, the handles that
  answer them, and cancel-alls, in any number at once. Every critical section and
  every atomic operation on a waiter count is one step. A prompt slot and its
  dispatch entry carry the number of the request that created them.
 */
module PromptDispatch {
  import opened Basics
  import opened PromptQueue

  datatype Reply = Canceled | Provided(password: string)

  datatype Pc =
    | Created                  // has a new slot and entry, about to queue the entry
    | DispatchNow              // its entry became active at once: about to dispatch it
    | AwaitDispatch
    | Prompting                // its entry was dispatched: about to read the callback
    | AwaitCompletion          // there was no callback: completes its own prompt
    | AwaitSlot
    | Leaving(reply: Reply)    // about to give up its place in the waiter count
    | Erasing(reply: Reply)    // was the last waiter: about to drop the slot
    | Returned(reply: Reply)

  datatype Thread = Thread(key: string, slot: nat, pc: Pc)

  // How far the completion of a prompt is, by its handle or by the request without a callback.
  datatype At = Offered | Advancing(current: nat) | Dispatching(next: nat) | Finished

  datatype Completer = Completer(handle: bool, at: At)

  // What a running cancel-all still has to mark and to finish.
  datatype CancelAll = CancelAll(dispatches: seq<nat>, slots: set<nat>)

  datatype Dispatcher = Dispatcher(
    board: Board,
    dispatched: set<nat>, canceled: set<nat>,  // the entries with the flag set
    arrivals: seq<nat>,                        // history: entries in the order of their queueing
    activated: seq<nat>,                       // history: positions in `arrivals`, as they became active
    completed: set<nat>,                       // history: entries whose completion passed its section
    revoked: set<nat>)                         // history: entries taken off the board by a cancel-all

  datatype Slots = Slots(
    pending: map<string, nat>, orphans: set<nat>, reasons: map<nat, string>,
    replies: map<nat, Reply>)                  // the slots that are done

  datatype World = World(
    d: Dispatcher, s: Slots,
    waiters: multiset<nat>,                    // the waiter count of each slot
    threads: map<nat, Thread>, completers: map<nat, Completer>,
    running: map<nat, CancelAll>, cancels: nat)

  datatype Step =
    | Register(t: nat, key: string, reason: string)
    | Queue(t: nat)
    | DispatchOwn(t: nat)
    | Observe(t: nat)
    | Prompt(t: nat, callback: bool)
    | Answer(e: nat, reply: Reply)
    | AdvanceSection(e: nat)
    | Redispatch(e: nat)
    | Resume(t: nat)
    | ReadReply(t: nat)
    | Leave(t: nat)
    | EraseSlot(t: nat)
    | CancelBegin
    | CancelMark(c: nat)
    | CancelFinish(c: nat, slot: nat)
    | CancelEnd(c: nat)

  function Init(): World {
    World(Dispatcher(Board(None, []), {}, {}, [], [], {}, {}), Slots(map[], {}, map[], map[]), multiset{},
          map[], map[], map[], 0)
  }

  // ---------- the dispatcher's sections ----------

  function Served(d: Dispatcher): int {
    |d.arrivals| - |d.board.queue|
  }

  function Queued(d: Dispatcher, e: nat): Dispatcher {
    d.(board := Enqueue(d.board, e), arrivals := d.arrivals + [e],
       activated := if d.board.active.None? then d.activated + [|d.arrivals|] else d.activated)
  }

  function Dispatched(d: Dispatcher, e: nat): Dispatcher {
    if e in d.canceled then d else d.(dispatched := d.dispatched + {e})
  }

  // Whether the dispatch of `e` goes ahead.
  predicate CanDispatch(d: Dispatcher, e: nat) {
    e !in d.canceled && e !in d.dispatched
  }

  // The entry that the advance section for `current` makes active.
  function NextActive(d: Dispatcher, current: nat): Option<nat> {
    if d.board.active == Some(current) then Advance(d.board, current, d.canceled).active else None
  }

  // `e` is the prompt being completed; `current` is what its loop has come to.
  function Advanced(d: Dispatcher, e: nat, current: nat): Dispatcher {
    var board := Advance(d.board, current, d.canceled);
    d.(board := board, completed := d.completed + (if current == e then {e} else {}),
       activated := if NextActive(d, current).Some? && |board.queue| < |d.arrivals|
                    then d.activated + [|d.arrivals| - |board.queue| - 1] else d.activated)
  }

  function Revoked(d: Dispatcher): Dispatcher {
    d.(board := Board(None, []), revoked := d.revoked + (set e | e in Everyone(d.board)))
  }

  // ---------- the slots ----------

  // The undone slot that a request with this key and reason joins.
  predicate Joins(s: Slots, key: string, reason: string) {
    && key in s.pending && s.pending[key] !in s.replies
    && s.pending[key] in s.reasons && s.reasons[s.pending[key]] == reason
  }

  function Registered(s: Slots, t: nat, key: string, reason: string): Slots {
    if Joins(s, key, reason) then s
    else
      s.(reasons := s.reasons[t := reason],
         orphans := if key in s.pending then s.orphans + {t} else s.orphans,
         pending := if key in s.pending then s.pending else s.pending[key := t])
  }

  function Admitted(s: Slots, t: nat, key: string, reason: string): Thread {
    if Joins(s, key, reason) then Thread(key, s.pending[key], AwaitSlot) else Thread(key, t, Created)
  }

  function FinishSlot(s: Slots, slot: nat, reply: Reply): Slots {
    if slot in s.replies then s else s.(replies := s.replies[slot := reply])
  }

  function Erased(s: Slots, key: string, slot: nat): Slots {
    if key in s.pending && s.pending[key] == slot then s.(pending := s.pending - {key}) else s
  }

  // ---------- the steps ----------

  predicate PcIs(w: World, t: nat, pc: Pc) {
    t in w.threads && w.threads[t].pc == pc
  }

  predicate AtIs(w: World, e: nat, at: At) {
    e in w.completers && w.completers[e].at == at
  }

  function SetPc(w: World, t: nat, pc: Pc): World {
    if t in w.threads then w.(threads := w.threads[t := w.threads[t].(pc := pc)]) else w
  }

  function SetAt(w: World, e: nat, at: At): World {
    if e in w.completers then w.(completers := w.completers[e := w.completers[e].(at := at)]) else w
  }

  ghost predicate Enabled(w: World, step: Step) {
    match step
    case Register(t, _, _) => t !in w.threads
    case Queue(t) => PcIs(w, t, Created)
    case DispatchOwn(t) => PcIs(w, t, DispatchNow)
    case Observe(t) => PcIs(w, t, AwaitDispatch) && (t in w.d.dispatched || t in w.d.canceled)
    case Prompt(t, _) => PcIs(w, t, Prompting)
    case Answer(e, reply) => AtIs(w, e, Offered) && (w.completers[e].handle || reply == Canceled)
    case AdvanceSection(e) => e in w.completers && w.completers[e].at.Advancing?
    case Redispatch(e) => e in w.completers && w.completers[e].at.Dispatching?
    case Resume(t) => PcIs(w, t, AwaitCompletion) && AtIs(w, t, Finished)
    case ReadReply(t) => PcIs(w, t, AwaitSlot) && w.threads[t].slot in w.s.replies
    case Leave(t) => t in w.threads && w.threads[t].pc.Leaving?
    case EraseSlot(t) => t in w.threads && w.threads[t].pc.Erasing?
    case CancelBegin => true
    case CancelMark(c) => c in w.running && w.running[c].dispatches != []
    case CancelFinish(c, slot) => c in w.running && w.running[c].dispatches == [] && slot in w.running[c].slots
    case CancelEnd(c) => c in w.running && w.running[c] == CancelAll([], {})
  }

  function Next(w: World, step: Step): World
    requires Enabled(w, step)
  {
    match step
    case Register(t, key, reason) =>
      var th := Admitted(w.s, t, key, reason);
      w.(s := Registered(w.s, t, key, reason), threads := w.threads[t := th],
         waiters := w.waiters + multiset{th.slot})
    case Queue(t) =>
      SetPc(w.(d := Queued(w.d, t)), t, if w.d.board.active.None? then DispatchNow else AwaitDispatch)
    case DispatchOwn(t) => SetPc(w.(d := Dispatched(w.d, t)), t, AwaitDispatch)
    case Observe(t) => SetPc(w, t, if t in w.d.canceled then Leaving(Canceled) else Prompting)
    case Prompt(t, callback) =>
      SetPc(w.(completers := w.completers[t := Completer(callback, Offered)]), t,
            if callback then AwaitSlot else AwaitCompletion)
    case Answer(e, reply) => SetAt(w.(s := FinishSlot(w.s, e, reply)), e, Advancing(e))
    case AdvanceSection(e) =>
      var current := w.completers[e].at.current;
      SetAt(w.(d := Advanced(w.d, e, current)), e,
            match NextActive(w.d, current) case Some(n) => Dispatching(n) case None => Finished)
    case Redispatch(e) =>
      var n := w.completers[e].at.next;
      SetAt(w.(d := Dispatched(w.d, n)), e, if CanDispatch(w.d, n) then Finished else Advancing(n))
    case Resume(t) => SetPc(w, t, Leaving(Canceled))
    case ReadReply(t) => SetPc(w, t, Leaving(w.s.replies[w.threads[t].slot]))
    case Leave(t) =>
      var slot, reply := w.threads[t].slot, w.threads[t].pc.reply;
      SetPc(w.(waiters := w.waiters - multiset{slot}), t,
            if w.waiters[slot] != 1 then Returned(reply) else Erasing(reply))
    case EraseSlot(t) =>
      SetPc(w.(s := Erased(w.s, w.threads[t].key, w.threads[t].slot)), t, Returned(w.threads[t].pc.reply))
    case CancelBegin =>
      w.(d := Revoked(w.d), s := w.s.(pending := map[], orphans := {}), cancels := w.cancels + 1,
         running := w.running[w.cancels := CancelAll(Everyone(w.d.board), w.s.pending.Values + w.s.orphans)])
    case CancelMark(c) =>
      var e, rest := w.running[c].dispatches[0], w.running[c].dispatches[1..];
      w.(d := w.d.(canceled := w.d.canceled + {e}), running := w.running[c := w.running[c].(dispatches := rest)])
    case CancelFinish(c, slot) =>
      w.(s := FinishSlot(w.s, slot, Canceled),
         running := w.running[c := w.running[c].(slots := w.running[c].slots - {slot})])
    case CancelEnd(c) => w.(running := w.running - {c})
  }

  ghost predicate Legal(w: World, steps: seq<Step>)
    decreases |steps|
  {
    steps == [] || (Enabled(w, steps[0]) && Legal(Next(w, steps[0]), steps[1..]))
  }

  ghost function Run(w: World, steps: seq<Step>): World
    requires Legal(w, steps)
    decreases |steps|
  {
    if steps == [] then w else Run(Next(w, steps[0]), steps[1..])
  }

  // ---------- the dispatcher's invariant ----------

  // The queue is the end of the arrivals, and nobody waits while nobody is active.
  ghost predicate QueueIsTail(d: Dispatcher) {
    && Distinct(d.arrivals)
    && |d.board.queue| <= |d.arrivals| && d.board.queue == d.arrivals[Served(d)..]
    && (d.board.active.None? ==> d.board.queue == [])
    && (d.board.active.Some? ==> d.board.active.value in d.arrivals && d.board.active.value !in d.board.queue)
  }

  // Every entry that arrived is queued, active, completed or revoked.
  ghost predicate Accounted(d: Dispatcher) {
    && (forall e | e in d.arrivals ::
          e in d.board.queue || d.board.active == Some(e) || e in d.completed || e in d.revoked)
    && (forall e | e in d.board.queue :: e !in d.revoked && e !in d.completed && e !in d.dispatched)
    && (d.board.active.Some? ==> d.board.active.value !in d.revoked + d.completed)
    && (forall e | e in d.revoked :: e in d.arrivals)
    && (forall e | e in d.dispatched :: e in d.arrivals)
    && d.completed <= d.dispatched && d.canceled <= d.revoked
  }

  // Entries become active in the order of their arrival; the ones passed over were revoked.
  ghost predicate FifoSoFar(d: Dispatcher) {
    && (forall i, j | 0 <= i < j < |d.activated| :: d.activated[i] < d.activated[j])
    && (forall p | p in d.activated :: p < Served(d))
    && (forall p: nat | p < Served(d) && p < |d.arrivals| :: p in d.activated || d.arrivals[p] in d.revoked)
    && (d.board.active.Some? ==>
          && d.activated != [] && d.activated[|d.activated| - 1] == Served(d) - 1 < |d.arrivals|
          && d.board.active.value == d.arrivals[Served(d) - 1])
  }

  ghost predicate DispatcherInv(d: Dispatcher) {
    QueueIsTail(d) && Accounted(d) && FifoSoFar(d)
  }

  // The entry at position Served(d), and no other, became active or nobody did.
  lemma FifoExtends(d: Dispatcher, d': Dispatcher)
    requires FifoSoFar(d) && d.arrivals <= d'.arrivals && d'.revoked == d.revoked && 0 <= Served(d)
    requires || (Served(d') == Served(d) && d'.activated == d.activated
                 && (d'.board.active.None? || d'.board.active == d.board.active))
             || (Served(d') == Served(d) + 1 && d'.activated == d.activated + [Served(d)]
                 && Served(d) < |d'.arrivals| && d'.board.active == Some(d'.arrivals[Served(d)]))
    requires Served(d) <= |d.arrivals|
    ensures FifoSoFar(d')
  {
    assert forall p | p in d'.activated :: p in d.activated || p == Served(d);
    assert forall p | p in d.activated :: p in d'.activated;
    assert forall i | 0 <= i < |d.activated| :: d'.activated[i] == d.activated[i] && d.activated[i] in d.activated;
    if d'.activated != d.activated { assert d'.activated[|d.activated|] == Served(d); }
    forall p: nat | p < Served(d') && p < |d'.arrivals| ensures p in d'.activated || d'.arrivals[p] in d'.revoked {
      if p < Served(d) { assert d'.arrivals[p] == d.arrivals[p]; }
    }
  }

  lemma QueuedKeeps(d: Dispatcher, e: nat)
    requires DispatcherInv(d) && e !in d.arrivals
    ensures DispatcherInv(Queued(d, e))
  {
    var d' := Queued(d, e);
    assert QueueIsTail(d') by { assert d'.board.queue == d'.arrivals[Served(d')..]; }
    assert Accounted(d') by { hide FifoSoFar; }
    if d.board.active.None? { assert d'.activated[|d.activated|] == |d.arrivals|; }
    hide Accounted, QueueIsTail;
    FifoExtends(d, d');
  }

  // The section never skips an entry: nobody in the queue is canceled.
  lemma NextIsFront(d: Dispatcher, current: nat)
    requires DispatcherInv(d) && d.board.active == Some(current)
    ensures Advance(d.board, current, d.canceled) ==
            if d.board.queue == [] then Board(None, []) else Board(Some(d.board.queue[0]), d.board.queue[1..])
  {
    assert d.board.queue != [] ==> d.board.queue[0] in d.board.queue;
  }

  lemma FrontFacts(d: Dispatcher)
    requires QueueIsTail(d) && d.board.queue != []
    ensures d.arrivals[Served(d)] == d.board.queue[0] && d.board.queue[0] !in d.board.queue[1..]
    ensures d.board.queue[0] in d.arrivals && d.board.queue[0] in d.board.queue
    ensures d.board.queue[1..] == d.arrivals[Served(d) + 1..]
    ensures forall x | x in d.board.queue :: x == d.board.queue[0] || x in d.board.queue[1..]
    ensures forall x | x in d.board.queue[1..] :: x in d.board.queue
  {}

  lemma SuccessionAccounted(d: Dispatcher, e: nat, board: Board)
    requires Accounted(d) && e in d.dispatched && d.board.active == Some(e) && e !in d.board.queue
    requires forall x | x in d.board.queue :: board.active == Some(x) || x in board.queue
    requires forall x | x in board.queue :: x in d.board.queue
    requires board.active.Some? ==> board.active.value in d.board.queue
    ensures Accounted(d.(board := board, completed := d.completed + {e}))
  {}

  // The active entry is completed and the front of the queue takes its place.
  lemma SuccessionKeeps(d: Dispatcher, e: nat)
    requires DispatcherInv(d) && e in d.dispatched && d.board.active == Some(e)
    ensures DispatcherInv(Advanced(d, e, e))
  {
    var d' := Advanced(d, e, e);
    NextIsFront(d, e);
    hide Advance, FifoSoFar, Distinct, Accounted;
    if d.board.queue != [] { FrontFacts(d); }
    FifoExtends(d, d');
    SuccessionAccounted(d, e, d'.board);
    SameAccount(d.(board := d'.board, completed := d.completed + {e}), d');
  }

  // The activation history plays no part in the account.
  lemma SameAccount(d: Dispatcher, d': Dispatcher)
    requires Accounted(d) && d' == d.(activated := d'.activated)
    ensures Accounted(d')
  {}

  lemma AdvancedKeeps(d: Dispatcher, e: nat, current: nat)
    requires DispatcherInv(d) && e in d.dispatched && (current == e || current in d.revoked)
    ensures DispatcherInv(Advanced(d, e, current))
    ensures d.board.active == Some(current) ==> current == e
    ensures d.board.active != Some(current) ==> Advanced(d, e, current).board == d.board
  {
    hide Advance, FifoSoFar;
    if d.board.active == Some(current) {
      SuccessionKeeps(d, e);
    } else {
      assert current !in d.board.queue;
      AdvanceAbsent(d.board, current, d.canceled);
      FifoExtends(d, Advanced(d, e, current));
    }
  }

  lemma RevokedKeeps(d: Dispatcher)
    requires DispatcherInv(d)
    ensures DispatcherInv(Revoked(d))
  {
    var d' := Revoked(d);
    forall p: nat | p < |d.arrivals| ensures p in d'.activated || d'.arrivals[p] in d'.revoked {
      if p >= Served(d) { assert d.arrivals[p] == d.board.queue[p - Served(d)]; }
    }
  }

  lemma DispatchedKeeps(d: Dispatcher, e: nat)
    requires DispatcherInv(d) && e in d.arrivals && e !in d.board.queue
    ensures DispatcherInv(Dispatched(d, e))
  {}

  lemma MarkedKeeps(d: Dispatcher, e: nat)
    requires DispatcherInv(d) && e in d.revoked
    ensures DispatcherInv(d.(canceled := d.canceled + {e}))
  {}

  // ---------- the invariant of requests, completions, slots and cancel-alls ----------

  // A request that is on its way out got the reply of its slot, or its own entry was revoked
  // before anybody was asked.
  ghost predicate Left(w: World, t: nat, slot: nat, reply: Reply) {
    || (slot in w.s.replies && w.s.replies[slot] == reply)
    || (reply == Canceled && slot == t && t in w.d.revoked && t !in w.completers)
  }

  ghost predicate ThreadOk(w: World, t: nat, th: Thread) {
    && th.slot in w.s.reasons
    && match th.pc
       case Created => th.slot == t && t !in w.d.arrivals && t !in w.completers
       case DispatchNow =>
         && th.slot == t && t in w.d.arrivals && t !in w.d.board.queue && t !in w.d.dispatched && t !in w.completers
       case AwaitDispatch => th.slot == t && t in w.d.arrivals && t !in w.completers
       case Prompting => th.slot == t && t in w.d.dispatched && t !in w.completers
       case AwaitCompletion => th.slot == t && t in w.completers && !w.completers[t].handle
       case AwaitSlot => th.slot == t ==> t in w.completers
       case Leaving(r) => Left(w, t, th.slot, r)
       case Erasing(r) => Left(w, t, th.slot, r)
       case Returned(r) => Left(w, t, th.slot, r)
  }

  ghost predicate ThreadsInv(w: World) {
    && (forall t | t in w.threads :: ThreadOk(w, t, w.threads[t]))
    && (forall e | e in w.d.arrivals :: e in w.s.reasons)
    && (forall s | s in w.s.reasons :: s in w.threads && w.threads[s].slot == s)
  }

  ghost predicate CompleterOk(w: World, c: nat, at: At) {
    && c in w.d.dispatched
    && (c in w.d.completed <==> !(at == Offered || at == Advancing(c)))
    && (at != Offered ==> c in w.s.replies)
    && match at
       case Advancing(current) => current == c || current in w.d.revoked
       case Dispatching(n) =>
         && n in w.d.arrivals && n !in w.d.board.queue && n !in w.d.dispatched && !PcIs(w, n, DispatchNow)
       case _ => true
  }

  ghost predicate CompletersInv(w: World) {
    && (forall c | c in w.completers :: CompleterOk(w, c, w.completers[c].at))
    && (forall e | e in w.d.completed :: e in w.completers)
    && (forall c, e, n | AtIs(w, c, Dispatching(n)) && AtIs(w, e, Dispatching(n)) :: c == e)
  }

  // The active entry has been dispatched or somebody is about to dispatch it.
  ghost predicate ActiveServed(w: World) {
    w.d.board.active.Some? && w.d.board.active.value !in w.d.dispatched ==>
      || PcIs(w, w.d.board.active.value, DispatchNow)
      || exists c :: AtIs(w, c, Dispatching(w.d.board.active.value))
  }

  // A running cancel-all will finish the slot.
  ghost predicate Collected(running: map<nat, CancelAll>, slot: nat) {
    exists c :: c in running && slot in running[c].slots
  }

  // A later cancel-all will find the slot.
  ghost predicate Listed(s: Slots, slot: nat) {
    slot in s.pending.Values || slot in s.orphans
  }

  ghost predicate SlotsInv(s: Slots, running: map<nat, CancelAll>, revoked: set<nat>) {
    && (forall x | x in s.reasons && x !in s.replies :: Listed(s, x) || Collected(running, x))
    && (forall x | Listed(s, x) :: x in s.reasons && x !in revoked)
    && (forall x | Collected(running, x) :: x in s.reasons)
  }

  // A password comes from a handle, never from a request without a callback or from a cancel-all.
  ghost predicate RepliesInv(replies: map<nat, Reply>, completers: map<nat, Completer>) {
    forall x | x in replies && replies[x].Provided? ::
      x in completers && completers[x].handle && completers[x].at != Offered
  }

  // A running cancel-all will mark the entry.
  ghost predicate ToBeMarked(running: map<nat, CancelAll>, e: nat) {
    exists c :: c in running && e in running[c].dispatches
  }

  ghost predicate CancelsInv(revoked: set<nat>, canceled: set<nat>, running: map<nat, CancelAll>, cancels: nat) {
    && (forall c | c in running :: c < cancels)
    && (forall e | ToBeMarked(running, e) :: e in revoked)
    && (forall e | e in revoked && e !in canceled :: ToBeMarked(running, e))
  }

  ghost predicate Inv(w: World) {
    && DispatcherInv(w.d) && ThreadsInv(w) && CompletersInv(w) && ActiveServed(w)
    && SlotsInv(w.s, w.running, w.d.revoked) && RepliesInv(w.s.replies, w.completers)
    && CancelsInv(w.d.revoked, w.d.canceled, w.running, w.cancels)
  }

  // ---------- what no step takes back, and what only the step of `x` may change ----------

  ghost predicate SameOthers<T>(m: map<nat, T>, m': map<nat, T>, x: nat) {
    forall t | t != x :: (t in m' <==> t in m) && (t in m ==> m'[t] == m[t])
  }

  ghost predicate SlotsGrow(s: Slots, s': Slots) {
    && (forall t | t in s.reasons :: t in s'.reasons)
    && (forall t | t in s.replies :: t in s'.replies && s'.replies[t] == s.replies[t])
  }

  ghost predicate DispatcherGrows(d: Dispatcher, d': Dispatcher, x: nat) {
    && (forall t | t in d.arrivals :: t in d'.arrivals)
    && (forall t | t in d'.arrivals && t != x :: t in d.arrivals)
    && (forall t | t in d'.board.queue && t != x :: t in d.board.queue)
    && (forall t | t in d'.completed && t != x :: t in d.completed)
    && d.completed <= d'.completed && d.revoked <= d'.revoked && d.dispatched <= d'.dispatched
  }

  ghost predicate Grows(w: World, w': World, x: nat) {
    && SameOthers(w.threads, w'.threads, x) && SameOthers(w.completers, w'.completers, x)
    && SlotsGrow(w.s, w'.s) && DispatcherGrows(w.d, w'.d, x)
  }

  lemma ThreadKept(w: World, w': World, x: nat, t: nat)
    requires Grows(w, w', x) && t != x && t in w.threads && ThreadOk(w, t, w.threads[t])
    requires t in w'.d.dispatched && w.threads[t].pc == DispatchNow ==> t in w.d.dispatched
    ensures t in w'.threads && w'.threads[t] == w.threads[t] && ThreadOk(w', t, w'.threads[t])
  {}

  lemma ThreadsKept(w: World, w': World, x: nat)
    requires ThreadsInv(w) && Grows(w, w', x)
    requires x in w'.threads ==> ThreadOk(w', x, w'.threads[x])
    requires x in w'.d.arrivals ==> x in w'.s.reasons
    requires x in w.threads ==> x in w'.threads && w'.threads[x].slot == w.threads[x].slot
    requires forall t | t in w'.s.reasons && t !in w.s.reasons :: t == x && x in w'.threads && w'.threads[x].slot == x
    requires forall t | t in w'.d.dispatched && PcIs(w, t, DispatchNow) && t != x :: t in w.d.dispatched
    ensures ThreadsInv(w')
  {
    hide ThreadOk;
    forall t | t in w'.threads ensures ThreadOk(w', t, w'.threads[t]) {
      if t != x { ThreadKept(w, w', x, t); }
    }
  }

  lemma CompleterKept(w: World, w': World, x: nat, c: nat)
    requires Grows(w, w', x) && c != x && c in w.completers && CompleterOk(w, c, w.completers[c].at)
    requires w.completers[c].at.Dispatching? ==>
               var n := w.completers[c].at.next;
               n !in w'.d.board.queue && n !in w'.d.dispatched && !PcIs(w', n, DispatchNow)
    ensures c in w'.completers && w'.completers[c] == w.completers[c] && CompleterOk(w', c, w'.completers[c].at)
  {}

  lemma CompletersKept(w: World, w': World, x: nat)
    requires CompletersInv(w) && Grows(w, w', x)
    requires x in w'.completers ==> CompleterOk(w', x, w'.completers[x].at)
    requires x in w'.d.completed ==> x in w'.completers
    requires forall c, n | c != x && AtIs(w, c, Dispatching(n)) ::
               && n !in w'.d.board.queue && n !in w'.d.dispatched && !PcIs(w', n, DispatchNow)
               && !AtIs(w', x, Dispatching(n))
    ensures CompletersInv(w')
  {
    hide CompleterOk, PcIs;
    forall c | c in w'.completers ensures CompleterOk(w', c, w'.completers[c].at) {
      if c != x {
        if w.completers[c].at.Dispatching? { assert AtIs(w, c, Dispatching(w.completers[c].at.next)); }
        CompleterKept(w, w', x, c);
      }
    }
    forall c, e, n | AtIs(w', c, Dispatching(n)) && AtIs(w', e, Dispatching(n)) ensures c == e {
      if c != x { assert AtIs(w, c, Dispatching(n)); }
      if e != x { assert AtIs(w, e, Dispatching(n)); }
    }
  }

  // The case in which no completion moves.
  lemma CompletersUntouched(w: World, w': World, x: nat)
    requires CompletersInv(w) && w'.completers == w.completers && w'.d.completed == w.d.completed
    requires SlotsGrow(w.s, w'.s) && DispatcherGrows(w.d, w'.d, x)
    requires forall c, n | AtIs(w, c, Dispatching(n)) ::
               n !in w'.d.board.queue && n !in w'.d.dispatched && !PcIs(w', n, DispatchNow)
    ensures CompletersInv(w')
  {
    hide PcIs;
    forall c | c in w.completers ensures CompleterOk(w', c, w'.completers[c].at) {
      assert CompleterOk(w, c, w.completers[c].at);
      if w.completers[c].at.Dispatching? { assert AtIs(w, c, Dispatching(w.completers[c].at.next)); }
    }
    assert forall c, n | AtIs(w', c, Dispatching(n)) :: AtIs(w, c, Dispatching(n));
  }

  // ---------- facts used step by step ----------

  lemma BoardFacts(d: Dispatcher)
    requires DispatcherInv(d)
    ensures d.canceled <= d.revoked && d.completed <= d.dispatched
    ensures d.board.active.Some? ==>
              && d.board.active.value in d.arrivals && d.board.active.value !in d.board.queue
              && d.board.active.value !in d.revoked && d.board.active.value !in d.completed
    ensures forall e | e in d.board.queue :: e in d.arrivals && e !in d.revoked && e !in d.dispatched
    ensures forall e | e in d.dispatched || e in d.revoked :: e in d.arrivals
    ensures d.board.active.None? ==> d.board.queue == []
    ensures forall e | e in d.arrivals ::
              e in d.board.queue || d.board.active == Some(e) || e in d.completed || e in d.revoked
  {}

  lemma ThreadFacts(w: World, t: nat)
    requires ThreadsInv(w) && t in w.threads
    ensures ThreadOk(w, t, w.threads[t])
  {}

  lemma CompleterFacts(w: World, c: nat)
    requires CompletersInv(w) && c in w.completers
    ensures CompleterOk(w, c, w.completers[c].at)
  {}

  lemma CompletedFacts(w: World)
    requires CompletersInv(w)
    ensures forall e | e in w.d.completed :: e in w.completers
  {}

  lemma ReasonFacts(w: World)
    requires ThreadsInv(w)
    ensures forall e | e in w.d.arrivals :: e in w.s.reasons
    ensures forall e | e in w.s.reasons :: e in w.threads && w.threads[e].slot == e
  {}

  // What an entry has gone through if some completion is about to dispatch it.
  lemma DispatchingFacts(w: World, c: nat, n: nat)
    requires CompletersInv(w) && AtIs(w, c, Dispatching(n))
    ensures n in w.d.arrivals && n !in w.d.board.queue && n !in w.d.dispatched && !PcIs(w, n, DispatchNow)
  {
    assert CompleterOk(w, c, Dispatching(n));
  }

  lemma SlotsGrowRefl(s: Slots)
    ensures SlotsGrow(s, s)
  {}

  lemma DispatcherGrowsRefl(d: Dispatcher, x: nat)
    ensures DispatcherGrows(d, d, x)
  {}

  lemma QueuedGrows(d: Dispatcher, t: nat)
    ensures DispatcherGrows(d, Queued(d, t), t)
  {}

  lemma AdvancedGrows(d: Dispatcher, e: nat, current: nat)
    requires DispatcherInv(d) && e in d.dispatched && (current == e || current in d.revoked)
    ensures DispatcherGrows(d, Advanced(d, e, current), e)
    ensures forall x | x in Advanced(d, e, current).board.queue :: x in d.board.queue
    ensures NextActive(d, current).Some? ==> NextActive(d, current).value in d.board.queue
                                             && NextActive(d, current).value !in Advanced(d, e, current).board.queue
    ensures NextActive(d, current) == if d.board.active == Some(current) then Advanced(d, e,
            current).board.active else None
    ensures d.board.active != Some(current) ==> Advanced(d, e, current).board == d.board
  {
    hide Advance, FifoSoFar, Accounted;
    if d.board.active == Some(current) {
      NextIsFront(d, current);
      if d.board.queue != [] { FrontFacts(d); }
    } else {
      AdvancedKeeps(d, e, current);
    }
  }

  // ---------- steps of a request ----------

  // A request moves on without touching anything else.
  lemma PcKeeps(w: World, t: nat, pc: Pc)
    requires ThreadsInv(w) && CompletersInv(w) && ActiveServed(w) && t in w.threads
    requires ThreadOk(w, t, w.threads[t].(pc := pc)) && pc != DispatchNow && w.threads[t].pc != DispatchNow
    ensures ThreadsInv(SetPc(w, t, pc)) && CompletersInv(SetPc(w, t, pc)) && ActiveServed(SetPc(w, t, pc))
  {
    hide DispatcherGrows, SlotsGrow, CompletersInv, ThreadsInv;
    var w' := SetPc(w, t, pc);
    DispatcherGrowsRefl(w.d, t);
    SlotsGrowRefl(w.s);
    forall c, n | AtIs(w, c, Dispatching(n))
      ensures n !in w'.d.board.queue && n !in w'.d.dispatched && !PcIs(w', n, DispatchNow)
    {
      DispatchingFacts(w, c, n);
    }
    ReasonFacts(w);
    if w.d.board.active.Some? {
      forall c | AtIs(w, c, Dispatching(w.d.board.active.value))
        ensures AtIs(w', c, Dispatching(w.d.board.active.value)) {}
    }
    assert ThreadOk(w', t, w'.threads[t]);
    hide ThreadOk;
    ThreadsKept(w, w', t);
    CompletersUntouched(w, w', t);
  }

  // Nothing moves but slots and revocations.
  lemma QuietKeeps(w: World, w': World)
    requires ThreadsInv(w) && CompletersInv(w) && ActiveServed(w)
    requires w'.d.board.active.None? || w'.d.board.active == w.d.board.active
    requires w'.threads == w.threads && w'.completers == w.completers && w'.s.reasons == w.s.reasons
    requires SlotsGrow(w.s, w'.s) && w.d.revoked <= w'.d.revoked && w'.d.board.queue <= w.d.board.queue
    requires w'.d == w.d.(board := w'.d.board, revoked := w'.d.revoked, canceled := w'.d.canceled)
    ensures ThreadsInv(w') && CompletersInv(w') && ActiveServed(w')
  {
    forall c, n | AtIs(w, c, Dispatching(n)) ensures AtIs(w', c, Dispatching(n)) {}
    assert ActiveServed(w');
    hide ActiveServed;
    hide CompletersInv, SlotsGrow;
    assert forall x | x in w'.d.board.queue :: x in w.d.board.queue;
    forall x: nat ensures Grows(w, w', x) {}
    forall t | t in w'.threads ensures ThreadOk(w', t, w'.threads[t]) {
      ThreadFacts(w, t);
      ThreadKept(w, w', t + 1, t);
    }
    forall c, n | AtIs(w, c, Dispatching(n))
      ensures n !in w'.d.board.queue && n !in w'.d.dispatched && !PcIs(w', n, DispatchNow)
    {
      DispatchingFacts(w, c, n);
    }
    CompletersUntouched(w, w', 0);
  }

  lemma RegisterKeeps(w: World, t: nat, key: string, reason: string)
    requires DispatcherInv(w.d) && ThreadsInv(w) && CompletersInv(w) && ActiveServed(w) && t !in w.threads
    ensures var w' := Next(w, Register(t, key, reason));
            ThreadsInv(w') && CompletersInv(w') && ActiveServed(w')
  {
    hide DispatcherInv, ThreadsInv, CompletersInv, DispatcherGrows;
    var w' := Next(w, Register(t, key, reason));
    var th := Admitted(w.s, t, key, reason);
    assert w'.d == w.d && w'.completers == w.completers && w'.threads == w.threads[t := th];
    BoardFacts(w.d);
    ReasonFacts(w);
    DispatcherGrowsRefl(w.d, t);
    if t in w.completers { CompleterFacts(w, t); }
    assert ThreadOk(w', t, th);
    hide ThreadOk, Next;
    forall c, n | AtIs(w, c, Dispatching(n))
      ensures n !in w'.d.board.queue && n !in w'.d.dispatched && !PcIs(w', n, DispatchNow)
    {
      DispatchingFacts(w, c, n);
    }
    ThreadsKept(w, w', t);
    CompletersUntouched(w, w', t);
    forall c, n | AtIs(w, c, Dispatching(n)) ensures AtIs(w', c, Dispatching(n)) {}
  }

  lemma QueueKeeps(w: World, t: nat)
    requires DispatcherInv(w.d) && ThreadsInv(w) && CompletersInv(w) && ActiveServed(w) && PcIs(w, t, Created)
    ensures var w' := Next(w, Queue(t));
            ThreadsInv(w') && CompletersInv(w') && ActiveServed(w')
  {
    hide DispatcherInv, ThreadsInv, CompletersInv, DispatcherGrows, SlotsGrow, FifoSoFar;
    var w' := Next(w, Queue(t));
    BoardFacts(w.d);
    ThreadFacts(w, t);
    ReasonFacts(w);
    QueuedGrows(w.d, t);
    SlotsGrowRefl(w.s);
    assert w'.d == Queued(w.d, t) && w'.s == w.s && w'.completers == w.completers;
    assert w'.d.board == Enqueue(w.d.board, t);
    assert ThreadOk(w', t, w'.threads[t]);
    forall c, n | AtIs(w, c, Dispatching(n)) ensures AtIs(w', c, Dispatching(n)) {}
    assert ActiveServed(w');
    hide Enqueue, Queued, Next;
    forall c, n | AtIs(w, c, Dispatching(n))
      ensures n !in w'.d.board.queue && n !in w'.d.dispatched && !PcIs(w', n, DispatchNow)
    {
      DispatchingFacts(w, c, n);
    }
    ThreadsKept(w, w', t);
    CompletersUntouched(w, w', t);
  }

  lemma DispatchOwnKeeps(w: World, t: nat)
    requires DispatcherInv(w.d) && ThreadsInv(w) && CompletersInv(w) && ActiveServed(w) && PcIs(w, t, DispatchNow)
    ensures var w' := Next(w, DispatchOwn(t));
            ThreadsInv(w') && CompletersInv(w') && ActiveServed(w')
  {
    hide DispatcherInv, ThreadsInv, CompletersInv, SlotsGrow, FifoSoFar;
    var w' := Next(w, DispatchOwn(t));
    BoardFacts(w.d);
    ThreadFacts(w, t);
    ReasonFacts(w);
    SlotsGrowRefl(w.s);
    assert w'.d == Dispatched(w.d, t) && w'.s == w.s && w'.completers == w.completers;
    assert ThreadOk(w', t, w'.threads[t]);
    forall c, n | AtIs(w, c, Dispatching(n))
      ensures n !in w'.d.board.queue && n !in w'.d.dispatched && !PcIs(w', n, DispatchNow)
      ensures AtIs(w', c, Dispatching(n))
    {
      DispatchingFacts(w, c, n);
    }
    hide ThreadOk;
    ThreadsKept(w, w', t);
    CompletersUntouched(w, w', t);
  }

  lemma PromptKeeps(w: World, t: nat, callback: bool)
    requires DispatcherInv(w.d) && ThreadsInv(w) && CompletersInv(w) && ActiveServed(w) && PcIs(w, t, Prompting)
    ensures var w' := Next(w, Prompt(t, callback));
            ThreadsInv(w') && CompletersInv(w') && ActiveServed(w')
  {
    hide DispatcherInv, ThreadsInv, CompletersInv, SlotsGrow, DispatcherGrows;
    var w' := Next(w, Prompt(t, callback));
    BoardFacts(w.d);
    ThreadFacts(w, t);
    ReasonFacts(w);
    CompletedFacts(w);
    SlotsGrowRefl(w.s);
    DispatcherGrowsRefl(w.d, t);
    assert w'.d == w.d && w'.s == w.s && w'.completers == w.completers[t := Completer(callback, Offered)];
    assert ThreadOk(w', t, w'.threads[t]) && CompleterOk(w', t, Offered);
    forall c, n | AtIs(w, c, Dispatching(n))
      ensures n !in w'.d.board.queue && n !in w'.d.dispatched && !PcIs(w', n, DispatchNow)
      ensures AtIs(w', c, Dispatching(n)) && !AtIs(w', t, Dispatching(n))
    {
      DispatchingFacts(w, c, n);
    }
    hide ThreadOk, CompleterOk, Next;
    ThreadsKept(w, w', t);
    CompletersKept(w, w', t);
  }

  // ---------- steps of a completion ----------

  lemma AnswerKeeps(w: World, e: nat, reply: Reply)
    requires DispatcherInv(w.d) && ThreadsInv(w) && CompletersInv(w) && ActiveServed(w) && AtIs(w, e, Offered)
    requires Enabled(w, Answer(e, reply))
    ensures var w' := Next(w, Answer(e, reply));
            ThreadsInv(w') && CompletersInv(w') && ActiveServed(w')
  {
    hide DispatcherInv, ThreadsInv, CompletersInv, DispatcherGrows;
    var w' := Next(w, Answer(e, reply));
    ReasonFacts(w);
    CompletedFacts(w);
    CompleterFacts(w, e);
    DispatcherGrowsRefl(w.d, e);
    assert w'.d == w.d && w'.s == FinishSlot(w.s, e, reply) && w'.threads == w.threads;
    assert Grows(w, w', e) && CompleterOk(w', e, Advancing(e));
    if e in w.threads { ThreadFacts(w, e); assert ThreadOk(w', e, w'.threads[e]); }
    forall c, n | AtIs(w, c, Dispatching(n))
      ensures n !in w'.d.board.queue && n !in w'.d.dispatched && !PcIs(w', n, DispatchNow)
      ensures AtIs(w', c, Dispatching(n)) && !AtIs(w', e, Dispatching(n))
    {
      DispatchingFacts(w, c, n);
    }
    hide ThreadOk, CompleterOk, Next, Grows;
    ThreadsKept(w, w', e);
    CompletersKept(w, w', e);
  }

  lemma AdvanceKeeps(w: World, e: nat)
    requires DispatcherInv(w.d) && ThreadsInv(w) && CompletersInv(w) && ActiveServed(w)
    requires e in w.completers && w.completers[e].at.Advancing?
    ensures var w' := Next(w, AdvanceSection(e));
            ThreadsInv(w') && CompletersInv(w') && ActiveServed(w')
  {
    hide DispatcherInv, ThreadsInv, CompletersInv, SlotsGrow, Advanced, NextActive;
    var w' := Next(w, AdvanceSection(e));
    var current := w.completers[e].at.current;
    BoardFacts(w.d);
    ReasonFacts(w);
    CompletedFacts(w);
    CompleterFacts(w, e);
    SlotsGrowRefl(w.s);
    AdvancedGrows(w.d, e, current);
    AdvancedFields(w.d, e, current);
    assert w'.d == Advanced(w.d, e, current) && w'.s == w.s && w'.threads == w.threads;
    forall c, n | AtIs(w, c, Dispatching(n))
      ensures n !in w'.d.board.queue && n !in w'.d.dispatched && !PcIs(w', n, DispatchNow)
      ensures AtIs(w', c, Dispatching(n)) && !AtIs(w', e, Dispatching(n))
    {
      DispatchingFacts(w, c, n);
    }
    if NextActive(w.d, current).Some? { NotDispatching(w, NextActive(w.d, current).value); }
    assert CompleterOk(w', e, w'.completers[e].at);
    if NextActive(w.d, current).Some? { assert AtIs(w', e, Dispatching(NextActive(w.d, current).value)); }
    assert ActiveServed(w');
    if e in w.threads { ThreadFacts(w, e); assert ThreadOk(w', e, w'.threads[e]); }
    hide ThreadOk, CompleterOk, Next, DispatcherGrows;
    ThreadsKept(w, w', e);
    CompletersKept(w, w', e);
  }

  lemma AdvancedFields(d: Dispatcher, e: nat, current: nat)
    ensures Advanced(d, e, current).dispatched == d.dispatched && Advanced(d, e, current).canceled == d.canceled
    ensures Advanced(d, e, current).arrivals == d.arrivals && Advanced(d, e, current).revoked == d.revoked
    ensures Advanced(d, e, current).completed == d.completed + (if current == e then {e} else {})
  {}

  // A queued entry's request waits.
  lemma NotDispatching(w: World, n: nat)
    requires ThreadsInv(w) && n in w.d.board.queue
    ensures !PcIs(w, n, DispatchNow)
  {
    if n in w.threads { assert ThreadOk(w, n, w.threads[n]); }
  }

  lemma RedispatchKeeps(w: World, e: nat)
    requires DispatcherInv(w.d) && ThreadsInv(w) && CompletersInv(w) && ActiveServed(w)
    requires e in w.completers && w.completers[e].at.Dispatching?
    ensures var w' := Next(w, Redispatch(e));
            ThreadsInv(w') && CompletersInv(w') && ActiveServed(w')
  {
    hide DispatcherInv, ThreadsInv, CompletersInv, SlotsGrow;
    var w' := Next(w, Redispatch(e));
    var m := w.completers[e].at.next;
    BoardFacts(w.d);
    ReasonFacts(w);
    CompletedFacts(w);
    CompleterFacts(w, e);
    SlotsGrowRefl(w.s);
    assert w'.d == Dispatched(w.d, m) && w'.s == w.s && w'.threads == w.threads;
    assert AtIs(w, e, Dispatching(m));
    forall c, n | c != e && AtIs(w, c, Dispatching(n))
      ensures n !in w'.d.board.queue && n !in w'.d.dispatched && !PcIs(w', n, DispatchNow)
      ensures AtIs(w', c, Dispatching(n)) && !AtIs(w', e, Dispatching(n))
    {
      DispatchingFacts(w, c, n);
      OneDispatcher(w, c, e, m);
    }
    assert CompleterOk(w', e, w'.completers[e].at);
    assert ActiveServed(w');
    if e in w.threads { ThreadFacts(w, e); assert ThreadOk(w', e, w'.threads[e]); }
    hide ThreadOk, CompleterOk, Next;
    ThreadsKept(w, w', e);
    CompletersKept(w, w', e);
  }

  lemma OneDispatcher(w: World, c: nat, e: nat, n: nat)
    requires CompletersInv(w) && AtIs(w, e, Dispatching(n)) && c != e
    ensures !AtIs(w, c, Dispatching(n))
  {}

  // ---------- slots, replies and cancel-alls ----------

  lemma RegisteredSlots(s: Slots, running: map<nat, CancelAll>, revoked: set<nat>, t: nat, key: string, reason: string)
    requires SlotsInv(s, running, revoked) && t !in s.reasons && t !in revoked
    ensures SlotsInv(Registered(s, t, key, reason), running, revoked)
  {
    var s' := Registered(s, t, key, reason);
    forall x | Listed(s, x) ensures Listed(s', x) {
      if x in s.pending.Values {
        var k :| k in s.pending && s.pending[k] == x;
        assert s'.pending[k] == x;
      }
    }
    if !Joins(s, key, reason) {
      assert Listed(s', t) by {
        if key !in s.pending { assert s'.pending[key] == t; }
      }
      forall x | Listed(s', x) ensures x == t || Listed(s, x) {
        if x != t && x in s'.pending.Values {
          var k :| k in s'.pending && s'.pending[k] == x;
          assert s.pending[k] == x;
        }
      }
    }
  }

  lemma FinishedSlots(s: Slots, running: map<nat, CancelAll>, revoked: set<nat>, slot: nat, reply: Reply)
    requires SlotsInv(s, running, revoked)
    ensures SlotsInv(FinishSlot(s, slot, reply), running, revoked)
  {
    hide Collected;
    var s' := FinishSlot(s, slot, reply);
    assert forall x :: Listed(s', x) <==> Listed(s, x);
  }

  // Only a slot that is done, or that no cancel-all looks for here any more, is dropped.
  lemma ErasedSlots(s: Slots, running: map<nat, CancelAll>, revoked: set<nat>, key: string, slot: nat)
    requires SlotsInv(s, running, revoked) && (slot in s.replies || slot in revoked)
    ensures SlotsInv(Erased(s, key, slot), running, revoked)
  {
    hide Collected;
    var s' := Erased(s, key, slot);
    if s' != s {
      assert s.pending[key] == slot && Listed(s, slot);
      forall x | Listed(s', x) ensures Listed(s, x) {
        if x in s'.pending.Values {
          var k :| k in s'.pending && s'.pending[k] == x;
          assert s.pending[k] == x;
        }
      }
      forall x | Listed(s, x) && x != slot ensures Listed(s', x) {
        if x in s.pending.Values {
          var k :| k in s.pending && s.pending[k] == x;
          assert s'.pending[k] == x;
        }
      }
    }
  }

  lemma TakenSlots(s: Slots, running: map<nat, CancelAll>, revoked: set<nat>, revoked': set<nat>, c: nat,
      dispatches: seq<nat>)
    requires SlotsInv(s, running, revoked) && c !in running
    ensures SlotsInv(s.(pending := map[], orphans := {}),
                     running[c := CancelAll(dispatches, s.pending.Values + s.orphans)], revoked')
  {
    var running' := running[c := CancelAll(dispatches, s.pending.Values + s.orphans)];
    forall x | Listed(s, x) ensures Collected(running', x) { assert x in running'[c].slots; }
    forall x | Collected(running, x) ensures Collected(running', x) {
      var b :| b in running && x in running[b].slots;
      assert x in running'[b].slots;
    }
    forall x | Collected(running', x) ensures Collected(running, x) || Listed(s, x) {
      var b :| b in running' && x in running'[b].slots;
      if b != c { assert x in running[b].slots; }
    }
    assert forall x :: !Listed(s.(pending := map[], orphans := {}), x);
  }

  // One cancel-all goes on; whatever it gives up is done.
  lemma RunningSlots(s: Slots, running: map<nat, CancelAll>, running': map<nat, CancelAll>, revoked: set<nat>, c: nat)
    requires SlotsInv(s, running, revoked) && SameOthers(running, running', c) && c in running
    requires c in running' ==> running'[c].slots <= running[c].slots
    requires forall x | x in running[c].slots && (c in running' ==> x !in running'[c].slots) :: x in s.replies
    ensures SlotsInv(s, running', revoked)
  {
    hide Listed;
    forall x | Collected(running, x) && x !in s.replies ensures Collected(running', x) {
      var b :| b in running && x in running[b].slots;
      assert b in running' && x in running'[b].slots;
    }
    forall x | Collected(running', x) ensures Collected(running, x) {
      var b :| b in running' && x in running'[b].slots;
      assert b in running && x in running[b].slots;
    }
  }

  lemma RunningCancels(revoked: set<nat>, canceled: set<nat>, canceled': set<nat>,
                       running: map<nat, CancelAll>, running': map<nat, CancelAll>, cancels: nat, c: nat)
    requires CancelsInv(revoked, canceled, running, cancels) && SameOthers(running, running', c) && c in running
    requires canceled <= canceled'
    requires c in running' ==> forall e | e in running'[c].dispatches :: e in running[c].dispatches
    requires forall e | e in running[c].dispatches && (c in running' ==> e !in running'[c].dispatches) :: e in canceled'
    ensures CancelsInv(revoked, canceled', running', cancels)
  {
    forall e | ToBeMarked(running, e) && e !in canceled' ensures ToBeMarked(running', e) {
      var b :| b in running && e in running[b].dispatches;
      assert b in running' && e in running'[b].dispatches;
    }
    forall e | ToBeMarked(running', e) ensures ToBeMarked(running, e) {
      var b :| b in running' && e in running'[b].dispatches;
      assert b in running && e in running[b].dispatches;
    }
    forall b | b in running' ensures b < cancels { assert b in running; }
  }

  lemma TakenCancels(d: Dispatcher, running: map<nat, CancelAll>, cancels: nat, slots: set<nat>)
    requires CancelsInv(d.revoked, d.canceled, running, cancels)
    ensures CancelsInv(Revoked(d).revoked, d.canceled,
                       running[cancels := CancelAll(Everyone(d.board), slots)], cancels + 1)
  {
    var running' := running[cancels := CancelAll(Everyone(d.board), slots)];
    forall e | ToBeMarked(running, e) ensures ToBeMarked(running', e) {
      var b :| b in running && e in running[b].dispatches;
      assert b in running' && e in running'[b].dispatches;
    }
    forall e | e in Everyone(d.board) ensures ToBeMarked(running', e) { assert e in running'[cancels].dispatches; }
    forall e | ToBeMarked(running', e) ensures e in Revoked(d).revoked {
      var b :| b in running' && e in running'[b].dispatches;
      if b != cancels { assert ToBeMarked(running, e); }
    }
  }

  // ---------- every step keeps the invariant ----------

  lemma RequestStep(w: World, t: nat, pc: Pc)
    requires Inv(w) && t in w.threads
    requires || (pc == Leaving(Canceled) && PcIs(w, t, AwaitCompletion) && AtIs(w, t, Finished))
             || (PcIs(w, t, AwaitDispatch) && t in w.d.canceled && pc == Leaving(Canceled))
             || (PcIs(w, t, AwaitDispatch) && t in w.d.dispatched && pc == Prompting)
             || (w.threads[t].slot in w.s.replies && PcIs(w, t, AwaitSlot)
               && pc == Leaving(w.s.replies[w.threads[t].slot]))
             || (w.threads[t].pc.Leaving? && (pc == Erasing(w.threads[t].pc.reply)
               || pc == Returned(w.threads[t].pc.reply)))
             || (w.threads[t].pc.Erasing? && pc == Returned(w.threads[t].pc.reply))
    ensures ThreadsInv(SetPc(w, t, pc)) && CompletersInv(SetPc(w, t, pc)) && ActiveServed(SetPc(w, t, pc))
  {
    BoardFacts(w.d);
    ThreadFacts(w, t);
    if t in w.completers { CompleterFacts(w, t); }
    hide ThreadsInv, CompletersInv, ActiveServed, DispatcherInv;
    PcKeeps(w, t, pc);
  }

  lemma EraseKeeps(w: World, t: nat)
    requires Inv(w) && Enabled(w, EraseSlot(t))
    ensures var w' := Next(w, EraseSlot(t));
            ThreadsInv(w') && CompletersInv(w') && ActiveServed(w') && SlotsInv(w'.s, w'.running, w'.d.revoked)
  {
    hide ThreadsInv, CompletersInv, ActiveServed, DispatcherInv, Erased, SlotsInv, CancelsInv, RepliesInv;
    var th := w.threads[t];
    var w1 := w.(s := Erased(w.s, th.key, th.slot));
    ThreadFacts(w, t);
    ErasedFields(w.s, th.key, th.slot);
    ErasedSlots(w.s, w.running, w.d.revoked, th.key, th.slot);
    QuietKeeps(w, w1);
    PcKeeps(w1, t, Returned(th.pc.reply));
  }

  lemma ErasedFields(s: Slots, key: string, slot: nat)
    ensures Erased(s, key, slot).replies == s.replies && Erased(s, key, slot).reasons == s.reasons
  {}

  lemma CancelKeeps(w: World, step: Step)
    requires Inv(w) && Enabled(w, step)
    requires step.CancelBegin? || step.CancelMark? || step.CancelFinish? || step.CancelEnd?
    ensures ThreadsInv(Next(w, step)) && CompletersInv(Next(w, step)) && ActiveServed(Next(w, step))
  {
    hide ThreadsInv, CompletersInv, DispatcherInv, SlotsInv, CancelsInv, RepliesInv;
    QuietKeeps(w, Next(w, step));
  }

  lemma CoreStep(w: World, step: Step)
    requires Inv(w) && Enabled(w, step)
    ensures ThreadsInv(Next(w, step)) && CompletersInv(Next(w, step)) && ActiveServed(Next(w, step))
  {
    hide ThreadsInv, CompletersInv, ActiveServed, DispatcherInv, SlotsInv, CancelsInv, RepliesInv;
    hide Registered, Queued, Dispatched, Advanced, Revoked, FinishSlot, Erased, SetAt, Admitted;
    match step
    case Register(t, key, reason) => RegisterKeeps(w, t, key, reason);
    case Queue(t) => QueueKeeps(w, t);
    case DispatchOwn(t) => DispatchOwnKeeps(w, t);
    case Observe(t) => RequestStep(w, t, if t in w.d.canceled then Leaving(Canceled) else Prompting);
    case Prompt(t, callback) => PromptKeeps(w, t, callback);
    case Answer(e, reply) => AnswerKeeps(w, e, reply);
    case AdvanceSection(e) => AdvanceKeeps(w, e);
    case Redispatch(e) => RedispatchKeeps(w, e);
    case Resume(t) => RequestStep(w, t, Leaving(Canceled));
    case ReadReply(t) => RequestStep(w, t, Leaving(w.s.replies[w.threads[t].slot]));
    case Leave(t) => LeaveKeeps(w, t);
    case EraseSlot(t) => EraseKeeps(w, t);
    case _ => CancelKeeps(w, step);
  }

  lemma LeaveKeeps(w: World, t: nat)
    requires Inv(w) && Enabled(w, Leave(t))
    ensures var w' := Next(w, Leave(t));
            ThreadsInv(w') && CompletersInv(w') && ActiveServed(w')
  {
    var w' := Next(w, Leave(t));
    RequestStep(w, t, w'.threads[t].pc);
    var w1 := SetPc(w, t, w'.threads[t].pc);
    assert w1 == w'.(waiters := w.waiters);
    hide ThreadsInv, CompletersInv, ActiveServed;
    QuietKeeps(w1, w');
  }

  lemma DispatcherStep(w: World, step: Step)
    requires Inv(w) && Enabled(w, step)
    ensures DispatcherInv(Next(w, step).d)
  {
    hide DispatcherInv, SlotsInv, ActiveServed, RepliesInv, CompletersInv, ThreadsInv;
    hide Advanced, Queued, Dispatched, Revoked, Registered, Admitted, FinishSlot, Erased;
    match step
    case Queue(t) =>
      ThreadFacts(w, t);
      QueuedKeeps(w.d, t);
    case DispatchOwn(t) =>
      ThreadFacts(w, t);
      DispatchedKeeps(w.d, t);
    case AdvanceSection(e) =>
      CompleterFacts(w, e);
      AdvancedKeeps(w.d, e, w.completers[e].at.current);
    case Redispatch(e) =>
      CompleterFacts(w, e);
      DispatchedKeeps(w.d, w.completers[e].at.next);
    case CancelBegin => RevokedKeeps(w.d);
    case CancelMark(c) =>
      assert ToBeMarked(w.running, w.running[c].dispatches[0]);
      MarkedKeeps(w.d, w.running[c].dispatches[0]);
    case _ =>
  }

  lemma SlotsStep(w: World, step: Step)
    requires Inv(w) && Enabled(w, step)
    ensures SlotsInv(Next(w, step).s, Next(w, step).running, Next(w, step).d.revoked)
  {
    hide ThreadsInv, CompletersInv, ActiveServed, DispatcherInv, SlotsInv, CancelsInv, RepliesInv;
    hide Queued, Dispatched, Advanced, Revoked, FinishSlot, Erased, SetAt, SetPc, Next, Enabled;
    FieldsKept(w, step);
    match step
    case Register(t, key, reason) => RegisterSlots(w, t, key, reason);
    case Answer(e, reply) =>
      AnswerFields(w, e, reply);
      FinishedSlots(w.s, w.running, w.d.revoked, e, reply);
    case EraseSlot(t) => EraseKeeps(w, t);
    case CancelBegin =>
      CancelBeginFields(w);
      RunningBelow(w);
      TakenSlots(w.s, w.running, w.d.revoked, Revoked(w.d).revoked, w.cancels, Everyone(w.d.board));
    case CancelMark(c) =>
      CancelMarkFields(w, c);
      RunningSlots(w.s, w.running, Next(w, step).running, w.d.revoked, c);
    case CancelFinish(c, slot) =>
      CancelFinishFields(w, c, slot);
      FinishedSlots(w.s, w.running, w.d.revoked, slot, Canceled);
      RunningSlots(FinishSlot(w.s, slot, Canceled), w.running, Next(w, step).running, w.d.revoked, c);
    case CancelEnd(c) =>
      CancelEndFields(w, c);
      RunningSlots(w.s, w.running, Next(w, step).running, w.d.revoked, c);
    case _ =>
  }

  lemma RegisterSlots(w: World, t: nat, key: string, reason: string)
    requires Inv(w) && Enabled(w, Register(t, key, reason))
    ensures var w' := Next(w, Register(t, key, reason));
            SlotsInv(w'.s, w'.running, w'.d.revoked)
  {
    ReasonFacts(w);
    BoardFacts(w.d);
    hide ThreadsInv, CompletersInv, ActiveServed, DispatcherInv, SlotsInv, Registered, Admitted;
    RegisteredSlots(w.s, w.running, w.d.revoked, t, key, reason);
  }

  lemma RunningBelow(w: World)
    requires CancelsInv(w.d.revoked, w.d.canceled, w.running, w.cancels)
    ensures w.cancels !in w.running
  {}

  // ---------- which step touches which part ----------

  lemma FieldsKept(w: World, step: Step)
    requires Enabled(w, step)
    ensures step.Register? || step.Answer? || step.EraseSlot? || step.CancelBegin? || step.CancelFinish?
            || Next(w, step).s == w.s
    ensures step.CancelBegin? || step.CancelMark? || step.CancelFinish? || step.CancelEnd?
            || (Next(w, step).running == w.running && Next(w, step).cancels == w.cancels
                && Next(w, step).d.canceled == w.d.canceled)
    ensures step.CancelBegin? || Next(w, step).d.revoked == w.d.revoked
    ensures step.Answer? || step.CancelFinish? || Next(w, step).s.replies == w.s.replies
    ensures step.Prompt? || step.Answer? || step.AdvanceSection? || step.Redispatch?
            || Next(w, step).completers == w.completers
  {}

  lemma AnswerFields(w: World, e: nat, reply: Reply)
    requires Enabled(w, Answer(e, reply))
    ensures var w' := Next(w, Answer(e, reply));
            && w'.s == FinishSlot(w.s, e, reply) && SameOthers(w.completers, w'.completers, e)
            && e in w'.completers && w'.completers[e] == Completer(w.completers[e].handle, Advancing(e))
            && (w.completers[e].handle || reply == Canceled)
  {
    hide FinishSlot;
  }

  lemma CancelBeginFields(w: World)
    ensures var w' := Next(w, CancelBegin);
            && w'.d.revoked == Revoked(w.d).revoked && w'.d.canceled == w.d.canceled && w'.cancels == w.cancels + 1
            && w'.s == w.s.(pending := map[], orphans := {})
            && w'.running == w.running[w.cancels := CancelAll(Everyone(w.d.board), w.s.pending.Values + w.s.orphans)]
  {
    hide Everyone;
  }

  lemma CancelMarkFields(w: World, c: nat)
    requires Enabled(w, CancelMark(c))
    ensures var w', all := Next(w, CancelMark(c)), w.running[c].dispatches;
            && c in w.running && SameOthers(w.running, w'.running, c) && c in w'.running
              && w'.running[c].slots == w.running[c].slots
            && w'.running[c].dispatches == all[1..] && w'.cancels == w.cancels
            && w'.d.canceled == w.d.canceled + {all[0]}
            && (forall e | e in all :: e == all[0] || e in all[1..]) && (forall e | e in all[1..] :: e in all)
  {}

  lemma CancelFinishFields(w: World, c: nat, slot: nat)
    requires Enabled(w, CancelFinish(c, slot))
    ensures var w' := Next(w, CancelFinish(c, slot));
            && c in w.running && SameOthers(w.running, w'.running, c) && c in w'.running && w'.cancels == w.cancels
            && w'.running[c].dispatches == w.running[c].dispatches && w'.d.canceled == w.d.canceled
            && w'.running[c].slots == w.running[c].slots - {slot}
            && w'.s == FinishSlot(w.s, slot, Canceled) && slot in w'.s.replies
  {}

  lemma CancelEndFields(w: World, c: nat)
    requires Enabled(w, CancelEnd(c))
    ensures var w' := Next(w, CancelEnd(c));
            && c in w.running && SameOthers(w.running, w'.running, c) && c !in w'.running && w'.cancels == w.cancels
            && w'.d.canceled == w.d.canceled && w.running[c] == CancelAll([], {})
  {}

  lemma ProgressFields(w: World, step: Step)
    requires Enabled(w, step) && (step.AdvanceSection? || step.Redispatch?)
    ensures SameOthers(w.completers, Next(w, step).completers, step.e) && step.e in Next(w, step).completers
    ensures Next(w, step).completers[step.e].handle == w.completers[step.e].handle
    ensures Next(w, step).completers[step.e].at != Offered && w.completers[step.e].at != Offered
  {
    hide Advanced, Dispatched, CanDispatch, NextActive;
  }

  lemma RepliesStep(w: World, step: Step)
    requires Inv(w) && Enabled(w, step)
    ensures RepliesInv(Next(w, step).s.replies, Next(w, step).completers)
  {
    hide ThreadsInv, CompletersInv, ActiveServed, DispatcherInv, SlotsInv, CancelsInv, Next, Enabled;
    FieldsKept(w, step);
    match step
    case Prompt(t, callback) => PromptReplies(w, t, callback);
    case Answer(e, reply) => AnswerFields(w, e, reply);
    case AdvanceSection(e) => ProgressFields(w, step);
    case Redispatch(e) => ProgressFields(w, step);
    case CancelFinish(c, slot) => CancelFinishFields(w, c, slot);
    case _ =>
  }

  lemma PromptReplies(w: World, t: nat, callback: bool)
    requires ThreadsInv(w) && RepliesInv(w.s.replies, w.completers) && Enabled(w, Prompt(t, callback))
    ensures RepliesInv(Next(w, Prompt(t, callback)).s.replies, Next(w, Prompt(t, callback)).completers)
  {
    hide ThreadsInv;
    ThreadFacts(w, t);
    var w' := Next(w, Prompt(t, callback));
    assert w'.s == w.s && w'.completers == w.completers[t := Completer(callback, Offered)];
  }

  lemma CancelsStep(w: World, step: Step)
    requires Inv(w) && Enabled(w, step)
    ensures CancelsInv(Next(w, step).d.revoked, Next(w, step).d.canceled, Next(w, step).running, Next(w, step).cancels)
  {
    hide ThreadsInv, CompletersInv, ActiveServed, DispatcherInv, SlotsInv, RepliesInv, CancelsInv, Next, Enabled;
    hide FinishSlot, Revoked, Everyone;
    FieldsKept(w, step);
    var w' := Next(w, step);
    match step
    case CancelBegin =>
      CancelBeginFields(w);
      TakenCancels(w.d, w.running, w.cancels, w.s.pending.Values + w.s.orphans);
    case CancelMark(c) =>
      CancelMarkFields(w, c);
      RunningCancels(w.d.revoked, w.d.canceled, w'.d.canceled, w.running, w'.running, w.cancels, c);
    case CancelFinish(c, slot) =>
      CancelFinishFields(w, c, slot);
      RunningCancels(w.d.revoked, w.d.canceled, w'.d.canceled, w.running, w'.running, w.cancels, c);
    case CancelEnd(c) =>
      CancelEndFields(w, c);
      RunningCancels(w.d.revoked, w.d.canceled, w'.d.canceled, w.running, w'.running, w.cancels, c);
    case _ =>
  }

  lemma StepKeepsInv(w: World, step: Step)
    requires Inv(w) && Enabled(w, step)
    ensures Inv(Next(w, step))
  {
    hide Next, Enabled;
    DispatcherStep(w, step);
    CoreStep(w, step);
    SlotsStep(w, step);
    RepliesStep(w, step);
    CancelsStep(w, step);
    hide ThreadsInv, CompletersInv, ActiveServed, DispatcherInv, SlotsInv, RepliesInv, CancelsInv;
  }

  lemma InitInv()
    ensures Inv(Init())
  {}

  lemma {:induction false} RunKeepsInv(w: World, steps: seq<Step>)
    requires Inv(w) && Legal(w, steps)
    ensures Inv(Run(w, steps))
    decreases |steps|
  {
    hide Inv, Next, Enabled;
    if steps != [] {
      StepKeepsInv(w, steps[0]);
      RunKeepsInv(Next(w, steps[0]), steps[1..]);
    }
  }
}
