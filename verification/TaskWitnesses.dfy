/**
  Runs from the initial table that show what the theorems allow for.
 */
module TaskWitnesses {
  import opened Basics
  import opened QtStream
  import opened AsciiText
  import opened TaskSlots
  import opened PayloadCodec
  import opened TaskTable
  import opened TaskProtocol
  import opened TaskTheorems
  import opened TaskResults

  lemma DefaultPayloadFits(digest: Digest)
    ensures |Encode(DEFAULT_PAYLOAD, digest)| <= POOL_SLOT_SIZE
  {
    EncodeLength(DEFAULT_PAYLOAD, digest);
    DefaultBody();
  }

  lemma DefaultBody()
    ensures |EncBody(DEFAULT_PAYLOAD)| <= 1000
  {
    var p := DEFAULT_PAYLOAD;
    var ss := Sections(p);
    assert |EncSections(ss.tail.tail.tail.tail.tail.tail)| == 2;
    assert |EncSections(ss.tail.tail.tail.tail)| == 4;
    assert |EncSections(ss.tail.tail)| == 6;
    assert |EncSections(ss)| == 8;
    hide EncSections;
    var fs := HeadFields(p);
    assert |EncFields(fs.tail.tail.tail)| <= 5;
    assert |EncFields(fs.tail)| <= 7;
  }

  // The first dispatch of all: session and generation one, in the first slot.
  lemma FirstDispatch(r: Request, digest: Digest)
    requires ValidOwner(r.owner) && |Encode(r.payload, digest)| <= POOL_SLOT_SIZE
    ensures WellFormed(InitialTable())
    ensures Dispatch(InitialTable(), r, digest, true, true).1 == Started(0, 1, 1)
    ensures Dispatch(InitialTable(), r, digest, true, true).0 ==
            Table(2, InitialTable().slots[0 := FreshSlot(EmptySlot(1), 0, 1, r, |Encode(r.payload, digest)|)],
                  PoolWrite(InitialTable().pool, 0, Encode(r.payload, digest)))
  {
    hide Encode, PoolWrite, ValidOwner, FreshSlot;
    NothingToReclaim();
  }

  lemma NothingToReclaim()
    ensures Reclaim(InitialTable().slots) == InitialTable().slots
  {}

  lemma FixedOwner(owner: Bytes)
    requires owner != [] && Trimmed(owner) && |owner| < OWNER_CAPACITY
    ensures ValidOwner(owner) && Trim(owner) == owner
  {
    TrimmedIsFixed(owner);
  }

  // A task of the owner "a", a zero byte, "b" answers to the owner "a" and not to its own.
  lemma NulOwnerIsMistaken(launcher: int, now: int, digest: Digest)
    ensures WellFormed(InitialTable())
    ensures var (t, outcome) := Dispatch(InitialTable(), Request([97, 0, 98], DEFAULT_PAYLOAD, launcher, now), digest,
                                         true, true);
            && outcome == Started(0, 1, 1) && |t.slots| == SLOT_COUNT
            && MatchesOwner(t.slots[0], [97]) && !MatchesOwner(t.slots[0], [97, 0, 98])
  {
    var r := Request([97, 0, 98], DEFAULT_PAYLOAD, launcher, now);
    DefaultPayloadFits(digest);
    FixedOwner(r.owner);
    CutAtNul();
    hide Encode, Dispatch, PoolWrite, Trim, ValidOwner, FixedBuffer, UpToNul, Reclaim;
    FirstDispatch(r, digest);
  }

  lemma CutAtNul()
    ensures UpToNul(FixedBuffer([97, 0, 98], OWNER_CAPACITY)) == [97]
  {
    var b := FixedBuffer([97, 0, 98], OWNER_CAPACITY);
    assert b[0] == 97 && b[1] == 0;
    assert UpToNul(b[1..]) == [];
  }

  // ---------- a Claimed event without a claim ----------

  // Nobody claims the task of the owner "a" for fifteen seconds; then its owner looks.
  function UnclaimedRun(launcher: int, now: int): seq<Step> {
    [DispatchStep(Request([97], DEFAULT_PAYLOAD, launcher, now), true, true),
     MonitorStep([97], {}, now + UNCLAIMED_DISPATCHED_RECLAIM_MSECS),
     CollectStep([97], {})]
  }

  ghost predicate OnlyFirst(slots: seq<Slot>) {
    && |slots| == SLOT_COUNT
    && slots[0].session_id == 1 && slots[0].acknowledged == 0 && UpToNul(slots[0].owner) == [97]
    && forall i | 1 <= i < |slots| :: slots[i].state == Empty && slots[i].acknowledged == 0
  }

  lemma OwnerIsKept()
    ensures Trim([97]) == [97] && ValidOwner([97])
    ensures UpToNul(FixedBuffer([97], OWNER_CAPACITY)) == [97]
  {
    FixedOwner([97]);
    var b := FixedBuffer([97], OWNER_CAPACITY);
    assert b[0] == 97 && b[1] == 0;
    assert UpToNul(b[1..]) == [];
  }

  lemma UnclaimedDispatched(launcher: int, now: int, digest: Digest)
    ensures WellFormed(InitialTable())
    ensures var t := Dispatch(InitialTable(), Request([97], DEFAULT_PAYLOAD, launcher, now), digest, true, true).0;
            && WellFormed(t) && OnlyFirst(t.slots)
            && t.slots[0].state == Dispatched && t.slots[0].published == 1 && t.slots[0].updated_msecs == now
  {
    var r := Request([97], DEFAULT_PAYLOAD, launcher, now);
    DefaultPayloadFits(digest);
    OwnerIsKept();
    hide Encode, Dispatch, PoolWrite, Trim, ValidOwner, FixedBuffer, UpToNul, Reclaim, Zeros, FreshSlot;
    FirstDispatch(r, digest);
    FreshIsOnly(r, |Encode(r.payload, digest)|);
  }

  lemma FreshIsOnly(r: Request, size: nat)
    requires Trim(r.owner) == [97] && UpToNul(FixedBuffer([97], OWNER_CAPACITY)) == [97]
    ensures OnlyFirst(InitialTable().slots[0 := FreshSlot(EmptySlot(1), 0, 1, r, size)])
  {
    hide FixedBuffer, UpToNul, Trim, Zeros;
  }

  // The monitor completes the first slot and leaves the empty ones.
  lemma UnclaimedTimesOut(t: Table, now: int)
    requires WellFormed(t) && OnlyFirst(t.slots) && t.slots[0].state == Dispatched && t.slots[0].published == 1
    requires now - t.slots[0].updated_msecs >= UNCLAIMED_DISPATCHED_RECLAIM_MSECS
    ensures var t' := Monitor(t, [97], {}, now);
            && t'.slots[0].state == Completed && t'.slots[0].published == 3
            && WellFormed(t') && OnlyFirst(t'.slots) && t'.pool == t.pool
  {
    hide UpToNul, FixedBuffer, TextBytes, Zeros;
  }

  lemma EmptySlotHasNoEvents(s: Slot, pool: Bytes, owner: Bytes, readable: bool, digest: Digest)
    requires s.state == Empty
    ensures SlotEvents(s, pool, owner, readable, digest) == []
  {
    hide PendingEvents, EventPayload;
  }

  lemma {:induction false} EmptyHasNoEvents(slots: seq<Slot>, pool: Bytes, owner: Bytes, readable: set<nat>,
                                            digest: Digest, i: nat)
    requires i <= |slots| && forall j | i <= j < |slots| :: slots[j].state == Empty
    ensures EventsOf(slots, pool, owner, readable, digest, i) == []
    decreases |slots| - i
  {
    hide *;
    if i < |slots| {
      EmptySlotHasNoEvents(slots[i], pool, owner, i in readable, digest);
      EmptyHasNoEvents(slots, pool, owner, readable, digest, i + 1);
      EventsUnfold(slots, pool, owner, readable, digest, i);
    } else {
      NothingCollected(slots, pool, owner, readable, digest);
    }
  }

  lemma EventsOfFirst(t: Table, digest: Digest)
    requires OnlyFirst(t.slots) && t.slots[0].state == Completed && t.slots[0].published == 3
    ensures var events := SlotEvents(t.slots[0], t.pool, [97], false, digest);
            |events| == 3 && events[1].kind == ClaimedEvent && events[1].session_id == 1
  {
    hide EventPayload, PendingEvents, UpToNul;
    PendingExactly(t.slots[0], [97], EventPayload(t.pool, t.slots[0], false, digest), 1);
  }

  lemma OthersHaveNoEvents(t: Table, digest: Digest)
    requires OnlyFirst(t.slots)
    ensures EventsOf(t.slots, t.pool, [97], {}, digest, 1) == []
  {
    hide EventsOf, UpToNul;
    EmptyHasNoEvents(t.slots, t.pool, [97], {}, digest, 1);
  }

  lemma NothingGivenBack(slots: seq<Slot>)
    requires OnlyFirst(slots)
    ensures Reclaim(slots) == slots
  {
    hide UpToNul;
  }

  lemma CollectedFromFirst(t: Table, digest: Digest)
    requires WellFormed(t) && OnlyFirst(t.slots) && t.slots[0].state == Completed && t.slots[0].published == 3
    ensures Collect(t, [97], {}, digest).0 == t
    ensures var events := Collect(t, [97], {}, digest).1;
            |events| == 3 && events[1].kind == ClaimedEvent && events[1].session_id == 1
  {
    OwnerIsKept();
    hide EventsOf, SlotEvents, UpToNul, Trim, ValidOwner, Reclaim, OnlyFirst;
    NothingGivenBack(t.slots);
    EventsUnfold(t.slots, t.pool, [97], {}, digest, 0);
    OthersHaveNoEvents(t, digest);
    EventsOfFirst(t, digest);
  }

  lemma ThreeSteps(w: World, a: Step, b: Step, c: Step, digest: Digest)
    requires WellFormed(w.table) && Legal(w, a)
    requires WellFormed(Apply(w, a, digest).table) && Legal(Apply(w, a, digest), b)
    requires var w2 := Apply(Apply(w, a, digest), b, digest); WellFormed(w2.table) && Legal(w2, c)
    ensures var w1 := Apply(w, a, digest);
            var w2 := Apply(w1, b, digest);
            && Exec(w, [a, b, c], digest) == Some(Apply(w2, c, digest))
            && Timeouts(w, [a, b, c], digest) >= TimeoutsOf(w1, b)
  {
    hide Apply, Legal, WellFormed, TimeoutsOf;
    var w1 := Apply(w, a, digest);
    var w2 := Apply(w1, b, digest);
    assert [a, b, c][1..] == [b, c] && [b, c][1..] == [c] && [c][1..] == [];
    assert Exec(w2, [c], digest) == Exec(Apply(w2, c, digest), [], digest);
    assert Exec(w1, [b, c], digest) == Exec(w2, [c], digest);
  }

  lemma UnclaimedSent(launcher: int, now: int, digest: Digest)
    requires WellFormed(InitialTable())
    ensures WellFormed(Init().table) && Legal(Init(), UnclaimedRun(launcher, now)[0])
    ensures var w := Apply(Init(), UnclaimedRun(launcher, now)[0], digest);
            && w.claims == [] && w.collected == []
            && w.table == Dispatch(InitialTable(), Request([97], DEFAULT_PAYLOAD, launcher, now), digest, true, true).0
  {
    hide Dispatch, InitialTable;
  }

  // The owner is told of a claim that never was.
  lemma UnclaimedIsReportedClaimed(launcher: int, now: int, digest: Digest)
    ensures var steps := UnclaimedRun(launcher, now);
            && Exec(Init(), steps, digest).Some? && 1 in Timeouts(Init(), steps, digest)
            && var w := Exec(Init(), steps, digest).value;
            && w.claims == [] && |w.collected| == 3
            && w.collected[1].kind == ClaimedEvent && w.collected[1].session_id == 1
  {
    hide Dispatch, Monitor, Collect, UpToNul, Init, InitialTable, Exec, Timeouts;
    var steps := UnclaimedRun(launcher, now);
    UnclaimedDispatched(launcher, now, digest);
    UnclaimedSent(launcher, now, digest);
    var w1 := Apply(Init(), steps[0], digest);
    UnclaimedTimesOut(w1.table, steps[1].now);
    var w2 := Apply(w1, steps[1], digest);
    CollectedFromFirst(w2.table, digest);
    ThreeSteps(Init(), steps[0], steps[1], steps[2], digest);
    assert w1.table.slots[0] in w1.table.slots && TimesOut(w1.table.slots[0], [97], steps[1].now);
  }
}
