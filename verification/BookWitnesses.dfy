/** Two agents in a fresh book: runs in which the agent's mirror, the volume-only book and the indexes go wrong. */
module BookWitnesses {
  import opened Wrappers
  import opened OrderBook
  import opened BookSteps
  import opened BookVolumes
  import opened ExecutionPosition
  import opened RLOrders
  import opened BookCoherence
  import opened BookObject

  const FRESH := Book({"me", "other"}, [], 0, None)
  const FRESH_VOLUMES := VolumeBook({"me", "other"}, map[], map[], None)
  const START := Inventory(10, 10, 0, 0, 0, 0, 0)

  const MINE := Resting(0, "me", Ask, 101, 5)
  const OTHERS := Resting(1, "other", Ask, 101, 4)
  const FIRST := [Timed(Limit("me", Ask, 101, 5), 1)]
  const BOTH := FIRST + [Timed(Limit("other", Ask, 101, 4), 2)]

  lemma FreshIsSound()
    ensures BookInv(FRESH) && Shows(FRESH_VOLUMES, FRESH)
  {
    assert forall side, p :: Volume(Level(side, p), []) == 0;
  }

  lemma FirstIs()
    ensures Accepted(FRESH, FIRST) && Run(FRESH, FIRST) == Book({"me", "other"}, [MINE], 1, Some(1))
    ensures Follow(START, "me", FRESH, FIRST) == Inventory(10, 10, 5, 0, 0, 0, 0)
  {
    assert FIRST[1..] == [] && [] + [MINE] == [MINE];
  }

  lemma BothIs()
    ensures Accepted(FRESH, BOTH) && Run(FRESH, BOTH) == Book({"me", "other"}, [MINE, OTHERS], 2, Some(2))
  {
    hide Process;
    var b := Book({"me", "other"}, [MINE], 1, Some(1));
    FirstIs();
    assert BOTH[0] == FIRST[0] && BOTH[1..] == [Timed(Limit("other", Ask, 101, 4), 2)] && FIRST[1..] == [];
    SecondIs(b);
  }

  lemma SecondIs(b: Book)
    requires b == Book({"me", "other"}, [MINE], 1, Some(1))
    ensures var list := [Timed(Limit("other", Ask, 101, 4), 2)];
            Accepted(b, list) && Run(b, list) == Book({"me", "other"}, [MINE, OTHERS], 2, Some(2))
  {
    var list := [Timed(Limit("other", Ask, 101, 4), 2)];
    assert list[1..] == [] && [MINE] + [OTHERS] == [MINE, OTHERS];
  }

  /** Somebody else makes the agent's order smaller, which the book allows: the agent still counts five lots. */
  lemma MirrorBreaks()
    ensures var b, p, o := Run(FRESH, FIRST), Follow(START, "me", FRESH, FIRST), Modify("other", 0, 3);
            && Accepted(FRESH, FIRST) && Tracks(p, "me", b.orders) && Process(b, o, 2).Ok?
            && !Tracks(Update(p, "me", Reply(b.orders, b.updates, o)), "me", Process(b, o, 2).value.orders)
  {
    hide Tracks, Run, Accepted, Follow, Update, Reply, Apply, ModifiesOwn, Sound;
    FirstIs();
    var p, o := Inventory(10, 10, 5, 0, 0, 0, 0), Modify("other", 0, 3);
    MineTracks(p);
    Modifies(o);
    OthersTrackIff(p, "me", [MINE], 1, o);
  }

  lemma MineTracks(p: Inventory)
    requires p == Inventory(10, 10, 5, 0, 0, 0, 0)
    ensures Tracks(p, "me", [MINE])
  {
    assert [MINE][..0] == [];
    assert Volume(Own("me"), [MINE]) == 5;
  }

  lemma Modifies(o: Order)
    requires o == Modify("other", 0, 3)
    ensures Sound([MINE]) && Apply([MINE], 1, o).Ok? && ModifiesOwn([MINE], o, "me")
  {
    assert Position([MINE], 0) == 0;
  }

  lemma VolumesShow(list: seq<Timed>)
    requires |list| == 2 && forall i :: 0 <= i < |list| ==> list[i].order.Limit? && !Reused(list[i].order)
    ensures Shows(VolumeRun(FRESH_VOLUMES, list), Run(FRESH, list)) && BookInv(Run(FRESH, list))
  {
    hide VolumeRun, Run, Shows, BookInv;
    FreshIsSound();
    RunSimulates(FRESH_VOLUMES, FRESH, list, "me");
    RunKeeps(FRESH, list);
  }

  /** At the deadline no bid is left: the agent's order goes, the sale is refused, and the agent still counts five lots. */
  lemma LiquidationBreaks()
    ensures var b, p := Run(FRESH, FIRST), Follow(START, "me", FRESH, FIRST);
            var list := Removals("me", 2, [0]) + Sale("me", 2, p.volume);
            && Accepted(FRESH, FIRST) && Tracks(p, "me", b.orders) && !HasSide(b.orders, Bid)
            && Halted(b, list) == Halt(Book({"me", "other"}, [], 2, Some(2)), Some(EmptySide))
            && !Tracks(p, "me", Halted(b, list).book.orders)
  {
    hide Tracks, Run, Accepted, Follow, Process, Halted, Removals, Sale;
    FirstIs();
    var b, p := Run(FRESH, FIRST), Inventory(10, 10, 5, 0, 0, 0, 0);
    MineTracks(p);
    NothingTracks(p);
    CancelLast(b);
    SaleFails();
    HaltsAfter(b, Removals("me", 2, [0]), Sale("me", 2, 10));
  }

  lemma NothingTracks(p: Inventory)
    requires p.active == 5
    ensures !Tracks(p, "me", [])
  {
  }

  lemma CancelLast(b: Book)
    requires b == Book({"me", "other"}, [MINE], 1, Some(1))
    ensures Accepted(b, Removals("me", 2, [0])) && Run(b, Removals("me", 2, [0])) == Book({"me", "other"}, [], 2, Some(2))
  {
    var o := Cancel("me", 0);
    assert [0][1..] == [] && Removals("me", 2, [0]) == [Timed(o, 2)];
    assert Position([MINE], 0) == 0 && Remove([MINE], 0) == [];
    RunOne(b, Timed(o, 2));
  }

  lemma SaleFails()
    ensures var b := Book({"me", "other"}, [], 2, Some(2)); Halted(b, Sale("me", 2, 10)) == Halt(b, Some(EmptySide))
  {
  }

  /** The other's order, which rests with the id 1, sent again: the volume-only book takes it, the full book refuses it too late. */
  const AGAIN := Limit("other", Ask, 101, 4, Some(1))

  lemma SecondSendingParts()
    ensures var vb, b := VolumeRun(FRESH_VOLUMES, BOTH), Run(FRESH, BOTH);
            && Accepted(FRESH, BOTH) && Shows(vb, b) && BookInv(b)
            && LeavesTrace(b, AGAIN, 3) && Process(b, AGAIN, 3) == Failed(HasOldId) && !Agree(vb, b, AGAIN, 3)
  {
    hide VolumeRun, Run, Accepted, Agree, Shows, BookInv, Process;
    BothIs();
    VolumesShow(BOTH);
    var b := Run(FRESH, BOTH);
    assert !HasSide(b.orders, Bid);
    RefusedLate(b, AGAIN, 3);
    LimitAndMarketAgree(VolumeRun(FRESH_VOLUMES, BOTH), b, AGAIN, 3);
  }

  /** The same as a run of the stored book: 13 lots on the level where 9 rest. */
  method SendTwice() returns (lob: LimitOrderBook, error: Option<Error>, r: Result<Option<Message>>, level: nat)
    ensures error == None && r == Failed(HasOldId) && !lob.Valid()
    ensures level == 13 && Volume(Level(Ask, 101), lob.orders) == 9
  {
    hide Run, Accepted, Halted, Process, MissedRun, Served, FlowRests, Volume, Listed, Counted, Balances;
    lob := new LimitOrderBook({"me", "other"}, false);
    BothIs();
    TwoLevels();
    var messages;
    error, messages := lob.ProcessOrders(BOTH);
    SecondSendingParts();
    r, level := SendAgain(lob);
  }

  method SendAgain(lob: LimitOrderBook) returns (r: Result<Option<Message>>, level: nat)
    requires lob.Valid() && !lob.onlyVolumes && lob.View() == Book({"me", "other"}, [MINE, OTHERS], 2, Some(2))
    modifies lob
    ensures r == Failed(HasOldId) && !lob.Valid() && level == 13 && lob.orders == [MINE, OTHERS]
  {
    hide Run, Accepted, Process, Volume, Listed, Counted, Balances;
    BothIs();
    SecondSendingParts();
    ShownLevel(lob);
    r := lob.ProcessOrder(AGAIN, 3);
    level := lob.priceVolume.ask[101];
  }

  lemma ShownLevel(lob: LimitOrderBook)
    requires lob.Valid() && !lob.onlyVolumes && lob.orders == [MINE, OTHERS]
    ensures 101 in lob.priceVolume.ask && lob.priceVolume.ask[101] == 9
  {
    hide Volume;
    TwoLevels();
  }

  /** One of two agents at a price cancels more than it has there: the volume-only book takes the other's lots too. */
  lemma VolumesPart()
    ensures Accepted(FRESH, BOTH)
    ensures var vb, b := VolumeRun(FRESH_VOLUMES, BOTH), Run(FRESH, BOTH);
            Shows(vb, b) && BookInv(b) && !Agree(vb, b, CancelVolume("me", Ask, 101, 9), 3)
  {
    hide VolumeRun, Run, Accepted, Agree, Shows, BookInv, Volume;
    BothIs();
    VolumesShow(BOTH);
    TwoLevels();
    var vb := VolumeRun(FRESH_VOLUMES, BOTH);
    CancelVolumeAgreesIff(vb, Run(FRESH, BOTH), CancelVolume("me", Ask, 101, 9), 3);
  }

  lemma TwoLevels()
    ensures Volume(Level(Ask, 101), [MINE, OTHERS]) == 9 && Volume(OwnLevel("me", Ask, 101), [MINE, OTHERS]) == 5
  {
    assert [MINE, OTHERS][..1] == [MINE] && [MINE][..0] == [];
    assert Volume(Level(Ask, 101), [MINE]) == 5 && Volume(OwnLevel("me", Ask, 101), [MINE]) == 5;
  }
}
