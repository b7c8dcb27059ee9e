/** What the learning agent's own counters do while its list of orders is processed. */
module RLTracking {
  import opened OrderBook
  import opened BookSteps
  import opened ExecutionPosition
  import opened RLOrders

  /** No check of update_position fails on the messages of a list. */
  predicate Fitting(p: Inventory, me: Agent, b: Book, list: seq<Timed>)
    decreases |list|
  {
    list == [] ||
    match Process(b, list[0].order, list[0].time)
    case Failed(_) => Fitting(p, me, b, list[1..])
    case Ok(b') =>
      var m := Reply(b.orders, b.updates, list[0].order);
      Fits(p, me, m) && Fitting(Update(p, me, m), me, b', list[1..])
  }

  lemma {:induction false} FollowConcat(p: Inventory, me: Agent, b: Book, xs: seq<Timed>, ys: seq<Timed>)
    ensures Follow(p, me, b, xs + ys) == Follow(Follow(p, me, b, xs), me, Run(b, xs), ys)
    ensures Fitting(p, me, b, xs + ys) <==> Fitting(p, me, b, xs) && Fitting(Follow(p, me, b, xs), me, Run(b, xs), ys)
    decreases |xs|
  {
    hide Process, Fits, Update, Reply;
    if xs == [] {
      assert xs + ys == ys;
    } else {
      assert (xs + ys)[1..] == xs[1..] + ys;
      match Process(b, xs[0].order, xs[0].time)
      case Failed(_) => FollowConcat(p, me, b, xs[1..], ys);
      case Ok(b') =>
        ProcessApplies(b, xs[0].order, xs[0].time);
        FollowConcat(Update(p, me, Reply(b.orders, b.updates, xs[0].order)), me, b', xs[1..], ys);
    }
  }

  lemma ProcessApplies(b: Book, o: Order, time: int)
    requires Process(b, o, time).Ok?
    ensures Apply(b.orders, b.updates, o).Ok?
  {
  }

  predicate AllCancel(list: seq<Timed>, me: Agent) {
    forall i :: 0 <= i < |list| ==> list[i].order.agent == me && (list[i].order.Cancel? || list[i].order.CancelVolume?)
  }

  predicate AllOffer(list: seq<Timed>, me: Agent) {
    forall i :: 0 <= i < |list| ==> list[i].order.agent == me && list[i].order.Limit? && list[i].order.side == Ask
  }

  /** One own order taken in. */
  lemma Taken(p: Inventory, me: Agent, b: Book, o: Order, time: int)
    requires BookInv(b) && Mirrors(p, me, b.orders) && Process(b, o, time).Ok? && o.agent == me && Sells(o)
    ensures var m := Reply(b.orders, b.updates, o);
            && Mirrors(Update(p, me, m), me, Process(b, o, time).value.orders)
            && BookInv(Process(b, o, time).value)
            && Slack(Update(p, me, m)) == Slack(p) + SlackChange(m, me)
            && (Consistent(p) ==> Fits(p, me, m))
  {
    hide Sound, Uncrossed, Mirrors, Update, SlackChange, Slack, Consistent, Fits;
    UpdateMirrors(p, me, b.orders, b.updates, o);
    ProcessKeeps(b, o, time);
  }

  /** Cancellations only free inventory. */
  lemma {:induction false} CancelsFit(p: Inventory, me: Agent, b: Book, list: seq<Timed>)
    requires BookInv(b) && Tracks(p, me, b.orders) && Accepted(b, list) && AllCancel(list, me)
    ensures Fitting(p, me, b, list) && BookInv(Run(b, list))
    ensures Tracks(Follow(p, me, b, list), me, Run(b, list).orders) && Follow(p, me, b, list).volume == p.volume
    decreases |list|
  {
    hide Process, Sound, Uncrossed, OwnAsks, BookInv, Fits;
    if list == [] {
    } else {
      var o, time := list[0].order, list[0].time;
      TracksIsConsistent(p, me, b.orders);
      Taken(p, me, b, o, time);
      CancelFrees(b.orders, b.updates, o, b, time, me, p);
      ProcessApplies(b, o, time);
      CancelsFit(Update(p, me, Reply(b.orders, b.updates, o)), me, Process(b, o, time).value, list[1..]);
    }
  }

  lemma CancelFrees(os: seq<Resting>, id: nat, o: Order, b: Book, time: int, me: Agent, p: Inventory)
    requires os == b.orders && id == b.updates && Process(b, o, time).Ok? && (o.Cancel? || o.CancelVolume?)
    ensures var m := Reply(os, id, o); SlackChange(m, me) >= 0 && Update(p, me, m).volume == p.volume
  {
  }

  lemma OfferUses(b: Book, o: Order, time: int, me: Agent, p: Inventory)
    requires Process(b, o, time).Ok? && o.Limit? && o.agent == me
    ensures var m := Reply(b.orders, b.updates, o); Update(p, me, m).volume == p.volume
    ensures Volume(Own(me), b.orders) <= Volume(Own(me), Process(b, o, time).value.orders)
  {
    VolumeAppend(Own(me), b.orders, Resting(b.updates, o.agent, o.side, o.price, o.volume));
  }

  lemma {:induction false} OffersGrow(me: Agent, b: Book, list: seq<Timed>)
    requires Accepted(b, list) && AllOffer(list, me)
    ensures Volume(Own(me), b.orders) <= Volume(Own(me), Run(b, list).orders)
    decreases |list|
  {
    hide Volume, Crosses;
    if list == [] {
    } else {
      VolumeAppend(Own(me), b.orders, Resting(b.updates, list[0].order.agent, list[0].order.side, list[0].order.price, list[0].order.volume));
      OffersGrow(me, Process(b, list[0].order, list[0].time).value, list[1..]);
    }
  }

  /** Offers fit all the way when what rests at the end is covered by the inventory. */
  lemma {:induction false} OffersFit(p: Inventory, me: Agent, b: Book, list: seq<Timed>)
    requires BookInv(b) && Mirrors(p, me, b.orders) && Accepted(b, list) && AllOffer(list, me)
    requires Volume(Own(me), Run(b, list).orders) <= p.volume
    ensures Fitting(p, me, b, list)
    ensures Tracks(Follow(p, me, b, list), me, Run(b, list).orders) && Follow(p, me, b, list).volume == p.volume
    decreases |list|
  {
    hide Process, Sound, Uncrossed, OwnAsks, BookInv, Fits, Volume;
    OffersGrow(me, b, list);
    TracksIsConsistent(p, me, b.orders);
    if list == [] {
    } else {
      var o, time := list[0].order, list[0].time;
      Taken(p, me, b, o, time);
      OfferUses(b, o, time, me, p);
      ProcessApplies(b, o, time);
      OffersFit(Update(p, me, Reply(b.orders, b.updates, o)), me, Process(b, o, time).value, list[1..]);
    }
  }

  /** The market order sells what it fills, and at most what it asks for. */
  lemma SaleFits(p: Inventory, me: Agent, b: Book, time: int, volume: nat)
    requires BookInv(b) && Tracks(p, me, b.orders) && Accepted(b, Sale(me, time, volume))
    ensures var list := Sale(me, time, volume);
            && Fitting(p, me, b, list) && BookInv(Run(b, list))
            && Mirrors(Follow(p, me, b, list), me, Run(b, list).orders)
            && Follow(p, me, b, list).volume == p.volume - Lesser(volume, BidVolume(b.orders))
  {
    hide Process, Sound, Uncrossed, OwnAsks, BookInv, Fits, Volume;
    if volume > 0 {
      var v: Lots := volume;
      var o := Market(me, Bid, v);
      var list := [Timed(o, time)];
      assert list[1..] == [];
      TracksIsConsistent(p, me, b.orders);
      Taken(p, me, b, o, time);
      SaleSells(b, me, time, v, p);
      RunOne(b, list[0]);
    }
  }

  lemma SaleSells(b: Book, me: Agent, time: int, v: Lots, p: Inventory)
    requires BookInv(b) && OwnAsks(b.orders, me) && Process(b, Market(me, Bid, v), time).Ok?
    ensures Update(p, me, Reply(b.orders, b.updates, Market(me, Bid, v))).volume == p.volume - Lesser(v, BidVolume(b.orders))
  {
    hide Volume, Take, Fills, Filled, Cash;
    TakeConserves(b.orders, Bid, v);
    TradeSides(b.orders, Bid, v, me);
  }

  lemma {:induction false} ReductionsCancel(me: Agent, time: int, bestBid: int, current: seq<nat>, target: seq<nat>, l: nat)
    requires l < |current| && l < |target|
    ensures AllCancel(Reductions(me, time, bestBid, current, target, l), me)
  {
    if l == 0 {
    } else {
      ReductionsCancel(me, time, bestBid, current, target, l - 1);
    }
  }

  lemma {:induction false} RemovalsCancel(me: Agent, time: int, ids: seq<nat>)
    ensures AllCancel(Removals(me, time, ids), me)
  {
    if ids == [] {
    } else {
      RemovalsCancel(me, time, ids[1..]);
    }
  }

  lemma {:induction false} AdditionsOffer(me: Agent, time: int, bestBid: int, current: seq<nat>, target: seq<nat>, l: nat)
    requires l < |current| && l < |target|
    ensures AllOffer(Additions(me, time, bestBid, current, target, l), me)
  {
    if l == 0 {
    } else {
      AdditionsOffer(me, time, bestBid, current, target, l - 1);
    }
  }

  /**
   * Taking in all messages of the list, after all of it has been processed, never fails a check, and ends with the
   * agent knowing exactly what rests for it: the wanted levels, while the market order sold what the bids could take.
   */
  lemma ListTracks(p: Inventory, me: Agent, b: Book, time: int, bestBid: int, levels: nat, current: seq<nat>, target: seq<nat>, ids: seq<nat>)
    requires Observed(b, me, time, bestBid, levels, current, ids) && levels < |target| && Tracks(p, me, b.orders)
    requires target[0] + Wanted(target, levels) <= p.volume
    ensures var list := OrderList(me, time, bestBid, levels, current, target, ids);
            var p' := Follow(p, me, b, list);
            && Fitting(p, me, b, list)
            && Tracks(p', me, Run(b, list).orders)
            && p'.active == Wanted(target, levels)
            && p'.volume == p.volume - Lesser(target[0], BidVolume(b.orders))
  {
    hide Process, Offered, Run, Accepted, Reductions, Removals, Additions, Sale, OutOfRange, AllInRange, HasSide, Ready,
      Follow, Fitting, Mirrors, AllCancel, AllOffer, BookInv, Volume, BidVolume, Wanted;
    var xs, ys := Reductions(me, time, bestBid, current, target, levels), Removals(me, time, ids);
    var zs, ws := Sale(me, time, target[0]), Additions(me, time, bestBid, current, target, levels);
    Freeing(b, me, time, bestBid, levels, current, target, ids);
    ReadyBook(b, me, time, bestBid);
    var b1, p1 := Run(b, xs), Follow(p, me, b, xs);
    var b2, p2 := Run(b1, ys), Follow(p1, me, b1, ys);
    ReductionsCancel(me, time, bestBid, current, target, levels);
    CancelsFit(p, me, b, xs);
    RemovalsCancel(me, time, ids);
    CancelsFit(p1, me, b1, ys);
    FollowConcat(p, me, b, xs, ys + (zs + ws));
    FollowConcat(p1, me, b1, ys, zs + ws);
    RunConcat(b, xs, ys + (zs + ws));
    RunConcat(b1, ys, zs + ws);
    FreedTracks(p2, me, b2, time, bestBid, levels, current, target);
  }

  lemma ReadyBook(b: Book, me: Agent, time: int, bestBid: int)
    requires Ready(b, me, time, bestBid)
    ensures BookInv(b) && OwnAsks(b.orders, me)
  {
  }

  lemma FreedActive(p: Inventory, me: Agent, b: Book, time: int, bestBid: int, levels: nat, current: seq<nat>, target: seq<nat>)
    requires Freed(b, me, time, bestBid, levels, current, target) && Tracks(p, me, b.orders)
    ensures p.active <= Wanted(target, levels)
  {
    hide Process, Offered, HasSide, Volume;
    OwnIsOffered(b.orders, me, bestBid, levels);
    NoneOutside(b.orders, me, bestBid, levels);
    OfferedAtMostWanted(b.orders, me, bestBid, target, levels);
  }

  lemma LandedActive(me: Agent, b: Book, time: int, bestBid: int, levels: nat, target: seq<nat>)
    requires Ready(b, me, time, bestBid) && AllInRange(b.orders, me, bestBid, levels) && levels < |target|
    requires forall l :: 1 <= l <= levels ==> Offered(b.orders, me, bestBid + l) == target[l]
    ensures Volume(Own(me), b.orders) == Wanted(target, levels)
  {
    hide Process, Offered, HasSide, Volume;
    OwnIsOffered(b.orders, me, bestBid, levels);
    NoneOutside(b.orders, me, bestBid, levels);
    OfferedIsWanted(b.orders, me, bestBid, target, levels);
  }

  lemma FreedTracks(p: Inventory, me: Agent, b: Book, time: int, bestBid: int, levels: nat, current: seq<nat>, target: seq<nat>)
    requires Freed(b, me, time, bestBid, levels, current, target) && Tracks(p, me, b.orders)
    requires target[0] + Wanted(target, levels) <= p.volume
    ensures var list := Sale(me, time, target[0]) + Additions(me, time, bestBid, current, target, levels);
            var p' := Follow(p, me, b, list);
            && Fitting(p, me, b, list)
            && Tracks(p', me, Run(b, list).orders)
            && p'.active == Wanted(target, levels)
            && p'.volume == p.volume - Lesser(target[0], BidVolume(b.orders))
  {
    hide Process, Offered, Run, Accepted, Additions, Sale, AllInRange, HasSide, Ready,
      Follow, Fitting, AllOffer, BookInv, Volume, BidVolume, Wanted, OwnAsks;
    var zs, ws := Sale(me, time, target[0]), Additions(me, time, bestBid, current, target, levels);
    ReadyBook(b, me, time, bestBid);
    FreedActive(p, me, b, time, bestBid, levels, current, target);
    Selling(b, me, time, bestBid, levels, current, target);
    Using(b, me, time, bestBid, levels, current, target);
    SaleFits(p, me, b, time, target[0]);
    var b1, p1 := Run(b, zs), Follow(p, me, b, zs);
    RunConcat(b, zs, ws);
    LandedActive(me, Run(b1, ws), time, bestBid, levels, target);
    AdditionsOffer(me, time, bestBid, current, target, levels);
    OffersFit(p1, me, b1, ws);
    FollowConcat(p, me, b, zs, ws);
  }
}
