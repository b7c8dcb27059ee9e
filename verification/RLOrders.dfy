/**
 * The order list of the learning agent (RLAgent.generate_order): reductions first, then cancellations out of range,
 * then the market order, then additions, and what processing that list does to the book.
 */
module RLOrders {
  import opened OrderBook
  import opened BookSteps
  import opened ExecutionPosition

  /** Lots of the agent offered at a price. */
  function Offered(os: seq<Resting>, me: Agent, price: int): nat {
    Volume(OwnLevel(me, Ask, price), os)
  }

  function BidVolume(os: seq<Resting>): nat {
    Volume(Whole(Bid), os)
  }

  predicate InRange(price: int, bestBid: int, levels: nat) {
    bestBid < price <= bestBid + levels
  }

  // ---------- the parts of the list ----------

  /** Where more is offered than wanted; inserted at the front one by one, so the last level comes first. */
  function Reductions(me: Agent, time: int, bestBid: int, current: seq<nat>, target: seq<nat>, l: nat): seq<Timed>
    requires l < |current| && l < |target|
  {
    if l == 0 then []
    else if target[l] < current[l] then
      var volume: Lots := current[l] - target[l];
      [Timed(CancelVolume(me, Ask, bestBid + l, volume), time)] + Reductions(me, time, bestBid, current, target, l - 1)
    else Reductions(me, time, bestBid, current, target, l - 1)
  }

  /** Where less is offered than wanted, level by level. */
  function Additions(me: Agent, time: int, bestBid: int, current: seq<nat>, target: seq<nat>, l: nat): seq<Timed>
    requires l < |current| && l < |target|
  {
    if l == 0 then []
    else if target[l] > current[l] then
      var volume: Lots := target[l] - current[l];
      Additions(me, time, bestBid, current, target, l - 1) + [Timed(Limit(me, Ask, bestBid + l, volume), time)]
    else Additions(me, time, bestBid, current, target, l - 1)
  }

  function Removals(me: Agent, time: int, ids: seq<nat>): seq<Timed> {
    if ids == [] then [] else [Timed(Cancel(me, ids[0]), time)] + Removals(me, time, ids[1..])
  }

  function Sale(me: Agent, time: int, volume: nat): seq<Timed> {
    if volume > 0 then
      var v: Lots := volume;
      [Timed(Market(me, Bid, v), time)]
    else []
  }

  // ---------- lists of orders in a row ----------

  lemma {:induction false} RunConcat(b: Book, xs: seq<Timed>, ys: seq<Timed>)
    ensures Accepted(b, xs + ys) <==> Accepted(b, xs) && Accepted(Run(b, xs), ys)
    ensures Run(b, xs + ys) == Run(Run(b, xs), ys)
    decreases |xs|
  {
    hide Process;
    if xs == [] {
      assert xs + ys == ys;
    } else {
      assert (xs + ys)[1..] == xs[1..] + ys;
      var r := Process(b, xs[0].order, xs[0].time);
      RunConcat(if r.Ok? then r.value else b, xs[1..], ys);
    }
  }

  lemma RunOne(b: Book, x: Timed)
    requires Process(b, x.order, x.time).Ok?
    ensures Accepted(b, [x]) && Run(b, [x]) == Process(b, x.order, x.time).value
  {
    hide Process;
    assert [x][1..] == [];
  }

  lemma RunFirst(b: Book, x: Timed, xs: seq<Timed>)
    requires Process(b, x.order, x.time).Ok?
    ensures Accepted(b, [x] + xs) <==> Accepted(Process(b, x.order, x.time).value, xs)
    ensures Run(b, [x] + xs) == Run(Process(b, x.order, x.time).value, xs)
  {
    hide Process;
    assert ([x] + xs)[1..] == xs;
  }

  // ---------- what stays true while the list is processed ----------

  predicate BidsUpTo(os: seq<Resting>, bestBid: int) {
    forall i :: 0 <= i < |os| && os[i].side == Bid ==> os[i].price <= bestBid
  }

  ghost predicate Ready(b: Book, me: Agent, time: int, bestBid: int) {
    && BookInv(b) && me in b.agents && !Late(b.clock, time)
    && OwnAsks(b.orders, me) && BidsUpTo(b.orders, bestBid)
  }

  lemma ThinnedBids(os: seq<Resting>, os': seq<Resting>, bestBid: int)
    requires Thinned(os, os') && BidsUpTo(os, bestBid)
    ensures BidsUpTo(os', bestBid)
  {
    forall i | 0 <= i < |os'| && os'[i].side == Bid
      ensures os'[i].price <= bestBid
    {
      assert os'[i] in os';
      var j :| 0 <= j < |os| && LeftOf(os'[i], os[j]);
    }
  }

  lemma ReadyAfter(b: Book, me: Agent, time: int, bestBid: int, o: Order)
    requires Ready(b, me, time, bestBid) && o.agent == me && Sells(o) && Process(b, o, time).Ok?
    ensures Ready(Process(b, o, time).value, me, time, bestBid)
  {
    hide Sound, Uncrossed, Volume, Take;
    ProcessKeeps(b, o, time);
    ApplyOwnAsks(b.orders, b.updates, o, me);
    if !o.Limit? {
      ApplyThins(b.orders, b.updates, o);
      ThinnedBids(b.orders, Process(b, o, time).value.orders, bestBid);
    }
  }

  // ---------- reductions ----------

  lemma ReduceOne(b: Book, me: Agent, time: int, bestBid: int, price: int, v: Lots)
    requires Ready(b, me, time, bestBid) && v <= Offered(b.orders, me, price)
    ensures var o := CancelVolume(me, Ask, price, v);
            && Process(b, o, time).Ok? && Process(b, o, time).value.agents == b.agents
            && (forall p :: Offered(Process(b, o, time).value.orders, me, p) == Offered(b.orders, me, p) - if p == price then v else 0)
            && (forall x :: x in b.orders && (x.side == Bid || x.agent != me || x.price != price) ==> x in Process(b, o, time).value.orders)
            && Thinned(b.orders, Process(b, o, time).value.orders)
            && BidVolume(Process(b, o, time).value.orders) == BidVolume(b.orders)
  {
    hide Sound, Uncrossed, Volume, CancelNewest, CancelCount, Thinned;
    var o, os := CancelVolume(me, Ask, price, v), b.orders;
    VolumeAtMost(OwnLevel(me, Ask, price), Level(Ask, price), os);
    var os' := CancelNewest(os, |os|, me, Ask, price, v);
    assert os[..|os|] == os;
    ThinnedCancel(os, |os|, me, Ask, price, v);
    CancelOutside(os, |os|, me, Ask, price, v, Whole(Bid));
    forall p
      ensures Offered(os', me, p) == Offered(os, me, p) - if p == price then v else 0
    {
      if p == price {
        CancelConserves(os, |os|, me, Ask, price, v, OwnLevel(me, Ask, price));
      } else {
        CancelOutside(os, |os|, me, Ask, price, v, OwnLevel(me, Ask, p));
      }
    }
    forall x | x in os && (x.side == Bid || x.agent != me || x.price != price)
      ensures x in os'
    {
      CancelSpares(os, |os|, me, Ask, price, v, x);
    }
  }

  /** After the reductions every level of the range offers at most what is wanted, and nothing else has changed. */
  lemma {:induction false} ReductionsLand(b: Book, me: Agent, time: int, bestBid: int, current: seq<nat>, target: seq<nat>, l: nat)
    requires Ready(b, me, time, bestBid) && l < |current| && l < |target|
    requires forall k :: 1 <= k <= l ==> Offered(b.orders, me, bestBid + k) == current[k]
    ensures var list := Reductions(me, time, bestBid, current, target, l);
            && Accepted(b, list) && Ready(Run(b, list), me, time, bestBid)
            && (forall p :: Offered(Run(b, list).orders, me, p)
                  == if InRange(p, bestBid, l) then Lesser(current[p - bestBid], target[p - bestBid]) else Offered(b.orders, me, p))
            && (forall x :: x in b.orders && (x.side == Bid || x.agent != me || !InRange(x.price, bestBid, l)) ==> x in Run(b, list).orders)
            && Thinned(b.orders, Run(b, list).orders)
            && BidVolume(Run(b, list).orders) == BidVolume(b.orders)
    decreases l
  {
    hide Process, Volume, Thinned, BidsUpTo, OwnAsks, Late, Sound, Uncrossed;
    if l == 0 {
      ThinnedSame(b.orders);
    } else {
      if target[l] < current[l] {
        var v: Lots := current[l] - target[l];
        var o := CancelVolume(me, Ask, bestBid + l, v);
        ReduceOne(b, me, time, bestBid, bestBid + l, v);
        ReadyAfter(b, me, time, bestBid, o);
        var b' := Process(b, o, time).value;
        ReductionsLand(b', me, time, bestBid, current, target, l - 1);
        RunFirst(b, Timed(o, time), Reductions(me, time, bestBid, current, target, l - 1));
        ThinnedTwice(b.orders, b'.orders, Run(b', Reductions(me, time, bestBid, current, target, l - 1)).orders);
      } else {
        ReductionsLand(b, me, time, bestBid, current, target, l - 1);
      }
    }
  }

  // ---------- removals ----------

  predicate Distinct(ids: seq<nat>) {
    forall i, j :: 0 <= i < j < |ids| ==> ids[i] != ids[j]
  }

  /** The ids are exactly those of the agent's orders out of range. */
  ghost predicate OutOfRange(os: seq<Resting>, me: Agent, bestBid: int, levels: nat, ids: seq<nat>) {
    && Distinct(ids)
    && (forall i :: 0 <= i < |os| && os[i].agent == me ==> (os[i].id in ids <==> !InRange(os[i].price, bestBid, levels)))
    && (forall k :: 0 <= k < |ids| ==> HasOwn(os, ids[k], me))
  }

  predicate HasOwn(os: seq<Resting>, id: nat, me: Agent) {
    exists i :: 0 <= i < |os| && os[i].id == id && os[i].agent == me
  }

  lemma OutOfRangeRest(os: seq<Resting>, me: Agent, bestBid: int, levels: nat, ids: seq<nat>, i: nat)
    requires Sound(os) && OutOfRange(os, me, bestBid, levels, ids) && ids != [] && i < |os| && os[i].id == ids[0]
    ensures OutOfRange(Remove(os, i), me, bestBid, levels, ids[1..])
  {
    var r := Remove(os, i);
    forall k | 0 <= k < |r|
      ensures r[k] == os[if k < i then k else k + 1] && r[k].id != ids[0]
      ensures r[k].id in ids[1..] <==> r[k].id in ids
    {
      RemoveFrom(os, i, k);
      assert ids == [ids[0]] + ids[1..];
    }
    forall k | 0 <= k < |ids| - 1
      ensures HasOwn(r, ids[1..][k], me)
    {
      assert ids[1..][k] == ids[k + 1] && HasOwn(os, ids[k + 1], me);
      var j :| 0 <= j < |os| && os[j].id == ids[k + 1] && os[j].agent == me;
      RemoveAt(os, i, j);
      assert r[if j < i then j else j - 1] == os[j];
    }
  }

  /** After the removals nothing of the agent is left out of range, and what is in range has not changed. */
  lemma {:induction false} RemovalsLand(b: Book, me: Agent, time: int, bestBid: int, levels: nat, ids: seq<nat>)
    requires Ready(b, me, time, bestBid) && OutOfRange(b.orders, me, bestBid, levels, ids)
    ensures var list := Removals(me, time, ids);
            && Accepted(b, list) && Ready(Run(b, list), me, time, bestBid)
            && OutOfRange(Run(b, list).orders, me, bestBid, levels, [])
            && (forall p :: InRange(p, bestBid, levels) ==> Offered(Run(b, list).orders, me, p) == Offered(b.orders, me, p))
            && (forall x :: x in b.orders && x.agent != me ==> x in Run(b, list).orders)
            && BidVolume(Run(b, list).orders) == BidVolume(b.orders)
    decreases |ids|
  {
    hide Volume, Uncrossed, BidsUpTo, OwnAsks, Late, OutOfRange, Position, Remove;
    if ids == [] {
    } else {
      var os, o := b.orders, Cancel(me, ids[0]);
      var i := RemovalIs(b, me, time, bestBid, levels, ids);
      ReadyAfter(b, me, time, bestBid, o);
      var b' := Process(b, o, time).value;
      OutOfRangeRest(os, me, bestBid, levels, ids, i);
      RemovalsLand(b', me, time, bestBid, levels, ids[1..]);
      RunFirst(b, Timed(o, time), Removals(me, time, ids[1..]));
      VolumeRemove(Whole(Bid), os, i);
      forall p | InRange(p, bestBid, levels)
        ensures Offered(b'.orders, me, p) == Offered(os, me, p)
      {
        VolumeRemove(OwnLevel(me, Ask, p), os, i);
      }
      forall x | x in os && x.agent != me
        ensures x in b'.orders
      {
        RemoveMember(os, i, x);
        DifferentIds(os, i, x);
      }
    }
  }

  lemma RemovalIs(b: Book, me: Agent, time: int, bestBid: int, levels: nat, ids: seq<nat>) returns (i: nat)
    requires Ready(b, me, time, bestBid) && OutOfRange(b.orders, me, bestBid, levels, ids) && ids != []
    ensures i < |b.orders| && b.orders[i].id == ids[0] && b.orders[i].agent == me && b.orders[i].side == Ask
    ensures !InRange(b.orders[i].price, bestBid, levels)
    ensures var r := Process(b, Cancel(me, ids[0]), time); r.Ok? && r.value.orders == Remove(b.orders, i)
  {
    var os := b.orders;
    assert HasOwn(os, ids[0], me);
    i :| 0 <= i < |os| && os[i].id == ids[0] && os[i].agent == me;
    PositionIs(os, i);
  }

  // ---------- the market order and the additions ----------

  ghost predicate AllInRange(os: seq<Resting>, me: Agent, bestBid: int, levels: nat) {
    forall i :: 0 <= i < |os| && os[i].agent == me ==> InRange(os[i].price, bestBid, levels)
  }

  /** The market order sells into the bids and leaves the agent's offers alone. */
  lemma SaleLands(b: Book, me: Agent, time: int, bestBid: int, levels: nat, v: Lots)
    requires Ready(b, me, time, bestBid) && HasSide(b.orders, Bid) && AllInRange(b.orders, me, bestBid, levels)
    ensures var r := Process(b, Market(me, Bid, v), time);
            && r.Ok? && Ready(r.value, me, time, bestBid) && AllInRange(r.value.orders, me, bestBid, levels)
            && (forall p :: Offered(r.value.orders, me, p) == Offered(b.orders, me, p))
  {
    hide Sound, Uncrossed, Volume, Take;
    var o := Market(me, Bid, v);
    ReadyAfter(b, me, time, bestBid, o);
    var os' := Process(b, o, time).value.orders;
    forall p
      ensures Offered(os', me, p) == Offered(b.orders, me, p)
    {
      TakeOutside(b.orders, Bid, v, OwnLevel(me, Ask, p));
    }
    ThinnedTake(b.orders, Bid, v);
    forall i | 0 <= i < |os'| && os'[i].agent == me
      ensures InRange(os'[i].price, bestBid, levels)
    {
      assert os'[i] in os';
      var j :| 0 <= j < |b.orders| && LeftOf(os'[i], b.orders[j]);
    }
  }

  lemma AddOne(b: Book, me: Agent, time: int, bestBid: int, levels: nat, price: int, v: Lots)
    requires Ready(b, me, time, bestBid) && AllInRange(b.orders, me, bestBid, levels) && InRange(price, bestBid, levels)
    ensures var r := Process(b, Limit(me, Ask, price, v), time);
            && r.Ok? && Ready(r.value, me, time, bestBid) && AllInRange(r.value.orders, me, bestBid, levels)
            && (forall p :: Offered(r.value.orders, me, p) == Offered(b.orders, me, p) + if p == price then v else 0)
  {
    hide Sound, Uncrossed, Volume;
    var o := Limit(me, Ask, price, v);
    assert !Crosses(b.orders, Ask, price);
    ReadyAfter(b, me, time, bestBid, o);
    var x := Resting(b.updates, me, Ask, price, v);
    forall p
      ensures Offered(b.orders + [x], me, p) == Offered(b.orders, me, p) + if p == price then v else 0
    {
      VolumeAppend(OwnLevel(me, Ask, p), b.orders, x);
    }
  }

  lemma {:induction false} AdditionsLand(b: Book, me: Agent, time: int, bestBid: int, levels: nat, current: seq<nat>, target: seq<nat>, l: nat)
    requires Ready(b, me, time, bestBid) && AllInRange(b.orders, me, bestBid, levels)
    requires l <= levels && l < |current| && l < |target|
    requires forall k :: 1 <= k <= l ==> Offered(b.orders, me, bestBid + k) == Lesser(current[k], target[k])
    ensures var list := Additions(me, time, bestBid, current, target, l);
            && Accepted(b, list) && Ready(Run(b, list), me, time, bestBid)
            && AllInRange(Run(b, list).orders, me, bestBid, levels)
            && (forall p :: Offered(Run(b, list).orders, me, p)
                  == if InRange(p, bestBid, l) then target[p - bestBid] else Offered(b.orders, me, p))
    decreases l
  {
    hide Process, Volume, Ready, AllInRange;
    if l == 0 {
    } else {
      AdditionsLand(b, me, time, bestBid, levels, current, target, l - 1);
      if target[l] > current[l] {
        var before := Additions(me, time, bestBid, current, target, l - 1);
        var v: Lots := target[l] - current[l];
        var o := Limit(me, Ask, bestBid + l, v);
        var b' := Run(b, before);
        AddOne(b', me, time, bestBid, levels, bestBid + l, v);
        RunOne(b', Timed(o, time));
        RunConcat(b, before, [Timed(o, time)]);
      }
    }
  }

  // ---------- the whole list ----------

  function OrderList(me: Agent, time: int, bestBid: int, levels: nat, current: seq<nat>, target: seq<nat>, ids: seq<nat>): seq<Timed>
    requires levels < |current| && levels < |target|
  {
    Reductions(me, time, bestBid, current, target, levels) + (Removals(me, time, ids)
      + (Sale(me, time, target[0]) + Additions(me, time, bestBid, current, target, levels)))
  }

  /** The situation in which the agent makes its list. */
  ghost predicate Observed(b: Book, me: Agent, time: int, bestBid: int, levels: nat, current: seq<nat>, ids: seq<nat>) {
    && Ready(b, me, time, bestBid) && HasSide(b.orders, Bid)
    && levels < |current| && (forall k :: 1 <= k <= levels ==> Offered(b.orders, me, bestBid + k) == current[k])
    && OutOfRange(b.orders, me, bestBid, levels, ids)
  }

  /** After reductions and removals: offers at most what is wanted at every level, nothing elsewhere, and bids are left. */
  ghost predicate Freed(b: Book, me: Agent, time: int, bestBid: int, levels: nat, current: seq<nat>, target: seq<nat>) {
    && Ready(b, me, time, bestBid) && HasSide(b.orders, Bid) && AllInRange(b.orders, me, bestBid, levels)
    && levels < |current| && levels < |target|
    && forall k :: 1 <= k <= levels ==> Offered(b.orders, me, bestBid + k) == Lesser(current[k], target[k])
  }

  lemma Freeing(b: Book, me: Agent, time: int, bestBid: int, levels: nat, current: seq<nat>, target: seq<nat>, ids: seq<nat>)
    requires Observed(b, me, time, bestBid, levels, current, ids) && levels < |target|
    ensures var xs, ys := Reductions(me, time, bestBid, current, target, levels), Removals(me, time, ids);
            && Accepted(b, xs) && Accepted(Run(b, xs), ys)
            && Freed(Run(Run(b, xs), ys), me, time, bestBid, levels, current, target)
            && BidVolume(Run(Run(b, xs), ys).orders) == BidVolume(b.orders)
  {
    hide Process, Offered, BidVolume, Run, Accepted, Reductions, Removals, Thinned, OutOfRange, AllInRange, HasSide, BookInv, Late, BidsUpTo, OwnAsks;
    var xs := Reductions(me, time, bestBid, current, target, levels);
    ReductionsLand(b, me, time, bestBid, current, target, levels);
    var b1 := Run(b, xs);
    BidsStay(b.orders, b1.orders, me);
    ReductionsSpare(b, b1, me, bestBid, levels, ids, time);
    RemovalsLand(b1, me, time, bestBid, levels, ids);
    var b2 := Run(b1, Removals(me, time, ids));
    BidsStay(b1.orders, b2.orders, me);
    NothingOutside(b2.orders, me, bestBid, levels);
    forall k | 1 <= k <= levels
      ensures Offered(b2.orders, me, bestBid + k) == Lesser(current[k], target[k])
    {
      assert InRange(bestBid + k, bestBid, levels);
    }
  }

  lemma BidsStay(os: seq<Resting>, os': seq<Resting>, me: Agent)
    requires HasSide(os, Bid) && OwnAsks(os, me) && forall x :: x in os && x.agent != me && x.side == Bid ==> x in os'
    ensures HasSide(os', Bid)
  {
    var i :| 0 <= i < |os| && os[i].side == Bid;
    assert os[i] in os;
  }

  lemma NothingOutside(os: seq<Resting>, me: Agent, bestBid: int, levels: nat)
    requires OutOfRange(os, me, bestBid, levels, [])
    ensures AllInRange(os, me, bestBid, levels)
  {
  }

  /** The reductions leave the orders out of range as they were. */
  lemma ReductionsSpare(b: Book, b1: Book, me: Agent, bestBid: int, levels: nat, ids: seq<nat>, time: int)
    requires Ready(b, me, time, bestBid) && Ready(b1, me, time, bestBid) && OutOfRange(b.orders, me, bestBid, levels, ids)
    requires forall x :: x in b.orders && !InRange(x.price, bestBid, levels) ==> x in b1.orders
    requires Thinned(b.orders, b1.orders)
    ensures OutOfRange(b1.orders, me, bestBid, levels, ids)
  {
    var os, os' := b.orders, b1.orders;
    forall k | 0 <= k < |ids|
      ensures HasOwn(os', ids[k], me)
    {
      assert HasOwn(os, ids[k], me);
      var i :| 0 <= i < |os| && os[i].id == ids[k] && os[i].agent == me;
      assert os[i] in os';
      var j :| 0 <= j < |os'| && os'[j] == os[i];
    }
    forall i | 0 <= i < |os'| && os'[i].agent == me
      ensures os'[i].id in ids <==> !InRange(os'[i].price, bestBid, levels)
    {
      assert os'[i] in os';
      var j :| 0 <= j < |os| && LeftOf(os'[i], os[j]);
    }
  }

  /**
   * Processing the list: no order of it is refused, every level of the range ends up offering exactly its target,
   * and the agent has nothing at any other price.
   */
  lemma LandsOnTarget(b: Book, me: Agent, time: int, bestBid: int, levels: nat, current: seq<nat>, target: seq<nat>, ids: seq<nat>)
    requires Observed(b, me, time, bestBid, levels, current, ids) && levels < |target|
    ensures var list := OrderList(me, time, bestBid, levels, current, target, ids);
            && Accepted(b, list) && Ready(Run(b, list), me, time, bestBid)
            && (forall l :: 1 <= l <= levels ==> Offered(Run(b, list).orders, me, bestBid + l) == target[l])
            && AllInRange(Run(b, list).orders, me, bestBid, levels)
  {
    hide Offered, Run, Accepted, Reductions, Removals, Additions, Sale, OutOfRange, AllInRange, HasSide, Ready;
    var xs, ys := Reductions(me, time, bestBid, current, target, levels), Removals(me, time, ids);
    var zs, ws := Sale(me, time, target[0]), Additions(me, time, bestBid, current, target, levels);
    Freeing(b, me, time, bestBid, levels, current, target, ids);
    RunConcat(b, xs, ys + (zs + ws));
    var b2 := Run(Run(b, xs), ys);
    RunConcat(Run(b, xs), ys, zs + ws);
    Using(b2, me, time, bestBid, levels, current, target);
  }

  /** What the market order leaves. */
  function Sold(b: Book, me: Agent, time: int, volume: nat): Book {
    Run(b, Sale(me, time, volume))
  }

  lemma Selling(b: Book, me: Agent, time: int, bestBid: int, levels: nat, current: seq<nat>, target: seq<nat>)
    requires Freed(b, me, time, bestBid, levels, current, target)
    ensures Accepted(b, Sale(me, time, target[0]))
    ensures var b' := Sold(b, me, time, target[0]);
            && Ready(b', me, time, bestBid) && AllInRange(b'.orders, me, bestBid, levels)
            && (forall p :: Offered(b'.orders, me, p) == Offered(b.orders, me, p))
  {
    hide Process, Offered, AllInRange, HasSide, Ready;
    if target[0] > 0 {
      var v: Lots := target[0];
      SaleLands(b, me, time, bestBid, levels, v);
      RunOne(b, Timed(Market(me, Bid, v), time));
    }
  }

  lemma Using(b: Book, me: Agent, time: int, bestBid: int, levels: nat, current: seq<nat>, target: seq<nat>)
    requires Freed(b, me, time, bestBid, levels, current, target)
    ensures var list := Sale(me, time, target[0]) + Additions(me, time, bestBid, current, target, levels);
            && Accepted(b, list) && Ready(Run(b, list), me, time, bestBid)
            && (forall l :: 1 <= l <= levels ==> Offered(Run(b, list).orders, me, bestBid + l) == target[l])
            && AllInRange(Run(b, list).orders, me, bestBid, levels)
  {
    hide Offered, Run, Accepted, Additions, Sale, AllInRange, HasSide, Ready;
    Selling(b, me, time, bestBid, levels, current, target);
    AdditionsLand(Sold(b, me, time, target[0]), me, time, bestBid, levels, current, target, levels);
    RunConcat(b, Sale(me, time, target[0]), Additions(me, time, bestBid, current, target, levels));
    var list := Sale(me, time, target[0]) + Additions(me, time, bestBid, current, target, levels);
    forall l | 1 <= l <= levels
      ensures Offered(Run(b, list).orders, me, bestBid + l) == target[l]
    {
      assert InRange(bestBid + l, bestBid, levels);
    }
  }

  // ---------- totals ----------

  function SumOffered(os: seq<Resting>, me: Agent, bestBid: int, l: nat): nat {
    if l == 0 then 0 else SumOffered(os, me, bestBid, l - 1) + Offered(os, me, bestBid + l)
  }

  /** Lots of the agent at prices out of range. */
  function Outside(os: seq<Resting>, me: Agent, bestBid: int, levels: nat): nat {
    if os == [] then 0
    else
      var o := os[|os| - 1];
      Outside(os[..|os| - 1], me, bestBid, levels) + if o.agent == me && !InRange(o.price, bestBid, levels) then o.volume else 0
  }

  lemma {:induction false} SumOfferedAppend(os: seq<Resting>, o: Resting, me: Agent, bestBid: int, l: nat)
    ensures SumOffered(os + [o], me, bestBid, l) == SumOffered(os, me, bestBid, l)
              + if o.agent == me && o.side == Ask && InRange(o.price, bestBid, l) then o.volume else 0
  {
    hide Volume;
    if l == 0 {
    } else {
      SumOfferedAppend(os, o, me, bestBid, l - 1);
      VolumeAppend(OwnLevel(me, Ask, bestBid + l), os, o);
    }
  }

  lemma {:induction false} SumOfferedNone(me: Agent, bestBid: int, l: nat)
    ensures SumOffered([], me, bestBid, l) == 0
  {
    if l == 0 {
    } else {
      SumOfferedNone(me, bestBid, l - 1);
    }
  }

  /** All a seller has in the book is its offers in range and its orders out of range. */
  lemma {:induction false} OwnIsOffered(os: seq<Resting>, me: Agent, bestBid: int, levels: nat)
    requires OwnAsks(os, me)
    ensures Volume(Own(me), os) == SumOffered(os, me, bestBid, levels) + Outside(os, me, bestBid, levels)
  {
    hide SumOffered;
    if os == [] {
      SumOfferedNone(me, bestBid, levels);
    } else {
      var n := |os| - 1;
      OwnIsOffered(os[..n], me, bestBid, levels);
      assert os == os[..n] + [os[n]];
      SumOfferedAppend(os[..n], os[n], me, bestBid, levels);
    }
  }

  lemma {:induction false} NoneOutside(os: seq<Resting>, me: Agent, bestBid: int, levels: nat)
    requires AllInRange(os, me, bestBid, levels)
    ensures Outside(os, me, bestBid, levels) == 0
  {
    if os == [] {
    } else {
      NoneOutside(os[..|os| - 1], me, bestBid, levels);
    }
  }

  /** Lots wanted on the first l levels. */
  function Wanted(target: seq<nat>, l: nat): nat
    requires l < |target|
  {
    if l == 0 then 0 else Wanted(target, l - 1) + target[l]
  }

  lemma {:induction false} OfferedIsWanted(os: seq<Resting>, me: Agent, bestBid: int, target: seq<nat>, l: nat)
    requires l < |target| && forall k :: 1 <= k <= l ==> Offered(os, me, bestBid + k) == target[k]
    ensures SumOffered(os, me, bestBid, l) == Wanted(target, l)
  {
    if l == 0 {
    } else {
      OfferedIsWanted(os, me, bestBid, target, l - 1);
    }
  }

  lemma {:induction false} OfferedAtMostWanted(os: seq<Resting>, me: Agent, bestBid: int, target: seq<nat>, l: nat)
    requires l < |target| && forall k :: 1 <= k <= l ==> Offered(os, me, bestBid + k) <= target[k]
    ensures SumOffered(os, me, bestBid, l) <= Wanted(target, l)
  {
    if l == 0 {
    } else {
      OfferedAtMostWanted(os, me, bestBid, target, l - 1);
    }
  }
}
