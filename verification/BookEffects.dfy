/**
 * What an accepted order does to the book and what its message says of it, said of the orders themselves: which are
 * there before and after, and with which volume.
 */
module BookEffects {
  import opened Wrappers
  import opened OrderBook
  import opened BookSteps

  // ---------- limit orders ----------

  /**
   * The message of an accepted limit order names an order that now rests and did not before, with the order's owner,
   * side, price and volume; everything else rests as before, and the named order can be cancelled straight away, which
   * restores the book.
   */
  lemma LimitEffects(b: Book, o: Order, time: int, later: int)
    requires BookInv(b) && o.Limit? && Process(b, o, time).Ok? && time <= later
    ensures var m, b' := Reply(b.orders, b.updates, o), Process(b, o, time).value;
            && m.Placed? && m.agent == o.agent && m.side == o.side && m.price == o.price && m.volume == o.volume
            && (forall x :: x in b.orders ==> x.id != m.id)
            && (forall x :: x in b'.orders <==> x in b.orders || x == Resting(m.id, m.agent, m.side, m.price, m.volume))
            && var c := Process(b', Cancel(m.agent, m.id), later); c.Ok? && c.value.orders == b.orders
  {
    hide Uncrossed, Crosses, Sound;
    var m, b' := Reply(b.orders, b.updates, o), Process(b, o, time).value;
    var x := Resting(b.updates, o.agent, o.side, o.price, o.volume);
    assert b'.orders == b.orders + [x] && b'.orders[|b.orders|] == x;
    ProcessKeeps(b, o, time);
    PositionIs(b'.orders, |b.orders|);
    assert Remove(b'.orders, |b.orders|) == b.orders;
  }

  /** A limit order is accepted exactly if no opposite order rests at its price or beyond it and it has no id of its own. */
  lemma LimitAcceptedIff(b: Book, o: Order, time: int)
    requires BookInv(b) && o.Limit? && o.agent in b.agents && !Late(b.clock, time)
    ensures Process(b, o, time).Ok? <==>
              && (forall x :: x in b.orders && x.side != o.side ==> if o.side == Bid then o.price < x.price else x.price < o.price)
              && (o.given == None || o.given == Some(0))
  {
    hide Sound, Uncrossed;
    CrossesIff(b.orders, o.side, o.price);
  }

  lemma CrossesIff(os: seq<Resting>, side: Side, price: int)
    ensures Crosses(os, side, price) <==> exists x :: x in os && x.side != side && if side == Bid then x.price <= price else price <= x.price
  {
    if HasSide(os, Opposite(side)) {
      var b := Best(os, Opposite(side));
      assert os[b] in os;
    }
    if x :| x in os && x.side != side && if side == Bid then x.price <= price else price <= x.price {
      var i :| 0 <= i < |os| && os[i] == x;
      assert os[i].side == Opposite(side);
    }
  }

  /** An order is accepted only from a registered agent and not before the last one; each update is counted and sets the time. */
  lemma AcceptedAdvances(b: Book, o: Order, time: int)
    requires Process(b, o, time).Ok?
    ensures var b' := Process(b, o, time).value;
            && o.agent in b.agents && (b.clock.Some? ==> b.clock.value <= time)
            && b'.agents == b.agents && b'.clock == Some(time)
            && b'.updates > b.updates && (!o.CancelVolume? ==> b'.updates == b.updates + 1)
            && (o.Limit? ==> Reply(b.orders, b.updates, o).id == b.updates)
  {
    hide Take, Fills, CancelNewest, Crosses;
  }

  /** The message of a cancellation by price and volume gives what it took off, the requested volume or all the agent had there. */
  lemma VolumeCancelEffects(b: Book, o: Order, time: int)
    requires BookInv(b) && o.CancelVolume? && o.agent in b.agents && !Late(b.clock, time)
    ensures Process(b, o, time).Ok? <==> Volume(Level(o.side, o.price), b.orders) > 0
    ensures Process(b, o, time).Ok? ==>
              var m, os' := Reply(b.orders, b.updates, o), Process(b, o, time).value.orders;
              var own, own' := Volume(OwnLevel(o.agent, o.side, o.price), b.orders), Volume(OwnLevel(o.agent, o.side, o.price), os');
              && own' == (if o.volume < own then own - o.volume else 0)
              && m == VolumeCancelled(o.agent, o.side, o.price, o.volume, own - own')
  {
    hide Volume, Sound, Uncrossed, CancelNewest;
    BookSound(b);
    assert b.orders[..|b.orders|] == b.orders;
    CancelConserves(b.orders, |b.orders|, o.agent, o.side, o.price, o.volume, OwnLevel(o.agent, o.side, o.price));
  }

  // ---------- cancellations and modifications ----------

  /** A cancellation is accepted exactly if the agent's own order with that id rests; it goes, and the message describes it. */
  lemma CancelEffects(b: Book, agent: Agent, id: nat, time: int)
    requires BookInv(b) && agent in b.agents && !Late(b.clock, time)
    ensures Process(b, Cancel(agent, id), time).Ok? <==> exists x :: x in b.orders && x.id == id && x.agent == agent
    ensures forall x :: x in b.orders && x.id == id && x.agent == agent ==>
              && Reply(b.orders, b.updates, Cancel(agent, id)) == Cancelled(agent, id, x.side, x.price, x.volume)
              && forall y :: y in Process(b, Cancel(agent, id), time).value.orders <==> y in b.orders && y.id != id
  {
    hide Uncrossed, Sound;
    var i := Position(b.orders, id);
    if exists x :: x in b.orders && x.id == id && x.agent == agent {
      forall x | x in b.orders && x.id == id
        ensures i < |b.orders| && b.orders[i] == x
      {
        FoundAt(b.orders, x);
      }
      forall y
        ensures y in Remove(b.orders, i) <==> y in b.orders && y.id != id
      {
        RemoveMember(b.orders, i, y);
      }
    }
  }

  lemma FoundAt(os: seq<Resting>, x: Resting)
    requires Sound(os) && x in os
    ensures Position(os, x.id) < |os| && os[Position(os, x.id)] == x
  {
    var i :| 0 <= i < |os| && os[i] == x;
    PositionIs(os, i);
  }

  /**
   * A modification is accepted exactly if an order with that id rests and gets smaller, whoever asks; the message gives
   * its side and its volume after and before, and nothing else changes.
   */
  lemma ModifyEffects(b: Book, agent: Agent, id: nat, volume: Lots, time: int)
    requires BookInv(b) && agent in b.agents && !Late(b.clock, time)
    ensures Process(b, Modify(agent, id, volume), time).Ok? <==> exists x :: x in b.orders && x.id == id && volume < x.volume
    ensures forall x :: x in b.orders && x.id == id && volume < x.volume ==>
              && Reply(b.orders, b.updates, Modify(agent, id, volume)) == Modified(agent, id, x.side, volume, x.volume)
              && forall y :: y in Process(b, Modify(agent, id, volume), time).value.orders
                             <==> (y in b.orders && y.id != id) || y == x.(volume := volume)
  {
    hide Uncrossed, Sound;
    var i := Position(b.orders, id);
    forall x | x in b.orders && x.id == id
      ensures i < |b.orders| && b.orders[i] == x
    {
      FoundAt(b.orders, x);
    }
    if i < |b.orders| {
      assert b.orders[i] in b.orders;
      forall y
        ensures y in Resize(b.orders, i, volume) <==> (y in b.orders && y.id != id) || y == b.orders[i].(volume := volume)
      {
        ResizeMember(b.orders, i, volume, y);
      }
    }
  }

  // ---------- market orders ----------

  /** What a market order of v lots takes of order x: what is left of it after everything with priority over x. */
  function Share(os: seq<Resting>, v: nat, x: Resting): nat {
    var ahead := Volume(Before(x), os);
    if v <= ahead then 0 else Lesser(v - ahead, x.volume)
  }

  predicate IsFilled(fs: seq<Fill>, x: Resting) {
    exists i :: 0 <= i < |fs| && fs[i].order == x
  }

  /** Each order is filled by exactly its share, and listed exactly if that is not nothing. */
  lemma {:induction false} FillsAreShares(os: seq<Resting>, side: Side, v: nat, x: Resting)
    requires Sound(os) && x in os && x.side == side
    ensures var fs := Fills(os, side, v);
            && (Share(os, v, x) > 0 <==> IsFilled(fs, x))
            && forall i :: 0 <= i < |fs| && fs[i].order == x ==> fs[i].quantity == Share(os, v, x)
    decreases |os|
  {
    hide Sound, Volume, Remove;
    HasOrder(os, x);
    if v == 0 {
    } else {
      var b := Best(os, side);
      BestFirst(os, side, x);
      BestHasNoneBefore(os, side);
      if x == os[b] {
        BestIsFilled(os, side, v);
      } else {
        OtherIsNotBest(os, b, x);
        if v < os[b].volume {
        } else {
          SoundRemove(os, b);
          RemoveMember(os, b, x);
          VolumeRemove(Before(x), os, b);
          FillsAreShares(Remove(os, b), side, v - os[b].volume, x);
          LaterFills(os, side, v, x);
        }
      }
    }
  }

  lemma HasOrder(os: seq<Resting>, x: Resting)
    requires x in os
    ensures HasSide(os, x.side)
  {
  }

  /** Every other order of the side waits for the best one. */
  lemma BestFirst(os: seq<Resting>, side: Side, x: Resting)
    requires Sound(os) && x in os && x.side == side && HasSide(os, side)
    ensures var b := Best(os, side); x != os[b] ==> Inside(Before(x), os[b]) && os[b].volume <= Volume(Before(x), os)
  {
    hide Volume;
    var b := Best(os, side);
    if x != os[b] {
      OtherIsNotBest(os, b, x);
      BestIsPrior(os, side, x);
      VolumeMember(Before(x), os, b);
    }
  }

  lemma OtherIsNotBest(os: seq<Resting>, b: nat, x: Resting)
    requires Sound(os) && x in os && b < |os| && x != os[b]
    ensures x.id != os[b].id
  {
    var i :| 0 <= i < |os| && os[i] == x;
  }

  lemma BestHasNoneBefore(os: seq<Resting>, side: Side)
    requires Sound(os) && HasSide(os, side)
    ensures Volume(Before(os[Best(os, side)]), os) == 0
  {
    VolumeZero(Before(os[Best(os, side)]), os);
  }

  lemma BestIsFilled(os: seq<Resting>, side: Side, v: nat)
    requires Sound(os) && HasSide(os, side) && v > 0
    ensures var fs, x := Fills(os, side, v), os[Best(os, side)];
            && fs != [] && fs[0] == Fill(x, Lesser(v, x.volume)) && x.volume > 0
            && forall i :: 0 < i < |fs| ==> fs[i].order != x
  {
    var b := Best(os, side);
    if v >= os[b].volume {
      var r := Remove(os, b);
      var gs := Fills(r, side, v - os[b].volume);
      SoundRemove(os, b);
      forall i | 0 <= i < |gs|
        ensures gs[i].order != os[b]
      {
        FillsRested(r, side, v - os[b].volume, i);
        RemoveMember(os, b, gs[i].order);
      }
    }
  }

  lemma LaterFills(os: seq<Resting>, side: Side, v: nat, x: Resting)
    requires HasSide(os, side) && v > 0 && v >= os[Best(os, side)].volume && x != os[Best(os, side)]
    ensures var fs, gs := Fills(os, side, v), Fills(Remove(os, Best(os, side)), side, v - os[Best(os, side)].volume);
            && (IsFilled(fs, x) <==> IsFilled(gs, x))
            && forall i :: 0 <= i < |fs| && fs[i].order == x ==> i > 0 && fs[i] == gs[i - 1]
  {
    var b := Best(os, side);
    var fs, gs := Fills(os, side, v), Fills(Remove(os, b), side, v - os[b].volume);
    assert fs == [Fill(os[b], os[b].volume)] + gs;
    if IsFilled(gs, x) {
      var i :| 0 <= i < |gs| && gs[i].order == x;
      assert fs[i + 1].order == x;
    }
    if IsFilled(fs, x) {
      var i :| 0 <= i < |fs| && fs[i].order == x;
      assert gs[i - 1].order == x;
    }
  }

  /** The queue position is the share's wait at the best price: nothing better ahead, then the same volume. */
  lemma QueueIsWait(os: seq<Resting>, i: nat)
    requires Sound(os) && i < |os|
    ensures Ahead(os, i) <= Volume(Before(os[i]), os)
    ensures (forall j :: 0 <= j < |os| && os[j].side == os[i].side ==> !Better(os[i].side, os[j].price, os[i].price))
            ==> Ahead(os, i) == Volume(Before(os[i]), os)
  {
    WaitUpTo(os, i, |os|);
    assert os[..|os|] == os;
  }

  lemma {:induction false} WaitUpTo(os: seq<Resting>, i: nat, n: nat)
    requires Sound(os) && i < |os| && n <= |os|
    ensures Volume(Level(os[i].side, os[i].price), os[..if n < i then n else i]) <= Volume(Before(os[i]), os[..n])
    ensures (forall j :: 0 <= j < |os| && os[j].side == os[i].side ==> !Better(os[i].side, os[j].price, os[i].price))
            ==> Volume(Level(os[i].side, os[i].price), os[..if n < i then n else i]) == Volume(Before(os[i]), os[..n])
  {
    hide Volume;
    if n == 0 {
      Nothing(Level(os[i].side, os[i].price), os);
      Nothing(Before(os[i]), os);
    } else {
      WaitUpTo(os, i, n - 1);
      VolumeStep(Before(os[i]), os, n);
      if n <= i {
        VolumeStep(Level(os[i].side, os[i].price), os, n);
      }
    }
  }

  lemma Nothing(m: Slice, os: seq<Resting>)
    ensures Volume(m, os[..0]) == 0
  {
  }

  /**
   * The message of a market order: what it asked for, what it got, which is all there is at most, each resting order's
   * share, and cash that adds up price times quantity over the fills.
   */
  lemma MarketEffects(b: Book, o: Order, time: int)
    requires BookInv(b) && o.Market? && o.agent in b.agents && !Late(b.clock, time)
    ensures Process(b, o, time).Ok? <==> exists x :: x in b.orders && x.side == o.side
    ensures Process(b, o, time).Ok? ==>
              var m, b' := Reply(b.orders, b.updates, o), Process(b, o, time).value;
              && m.Traded? && m.agent == o.agent && m.side == o.side && m.requested == o.volume
              && m.filled == Lesser(o.volume, Volume(Whole(o.side), b.orders))
              && (forall x :: x in b.orders && x.side == o.side ==> ShareOf(b.orders, o.volume, x, m.fills))
              && (forall i :: 0 <= i < |m.fills| ==> m.fills[i].order in b.orders && m.fills[i].order.side == o.side)
              && m.cash == Cash(m.fills)
  {
    hide Uncrossed, Sound, Volume, Share, Take, Fills, Filled, Cash;
    BookSound(b);
    SideHas(b.orders, o.side);
    TakeConserves(b.orders, o.side, o.volume);
    var fs := Fills(b.orders, o.side, o.volume);
    forall x | x in b.orders && x.side == o.side
      ensures ShareOf(b.orders, o.volume, x, fs)
    {
      FillsAreShares(b.orders, o.side, o.volume, x);
    }
    forall i | 0 <= i < |fs|
      ensures fs[i].order in b.orders && fs[i].order.side == o.side
    {
      FillsRested(b.orders, o.side, o.volume, i);
    }
  }

  ghost predicate ShareOf(os: seq<Resting>, v: nat, x: Resting, fs: seq<Fill>) {
    && (Share(os, v, x) > 0 <==> IsFilled(fs, x))
    && forall i :: 0 <= i < |fs| && fs[i].order == x ==> fs[i].quantity == Share(os, v, x)
  }

  lemma BookSound(b: Book)
    requires BookInv(b)
    ensures Sound(b.orders)
  {
  }

  lemma SideHas(os: seq<Resting>, side: Side)
    ensures HasSide(os, side) <==> exists x :: x in os && x.side == side
  {
    if HasSide(os, side) {
      var i :| 0 <= i < |os| && os[i].side == side;
      assert os[i] in os;
    }
  }

  /** The cash of a list of fills is price times quantity for one fill, and adds up. */
  lemma {:induction false} CashAdds(fs: seq<Fill>, gs: seq<Fill>, f: Fill)
    ensures Cash([]) == 0 && Cash([f]) == f.order.price * f.quantity && Cash(fs + gs) == Cash(fs) + Cash(gs)
    decreases |fs|
  {
    assert [f][1..] == [];
    if fs == [] {
      assert fs + gs == gs;
    } else {
      assert (fs + gs)[1..] == fs[1..] + gs;
      CashAdds(fs[1..], gs, f);
    }
  }

  // ---------- cancellations by price and volume ----------

  /** Lots of the agent at the price that are newer than the order at position j, among the first i orders. */
  function Newer(os: seq<Resting>, j: nat, i: nat): nat
    requires j < i <= |os|
  {
    Volume(OwnLevel(os[j].agent, os[j].side, os[j].price), os[j + 1..i])
  }

  /** What the cancellation takes off the order at position j: what is left of it after all newer ones. */
  function Loss(os: seq<Resting>, j: nat, i: nat, v: nat): nat
    requires j < i <= |os|
  {
    if v <= Newer(os, j, i) then 0 else Lesser(v - Newer(os, j, i), os[j].volume)
  }

  /** Newest first, exactly: each of the agent's orders at the price loses its part, and goes when that is all of it. */
  lemma {:induction false} CancelsNewestFirst(os: seq<Resting>, i: nat, v: nat, j: nat)
    requires Sound(os) && j < i <= |os|
    ensures var os' := CancelNewest(os, i, os[j].agent, os[j].side, os[j].price, v);
            if Loss(os, j, i, v) == os[j].volume then !HasId(os', os[j].id)
            else os[j].(volume := os[j].volume - Loss(os, j, i, v)) in os'
    decreases i
  {
    hide Sound, Volume, Remove, Resize, HasId;
    var x, y := os[j], os[i - 1];
    VolumesPositive(os, j);
    if v == 0 {
      assert os[j].(volume := os[j].volume) == os[j];
    } else {
      NewerStep(os, j, i);
      if j == i - 1 {
        NewestLoses(os, i, v);
      } else if !OwnAt(y, x.agent, x.side, x.price) {
        CancelsNewestFirst(os, i - 1, v, j);
      } else if v < y.volume {
        assert os[j].(volume := os[j].volume) == os[j];
        DifferentAt(os, j, i - 1);
        ResizeMember(os, i - 1, y.volume - v, x);
      } else {
        RemoveFrom(os, i - 1, j);
        SoundRemove(os, i - 1);
        NewerRemoved(os, j, i);
        CancelsNewestFirst(Remove(os, i - 1), i - 1, v - y.volume, j);
      }
    }
  }

  lemma VolumesPositive(os: seq<Resting>, j: nat)
    requires Sound(os) && j < |os|
    ensures os[j].volume > 0
  {
  }

  lemma DifferentAt(os: seq<Resting>, j: nat, i: nat)
    requires Sound(os) && j < i < |os|
    ensures os[j].id != os[i].id && os[j] in os
  {
  }

  lemma NewerStep(os: seq<Resting>, j: nat, i: nat)
    requires j < i <= |os|
    ensures j == i - 1 ==> Newer(os, j, i) == 0
    ensures j < i - 1 ==>
              Newer(os, j, i) == Newer(os, j, i - 1)
                                 + if OwnAt(os[i - 1], os[j].agent, os[j].side, os[j].price) then os[i - 1].volume else 0
  {
    if j < i - 1 {
      assert os[j + 1..i] == os[j + 1..i - 1] + [os[i - 1]];
      VolumeAppend(OwnLevel(os[j].agent, os[j].side, os[j].price), os[j + 1..i - 1], os[i - 1]);
    } else {
      assert os[j + 1..i] == [];
    }
  }

  lemma NewerRemoved(os: seq<Resting>, j: nat, i: nat)
    requires j < i - 1 && i <= |os|
    ensures Remove(os, i - 1)[j] == os[j] && Newer(Remove(os, i - 1), j, i - 1) == Newer(os, j, i - 1)
  {
    assert Remove(os, i - 1)[j + 1..i - 1] == os[j + 1..i - 1];
  }

  lemma NewestLoses(os: seq<Resting>, i: nat, v: nat)
    requires Sound(os) && 0 < i <= |os| && v > 0
    ensures var x := os[i - 1];
            var os' := CancelNewest(os, i, x.agent, x.side, x.price, v);
            if v >= x.volume then !HasId(os', x.id) else x.(volume := x.volume - v) in os'
  {
    var x := os[i - 1];
    if v < x.volume {
      ResizeMember(os, i - 1, x.volume - v, x.(volume := x.volume - v));
    } else {
      var r := Remove(os, i - 1);
      SoundRemove(os, i - 1);
      assert r[..|r|] == r;
      ThinnedCancel(r, i - 1, x.agent, x.side, x.price, v - x.volume);
      var os' := CancelNewest(r, i - 1, x.agent, x.side, x.price, v - x.volume);
      forall n | 0 <= n < |os'|
        ensures os'[n].id != x.id
      {
        assert os'[n] in os';
        var m :| 0 <= m < |r| && LeftOf(os'[n], r[m]);
        assert r[m] in r;
        RemoveMember(os, i - 1, r[m]);
      }
    }
  }
}
