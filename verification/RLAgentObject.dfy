/** The learning agent as the program runs it: counters updated message by message, order lists built in loops. */
module RLAgentObject {
  import opened Wrappers
  import opened OrderBook
  import opened BookSteps
  import opened BookVolumes
  import opened BookIndexes
  import opened BookPlans
  import opened BookCoherence
  import opened BookObject
  import opened ExecutionPosition
  import opened RLOrders
  import opened RLTracking
  import Models

  // ---------- messages ----------

  function UpdateAll(p: Inventory, me: Agent, ms: seq<Message>): Inventory
    decreases |ms|
  {
    if ms == [] then p else UpdateAll(Update(p, me, ms[0]), me, ms[1..])
  }

  predicate FitAll(p: Inventory, me: Agent, ms: seq<Message>)
    decreases |ms|
  {
    ms == [] || (Fits(p, me, ms[0]) && FitAll(Update(p, me, ms[0]), me, ms[1..]))
  }

  lemma {:induction false} RepliesFollow(p: Inventory, me: Agent, b: Book, list: seq<Timed>)
    requires Accepted(b, list)
    ensures UpdateAll(p, me, Replies(b, list)) == Follow(p, me, b, list)
    ensures FitAll(p, me, Replies(b, list)) <==> Fitting(p, me, b, list)
    decreases |list|
  {
    hide Process, Update, Fits, Reply;
    if list == [] {
    } else {
      var o, time := list[0].order, list[0].time;
      ProcessApplies(b, o, time);
      var m := Reply(b.orders, b.updates, o);
      var b' := Process(b, o, time).value;
      RepliesFollow(Update(p, me, m), me, b', list[1..]);
      assert ([m] + Replies(b', list[1..]))[1..] == Replies(b', list[1..]);
    }
  }

  lemma PassiveStep(fs: seq<Fill>, k: nat, me: Agent)
    requires k < |fs|
    ensures PassiveVolume(fs[k..], me) == (if fs[k].order.agent == me then fs[k].quantity else 0) + PassiveVolume(fs[k + 1..], me)
  {
    assert fs[k..][1..] == fs[k + 1..];
  }

  // ---------- targets ----------

  predicate Action(action: seq<real>) {
    && |action| >= 3
    && (forall i :: 0 <= i < |action| ==> 0.0 <= action[i])
    && Models.Abs(Models.SumReal(action) - 1.0) < 0.000001
  }

  /** The rounded share of each entry, capped by what is left; the last entry gets everything left over. */
  function Target(action: seq<real>, volume: nat, i: nat): nat
    requires i < |action| && forall j :: 0 <= j < |action| ==> 0.0 <= action[j]
  {
    if i < |action| - 1 then Models.Bucket(action, volume, i) else Models.Left(action, volume, i)
  }

  lemma {:induction false} WantedIsGiven(target: seq<nat>, action: seq<real>, volume: nat, l: nat)
    requires l < |action| && |target| == |action| && forall j :: 0 <= j < |action| ==> 0.0 <= action[j]
    requires l < |action| - 1 && forall i :: 0 <= i < |target| - 1 ==> target[i] == Models.Bucket(action, volume, i)
    ensures target[0] + Wanted(target, l) + Models.Left(action, volume, l + 1) == volume
  {
    hide Models.Left, Models.Bucket, Models.Take;
    LeftStep(action, volume, l);
    if l == 0 {
      StartLeft(action, volume);
    } else {
      WantedIsGiven(target, action, volume, l - 1);
    }
  }

  lemma StartLeft(action: seq<real>, volume: nat)
    requires forall j :: 0 <= j < |action| ==> 0.0 <= action[j]
    ensures Models.Left(action, volume, 0) == volume
  {
  }

  lemma LeftStep(action: seq<real>, volume: nat, l: nat)
    requires l < |action| && forall j :: 0 <= j < |action| ==> 0.0 <= action[j]
    ensures Models.Bucket(action, volume, l) == Models.Take(action, volume, l, Models.Left(action, volume, l))
    ensures Models.Left(action, volume, l + 1) == Models.Left(action, volume, l) - Models.Bucket(action, volume, l)
  {
  }

  // ---------- the agent's orders in a book ----------

  /** The agent's own orders at a price. */
  predicate OwnAtPrice(os: seq<Resting>, me: Agent, price: int, id: nat) {
    exists i :: 0 <= i < |os| && os[i].id == id && os[i].agent == me && os[i].side == Ask && os[i].price == price
  }

  /** Of the resting orders, s holds exactly the ids of the agent's own that are in range, or out of range. */
  predicate Selects(os: seq<Resting>, me: Agent, bestBid: int, levels: nat, s: set<nat>, inside: bool) {
    forall i :: 0 <= i < |os| ==> (os[i].id in s <==> os[i].agent == me && InRange(os[i].price, bestBid, levels) == inside)
  }

  /** Sum of the volumes of the orders with the given ids. */
  function VolumeOf(os: seq<Resting>, s: set<nat>): nat {
    if os == [] then 0
    else VolumeOf(os[..|os| - 1], s) + if os[|os| - 1].id in s then os[|os| - 1].volume else 0
  }

  lemma {:induction false} VolumeOfSame(os: seq<Resting>, s: set<nat>, t: set<nat>)
    requires forall i :: 0 <= i < |os| ==> (os[i].id in s <==> os[i].id in t)
    ensures VolumeOf(os, s) == VolumeOf(os, t)
  {
    if os == [] {
    } else {
      VolumeOfSame(os[..|os| - 1], s, t);
    }
  }

  lemma {:induction false} VolumeOfLess(os: seq<Resting>, s: set<nat>, i: nat)
    requires Sound(os) && i < |os| && os[i].id in s
    ensures VolumeOf(os, s) == VolumeOf(os, s - {os[i].id}) + os[i].volume
  {
    var n := |os| - 1;
    if i == n {
      VolumeOfSame(os[..n], s, s - {os[n].id});
    } else {
      VolumeOfLess(os[..n], s, i);
    }
  }

  lemma {:induction false} VolumeOfEmpty(os: seq<Resting>)
    ensures VolumeOf(os, {}) == 0
  {
    if os == [] {
    } else {
      VolumeOfEmpty(os[..|os| - 1]);
    }
  }

  lemma {:induction false} OutsideIsVolumeOf(os: seq<Resting>, me: Agent, bestBid: int, levels: nat, s: set<nat>)
    requires Selects(os, me, bestBid, levels, s, false)
    ensures Outside(os, me, bestBid, levels) == VolumeOf(os, s)
  {
    if os == [] {
    } else {
      OutsideIsVolumeOf(os[..|os| - 1], me, bestBid, levels, s);
    }
  }

  /** The best bid and what it means for all bids. */
  lemma BestBid(pv: Levels2, os: seq<Resting>)
    requires Counted(pv, os) && Sound(os) && HasSide(os, Bid)
    ensures pv.bid != map[] && BidsUpTo(os, BestKey(pv.bid.Keys, Bid))
  {
    TallyBest(pv.bid, os, Bid);
  }

  lemma NoBids(pv: Levels2, os: seq<Resting>)
    requires Counted(pv, os) && Sound(os)
    ensures pv.bid == map[] <==> !HasSide(os, Bid)
  {
    TallyEmpty(pv.bid, os, Bid);
  }

  lemma OrderAt(lob: LimitOrderBook, x: nat)
    requires lob.Valid() && !lob.onlyVolumes && x in lob.orderMap
    ensures var i := Position(lob.orders, x);
            Sound(lob.orders) && i < |lob.orders| && lob.orders[i].id == x && lob.orderMap[x] == lob.orders[i]
  {
    hide Tallies, Owned, Lists;
    IndexedAt(lob.orderMap, lob.orders, x);
  }

  class RLAgent {
    const id: Agent
    const levels: nat
    const startTime: int
    const terminalTime: int
    const timeDelta: nat
    const initialVolume: nat
    var volume: int
    var activeVolume: int
    var marketBuys: int
    var marketSells: int
    var limitBuys: int
    var limitSells: int
    var forcedLiquidation: int

    function View(): Inventory
      reads this
    {
      Inventory(initialVolume, volume, activeVolume, marketBuys, marketSells, limitBuys, limitSells)
    }

    constructor (id: Agent, levels: nat, startTime: int, terminalTime: int, timeDelta: nat, volume: nat)
      requires levels >= 1 && timeDelta > 0
      ensures View() == Inventory(volume, volume, 0, 0, 0, 0, 0) && this.id == id && this.levels == levels
      ensures this.startTime == startTime && this.terminalTime == terminalTime && this.timeDelta == timeDelta
    {
      this.id, this.levels := id, levels;
      this.startTime, this.terminalTime, this.timeDelta := startTime, terminalTime, timeDelta;
      initialVolume, this.volume, activeVolume := volume, volume, 0;
      marketBuys, marketSells, limitBuys, limitSells, forcedLiquidation := 0, 0, 0, 0, 0;
    }

    // ---------- messages ----------

    /** The lots of a list of passive fills that are the agent's. */
    method OwnFills(fills: seq<Fill>) returns (v: nat)
      ensures v == PassiveVolume(fills, id)
    {
      v := 0;
      var k := 0;
      assert fills[0..] == fills;
      while k < |fills|
        invariant 0 <= k <= |fills| && v + PassiveVolume(fills[k..], id) == PassiveVolume(fills, id)
      {
        PassiveStep(fills, k, id);
        if fills[k].order.agent == id {
          v := v + fills[k].quantity;
        }
        k := k + 1;
      }
    }

    method UpdatePosition(m: Message)
      requires Fits(View(), id, m)
      modifies this`volume, this`activeVolume, this`marketBuys, this`marketSells, this`limitBuys, this`limitSells
      ensures View() == Update(old(View()), id, m)
    {
      match m
      case Modified(_, _, _, _, _) =>
      case VolumeCancelled(agent, _, _, _, filled) =>
        if agent == id {
          activeVolume := activeVolume - filled;
        }
      case Placed(agent, _, _, _, v) =>
        if agent == id {
          activeVolume := activeVolume + v;
        }
      case Cancelled(agent, _, _, _, v) =>
        if agent == id {
          activeVolume := activeVolume - v;
        }
      case Traded(agent, side, _, filled, _, fills) =>
        if agent == id {
          assert side == Bid;
          volume := volume - filled;
          marketSells := marketSells + filled;
        }
        var v := OwnFills(fills);
        if side == Ask {
          activeVolume := activeVolume - v;
          volume := volume - v;
          limitSells := limitSells + v;
        } else {
          activeVolume := activeVolume - v;
          volume := volume + v;
          limitBuys := limitBuys + v;
        }
    }

    /** The messages of a list, once all of it has been processed. */
    method UpdatePositionFromMessages(ms: seq<Message>) returns (terminated: bool)
      requires FitAll(View(), id, ms)
      modifies this`volume, this`activeVolume, this`marketBuys, this`marketSells, this`limitBuys, this`limitSells
      ensures View() == UpdateAll(old(View()), id, ms) && terminated == (volume == 0)
    {
      hide Fits, Update;
      var k := 0;
      assert ms[0..] == ms;
      while k < |ms|
        invariant 0 <= k <= |ms| && FitAll(View(), id, ms[k..]) && UpdateAll(View(), id, ms[k..]) == UpdateAll(old(View()), id, ms)
      {
        assert ms[k..][1..] == ms[k + 1..];
        UpdatePosition(ms[k]);
        k := k + 1;
      }
      terminated := volume == 0;
    }

    // ---------- the order list ----------

    /** Own volume and ids at a price. */
    method Level(lob: LimitOrderBook, price: int, within: set<nat>) returns (onLevel: nat, ids: set<nat>)
      requires lob.Valid() && !lob.onlyVolumes
      ensures onLevel == Offered(lob.orders, id, price)
      ensures forall x :: x in ids <==> x in within || OwnAtPrice(lob.orders, id, price, x)
    {
      hide Tallies, Owned, IdsAt, OwnTotal, Volume, Sound;
      onLevel, ids := 0, within;
      ghost var os := lob.orders;
      assert os[..|os|] == os;
      ListsHas(lob.priceMap, os, Ask, price);
      IdsKnown(lob.orderMap, os, |os|, Ask, price);
      OwnTotalIsVolume(lob.orderMap, os, |os|, Ask, price, id);
      NoOwnTotal(lob.orderMap, os, Ask, price, id);
      forall x
        ensures OwnAtPrice(os, id, price, x) <==> x in IdsAt(os, Ask, price) && lob.orderMap[x].agent == id
      {
        OwnListed(lob.orderMap, os, id, price, x);
      }
      if price in lob.priceMap.ask {
        var listed := lob.priceMap.ask[price];
        var k := 0;
        assert listed[..0] == [];
        while k < |listed|
          invariant 0 <= k <= |listed| && onLevel == OwnTotal(lob.orderMap, listed[..k], id)
          invariant forall x :: x in ids <==> x in within || (x in listed[..k] && lob.orderMap[x].agent == id)
        {
          assert listed[..k + 1] == listed[..k] + [listed[k]];
          OwnTotalAppend(lob.orderMap, listed[..k], listed[k], id);
          if lob.orderMap[listed[k]].agent == id {
            onLevel := onLevel + lob.orderMap[listed[k]].volume;
            ids := ids + {listed[k]};
          }
          k := k + 1;
        }
        assert listed[..k] == listed;
      }
    }

    /**
     * get_order_allocation: own volume on each level of the range, own volume beyond, and the own ids in range.
     * Without bids the levels have no price, and all of the agent's volume lies beyond them.
     */
    method GetOrderAllocation(lob: LimitOrderBook) returns (perLevel: seq<nat>, within: set<nat>)
      requires lob.Valid() && !lob.onlyVolumes && Tracks(View(), id, lob.orders)
      ensures |perLevel| == levels + 1
      ensures !HasSide(lob.orders, Bid) ==>
                within == {} && perLevel[levels] == activeVolume && forall l :: 0 <= l < levels ==> perLevel[l] == 0
      ensures HasSide(lob.orders, Bid) ==>
              var bestBid := BestBidOf(lob);
              && (forall l :: 0 <= l < levels ==> perLevel[l] == Offered(lob.orders, id, bestBid + l + 1))
              && perLevel[levels] == Outside(lob.orders, id, bestBid, levels)
              && SumOffered(lob.orders, id, bestBid, levels) + perLevel[levels] == activeVolume
              && Selects(lob.orders, id, bestBid, levels, within, true)
    {
      hide Tallies, Owned, Lists, Indexed, IdsAt, Volume, Offered, OwnInRange, OwnAtPrice, HasSide, Uncrossed, Balances, NoEmptyLevels;
      NoBids(lob.priceVolume, lob.orders);
      if lob.priceVolume.bid == map[] {
        return seq(levels, l => 0) + [activeVolume], {};
      }
      var bestBid := BestBidOf(lob);
      perLevel, within := [], {};
      NoRange(lob.orders, id, bestBid);
      ghost var os := lob.orders;
      var total := 0;
      var l := 0;
      while l < levels
        invariant 0 <= l <= levels && |perLevel| == l
        invariant forall k :: 0 <= k < l ==> perLevel[k] == Offered(os, id, bestBid + k + 1)
        invariant total == SumOffered(os, id, bestBid, l)
        invariant forall x :: x in within <==> OwnInRange(os, id, bestBid, l, x)
      {
        var onLevel, ids := Level(lob, bestBid + l + 1, within);
        forall x
          ensures x in ids <==> OwnInRange(os, id, bestBid, l + 1, x)
        {
          OneMoreLevel(os, id, bestBid, l, x);
        }
        perLevel, within, total := perLevel + [onLevel], ids, total + onLevel;
        l := l + 1;
      }
      OwnIsOffered(os, id, bestBid, levels);
      assert total <= activeVolume;
      perLevel := perLevel + [activeVolume - total];
      forall i | 0 <= i < |os|
        ensures os[i].id in within <==> os[i].agent == id && InRange(os[i].price, bestBid, levels)
      {
        OwnInRangeIs(os, id, bestBid, levels, i);
      }
    }

    /** Fractions to lots, each entry capped by what is left, the rest to the last entry. */
    method Targets(action: seq<real>) returns (target: seq<nat>)
      requires Action(action) && volume >= 0
      ensures |target| == |action| && forall i :: 0 <= i < |action| ==> target[i] == Target(action, volume, i)
      ensures Models.Rounded(target, action, volume)
      ensures target[0] + Wanted(target, |action| - 2) <= volume
    {
      hide Models.Bucket, Models.Left, Models.Take, Models.SumReal, Models.Abs, Models.Rounded;
      var available: nat := volume;
      target := [];
      var l := 0;
      StartLeft(action, volume);
      while l < |action|
        invariant 0 <= l <= |action| && |target| == l && available == Models.Left(action, volume, l)
        invariant forall i :: 0 <= i < l ==> target[i] == Models.Bucket(action, volume, i)
      {
        LeftStep(action, volume, l);
        var quantity := Models.Take(action, volume, l, available);
        available := available - quantity;
        target := target + [quantity];
        l := l + 1;
      }
      LeftStep(action, volume, |action| - 1);
      target := target[..|action| - 1] + [target[|action| - 1] + available];
      WantedIsGiven(target, action, volume, |action| - 2);
      Models.RestToLast(target, action, volume);
    }

    /** The cancellations of a set of own orders, in whatever order the set gives them, and their volume. */
    method RemoveAll(lob: LimitOrderBook, time: int, s: set<nat>) returns (list: seq<Timed>, removed: nat, ghost ids: seq<nat>)
      requires lob.Valid() && !lob.onlyVolumes && forall x :: x in s ==> x in lob.orderMap
      ensures list == Removals(id, time, ids) && Distinct(ids) && forall x :: x in ids <==> x in s
      ensures removed == VolumeOf(lob.orders, s)
    {
      hide Listed, Counted, Balances, NoEmptyLevels, BookInv, Sound, Position;
      list, removed, ids := [], 0, [];
      var rest := s;
      while rest != {}
        invariant rest <= s && list == Removals(id, time, ids) && Distinct(ids)
        invariant forall x :: x in ids <==> x in s && x !in rest
        invariant removed + VolumeOf(lob.orders, rest) == VolumeOf(lob.orders, s)
        decreases |rest|
      {
        var x :| x in rest;
        OrderAt(lob, x);
        VolumeOfLess(lob.orders, rest, Position(lob.orders, x));
        RemovalsAppend(id, time, ids, x);
        list := list + [Timed(Cancel(id, x), time)];
        removed := removed + lob.orderMap[x].volume;
        ids := ids + [x];
        rest := rest - {x};
      }
      VolumeOfEmpty(lob.orders);
    }

    method GenerateOrder(lob: LimitOrderBook, time: int, action: seq<real>)
      returns (list: seq<Timed>, ghost bestBid: int, ghost current: seq<nat>, ghost target: seq<nat>, ghost ids: seq<nat>)
      requires lob.Valid() && !lob.onlyVolumes && id in lob.agents && !Late(lob.clock, time)
      requires Tracks(View(), id, lob.orders) && HasSide(lob.orders, Bid)
      requires startTime <= time < terminalTime && Action(action) && |action| == levels + 2
      ensures |target| == |action| && forall i :: 0 <= i < |action| ==> target[i] == Target(action, volume, i)
      ensures Models.Rounded(target, action, volume)
      ensures target[0] + Wanted(target, levels) <= volume && |current| == levels + 2
      ensures bestBid == BestBidOf(lob) && Observed(lob.View(), id, time, bestBid, levels, current, ids)
      ensures list == OrderList(id, time, bestBid, levels, current, target, ids)
    {
      hide Tallies, Owned, Lists, Models.Bucket, Models.Take, Models.Rounded, Volume, Offered, VolumeOf, Outside;
      var best := BestBidOf(lob);
      var targets := Targets(action);
      var perLevel, within := GetOrderAllocation(lob);
      OwnOutOfRange(lob, id, best, levels, within);
      var s := lob.byAgent[id] - within;
      bestBid, target, current := best, targets, [0] + perLevel;
      var removals, cancelled, removed := RemoveAll(lob, time, s);
      ids := removed;
      OutsideIsVolumeOf(lob.orders, id, best, levels, s);
      assert cancelled == perLevel[levels];
      RemovedOutOfRange(lob, id, best, levels, s, ids);
      ObservedHere(lob, id, time, levels, current, ids);
      var volumePerLevel := [0] + perLevel;
      var added, market, reduced;
      list, added, market, reduced := LevelOrders(time, best, volumePerLevel, targets, removals);
      cancelled := cancelled + reduced;
      OfferedIsWanted(lob.orders, id, best, current, levels);
      var freeBudget := cancelled + (volume - activeVolume);
      assert 0 <= freeBudget <= volume;
      assert 0 <= added + market <= freeBudget;
      assert volume >= activeVolume >= cancelled >= 0;
    }

    /** The loop over the levels: reductions go to the front of the list, the market order and additions to its end. */
    method LevelOrders(time: int, bestBid: int, current: seq<nat>, target: seq<nat>, removals: seq<Timed>)
      returns (list: seq<Timed>, added: nat, market: nat, reduced: nat)
      requires |current| == |target| == levels + 2
      ensures list == Reductions(id, time, bestBid, current, target, levels) + (removals
                + (Sale(id, time, target[0]) + Additions(id, time, bestBid, current, target, levels)))
      ensures market == target[0] && added + Wanted(current, levels) == Wanted(target, levels) + reduced
      ensures reduced <= Wanted(current, levels)
    {
      hide Reductions, Additions, Wanted, Sale;
      list, added, market, reduced := removals, 0, 0, 0;
      var level := 0;
      while level < levels + 1
        invariant 0 <= level <= levels + 1
        invariant level == 0 ==> list == removals && added == market == reduced == 0
        invariant level > 0 ==>
                    && list == Reductions(id, time, bestBid, current, target, level - 1) + (removals
                         + (Sale(id, time, target[0]) + Additions(id, time, bestBid, current, target, level - 1)))
                    && market == target[0]
                    && added + Wanted(current, level - 1) == Wanted(target, level - 1) + reduced
                    && reduced <= Wanted(current, level - 1)
      {
        if level == 0 {
          if target[level] > 0 {
            var v: Lots := target[level];
            list := list + [Timed(Market(id, Bid, v), time)];
            market := v;
          }
          SaleIs(id, time, target[0]);
          FirstLevel(id, time, bestBid, current, target, removals);
        } else {
          NextLevel(id, time, bestBid, current, target, level);
          var wanted: int, offered: int := target[level], current[level];
          var diff := wanted - offered;
          var price := bestBid + level;
          ghost var xs, ys := Reductions(id, time, bestBid, current, target, level - 1), Additions(id, time, bestBid, current, target, level - 1);
          ghost var zs := Sale(id, time, target[0]);
          if diff > 0 {
            var v: Lots := diff;
            AppendToList(xs, removals, zs, ys, Timed(Limit(id, Ask, price, v), time));
            list := list + [Timed(Limit(id, Ask, price, v), time)];
            added := added + v;
          } else if diff < 0 {
            var v: Lots := -diff;
            InsertIntoList(xs, removals, zs, ys, Timed(CancelVolume(id, Ask, price, v), time));
            list := [Timed(CancelVolume(id, Ask, price, v), time)] + list;
            reduced := reduced + v;
          }
        }
        level := level + 1;
      }
    }

    /** At the deadline: everything off the book, and one market order for the whole inventory, bids or not. */
    method SellRemainingPosition(lob: LimitOrderBook, time: int) returns (list: seq<Timed>, ghost ids: seq<nat>)
      requires lob.Valid() && !lob.onlyVolumes && id in lob.agents && !Late(lob.clock, time)
      requires Tracks(View(), id, lob.orders) && volume > 0
      modifies this`forcedLiquidation
      ensures forcedLiquidation == volume
      ensures list == Removals(id, time, ids) + Sale(id, time, volume)
      ensures Distinct(ids) && (forall x :: x in ids ==> HasOwn(lob.orders, x, id))
      ensures forall i :: 0 <= i < |lob.orders| && lob.orders[i].agent == id ==> lob.orders[i].id in ids
    {
      hide Tallies, Owned, Lists, Volume, Offered;
      forcedLiquidation := volume;
      OwnOutOfRange(lob, id, 0, 0, {});
      var removed;
      list, removed, ids := RemoveAll(lob, time, lob.byAgent[id]);
      assert lob.byAgent[id] - {} == lob.byAgent[id];
      RemovedOutOfRange(lob, id, 0, 0, lob.byAgent[id], ids);
      SaleIs(id, time, volume);
      var v: Lots := volume;
      list := list + [Timed(Market(id, Bid, v), time)];
    }

    /**
     * One decision: make the list, have the book process it, take in its messages. Nothing is refused, no check fails.
     * The lots sold, offered at each level and kept back are near the action's shares of the inventory.
     */
    method Decide(lob: LimitOrderBook, time: int, action: seq<real>) returns (terminated: bool, ghost target: seq<nat>)
      requires lob.Valid() && !lob.onlyVolumes && id in lob.agents && !Late(lob.clock, time)
      requires Tracks(View(), id, lob.orders) && HasSide(lob.orders, Bid)
      requires startTime <= time < terminalTime && Action(action) && |action| == levels + 2
      modifies lob, this
      ensures lob.Valid() && Tracks(View(), id, lob.orders)
      ensures |target| == levels + 2 && Models.Rounded(target, action, old(volume))
      ensures forall i :: 0 <= i < |target| ==> target[i] == Target(action, old(volume), i)
      ensures forall l :: 1 <= l <= levels ==> Offered(lob.orders, id, old(BestBidOf(lob)) + l) == target[l]
      ensures AllInRange(lob.orders, id, old(BestBidOf(lob)), levels)
      ensures volume == old(volume) - Lesser(target[0], BidVolume(old(lob.orders)))
      ensures marketSells == old(marketSells) + (old(volume) - volume) && limitSells == old(limitSells)
      ensures terminated == (volume == 0)
      ensures lob.missed == Unsold(old(lob.missed), target[0], BidVolume(old(lob.orders)))
    {
      hide Observed, OrderList, Accepted, Run, Offered, AllInRange, MissedRun, Unsold, FlowRests, Served, Halted,
        Tracks, FitAll, UpdateAll, Replies, BidVolume, Models.Rounded, Target, HasSide, Listed, Counted, Balances, NoEmptyLevels, BestKey,
        Uncrossed, Sound, Models.SumReal, Models.Abs, Wanted;
      var list;
      ghost var bestBid, current, ids;
      list, bestBid, current, target, ids := GenerateOrder(lob, time, action);
      ghost var b, p := lob.View(), View();
      ListDecides(p, id, b, time, bestBid, levels, current, target, ids);
      ListMisses(b, id, time, bestBid, levels, current, target, ids, lob.missed);
      AllAccounted(p, id, lob.orders);
      var error, messages := lob.ProcessOrders(list);
      assert error == None;
      terminated := UpdatePositionFromMessages(messages);
      AllAccounted(View(), id, lob.orders);
    }

    /**
     * The deadline: nothing of the agent rests any more, and what the bids could take is sold. Without bids the
     * market order is refused after the cancellations, and the agent does not hear of those.
     */
    method Liquidate(lob: LimitOrderBook, time: int) returns (error: Option<Error>, terminated: bool)
      requires lob.Valid() && !lob.onlyVolumes && id in lob.agents && !Late(lob.clock, time)
      requires Tracks(View(), id, lob.orders) && volume > 0
      modifies lob, this
      ensures lob.Valid() && !lob.onlyVolumes
      ensures forall i :: 0 <= i < |lob.orders| ==> lob.orders[i].agent != id
      ensures error == if old(HasSide(lob.orders, Bid)) then None else Some(EmptySide)
      ensures error == None ==>
                && Tracks(View(), id, lob.orders) && activeVolume == 0
                && volume == old(volume) - Lesser(old(volume), BidVolume(old(lob.orders)))
                && marketSells == old(marketSells) + (old(volume) - volume) && limitSells == old(limitSells)
                && (terminated <==> BidVolume(old(lob.orders)) >= old(volume))
                && lob.missed == Unsold(old(lob.missed), old(volume), BidVolume(old(lob.orders)))
      ensures error != None ==>
                && lob.missed == old(lob.missed)
                && View() == old(View()) && !terminated
                && (Tracks(View(), id, lob.orders) <==> old(activeVolume) == 0)
    {
      hide Observed, OrderList, Accepted, Run, Offered, FitAll, UpdateAll, Replies, BidVolume, Volume, HasSide, Listed, Counted, Balances,
        Halted, Removals, Sale, OutOfRange, Tracks, NoEmptyLevels, Uncrossed, Sound, Distinct, HasOwn, MissedRun, Unsold, FlowRests,
        Served;
      var list, ids := SellRemainingPosition(lob, time);
      ghost var b, p := lob.View(), View();
      AllAccounted(p, id, lob.orders);
      if HasSide(lob.orders, Bid) {
        LiquidationSells(lob, p, id, time, ids);
        LiquidationMisses(lob, p, id, time, ids);
      } else {
        LiquidationFails(lob, p, id, time, p.volume, ids);
      }
      var messages;
      error, messages := lob.ProcessOrders(list);
      if error != None {
        return error, false;
      }
      terminated := UpdatePositionFromMessages(messages);
      AllAccounted(View(), id, lob.orders);
    }
  }

  /** Every order of the agent is out of a range without levels. */
  lemma AllOutOfRange(os: seq<Resting>, me: Agent, bestBid: int, ids: seq<nat>)
    requires Distinct(ids) && (forall x :: x in ids ==> HasOwn(os, x, me))
    requires forall i :: 0 <= i < |os| && os[i].agent == me ==> os[i].id in ids
    ensures OutOfRange(os, me, bestBid, 0, ids)
  {
  }

  lemma LiquidationIs(me: Agent, time: int, bestBid: int, volume: nat, ids: seq<nat>)
    ensures OrderList(me, time, bestBid, 0, [0], [volume], ids) == Removals(me, time, ids) + Sale(me, time, volume)
    ensures Wanted([volume], 0) == 0
  {
    FirstLevel(me, time, bestBid, [0], [volume], Removals(me, time, ids));
  }

  lemma LiquidationSells(lob: LimitOrderBook, p: Inventory, me: Agent, time: int, ids: seq<nat>)
    requires lob.Valid() && !lob.onlyVolumes && me in lob.agents && !Late(lob.clock, time)
    requires Tracks(p, me, lob.orders) && p.volume > 0 && HasSide(lob.orders, Bid)
    requires Distinct(ids) && (forall x :: x in ids ==> HasOwn(lob.orders, x, me))
    requires forall i :: 0 <= i < |lob.orders| && lob.orders[i].agent == me ==> lob.orders[i].id in ids
    ensures var list, b := Removals(me, time, ids) + Sale(me, time, p.volume), lob.View();
            && Accepted(b, list) && FitAll(p, me, Replies(b, list))
            && var b', p' := Run(b, list), UpdateAll(p, me, Replies(b, list));
            && Tracks(p', me, b'.orders) && p'.active == 0 && p'.limitSells == p.limitSells
            && p'.volume == p.volume - Lesser(p.volume, BidVolume(b.orders))
            && forall i :: 0 <= i < |b'.orders| ==> b'.orders[i].agent != me
  {
    hide Observed, OrderList, Accepted, Run, Offered, FitAll, UpdateAll, Replies, BidVolume, Volume, HasSide, Listed, Counted, Balances,
      Removals, Sale, OutOfRange;
    var bestBid := BestBidOf(lob);
    AllOutOfRange(lob.orders, me, bestBid, ids);
    ObservedHere(lob, me, time, 0, [0], ids);
    LiquidationIs(me, time, bestBid, p.volume, ids);
    ListDecides(p, me, lob.View(), time, bestBid, 0, [0], [p.volume], ids);
  }

  lemma LiquidationMisses(lob: LimitOrderBook, p: Inventory, me: Agent, time: int, ids: seq<nat>)
    requires lob.Valid() && !lob.onlyVolumes && me in lob.agents && !Late(lob.clock, time)
    requires Tracks(p, me, lob.orders) && p.volume > 0 && HasSide(lob.orders, Bid)
    requires Distinct(ids) && (forall x :: x in ids ==> HasOwn(lob.orders, x, me))
    requires forall i :: 0 <= i < |lob.orders| && lob.orders[i].agent == me ==> lob.orders[i].id in ids
    ensures MissedRun(lob.View(), Removals(me, time, ids) + Sale(me, time, p.volume), lob.missed)
            == Unsold(lob.missed, p.volume, BidVolume(lob.orders))
  {
    hide Observed, OrderList, MissedRun, Offered, BidVolume, Volume, HasSide, Listed, Counted, Balances, Removals, Sale, OutOfRange, Unsold;
    var bestBid := BestBidOf(lob);
    AllOutOfRange(lob.orders, me, bestBid, ids);
    ObservedHere(lob, me, time, 0, [0], ids);
    LiquidationIs(me, time, bestBid, p.volume, ids);
    ListMisses(lob.View(), me, time, bestBid, 0, [0], [p.volume], ids, lob.missed);
  }

  lemma LiquidationFails(lob: LimitOrderBook, p: Inventory, me: Agent, time: int, volume: nat, ids: seq<nat>)
    requires lob.Valid() && !lob.onlyVolumes && me in lob.agents && !Late(lob.clock, time)
    requires Tracks(p, me, lob.orders) && volume > 0 && !HasSide(lob.orders, Bid)
    requires Distinct(ids) && (forall x :: x in ids ==> HasOwn(lob.orders, x, me))
    requires forall i :: 0 <= i < |lob.orders| && lob.orders[i].agent == me ==> lob.orders[i].id in ids
    ensures var list, b := Removals(me, time, ids) + Sale(me, time, volume), lob.View();
            && !Accepted(b, list) && Halted(b, list).error == Some(EmptySide) && MissedRun(b, list, lob.missed) == lob.missed
            && var b' := Halted(b, list).book;
            && (forall i :: 0 <= i < |b'.orders| ==> b'.orders[i].agent != me)
            && (Tracks(p, me, b'.orders) <==> p.active == 0)
  {
    hide Process, Removals, Volume, OutOfRange, Listed, Counted, Balances, Tracks, Accepted, Run, Halted, MissedRun;
    var b, xs := lob.View(), Removals(me, time, ids);
    var v: Lots := volume;
    AllOutOfRange(b.orders, me, 0, ids);
    assert BidsUpTo(b.orders, 0);
    TracksAsks(p, me, b.orders);
    RemovalsLand(b, me, time, 0, 0, ids);
    HaltsAfter(b, xs, Sale(me, time, volume));
    RunConcat(b, xs, Sale(me, time, volume));
    NoBidVolume(b.orders, Run(b, xs).orders);
    SaleRefused(Run(b, xs), me, time, v, lob.missed);
    NothingRests(p, me, Run(b, xs).orders, b.orders);
    RemovalsCancel(me, time, ids);
    MissedConcat(b, xs, Sale(me, time, volume), lob.missed);
    NoSaleMissesNothing(b, xs, lob.missed);
  }

  lemma TracksAsks(p: Inventory, me: Agent, os: seq<Resting>)
    requires Tracks(p, me, os)
    ensures OwnAsks(os, me)
  {
  }

  lemma NoBidVolume(os: seq<Resting>, os': seq<Resting>)
    requires Sound(os') && !HasSide(os, Bid) && BidVolume(os') == BidVolume(os)
    ensures !HasSide(os', Bid)
  {
    VolumeZero(Whole(Bid), os);
    if i :| 0 <= i < |os'| && os'[i].side == Bid {
      VolumeMember(Whole(Bid), os', i);
    }
  }

  lemma SaleRefused(b: Book, me: Agent, time: int, v: Lots, missed: BySide<nat>)
    requires me in b.agents && !Late(b.clock, time) && !HasSide(b.orders, Bid)
    ensures !Accepted(b, Sale(me, time, v)) && Halted(b, Sale(me, time, v)) == Halt(b, Some(EmptySide))
    ensures MissedRun(b, Sale(me, time, v), missed) == missed
  {
  }

  lemma NothingRests(p: Inventory, me: Agent, os: seq<Resting>, before: seq<Resting>)
    requires OutOfRange(os, me, 0, 0, []) && Tracks(p, me, before)
    ensures forall i :: 0 <= i < |os| ==> os[i].agent != me
    ensures Tracks(p, me, os) <==> p.active == 0
  {
    VolumeZero(Own(me), os);
  }

  // ---------- what the sale misses ----------

  /** A sale misses what the bids cannot take. */
  function Unsold(missed: BySide<nat>, volume: nat, bids: nat): BySide<nat> {
    missed.With(Bid, missed.bid + volume - Lesser(volume, bids))
  }

  lemma {:induction false} MissedConcat(b: Book, xs: seq<Timed>, ys: seq<Timed>, missed: BySide<nat>)
    requires Accepted(b, xs)
    ensures MissedRun(b, xs + ys, missed) == MissedRun(Run(b, xs), ys, MissedRun(b, xs, missed))
    decreases |xs|
  {
    hide Process, MissedAfter;
    if xs == [] {
      assert xs + ys == ys;
    } else {
      assert (xs + ys)[1..] == xs[1..] + ys;
      MissedConcat(Process(b, xs[0].order, xs[0].time).value, xs[1..], ys, MissedAfter(b.orders, xs[0].order, missed));
    }
  }

  lemma {:induction false} NoSaleMissesNothing(b: Book, list: seq<Timed>, missed: BySide<nat>)
    requires forall i :: 0 <= i < |list| ==> !list[i].order.Market?
    ensures MissedRun(b, list, missed) == missed
    decreases |list|
  {
    hide Process;
    if list == [] {
    } else {
      var r := Process(b, list[0].order, list[0].time);
      if r.Ok? {
        NoSaleMissesNothing(r.value, list[1..], missed);
      }
    }
  }

  lemma SaleMisses(b: Book, me: Agent, time: int, volume: nat, missed: BySide<nat>)
    requires Accepted(b, Sale(me, time, volume))
    ensures MissedRun(b, Sale(me, time, volume), missed) == Unsold(missed, volume, BidVolume(b.orders))
  {
    hide Process, Volume;
    if volume > 0 {
      var v: Lots := volume;
      assert Sale(me, time, volume)[1..] == [];
      assert MissedAfter(b.orders, Market(me, Bid, v), missed) == Unsold(missed, volume, BidVolume(b.orders));
    }
  }

  /** The list misses exactly what its sale cannot sell: the reductions and removals before it touch no bid. */
  lemma ListMisses(b: Book, me: Agent, time: int, bestBid: int, levels: nat, current: seq<nat>, target: seq<nat>, ids: seq<nat>, missed: BySide<nat>)
    requires Observed(b, me, time, bestBid, levels, current, ids) && levels < |target|
    ensures MissedRun(b, OrderList(me, time, bestBid, levels, current, target, ids), missed) == Unsold(missed, target[0], BidVolume(b.orders))
  {
    hide Process, Offered, Run, Accepted, Reductions, Removals, Additions, Sale, OutOfRange, AllInRange, HasSide, Ready, MissedRun,
      BidVolume, Unsold;
    var xs, ys := Reductions(me, time, bestBid, current, target, levels), Removals(me, time, ids);
    var zs, ws := Sale(me, time, target[0]), Additions(me, time, bestBid, current, target, levels);
    Freeing(b, me, time, bestBid, levels, current, target, ids);
    var b1, b2 := Run(b, xs), Run(Run(b, xs), ys);
    ReductionsCancel(me, time, bestBid, current, target, levels);
    RemovalsCancel(me, time, ids);
    AdditionsOffer(me, time, bestBid, current, target, levels);
    MissedConcat(b, xs, ys + (zs + ws), missed);
    MissedConcat(b1, ys, zs + ws, missed);
    Selling(b2, me, time, bestBid, levels, current, target);
    MissedConcat(b2, zs, ws, missed);
    NoSaleMissesNothing(b, xs, missed);
    NoSaleMissesNothing(b1, ys, missed);
    SaleMisses(b2, me, time, target[0], missed);
    NoSaleMissesNothing(Run(b2, zs), ws, Unsold(missed, target[0], BidVolume(b2.orders)));
  }

  lemma ListDecides(p: Inventory, me: Agent, b: Book, time: int, bestBid: int, levels: nat, current: seq<nat>, target: seq<nat>, ids: seq<nat>)
    requires Observed(b, me, time, bestBid, levels, current, ids) && levels < |current| && levels < |target| && Tracks(p, me, b.orders)
    requires target[0] + Wanted(target, levels) <= p.volume
    ensures var list := OrderList(me, time, bestBid, levels, current, target, ids);
            && Accepted(b, list) && FitAll(p, me, Replies(b, list))
            && var b', p' := Run(b, list), UpdateAll(p, me, Replies(b, list));
            && Tracks(p', me, b'.orders) && p'.active == Wanted(target, levels)
            && p'.volume == p.volume - Lesser(target[0], BidVolume(b.orders)) && p'.limitSells == p.limitSells
            && (forall l :: 1 <= l <= levels ==> Offered(b'.orders, me, bestBid + l) == target[l])
            && AllInRange(b'.orders, me, bestBid, levels)
  {
    hide Observed, OrderList, Accepted, Run, Offered, AllInRange, Tracks, Follow, Fitting, FitAll, UpdateAll, Replies, Wanted, BidVolume;
    LandsOnTarget(b, me, time, bestBid, levels, current, target, ids);
    ListTracks(p, me, b, time, bestBid, levels, current, target, ids);
    RepliesFollow(p, me, b, OrderList(me, time, bestBid, levels, current, target, ids));
    ListIsOwn(me, time, bestBid, levels, current, target, ids);
    ObservedBook(b, me, time, bestBid, levels, current, ids);
    OwnOrdersCount(p, me, b, OrderList(me, time, bestBid, levels, current, target, ids));
  }

  lemma AllAccounted(p: Inventory, me: Agent, os: seq<Resting>)
    requires Tracks(p, me, os)
    ensures p.volume + p.marketSells + p.limitSells == p.initial
  {
  }

  lemma ObservedBook(b: Book, me: Agent, time: int, bestBid: int, levels: nat, current: seq<nat>, ids: seq<nat>)
    requires Observed(b, me, time, bestBid, levels, current, ids)
    ensures BookInv(b) && OwnAsks(b.orders, me)
  {
  }

  /** Every order of the list is the agent's and sells. */
  lemma ListIsOwn(me: Agent, time: int, bestBid: int, levels: nat, current: seq<nat>, target: seq<nat>, ids: seq<nat>)
    requires levels < |current| && levels < |target|
    ensures var list := OrderList(me, time, bestBid, levels, current, target, ids);
            forall i :: 0 <= i < |list| ==> list[i].order.agent == me && Sells(list[i].order)
  {
    hide Reductions, Removals, Additions;
    ReductionsCancel(me, time, bestBid, current, target, levels);
    RemovalsCancel(me, time, ids);
    AdditionsOffer(me, time, bestBid, current, target, levels);
  }

  lemma ObservedHere(lob: LimitOrderBook, me: Agent, time: int, levels: nat, current: seq<nat>, ids: seq<nat>)
    requires lob.Valid() && !lob.onlyVolumes && me in lob.agents && !Late(lob.clock, time)
    requires HasSide(lob.orders, Bid) && OwnAsks(lob.orders, me)
    requires levels < |current| && forall k :: 1 <= k <= levels ==> Offered(lob.orders, me, BestBidOf(lob) + k) == current[k]
    requires OutOfRange(lob.orders, me, BestBidOf(lob), levels, ids)
    ensures Observed(lob.View(), me, time, BestBidOf(lob), levels, current, ids)
  {
    hide Listed, NoEmptyLevels, Balances, Tallies, Uncrossed, Offered, OutOfRange, Volume, BidsUpTo, HasSide, OwnAsks, Late;
    BestBid(lob.priceVolume, lob.orders);
  }

  lemma FirstLevel(me: Agent, time: int, bestBid: int, current: seq<nat>, target: seq<nat>, removals: seq<Timed>)
    requires 0 < |current| && 0 < |target|
    ensures removals + Sale(me, time, target[0])
         == Reductions(me, time, bestBid, current, target, 0)
              + (removals + (Sale(me, time, target[0]) + Additions(me, time, bestBid, current, target, 0)))
    ensures removals + [] == removals && Wanted(current, 0) == Wanted(target, 0) == 0
  {
    assert Sale(me, time, target[0]) + [] == Sale(me, time, target[0]);
    assert [] + (removals + Sale(me, time, target[0])) == removals + Sale(me, time, target[0]);
  }

  lemma SaleIs(me: Agent, time: int, volume: nat)
    ensures Sale(me, time, volume) == if volume == 0 then [] else var v: Lots := volume; [Timed(Market(me, Bid, v), time)]
  {
  }

  lemma NextLevel(me: Agent, time: int, bestBid: int, current: seq<nat>, target: seq<nat>, l: nat)
    requires 0 < l < |current| && l < |target|
    ensures Wanted(current, l) == Wanted(current, l - 1) + current[l] && Wanted(target, l) == Wanted(target, l - 1) + target[l]
    ensures Reductions(me, time, bestBid, current, target, l) ==
              (if target[l] < current[l] then
                 var v: Lots := current[l] - target[l];
                 [Timed(CancelVolume(me, Ask, bestBid + l, v), time)]
               else []) + Reductions(me, time, bestBid, current, target, l - 1)
    ensures Additions(me, time, bestBid, current, target, l) == Additions(me, time, bestBid, current, target, l - 1) +
              if target[l] > current[l] then
                var v: Lots := target[l] - current[l];
                [Timed(Limit(me, Ask, bestBid + l, v), time)]
              else []
  {
    var xs, ys := Reductions(me, time, bestBid, current, target, l - 1), Additions(me, time, bestBid, current, target, l - 1);
    assert [] + xs == xs && ys + [] == ys;
  }

  lemma AppendToList(xs: seq<Timed>, removals: seq<Timed>, zs: seq<Timed>, ys: seq<Timed>, x: Timed)
    ensures (xs + (removals + (zs + ys))) + [x] == xs + (removals + (zs + (ys + [x])))
  {
  }

  lemma InsertIntoList(xs: seq<Timed>, removals: seq<Timed>, zs: seq<Timed>, ys: seq<Timed>, x: Timed)
    ensures [x] + (xs + (removals + (zs + ys))) == ([x] + xs) + (removals + (zs + ys))
  {
  }

  lemma RemovalsAppend(me: Agent, time: int, ids: seq<nat>, x: nat)
    ensures Removals(me, time, ids + [x]) == Removals(me, time, ids) + [Timed(Cancel(me, x), time)]
  {
    if ids != [] {
      assert (ids + [x])[1..] == ids[1..] + [x];
      RemovalsAppend(me, time, ids[1..], x);
    }
  }

  /** The agent's ids that are not in range, by order_map_by_agent. */
  lemma OwnOutOfRange(lob: LimitOrderBook, me: Agent, bestBid: int, levels: nat, within: set<nat>)
    requires lob.Valid() && !lob.onlyVolumes && me in lob.agents
    requires Selects(lob.orders, me, bestBid, levels, within, true)
    ensures me in lob.byAgent
    ensures var s := lob.byAgent[me] - within;
            && (forall x :: x in s ==> x in lob.orderMap && HasOwn(lob.orders, x, me))
            && Selects(lob.orders, me, bestBid, levels, s, false)
  {
    var os := lob.orders;
    forall i | 0 <= i < |os|
      ensures os[i].id in lob.byAgent[me] <==> os[i].agent == me
    {
      if os[i].id in OwnIds(os, me) {
        var j :| 0 <= j < |os| && os[j].agent == me && os[j].id == os[i].id;
      }
    }
  }

  lemma RemovedOutOfRange(lob: LimitOrderBook, me: Agent, bestBid: int, levels: nat, s: set<nat>, ids: seq<nat>)
    requires Distinct(ids) && (forall x :: x in ids <==> x in s) && (forall x :: x in s ==> HasOwn(lob.orders, x, me))
    requires Selects(lob.orders, me, bestBid, levels, s, false)
    ensures OutOfRange(lob.orders, me, bestBid, levels, ids)
  {
    forall k | 0 <= k < |ids|
      ensures HasOwn(lob.orders, ids[k], me)
    {
      assert ids[k] in ids;
    }
  }

  /** The best bid the book shows. */
  function BestBidOf(lob: LimitOrderBook): int
    reads lob
    requires lob.Valid() && !lob.onlyVolumes && HasSide(lob.orders, Bid)
  {
    BestBid(lob.priceVolume, lob.orders);
    BestKey(lob.priceVolume.bid.Keys, Bid)
  }

  predicate OwnInRange(os: seq<Resting>, me: Agent, bestBid: int, levels: nat, id: nat) {
    exists i :: 0 <= i < |os| && os[i].id == id && os[i].agent == me && os[i].side == Ask && InRange(os[i].price, bestBid, levels)
  }

  lemma NoRange(os: seq<Resting>, me: Agent, bestBid: int)
    ensures forall x :: !OwnInRange(os, me, bestBid, 0, x)
  {
  }

  lemma OneMoreLevel(os: seq<Resting>, me: Agent, bestBid: int, l: nat, id: nat)
    ensures OwnInRange(os, me, bestBid, l + 1, id) <==> OwnInRange(os, me, bestBid, l, id) || OwnAtPrice(os, me, bestBid + l + 1, id)
  {
  }

  lemma OwnInRangeIs(os: seq<Resting>, me: Agent, bestBid: int, levels: nat, i: nat)
    requires Sound(os) && OwnAsks(os, me) && i < |os|
    ensures OwnInRange(os, me, bestBid, levels, os[i].id) <==> os[i].agent == me && InRange(os[i].price, bestBid, levels)
  {
  }

  lemma OwnListed(om: map<nat, Resting>, os: seq<Resting>, me: Agent, price: int, x: nat)
    requires Sound(os) && Indexed(om, os)
    ensures x in IdsAt(os, Ask, price) ==> x in om
    ensures OwnAtPrice(os, me, price, x) <==> x in IdsAt(os, Ask, price) && om[x].agent == me
  {
    IdsMember(os, Ask, price, x);
  }
}
