/** The limit order book as the program stores it: four overlapping indexes, updated by separate code paths. */
module BookObject {
  import opened Wrappers
  import opened OrderBook
  import opened BookSteps
  import opened BookVolumes
  import opened BookIndexes
  import opened BookPlans
  import opened BookCoherence
  import opened FlowLog

  // ---------- one order served ----------

  predicate NoBetter(os: seq<Resting>, side: Side, price: int) {
    forall i :: 0 <= i < |os| && os[i].side == side ==> !Better(side, os[i].price, price)
  }

  lemma NoBetterRemove(os: seq<Resting>, side: Side, price: int, b: nat)
    requires NoBetter(os, side, price) && b < |os|
    ensures NoBetter(Remove(os, b), side, price)
  {
    forall i | 0 <= i < |os| - 1
      ensures Remove(os, b)[i] == os[if i < b then i else i + 1]
    {
      RemoveFrom(os, b, i);
    }
  }

  /** The oldest id at the best price is served next, and the level goes on with the other ids. */
  lemma FrontServed(os: seq<Resting>, side: Side, price: int)
    requires Sound(os) && NoBetter(os, side, price) && IdsAt(os, side, price) != []
    ensures HasSide(os, side) && os[Best(os, side)].id == IdsAt(os, side, price)[0] && os[Best(os, side)].price == price
    ensures IdsAt(Remove(os, Best(os, side)), side, price) == IdsAt(os, side, price)[1..]
  {
    FirstIsBest(os, side, price);
    IdsRemove(os, side, price, Best(os, side));
    IdsIncrease(os, side, price);
    WithoutHead(IdsAt(os, side, price), os[Best(os, side)].id);
  }

  lemma ServePart(os: seq<Resting>, side: Side, v: nat)
    requires HasSide(os, side) && 0 < v < os[Best(os, side)].volume
    ensures var b := Best(os, side);
            && Take(os, side, v) == Take(Resize(os, b, os[b].volume - v), side, 0)
            && Fills(os, side, v) == [Fill(os[b], v)] + Fills(Resize(os, b, os[b].volume - v), side, 0)
  {
  }

  lemma ServeWhole(os: seq<Resting>, side: Side, v: nat)
    requires HasSide(os, side) && 0 < v && os[Best(os, side)].volume <= v
    ensures var b := Best(os, side);
            && Take(os, side, v) == Take(Remove(os, b), side, v - os[b].volume)
            && Fills(os, side, v) == [Fill(os[b], os[b].volume)] + Fills(Remove(os, b), side, v - os[b].volume)
  {
  }

  lemma {:induction false} FillsAppend(fs: seq<Fill>, f: Fill)
    ensures Filled(fs + [f]) == Filled(fs) + f.quantity
    ensures Cash(fs + [f]) == Cash(fs) + f.order.price * f.quantity
  {
    if fs == [] {
    } else {
      assert (fs + [f])[1..] == fs[1..] + [f];
      FillsAppend(fs[1..], f);
    }
  }

  lemma {:induction false} FillsConcat(fs: seq<Fill>, gs: seq<Fill>)
    ensures Filled(fs + gs) == Filled(fs) + Filled(gs) && Cash(fs + gs) == Cash(fs) + Cash(gs)
  {
    if fs == [] {
      assert fs + gs == gs;
    } else {
      assert (fs + gs)[1..] == fs[1..] + gs;
      FillsConcat(fs[1..], gs);
    }
  }

  /** The keys after the best one. */
  lemma SortedRest(ks: set<int>, side: Side)
    requires ks != {}
    ensures var p := BestKey(ks, side);
            SortedKeys(ks, side) != [] && SortedKeys(ks, side)[0] == p && SortedKeys(ks, side)[1..] == SortedKeys(ks - {p}, side)
  {
  }

  lemma SortedSome(ks: set<int>, side: Side)
    ensures SortedKeys(ks, side) == [] <==> ks == {}
  {
  }

  lemma DrainStep(m: Levels, side: Side, v: nat)
    requires m != map[] && v > 0
    ensures var p := BestKey(m.Keys, side);
            && (m - {p}).Keys == m.Keys - {p} && m[p := 0] - {p} == m - {p}
            && Drain(m, side, v) == if v < m[p] then m[p := m[p] - v] else Drain(m - {p}, side, v - m[p])
  {
  }

  lemma AppendFill(fs: seq<Fill>, f: Fill, more: seq<Fill>)
    ensures (fs + [f]) + more == fs + ([f] + more)
  {
  }

  lemma ListsHas(pm: Queues, os: seq<Resting>, side: Side, price: int)
    requires Lists(pm.bid, os, Bid) && Lists(pm.ask, os, Ask)
    ensures price in pm.At(side) ==> pm.At(side)[price] == IdsAt(os, side, price)
    ensures IdsAt(os, side, price) != [] ==> price in pm.At(side)
  {
  }

  lemma QueuesSame(pm: Queues, side: Side, price: int)
    requires price in pm.At(side)
    ensures pm.With(side, pm.At(side)[price := pm.At(side)[price]]) == pm
  {
    assert pm.At(side)[price := pm.At(side)[price]] == pm.At(side);
  }

  lemma QueuesTwice(pm: Queues, side: Side, price: int, a: seq<nat>, b: seq<nat>)
    ensures var q := pm.With(side, pm.At(side)[price := a]);
            q.With(side, q.At(side)[price := b]) == pm.With(side, pm.At(side)[price := b])
  {
    assert pm.At(side)[price := a][price := b] == pm.At(side)[price := b];
  }

  /** No order rests at a price better than the best listed one. */
  lemma BestListed(pm: map<int, seq<nat>>, os: seq<Resting>, side: Side)
    requires Lists(pm, os, side) && pm != map[]
    ensures NoBetter(os, side, BestKey(pm.Keys, side))
  {
    forall i | 0 <= i < |os| && os[i].side == side
      ensures os[i].price in pm
    {
      IdsMember(os, side, os[i].price, os[i].id);
    }
  }

  lemma NothingListed(pm: map<int, seq<nat>>, os: seq<Resting>, side: Side)
    requires Lists(pm, os, side) && pm == map[]
    ensures !HasSide(os, side)
  {
    if HasSide(os, side) {
      var i :| 0 <= i < |os| && os[i].side == side;
      IdsMember(os, side, os[i].price, os[i].id);
    }
  }

  lemma TakeNothing(os: seq<Resting>, side: Side, v: nat)
    requires v == 0 || !HasSide(os, side)
    ensures Take(os, side, v) == os && Fills(os, side, v) == []
  {
  }

  /** A level without ids has no volume left in the levels that the whole market order leaves. */
  lemma LevelGone(pv: Levels2, os: seq<Resting>, side: Side, v: nat, price: int)
    requires Sound(os) && Counted(pv, Take(os, side, v)) && IdsAt(os, side, price) == []
    ensures price !in pv.At(side)
  {
    IdsVolume(os, side, price);
    TakeShrinks(os, side, v, Level(side, price));
  }

  lemma LevelDropped(pm: Queues, side: Side, price: int)
    requires price in pm.At(side)
    ensures pm.At(side)[price := []] - {price} == pm.At(side) - {price}
    ensures (pm.At(side) - {price}).Keys == pm.At(side).Keys - {price}
    ensures NoEmptyLevels(pm) ==> NoEmptyLevels(pm.With(side, pm.At(side) - {price}))
  {
  }

  lemma Subtracted(m: Levels, p: int, v: nat)
    requires p in m
    ensures m[p := 0] - {p} == m - {p}
    ensures v == m[p] ==> SubtractLots(m, p, v) == m - {p}
  {
  }

  lemma TalliesHas(pv: Levels2, os: seq<Resting>, side: Side, price: int)
    requires Counted(pv, os)
    ensures price in pv.At(side) <==> Volume(Level(side, price), os) > 0
  {
  }

  lemma PlanEnds(om: map<nat, Resting>, ids: seq<nat>, agent: Agent, v: nat)
    requires forall i :: 0 <= i < |ids| ==> ids[i] in om
    ensures ids == [] || v == 0 ==> Plan(om, ids, agent, v) == [] && PlanRest(om, ids, agent, v) == v
    ensures Plan(om, ids, agent, 0) == [] && PlanRest(om, ids, agent, 0) == 0
  {
  }

  lemma EmptyTotal(om: map<nat, Resting>)
    ensures Total(om, []) == 0
  {
  }

  /** The ids listed before an order are those of the older orders at its price, and sum up to the volume ahead of it. */
  lemma QueueAhead(om: map<nat, Resting>, pm: Queues, os: seq<Resting>, i: nat)
    requires Sound(os) && Indexed(om, os) && Lists(pm.bid, os, Bid) && Lists(pm.ask, os, Ask) && i < |os|
    ensures var o := os[i];
            var ahead := IdsAt(os[..i], o.side, o.price);
            && o.price in pm.At(o.side)
            && (forall k :: 0 <= k < |pm.At(o.side)[o.price]| ==> pm.At(o.side)[o.price][k] in om)
            && |ahead| < |pm.At(o.side)[o.price]| && pm.At(o.side)[o.price][..|ahead|] == ahead && pm.At(o.side)[o.price][|ahead|] == o.id
            && (forall k :: 0 <= k < |ahead| ==> ahead[k] in om && ahead[k] != o.id)
            && Total(om, ahead) == Ahead(os, i)
  {
    hide Total, IdsAt;
    var o := os[i];
    ListsHas(pm, os, o.side, o.price);
    IdsPrefix(os, i, o.side, o.price);
    IdsKnown(om, os, i, o.side, o.price);
    assert os[..|os|] == os;
    IdsKnown(om, os, |os|, o.side, o.price);
    TotalIsVolume(om, os, i, o.side, o.price);
    IdsIncrease(os, o.side, o.price);
  }

  /** The plan made from the ids of a level carries out the cancellation, and fills what the reply says. */
  lemma PlanOfLevel(om: map<nat, Resting>, pm: Queues, os: seq<Resting>, o: Order, plan: seq<Order>, rest: nat)
    requires Sound(os) && Indexed(om, os) && Lists(pm.bid, os, Bid) && Lists(pm.ask, os, Ask)
    requires o.CancelVolume? && o.price in pm.At(o.side)
    requires forall k :: 0 <= k < |pm.At(o.side)[o.price]| ==> pm.At(o.side)[o.price][k] in om
    requires plan == Plan(om, pm.At(o.side)[o.price], o.agent, o.volume)
    requires rest == PlanRest(om, pm.At(o.side)[o.price], o.agent, o.volume)
    ensures Leads(os, plan, CancelNewest(os, |os|, o.agent, o.side, o.price, o.volume))
    ensures |plan| == CancelCount(os, |os|, o.agent, o.side, o.price, o.volume)
    ensures o.volume - rest == Lesser(o.volume, Volume(OwnLevel(o.agent, o.side, o.price), os))
    ensures forall k :: 0 <= k < |plan| ==> plan[k].agent == o.agent
  {
    hide Sound, IdsAt, Plan, PlanRest, CancelNewest, CancelCount, Volume, Leads;
    assert os[..|os|] == os;
    ListsHas(pm, os, o.side, o.price);
    PlanCancels(om, os, |os|, o.agent, o.side, o.price, o.volume);
    PlanFills(om, os, |os|, o.agent, o.side, o.price, o.volume);
    PlanOwn(om, pm.At(o.side)[o.price], o.agent, o.volume);
  }

  lemma ConcatFills(fs: seq<Fill>, gs: seq<Fill>, more: seq<Fill>)
    ensures (fs + gs) + more == fs + (gs + more) && fs + [] == fs
  {
  }

  /** What the log totals say about the volume resting on a side, given what market orders missed there. */
  ghost predicate Balances(os: seq<Resting>, f: Flow, missed: BySide<nat>) {
    && Volume(Whole(Bid), os) + f.cancelBuy + f.marketSell == f.limitBuy + missed.bid
    && Volume(Whole(Ask), os) + f.cancelSell + f.marketBuy == f.limitSell + missed.ask
  }

  /** A market order misses what it asks for beyond the volume of its side. */
  function MissedAfter(os: seq<Resting>, o: Order, missed: BySide<nat>): BySide<nat> {
    if o.Market? then missed.With(o.side, missed.At(o.side) + o.volume - Lesser(o.volume, Volume(Whole(o.side), os))) else missed
  }

  /** What the market orders of a list miss, up to the first refusal. */
  function MissedRun(b: Book, list: seq<Timed>, missed: BySide<nat>): BySide<nat>
    decreases |list|
  {
    if list == [] then missed
    else
      match Process(b, list[0].order, list[0].time)
      case Failed(_) => missed
      case Ok(b') => MissedRun(b', list[1..], MissedAfter(b.orders, list[0].order, missed))
  }

  /** No market order of the list, up to the first refusal, asks for more than its side holds. */
  predicate Served(b: Book, list: seq<Timed>)
    decreases |list|
  {
    list == [] ||
    var o := list[0].order;
    match Process(b, o, list[0].time)
    case Failed(_) => true
    case Ok(b') => (o.Market? ==> o.volume <= Volume(Whole(o.side), b.orders)) && Served(b', list[1..])
  }

  /** Nothing is missed in a run exactly if every market order is served in full. */
  lemma {:induction false} MissedNothingIff(b: Book, list: seq<Timed>, missed: BySide<nat>)
    ensures MissedRun(b, list, missed).bid >= missed.bid && MissedRun(b, list, missed).ask >= missed.ask
    ensures MissedRun(b, list, missed) == missed <==> Served(b, list)
    decreases |list|
  {
    hide Process, Volume;
    if list == [] {
    } else {
      var r := Process(b, list[0].order, list[0].time);
      if r.Ok? {
        MissedNothingIff(r.value, list[1..], MissedAfter(b.orders, list[0].order, missed));
      }
    }
  }

  /** Limit orders less cancellations less market orders, by the log, are what rests. */
  ghost predicate FlowRests(os: seq<Resting>, f: Flow) {
    && Volume(Whole(Bid), os) == f.limitBuy - f.cancelBuy - f.marketSell
    && Volume(Whole(Ask), os) == f.limitSell - f.cancelSell - f.marketBuy
  }

  lemma FlowRestsIff(os: seq<Resting>, f: Flow, missed: BySide<nat>)
    requires Balances(os, f, missed)
    ensures FlowRests(os, f) <==> missed == BySide(0, 0)
  {
  }

  lemma BalanceKept(os: seq<Resting>, id: nat, o: Order, f: Flow, missed: BySide<nat>)
    requires Sound(os) && Apply(os, id, o).Ok? && !o.CancelVolume? && Balances(os, f, missed)
    ensures Balances(Apply(os, id, o).value, Plus(f, FlowOf(Reply(os, id, o))), MissedAfter(os, o, missed))
  {
    hide Volume, Take, Fills, Sound, Filled, Cash, Position, Crosses;
    FlowConserves(os, id, o);
    if o.Market? {
      TakeConserves(os, o.side, o.volume);
    }
  }

  lemma BookIsSound(b: Book)
    requires BookInv(b)
    ensures Sound(b.orders)
  {
  }

  /** A cancellation by volume adds no flow of its own. */
  lemma NoFlow(os: seq<Resting>, id: nat, o: Order, f: Flow, missed: BySide<nat>)
    requires o.CancelVolume? && Apply(os, id, o).Ok?
    ensures Plus(f, FlowOf(Reply(os, id, o))) == f && MissedAfter(os, o, missed) == missed
  {
  }

  lemma KnowsAll(om: map<nat, Resting>, os: seq<Resting>)
    requires Indexed(om, os)
    ensures Knows(om, os, |os|)
  {
  }

  /** Lots of an order that does not rest put the levels out of step. */
  lemma TooManyLots(pv: Levels2, os: seq<Resting>, side: Side, price: int, v: Lots)
    requires Counted(pv, os)
    ensures !Counted(pv.With(side, AddLots(pv.At(side), price, v)), os)
  {
    hide Volume;
    assert AddLots(pv.At(side), price, v)[price] > Volume(Level(side, price), os);
  }

  function Max0(x: int): nat {
    if x > 0 then x else 0
  }

  /** What the log sees of an order in a book that keeps volumes only. */
  function BareMessage(o: Order): Message {
    match o
    case Limit(agent, side, price, volume, _) => Placed(agent, 0, side, price, volume)
    case Market(agent, side, volume) => Traded(agent, side, volume, 0, 0, [])
    case Cancel(agent, id) => Cancelled(agent, id, Bid, 0, 0)
    case Modify(agent, id, volume) => Modified(agent, id, Bid, 0, 0)
    case CancelVolume(agent, side, price, volume) => VolumeCancelled(agent, side, price, volume, 0)
  }

  class LimitOrderBook {
    const agents: set<Agent>
    const onlyVolumes: bool
    var priceVolume: Levels2
    var priceMap: Queues
    var orderMap: map<nat, Resting>
    var byAgent: map<Agent, set<nat>>
    var updates: nat
    var clock: Option<int>
    var data: Data
    ghost var orders: seq<Resting>
    ghost var missed: BySide<nat>

    ghost function View(): Book
      reads this
    {
      Book(agents, orders, updates, clock)
    }

    function Levels(): VolumeBook
      reads this
    {
      VolumeBook(agents, priceVolume.bid, priceVolume.ask, clock)
    }

    /** The three indexes of orders agree with the resting orders. */
    ghost predicate Held()
      reads this
    {
      Listed(agents, priceMap, orderMap, byAgent, orders)
    }

    /** All four indexes agree. */
    ghost predicate Coherent()
      reads this
    {
      Held() && NoEmptyLevels(priceMap) && Counted(priceVolume, orders)
    }

    ghost predicate Valid()
      reads this
    {
      && Aligned(data) && UpTo(data, clock)
      && (!onlyVolumes ==> Coherent() && BookInv(View()) && Balances(orders, Totals(data), missed))
    }

    /** Nothing has changed but the level of a limit order, which has grown by the order's volume. */
    twostate predicate Traced(o: Order)
      requires o.Limit?
      reads this
    {
      && unchanged(this`priceMap, this`orderMap, this`byAgent, this`updates, this`clock, this`data, this`orders, this`missed)
      && priceVolume == old(priceVolume).With(o.side, AddLots(old(priceVolume).At(o.side), o.price, o.volume))
    }

    constructor (agents: set<Agent>, onlyVolumes: bool)
      ensures Valid() && this.agents == agents && this.onlyVolumes == onlyVolumes
      ensures View() == Book(agents, [], 0, None) && Levels() == VolumeBook(agents, map[], map[], None)
      ensures data == EMPTY_DATA && missed == BySide(0, 0)
    {
      this.agents, this.onlyVolumes := agents, onlyVolumes;
      priceVolume, priceMap := BySide(map[], map[]), BySide(map[], map[]);
      orderMap, byAgent := map[], map a | a in agents :: {};
      updates, clock, data := 0, None, EMPTY_DATA;
      orders, missed := [], BySide(0, 0);
      new;
      assert Owned(byAgent, agents, orders);
    }

    // ---------- limit orders ----------

    /** Put a new order into the three indexes of orders. */
    method Join(x: Resting)
      requires Held() && NoEmptyLevels(priceMap) && x.agent in agents && x.volume > 0
      requires forall i :: 0 <= i < |orders| ==> orders[i].id < x.id
      modifies this`priceMap, this`orderMap, this`byAgent, this`orders
      ensures Held() && NoEmptyLevels(priceMap) && orders == old(orders) + [x]
    {
      hide Tallies, Lists, Indexed, Owned, Sound;
      ListedAppend(agents, priceMap, orderMap, byAgent, orders, x);
      var queues := priceMap.At(x.side);
      if x.price in queues {
        queues := queues[x.price := queues[x.price] + [x.id]];
      } else {
        queues := queues[x.price := [x.id]];
      }
      assert [] + [x.id] == [x.id];
      assert queues == Enlist(priceMap.At(x.side), x.price, x.id);
      priceMap := priceMap.With(x.side, queues);
      orderMap := orderMap[x.id := x];
      byAgent := byAgent[x.agent := byAgent[x.agent] + {x.id}];
      orders := orders + [x];
    }

    method HandleLimitOrder(o: Order) returns (r: Result<Option<Message>>)
      requires o.Limit? && o.agent in agents
      requires !onlyVolumes ==> Coherent() && BookInv(View())
      modifies this`priceVolume, this`priceMap, this`orderMap, this`byAgent, this`orders
      ensures r.Failed? && (onlyVolumes || !HalfPlaced(old(orders), o)) ==> unchanged(this)
      ensures onlyVolumes ==>
                match VolumeApply(old(Levels()), o)
                case Failed(e) => r == Failed(e)
                case Ok(b) => r == Ok(None) && Levels() == b
      ensures !onlyVolumes ==> (Coherent() <==> !HalfPlaced(old(orders), o))
      ensures !onlyVolumes && HalfPlaced(old(orders), o) ==> Traced(o)
      ensures !onlyVolumes && r.Ok? ==> Coherent()
      ensures !onlyVolumes ==>
                match Apply(old(orders), updates, o)
                case Failed(e) => r == Failed(e)
                case Ok(os) => r == Ok(Some(Reply(old(orders), updates, o))) && orders == os
    {
      hide Tallies, Lists, Indexed, Owned, Sound, Uncrossed, Crosses;
      var opposite := priceVolume.At(Opposite(o.side));
      if !onlyVolumes {
        CrossesAlike(Levels(), View(), o.side, o.price);
      }
      if opposite != map[] && !Better(Opposite(o.side), o.price, BestKey(opposite.Keys, Opposite(o.side))) {
        return Failed(CrossesBook);
      }
      var levels := priceVolume.At(o.side);
      if o.price in levels {
        levels := levels[o.price := levels[o.price] + o.volume];
      } else {
        levels := levels[o.price := o.volume];
      }
      ghost var before := priceVolume;
      priceVolume := priceVolume.With(o.side, levels);
      assert levels == AddLots(before.At(o.side), o.price, o.volume);
      if onlyVolumes {
        return Ok(None);
      }
      if o.given.Some? && o.given.value != 0 {
        TooManyLots(before, orders, o.side, o.price, o.volume);
        return Failed(HasOldId);
      }
      var x := Resting(updates, o.agent, o.side, o.price, o.volume);
      CountedAppend(before, orders, x);
      Join(x);
      return Ok(Some(Placed(o.agent, x.id, o.side, o.price, o.volume)));
    }

    // ---------- market orders ----------

    /** The first loop of a market order: volumes level by level, best price first. */
    method DrainLevels(side: Side, volume: nat) returns (prices: seq<int>)
      requires volume > 0
      modifies this`priceVolume
      ensures priceVolume == old(priceVolume).With(side, Drain(old(priceVolume).At(side), side, volume))
      ensures prices == SortedKeys(old(priceVolume).At(side).Keys, side)
    {
      hide Drain, SortedKeys;
      var remaining: nat := volume;
      prices := SortedKeys(priceVolume.At(side).Keys, side);
      var j := 0;
      while j < |prices|
        invariant 0 <= j <= |prices| && remaining > 0
        invariant priceVolume == old(priceVolume).With(side, priceVolume.At(side))
        invariant Drain(old(priceVolume).At(side), side, volume) == Drain(priceVolume.At(side), side, remaining)
        invariant prices[j..] == SortedKeys(priceVolume.At(side).Keys, side)
      {
        var levels := priceVolume.At(side);
        SortedSome(levels.Keys, side);
        SortedRest(levels.Keys, side);
        var price := prices[j];
        assert price == prices[j..][0] && prices[j + 1..] == prices[j..][1..];
        DrainStep(levels, side, remaining);
        var diff := levels[price] - remaining;
        levels := levels[price := Max0(diff)];
        remaining := Max0(-diff);
        if levels[price] == 0 {
          levels := levels - {price};
        }
        priceVolume := priceVolume.With(side, levels);
        if remaining == 0 {
          assert diff >= 0;
          break;
        }
        j := j + 1;
      }
      SortedSome(priceVolume.At(side).Keys, side);
      DrainNothing(priceVolume.At(side), side, remaining);
    }

    /** Take an order off the three indexes of orders. */
    method Unlist(id: nat, ghost i: nat)
      requires Held() && i < |orders| && orders[i].id == id
      modifies this`priceMap, this`orderMap, this`byAgent, this`orders
      ensures Held() && orders == Remove(old(orders), i)
      ensures var o := old(orders)[i];
              && o.price in old(priceMap).At(o.side)
              && priceMap == old(priceMap).With(o.side, old(priceMap).At(o.side)[o.price := Without(old(priceMap).At(o.side)[o.price], id)])
    {
      hide Lists, Indexed, Owned, Sound, Remove, Without;
      ListedRemove(agents, priceMap, orderMap, byAgent, orders, i);
      IndexedHas(orderMap, orders, i);
      var o := orderMap[id];
      priceMap := priceMap.With(o.side, priceMap.At(o.side)[o.price := Without(priceMap.At(o.side)[o.price], id)]);
      orderMap := orderMap - {id};
      byAgent := byAgent[o.agent := byAgent[o.agent] - {id}];
      orders := Remove(orders, i);
    }

    /** The inner loop of the second loop: the orders of one level, oldest first, over a copy of its ids. */
    method ServeLevel(side: Side, price: int, volume: nat) returns (rest: nat, filled: nat, cash: int, fs: seq<Fill>)
      requires Held() && price in priceMap.At(side) && volume > 0 && NoBetter(orders, side, price)
      modifies this`priceMap, this`orderMap, this`byAgent, this`orders
      ensures Held() && filled == Filled(fs) && cash == Cash(fs)
      ensures Take(old(orders), side, volume) == Take(orders, side, rest)
      ensures Fills(old(orders), side, volume) == fs + Fills(orders, side, rest)
      ensures rest == 0 || IdsAt(orders, side, price) == []
      ensures priceMap == old(priceMap).With(side, old(priceMap).At(side)[price := IdsAt(orders, side, price)])
    {
      hide Take, Fills, IdsAt, Lists, Indexed, Owned, Sound, Remove, Resize, Filled, Cash, NoBetter, Best;
      ListsHas(priceMap, orders, side, price);
      var ids := priceMap.At(side)[price];
      rest, filled, cash, fs := volume, 0, 0, [];
      NothingFilled();
      QueuesSame(priceMap, side, price);
      assert ids[0..] == ids && [] + Fills(orders, side, rest) == Fills(orders, side, rest);
      var k := 0;
      while k < |ids|
        invariant 0 <= k <= |ids| && rest > 0
        invariant Held() && NoBetter(orders, side, price)
        invariant filled == Filled(fs) && cash == Cash(fs)
        invariant ids[k..] == IdsAt(orders, side, price)
        invariant priceMap == old(priceMap).With(side, old(priceMap).At(side)[price := ids[k..]])
        invariant Take(old(orders), side, volume) == Take(orders, side, rest)
        invariant Fills(old(orders), side, volume) == fs + Fills(orders, side, rest)
      {
        var id := ids[k];
        assert ids[k..][0] == id && ids[k..][1..] == ids[k + 1..];
        FrontServed(orders, side, price);
        ghost var b := Best(orders, side);
        IndexedHas(orderMap, orders, b);
        var cp := orderMap[id];
        if rest < cp.volume {
          ServePart(orders, side, rest);
          FillsAppend(fs, Fill(cp, rest));
          AppendFill(fs, Fill(cp, rest), Fills(Resize(orders, b, cp.volume - rest), side, 0));
          ListedResize(agents, priceMap, orderMap, byAgent, orders, b, cp.volume - rest);
          IdsResize(orders, side, price, b, cp.volume - rest);
          fs := fs + [Fill(cp, rest)];
          orderMap := orderMap[id := cp.(volume := cp.volume - rest)];
          orders := Resize(orders, b, cp.volume - rest);
          cash := cash + price * rest;
          filled := filled + rest;
          rest := 0;
          break;
        } else {
          ServeWhole(orders, side, rest);
          FillsAppend(fs, Fill(cp, cp.volume));
          AppendFill(fs, Fill(cp, cp.volume), Fills(Remove(orders, b), side, rest - cp.volume));
          NoBetterRemove(orders, side, price, b);
          ListsHas(priceMap, orders, side, price);
          fs := fs + [Fill(cp, cp.volume)];
          Unlist(id, b);
          QueuesTwice(old(priceMap), side, price, ids[k..], ids[k + 1..]);
          ListsHas(priceMap, orders, side, price);
          filled := filled + cp.volume;
          cash := cash + price * cp.volume;
          rest := rest - cp.volume;
          k := k + 1;
          if rest == 0 {
            break;
          }
        }
      }
    }

    /** A level without orders is deleted. */
    method DropLevel(side: Side, price: int)
      requires Held() && price in priceMap.At(side) && priceMap.At(side)[price] == []
      modifies this`priceMap
      ensures Held() && priceMap == old(priceMap).With(side, old(priceMap).At(side) - {price})
    {
      hide Indexed, Owned, Sound, Lists;
      ListedTidy(agents, priceMap, orderMap, byAgent, orders, side, price);
      priceMap := priceMap.With(side, priceMap.At(side) - {price});
    }

    /** One level, which is deleted once its last order is gone; the first loop has deleted its volume by then. */
    method ServeAndDrop(side: Side, price: int, volume: nat) returns (rest: nat, filled: nat, cash: int, fs: seq<Fill>)
      requires Held() && NoEmptyLevels(priceMap) && price in priceMap.At(side) && volume > 0 && NoBetter(orders, side, price)
      requires Counted(priceVolume, Take(orders, side, volume))
      modifies this`priceMap, this`orderMap, this`byAgent, this`orders
      ensures Held() && NoEmptyLevels(priceMap) && filled == Filled(fs) && cash == Cash(fs)
      ensures Take(old(orders), side, volume) == Take(orders, side, rest)
      ensures Fills(old(orders), side, volume) == fs + Fills(orders, side, rest)
      ensures rest > 0 ==> priceMap.At(side).Keys == old(priceMap).At(side).Keys - {price}
    {
      hide Take, Fills, IdsAt, Indexed, Owned, Sound, Filled, Cash, NoBetter, Counted;
      rest, filled, cash, fs := ServeLevel(side, price, volume);
      if priceMap.At(side)[price] == [] {
        LevelGone(priceVolume, orders, side, rest, price);
        LevelDropped(old(priceMap), side, price);
        DropLevel(side, price);
        assert price !in priceVolume.At(side);
      }
    }

    /** The second loop of a market order: the same levels again, order by order. */
    method ServeLevels(side: Side, volume: nat, prices: seq<int>) returns (filled: nat, cash: int, fs: seq<Fill>)
      requires Held() && NoEmptyLevels(priceMap) && volume > 0 && prices == SortedKeys(priceMap.At(side).Keys, side)
      requires Counted(priceVolume, Take(orders, side, volume))
      modifies this`priceMap, this`orderMap, this`byAgent, this`orders
      ensures Held() && NoEmptyLevels(priceMap)
      ensures orders == Take(old(orders), side, volume)
      ensures fs == Fills(old(orders), side, volume) && filled == Filled(fs) && cash == Cash(fs)
    {
      hide Take, Fills, IdsAt, Indexed, Owned, Sound, Filled, Cash, NoBetter, SortedKeys, Tallies, HasSide, Counted;
      var rest: nat := volume;
      filled, cash, fs := 0, 0, [];
      NothingFilled();
      assert [] + Fills(orders, side, rest) == Fills(orders, side, rest);
      var j := 0;
      while j < |prices|
        invariant 0 <= j <= |prices| && rest > 0
        invariant Held() && NoEmptyLevels(priceMap)
        invariant filled == Filled(fs) && cash == Cash(fs)
        invariant prices[j..] == SortedKeys(priceMap.At(side).Keys, side)
        invariant Take(old(orders), side, volume) == Take(orders, side, rest)
        invariant Fills(old(orders), side, volume) == fs + Fills(orders, side, rest)
      {
        var price := prices[j];
        assert price == prices[j..][0] && prices[j + 1..] == prices[j..][1..];
        SortedSome(priceMap.At(side).Keys, side);
        SortedRest(priceMap.At(side).Keys, side);
        BestListed(priceMap.At(side), orders, side);
        var left, f, c, gs := ServeAndDrop(side, price, rest);
        FillsConcat(fs, gs);
        ConcatFills(fs, gs, Fills(orders, side, left));
        rest, filled, cash, fs := left, filled + f, cash + c, fs + gs;
        if rest == 0 {
          break;
        }
        j := j + 1;
      }
      if rest > 0 {
        SortedSome(priceMap.At(side).Keys, side);
        NothingListed(priceMap.At(side), orders, side);
      }
      TakeNothing(orders, side, rest);
      ConcatFills(fs, [], []);
    }

    method HandleMarketOrder(o: Order) returns (r: Result<Option<Message>>)
      requires o.Market? && o.agent in agents
      requires !onlyVolumes ==> Coherent()
      modifies this`priceVolume, this`priceMap, this`orderMap, this`byAgent, this`orders
      ensures r.Failed? ==> unchanged(this)
      ensures onlyVolumes ==>
                match VolumeApply(old(Levels()), o)
                case Failed(e) => r == Failed(e)
                case Ok(b) => r == Ok(None) && Levels() == b
      ensures !onlyVolumes ==>
                && Coherent()
                && match Apply(old(orders), updates, o)
                   case Failed(e) => r == Failed(e)
                   case Ok(os) => r == Ok(Some(Reply(old(orders), updates, o))) && orders == os
    {
      hide Tallies, Lists, Indexed, Owned, Drain, Take, Fills, Filled, Cash, SortedKeys;
      if !onlyVolumes {
        TallyEmpty(priceVolume.At(o.side), orders, o.side);
      }
      if priceVolume.At(o.side) == map[] {
        return Failed(EmptySide);
      }
      if !onlyVolumes {
        KeysCoincide(agents, priceVolume, priceMap, orderMap, byAgent, orders, o.side);
        CountedTake(priceVolume, orders, o.side, o.volume);
      }
      var prices := DrainLevels(o.side, o.volume);
      if onlyVolumes {
        return Ok(None);
      }
      var filled, cash, fs := ServeLevels(o.side, o.volume, prices);
      return Ok(Some(Traded(o.agent, o.side, o.volume, filled, cash, fs)));
    }

    // ---------- cancellations and modifications ----------

    method Cancellation(o: Order) returns (r: Result<Option<Message>>)
      requires o.Cancel? && o.agent in agents
      requires !onlyVolumes ==> Coherent()
      modifies this`priceVolume, this`priceMap, this`orderMap, this`byAgent, this`orders
      ensures r.Failed? ==> unchanged(this)
      ensures onlyVolumes ==> r == Failed(OnlyVolumes) && VolumeApply(old(Levels()), o) == Failed(OnlyVolumes)
      ensures !onlyVolumes ==>
                && Coherent()
                && match Apply(old(orders), updates, o)
                   case Failed(e) => r == Failed(e)
                   case Ok(os) => r == Ok(Some(Reply(old(orders), updates, o))) && orders == os
    {
      hide Tallies, Lists, Owned, Remove, Without, Position;
      if onlyVolumes {
        return Failed(OnlyVolumes);
      }
      ghost var i := Position(orders, o.id);
      if o.id !in orderMap {
        return Failed(UnknownOrder);
      }
      IndexedAt(orderMap, orders, o.id);
      var x := orderMap[o.id];
      if x.agent != o.agent {
        return Failed(NotOwner);
      }
      CountedRemove(priceVolume, orders, i);
      var left := priceVolume.At(x.side)[x.price] - x.volume;
      var levels := priceVolume.At(x.side)[x.price := left];
      if left == 0 {
        levels := levels - {x.price};
      }
      Subtracted(priceVolume.At(x.side), x.price, x.volume);
      priceVolume := priceVolume.With(x.side, levels);
      ghost var queues := priceMap;
      Unlist(o.id, i);
      if priceMap.At(x.side)[x.price] == [] {
        ListedTidy(agents, priceMap, orderMap, byAgent, orders, x.side, x.price);
        LevelDropped(queues, x.side, x.price);
        priceMap := priceMap.With(x.side, priceMap.At(x.side) - {x.price});
      }
      return Ok(Some(Cancelled(o.agent, o.id, x.side, x.price, x.volume)));
    }

    method Modification(o: Order) returns (r: Result<Option<Message>>)
      requires o.Modify? && o.agent in agents
      requires !onlyVolumes ==> Coherent()
      modifies this`priceVolume, this`orderMap, this`orders
      ensures r.Failed? ==> unchanged(this)
      ensures onlyVolumes ==> r == Failed(OnlyVolumes) && VolumeApply(old(Levels()), o) == Failed(OnlyVolumes)
      ensures !onlyVolumes ==>
                && Coherent()
                && match Apply(old(orders), updates, o)
                   case Failed(e) => r == Failed(e)
                   case Ok(os) => r == Ok(Some(Reply(old(orders), updates, o))) && orders == os
    {
      hide Tallies, Lists, Owned, Resize, Position;
      if onlyVolumes {
        return Failed(OnlyVolumes);
      }
      ghost var i := Position(orders, o.id);
      if o.id !in orderMap {
        return Failed(UnknownOrder);
      }
      IndexedAt(orderMap, orders, o.id);
      var x := orderMap[o.id];
      if x.volume <= o.volume {
        return Failed(NotSmaller);
      }
      CountedResize(priceVolume, orders, i, o.volume);
      ListedResize(agents, priceMap, orderMap, byAgent, orders, i, o.volume);
      orderMap := orderMap[o.id := x.(volume := o.volume)];
      var diff := x.volume - o.volume;
      priceVolume := priceVolume.With(x.side, priceVolume.At(x.side)[x.price := priceVolume.At(x.side)[x.price] - diff]);
      orders := Resize(orders, i, o.volume);
      return Ok(Some(Modified(o.agent, o.id, x.side, o.volume, x.volume)));
    }

    /** The loop that turns a cancellation by price and volume into cancellations and a modification. */
    method PlanCancellation(o: Order) returns (plan: seq<Order>, rest: nat)
      requires o.CancelVolume? && Held() && o.price in priceMap.At(o.side)
      ensures forall k :: 0 <= k < |priceMap.At(o.side)[o.price]| ==> priceMap.At(o.side)[o.price][k] in orderMap
      ensures plan == Plan(orderMap, priceMap.At(o.side)[o.price], o.agent, o.volume)
      ensures rest == PlanRest(orderMap, priceMap.At(o.side)[o.price], o.agent, o.volume)
    {
      hide Owned, Sound, Plan, PlanRest, IdsAt, Lists, Indexed;
      ListsHas(priceMap, orders, o.side, o.price);
      var ids := priceMap.At(o.side)[o.price];
      assert orders[..|orders|] == orders;
      KnowsAll(orderMap, orders);
      IdsKnown(orderMap, orders, |orders|, o.side, o.price);
      plan, rest := [], o.volume;
      var k := |ids|;
      assert ids[..k] == ids;
      PlanEnds(orderMap, ids, o.agent, rest);
      while k > 0
        invariant 0 <= k <= |ids|
        invariant Plan(orderMap, ids, o.agent, o.volume) == plan + Plan(orderMap, ids[..k], o.agent, rest)
        invariant PlanRest(orderMap, ids, o.agent, o.volume) == PlanRest(orderMap, ids[..k], o.agent, rest)
      {
        PlanEnds(orderMap, ids[..k], o.agent, rest);
        if rest == 0 {
          break;
        }
        var x := orderMap[ids[k - 1]];
        assert ids[..k] == ids[..k - 1] + [ids[k - 1]];
        IndexedAt(orderMap, orders, ids[k - 1]);
        PlanAppend(orderMap, ids[..k - 1], x, o.agent, rest);
        if x.agent == o.agent {
          if rest < x.volume {
            plan := plan + [Modify(o.agent, ids[k - 1], x.volume - rest)];
            rest := 0;
            break;
          } else {
            plan := plan + [Cancel(o.agent, ids[k - 1])];
            rest := rest - x.volume;
          }
        }
        k := k - 1;
      }
      PlanEnds(orderMap, ids[..k], o.agent, rest);
    }

    /** The planned orders one after the other: each is accepted. */
    method CarryOut(plan: seq<Order>, agent: Agent, time: int, ghost os': seq<Resting>)
      requires Valid() && !onlyVolumes && agent in agents && !Late(clock, time)
      requires Leads(orders, plan, os') && forall k :: 0 <= k < |plan| ==> plan[k].agent == agent
      modifies this
      ensures Valid() && missed == old(missed) && (clock == old(clock) || clock == Some(time))
      ensures orders == os' && updates == old(updates) + |plan|
      decreases 0, 3
    {
      hide Listed, Counted, NoEmptyLevels, Balances, BookInv, Aligned, UpTo, Reply, AddLots;
      var k := 0;
      assert plan[0..] == plan;
      while k < |plan|
        invariant 0 <= k <= |plan|
        invariant Valid() && missed == old(missed) && (clock == old(clock) || clock == Some(time))
        invariant updates == old(updates) + k
        invariant Leads(orders, plan[k..], os')
      {
        assert plan[k..][0] == plan[k] && plan[k..][1..] == plan[k + 1..];
        var m := ProcessOrder(plan[k], time);
        k := k + 1;
      }
    }

    method CancellationByPriceVolume(o: Order, time: int) returns (r: Result<Option<Message>>)
      requires o.CancelVolume? && o.agent in agents && Valid() && !Late(clock, time)
      modifies this
      ensures Valid() && missed == old(missed) && (clock == old(clock) || clock == Some(time))
      ensures r.Failed? ==> unchanged(this)
      ensures onlyVolumes ==>
                && updates == old(updates) && clock == old(clock)
                && match VolumeApply(old(Levels()), o)
                   case Failed(e) => r == Failed(e)
                   case Ok(b) => r == Ok(None) && Levels() == b
      ensures !onlyVolumes ==>
                match Apply(old(orders), old(updates), o)
                case Failed(e) => r == Failed(e)
                case Ok(os) =>
                  && r == Ok(Some(Reply(old(orders), old(updates), o))) && orders == os
                  && updates + 1 == old(updates) + Updates(old(orders), o)
      decreases 1, 0
    {
      hide Tallies, Lists, Indexed, Owned, Sound, Sum, IdsAt, Remove, Resize, Volume, Uncrossed, Plan, PlanRest;
      var levels := priceVolume.At(o.side);
      if !onlyVolumes {
        TalliesHas(priceVolume, orders, o.side, o.price);
      }
      if o.price !in levels {
        return Failed(NoSuchPrice);
      }
      if onlyVolumes {
        levels := levels[o.price := Max0(levels[o.price] - o.volume)];
        if levels[o.price] == 0 {
          levels := levels - {o.price};
        }
        Subtracted(priceVolume.At(o.side), o.price, o.volume);
        priceVolume := priceVolume.With(o.side, levels);
        return Ok(None);
      }
      KeysCoincide(agents, priceVolume, priceMap, orderMap, byAgent, orders, o.side);
      var plan, rest := PlanCancellation(o);
      PlanOfLevel(orderMap, priceMap, orders, o, plan, rest);
      CarryOut(plan, o.agent, time, CancelNewest(orders, |orders|, o.agent, o.side, o.price, o.volume));
      return Ok(Some(VolumeCancelled(o.agent, o.side, o.price, o.volume, o.volume - rest)));
    }

    // ---------- all orders ----------

    /** The handler of the order's type. */
    method Handle(o: Order, time: int) returns (r: Result<Option<Message>>)
      requires Valid() && o.agent in agents && !Late(clock, time)
      modifies this
      ensures Aligned(data) && UpTo(data, clock) && (clock == old(clock) || clock == Some(time)) && missed == old(missed)
      ensures r.Failed? && (onlyVolumes || !HalfPlaced(old(orders), o)) ==> unchanged(this)
      ensures onlyVolumes ==>
                && updates == old(updates) && clock == old(clock)
                && match VolumeApply(old(Levels()), o)
                   case Failed(e) => r == Failed(e)
                   case Ok(b) => r == Ok(None) && Levels() == b
      ensures !onlyVolumes ==> (Coherent() <==> !HalfPlaced(old(orders), o))
      ensures !onlyVolumes && HalfPlaced(old(orders), o) ==> Traced(o)
      ensures !onlyVolumes && r.Ok? ==> Coherent()
      ensures !onlyVolumes ==>
                && (if o.CancelVolume? then Balances(orders, Totals(data), missed) else data == old(data))
                && match Apply(old(orders), old(updates), o)
                   case Failed(e) => r == Failed(e)
                   case Ok(os) =>
                     && r == Ok(Some(Reply(old(orders), old(updates), o))) && orders == os
                     && updates + 1 == old(updates) + Updates(old(orders), o)
      decreases if o.CancelVolume? then 1 else 0, 1
    {
      hide Listed, NoEmptyLevels, Counted, Uncrossed, Volume, Balances, Totals, Plus, FlowOf, MissedAfter, Aligned, UpTo, Drain, Lesser,
        BareMessage, Remove, Resize, LevelCrosses, SubtractLots, AddLots, Apply, Reply, VolumeApply, Sum, Sound, Crosses, CancelCount,
        CancelNewest, Position, Take, Fills, Filled, Cash;
      match o {
        case Limit(_, _, _, _, _) => r := HandleLimitOrder(o);
        case Market(_, _, _) => r := HandleMarketOrder(o);
        case Cancel(_, _) => r := Cancellation(o);
        case Modify(_, _, _) => r := Modification(o);
        case CancelVolume(_, _, _, _) => r := CancellationByPriceVolume(o, time);
      }
    }

    /** The update counter, the log and the clock after an accepted order. */
    method Conclude(o: Order, m: Message, time: int, ghost before: Book)
      requires Aligned(data) && UpTo(data, clock) && !Late(clock, time)
      requires !onlyVolumes ==>
                 && Coherent() && BookInv(before) && before.agents == agents && Process(before, o, time).Ok?
                 && orders == Process(before, o, time).value.orders && updates + 1 == Process(before, o, time).value.updates
                 && m == Reply(before.orders, before.updates, o)
                 && Balances(if o.CancelVolume? then orders else before.orders, Totals(data), missed)
      modifies this`updates, this`data, this`clock, this`missed
      ensures Valid() && updates == old(updates) + 1 && clock == Some(time)
      ensures !onlyVolumes ==> missed == MissedAfter(before.orders, o, old(missed))
    {
      hide Listed, NoEmptyLevels, Counted, Balances, Totals, Plus, FlowOf, MissedAfter, Aligned, UpTo, Apply, Reply, BookInv, Updates, Sum;
      updates := updates + 1;
      ghost var logged := data;
      data := Record(data, clock, time, m);
      clock := Some(time);
      if !onlyVolumes {
        ProcessKeeps(before, o, time);
        if o.CancelVolume? {
          NoFlow(before.orders, before.updates, o, Totals(logged), missed);
        } else {
          BookIsSound(before);
          BalanceKept(before.orders, before.updates, o, Totals(logged), missed);
        }
        missed := MissedAfter(before.orders, o, missed);
      }
    }

    /**
     * process_order. A refusal changes nothing, except that a limit order which has an id already is refused only after
     * its level has grown: then the indexes no longer agree.
     */
    method ProcessOrder(o: Order, time: int) returns (r: Result<Option<Message>>)
      requires Valid()
      modifies this
      ensures onlyVolumes ==>
                match VolumeProcess(old(Levels()), o, time)
                case Failed(e) => r == Failed(e)
                case Ok(b) => r == Ok(None) && Levels() == b
      ensures !onlyVolumes ==>
                match Process(old(View()), o, time)
                case Failed(e) => r == Failed(e)
                case Ok(b) =>
                  && r == Ok(Some(Reply(old(orders), old(updates), o))) && View() == b
                  && missed == MissedAfter(old(orders), o, old(missed))
      ensures r.Failed? && r != Failed(HasOldId) ==> unchanged(this)
      ensures r == Failed(HasOldId) ==> o.Limit? && Traced(o)
      ensures r == Failed(HasOldId) <==> !onlyVolumes && LeavesTrace(old(View()), o, time)
      ensures Valid() <==> r != Failed(HasOldId)
      decreases if o.CancelVolume? then 1 else 0, 2
    {
      RefusedLate(View(), o, time);
      IgnoresIds(Levels(), o);
      hide Listed, NoEmptyLevels, Counted, Uncrossed, Volume, Balances, Totals, Plus, FlowOf, MissedAfter, Aligned, UpTo, Drain, Lesser,
        BareMessage, Remove, Resize, LevelCrosses, SubtractLots, AddLots, Apply, Reply, VolumeApply, Sum, Sound, Crosses, CancelCount,
        CancelNewest, Position, Take, Fills, Filled, Cash, Updates, BookInv;
      if o.agent !in agents {
        return Failed(Unregistered);
      }
      if Late(clock, time) {
        return Failed(PastTime);
      }
      r := Handle(o, time);
      if r.Failed? {
        return;
      }
      Conclude(o, if r.value.Some? then r.value.value else BareMessage(o), time, old(View()));
    }

    /** The volume ahead of an order at its price. */
    method FindQueuePosition(id: nat) returns (r: Result<nat>)
      requires Valid() && !onlyVolumes
      ensures r == if Position(orders, id) == |orders| then Failed(UnknownOrder) else Ok(Ahead(orders, Position(orders, id)))
    {
      hide Owned, Sound, Total, IdsAt, Volume;
      if id !in orderMap {
        return Failed(UnknownOrder);
      }
      IndexedAt(orderMap, orders, id);
      ghost var i := Position(orders, id);
      var o := orderMap[id];
      ghost var ahead := IdsAt(orders[..i], o.side, o.price);
      QueueAhead(orderMap, priceMap, orders, i);
      var ids := priceMap.At(o.side)[o.price];
      var queue, k := 0, 0;
      EmptyTotal(orderMap);
      assert ids[..0] == [];
      while ids[k] != id
        invariant 0 <= k <= |ahead| && queue == Total(orderMap, ids[..k])
        decreases |ids| - k
      {
        assert ids[|ahead|] == id;
        assert k != |ahead|;
        assert ids[..k + 1] == ids[..k] + [ids[k]];
        TotalAppend(orderMap, ids[..k], ids[k]);
        queue := queue + orderMap[ids[k]].volume;
        k := k + 1;
      }
      return Ok(queue);
    }

    /** process_order_list: the orders one after the other, up to the first that is refused, and their messages. */
    method ProcessOrders(list: seq<Timed>) returns (error: Option<Error>, messages: seq<Message>)
      requires Valid()
      modifies this
      ensures Valid() <==> error != Some(HasOldId)
      ensures !onlyVolumes ==> (error == None <==> Accepted(old(View()), list))
      ensures !onlyVolumes ==> Halt(View(), error) == Halted(old(View()), list)
      ensures !onlyVolumes && error == None ==> View() == Run(old(View()), list) && messages == Replies(old(View()), list)
      ensures onlyVolumes && error == None ==> Levels() == VolumeRun(old(Levels()), list)
      ensures !onlyVolumes ==> missed == MissedRun(old(View()), list, old(missed)) && Balances(orders, Totals(data), missed)
      ensures !onlyVolumes && old(missed) == BySide(0, 0) ==> (FlowRests(orders, Totals(data)) <==> Served(old(View()), list))
    {
      hide Process, VolumeProcess, Listed, Counted, BookInv, NoEmptyLevels, Balances, Aligned, UpTo, Reply, Totals, FlowRests, Served,
        MissedAfter;
      MissedNothingIff(View(), list, missed);
      var k := 0;
      messages := [];
      assert list[0..] == list;
      while k < |list|
        invariant 0 <= k <= |list| && Valid()
        invariant !onlyVolumes ==> (Accepted(View(), list[k..]) <==> Accepted(old(View()), list))
        invariant !onlyVolumes ==> Run(View(), list[k..]) == Run(old(View()), list)
        invariant !onlyVolumes ==> Halted(View(), list[k..]) == Halted(old(View()), list)
        invariant !onlyVolumes && Accepted(View(), list[k..]) ==> messages + Replies(View(), list[k..]) == Replies(old(View()), list)
        invariant onlyVolumes ==> VolumeRun(Levels(), list[k..]) == VolumeRun(old(Levels()), list)
        invariant !onlyVolumes ==> MissedRun(View(), list[k..], missed) == MissedRun(old(View()), list, old(missed))
      {
        assert list[k..][0] == list[k] && list[k..][1..] == list[k + 1..];
        var r := ProcessOrder(list[k].order, list[k].time);
        if r.Failed? {
          if !onlyVolumes {
            FlowRestsIff(orders, Totals(data), missed);
          }
          return Some(r.error), messages;
        }
        if r.value.Some? {
          messages := messages + [r.value.value];
        }
        k := k + 1;
      }
      if !onlyVolumes {
        FlowRestsIff(orders, Totals(data), missed);
      }
      return None, messages;
    }
  }
}
