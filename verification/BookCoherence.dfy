/** When the four indexes of the stored book agree with each other and with the resting orders. */
module BookCoherence {
  import opened OrderBook
  import opened BookSteps
  import opened BookVolumes
  import opened BookIndexes
  import opened BookPlans

  /** A dictionary with one entry for each side. */
  datatype BySide<T> = BySide(bid: T, ask: T) {
    function At(side: Side): T {
      if side == Bid then bid else ask
    }

    function With(side: Side, t: T): BySide<T> {
      if side == Bid then this.(bid := t) else this.(ask := t)
    }
  }

  type Levels2 = BySide<Levels>
  type Queues = BySide<map<int, seq<nat>>>

  /** price_volume_map holds exactly the non-empty levels of both sides. */
  ghost predicate Counted(pv: Levels2, os: seq<Resting>) {
    Tallies(pv.bid, os, Bid) && Tallies(pv.ask, os, Ask)
  }

  /** price_map lists all orders by price and age, order_map holds them by id and order_map_by_agent by owner. */
  ghost predicate Listed(agents: set<Agent>, pm: Queues, om: map<nat, Resting>, ba: map<Agent, set<nat>>, os: seq<Resting>) {
    && Sound(os)
    && (forall i :: 0 <= i < |os| ==> os[i].agent in agents)
    && Lists(pm.bid, os, Bid) && Lists(pm.ask, os, Ask)
    && Indexed(om, os) && Owned(ba, agents, os)
  }

  predicate NoEmptyLevels(pm: Queues) {
    NoEmptyLevel(pm.bid) && NoEmptyLevel(pm.ask)
  }

  function Enlist(m: map<int, seq<nat>>, price: int, id: nat): map<int, seq<nat>> {
    m[price := (if price in m then m[price] else []) + [id]]
  }

  /** A level that has lost its last id is dropped. */
  function Tidy(m: map<int, seq<nat>>, price: int): map<int, seq<nat>> {
    if price in m && m[price] == [] then m - {price} else m
  }

  lemma ListedAppend(agents: set<Agent>, pm: Queues, om: map<nat, Resting>, ba: map<Agent, set<nat>>, os: seq<Resting>, o: Resting)
    requires Listed(agents, pm, om, ba, os) && o.agent in agents && o.volume > 0
    requires forall i :: 0 <= i < |os| ==> os[i].id < o.id
    ensures o.agent in ba
    ensures Listed(agents, pm.With(o.side, Enlist(pm.At(o.side), o.price, o.id)), om[o.id := o], ba[o.agent := ba[o.agent] + {o.id}], os + [o])
  {
    hide Lists, Owned;
    ListsAppend(pm.bid, os, Bid, o);
    ListsAppend(pm.ask, os, Ask, o);
    assert o.id !in om;
    IndexedAppend(om, os, o);
    OwnedKeys(ba, agents, os);
    OwnedAppend(ba, agents, os, o);
  }

  lemma OwnedKeys(ba: map<Agent, set<nat>>, agents: set<Agent>, os: seq<Resting>)
    requires Owned(ba, agents, os)
    ensures ba.Keys == agents
  {
  }

  lemma ListedRemove(agents: set<Agent>, pm: Queues, om: map<nat, Resting>, ba: map<Agent, set<nat>>, os: seq<Resting>, i: nat)
    requires Listed(agents, pm, om, ba, os) && i < |os|
    ensures var o := os[i];
            && o.price in pm.At(o.side) && o.id in om && o.agent in ba
            && Listed(agents, pm.With(o.side, pm.At(o.side)[o.price := Without(pm.At(o.side)[o.price], o.id)]), om - {o.id},
                      ba[o.agent := ba[o.agent] - {o.id}], Remove(os, i))
  {
    hide Lists, Indexed, Sound, Without;
    ListsRemove(pm.bid, os, Bid, i);
    ListsRemove(pm.ask, os, Ask, i);
    IndexedHas(om, os, i);
    IndexedRemove(om, os, i);
    OwnedRemove(ba, agents, os, i);
    SoundRemove(os, i);
  }

  lemma IndexedHas(om: map<nat, Resting>, os: seq<Resting>, i: nat)
    requires Indexed(om, os) && i < |os|
    ensures os[i].id in om && om[os[i].id] == os[i]
  {
  }

  lemma ListedResize(agents: set<Agent>, pm: Queues, om: map<nat, Resting>, ba: map<Agent, set<nat>>, os: seq<Resting>, i: nat, volume: nat)
    requires Listed(agents, pm, om, ba, os) && i < |os| && volume > 0
    ensures Listed(agents, pm, om[os[i].id := os[i].(volume := volume)], ba, Resize(os, i, volume))
  {
    hide Lists, Indexed, Owned, Sound;
    ListsResize(pm.bid, os, Bid, i, volume);
    ListsResize(pm.ask, os, Ask, i, volume);
    IndexedResize(om, os, i, volume);
    OwnedResize(ba, agents, os, i, volume);
    SoundResize(os, i, volume);
  }

  lemma ListedTidy(agents: set<Agent>, pm: Queues, om: map<nat, Resting>, ba: map<Agent, set<nat>>, os: seq<Resting>, side: Side, price: int)
    requires Listed(agents, pm, om, ba, os)
    ensures Listed(agents, pm.With(side, Tidy(pm.At(side), price)), om, ba, os)
  {
    hide Indexed, Owned, Sound;
  }

  lemma CountedAppend(pv: Levels2, os: seq<Resting>, o: Resting)
    requires Counted(pv, os) && o.volume > 0
    ensures Counted(pv.With(o.side, AddLots(pv.At(o.side), o.price, o.volume)), os + [o])
  {
    hide Tallies;
    TallyAppend(pv.bid, os, Bid, o);
    TallyAppend(pv.ask, os, Ask, o);
  }

  lemma CountedRemove(pv: Levels2, os: seq<Resting>, i: nat)
    requires Counted(pv, os) && Sound(os) && i < |os|
    ensures var o := os[i];
            && o.price in pv.At(o.side) && o.volume <= pv.At(o.side)[o.price]
            && Counted(pv.With(o.side, SubtractLots(pv.At(o.side), o.price, o.volume)), Remove(os, i))
  {
    CountedHas(pv, os, i);
    TallyRemove(pv.bid, os, Bid, i);
    TallyRemove(pv.ask, os, Ask, i);
  }

  lemma CountedResize(pv: Levels2, os: seq<Resting>, i: nat, volume: nat)
    requires Counted(pv, os) && Sound(os) && i < |os| && volume <= os[i].volume
    ensures var o := os[i];
            && o.price in pv.At(o.side) && o.volume <= pv.At(o.side)[o.price]
            && Counted(pv.With(o.side, SubtractLots(pv.At(o.side), o.price, o.volume - volume)), Resize(os, i, volume))
  {
    CountedHas(pv, os, i);
    TallyResize(pv.bid, os, Bid, i, volume);
    TallyResize(pv.ask, os, Ask, i, volume);
  }

  lemma CountedHas(pv: Levels2, os: seq<Resting>, i: nat)
    requires Counted(pv, os) && Sound(os) && i < |os|
    ensures os[i].price in pv.At(os[i].side) && os[i].volume <= pv.At(os[i].side)[os[i].price]
  {
    VolumeMember(Level(os[i].side, os[i].price), os, i);
  }

  lemma CountedTake(pv: Levels2, os: seq<Resting>, side: Side, v: nat)
    requires Counted(pv, os) && Sound(os)
    ensures Counted(pv.With(side, Drain(pv.At(side), side, v)), Take(os, side, v))
  {
    hide Tallies, Drain;
    TakeDrains(pv.At(side), os, side, v);
    TakeSparesOther(pv.At(Opposite(side)), os, side, v);
  }

  /** The two price indexes have the same keys. */
  lemma KeysCoincide(agents: set<Agent>, pv: Levels2, pm: Queues, om: map<nat, Resting>, ba: map<Agent, set<nat>>, os: seq<Resting>, side: Side)
    requires Listed(agents, pm, om, ba, os) && NoEmptyLevels(pm) && Counted(pv, os)
    ensures pv.At(side).Keys == pm.At(side).Keys
  {
    forall p
      ensures p in pv.At(side) <==> p in pm.At(side)
    {
      IdsVolume(os, side, p);
    }
  }

  /** The volume of a level is the sum of the volumes of the orders listed there, and is positive. */
  lemma LevelIsSumOfListed(agents: set<Agent>, pv: Levels2, pm: Queues, om: map<nat, Resting>, ba: map<Agent, set<nat>>, os: seq<Resting>,
                           side: Side, price: int)
    requires Listed(agents, pm, om, ba, os) && NoEmptyLevels(pm) && Counted(pv, os) && price in pv.At(side)
    ensures price in pm.At(side) && (forall i :: 0 <= i < |pm.At(side)[price]| ==> pm.At(side)[price][i] in om)
    ensures 0 < pv.At(side)[price] == Total(om, pm.At(side)[price])
  {
    hide Owned;
    KeysCoincide(agents, pv, pm, om, ba, os, side);
    assert os[..|os|] == os;
    IdsKnown(om, os, |os|, side, price);
    TotalIsVolume(om, os, |os|, side, price);
  }

  /**
   * The ids of order_map are exactly those listed at some price, and each is listed at its own price and side only;
   * they are exactly those of some owner, and each belongs to its own owner only.
   */
  lemma IndexesAgree(agents: set<Agent>, pv: Levels2, pm: Queues, om: map<nat, Resting>, ba: map<Agent, set<nat>>, os: seq<Resting>, id: nat)
    requires Listed(agents, pm, om, ba, os) && NoEmptyLevels(pm) && Counted(pv, os)
    ensures id in om <==> exists side, p :: p in pm.At(side) && id in pm.At(side)[p]
    ensures forall side, p :: p in pm.At(side) && id in pm.At(side)[p] ==> id in om && om[id].side == side && om[id].price == p
    ensures id in om <==> exists a :: a in ba && id in ba[a]
    ensures forall a :: a in ba && id in ba[a] ==> id in om && om[id].agent == a
  {
    if id in om {
      IndexedAt(om, os, id);
      var o := os[Position(os, id)];
      IdsMember(os, o.side, o.price, id);
      assert o.price in pm.At(o.side) && id in pm.At(o.side)[o.price];
      assert o.agent in ba && id in ba[o.agent];
    }
    forall side, p | p in pm.At(side) && id in pm.At(side)[p]
      ensures id in om && om[id].side == side && om[id].price == p
    {
      assert pm.At(side)[p] == IdsAt(os, side, p);
      ListedIs(os, side, p, id);
    }
    forall a | a in ba && id in ba[a]
      ensures id in om && om[id].agent == a
    {
      var i :| 0 <= i < |os| && os[i].agent == a && os[i].id == id;
    }
  }
}
