/**
 * How an execution agent of rlte/simulation/agents.py mirrors its share of the book: it never looks at its own
 * orders, it only adds and subtracts what the book's messages say.
 */
module ExecutionPosition {
  import opened OrderBook
  import opened BookSteps

  datatype Inventory = Inventory(initial: nat, volume: int, active: int, marketBuys: int, marketSells: int, limitBuys: int, limitSells: int)

  /** What an agent's own resting orders give in a list of fills. */
  function PassiveVolume(fs: seq<Fill>, me: Agent): nat {
    if fs == [] then 0 else (if fs[0].order.agent == me then fs[0].quantity else 0) + PassiveVolume(fs[1..], me)
  }

  predicate HasPassive(fs: seq<Fill>, me: Agent) {
    exists i :: 0 <= i < |fs| && fs[i].order.agent == me
  }

  /** The checks made before a message is taken in, and the ones on the side of a trade. */
  predicate Fits(p: Inventory, me: Agent, m: Message) {
    && Consistent(p)
    && (m.Traded? && m.agent == me ==> m.side == Bid)
    && (m.Traded? && HasPassive(m.fills, me) ==> m.side == Ask)
  }

  predicate Consistent(p: Inventory) {
    && 0 <= p.active <= p.volume
    && 0 <= p.limitBuys && 0 <= p.limitSells && 0 <= p.marketBuys && 0 <= p.marketSells
    && p.marketBuys + p.marketSells + p.limitBuys + p.limitSells <= p.initial
  }

  /** update_position. Modifications are not taken in. */
  function Update(p: Inventory, me: Agent, m: Message): Inventory {
    match m
    case Modified(_, _, _, _, _) => p
    case VolumeCancelled(agent, _, _, _, filled) => if agent == me then p.(active := p.active - filled) else p
    case Placed(agent, _, _, _, volume) => if agent == me then p.(active := p.active + volume) else p
    case Cancelled(agent, _, _, _, volume) => if agent == me then p.(active := p.active - volume) else p
    case Traded(agent, side, _, filled, _, fills) =>
      var p1 :=
        if agent != me then p
        else if side == Bid then p.(volume := p.volume - filled, marketSells := p.marketSells + filled)
        else p.(volume := p.volume + filled, marketBuys := p.marketBuys + filled);
      var v := PassiveVolume(fills, me);
      if side == Ask then p1.(active := p1.active - v, volume := p1.volume - v, limitSells := p1.limitSells + v)
      else p1.(active := p1.active - v, volume := p1.volume + v, limitBuys := p1.limitBuys + v)
  }

  // ---------- mirroring ----------

  ghost predicate OwnAsks(os: seq<Resting>, me: Agent) {
    forall i :: 0 <= i < |os| && os[i].agent == me ==> os[i].side == Ask
  }

  /** What the agent believes to rest in the book rests there, and every lot it no longer has was sold. */
  ghost predicate Mirrors(p: Inventory, me: Agent, os: seq<Resting>) {
    && p.active == Volume(Own(me), os)
    && OwnAsks(os, me)
    && p.marketBuys == 0 && p.limitBuys == 0 && 0 <= p.marketSells && 0 <= p.limitSells
    && p.volume + p.marketSells + p.limitSells == p.initial
  }

  ghost predicate Tracks(p: Inventory, me: Agent, os: seq<Resting>) {
    Mirrors(p, me, os) && p.active <= p.volume
  }

  lemma TracksIsConsistent(p: Inventory, me: Agent, os: seq<Resting>)
    requires Tracks(p, me, os)
    ensures Consistent(p)
  {
  }

  /** An agent without inventory has nothing in the book. */
  lemma NothingLeft(p: Inventory, me: Agent, os: seq<Resting>)
    requires Tracks(p, me, os) && Sound(os) && p.volume == 0
    ensures forall i :: 0 <= i < |os| ==> os[i].agent != me
  {
    forall i | 0 <= i < |os| && os[i].agent == me
      ensures false
    {
      VolumeMember(Own(me), os, i);
    }
  }

  lemma PassiveMore(f: Fill, fs: seq<Fill>, me: Agent)
    ensures PassiveVolume([f] + fs, me) == (if f.order.agent == me then f.quantity else 0) + PassiveVolume(fs, me)
  {
    assert ([f] + fs)[1..] == fs;
  }

  /** A market order takes from an agent's orders exactly the agent's passive fills. */
  lemma {:induction false} TakeOwn(os: seq<Resting>, side: Side, v: nat, me: Agent)
    requires Sound(os)
    ensures Volume(Own(me), Take(os, side, v)) + PassiveVolume(Fills(os, side, v), me) == Volume(Own(me), os)
    decreases |os|
  {
    hide Volume, Sound, Remove, Resize;
    if v > 0 && HasSide(os, side) {
      var b := Best(os, side);
      if v < os[b].volume {
        VolumeResize(Own(me), os, b, os[b].volume - v);
        assert [Fill(os[b], v)] == [Fill(os[b], v)] + [];
        PassiveMore(Fill(os[b], v), [], me);
      } else {
        VolumeRemove(Own(me), os, b);
        SoundRemove(os, b);
        TakeOwn(Remove(os, b), side, v - os[b].volume, me);
        PassiveMore(Fill(os[b], os[b].volume), Fills(Remove(os, b), side, v - os[b].volume), me);
      }
    }
  }

  lemma {:induction false} NoPassive(fs: seq<Fill>, me: Agent)
    requires !HasPassive(fs, me)
    ensures PassiveVolume(fs, me) == 0
  {
    if fs == [] {
    } else {
      assert fs[0].order.agent != me;
      forall i | 0 <= i < |fs| - 1
        ensures fs[1..][i].order.agent != me
      {
        assert fs[1..][i] == fs[i + 1];
      }
      NoPassive(fs[1..], me);
    }
  }

  /** A seller's orders are met by buyers only. */
  lemma PassiveOnAsks(os: seq<Resting>, side: Side, v: nat, me: Agent)
    requires Sound(os) && OwnAsks(os, me) && HasPassive(Fills(os, side, v), me)
    ensures side == Ask
  {
    var i :| 0 <= i < |Fills(os, side, v)| && Fills(os, side, v)[i].order.agent == me;
    FillsRested(os, side, v, i);
  }

  lemma ApplyThins(os: seq<Resting>, id: nat, o: Order)
    requires Sound(os) && Apply(os, id, o).Ok? && !o.Limit?
    ensures Thinned(os, Apply(os, id, o).value)
  {
    match o
    case Market(_, side, volume) => ThinnedTake(os, side, volume);
    case Cancel(_, other) => ThinnedRemove(os, Position(os, other));
    case Modify(_, other, volume) => ThinnedResize(os, Position(os, other), volume);
    case CancelVolume(agent, side, price, volume) => ThinnedCancel(os, |os|, agent, side, price, volume);
  }

  lemma ThinnedOwnAsks(os: seq<Resting>, os': seq<Resting>, me: Agent)
    requires Thinned(os, os') && OwnAsks(os, me)
    ensures OwnAsks(os', me)
  {
    forall i | 0 <= i < |os'| && os'[i].agent == me
      ensures os'[i].side == Ask
    {
      assert os'[i] in os';
      var j :| 0 <= j < |os| && LeftOf(os'[i], os[j]);
    }
  }

  /** No accepted order gives a seller a bid, except its own. */
  lemma ApplyOwnAsks(os: seq<Resting>, id: nat, o: Order, me: Agent)
    requires Sound(os) && OwnAsks(os, me) && Apply(os, id, o).Ok? && (o.Limit? && o.agent == me ==> o.side == Ask)
    ensures OwnAsks(Apply(os, id, o).value, me)
  {
    if !o.Limit? {
      ApplyThins(os, id, o);
      ThinnedOwnAsks(os, Apply(os, id, o).value, me);
    }
  }

  /** The order is a modification of an order of the agent. */
  predicate ModifiesOwn(os: seq<Resting>, o: Order, me: Agent) {
    o.Modify? && var i := Position(os, o.id); i < |os| && os[i].agent == me
  }

  /** What an order and its reply say about the agent's resting volume. */
  function OwnChange(os: seq<Resting>, o: Order, m: Message, me: Agent): int {
    match m
    case Placed(agent, _, _, _, volume) => if agent == me then volume else 0
    case Traded(_, _, _, _, _, fills) => 0 - PassiveVolume(fills, me)
    case Cancelled(agent, _, _, _, volume) => if agent == me then 0 - volume else 0
    case Modified(_, _, _, volume, before) => if ModifiesOwn(os, o, me) then volume - before else 0
    case VolumeCancelled(agent, _, _, _, filled) => if agent == me then 0 - filled else 0
  }

  lemma OwnVolumeAfter(os: seq<Resting>, id: nat, o: Order, me: Agent)
    requires Sound(os) && Apply(os, id, o).Ok?
    ensures Volume(Own(me), Apply(os, id, o).value) == Volume(Own(me), os) + OwnChange(os, o, Reply(os, id, o), me)
  {
    hide Volume, Take, Fills, Sound;
    match o
    case Limit(agent, side, price, volume, _) => VolumeAppend(Own(me), os, Resting(id, agent, side, price, volume));
    case Market(_, side, volume) => TakeOwn(os, side, volume, me);
    case Cancel(_, other) => VolumeRemove(Own(me), os, Position(os, other));
    case Modify(_, other, volume) => VolumeResize(Own(me), os, Position(os, other), volume);
    case CancelVolume(agent, side, price, volume) =>
      assert os[..|os|] == os;
      if agent == me {
        CancelConserves(os, |os|, agent, side, price, volume, Own(me));
      } else {
        CancelOutside(os, |os|, agent, side, price, volume, Own(me));
      }
  }

  /** Orders that the agent itself sends: it sells only. */
  predicate Sells(o: Order) {
    match o
    case Limit(_, side, _, _, _) => side == Ask
    case Market(_, side, _) => side == Bid
    case Cancel(_, _) => true
    case Modify(_, _, _) => false
    case CancelVolume(_, _, _, _) => true
  }

  /** Inventory not resting in the book. */
  function Slack(p: Inventory): int {
    p.volume - p.active
  }

  function SlackChange(m: Message, me: Agent): int {
    match m
    case Placed(agent, _, _, _, volume) => if agent == me then 0 - volume else 0
    case Traded(agent, _, _, filled, _, _) => if agent == me then 0 - filled else 0
    case Cancelled(agent, _, _, _, volume) => if agent == me then volume else 0
    case Modified(_, _, _, _, _) => 0
    case VolumeCancelled(agent, _, _, _, filled) => if agent == me then filled else 0
  }

  /** A message of any order, of the agent or of others, keeps the mirror exact. */
  lemma UpdateMirrors(p: Inventory, me: Agent, os: seq<Resting>, id: nat, o: Order)
    requires Sound(os) && Apply(os, id, o).Ok? && Mirrors(p, me, os)
    requires !ModifiesOwn(os, o, me) && (o.agent == me ==> Sells(o))
    ensures var m := Reply(os, id, o);
            && Mirrors(Update(p, me, m), me, Apply(os, id, o).value)
            && Slack(Update(p, me, m)) == Slack(p) + SlackChange(m, me)
            && (Consistent(p) ==> Fits(p, me, m))
  {
    hide Volume, Take, Fills, Sound, Position, Filled, Cash, Crosses, OwnAsks;
    OwnVolumeAfter(os, id, o, me);
    ApplyOwnAsks(os, id, o, me);
    if o.Market? {
      TradeSides(os, o.side, o.volume, me);
    }
  }

  /**
   * Where sold lots are counted: what the agent's market order takes off the bids as market sales, what somebody's market
   * order takes off the agent's resting orders as limit sales; both leave the inventory, and nothing else does.
   */
  lemma UpdateCounts(p: Inventory, me: Agent, os: seq<Resting>, id: nat, o: Order)
    requires Sound(os) && Apply(os, id, o).Ok? && OwnAsks(os, me) && (o.agent == me ==> Sells(o))
    ensures var os', p' := Apply(os, id, o).value, Update(p, me, Reply(os, id, o));
            && p'.marketSells == p.marketSells + (if o.Market? && o.agent == me then Volume(Whole(Bid), os) - Volume(Whole(Bid), os') else 0)
            && p'.limitSells == p.limitSells + (if o.Market? then Volume(Own(me), os) - Volume(Own(me), os') else 0)
            && p'.volume == p.volume - (p'.marketSells - p.marketSells) - (p'.limitSells - p.limitSells)
            && p'.marketBuys == p.marketBuys && p'.limitBuys == p.limitBuys && p'.initial == p.initial
  {
    hide Volume, Take, Fills, Sound, Position, Filled, Cash, Crosses, OwnAsks;
    OwnVolumeAfter(os, id, o, me);
    if o.Market? {
      TradeSides(os, o.side, o.volume, me);
      TakeConserves(os, o.side, o.volume);
    }
  }

  /** Orders of the agent alone are never limit sales: those need somebody else's market order. */
  lemma {:induction false} OwnOrdersCount(p: Inventory, me: Agent, b: Book, list: seq<Timed>)
    requires BookInv(b) && OwnAsks(b.orders, me) && forall i :: 0 <= i < |list| ==> list[i].order.agent == me && Sells(list[i].order)
    ensures Follow(p, me, b, list).limitSells == p.limitSells
    decreases |list|
  {
    hide Sound, Uncrossed, Volume, OwnAsks, Update, Reply, Apply;
    if list == [] {
    } else {
      var o, time := list[0].order, list[0].time;
      if Process(b, o, time).Ok? {
        OneOwnOrder(p, me, b, o, time);
        OwnOrdersCount(Update(p, me, Reply(b.orders, b.updates, o)), me, Process(b, o, time).value, list[1..]);
      } else {
        OwnOrdersCount(p, me, b, list[1..]);
      }
    }
  }

  lemma OneOwnOrder(p: Inventory, me: Agent, b: Book, o: Order, time: int)
    requires BookInv(b) && OwnAsks(b.orders, me) && o.agent == me && Sells(o) && Process(b, o, time).Ok?
    ensures BookInv(Process(b, o, time).value) && OwnAsks(Process(b, o, time).value.orders, me)
    ensures Update(p, me, Reply(b.orders, b.updates, o)).limitSells == p.limitSells
  {
    hide Volume, Take, Fills, Sound, Uncrossed, Position, Filled, Cash, Crosses, OwnAsks;
    ProcessKeeps(b, o, time);
    ApplyOwnAsks(b.orders, b.updates, o, me);
    UpdateCounts(p, me, b.orders, b.updates, o);
    if o.Market? {
      OwnVolumeAfter(b.orders, b.updates, o, me);
      TradeSides(b.orders, o.side, o.volume, me);
    }
  }

  lemma TradeSides(os: seq<Resting>, side: Side, v: nat, me: Agent)
    requires Sound(os) && OwnAsks(os, me)
    ensures HasPassive(Fills(os, side, v), me) ==> side == Ask
    ensures side == Bid ==> PassiveVolume(Fills(os, side, v), me) == 0
  {
    if HasPassive(Fills(os, side, v), me) {
      PassiveOnAsks(os, side, v, me);
    } else {
      NoPassive(Fills(os, side, v), me);
    }
  }

  /**
   * Orders of others leave the mirror exact, with the same inventory out of the book, if and only if the order does
   * not modify one of the agent's own orders; the book lets anyone do that, and the agent does not take it in.
   */
  lemma OthersTrackIff(p: Inventory, me: Agent, os: seq<Resting>, id: nat, o: Order)
    requires Sound(os) && Apply(os, id, o).Ok? && Tracks(p, me, os) && o.agent != me
    ensures Fits(p, me, Reply(os, id, o))
    ensures Tracks(Update(p, me, Reply(os, id, o)), me, Apply(os, id, o).value) <==> !ModifiesOwn(os, o, me)
  {
    hide Volume, Take, Fills, Sound, Position, Filled, Cash, Crosses, OwnAsks;
    if ModifiesOwn(os, o, me) {
      OwnVolumeAfter(os, id, o, me);
    } else {
      UpdateMirrors(p, me, os, id, o);
    }
  }

  /** The position after the messages of a list of orders, refused orders sending none. */
  function Follow(p: Inventory, me: Agent, b: Book, list: seq<Timed>): Inventory
    decreases |list|
  {
    if list == [] then p
    else
      var o, time := list[0].order, list[0].time;
      match Process(b, o, time)
      case Ok(b') => Follow(Update(p, me, Reply(b.orders, b.updates, o)), me, b', list[1..])
      case Failed(_) => Follow(p, me, b, list[1..])
  }

  /** No order of the list is the agent's own or modifies one of its orders. */
  predicate Foreign(b: Book, list: seq<Timed>, me: Agent)
    decreases |list|
  {
    list == [] ||
    var r := Process(b, list[0].order, list[0].time);
    && list[0].order.agent != me && !ModifiesOwn(b.orders, list[0].order, me)
    && Foreign(if r.Ok? then r.value else b, list[1..], me)
  }

  /** Through any run of other agents' orders the agent knows exactly what rests for it, though it sees messages only. */
  lemma {:induction false} RunTracks(p: Inventory, me: Agent, b: Book, list: seq<Timed>)
    requires BookInv(b) && Tracks(p, me, b.orders) && Foreign(b, list, me)
    ensures Tracks(Follow(p, me, b, list), me, Run(b, list).orders)
    ensures Slack(Follow(p, me, b, list)) == Slack(p)
    decreases |list|
  {
    hide Sound, Uncrossed, OwnAsks, Volume, Update, Take, Fills, Filled, Cash, Position, Crosses, CancelNewest;
    if list == [] {
    } else {
      var o, time := list[0].order, list[0].time;
      var r := Process(b, o, time);
      if r.Ok? {
        UpdateMirrors(p, me, b.orders, b.updates, o);
        assert SlackChange(Reply(b.orders, b.updates, o), me) == 0;
        ProcessKeeps(b, o, time);
        RunTracks(Update(p, me, Reply(b.orders, b.updates, o)), me, r.value, list[1..]);
      } else {
        RunTracks(p, me, b, list[1..]);
      }
    }
  }
}
