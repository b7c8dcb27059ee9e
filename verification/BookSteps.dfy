/** The five order types, one step each, and what every step keeps. */
module BookSteps {
  import opened Wrappers
  import opened OrderBook

  /** A limit order that was accepted before carries the id it was given then. */
  datatype Order =
    | Limit(agent: Agent, side: Side, price: int, volume: Lots, given: Option<nat> := None)
    | Market(agent: Agent, side: Side, volume: Lots)
    | Cancel(agent: Agent, id: nat)
    | Modify(agent: Agent, id: nat, volume: Lots)
    | CancelVolume(agent: Agent, side: Side, price: int, volume: Lots)

  datatype Error = Unregistered | PastTime | CrossesBook | EmptySide | HasOldId | UnknownOrder | NotOwner | NotSmaller | NoSuchPrice | OnlyVolumes

  /** The resting orders, the number of orders processed so far, and the time of the last one. */
  datatype Book = Book(agents: set<Agent>, orders: seq<Resting>, updates: nat, clock: Option<int>)

  datatype Result<T> = Ok(value: T) | Failed(error: Error)

  function Opposite(side: Side): Side {
    if side == Bid then Ask else Bid
  }

  /** A limit order that would reach the best opposite price is refused. */
  predicate Crosses(os: seq<Resting>, side: Side, price: int) {
    && HasSide(os, Opposite(side))
    && !Better(Opposite(side), price, os[Best(os, Opposite(side))].price)
  }

  predicate OwnAt(o: Resting, agent: Agent, side: Side, price: int) {
    o.agent == agent && o.side == side && o.price == price
  }

  /** Cancel v lots of an agent at a price among the first i orders, newest first. */
  function CancelNewest(os: seq<Resting>, i: nat, agent: Agent, side: Side, price: int, v: nat): seq<Resting>
    requires i <= |os|
    decreases i
  {
    if i == 0 || v == 0 then os
    else if !OwnAt(os[i - 1], agent, side, price) then CancelNewest(os, i - 1, agent, side, price, v)
    else if v < os[i - 1].volume then Resize(os, i - 1, os[i - 1].volume - v)
    else CancelNewest(Remove(os, i - 1), i - 1, agent, side, price, v - os[i - 1].volume)
  }

  /** How many orders that touches: each is processed as a cancellation or modification of its own. */
  function CancelCount(os: seq<Resting>, i: nat, agent: Agent, side: Side, price: int, v: nat): nat
    requires i <= |os|
    decreases i
  {
    if i == 0 || v == 0 then 0
    else if !OwnAt(os[i - 1], agent, side, price) then CancelCount(os, i - 1, agent, side, price, v)
    else if v < os[i - 1].volume then 1
    else 1 + CancelCount(Remove(os, i - 1), i - 1, agent, side, price, v - os[i - 1].volume)
  }

  /** An order with an id of its own; the id 0 counts as none. */
  predicate Reused(o: Order) {
    o.Limit? && o.given.Some? && o.given.value > 0
  }

  /** The orders after one order of the agent, if it is accepted. */
  function Apply(os: seq<Resting>, id: nat, o: Order): Result<seq<Resting>> {
    match o
    case Limit(agent, side, price, volume, _) =>
      if Crosses(os, side, price) then Failed(CrossesBook)
      else if Reused(o) then Failed(HasOldId)
      else Ok(os + [Resting(id, agent, side, price, volume)])
    case Market(_, side, volume) =>
      if !HasSide(os, side) then Failed(EmptySide) else Ok(Take(os, side, volume))
    case Cancel(agent, id) =>
      var i := Position(os, id);
      if i == |os| then Failed(UnknownOrder)
      else if os[i].agent != agent then Failed(NotOwner)
      else Ok(Remove(os, i))
    case Modify(_, id, volume) =>
      var i := Position(os, id);
      if i == |os| then Failed(UnknownOrder)
      else if volume >= os[i].volume then Failed(NotSmaller)
      else Ok(Resize(os, i, volume))
    case CancelVolume(agent, side, price, volume) =>
      if Volume(Level(side, price), os) == 0 then Failed(NoSuchPrice)
      else Ok(CancelNewest(os, |os|, agent, side, price, volume))
  }

  /** Confirmation messages. A fill message carries the passive fills in the order in which they happened. */
  datatype Message =
    | Placed(agent: Agent, id: nat, side: Side, price: int, volume: nat)
    | Traded(agent: Agent, side: Side, requested: nat, filled: nat, cash: int, fills: seq<Fill>)
    | Cancelled(agent: Agent, id: nat, side: Side, price: int, volume: nat)
    | Modified(agent: Agent, id: nat, side: Side, volume: nat, before: nat)
    | VolumeCancelled(agent: Agent, side: Side, price: int, requested: nat, filled: nat)

  /** What an accepted order reports back. */
  function Reply(os: seq<Resting>, id: nat, o: Order): Message
    requires Apply(os, id, o).Ok?
  {
    match o
    case Limit(agent, side, price, volume, _) => Placed(agent, id, side, price, volume)
    case Market(agent, side, volume) =>
      var fs := Fills(os, side, volume);
      Traded(agent, side, volume, Filled(fs), Cash(fs), fs)
    case Cancel(agent, id) =>
      var x := os[Position(os, id)];
      Cancelled(agent, id, x.side, x.price, x.volume)
    case Modify(agent, id, volume) =>
      var x := os[Position(os, id)];
      Modified(agent, id, x.side, volume, x.volume)
    case CancelVolume(agent, side, price, volume) =>
      VolumeCancelled(agent, side, price, volume, Lesser(volume, Volume(OwnLevel(agent, side, price), os)))
  }

  function Updates(os: seq<Resting>, o: Order): nat {
    if o.CancelVolume? then 1 + CancelCount(os, |os|, o.agent, o.side, o.price, o.volume) else 1
  }

  predicate Late(clock: Option<int>, time: int) {
    clock.Some? && time < clock.value
  }

  function Process(b: Book, o: Order, time: int): Result<Book> {
    if o.agent !in b.agents then Failed(Unregistered)
    else if Late(b.clock, time) then Failed(PastTime)
    else
      match Apply(b.orders, b.updates, o)
      case Failed(e) => Failed(e)
      case Ok(os) => Ok(b.(orders := os, updates := b.updates + Updates(b.orders, o), clock := Some(time)))
  }

  /** The refusal that comes too late: the volume of the level has changed by then. */
  predicate HalfPlaced(os: seq<Resting>, o: Order) {
    Reused(o) && !Crosses(os, o.side, o.price)
  }

  predicate LeavesTrace(b: Book, o: Order, time: int) {
    o.agent in b.agents && !Late(b.clock, time) && HalfPlaced(b.orders, o)
  }

  /** Exactly the orders refused for their id leave a trace. */
  lemma RefusedLate(b: Book, o: Order, time: int)
    ensures LeavesTrace(b, o, time) <==> Process(b, o, time) == Failed(HasOldId)
  {
  }

  // ---------- the invariant ----------

  /** Ids below the update counter, positive volumes, registered owners, and no bid at or above an ask. */
  ghost predicate BookInv(b: Book) {
    && Sound(b.orders) && Uncrossed(b.orders)
    && forall i :: 0 <= i < |b.orders| ==> b.orders[i].id < b.updates && b.orders[i].agent in b.agents
  }

  /** Every order of os' is what is left of one of os. */
  ghost predicate Thinned(os: seq<Resting>, os': seq<Resting>) {
    Sound(os') && forall x :: x in os' ==> Descends(x, os)
  }

  lemma ThinnedKeeps(b: Book, os': seq<Resting>, updates: nat, clock: Option<int>)
    requires BookInv(b) && Thinned(b.orders, os') && b.updates <= updates
    ensures BookInv(b.(orders := os', updates := updates, clock := clock))
  {
    forall i | 0 <= i < |os'|
      ensures os'[i].id < updates && os'[i].agent in b.agents
    {
      assert os'[i] in os';
      var j :| 0 <= j < |b.orders| && LeftOf(os'[i], b.orders[j]);
    }
    forall i, j | 0 <= i < |os'| && 0 <= j < |os'| && os'[i].side == Bid && os'[j].side == Ask
      ensures os'[i].price < os'[j].price
    {
      assert os'[i] in os' && os'[j] in os';
      var i', j' :| 0 <= i' < |b.orders| && LeftOf(os'[i], b.orders[i']) && 0 <= j' < |b.orders| && LeftOf(os'[j], b.orders[j']);
    }
  }

  lemma ThinnedRemove(os: seq<Resting>, i: nat)
    requires Sound(os) && i < |os|
    ensures Thinned(os, Remove(os, i))
  {
    SoundRemove(os, i);
    forall x | x in Remove(os, i)
      ensures Descends(x, os)
    {
      RemoveMember(os, i, x);
      var j :| 0 <= j < |os| && os[j] == x;
      assert LeftOf(x, os[j]);
    }
  }

  lemma ThinnedResize(os: seq<Resting>, i: nat, volume: nat)
    requires Sound(os) && i < |os| && 0 < volume <= os[i].volume
    ensures Thinned(os, Resize(os, i, volume))
  {
    SoundResize(os, i, volume);
    forall x | x in Resize(os, i, volume)
      ensures Descends(x, os)
    {
      ResizeMember(os, i, volume, x);
      if x in os {
        var j :| 0 <= j < |os| && os[j] == x;
        assert LeftOf(x, os[j]);
      } else {
        assert LeftOf(x, os[i]);
      }
    }
  }

  lemma ThinnedTwice(os: seq<Resting>, os': seq<Resting>, os'': seq<Resting>)
    requires Thinned(os, os') && Thinned(os', os'')
    ensures Thinned(os, os'')
  {
    forall x | x in os''
      ensures Descends(x, os)
    {
      var i :| 0 <= i < |os'| && LeftOf(x, os'[i]);
      assert os'[i] in os';
      var j :| 0 <= j < |os| && LeftOf(os'[i], os[j]);
      assert LeftOf(x, os[j]);
    }
  }

  lemma ThinnedSame(os: seq<Resting>)
    requires Sound(os)
    ensures Thinned(os, os)
  {
    forall x | x in os
      ensures Descends(x, os)
    {
      var j :| 0 <= j < |os| && os[j] == x;
      assert LeftOf(x, os[j]);
    }
  }

  lemma {:induction false} ThinnedCancel(os: seq<Resting>, i: nat, agent: Agent, side: Side, price: int, v: nat)
    requires Sound(os) && i <= |os|
    ensures Thinned(os, CancelNewest(os, i, agent, side, price, v))
    decreases i
  {
    hide Sound, Thinned, Remove, Resize;
    if i == 0 || v == 0 {
      ThinnedSame(os);
    } else if !OwnAt(os[i - 1], agent, side, price) {
      ThinnedCancel(os, i - 1, agent, side, price, v);
    } else if v < os[i - 1].volume {
      ThinnedResize(os, i - 1, os[i - 1].volume - v);
    } else {
      ThinnedRemove(os, i - 1);
      SoundRemove(os, i - 1);
      ThinnedCancel(Remove(os, i - 1), i - 1, agent, side, price, v - os[i - 1].volume);
      ThinnedTwice(os, Remove(os, i - 1), CancelNewest(os, i, agent, side, price, v));
    }
  }

  /** An accepted limit order keeps best bid below best ask. */
  lemma LimitKeeps(b: Book, o: Order, clock: Option<int>)
    requires BookInv(b) && o.Limit? && o.agent in b.agents && !Crosses(b.orders, o.side, o.price)
    ensures BookInv(b.(orders := b.orders + [Resting(b.updates, o.agent, o.side, o.price, o.volume)], updates := b.updates + 1, clock := clock))
  {
    var os := b.orders + [Resting(b.updates, o.agent, o.side, o.price, o.volume)];
    forall i | 0 <= i < |b.orders| && b.orders[i].side == Opposite(o.side)
      ensures if o.side == Bid then o.price < b.orders[i].price else b.orders[i].price < o.price
    {
      assert HasSide(b.orders, Opposite(o.side));
    }
  }

  /** Every accepted order, of any of the five kinds, keeps the book sound and uncrossed. */
  lemma ProcessKeeps(b: Book, o: Order, time: int)
    requires BookInv(b) && Process(b, o, time).Ok?
    ensures BookInv(Process(b, o, time).value)
  {
    var b' := Process(b, o, time).value;
    match o
    case Limit(_, _, _, _, _) => LimitKeeps(b, o, Some(time));
    case Market(_, side, volume) =>
      ThinnedTake(b.orders, side, volume);
      ThinnedKeeps(b, b'.orders, b'.updates, b'.clock);
    case Cancel(_, id) =>
      ThinnedRemove(b.orders, Position(b.orders, id));
      ThinnedKeeps(b, b'.orders, b'.updates, b'.clock);
    case Modify(_, id, volume) =>
      ThinnedResize(b.orders, Position(b.orders, id), volume);
      ThinnedKeeps(b, b'.orders, b'.updates, b'.clock);
    case CancelVolume(agent, side, price, volume) =>
      ThinnedCancel(b.orders, |b.orders|, agent, side, price, volume);
      ThinnedKeeps(b, b'.orders, b'.updates, b'.clock);
  }

  lemma ThinnedTake(os: seq<Resting>, side: Side, v: nat)
    requires Sound(os)
    ensures Thinned(os, Take(os, side, v))
  {
    TakeSound(os, side, v);
    forall x | x in Take(os, side, v)
      ensures Descends(x, os)
    {
      TakeDescends(os, side, v, x);
    }
  }

  // ---------- cancellation by price and volume ----------

  /** It cancels the requested volume, or all the agent has at that price, and nothing of anyone else. */
  lemma {:induction false} CancelConserves(os: seq<Resting>, i: nat, agent: Agent, side: Side, price: int, v: nat, m: Slice)
    requires Sound(os) && i <= |os|
    requires m == Level(side, price) || m == OwnLevel(agent, side, price) || m == Own(agent) || m == Whole(side)
    ensures Volume(m, CancelNewest(os, i, agent, side, price, v))
         == Volume(m, os) - Lesser(v, Volume(OwnLevel(agent, side, price), os[..i]))
    decreases i
  {
    hide Sound, Volume;
    if i == 0 || v == 0 {
      VolumeZero(OwnLevel(agent, side, price), os[..0]);
    } else {
      VolumeStep(OwnLevel(agent, side, price), os, i);
      if !OwnAt(os[i - 1], agent, side, price) {
        CancelConserves(os, i - 1, agent, side, price, v, m);
      } else if v < os[i - 1].volume {
        VolumeResize(m, os, i - 1, os[i - 1].volume - v);
      } else {
        SoundRemove(os, i - 1);
        assert Remove(os, i - 1)[..i - 1] == os[..i - 1];
        VolumeRemove(m, os, i - 1);
        CancelConserves(Remove(os, i - 1), i - 1, agent, side, price, v - os[i - 1].volume, m);
      }
    }
  }

  /** It changes no volume that counts none of the agent's orders at the price. */
  lemma {:induction false} CancelOutside(os: seq<Resting>, i: nat, agent: Agent, side: Side, price: int, v: nat, m: Slice)
    requires i <= |os| && forall o :: OwnAt(o, agent, side, price) ==> !Inside(m, o)
    ensures Volume(m, CancelNewest(os, i, agent, side, price, v)) == Volume(m, os)
    decreases i
  {
    hide Volume, Remove, Resize;
    if i > 0 && v > 0 {
      if !OwnAt(os[i - 1], agent, side, price) {
        CancelOutside(os, i - 1, agent, side, price, v, m);
      } else if v < os[i - 1].volume {
        VolumeResize(m, os, i - 1, os[i - 1].volume - v);
      } else {
        VolumeRemove(m, os, i - 1);
        CancelOutside(Remove(os, i - 1), i - 1, agent, side, price, v - os[i - 1].volume, m);
      }
    }
  }

  lemma DifferentIds(os: seq<Resting>, i: nat, x: Resting)
    requires Sound(os) && i < |os| && x in os && x != os[i]
    ensures x.id != os[i].id
  {
    var j :| 0 <= j < |os| && os[j] == x;
  }

  /** Orders of other agents, sides or prices are not touched. */
  lemma {:induction false} CancelSpares(os: seq<Resting>, i: nat, agent: Agent, side: Side, price: int, v: nat, x: Resting)
    requires Sound(os) && i <= |os| && x in os && !OwnAt(x, agent, side, price)
    ensures x in CancelNewest(os, i, agent, side, price, v)
    decreases i
  {
    hide Sound, Remove, Resize;
    if i > 0 && v > 0 {
      if !OwnAt(os[i - 1], agent, side, price) {
        CancelSpares(os, i - 1, agent, side, price, v, x);
      } else {
        DifferentIds(os, i - 1, x);
        if v < os[i - 1].volume {
          ResizeMember(os, i - 1, os[i - 1].volume - v, x);
        } else {
          SoundRemove(os, i - 1);
          RemoveMember(os, i - 1, x);
          CancelSpares(Remove(os, i - 1), i - 1, agent, side, price, v - os[i - 1].volume, x);
        }
      }
    }
  }

  // ---------- queue positions ----------

  /** An order still resting in os' rested in os, at the same price, with at least as much volume ahead of it. */
  ghost predicate Advances(os: seq<Resting>, os': seq<Resting>, id: nat) {
    var i, i' := Position(os, id), Position(os', id);
    i' < |os'| ==>
      && i < |os| && LeftOf(os'[i'], os[i])
      && Ahead(os', i') <= Ahead(os, i)
  }

  lemma PositionIs(os: seq<Resting>, i: nat)
    requires Sound(os) && i < |os|
    ensures Position(os, os[i].id) == i
  {
    assert HasId(os, os[i].id);
  }

  lemma AdvancesRemove(os: seq<Resting>, j: nat, id: nat)
    requires Sound(os) && j < |os|
    ensures Advances(os, Remove(os, j), id)
  {
    SoundRemove(os, j);
    var r := Remove(os, j);
    var i' := Position(r, id);
    if i' < |r| {
      RemoveFrom(os, j, i');
      var i := if i' < j then i' else i' + 1;
      PositionIs(os, i);
      if i' < j {
        assert r[..i'] == os[..i];
      } else {
        assert r[..i'] == Remove(os[..i], j);
        VolumeRemove(Level(os[i].side, os[i].price), os[..i], j);
      }
    }
  }

  lemma AdvancesResize(os: seq<Resting>, j: nat, volume: nat, id: nat)
    requires Sound(os) && j < |os| && 0 < volume <= os[j].volume
    ensures Advances(os, Resize(os, j, volume), id)
  {
    SoundResize(os, j, volume);
    var r := Resize(os, j, volume);
    var i := Position(r, id);
    if i < |r| {
      PositionIs(os, i);
      if i <= j {
        assert r[..i] == os[..i];
      } else {
        assert r[..i] == Resize(os[..i], j, volume);
        VolumeResize(Level(os[i].side, os[i].price), os[..i], j, volume);
      }
    }
  }

  lemma AdvancesTwice(os: seq<Resting>, os': seq<Resting>, os'': seq<Resting>, id: nat)
    requires Advances(os, os', id) && Advances(os', os'', id)
    ensures Advances(os, os'', id)
  {
  }

  lemma {:induction false} AdvancesTake(os: seq<Resting>, side: Side, v: nat, id: nat)
    requires Sound(os)
    ensures Advances(os, Take(os, side, v), id)
    decreases |os|
  {
    hide Sound, Volume, Remove, Resize, Position;
    if v == 0 || !HasSide(os, side) {
    } else {
      var b := Best(os, side);
      if v < os[b].volume {
        AdvancesResize(os, b, os[b].volume - v, id);
      } else {
        AdvancesRemove(os, b, id);
        SoundRemove(os, b);
        AdvancesTake(Remove(os, b), side, v - os[b].volume, id);
        AdvancesTwice(os, Remove(os, b), Take(os, side, v), id);
      }
    }
  }

  lemma {:induction false} AdvancesCancel(os: seq<Resting>, i: nat, agent: Agent, side: Side, price: int, v: nat, id: nat)
    requires Sound(os) && i <= |os|
    ensures Advances(os, CancelNewest(os, i, agent, side, price, v), id)
    decreases i
  {
    hide Sound, Remove, Resize;
    if i == 0 || v == 0 {
    } else if !OwnAt(os[i - 1], agent, side, price) {
      AdvancesCancel(os, i - 1, agent, side, price, v, id);
    } else if v < os[i - 1].volume {
      AdvancesResize(os, i - 1, os[i - 1].volume - v, id);
    } else {
      AdvancesRemove(os, i - 1, id);
      SoundRemove(os, i - 1);
      AdvancesCancel(Remove(os, i - 1), i - 1, agent, side, price, v - os[i - 1].volume, id);
      AdvancesTwice(os, Remove(os, i - 1), CancelNewest(os, i, agent, side, price, v), id);
    }
  }

  lemma AdvancesAppend(os: seq<Resting>, x: Resting, id: nat)
    requires Sound(os + [x]) && HasId(os, id)
    ensures Advances(os, os + [x], id)
  {
    var i := Position(os, id);
    PositionIs(os + [x], i);
    assert (os + [x])[..i] == os[..i];
  }

  /** While an order rests, no accepted order of any kind lengthens the queue ahead of it. */
  lemma QueueNeverWorsens(b: Book, o: Order, time: int, id: nat)
    requires BookInv(b) && Process(b, o, time).Ok? && HasId(b.orders, id)
    ensures Advances(b.orders, Process(b, o, time).value.orders, id)
  {
    hide Advances, Sound, Uncrossed, HasId, Take, CancelNewest, CancelCount, Volume, Remove, Resize, Position, Crosses;
    var os := b.orders;
    match o
    case Limit(agent, side, price, volume, _) =>
      ProcessKeeps(b, o, time);
      AdvancesAppend(os, Resting(b.updates, agent, side, price, volume), id);
    case Market(_, side, volume) => AdvancesTake(os, side, volume, id);
    case Cancel(_, other) => AdvancesRemove(os, Position(os, other), id);
    case Modify(_, other, volume) => AdvancesResize(os, Position(os, other), volume, id);
    case CancelVolume(agent, side, price, volume) => AdvancesCancel(os, |os|, agent, side, price, volume, id);
  }

  /** A market order fills an order only once nothing is ahead of it: neither at its price nor at a better one. */
  lemma FilledOnlyAtFront(os: seq<Resting>, side: Side, v: nat, x: Resting)
    requires Sound(os) && x in os && x.side == side && x !in Take(os, side, v)
    ensures forall y :: y in Take(os, side, v) && y.side == side ==> !Prior(y, x)
  {
    forall y | y in Take(os, side, v) && y.side == side
      ensures !Prior(y, x)
    {
      TakeDescends(os, side, v, y);
      var i :| 0 <= i < |os| && LeftOf(y, os[i]);
      assert os[i] in os;
      var t := Take(os, side, v);
      var j :| 0 <= j < |t| && t[j] == y;
      assert t[j].id == os[i].id;
      if Prior(y, x) {
        TakeRespectsPriority(os, side, v, os[i], x);
      }
    }
  }

  // ---------- runs ----------

  datatype Timed = Timed(order: Order, time: int)

  /** The book after a list of orders; a refused order leaves it as it was. */
  function Run(b: Book, list: seq<Timed>): Book
    decreases |list|
  {
    if list == [] then b
    else
      var r := Process(b, list[0].order, list[0].time);
      Run(if r.Ok? then r.value else b, list[1..])
  }

  /** A list of orders none of which is refused. */
  predicate Accepted(b: Book, list: seq<Timed>)
    decreases |list|
  {
    list == [] || (var r := Process(b, list[0].order, list[0].time); r.Ok? && Accepted(r.value, list[1..]))
  }

  datatype Halt = Halt(book: Book, error: Option<Error>)

  /** A list is processed up to the first refusal. */
  function Halted(b: Book, list: seq<Timed>): Halt
    decreases |list|
  {
    if list == [] then Halt(b, None)
    else
      match Process(b, list[0].order, list[0].time)
      case Failed(e) => Halt(b, Some(e))
      case Ok(b') => Halted(b', list[1..])
  }

  /** The orders before the first refusal leave the book as they would have alone. */
  lemma {:induction false} HaltsAfter(b: Book, xs: seq<Timed>, ys: seq<Timed>)
    requires Accepted(b, xs)
    ensures Halted(b, xs + ys) == Halted(Run(b, xs), ys)
    decreases |xs|
  {
    hide Process;
    if xs == [] {
      assert xs + ys == ys;
    } else {
      assert (xs + ys)[1..] == xs[1..] + ys;
      HaltsAfter(Process(b, xs[0].order, xs[0].time).value, xs[1..], ys);
    }
  }

  /** The messages of an accepted list. */
  function Replies(b: Book, list: seq<Timed>): seq<Message>
    requires Accepted(b, list)
    decreases |list|
  {
    if list == [] then []
    else [Reply(b.orders, b.updates, list[0].order)] + Replies(Process(b, list[0].order, list[0].time).value, list[1..])
  }

  lemma {:induction false} RunKeeps(b: Book, list: seq<Timed>)
    requires BookInv(b)
    ensures BookInv(Run(b, list))
    decreases |list|
  {
    if list == [] {
    } else {
      var r := Process(b, list[0].order, list[0].time);
      if r.Ok? {
        ProcessKeeps(b, list[0].order, list[0].time);
      }
      RunKeeps(if r.Ok? then r.value else b, list[1..]);
    }
  }

  /** Over any further run a resting order keeps its price, loses volume at most, and never falls back in its queue. */
  lemma {:induction false} RunQueueNeverWorsens(b: Book, list: seq<Timed>, id: nat)
    requires BookInv(b) && HasId(b.orders, id)
    ensures Advances(b.orders, Run(b, list).orders, id)
    decreases |list|
  {
    if list == [] {
    } else {
      var r := Process(b, list[0].order, list[0].time);
      if r.Ok? {
        ProcessKeeps(b, list[0].order, list[0].time);
        QueueNeverWorsens(b, list[0].order, list[0].time, id);
        if HasId(r.value.orders, id) {
          RunQueueNeverWorsens(r.value, list[1..], id);
        } else {
          assert id < b.updates by {
            var i := Position(b.orders, id);
          }
          NeverReturns(r.value, list[1..], id);
        }
        AdvancesTwice(b.orders, r.value.orders, Run(b, list).orders, id);
      } else {
        RunQueueNeverWorsens(b, list[1..], id);
      }
    }
  }

  /** Ids are never reused. */
  lemma {:induction false} NeverReturns(b: Book, list: seq<Timed>, id: nat)
    requires BookInv(b) && !HasId(b.orders, id) && id < b.updates
    ensures !HasId(Run(b, list).orders, id)
    decreases |list|
  {
    if list == [] {
    } else {
      var o, time := list[0].order, list[0].time;
      var r := Process(b, o, time);
      if r.Ok? {
        ProcessKeeps(b, o, time);
        NoNewId(b, o, time, id);
        NeverReturns(r.value, list[1..], id);
      } else {
        NeverReturns(b, list[1..], id);
      }
    }
  }

  lemma NoNewId(b: Book, o: Order, time: int, id: nat)
    requires BookInv(b) && !HasId(b.orders, id) && id < b.updates && Process(b, o, time).Ok?
    ensures !HasId(Process(b, o, time).value.orders, id)
  {
    var os, os' := b.orders, Process(b, o, time).value.orders;
    if !o.Limit? {
      match o {
        case Market(_, side, volume) => AdvancesTake(os, side, volume, id);
        case Cancel(_, other) => AdvancesRemove(os, Position(os, other), id);
        case Modify(_, other, volume) => AdvancesResize(os, Position(os, other), volume, id);
        case CancelVolume(agent, side, price, volume) => AdvancesCancel(os, |os|, agent, side, price, volume, id);
      }
      assert Advances(os, os', id);
    } else {
      forall i | 0 <= i < |os'|
        ensures os'[i].id != id
      {
        assert i < |os| ==> os'[i] == os[i];
      }
    }
  }
}
