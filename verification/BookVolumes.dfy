/** The volume-only book, and how it simulates the book of orders. */
module BookVolumes {
  import opened Wrappers
  import opened OrderBook
  import opened BookSteps

  type Levels = map<int, nat>

  // ---------- sorted price keys ----------

  predicate IsFirst(ks: set<int>, side: Side, p: int) {
    p in ks && forall q :: q in ks ==> !Better(side, q, p)
  }

  lemma SomeKey(ks: set<int>) returns (x: int)
    requires ks != {}
    ensures x in ks
  {
    assert (forall x :: x !in ks) ==> ks == {};
    x :| x in ks;
  }

  lemma {:induction false} BestKeyExists(ks: set<int>, side: Side) returns (p: int)
    requires ks != {}
    ensures IsFirst(ks, side, p)
    decreases |ks|
  {
    var x := SomeKey(ks);
    if ks == {x} {
      p := x;
    } else {
      p := BestKeyExists(ks - {x}, side);
      if Better(side, x, p) {
        BetterFirst(ks, side, x, p);
        p := x;
      } else {
        assert forall q :: q in ks ==> q == x || q in ks - {x};
      }
    }
  }

  lemma BetterFirst(ks: set<int>, side: Side, x: int, p: int)
    requires x in ks && IsFirst(ks - {x}, side, p) && Better(side, x, p)
    ensures IsFirst(ks, side, x)
  {
    forall q | q in ks
      ensures !Better(side, q, x)
    {
      assert q == x || q in ks - {x};
    }
  }

  lemma FirstExists(ks: set<int>, side: Side)
    requires ks != {}
    ensures exists p :: IsFirst(ks, side, p)
  {
    var p := BestKeyExists(ks, side);
  }

  /** The first key of a SortedDict: the highest bid or the lowest ask. */
  function BestKey(ks: set<int>, side: Side): (p: int)
    requires ks != {}
    ensures p in ks && forall q :: q in ks ==> q == p || Better(side, p, q)
  {
    FirstExists(ks, side);
    var p :| IsFirst(ks, side, p);
    p
  }

  /** The keys of a SortedDict, best price first. */
  function SortedKeys(ks: set<int>, side: Side): (r: seq<int>)
    ensures forall p :: p in r <==> p in ks
    decreases |ks|
  {
    if ks == {} then [] else [BestKey(ks, side)] + SortedKeys(ks - {BestKey(ks, side)}, side)
  }

  // ---------- the volume-only steps ----------

  /** A market order served level by level. */
  function Drain(m: Levels, side: Side, v: nat): Levels
    decreases |m|
  {
    if v == 0 || m == map[] then m
    else
      var p := BestKey(m.Keys, side);
      if v < m[p] then m[p := m[p] - v] else Drain(m - {p}, side, v - m[p])
  }

  function AddLots(m: Levels, p: int, v: nat): Levels {
    m[p := v + if p in m then m[p] else 0]
  }

  function SubtractLots(m: Levels, p: int, v: nat): Levels
    requires p in m
  {
    if v < m[p] then m[p := m[p] - v] else m - {p}
  }

  predicate LevelCrosses(opposite: Levels, side: Side, price: int) {
    opposite != map[] && !Better(Opposite(side), price, BestKey(opposite.Keys, Opposite(side)))
  }

  datatype VolumeBook = VolumeBook(agents: set<Agent>, bids: Levels, asks: Levels, clock: Option<int>) {
    function Side(side: Side): Levels {
      if side == Bid then bids else asks
    }

    function WithSide(side: Side, m: Levels): VolumeBook {
      if side == Bid then this.(bids := m) else this.(asks := m)
    }
  }

  function VolumeApply(b: VolumeBook, o: Order): Result<VolumeBook> {
    match o
    case Limit(_, side, price, volume, _) =>
      if LevelCrosses(b.Side(Opposite(side)), side, price) then Failed(CrossesBook)
      else Ok(b.WithSide(side, AddLots(b.Side(side), price, volume)))
    case Market(_, side, volume) =>
      if b.Side(side) == map[] then Failed(EmptySide) else Ok(b.WithSide(side, Drain(b.Side(side), side, volume)))
    case CancelVolume(_, side, price, volume) =>
      if price !in b.Side(side) then Failed(NoSuchPrice)
      else Ok(b.WithSide(side, SubtractLots(b.Side(side), price, volume)))
    case _ => Failed(OnlyVolumes)
  }

  /** The volume-only book looks at no id. */
  lemma IgnoresIds(b: VolumeBook, o: Order)
    ensures VolumeApply(b, o) != Failed(HasOldId)
  {
  }

  function VolumeProcess(b: VolumeBook, o: Order, time: int): Result<VolumeBook> {
    if o.agent !in b.agents then Failed(Unregistered)
    else if Late(b.clock, time) then Failed(PastTime)
    else
      match VolumeApply(b, o)
      case Failed(e) => Failed(e)
      case Ok(b') => Ok(b'.(clock := Some(time)))
  }

  // ---------- tallying a book of orders ----------

  /** m holds exactly the non-empty levels of a side and their volumes. */
  ghost predicate Tallies(m: Levels, os: seq<Resting>, side: Side) {
    && (forall p :: p in m <==> Volume(Level(side, p), os) > 0)
    && (forall p :: p in m ==> m[p] == Volume(Level(side, p), os))
  }

  lemma TallyEmpty(m: Levels, os: seq<Resting>, side: Side)
    requires Tallies(m, os, side) && Sound(os)
    ensures m == map[] <==> !HasSide(os, side)
  {
    if HasSide(os, side) {
      var i :| 0 <= i < |os| && os[i].side == side;
      VolumeMember(Level(side, os[i].price), os, i);
      assert os[i].price in m;
    } else if m != map[] {
      assert (forall p :: p !in m) ==> m == map[];
      var p :| p in m;
      VolumePositive(Level(side, p), os);
    }
  }

  /** The best key of the levels is the price of the best order. */
  lemma TallyBest(m: Levels, os: seq<Resting>, side: Side)
    requires Tallies(m, os, side) && Sound(os) && HasSide(os, side)
    ensures m != map[] && BestKey(m.Keys, side) == os[Best(os, side)].price
    ensures 0 < os[Best(os, side)].volume <= m[BestKey(m.Keys, side)]
  {
    TallyEmpty(m, os, side);
    var b := Best(os, side);
    VolumeMember(Level(side, os[b].price), os, b);
    var p := BestKey(m.Keys, side);
    assert os[b].price in m && p in m;
    VolumePositive(Level(side, p), os);
    var i :| 0 <= i < |os| && Inside(Level(side, p), os[i]);
    assert !Better(side, os[i].price, os[b].price);
  }

  /** A change of one order by delta lots changes its own level by as much. */
  lemma TallyChange(m: Levels, os: seq<Resting>, os': seq<Resting>, side: Side, p: int, v: nat)
    requires Tallies(m, os, side) && p in m && v <= m[p]
    requires forall q :: Volume(Level(side, q), os') == Volume(Level(side, q), os) - if q == p then v else 0
    ensures Tallies(SubtractLots(m, p, v), os', side)
  {
  }

  lemma TallySame(m: Levels, os: seq<Resting>, os': seq<Resting>, side: Side)
    requires Tallies(m, os, side)
    requires forall q :: Volume(Level(side, q), os') == Volume(Level(side, q), os)
    ensures Tallies(m, os', side)
  {
  }

  lemma TallyRemove(m: Levels, os: seq<Resting>, side: Side, i: nat)
    requires Tallies(m, os, side) && Sound(os) && i < |os|
    ensures var o := os[i];
            if o.side == side then o.price in m && Tallies(SubtractLots(m, o.price, o.volume), Remove(os, i), side)
            else Tallies(m, Remove(os, i), side)
  {
    var o := os[i];
    forall q
      ensures Volume(Level(side, q), Remove(os, i)) == Volume(Level(side, q), os) - if q == o.price && o.side == side then o.volume else 0
    {
      VolumeRemove(Level(side, q), os, i);
    }
    if o.side == side {
      VolumeMember(Level(side, o.price), os, i);
      TallyChange(m, os, Remove(os, i), side, o.price, o.volume);
    } else {
      TallySame(m, os, Remove(os, i), side);
    }
  }

  lemma TallyResize(m: Levels, os: seq<Resting>, side: Side, i: nat, volume: nat)
    requires Tallies(m, os, side) && Sound(os) && i < |os| && volume <= os[i].volume
    ensures var o := os[i];
            if o.side == side then o.price in m && Tallies(SubtractLots(m, o.price, o.volume - volume), Resize(os, i, volume), side)
            else Tallies(m, Resize(os, i, volume), side)
  {
    var o := os[i];
    forall q
      ensures Volume(Level(side, q), Resize(os, i, volume))
           == Volume(Level(side, q), os) - if q == o.price && o.side == side then o.volume - volume else 0
    {
      VolumeResize(Level(side, q), os, i, volume);
    }
    if o.side == side {
      VolumeMember(Level(side, o.price), os, i);
      TallyChange(m, os, Resize(os, i, volume), side, o.price, o.volume - volume);
    } else {
      TallySame(m, os, Resize(os, i, volume), side);
    }
  }

  lemma TallyAppend(m: Levels, os: seq<Resting>, side: Side, o: Resting)
    requires Tallies(m, os, side) && o.volume > 0
    ensures Tallies(if o.side == side then AddLots(m, o.price, o.volume) else m, os + [o], side)
  {
    forall q
      ensures Volume(Level(side, q), os + [o]) == Volume(Level(side, q), os) + if q == o.price && o.side == side then o.volume else 0
    {
      VolumeAppend(Level(side, q), os, o);
    }
  }

  // ---------- market orders ----------

  /** Two market orders in a row take what one for both would take. */
  lemma {:induction false} DrainTwice(m: Levels, side: Side, v: nat, w: nat)
    ensures Drain(m, side, v + w) == Drain(Drain(m, side, v), side, w)
    decreases |m|
  {
    if v > 0 && m != map[] {
      var p := BestKey(m.Keys, side);
      if v < m[p] {
        var m' := m[p := m[p] - v];
        assert m'.Keys == m.Keys;
        assert m' - {p} == m - {p};
        if w < m'[p] {
          assert m'[p := m'[p] - w] == m[p := m[p] - (v + w)];
        }
      } else {
        DrainTwice(m - {p}, side, v - m[p], w);
      }
    }
  }

  /** Serving order by order and serving level by level leave the same volumes. */
  lemma {:induction false} TakeDrains(m: Levels, os: seq<Resting>, side: Side, v: nat)
    requires Tallies(m, os, side) && Sound(os)
    ensures Tallies(Drain(m, side, v), Take(os, side, v), side)
    decreases |os|
  {
    hide Drain, Sound, Remove, Resize, Tallies, BestKey;
    TallyEmpty(m, os, side);
    if v > 0 && HasSide(os, side) {
      var b := Best(os, side);
      TallyBest(m, os, side);
      var p := BestKey(m.Keys, side);
      if v < os[b].volume {
        TallyResize(m, os, side, b, os[b].volume - v);
        DrainBest(m, side, v);
      } else {
        var w := v - os[b].volume;
        TallyRemove(m, os, side, b);
        SoundRemove(os, b);
        DrainBest(m, side, os[b].volume);
        DrainTwice(m, side, os[b].volume, w);
        TakeDrains(SubtractLots(m, p, os[b].volume), Remove(os, b), side, w);
      }
    } else {
      DrainNothing(m, side, v);
    }
  }

  lemma DrainNothing(m: Levels, side: Side, v: nat)
    requires v == 0 || m == map[]
    ensures Drain(m, side, v) == m
  {
  }

  lemma DrainBest(m: Levels, side: Side, v: nat)
    requires m != map[] && 0 < v <= m[BestKey(m.Keys, side)]
    ensures Drain(m, side, v) == SubtractLots(m, BestKey(m.Keys, side), v)
  {
  }

  lemma {:induction false} TakeSparesOther(m: Levels, os: seq<Resting>, side: Side, v: nat)
    requires Tallies(m, os, Opposite(side)) && Sound(os)
    ensures Tallies(m, Take(os, side, v), Opposite(side))
    decreases |os|
  {
    if v > 0 && HasSide(os, side) {
      var b := Best(os, side);
      if v < os[b].volume {
        TallyResize(m, os, Opposite(side), b, os[b].volume - v);
      } else {
        TallyRemove(m, os, Opposite(side), b);
        SoundRemove(os, b);
        TakeSparesOther(m, Remove(os, b), side, v - os[b].volume);
      }
    }
  }

  // ---------- cancellation by price and volume ----------

  lemma CancelVolumes(os: seq<Resting>, agent: Agent, side: Side, price: int, v: nat, s: Side, q: int)
    requires Sound(os)
    ensures Volume(Level(s, q), CancelNewest(os, |os|, agent, side, price, v))
         == Volume(Level(s, q), os) - if s == side && q == price then Lesser(v, Volume(OwnLevel(agent, side, price), os)) else 0
  {
    assert os[..|os|] == os;
    if s == side && q == price {
      CancelConserves(os, |os|, agent, side, price, v, Level(side, price));
    } else {
      CancelOutside(os, |os|, agent, side, price, v, Level(s, q));
    }
  }

  /** After a cancellation by volume the level loses what the agent had there, up to the requested volume. */
  lemma CancelTallies(m: Levels, os: seq<Resting>, agent: Agent, side: Side, price: int, v: nat, s: Side)
    requires Tallies(m, os, s) && Sound(os) && Volume(Level(side, price), os) > 0
    ensures var os' := CancelNewest(os, |os|, agent, side, price, v);
            if s == side then price in m && Tallies(SubtractLots(m, price, Lesser(v, Volume(OwnLevel(agent, side, price), os))), os', s)
            else Tallies(m, os', s)
  {
    var os' := CancelNewest(os, |os|, agent, side, price, v);
    forall q
      ensures Volume(Level(s, q), os') == Volume(Level(s, q), os)
                - if s == side && q == price then Lesser(v, Volume(OwnLevel(agent, side, price), os)) else 0
    {
      CancelVolumes(os, agent, side, price, v, s, q);
    }
    if s == side {
      VolumeAtMost(OwnLevel(agent, side, price), Level(side, price), os);
      TallyChange(m, os, os', side, price, Lesser(v, Volume(OwnLevel(agent, side, price), os)));
    } else {
      TallySame(m, os, os', s);
    }
  }

  // ---------- simulation ----------

  /** The volume-only book shows the same levels, agents and time as the book of orders. */
  ghost predicate Shows(vb: VolumeBook, b: Book) {
    && vb.agents == b.agents && vb.clock == b.clock
    && Tallies(vb.bids, b.orders, Bid) && Tallies(vb.asks, b.orders, Ask)
  }

  /** Both books answer an order alike: refused for the same reason, or accepted with the same levels afterwards. */
  ghost predicate Agree(vb: VolumeBook, b: Book, o: Order, time: int) {
    match (VolumeProcess(vb, o, time), Process(b, o, time))
    case (Ok(vb'), Ok(b')) => Shows(vb', b')
    case (Failed(e), Failed(e')) => e == e'
    case _ => false
  }

  lemma CrossesAlike(vb: VolumeBook, b: Book, side: Side, price: int)
    requires Shows(vb, b) && Sound(b.orders)
    ensures LevelCrosses(vb.Side(Opposite(side)), side, price) <==> Crosses(b.orders, side, price)
  {
    TallyEmpty(vb.Side(Opposite(side)), b.orders, Opposite(side));
    if HasSide(b.orders, Opposite(side)) {
      TallyBest(vb.Side(Opposite(side)), b.orders, Opposite(side));
    }
  }

  /**
   * Limit and market orders of any agents keep the two books alike, except for a limit order sent a second time: the
   * volume-only book, which gives no ids, accepts it where the full book refuses it.
   */
  lemma LimitAndMarketAgree(vb: VolumeBook, b: Book, o: Order, time: int)
    requires Shows(vb, b) && BookInv(b) && (o.Limit? || o.Market?)
    ensures Agree(vb, b, o, time) <==> !LeavesTrace(b, o, time)
  {
    match o
    case Limit(agent, side, price, volume, _) =>
      CrossesAlike(vb, b, side, price);
      var x := Resting(b.updates, agent, side, price, volume);
      TallyAppend(vb.bids, b.orders, Bid, x);
      TallyAppend(vb.asks, b.orders, Ask, x);
    case Market(agent, side, volume) =>
      TallyEmpty(vb.Side(side), b.orders, side);
      TakeDrains(vb.Side(side), b.orders, side, volume);
      TakeSparesOther(vb.Side(Opposite(side)), b.orders, side, volume);
  }

  /**
   * A cancellation by price and volume at an existing price keeps them alike if and only if the agent has there as
   * much of the requested volume as everybody together: the volume-only book does not know whose lots it cancels.
   */
  lemma CancelVolumeAgreesIff(vb: VolumeBook, b: Book, o: Order, time: int)
    requires Shows(vb, b) && BookInv(b) && o.CancelVolume? && o.agent in b.agents && !Late(b.clock, time)
    ensures Agree(vb, b, o, time) <==>
              Lesser(o.volume, Volume(Level(o.side, o.price), b.orders)) == Lesser(o.volume, Volume(OwnLevel(o.agent, o.side, o.price), b.orders))
  {
    var total, own := Volume(Level(o.side, o.price), b.orders), Volume(OwnLevel(o.agent, o.side, o.price), b.orders);
    VolumeAtMost(OwnLevel(o.agent, o.side, o.price), Level(o.side, o.price), b.orders);
    var m := vb.Side(o.side);
    if total > 0 {
      CancelTallies(vb.bids, b.orders, o.agent, o.side, o.price, o.volume, Bid);
      CancelTallies(vb.asks, b.orders, o.agent, o.side, o.price, o.volume, Ask);
      assert m[o.price] == total;
      assert SubtractLots(m, o.price, o.volume) == SubtractLots(m, o.price, Lesser(o.volume, total));
      var os' := CancelNewest(b.orders, |b.orders|, o.agent, o.side, o.price, o.volume);
      CancelVolumes(b.orders, o.agent, o.side, o.price, o.volume, o.side, o.price);
      if Agree(vb, b, o, time) {
        assert Tallies(SubtractLots(m, o.price, o.volume), os', o.side);
      }
    }
  }

  /** With one agent all lots at a price are its own, so the two books agree on every cancellation by volume too. */
  lemma SingleAgentAgrees(vb: VolumeBook, b: Book, o: Order, time: int)
    requires Shows(vb, b) && BookInv(b) && o.CancelVolume? && b.agents == {o.agent} && !Late(b.clock, time)
    ensures Agree(vb, b, o, time)
  {
    OnlyOwn(b, o.agent, o.side, o.price);
    CancelVolumeAgreesIff(vb, b, o, time);
  }

  lemma OnlyOwn(b: Book, agent: Agent, side: Side, price: int)
    requires BookInv(b) && b.agents == {agent}
    ensures Volume(Level(side, price), b.orders) == Volume(OwnLevel(agent, side, price), b.orders)
  {
    forall i | 0 <= i < |b.orders|
      ensures b.orders[i].agent == agent
    {
      assert b.orders[i].agent in b.agents;
    }
    VolumeAtMost(OwnLevel(agent, side, price), Level(side, price), b.orders);
    VolumeAtMost(Level(side, price), OwnLevel(agent, side, price), b.orders);
  }

  function VolumeRun(b: VolumeBook, list: seq<Timed>): VolumeBook
    decreases |list|
  {
    if list == [] then b
    else
      var r := VolumeProcess(b, list[0].order, list[0].time);
      VolumeRun(if r.Ok? then r.value else b, list[1..])
  }

  /**
   * For any run of limit orders, market orders and, from a single agent, cancellations by price and volume,
   * the volume-only book shows the levels of the full book after every order.
   */
  lemma {:induction false} RunSimulates(vb: VolumeBook, b: Book, list: seq<Timed>, agent: Agent)
    requires Shows(vb, b) && BookInv(b)
    requires forall i :: 0 <= i < |list| ==>
               var o := list[i].order; (o.Limit? && !Reused(o)) || o.Market? || (o.CancelVolume? && o.agent == agent && b.agents == {agent})
    ensures Shows(VolumeRun(vb, list), Run(b, list))
    decreases |list|
  {
    if list == [] {
    } else {
      var o, time := list[0].order, list[0].time;
      if o.CancelVolume? {
        if !Late(b.clock, time) {
          SingleAgentAgrees(vb, b, o, time);
        }
      } else {
        LimitAndMarketAgree(vb, b, o, time);
      }
      assert Agree(vb, b, o, time);
      var r, vr := Process(b, o, time), VolumeProcess(vb, o, time);
      if r.Ok? {
        ProcessKeeps(b, o, time);
        RunSimulates(vr.value, r.value, list[1..], agent);
      } else {
        RunSimulates(vb, b, list[1..], agent);
      }
    }
  }
}
