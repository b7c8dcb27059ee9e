/**
 * What the limit order book of rlte/limit_order_book/limit_order_book.py means: one list of resting orders in
 * order of arrival. Module BookObject holds the book as it is stored, in four overlapping indexes.
 */
module OrderBook {

  type Agent = string
  datatype Side = Bid | Ask
  type Lots = n: nat | 0 < n witness 1

  datatype Resting = Resting(id: nat, agent: Agent, side: Side, price: int, volume: nat)

  /** Whether price p is served before price q. */
  predicate Better(side: Side, p: int, q: int) {
    if side == Bid then p > q else p < q
  }

  /** Price-time priority. */
  predicate Prior(x: Resting, y: Resting) {
    Better(x.side, x.price, y.price) || (x.price == y.price && x.id < y.id)
  }

  /** Orders arrive with increasing ids and positive volumes. */
  predicate Sound(os: seq<Resting>) {
    && (forall i, j :: 0 <= i < j < |os| ==> os[i].id < os[j].id)
    && (forall i :: 0 <= i < |os| ==> os[i].volume > 0)
  }

  predicate Uncrossed(os: seq<Resting>) {
    forall i, j :: 0 <= i < |os| && 0 <= j < |os| && os[i].side == Bid && os[j].side == Ask ==> os[i].price < os[j].price
  }

  predicate HasId(os: seq<Resting>, id: nat) {
    exists i :: 0 <= i < |os| && os[i].id == id
  }

  function Position(os: seq<Resting>, id: nat): (i: nat)
    ensures i <= |os| && (i < |os| ==> os[i].id == id)
    ensures i == |os| ==> !HasId(os, id)
  {
    if os == [] then 0
    else if os[|os| - 1].id == id then |os| - 1
    else
      var rest := os[..|os| - 1];
      var i := Position(rest, id);
      assert !HasId(rest, id) ==> forall j :: 0 <= j < |os| - 1 ==> rest[j].id == os[j].id != id;
      if i == |os| - 1 then |os| else i
  }

  function Remove(os: seq<Resting>, i: nat): (r: seq<Resting>)
    requires i < |os|
    ensures |r| == |os| - 1
  {
    os[..i] + os[i + 1..]
  }

  function Resize(os: seq<Resting>, i: nat, volume: nat): seq<Resting>
    requires i < |os|
  {
    os[i := os[i].(volume := volume)]
  }

  // ---------- volumes ----------

  /** The parts of the book whose volume matters. */
  datatype Slice =
    | Whole(side: Side)
    | Level(side: Side, price: int)
    | OwnLevel(agent: Agent, side: Side, price: int)
    | Own(agent: Agent)
    | Before(order: Resting)

  predicate Inside(m: Slice, o: Resting) {
    match m
    case Whole(side) => o.side == side
    case Level(side, price) => o.side == side && o.price == price
    case OwnLevel(agent, side, price) => o.agent == agent && o.side == side && o.price == price
    case Own(agent) => o.agent == agent
    case Before(x) => o.side == x.side && Prior(o, x)
  }

  function Volume(m: Slice, os: seq<Resting>): nat {
    if os == [] then 0
    else
      var o := os[|os| - 1];
      Volume(m, os[..|os| - 1]) + if Inside(m, o) then o.volume else 0
  }

  /** Ids resting at a price, oldest first: what price_map holds. */
  function IdsAt(os: seq<Resting>, side: Side, price: int): seq<nat> {
    if os == [] then []
    else
      var o := os[|os| - 1];
      IdsAt(os[..|os| - 1], side, price) + if o.side == side && o.price == price then [o.id] else []
  }

  /** find_queue_position: the volume resting at the same price before the order. */
  function Ahead(os: seq<Resting>, i: nat): nat
    requires i < |os|
  {
    Volume(Level(os[i].side, os[i].price), os[..i])
  }

  lemma VolumeAppend(m: Slice, os: seq<Resting>, o: Resting)
    ensures Volume(m, os + [o]) == Volume(m, os) + if Inside(m, o) then o.volume else 0
  {
    assert (os + [o])[..|os|] == os;
  }

  lemma VolumeStep(m: Slice, os: seq<Resting>, i: nat)
    requires 0 < i <= |os|
    ensures Volume(m, os[..i]) == Volume(m, os[..i - 1]) + if Inside(m, os[i - 1]) then os[i - 1].volume else 0
    ensures Volume(m, os[..0]) == 0
  {
    assert os[..i][..i - 1] == os[..i - 1];
  }

  lemma {:induction false} VolumeRemove(m: Slice, os: seq<Resting>, i: nat)
    requires i < |os|
    ensures Volume(m, Remove(os, i)) == Volume(m, os) - if Inside(m, os[i]) then os[i].volume else 0
  {
    var n := |os| - 1;
    if i == n {
      assert Remove(os, i) == os[..n];
    } else {
      VolumeRemove(m, os[..n], i);
      assert Remove(os, i) == Remove(os[..n], i) + [os[n]];
      VolumeAppend(m, Remove(os[..n], i), os[n]);
    }
  }

  lemma {:induction false} VolumeResize(m: Slice, os: seq<Resting>, i: nat, volume: nat)
    requires i < |os|
    ensures Volume(m, Resize(os, i, volume)) == Volume(m, os) + if Inside(m, os[i]) then volume - os[i].volume else 0
  {
    var n := |os| - 1;
    if i == n {
      assert Resize(os, i, volume)[..n] == os[..n];
    } else {
      VolumeResize(m, os[..n], i, volume);
      assert Resize(os, i, volume)[..n] == Resize(os[..n], i, volume);
    }
  }

  lemma {:induction false} VolumeMember(m: Slice, os: seq<Resting>, i: nat)
    requires i < |os| && Inside(m, os[i])
    ensures os[i].volume <= Volume(m, os)
  {
    if i < |os| - 1 {
      VolumeMember(m, os[..|os| - 1], i);
    }
  }

  lemma {:induction false} VolumeAtMost(m: Slice, m': Slice, os: seq<Resting>)
    requires forall i :: 0 <= i < |os| && Inside(m, os[i]) ==> Inside(m', os[i])
    ensures Volume(m, os) <= Volume(m', os)
  {
    if os == [] {
    } else {
      VolumeAtMost(m, m', os[..|os| - 1]);
    }
  }

  lemma {:induction false} VolumeZero(m: Slice, os: seq<Resting>)
    requires forall i :: 0 <= i < |os| ==> !Inside(m, os[i])
    ensures Volume(m, os) == 0
  {
    if os == [] {
    } else {
      VolumeZero(m, os[..|os| - 1]);
    }
  }

  lemma {:induction false} VolumePositive(m: Slice, os: seq<Resting>)
    requires Volume(m, os) > 0
    ensures exists i :: 0 <= i < |os| && Inside(m, os[i])
  {
    if !Inside(m, os[|os| - 1]) {
      VolumePositive(m, os[..|os| - 1]);
      var i :| 0 <= i < |os| - 1 && Inside(m, os[..|os| - 1][i]);
      assert Inside(m, os[i]);
    }
  }

  // ---------- the best order ----------

  predicate HasSide(os: seq<Resting>, side: Side) {
    exists i :: 0 <= i < |os| && os[i].side == side
  }

  /** The order served next: best price, oldest first. */
  function Best(os: seq<Resting>, side: Side): (b: nat)
    requires HasSide(os, side)
    ensures b < |os| && os[b].side == side
    ensures forall j :: 0 <= j < |os| && os[j].side == side ==>
              !Better(side, os[j].price, os[b].price) && (os[j].price == os[b].price ==> b <= j)
  {
    var n := |os| - 1;
    var rest := os[..n];
    if os[n].side != side then
      assert HasSide(rest, side) by {
        var i :| 0 <= i < |os| && os[i].side == side;
        assert rest[i].side == side;
      }
      Best(rest, side)
    else if !HasSide(rest, side) then
      assert forall j :: 0 <= j < n && os[j].side == side ==> rest[j].side == side;
      n
    else if Better(side, os[n].price, rest[Best(rest, side)].price) then
      assert forall j :: 0 <= j < n && os[j].side == side ==> rest[j].side == side;
      n
    else
      assert forall j :: 0 <= j < n && os[j].side == side ==> rest[j].side == side;
      Best(rest, side)
  }

  // ---------- market orders ----------

  /** A market order of v lots on a side: serve the best order, and go on with what is left. */
  function Take(os: seq<Resting>, side: Side, v: nat): seq<Resting>
    decreases |os|
  {
    if v == 0 || !HasSide(os, side) then os
    else
      var b := Best(os, side);
      if v < os[b].volume then Resize(os, b, os[b].volume - v)
      else Take(Remove(os, b), side, v - os[b].volume)
  }

  datatype Fill = Fill(order: Resting, quantity: nat)

  function Fills(os: seq<Resting>, side: Side, v: nat): seq<Fill>
    decreases |os|
  {
    if v == 0 || !HasSide(os, side) then []
    else
      var b := Best(os, side);
      if v < os[b].volume then [Fill(os[b], v)]
      else [Fill(os[b], os[b].volume)] + Fills(Remove(os, b), side, v - os[b].volume)
  }

  function Filled(fs: seq<Fill>): nat {
    if fs == [] then 0 else fs[0].quantity + Filled(fs[1..])
  }

  function Cash(fs: seq<Fill>): int {
    if fs == [] then 0 else fs[0].order.price * fs[0].quantity + Cash(fs[1..])
  }

  function Lesser(a: nat, b: nat): nat {
    if a < b then a else b
  }

  /** Removing an order keeps the others, in order. */
  lemma RemoveAt(os: seq<Resting>, i: nat, j: nat)
    requires i < |os| && j < |os| && j != i
    ensures Remove(os, i)[if j < i then j else j - 1] == os[j]
  {
  }

  lemma RemoveFrom(os: seq<Resting>, i: nat, j: nat)
    requires i < |os| && j < |os| - 1
    ensures Remove(os, i)[j] == os[if j < i then j else j + 1]
  {
  }

  lemma SoundRemove(os: seq<Resting>, i: nat)
    requires i < |os| && Sound(os)
    ensures Sound(Remove(os, i))
  {
    var r := Remove(os, i);
    forall j, k | 0 <= j < k < |r|
      ensures r[j].id < r[k].id
    {
      RemoveFrom(os, i, j);
      RemoveFrom(os, i, k);
    }
    forall j | 0 <= j < |r|
      ensures r[j].volume > 0
    {
      RemoveFrom(os, i, j);
    }
  }

  lemma SoundResize(os: seq<Resting>, i: nat, volume: nat)
    requires i < |os| && Sound(os) && volume > 0
    ensures Sound(Resize(os, i, volume))
  {
  }

  /** Members of the book after removing order i: all the others. */
  lemma RemoveMember(os: seq<Resting>, i: nat, x: Resting)
    requires i < |os| && Sound(os)
    ensures x in Remove(os, i) <==> x in os && x.id != os[i].id
  {
    var r := Remove(os, i);
    if x in r {
      var j :| 0 <= j < |r| && r[j] == x;
      RemoveFrom(os, i, j);
    }
    if x in os && x.id != os[i].id {
      var j :| 0 <= j < |os| && os[j] == x;
      RemoveAt(os, i, j);
    }
  }

  lemma ResizeMember(os: seq<Resting>, i: nat, volume: nat, x: Resting)
    requires i < |os| && Sound(os)
    ensures x in Resize(os, i, volume) <==> (x in os && x.id != os[i].id) || x == os[i].(volume := volume)
  {
    var r := Resize(os, i, volume);
    if x in r {
      var j :| 0 <= j < |r| && r[j] == x;
    }
    if x in os && x.id != os[i].id {
      var j :| 0 <= j < |os| && os[j] == x;
      assert r[j] == x;
    }
    assert r[i] == os[i].(volume := volume);
  }

  lemma {:induction false} TakeSound(os: seq<Resting>, side: Side, v: nat)
    requires Sound(os)
    ensures Sound(Take(os, side, v))
    decreases |os|
  {
    if v > 0 && HasSide(os, side) {
      var b := Best(os, side);
      if v < os[b].volume {
        SoundResize(os, b, os[b].volume - v);
      } else {
        SoundRemove(os, b);
        TakeSound(Remove(os, b), side, v - os[b].volume);
      }
    }
  }

  /** x is what is left of some order of os. */
  predicate LeftOf(x: Resting, o: Resting) {
    x == o.(volume := x.volume) && x.volume <= o.volume
  }

  ghost predicate Descends(x: Resting, os: seq<Resting>) {
    exists i :: 0 <= i < |os| && LeftOf(x, os[i])
  }

  lemma {:induction false} TakeDescends(os: seq<Resting>, side: Side, v: nat, x: Resting)
    requires Sound(os) && x in Take(os, side, v)
    ensures Descends(x, os)
    decreases |os|
  {
    if v > 0 && HasSide(os, side) {
      var b := Best(os, side);
      if v < os[b].volume {
        ResizeMember(os, b, os[b].volume - v, x);
        if x != os[b].(volume := os[b].volume - v) {
          var i :| 0 <= i < |os| && os[i] == x;
          assert LeftOf(x, os[i]);
        } else {
          assert LeftOf(x, os[b]);
        }
      } else {
        SoundRemove(os, b);
        var r := Remove(os, b);
        TakeDescends(r, side, v - os[b].volume, x);
        var i :| 0 <= i < |r| && LeftOf(x, r[i]);
        RemoveFrom(os, b, i);
        assert LeftOf(x, os[if i < b then i else i + 1]);
      }
    } else {
      var i :| 0 <= i < |os| && os[i] == x;
      assert LeftOf(x, os[i]);
    }
  }

  /** A market order moves nothing on the other side. */
  lemma {:induction false} TakeOtherSide(os: seq<Resting>, side: Side, v: nat, x: Resting)
    requires Sound(os) && x in os && x.side != side
    ensures x in Take(os, side, v)
    decreases |os|
  {
    if v > 0 && HasSide(os, side) {
      var b := Best(os, side);
      assert x.id != os[b].id by {
        var i :| 0 <= i < |os| && os[i] == x;
        assert i != b;
      }
      if v < os[b].volume {
        ResizeMember(os, b, os[b].volume - v, x);
      } else {
        SoundRemove(os, b);
        RemoveMember(os, b, x);
        TakeOtherSide(Remove(os, b), side, v - os[b].volume, x);
      }
    }
  }

  /** A market order changes no volume counted on the other side only. */
  lemma {:induction false} TakeOutside(os: seq<Resting>, side: Side, v: nat, m: Slice)
    requires Sound(os) && forall o: Resting :: o.side == side ==> !Inside(m, o)
    ensures Volume(m, Take(os, side, v)) == Volume(m, os)
    decreases |os|
  {
    hide Volume, Sound, Remove, Resize;
    if v > 0 && HasSide(os, side) {
      var b := Best(os, side);
      if v < os[b].volume {
        VolumeResize(m, os, b, os[b].volume - v);
      } else {
        VolumeRemove(m, os, b);
        SoundRemove(os, b);
        TakeOutside(Remove(os, b), side, v - os[b].volume, m);
      }
    }
  }

  /** What is filled is the requested volume or all there is, and the side shrinks by exactly that. */
  lemma {:induction false} TakeConserves(os: seq<Resting>, side: Side, v: nat)
    requires Sound(os)
    ensures Filled(Fills(os, side, v)) == Lesser(v, Volume(Whole(side), os))
    ensures Volume(Whole(side), Take(os, side, v)) == Volume(Whole(side), os) - Filled(Fills(os, side, v))
    decreases |os|
  {
    hide Volume;
    if v > 0 && HasSide(os, side) {
      var b := Best(os, side);
      VolumeMember(Whole(side), os, b);
      if v < os[b].volume {
        VolumeResize(Whole(side), os, b, os[b].volume - v);
        FilledOne(Fill(os[b], v));
      } else {
        SoundRemove(os, b);
        VolumeRemove(Whole(side), os, b);
        TakeConserves(Remove(os, b), side, v - os[b].volume);
        FilledMore(Fill(os[b], os[b].volume), Fills(Remove(os, b), side, v - os[b].volume));
      }
    } else {
      NothingFilled();
      if v > 0 {
        VolumeZero(Whole(side), os);
      }
    }
  }

  lemma NothingFilled()
    ensures Filled([]) == 0 && Cash([]) == 0
  {
  }

  lemma FilledOne(f: Fill)
    ensures Filled([f]) == f.quantity
  {
  }

  lemma FilledMore(f: Fill, fs: seq<Fill>)
    ensures Filled([f] + fs) == f.quantity + Filled(fs)
  {
    assert ([f] + fs)[1..] == fs;
  }

  /** A fill list in strict price-time priority, all but the last entry filled entirely. */
  predicate InPriority(fs: seq<Fill>) {
    && (forall i, j :: 0 <= i < j < |fs| ==> Prior(fs[i].order, fs[j].order))
    && (forall i :: 0 <= i < |fs| - 1 ==> fs[i].quantity == fs[i].order.volume)
  }

  /** Every filled order rested on the side. */
  lemma {:induction false} FillsRested(os: seq<Resting>, side: Side, v: nat, i: nat)
    requires Sound(os) && i < |Fills(os, side, v)|
    ensures var f := Fills(os, side, v)[i]; f.order in os && f.order.side == side && 0 < f.quantity <= f.order.volume
    decreases |os|
  {
    var b := Best(os, side);
    if v >= os[b].volume && i > 0 {
      SoundRemove(os, b);
      FillsRested(Remove(os, b), side, v - os[b].volume, i - 1);
      RemoveMember(os, b, Fills(os, side, v)[i].order);
    }
  }

  lemma {:induction false} FillsInPriority(os: seq<Resting>, side: Side, v: nat)
    requires Sound(os)
    ensures InPriority(Fills(os, side, v))
    decreases |os|
  {
    hide Sound, Remove, Position, Volume;
    if v > 0 && HasSide(os, side) {
      var b := Best(os, side);
      if v >= os[b].volume {
        SoundRemove(os, b);
        var rest := Fills(Remove(os, b), side, v - os[b].volume);
        FillsInPriority(Remove(os, b), side, v - os[b].volume);
        forall j | 0 <= j < |rest|
          ensures Prior(os[b], rest[j].order)
        {
          FillsRested(Remove(os, b), side, v - os[b].volume, j);
          RemoveMember(os, b, rest[j].order);
          BestIsPrior(os, side, rest[j].order);
        }
      }
    }
  }

  lemma BestIsPrior(os: seq<Resting>, side: Side, x: Resting)
    requires Sound(os) && x in os && x.side == side && HasSide(os, side) && x.id != os[Best(os, side)].id
    ensures Prior(os[Best(os, side)], x)
  {
    var i :| 0 <= i < |os| && os[i] == x;
  }

  /** No order is touched while one with priority over it remains. */
  lemma {:induction false} TakeRespectsPriority(os: seq<Resting>, side: Side, v: nat, x: Resting, y: Resting)
    requires Sound(os) && x in os && y in os && x.side == y.side == side && Prior(x, y)
    requires HasId(Take(os, side, v), x.id)
    ensures y in Take(os, side, v)
    decreases |os|
  {
    hide Sound, Remove, Resize, Prior, HasId;
    if v == 0 || !HasSide(os, side) {
    } else {
      var b := Best(os, side);
      SecondIsNotBest(os, side, x, y);
      if v < os[b].volume {
        ResizeMember(os, b, os[b].volume - v, y);
      } else {
        SoundRemove(os, b);
        RemoveMember(os, b, y);
        RemoveMember(os, b, x);
        if x.id == os[b].id {
          Gone(os, b, side, v - os[b].volume);
        }
        TakeRespectsPriority(Remove(os, b), side, v - os[b].volume, x, y);
      }
    }
  }

  lemma SecondIsNotBest(os: seq<Resting>, side: Side, x: Resting, y: Resting)
    requires Sound(os) && x in os && y in os && x.side == y.side == side && Prior(x, y) && HasSide(os, side)
    ensures y.id != os[Best(os, side)].id
  {
    var i, j :| 0 <= i < |os| && os[i] == x && 0 <= j < |os| && os[j] == y;
  }

  /** An order taken off the book does not come back. */
  lemma Gone(os: seq<Resting>, b: nat, side: Side, v: nat)
    requires Sound(os) && b < |os|
    ensures !HasId(Take(Remove(os, b), side, v), os[b].id)
  {
    var r := Remove(os, b);
    var t := Take(r, side, v);
    SoundRemove(os, b);
    forall m | 0 <= m < |t|
      ensures t[m].id != os[b].id
    {
      TakeDescends(r, side, v, t[m]);
      var i :| 0 <= i < |r| && LeftOf(t[m], r[i]);
      RemoveFrom(os, b, i);
    }
  }

  /** An order not among the fills stays as it was. */
  lemma {:induction false} UnfilledStay(os: seq<Resting>, side: Side, v: nat, x: Resting)
    requires Sound(os) && x in os
    requires forall f :: f in Fills(os, side, v) ==> f.order.id != x.id
    ensures x in Take(os, side, v)
    decreases |os|
  {
    if v > 0 && HasSide(os, side) {
      var b := Best(os, side);
      assert Fills(os, side, v)[0].order == os[b];
      if v < os[b].volume {
        ResizeMember(os, b, os[b].volume - v, x);
      } else {
        SoundRemove(os, b);
        RemoveMember(os, b, x);
        UnfilledStay(Remove(os, b), side, v - os[b].volume, x);
      }
    }
  }

  /** A filled order loses exactly its fill: the partially filled one stays with the rest, the others are gone. */
  lemma {:induction false} FilledLeave(os: seq<Resting>, side: Side, v: nat, i: nat)
    requires Sound(os) && i < |Fills(os, side, v)|
    ensures var f, t := Fills(os, side, v)[i], Take(os, side, v);
            if f.quantity < f.order.volume then f.order.(volume := f.order.volume - f.quantity) in t
            else !HasId(t, f.order.id)
    decreases |os|
  {
    hide HasId, Sound, Remove, Resize;
    var b := Best(os, side);
    if v < os[b].volume {
      ResizeMember(os, b, os[b].volume - v, os[b].(volume := os[b].volume - v));
    } else {
      SoundRemove(os, b);
      if i == 0 {
        Gone(os, b, side, v - os[b].volume);
      } else {
        FilledLeave(Remove(os, b), side, v - os[b].volume, i - 1);
      }
    }
  }
}
