/** The redundant indexes of the stored book, and what each change of one order does to them. */
module BookIndexes {
  import opened OrderBook
  import opened BookSteps

  // ---------- price_map ----------

  /** Every level of a side is listed, oldest id first; a level may linger with no ids. */
  ghost predicate Lists(pm: map<int, seq<nat>>, os: seq<Resting>, side: Side) {
    && (forall p :: p in pm ==> pm[p] == IdsAt(os, side, p))
    && (forall p :: IdsAt(os, side, p) != [] ==> p in pm)
  }

  predicate NoEmptyLevel(pm: map<int, seq<nat>>) {
    forall p :: p in pm ==> pm[p] != []
  }

  lemma IdsAppend(os: seq<Resting>, side: Side, p: int, o: Resting)
    ensures IdsAt(os + [o], side, p) == IdsAt(os, side, p) + if o.side == side && o.price == p then [o.id] else []
  {
    assert (os + [o])[..|os|] == os;
  }

  lemma {:induction false} IdsMember(os: seq<Resting>, side: Side, p: int, id: nat)
    ensures id in IdsAt(os, side, p) <==> exists i :: 0 <= i < |os| && os[i].id == id && os[i].side == side && os[i].price == p
  {
    if os == [] {
    } else {
      var n := |os| - 1;
      IdsMember(os[..n], side, p, id);
      if exists i :: 0 <= i < |os| && os[i].id == id && os[i].side == side && os[i].price == p {
        var i :| 0 <= i < |os| && os[i].id == id && os[i].side == side && os[i].price == p;
        assert i < n ==> os[..n][i] == os[i];
      }
    }
  }

  lemma {:induction false} IdsResize(os: seq<Resting>, side: Side, p: int, i: nat, volume: nat)
    requires i < |os|
    ensures IdsAt(Resize(os, i, volume), side, p) == IdsAt(os, side, p)
  {
    var n := |os| - 1;
    if i == n {
      assert Resize(os, i, volume)[..n] == os[..n];
    } else {
      assert Resize(os, i, volume)[..n] == Resize(os[..n], i, volume);
      IdsResize(os[..n], side, p, i, volume);
    }
  }

  function Without(ids: seq<nat>, id: nat): seq<nat> {
    if ids == [] then []
    else Without(ids[..|ids| - 1], id) + if ids[|ids| - 1] == id then [] else [ids[|ids| - 1]]
  }

  lemma {:induction false} WithoutAbsent(ids: seq<nat>, id: nat)
    requires id !in ids
    ensures Without(ids, id) == ids
  {
    if ids == [] {
    } else {
      WithoutAbsent(ids[..|ids| - 1], id);
    }
  }

  lemma WithoutAppend(ids: seq<nat>, x: nat, id: nat)
    ensures Without(ids + [x], id) == Without(ids, id) + if x == id then [] else [x]
  {
    assert (ids + [x])[..|ids|] == ids;
  }

  lemma IdsRemoveLast(os: seq<Resting>, side: Side, p: int)
    requires os != [] && Sound(os)
    ensures var n := |os| - 1; IdsAt(os[..n], side, p) == Without(IdsAt(os, side, p), os[n].id)
  {
    var n := |os| - 1;
    var ids := IdsAt(os[..n], side, p);
    IdsMember(os[..n], side, p, os[n].id);
    assert os[n].id !in ids;
    WithoutAbsent(ids, os[n].id);
    WithoutAppend(ids, os[n].id, os[n].id);
    assert ids + [] == ids;
  }

  lemma WithoutExtend(ids: seq<nat>, more: seq<nat>, id: nat)
    requires more == [] || (|more| == 1 && more[0] != id)
    ensures Without(ids + more, id) == Without(ids, id) + more
  {
    if more == [] {
      assert ids + more == ids;
    } else {
      assert more == [more[0]];
      WithoutAppend(ids, more[0], id);
    }
  }

  lemma {:induction false} IdsRemove(os: seq<Resting>, side: Side, p: int, i: nat)
    requires i < |os| && Sound(os)
    ensures IdsAt(Remove(os, i), side, p) == Without(IdsAt(os, side, p), os[i].id)
  {
    hide IdsAt, Without;
    var n := |os| - 1;
    if i == n {
      assert Remove(os, i) == os[..n];
      IdsRemoveLast(os, side, p);
    } else {
      var o, rest, ids := os[n], Remove(os[..n], i), IdsAt(os[..n], side, p);
      IdsRemove(os[..n], side, p, i);
      assert Remove(os, i) == rest + [o] && os == os[..n] + [o];
      IdsAppend(rest, side, p, o);
      IdsAppend(os[..n], side, p, o);
      WithoutExtend(ids, if o.side == side && o.price == p then [o.id] else [], os[i].id);
    }
  }

  lemma {:induction false} WithoutHead(ids: seq<nat>, id: nat)
    requires ids != [] && ids[0] == id && forall i :: 1 <= i < |ids| ==> ids[i] != id
    ensures Without(ids, id) == ids[1..]
  {
    var n := |ids| - 1;
    if n == 0 {
    } else {
      WithoutHead(ids[..n], id);
      assert ids[1..] == ids[..n][1..] + [ids[n]];
    }
  }

  /** The listed ids increase. */
  lemma {:induction false} IdsIncrease(os: seq<Resting>, side: Side, p: int)
    requires Sound(os)
    ensures forall i, j :: 0 <= i < j < |IdsAt(os, side, p)| ==> IdsAt(os, side, p)[i] < IdsAt(os, side, p)[j]
    ensures forall i :: 0 <= i < |IdsAt(os, side, p)| ==> os != [] && IdsAt(os, side, p)[i] <= os[|os| - 1].id
  {
    if os != [] {
      var n := |os| - 1;
      IdsIncrease(os[..n], side, p);
      var rest, before := os[..n], IdsAt(os[..n], side, p);
      forall i | 0 <= i < |before|
        ensures before[i] < os[n].id
      {
        assert rest != [] && before[i] <= rest[|rest| - 1].id;
        assert rest[|rest| - 1] == os[n - 1];
      }
      var o := os[n];
      assert IdsAt(os, side, p) == before + if o.side == side && o.price == p then [o.id] else [];
    } else {
      assert IdsAt(os, side, p) == [];
    }
  }

  /** Empty lists and empty levels are the same thing. */
  lemma IdsVolume(os: seq<Resting>, side: Side, p: int)
    requires Sound(os)
    ensures IdsAt(os, side, p) != [] <==> Volume(Level(side, p), os) > 0
  {
    if IdsAt(os, side, p) != [] {
      IdsMember(os, side, p, IdsAt(os, side, p)[0]);
      var i :| 0 <= i < |os| && os[i].id == IdsAt(os, side, p)[0] && os[i].side == side && os[i].price == p;
      VolumeMember(Level(side, p), os, i);
    }
    if Volume(Level(side, p), os) > 0 {
      VolumePositive(Level(side, p), os);
      var i :| 0 <= i < |os| && Inside(Level(side, p), os[i]);
      IdsMember(os, side, p, os[i].id);
    }
  }

  // ---------- order_map and order_map_by_agent ----------

  ghost predicate Indexed(om: map<nat, Resting>, os: seq<Resting>) {
    && (forall id :: id in om ==> HasId(os, id))
    && (forall i :: 0 <= i < |os| ==> os[i].id in om && om[os[i].id] == os[i])
  }

  function OwnIds(os: seq<Resting>, agent: Agent): set<nat> {
    set i | 0 <= i < |os| && os[i].agent == agent :: os[i].id
  }

  ghost predicate Owned(ba: map<Agent, set<nat>>, agents: set<Agent>, os: seq<Resting>) {
    ba.Keys == agents && forall a :: a in agents ==> ba[a] == OwnIds(os, a)
  }

  lemma IndexedAt(om: map<nat, Resting>, os: seq<Resting>, id: nat)
    requires Indexed(om, os) && Sound(os) && id in om
    ensures Position(os, id) < |os| && om[id] == os[Position(os, id)]
  {
  }

  lemma IndexedAppend(om: map<nat, Resting>, os: seq<Resting>, o: Resting)
    requires Indexed(om, os) && o.id !in om
    ensures Indexed(om[o.id := o], os + [o])
  {
    var om', os' := om[o.id := o], os + [o];
    forall id | id in om'
      ensures HasId(os', id)
    {
      if id == o.id {
        assert os'[|os|].id == id;
      } else {
        var i :| 0 <= i < |os| && os[i].id == id;
        assert os'[i].id == id;
      }
    }
  }

  lemma IndexedRemove(om: map<nat, Resting>, os: seq<Resting>, i: nat)
    requires Indexed(om, os) && Sound(os) && i < |os|
    ensures Indexed(om - {os[i].id}, Remove(os, i))
  {
    var r := Remove(os, i);
    forall id | id in om && id != os[i].id
      ensures HasId(r, id)
    {
      var j :| 0 <= j < |os| && os[j].id == id;
      RemoveAt(os, i, j);
      assert r[if j < i then j else j - 1].id == id;
    }
    forall j | 0 <= j < |r|
      ensures r[j].id in om && r[j].id != os[i].id && om[r[j].id] == r[j]
    {
      RemoveFrom(os, i, j);
    }
  }

  lemma IndexedResize(om: map<nat, Resting>, os: seq<Resting>, i: nat, volume: nat)
    requires Indexed(om, os) && Sound(os) && i < |os|
    ensures Indexed(om[os[i].id := os[i].(volume := volume)], Resize(os, i, volume))
  {
    var r := Resize(os, i, volume);
    forall id | id in om
      ensures HasId(r, id)
    {
      var j :| 0 <= j < |os| && os[j].id == id;
      assert r[j].id == id;
    }
    assert r[i].id == os[i].id;
  }

  lemma OwnedAppend(ba: map<Agent, set<nat>>, agents: set<Agent>, os: seq<Resting>, o: Resting)
    requires Owned(ba, agents, os) && o.agent in agents
    ensures Owned(ba[o.agent := ba[o.agent] + {o.id}], agents, os + [o])
  {
    var os' := os + [o];
    forall a | a in agents
      ensures OwnIds(os', a) == OwnIds(os, a) + if a == o.agent then {o.id} else {}
    {
      forall id | id in OwnIds(os, a) || (a == o.agent && id == o.id)
        ensures id in OwnIds(os', a)
      {
        if id in OwnIds(os, a) {
          var i :| 0 <= i < |os| && os[i].agent == a && os[i].id == id;
          assert os'[i].agent == a && os'[i].id == id;
        } else {
          assert os'[|os|] == o;
        }
      }
    }
  }

  lemma OwnedRemove(ba: map<Agent, set<nat>>, agents: set<Agent>, os: seq<Resting>, i: nat)
    requires Owned(ba, agents, os) && Sound(os) && i < |os| && os[i].agent in agents
    ensures Owned(ba[os[i].agent := ba[os[i].agent] - {os[i].id}], agents, Remove(os, i))
  {
    var r, o := Remove(os, i), os[i];
    forall a | a in agents
      ensures OwnIds(r, a) == OwnIds(os, a) - if a == o.agent then {o.id} else {}
    {
      forall id | id in OwnIds(os, a) && id != o.id
        ensures id in OwnIds(r, a)
      {
        var j :| 0 <= j < |os| && os[j].agent == a && os[j].id == id;
        RemoveAt(os, i, j);
        assert r[if j < i then j else j - 1] == os[j];
      }
      forall id | id in OwnIds(r, a)
        ensures id in OwnIds(os, a) && id != o.id
      {
        var j :| 0 <= j < |r| && r[j].agent == a && r[j].id == id;
        RemoveFrom(os, i, j);
      }
      assert a != o.agent ==> o.id !in OwnIds(os, a);
    }
  }

  lemma OwnedResize(ba: map<Agent, set<nat>>, agents: set<Agent>, os: seq<Resting>, i: nat, volume: nat)
    requires Owned(ba, agents, os) && i < |os|
    ensures Owned(ba, agents, Resize(os, i, volume))
  {
    var r := Resize(os, i, volume);
    forall a | a in agents
      ensures OwnIds(r, a) == OwnIds(os, a)
    {
      forall id | id in OwnIds(os, a)
        ensures id in OwnIds(r, a)
      {
        var j :| 0 <= j < |os| && os[j].agent == a && os[j].id == id;
        assert r[j].agent == a && r[j].id == id;
      }
    }
  }

  /** The ids listed at the prices of a side partition its orders; this is where one of them is found. */
  lemma ListedIs(os: seq<Resting>, side: Side, p: int, id: nat)
    requires Sound(os) && id in IdsAt(os, side, p)
    ensures var i := Position(os, id); i < |os| && os[i].side == side && os[i].price == p
  {
    IdsMember(os, side, p, id);
    var i :| 0 <= i < |os| && os[i].id == id && os[i].side == side && os[i].price == p;
    PositionIs(os, i);
  }

  /** The oldest id of the best level is the best order. */
  lemma FirstIsBest(os: seq<Resting>, side: Side, p: int)
    requires Sound(os) && IdsAt(os, side, p) != []
    requires forall i :: 0 <= i < |os| && os[i].side == side ==> !Better(side, os[i].price, p)
    ensures HasSide(os, side) && os[Best(os, side)].id == IdsAt(os, side, p)[0] && os[Best(os, side)].price == p
  {
    var ids := IdsAt(os, side, p);
    ListedIs(os, side, p, ids[0]);
    var i, b := Position(os, ids[0]), Best(os, side);
    assert HasSide(os, side);
    IdsMember(os, side, p, os[b].id);
    IdsIncrease(os, side, p);
    var j :| 0 <= j < |ids| && ids[j] == os[b].id;
  }

  /** Market orders never add volume to a level. */
  lemma {:induction false} TakeShrinks(os: seq<Resting>, side: Side, v: nat, m: Slice)
    requires Sound(os)
    ensures Volume(m, Take(os, side, v)) <= Volume(m, os)
    decreases |os|
  {
    if v > 0 && HasSide(os, side) {
      var b := Best(os, side);
      if v < os[b].volume {
        VolumeResize(m, os, b, os[b].volume - v);
      } else {
        VolumeRemove(m, os, b);
        SoundRemove(os, b);
        TakeShrinks(Remove(os, b), side, v - os[b].volume, m);
      }
    }
  }

  lemma ListsRemove(pm: map<int, seq<nat>>, os: seq<Resting>, side: Side, i: nat)
    requires Lists(pm, os, side) && Sound(os) && i < |os|
    ensures var o := os[i];
            if o.side == side then o.price in pm && Lists(pm[o.price := Without(pm[o.price], o.id)], Remove(os, i), side)
            else Lists(pm, Remove(os, i), side)
  {
    hide Without, Sound, Remove, IdsAt;
    var o, r := os[i], Remove(os, i);
    IdsMember(os, o.side, o.price, o.id);
    forall p
      ensures IdsAt(r, side, p) == if o.side == side && o.price == p then Without(IdsAt(os, side, p), o.id) else IdsAt(os, side, p)
    {
      IdsRemove(os, side, p, i);
      if o.side != side || o.price != p {
        if o.id in IdsAt(os, side, p) {
          ListedIs(os, side, p, o.id);
          PositionIs(os, i);
        }
        WithoutAbsent(IdsAt(os, side, p), o.id);
      }
    }
  }

  lemma ListsResize(pm: map<int, seq<nat>>, os: seq<Resting>, side: Side, i: nat, volume: nat)
    requires Lists(pm, os, side) && i < |os|
    ensures Lists(pm, Resize(os, i, volume), side)
  {
    forall p
      ensures IdsAt(Resize(os, i, volume), side, p) == IdsAt(os, side, p)
    {
      IdsResize(os, side, p, i, volume);
    }
  }

  lemma ListsAppend(pm: map<int, seq<nat>>, os: seq<Resting>, side: Side, o: Resting)
    requires Lists(pm, os, side)
    ensures Lists(if o.side == side then pm[o.price := (if o.price in pm then pm[o.price] else []) + [o.id]] else pm, os + [o], side)
  {
    forall p
      ensures IdsAt(os + [o], side, p) == IdsAt(os, side, p) + if o.side == side && o.price == p then [o.id] else []
    {
      IdsAppend(os, side, p, o);
    }
  }
}
