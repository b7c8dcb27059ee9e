/** How the stored book goes through the ids of a level: cancelling newest first, and summing up a queue. */
module BookPlans {
  import opened OrderBook
  import opened BookSteps
  import opened BookIndexes

  // ---------- cancellation by price and volume ----------

  /** The cancellations, and the last modification, that take v lots of an agent off the listed ids, last id first. */
  function Plan(om: map<nat, Resting>, ids: seq<nat>, agent: Agent, v: nat): seq<Order>
    requires forall i :: 0 <= i < |ids| ==> ids[i] in om
  {
    if ids == [] || v == 0 then []
    else
      var n := |ids| - 1;
      var o := om[ids[n]];
      if o.agent != agent then Plan(om, ids[..n], agent, v)
      else if v < o.volume then [Modify(agent, ids[n], o.volume - v)]
      else [Cancel(agent, ids[n])] + Plan(om, ids[..n], agent, v - o.volume)
  }

  /** Every part of the plan is the agent's own. */
  lemma {:induction false} PlanOwn(om: map<nat, Resting>, ids: seq<nat>, agent: Agent, v: nat)
    requires forall i :: 0 <= i < |ids| ==> ids[i] in om
    ensures forall k :: 0 <= k < |Plan(om, ids, agent, v)| ==> Plan(om, ids, agent, v)[k].agent == agent
  {
    if ids != [] && v != 0 {
      var o := om[ids[|ids| - 1]];
      PlanOwn(om, ids[..|ids| - 1], agent, if o.agent != agent then v else if v < o.volume then 0 else v - o.volume);
    }
  }

  /** How much of v is left over. */
  function PlanRest(om: map<nat, Resting>, ids: seq<nat>, agent: Agent, v: nat): nat
    requires forall i :: 0 <= i < |ids| ==> ids[i] in om
  {
    if ids == [] || v == 0 then v
    else
      var n := |ids| - 1;
      var o := om[ids[n]];
      if o.agent != agent then PlanRest(om, ids[..n], agent, v)
      else if v < o.volume then 0
      else PlanRest(om, ids[..n], agent, v - o.volume)
  }

  /** The orders after a list of cancellations and modifications, all of them accepted. */
  ghost predicate Leads(os: seq<Resting>, plan: seq<Order>, os': seq<Resting>)
    decreases |plan|
  {
    if plan == [] then os == os'
    else
      && (plan[0].Cancel? || plan[0].Modify?)
      && Apply(os, 0, plan[0]).Ok?
      && Leads(Apply(os, 0, plan[0]).value, plan[1..], os')
  }

  /** The id map knows the first i orders. */
  ghost predicate Knows(om: map<nat, Resting>, os: seq<Resting>, i: nat)
    requires i <= |os|
  {
    forall k :: 0 <= k < i ==> os[k].id in om && om[os[k].id] == os[k]
  }

  lemma IdsKnown(om: map<nat, Resting>, os: seq<Resting>, i: nat, side: Side, price: int)
    requires i <= |os| && Knows(om, os, i)
    ensures forall k :: 0 <= k < |IdsAt(os[..i], side, price)| ==> IdsAt(os[..i], side, price)[k] in om
  {
    var ids := IdsAt(os[..i], side, price);
    forall k | 0 <= k < |ids|
      ensures ids[k] in om
    {
      IdsMember(os[..i], side, price, ids[k]);
    }
  }

  lemma IdsStep(os: seq<Resting>, i: nat, side: Side, price: int)
    requires 0 < i <= |os|
    ensures IdsAt(os[..i], side, price)
         == IdsAt(os[..i - 1], side, price) + if os[i - 1].side == side && os[i - 1].price == price then [os[i - 1].id] else []
  {
    assert os[..i][..i - 1] == os[..i - 1];
  }

  lemma PlanAppend(om: map<nat, Resting>, ids: seq<nat>, o: Resting, agent: Agent, v: nat)
    requires forall i :: 0 <= i < |ids| ==> ids[i] in om
    requires o.id in om && om[o.id] == o && v > 0
    ensures Plan(om, ids + [o.id], agent, v)
         == if o.agent != agent then Plan(om, ids, agent, v)
            else if v < o.volume then [Modify(agent, o.id, o.volume - v)]
            else [Cancel(agent, o.id)] + Plan(om, ids, agent, v - o.volume)
    ensures PlanRest(om, ids + [o.id], agent, v)
         == if o.agent != agent then PlanRest(om, ids, agent, v)
            else if v < o.volume then 0
            else PlanRest(om, ids, agent, v - o.volume)
  {
    assert (ids + [o.id])[..|ids|] == ids;
  }

  /** Carrying out the plan is cancelling newest first, in as many updates as orders are touched. */
  lemma {:induction false} PlanCancels(om: map<nat, Resting>, os: seq<Resting>, i: nat, agent: Agent, side: Side, price: int, v: nat)
    requires Sound(os) && i <= |os| && Knows(om, os, i)
    requires var ids := IdsAt(os[..i], side, price); forall k :: 0 <= k < |ids| ==> ids[k] in om
    ensures var plan := Plan(om, IdsAt(os[..i], side, price), agent, v);
            Leads(os, plan, CancelNewest(os, i, agent, side, price, v)) && |plan| == CancelCount(os, i, agent, side, price, v)
    decreases i
  {
    hide Sound, IdsAt, Remove, Resize, Position, Plan, Knows, Leads;
    if v == 0 || i == 0 {
      NoPlan(om, os, i, agent, side, price, v);
    } else {
      var o := os[i - 1];
      var ids := IdsAt(os[..i - 1], side, price);
      IdsStep(os, i, side, price);
      KnowsLess(om, os, i);
      IdsKnown(om, os, i - 1, side, price);
      if o.side != side || o.price != price {
        assert ids + [] == ids;
        PlanCancels(om, os, i - 1, agent, side, price, v);
      } else {
        PlanAppend(om, ids, o, agent, v);
        PositionIs(os, i - 1);
        if o.agent != agent {
          PlanCancels(om, os, i - 1, agent, side, price, v);
        } else if v < o.volume {
          PlanModifies(os, i - 1, agent, o.volume - v);
        } else {
          var r := Remove(os, i - 1);
          SoundRemove(os, i - 1);
          RemovedPrefix(om, os, i - 1);
          PlanCancels(om, r, i - 1, agent, side, price, v - o.volume);
          PlanStarts(os, i - 1, agent, Plan(om, ids, agent, v - o.volume), CancelNewest(r, i - 1, agent, side, price, v - o.volume));
        }
      }
    }
  }

  lemma KnowsLess(om: map<nat, Resting>, os: seq<Resting>, i: nat)
    requires 0 < i <= |os| && Knows(om, os, i)
    ensures Knows(om, os, i - 1) && os[i - 1].id in om && om[os[i - 1].id] == os[i - 1]
  {
  }

  lemma NoPlan(om: map<nat, Resting>, os: seq<Resting>, i: nat, agent: Agent, side: Side, price: int, v: nat)
    requires i <= |os| && (v == 0 || i == 0)
    requires var ids := IdsAt(os[..i], side, price); forall k :: 0 <= k < |ids| ==> ids[k] in om
    ensures Plan(om, IdsAt(os[..i], side, price), agent, v) == [] && Leads(os, [], os)
  {
  }

  lemma PlanModifies(os: seq<Resting>, i: nat, agent: Agent, volume: Lots)
    requires Sound(os) && i < |os| && os[i].agent == agent && volume < os[i].volume && Position(os, os[i].id) == i
    ensures Leads(os, [Modify(agent, os[i].id, volume)], Resize(os, i, volume))
  {
    hide Sound, Resize, Position;
  }

  lemma PlanStarts(os: seq<Resting>, i: nat, agent: Agent, plan: seq<Order>, os': seq<Resting>)
    requires i < |os| && os[i].agent == agent && Position(os, os[i].id) == i && Leads(Remove(os, i), plan, os')
    ensures Leads(os, [Cancel(agent, os[i].id)] + plan, os')
  {
    hide Position, Remove;
    assert ([Cancel(agent, os[i].id)] + plan)[1..] == plan;
  }

  lemma RemovedPrefix(om: map<nat, Resting>, os: seq<Resting>, i: nat)
    requires i < |os| && Knows(om, os, i + 1)
    ensures Remove(os, i)[..i] == os[..i] && Knows(om, Remove(os, i), i)
  {
  }

  /** What the plan takes off is the requested volume or all the agent has at the price. */
  lemma NothingPlanned(om: map<nat, Resting>, os: seq<Resting>, i: nat, agent: Agent, side: Side, price: int, v: nat)
    requires i <= |os| && (i == 0 || v == 0)
    requires var ids := IdsAt(os[..i], side, price); forall k :: 0 <= k < |ids| ==> ids[k] in om
    ensures PlanRest(om, IdsAt(os[..i], side, price), agent, v) == v - Lesser(v, Volume(OwnLevel(agent, side, price), os[..i]))
  {
  }

  lemma {:induction false} PlanFills(om: map<nat, Resting>, os: seq<Resting>, i: nat, agent: Agent, side: Side, price: int, v: nat)
    requires i <= |os| && Knows(om, os, i)
    requires var ids := IdsAt(os[..i], side, price); forall k :: 0 <= k < |ids| ==> ids[k] in om
    ensures PlanRest(om, IdsAt(os[..i], side, price), agent, v) == v - Lesser(v, Volume(OwnLevel(agent, side, price), os[..i]))
    decreases i
  {
    hide Knows, IdsAt, Plan, PlanRest, Volume;
    if i == 0 || v == 0 {
      NothingPlanned(om, os, i, agent, side, price, v);
    } else {
      var o := os[i - 1];
      var ids := IdsAt(os[..i - 1], side, price);
      KnowsLess(om, os, i);
      IdsStep(os, i, side, price);
      IdsKnown(om, os, i - 1, side, price);
      VolumeStep(OwnLevel(agent, side, price), os, i);
      if o.side != side || o.price != price {
        assert ids + [] == ids;
        PlanFills(om, os, i - 1, agent, side, price, v);
      } else {
        PlanAppend(om, ids, o, agent, v);
        if o.agent != agent {
          PlanFills(om, os, i - 1, agent, side, price, v);
        } else if v >= o.volume {
          PlanFills(om, os, i - 1, agent, side, price, v - o.volume);
        }
      }
    }
  }

  // ---------- queue positions ----------

  function Total(om: map<nat, Resting>, ids: seq<nat>): nat
    requires forall i :: 0 <= i < |ids| ==> ids[i] in om
  {
    if ids == [] then 0 else Total(om, ids[..|ids| - 1]) + om[ids[|ids| - 1]].volume
  }

  lemma TotalAppend(om: map<nat, Resting>, ids: seq<nat>, id: nat)
    requires (forall i :: 0 <= i < |ids| ==> ids[i] in om) && id in om
    ensures Total(om, ids + [id]) == Total(om, ids) + om[id].volume
  {
    assert (ids + [id])[..|ids|] == ids;
  }

  lemma NoTotal(om: map<nat, Resting>, os: seq<Resting>, side: Side, price: int)
    ensures IdsAt(os[..0], side, price) == [] && Total(om, []) == 0 && Volume(Level(side, price), os[..0]) == 0
  {
  }

  lemma {:induction false} TotalIsVolume(om: map<nat, Resting>, os: seq<Resting>, i: nat, side: Side, price: int)
    requires i <= |os| && Knows(om, os, i)
    requires var ids := IdsAt(os[..i], side, price); forall k :: 0 <= k < |ids| ==> ids[k] in om
    ensures Total(om, IdsAt(os[..i], side, price)) == Volume(Level(side, price), os[..i])
    decreases i
  {
    hide IdsAt, Total, Volume;
    if i == 0 {
      NoTotal(om, os, side, price);
    } else {
      var o := os[i - 1];
      var ids := IdsAt(os[..i - 1], side, price);
      IdsStep(os, i, side, price);
      IdsKnown(om, os, i - 1, side, price);
      VolumeStep(Level(side, price), os, i);
      TotalIsVolume(om, os, i - 1, side, price);
      if o.side == side && o.price == price {
        TotalAppend(om, ids, o.id);
      } else {
        assert ids + [] == ids;
      }
    }
  }

  /** The agent's own part of the listed volume. */
  function OwnTotal(om: map<nat, Resting>, ids: seq<nat>, agent: Agent): nat
    requires forall i :: 0 <= i < |ids| ==> ids[i] in om
  {
    if ids == [] then 0
    else
      var o := om[ids[|ids| - 1]];
      OwnTotal(om, ids[..|ids| - 1], agent) + if o.agent == agent then o.volume else 0
  }

  lemma OwnTotalAppend(om: map<nat, Resting>, ids: seq<nat>, id: nat, agent: Agent)
    requires (forall i :: 0 <= i < |ids| ==> ids[i] in om) && id in om
    ensures OwnTotal(om, ids + [id], agent) == OwnTotal(om, ids, agent) + if om[id].agent == agent then om[id].volume else 0
  {
    assert (ids + [id])[..|ids|] == ids;
  }

  lemma NoOwnTotal(om: map<nat, Resting>, os: seq<Resting>, side: Side, price: int, agent: Agent)
    ensures IdsAt(os[..0], side, price) == [] && OwnTotal(om, [], agent) == 0 && Volume(OwnLevel(agent, side, price), os[..0]) == 0
  {
  }

  lemma {:induction false} OwnTotalIsVolume(om: map<nat, Resting>, os: seq<Resting>, i: nat, side: Side, price: int, agent: Agent)
    requires i <= |os| && Knows(om, os, i)
    requires var ids := IdsAt(os[..i], side, price); forall k :: 0 <= k < |ids| ==> ids[k] in om
    ensures OwnTotal(om, IdsAt(os[..i], side, price), agent) == Volume(OwnLevel(agent, side, price), os[..i])
    decreases i
  {
    hide IdsAt, OwnTotal, Volume;
    if i == 0 {
      NoOwnTotal(om, os, side, price, agent);
    } else {
      var o := os[i - 1];
      var ids := IdsAt(os[..i - 1], side, price);
      IdsStep(os, i, side, price);
      IdsKnown(om, os, i - 1, side, price);
      VolumeStep(OwnLevel(agent, side, price), os, i);
      OwnTotalIsVolume(om, os, i - 1, side, price, agent);
      if o.side == side && o.price == price {
        OwnTotalAppend(om, ids, o.id, agent);
      } else {
        assert ids + [] == ids;
      }
    }
  }

  /** The ids before an order in its level are those of the older orders there. */
  lemma {:induction false} IdsPrefix(os: seq<Resting>, i: nat, side: Side, price: int)
    requires i < |os| && os[i].side == side && os[i].price == price
    ensures var before, ids := IdsAt(os[..i], side, price), IdsAt(os, side, price);
            |before| < |ids| && ids[..|before|] == before && ids[|before|] == os[i].id
    decreases |os|
  {
    var n := |os| - 1;
    if i < n {
      assert os[..n][..i] == os[..i];
      IdsPrefix(os[..n], i, side, price);
      var before, ids := IdsAt(os[..i], side, price), IdsAt(os[..n], side, price);
      assert IdsAt(os, side, price)[..|ids|] == ids;
      assert IdsAt(os, side, price)[..|before|] == ids[..|before|];
    }
  }
}
