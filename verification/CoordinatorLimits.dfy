/**
 * Order reports outside the assumptions: fills of orders already final, more than an order's volume, orders the
 * coordinator does not know. What they do to the limits, to the ledgers and to the targets, exactly.
 */
module CoordinatorLimits {
  import opened Models
  import opened Coordinator
  import opened CoordinatorSums
  import opened CoordinatorSafety
  import opened CoordinatorRuns

  /** The lots a report adds to the fill of its order. */
  function Added(o: Child, r: Report): nat {
    Absorb(o, r).traded - o.traded
  }

  /** What the order takes of its tranche after the report: filled and live. */
  function Taken(o: Child, r: Report): nat {
    Added(o, r) + Absorb(o, r).Leaves()
  }

  // ---------- one report ----------

  /** Both ledgers are clamped at their volumes. */
  predicate Clamped(s: State, s': State, k: Key, delta: nat)
    requires Known(s, k)
  {
    var p, t := s.parents[k.parent], TrancheOf(s, k);
    && Known(s', k)
    && var p' := s'.parents[k.parent];
       && |p'.tranches| == |p.tranches| && p'.total == p.total && p'.traded == (if delta == 0 then p.traded else Min(p.traded + delta, p.total))
       && (forall j :: 0 <= j < |p.tranches| && j != k.index ==> SameLot(p.tranches[j], p'.tranches[j]))
       && p'.tranches[k.index].volume == t.volume
       && p'.tranches[k.index].traded == if delta == 0 then t.traded else Min(t.traded + delta, t.volume)
  }

  predicate SameLot(t: Tranche, t': Tranche) {
    t'.volume == t.volume && t'.traded == t.traded
  }

  lemma BookClamps(s: State, o: Child, delta: nat)
    requires Known(s, o.key)
    requires o.key in s.targets ==> Total(s.targets[o.key].allocation) == TrancheOf(s, o.key).Remaining()
    ensures var b := Book(s, o, delta);
            && Clamped(s, b.state, o.key, delta) && b.state.orders == s.orders && SameTranches(s, b.state)
            && (b.Raised? <==> o.key in s.targets && delta > TrancheOf(s, o.key).Remaining())
            && (b.Raised? ==> b.error == TargetExceeded)
  {
    hide Consume, Total, Priority, Preferred;
    var k := o.key;
    if delta > 0 && k in s.targets {
      var t := s.targets[k];
      var b := Preferred(o, t.bid);
      PreferredIsBucket(o, t.bid);
      ConsumeAccounts(t.allocation, Priority(b), delta);
      if delta <= TrancheOf(s, k).Remaining() {
        ConsumeAll(t.allocation, b, delta);
      }
    }
  }

  lemma PreferredIsBucket(o: Child, bid: int)
    ensures Preferred(o, bid) < BUCKETS
  {
  }

  lemma ClampedAlike(s: State, b: State, s': State, k: Key, delta: nat)
    requires Known(s, k) && Clamped(s, b, k, delta) && SameAmounts(b, s')
    ensures Clamped(s, s', k, delta)
  {
    assert SameLots(b.parents[k.parent].tranches, s'.parents[k.parent].tranches);
  }

  /** A report on order i, whatever it says. */
  lemma DeliverClamps(s: State, i: nat, r: Report)
    requires i < |s.orders| && Known(s, s.orders[i].key)
    requires s.orders[i].key in s.targets ==> Total(s.targets[s.orders[i].key].allocation) == TrancheOf(s, s.orders[i].key).Remaining()
    ensures var o, d := s.orders[i], Deliver(s, i, r);
            && Clamped(s, d.state, o.key, Added(o, r)) && OnlyMarked(s.orders[i := Absorb(o, r)], d.state.orders)
            && (d.Raised? <==> o.key in s.targets && Added(o, r) > TrancheOf(s, o.key).Remaining())
            && (d.Raised? ==> d.error == TargetExceeded)
  {
    hide Book, Clamped, PauseParent, Complete, SameAmounts, Total, OnlyMarked;
    var o, o' := s.orders[i], Absorb(s.orders[i], r);
    var s1 := s.(orders := s.orders[i := o']);
    BookClamps(s1, o', Added(o, r));
    ClampedOrders(s, s1, Fill(s, i, r).state, o.key, Added(o, r));
    var b := Fill(s, i, r).state;
    PauseAmounts(b, o.key.parent);
    CompleteAmounts(b, o.key);
    Unmarked(b.orders);
    if Fill(s, i, r).Done? {
      ClampedAlike(s, b, Deliver(s, i, r).state, o.key, Added(o, r));
    }
  }

  lemma ClampedOrders(s: State, s1: State, b: State, k: Key, delta: nat)
    requires s1.parents == s.parents && Known(s, k) && Clamped(s1, b, k, delta)
    ensures Clamped(s, b, k, delta)
  {
  }

  lemma Unmarked(os: seq<Child>)
    ensures OnlyMarked(os, os)
  {
  }

  /** The sums over the orders after the report. */
  lemma SumAfter(s: State, i: nat, r: Report, m: Measure)
    requires i < |s.orders| && Known(s, s.orders[i].key)
    requires OnlyMarked(s.orders[i := Absorb(s.orders[i], r)], Deliver(s, i, r).state.orders)
    ensures Sum(m, Deliver(s, i, r).state.orders)
            == Sum(m, s.orders) - Weight(m, s.orders[i]) + Weight(m, Absorb(s.orders[i], r))
  {
    hide Deliver, Absorb;
    MarkedSum(m, s.orders[i := Absorb(s.orders[i], r)], Deliver(s, i, r).state.orders);
    SumUpdate(m, s.orders, i, Absorb(s.orders[i], r));
  }

  /** The hard limits notice an excess: something is live, and does not fit beside what was traded. */
  predicate Shows(traded: nat, volume: nat, live: int) {
    live > 0 && traded + live > volume
  }

  /** Live lots other than those of order i, of its tranche and of its parent. */
  function LiveBeside(s: State, i: nat, m: Measure): int
    requires i < |s.orders|
  {
    Sum(m, s.orders) - Weight(m, s.orders[i])
  }

  /** Everything but order i is within the limits. */
  ghost predicate OthersFit(s: State, i: nat)
    requires i < |s.orders| && Known(s, s.orders[i].key)
  {
    var o := s.orders[i];
    var p, t := s.parents[o.key.parent], TrancheOf(s, o.key);
    && o.parent == o.key.parent && t.traded <= t.volume && p.traded <= p.total
    && (o.key in s.targets ==> Total(s.targets[o.key].allocation) == t.Remaining())
    && forall j :: 0 <= j < |p.tranches| && j != o.key.index ==>
      p.tranches[j].traded + Sum(LiveOf(Key(o.key.parent, j)), s.orders) <= p.tranches[j].volume
  }

  /** When the limits fail after a report: tranche and parent each by the lots that no longer fit, unless nothing is live. */
  lemma LimitsAfter(s: State, i: nat, r: Report)
    requires i < |s.orders| && Known(s, s.orders[i].key) && OthersFit(s, i)
    ensures var o, s' := s.orders[i], Deliver(s, i, r).state;
            var p, t, live := s.parents[o.key.parent], TrancheOf(s, o.key), Absorb(s.orders[i], r).Leaves();
            && o.key.parent in s'.parents
            && (WithinLimits(s', o.key.parent)
                <==> !Shows(t.traded + Added(o, r), t.volume, LiveBeside(s, i, LiveOf(o.key)) + live)
                     && !Shows(p.traded + Added(o, r), p.total, LiveBeside(s, i, ParentLive(o.key.parent)) + live))
  {
    hide Sum, Deliver, Absorb, OnlyMarked;
    var o, s' := s.orders[i], Deliver(s, i, r).state;
    var k, o' := o.key, Absorb(s.orders[i], r);
    DeliverClamps(s, i, r);
    AbsorbKeeps(o, r);
    SumAfter(s, i, r, ParentLive(k.parent));
    forall j: nat | j < |s.parents[k.parent].tranches|
      ensures Sum(LiveOf(Key(k.parent, j)), s'.orders)
              == Sum(LiveOf(Key(k.parent, j)), s.orders) - (if j == k.index then o.Leaves() - o'.Leaves() else 0)
    {
      SumAfter(s, i, r, LiveOf(Key(k.parent, j)));
    }
    assert k == Key(k.parent, k.index);
    TrancheLimits(s, i, r, s');
  }

  lemma AbsorbKeeps(o: Child, r: Report)
    ensures Absorb(o, r).key == o.key && Absorb(o, r).parent == o.parent && o.traded <= Absorb(o, r).traded
  {
  }

  lemma TrancheLimits(s: State, i: nat, r: Report, s': State)
    requires i < |s.orders| && Known(s, s.orders[i].key) && OthersFit(s, i)
    requires Clamped(s, s', s.orders[i].key, Added(s.orders[i], r))
    requires var k, live := s.orders[i].key, Absorb(s.orders[i], r).Leaves();
             && Sum(ParentLive(k.parent), s'.orders) == LiveBeside(s, i, ParentLive(k.parent)) + live
             && Sum(LiveOf(k), s'.orders) == LiveBeside(s, i, LiveOf(k)) + live
             && forall j: nat :: j < |s.parents[k.parent].tranches| && j != k.index ==>
               Sum(LiveOf(Key(k.parent, j)), s'.orders) == Sum(LiveOf(Key(k.parent, j)), s.orders)
    ensures var o := s.orders[i];
            var p, t, live := s.parents[o.key.parent], TrancheOf(s, o.key), Absorb(s.orders[i], r).Leaves();
            WithinLimits(s', o.key.parent)
            <==> !Shows(t.traded + Added(o, r), t.volume, LiveBeside(s, i, LiveOf(o.key)) + live)
                 && !Shows(p.traded + Added(o, r), p.total, LiveBeside(s, i, ParentLive(o.key.parent)) + live)
  {
    hide Sum, LiveBeside, Absorb;
    var o := s.orders[i];
    var k, ts, ts' := o.key, s.parents[o.key.parent].tranches, s'.parents[o.key.parent].tranches;
    assert k == Key(k.parent, k.index);
    forall j | 0 <= j < |ts| && j != k.index
      ensures ts'[j].traded + Sum(LiveOf(Key(k.parent, j)), s'.orders) <= ts'[j].volume
    {
      assert SameLot(ts[j], ts'[j]);
    }
  }

  // ---------- reports on known orders ----------

  lemma OthersFitInv(gw: Gateway, s: State, i: nat)
    requires Inv(gw, s) && i < |s.orders|
    ensures Known(s, s.orders[i].key) && OthersFit(s, i) && IsNamed(s, i)
  {
    var o := s.orders[i];
    assert GoodChild(gw, s, o);
    var k := o.key;
    NoOversell(gw, s, k.parent);
    assert TrancheBooked(s, k);
    assert k in s.targets ==> TargetSound(s, k);
  }

  predicate IsNamed(s: State, i: nat)
    requires i < |s.orders|
  {
    s.orders[i].parent == s.orders[i].key.parent
  }

  lemma ProcessDelivers(s: State, r: Report)
    requires IndexOf(s.orders, r.id) < |s.orders| && Known(s, s.orders[IndexOf(s.orders, r.id)].key)
    requires IsNamed(s, IndexOf(s.orders, r.id))
    ensures ProcessOrder(s, r) == Deliver(s, IndexOf(s.orders, r.id), r)
  {
    hide Deliver;
  }

  /** The filled and live lots of the tranche fit its volume after the report. */
  predicate TrancheFits(s: State, k: Key, volume: nat) {
    Sum(FilledOf(k), s.orders) + Sum(LiveOf(k), s.orders) <= volume
  }

  /** Lots of the parent neither filled nor live. */
  function ParentFree(s: State, p: ParentId): int
    requires p in s.parents
  {
    s.parents[p].total - s.parents[p].traded - Sum(ParentLive(p), s.orders)
  }

  /** The other live lots of a tranche or a parent, with those the report leaves to its order. */
  function LiveWith(s: State, r: Report, m: Measure): int
    requires IndexOf(s.orders, r.id) < |s.orders|
  {
    var i := IndexOf(s.orders, r.id);
    LiveBeside(s, i, m) + Absorb(s.orders[i], r).Leaves()
  }

  /**
   * Any report on a known order, true or not. The tranche is oversold if and only if the report takes more than the
   * order's own live lots and the available ones; the hard limits notice it, for tranche and parent, if and only if
   * something else is live or the order stays so. Beyond the remaining lots the current target raises.
   */
  lemma ReportFitsIff(gw: Gateway, s: State, r: Report)
    requires Inv(gw, s) && IndexOf(s.orders, r.id) < |s.orders|
    ensures var o, d := s.orders[IndexOf(s.orders, r.id)], ProcessOrder(s, r);
            && Known(s, o.key) && Known(d.state, o.key)
            && (TrancheFits(d.state, o.key, TrancheOf(s, o.key).volume) <==> Taken(o, r) <= Available(s, o.key) + o.Leaves())
            && (WithinLimits(d.state, o.key.parent)
                <==> (LiveWith(s, r, LiveOf(o.key)) == 0 || Taken(o, r) <= Available(s, o.key) + o.Leaves())
                     && (LiveWith(s, r, ParentLive(o.key.parent)) == 0 || Taken(o, r) <= ParentFree(s, o.key.parent) + o.Leaves()))
            && (d.Raised? <==> o.key in s.targets && Added(o, r) > TrancheOf(s, o.key).Remaining())
            && (d.Raised? ==> d.error == TargetExceeded)
  {
    hide Sum, Deliver, Absorb, OnlyMarked, WithinLimits, ProcessOrder, Inv, Clamped, OthersFit, IsFinal;
    var i := IndexOf(s.orders, r.id);
    var k, s' := s.orders[i].key, ProcessOrder(s, r).state;
    OthersFitInv(gw, s, i);
    ProcessDelivers(s, r);
    DeliverClamps(s, i, r);
    ClampedKnown(s, s', k, Added(s.orders[i], r));
    LimitsAfter(s, i, r);
    AbsorbKeeps(s.orders[i], r);
    SumAfter(s, i, r, LiveOf(k));
    SumAfter(s, i, r, FilledOf(k));
    SumAfter(s, i, r, ParentLive(k.parent));
    ParentSlack(gw, s, k);
    IsBooked(gw, s, k);
  }

  lemma IsBooked(gw: Gateway, s: State, k: Key)
    requires Inv(gw, s) && Known(s, k)
    ensures TrancheOf(s, k).traded == Sum(FilledOf(k), s.orders) <= TrancheOf(s, k).volume
  {
    assert TrancheBooked(s, k);
  }

  lemma ClampedKnown(s: State, s': State, k: Key, delta: nat)
    requires Known(s, k) && Clamped(s, s', k, delta)
    ensures Known(s', k)
  {
  }

  /** A tranche has no more left than its parent. */
  lemma RemainingWithinParent(gw: Gateway, s: State, k: Key)
    requires Inv(gw, s) && Known(s, k)
    ensures TrancheOf(s, k).Remaining() <= s.parents[k.parent].Remaining()
    ensures s.parents[k.parent].traded == Traded(s.parents[k.parent].tranches) == Sum(ParentFilled(k.parent), s.orders)
  {
    hide Sum;
    ParentSlack(gw, s, k);
    ChildrenGone(gw, s, k);
    LedgersAgree(gw, s, k.parent);
    IsBooked(gw, s, k);
  }

  lemma ClampedTraded(s: State, s': State, k: Key, delta: nat)
    requires Known(s, k) && Clamped(s, s', k, delta)
    ensures Known(s', k)
    ensures Traded(s'.parents[k.parent].tranches)
            == Traded(s.parents[k.parent].tranches) - TrancheOf(s, k).traded + TrancheOf(s', k).traded
  {
    var ts, t' := s.parents[k.parent].tranches, TrancheOf(s', k);
    TradedUpdate(ts, k.index, t');
    forall j | 0 <= j < |ts|
      ensures SameLot(ts[k.index := t'][j], s'.parents[k.parent].tranches[j])
    {
      assert j != k.index ==> SameLot(ts[j], s'.parents[k.parent].tranches[j]);
    }
    LotsAlike(ts[k.index := t'], s'.parents[k.parent].tranches);
  }

  /** The ledgers of the orders, of the tranche and of the parent part exactly when a clamp cuts something off. */
  lemma LedgersPartIff(gw: Gateway, s: State, r: Report)
    requires Inv(gw, s) && IndexOf(s.orders, r.id) < |s.orders|
    ensures var o, s' := s.orders[IndexOf(s.orders, r.id)], ProcessOrder(s, r).state;
            && Known(s, o.key) && Known(s', o.key)
            && var p', left := s'.parents[o.key.parent], TrancheOf(s, o.key).Remaining();
               && (TrancheOf(s', o.key).traded == Sum(FilledOf(o.key), s'.orders) <==> Added(o, r) <= left)
               && (p'.traded == Sum(ParentFilled(o.key.parent), s'.orders) <==> Added(o, r) <= s.parents[o.key.parent].Remaining())
               && (p'.traded == Traded(p'.tranches) <==> Added(o, r) <= left || left == s.parents[o.key.parent].Remaining())
  {
    hide Sum, Deliver, Absorb, OnlyMarked, ProcessOrder, Inv, OthersFit, IsFinal;
    var i := IndexOf(s.orders, r.id);
    var k, s' := s.orders[i].key, ProcessOrder(s, r).state;
    OthersFitInv(gw, s, i);
    ProcessDelivers(s, r);
    DeliverClamps(s, i, r);
    AbsorbKeeps(s.orders[i], r);
    SumAfter(s, i, r, FilledOf(k));
    SumAfter(s, i, r, ParentFilled(k.parent));
    IsBooked(gw, s, k);
    RemainingWithinParent(gw, s, k);
    ClampedTraded(s, s', k, Added(s.orders[i], r));
  }

  /**
   * A fill reported for an order already final oversells its tranche exactly if the late lots were no longer available.
   * The hard limits notice it only while something is live: with nothing live they hold again, however much was oversold.
   */
  lemma LateFillOversellsIff(gw: Gateway, s: State, r: Report)
    requires Inv(gw, s) && IndexOf(s.orders, r.id) < |s.orders| && IsFinal(s.orders[IndexOf(s.orders, r.id)].status)
    ensures var o, s' := s.orders[IndexOf(s.orders, r.id)], ProcessOrder(s, r).state;
            && Known(s, o.key) && o.key.parent in s'.parents
            && (TrancheFits(s', o.key, TrancheOf(s, o.key).volume) <==> Added(o, r) <= Available(s, o.key))
            && (WithinLimits(s', o.key.parent)
                <==> (Sum(LiveOf(o.key), s.orders) == 0 || Added(o, r) <= Available(s, o.key))
                     && (Sum(ParentLive(o.key.parent), s.orders) == 0 || Added(o, r) <= ParentFree(s, o.key.parent)))
            && (ProcessOrder(s, r).Raised? <==> o.key in s.targets && Added(o, r) > TrancheOf(s, o.key).Remaining())
  {
    hide Sum, Deliver, OnlyMarked, WithinLimits, ProcessOrder, Inv, Available, ParentFree, TrancheFits;
    var i := IndexOf(s.orders, r.id);
    var k := s.orders[i].key;
    ReportFitsIff(gw, s, r);
    OthersFitInv(gw, s, i);
    ProcessDelivers(s, r);
    DeliverClamps(s, i, r);
    SumAfter(s, i, r, LiveOf(k));
    SumAfter(s, i, r, ParentLive(k.parent));
    StaysFinal(s.orders[i], r);
  }

  lemma StaysFinal(o: Child, r: Report)
    requires IsFinal(o.status)
    ensures o.Leaves() == Absorb(o, r).Leaves() == 0 && Absorb(o, r).key == o.key && Absorb(o, r).parent == o.parent
  {
  }

  // ---------- adopted orders ----------

  predicate Adoptable(s: State, r: Report) {
    && IndexOf(s.orders, r.id) == |s.orders| && r.reference.Algorithm?
    && r.reference.key.parent == r.reference.parent && Known(s, r.reference.key)
  }

  /** The record an unknown order starts with: nothing traded yet. */
  function Adopted(r: Report): Child
    requires r.reference.Algorithm?
  {
    Child(r.id, r.reference.parent, r.reference.key, r.price, r.volume, r.reference.level, r.reference.level == 0, 0, r.status, false)
  }

  /** What an adopted order takes of its tranche. */
  function Claim(r: Report): nat {
    if IsFinal(r.status) || r.traded >= r.volume then r.traded else r.volume
  }

  lemma {:induction false} IndexOfAppended(os: seq<Child>, o: Child)
    requires IndexOf(os, o.id) == |os|
    ensures IndexOf(os + [o], o.id) == |os|
  {
    if os == [] {
    } else {
      assert (os + [o])[1..] == os[1..] + [o];
      IndexOfAppended(os[1..], o);
    }
  }

  lemma AdoptDelivers(s: State, r: Report)
    requires Adoptable(s, r)
    ensures ProcessOrder(s, r) == Deliver(s.(orders := s.orders + [Adopted(r)]), |s.orders|, r)
  {
    hide Deliver;
    IndexOfAppended(s.orders, Adopted(r));
  }

  lemma AdoptedFits(gw: Gateway, s: State, r: Report)
    requires Inv(gw, s) && Adoptable(s, r)
    ensures OthersFit(s.(orders := s.orders + [Adopted(r)]), |s.orders|)
  {
    hide Sum, IsFinal;
    var k, s0 := r.reference.key, s.(orders := s.orders + [Adopted(r)]);
    NoOversell(gw, s, k.parent);
    assert TrancheBooked(s, k);
    assert k in s.targets ==> TargetSound(s, k);
    forall j: nat | j < |s.parents[k.parent].tranches| && j != k.index
      ensures Sum(LiveOf(Key(k.parent, j)), s0.orders) == Sum(LiveOf(Key(k.parent, j)), s.orders)
    {
      SumAppend(LiveOf(Key(k.parent, j)), s.orders, Adopted(r));
    }
  }

  lemma AdoptedTakes(r: Report)
    requires r.reference.Algorithm?
    ensures Added(Adopted(r), r) == r.traded && Taken(Adopted(r), r) == Claim(r)
    ensures Absorb(Adopted(r), r).key == r.reference.key && Absorb(Adopted(r), r).parent == r.reference.parent
    ensures Absorb(Adopted(r), r).traded == r.traded
  {
  }

  /**
   * An unknown order that names a known tranche is adopted unchecked, whatever it has traded and however it stands.
   * The tranche is oversold if and only if the order claims more than is available; the hard limits notice it exactly
   * while something is live before or the order is, and the current target raises if and only if more was traded than remained.
   */
  lemma AdoptionFitsIff(gw: Gateway, s: State, r: Report)
    requires Inv(gw, s) && Adoptable(s, r)
    ensures var k, d := r.reference.key, ProcessOrder(s, r);
            && Known(d.state, k)
            && (TrancheFits(d.state, k, TrancheOf(s, k).volume) <==> Claim(r) <= Available(s, k))
            && (WithinLimits(d.state, k.parent)
                <==> (Sum(LiveOf(k), s.orders) + (Claim(r) - r.traded) == 0 || Claim(r) <= Available(s, k))
                     && (Sum(ParentLive(k.parent), s.orders) + (Claim(r) - r.traded) == 0 || Claim(r) <= ParentFree(s, k.parent)))
            && (d.Raised? <==> k in s.targets && r.traded > TrancheOf(s, k).Remaining())
            && (d.Raised? ==> d.error == TargetExceeded)
  {
    hide Sum, Deliver, Absorb, OnlyMarked, WithinLimits, ProcessOrder, Inv, OthersFit, IsFinal;
    var k, s0, i := r.reference.key, s.(orders := s.orders + [Adopted(r)]), |s.orders|;
    AdoptDelivers(s, r);
    AdoptedFits(gw, s, r);
    AdoptedTakes(r);
    AdoptedMeasure(s, r, LiveOf(k));
    AdoptedMeasure(s, r, FilledOf(k));
    AdoptedMeasure(s, r, ParentLive(k.parent));
    AdoptedTarget(gw, s, r);
    LimitsAfter(s0, i, r);
    DeliverClamps(s0, i, r);
    ClampedKnown(s0, ProcessOrder(s, r).state, k, r.traded);
    SumAfter(s0, i, r, LiveOf(k));
    SumAfter(s0, i, r, FilledOf(k));
    SumAfter(s0, i, r, ParentLive(k.parent));
    ParentSlack(gw, s, k);
    IsBooked(gw, s, k);
  }

  lemma AdoptedMeasure(s: State, r: Report, m: Measure)
    requires r.reference.Algorithm?
    ensures Sum(m, s.orders + [Adopted(r)]) == Sum(m, s.orders) + Weight(m, Adopted(r))
  {
    SumAppend(m, s.orders, Adopted(r));
  }

  lemma AdoptedTarget(gw: Gateway, s: State, r: Report)
    requires Inv(gw, s) && Adoptable(s, r)
    ensures r.reference.key in s.targets ==>
              Total(s.targets[r.reference.key].allocation) == TrancheOf(s, r.reference.key).Remaining()
  {
    assert r.reference.key in s.targets ==> TargetSound(s, r.reference.key);
  }

  // ---------- repeated reports ----------

  /**
   * Duplicates are idempotent for fills but not for the parent: the repeated report of a rejection, or of a
   * cancellation nobody asked for, pauses a parent that was resumed in between; no other repeated report does.
   */
  lemma DuplicatePausesIff(gw: Gateway, s: State, r: Report)
    requires Inv(gw, s) && Admissible(s, r)
    requires var o := s.orders[IndexOf(s.orders, r.id)];
             o.status == r.status && r.traded <= o.traded && o.key.parent in s.parents && s.parents[o.key.parent].status == Running
    ensures var o, s' := s.orders[IndexOf(s.orders, r.id)], ProcessOrder(s, r).state;
            && o.key.parent in s'.parents
            && s'.parents[o.key.parent].traded == s.parents[o.key.parent].traded
            && (s'.parents[o.key.parent].status == Paused
                <==> (r.status == OrderCancelled && !o.cancelRequested) || r.status == Rejected)
  {
    hide Sum;
    var i := IndexOf(s.orders, r.id);
    var o := s.orders[i];
    assert GoodChild(gw, s, o);
    assert Absorb(o, r) == o && s.orders[i := o] == s.orders;
    assert Fill(s, i, r) == Done(s);
    CompleteStatus(s, o.key);
  }
}
