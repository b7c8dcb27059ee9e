/**
 * What each call and each report does to the fields of parents, tranches, orders and targets, said of the fields
 * themselves: nothing here is stated through the functions that the coordinator computes with.
 */
module CoordinatorEffects {
  import opened Models
  import opened Coordinator
  import opened CoordinatorSums
  import opened CoordinatorSafety
  import opened CoordinatorRuns
  import opened CoordinatorReconcile
  import opened CoordinatorLimits

  /** An order that has not ended and has lots open. */
  predicate IsOpen(o: Child) {
    o.status != AllTraded && o.status != OrderCancelled && o.status != Rejected && o.traded < o.volume
  }

  /** All but the wish to cancel. */
  predicate SameBut(o: Child, o': Child) {
    o' == o.(cancelRequested := o'.cancelRequested) && (o.cancelRequested ==> o'.cancelRequested)
  }

  /** Every order in the scope is asked to be cancelled if it is open; no other order changes. */
  ghost predicate AllAsked(os: seq<Child>, os': seq<Child>, asked: Child -> bool) {
    && |os'| == |os|
    && forall i :: 0 <= i < |os| ==>
      && SameBut(os[i], os'[i])
      && (asked(os[i]) && IsOpen(os[i]) ==> os'[i].cancelRequested)
      && (!(asked(os[i]) && IsOpen(os[i])) ==> os'[i] == os[i])
  }

  /** Parents other than p, and their targets, stay as they are. */
  ghost predicate OnlyParent(s: State, s': State, p: ParentId) {
    && s'.parents.Keys == s.parents.Keys
    && (forall q :: q in s.parents && q != p ==> s'.parents[q] == s.parents[q])
    && (forall k: Key :: k.parent != p ==> (k in s'.targets <==> k in s.targets))
    && (forall k :: k in s.targets && k in s'.targets ==> s'.targets[k] == s.targets[k])
  }

  /** Total, fill and number of tranches of a parent, and volume and fill of each of them. */
  predicate SameAmountsOf(p: Parent, p': Parent) {
    && p'.total == p.total && p'.traded == p.traded && |p'.tranches| == |p.tranches|
    && forall i :: 0 <= i < |p.tranches| ==> p'.tranches[i] == p.tranches[i].(status := p'.tranches[i].status)
  }

  // ---------- pause, cancel, resume ----------

  function OfParentTranches(s: State, p: ParentId): Child -> bool
    requires p in s.parents
  {
    var n := |s.parents[p].tranches|;
    (o: Child) => o.key.parent == p && o.key.index < n
  }

  /**
   * Pausing a running or waiting parent: it is paused, its active tranches are closing and the others as before, its
   * open orders are asked to be cancelled, and it has no target left. Any other parent is left alone.
   */
  lemma PauseEffects(s: State, p: ParentId)
    requires p in s.parents
    ensures var parent, s' := s.parents[p], PauseParent(s, p);
            if parent.status != Running && parent.status != ParentWaiting then s' == s
            else
              && OnlyParent(s, s', p) && s'.sent == s.sent
              && s'.parents[p].status == Paused && SameAmountsOf(parent, s'.parents[p])
              && (forall i :: 0 <= i < |parent.tranches| ==>
                    s'.parents[p].tranches[i].status == if parent.tranches[i].status == Active then Closing else parent.tranches[i].status)
              && AllAsked(s.orders, s'.orders, OfParentTranches(s, p))
              && (forall i :: 0 <= i < |parent.tranches| ==> Key(p, i) !in s'.targets)
              && (forall k :: k in s.targets && k.parent == p && k.index >= |parent.tranches| ==> k in s'.targets)
  {
  }

  /** Cancelling a parent that is neither completed nor cancelled. */
  lemma CancelEffects(s: State, p: ParentId)
    requires p in s.parents
    ensures var parent, s' := s.parents[p], CancelParent(s, p);
            if parent.status == ParentCompleted || parent.status == ParentCancelled then s' == s
            else
              && OnlyParent(s, s', p) && s'.sent == s.sent
              && s'.parents[p].status == ParentCancelled && SameAmountsOf(parent, s'.parents[p])
              && (forall i :: 0 <= i < |parent.tranches| ==>
                    var status := parent.tranches[i].status;
                    s'.parents[p].tranches[i].status == if status == Completed || status == Error then status else Cancelled)
              && AllAsked(s.orders, s'.orders, OfParentTranches(s, p))
              && (forall i :: 0 <= i < |parent.tranches| ==> Key(p, i) !in s'.targets)
  {
  }

  /** Resuming is accepted exactly for a paused parent without open orders; its closing tranches with lots left wait again. */
  lemma ResumeEffects(s: State, p: ParentId)
    requires p in s.parents
    ensures var parent, r := s.parents[p], ResumeParent(s, p);
            && (r.Done? <==> parent.status == Paused && forall i :: 0 <= i < |s.orders| && s.orders[i].parent == p ==> !IsOpen(s.orders[i]))
            && (r.Raised? ==> r.state == s)
            && (r.Done? ==>
                  && r.state == s.(parents := r.state.parents) && OnlyParent(s, r.state, p)
                  && r.state.parents[p].status == Running && SameAmountsOf(parent, r.state.parents[p])
                  && forall i :: 0 <= i < |parent.tranches| ==>
                    var t := parent.tranches[i];
                    r.state.parents[p].tranches[i].status == if t.status == Closing && t.traded < t.volume then Waiting else t.status)
  {
    hide Sum;
    NoneOpenIff(s.orders, p);
  }

  lemma {:induction false} NoneOpenIff(os: seq<Child>, p: ParentId)
    ensures Sum(ParentLive(p), os) == 0 <==> forall i :: 0 <= i < |os| && os[i].parent == p ==> !IsOpen(os[i])
  {
    if os == [] {
    } else {
      var n := |os| - 1;
      NoneOpenIff(os[..n], p);
      assert forall i :: 0 <= i < n ==> os[..n][i] == os[i];
      assert Weight(ParentLive(p), os[n]) == 0 <==> !(os[n].parent == p && IsOpen(os[n]));
    }
  }

  // ---------- registering, sending ----------

  /** A new parent runs, its tranches wait with the given volumes, and nothing is traded. */
  lemma RegisterEffects(gw: Gateway, s: State, p: ParentId, volumes: seq<nat>)
    requires Enabled(s, Register(p, volumes))
    ensures var s' := Step(gw, s, Register(p, volumes)).state;
            && s' == s.(parents := s'.parents) && s'.parents.Keys == s.parents.Keys + {p}
            && (forall q :: q in s.parents ==> s'.parents[q] == s.parents[q])
            && s'.parents[p].status == Running && s'.parents[p].traded == 0 && |s'.parents[p].tranches| == |volumes|
            && s'.parents[p].total == Total(volumes)
            && forall i :: 0 <= i < |volumes| ==> s'.parents[p].tranches[i] == Tranche(volumes[i], 0, Waiting)
  {
    var ts := NewParent(volumes).tranches;
    VolumesTotal(ts, volumes);
  }

  lemma {:induction false} VolumesTotal(ts: seq<Tranche>, volumes: seq<nat>)
    requires |ts| == |volumes| && forall i :: 0 <= i < |ts| ==> ts[i].volume == volumes[i]
    ensures Volumes(ts) == Total(volumes)
  {
    if ts == [] {
    } else {
      VolumesTotal(ts[..|ts| - 1], volumes[..|volumes| - 1]);
    }
  }

  /** The order that records an answered request is that request: same tranche, quantity, price, level, nothing filled. */
  lemma SendRecordsRequest(gw: Gateway, s: State, r: Request)
    requires r.key.parent in s.parents && r.quantity > 0
    ensures var s' := Send(gw, s, r);
            && s'.sent == s.sent + [r]
            && (gw(|s.sent|) != "" ==> s'.parents == s.parents && s'.targets == s.targets)
            && (gw(|s.sent|) != "" && (forall i :: 0 <= i < |s.orders| ==> s.orders[i].id != gw(|s.sent|)) ==>
                  && |s'.orders| == |s.orders| + 1 && s'.orders[..|s.orders|] == s.orders
                  && var o := s'.orders[|s.orders|];
                     && o.id == gw(|s.sent|) && o.parent == r.key.parent && o.key == r.key && o.volume == r.quantity
                     && o.price == r.price && o.level == r.level && o.aggressive == r.aggressive
                     && o.traded == 0 && o.status == Submitting && !o.cancelRequested)
            && (gw(|s.sent|) == "" && s.parents[r.key.parent].status == Running ==> s'.parents[r.key.parent].status == Paused)
  {
  }

  // ---------- targets ----------

  /**
   * A target that survives a decision is anchored at the decision's best bid, and each of its traded buckets lies
   * within the bounds of rounding around the intent's share of the remaining lots.
   */
  lemma DecideEffects(gw: Gateway, s: State, k: Key, intent: seq<real>, bid: int)
    requires Inv(gw, s) && FreshIds(gw) && Enabled(s, Decide(k, intent, bid))
    ensures var s' := ApplyIntent(gw, s, k, intent, bid).state;
            k in s'.targets ==>
              && s'.targets[k].bid == bid && Total(s'.targets[k].allocation) == TrancheOf(s, k).volume - TrancheOf(s, k).traded
              && forall b :: 0 <= b < INACTIVE ==> Near(s'.targets[k].allocation[b], intent, TrancheOf(s, k).Remaining(), b)
  {
    hide Sum, TargetQuantities, Reconcile, Inv, Near, Total;
    var t := Target(TargetQuantities(intent, TrancheOf(s, k).Remaining()), bid);
    var s1 := s.(targets := s.targets[k := t]);
    RoundingConserves(intent, TrancheOf(s, k).Remaining());
    RetargetKeeps(gw, s, k, t);
    ReconcileTargets(gw, s1, k);
    DecisionIsBooked(gw, s, k);
    forall b: nat | b < INACTIVE
      ensures Near(t.allocation[b], intent, TrancheOf(s, k).Remaining(), b)
    {
      NearShare(intent, TrancheOf(s, k).Remaining(), b);
    }
  }

  predicate Near(lots: nat, intent: seq<real>, remaining: nat, b: nat)
    requires Fractions(intent) && b < INACTIVE
  {
    && lots as real <= intent[b] * remaining as real + 0.5
    && lots as real >= intent[b] * remaining as real - MaxReal(0.5, b as real / 2.0) - Abs(SumReal(intent) - 1.0) * remaining as real
  }

  lemma NearShare(intent: seq<real>, remaining: nat, b: nat)
    requires Fractions(intent) && b < INACTIVE
    ensures Near(TargetQuantities(intent, remaining)[b], intent, remaining, b)
  {
    hide SumReal, TargetQuantities;
    TradedBucketBounds(intent, remaining, b);
  }

  lemma DecisionIsBooked(gw: Gateway, s: State, k: Key)
    requires Inv(gw, s) && Known(s, k)
    ensures TrancheOf(s, k).Remaining() == TrancheOf(s, k).volume - TrancheOf(s, k).traded
  {
    assert TrancheBooked(s, k);
  }

  /** Reconciling changes no target, but a refused request drops it. */
  lemma ReconcileTargets(gw: Gateway, s: State, k: Key)
    requires Known(s, k)
    ensures var s' := Reconcile(gw, s, k).state; forall q :: q in s'.targets ==> q in s.targets && s'.targets[q] == s.targets[q]
  {
    hide Sum, SendDeficits, MarkExcess;
    if k in s.targets {
      DeficitsTargets(gw, s.(orders := MarkExcess(s.orders, k, s.targets[k])), k, s.targets[k], 0);
    }
  }

  lemma {:induction false} DeficitsTargets(gw: Gateway, s: State, k: Key, t: Target, b: nat)
    requires Known(s, k) && b <= INACTIVE
    ensures var s' := SendDeficits(gw, s, k, t, b); forall q :: q in s'.targets ==> q in s.targets && s'.targets[q] == s.targets[q]
    decreases INACTIVE - b
  {
    hide Sum, Send, Deficit;
    if b == INACTIVE {
    } else {
      DeficitFits(s, k, t, b);
      SendTargets(gw, s, Deficit(s, k, t, b));
      DeficitsTargets(gw, Send(gw, s, Deficit(s, k, t, b)), k, t, b + 1);
    }
  }

  lemma SendTargets(gw: Gateway, s: State, r: Request)
    requires r.key.parent in s.parents
    ensures var s' := Send(gw, s, r); forall q :: q in s'.targets ==> q in s.targets && s'.targets[q] == s.targets[q]
  {
  }

  /** A refresh moves the target of an active tranche to the new best bid, lots unchanged, and does nothing else to targets. */
  lemma RefreshEffects(gw: Gateway, s: State, k: Key, bid: int)
    requires Known(s, k)
    ensures var r := ReconcilePending(gw, s, k, bid);
            && (k !in s.targets || TrancheOf(s, k).status != Active ==> r == Done(s))
            && (forall q :: q in r.state.targets ==> q in s.targets && r.state.targets[q].allocation == s.targets[q].allocation)
            && (forall q :: q in r.state.targets && q != k ==> r.state.targets[q] == s.targets[q])
            && (k in r.state.targets && TrancheOf(s, k).status == Active ==> r.state.targets[k].bid == bid)
  {
    hide Reconcile;
    if k in s.targets && TrancheOf(s, k).status == Active {
      ReconcileTargets(gw, s.(targets := s.targets[k := s.targets[k].(bid := bid)]), k);
    }
  }

  // ---------- closing ----------

  /**
   * A tranche that waits or is active starts closing: its target is gone, and each of its orders that is open is asked
   * to be cancelled. Orders and targets of other tranches change only if a refused request pauses the parent.
   */
  lemma CloseEffects(gw: Gateway, s: State, k: Key, bid: int)
    requires Known(s, k) && (TrancheOf(s, k).status == Waiting || TrancheOf(s, k).status == Active)
    ensures var t, s' := TrancheOf(s, k), BeginClose(gw, s, k, bid);
            && Known(s', k) && TrancheOf(s', k) == t.(status := if t.traded >= t.volume then Completed else Closing)
            && k !in s'.targets && |s.orders| <= |s'.orders|
            && (forall i :: 0 <= i < |s.orders| ==>
                  SameBut(s.orders[i], s'.orders[i]) && (s.orders[i].key == k && IsOpen(s.orders[i]) ==> s'.orders[i].cancelRequested))
            && (s'.parents[k.parent].status == s.parents[k.parent].status ==>
                  && (forall i :: 0 <= i < |s.orders| && s.orders[i].key != k ==> s'.orders[i] == s.orders[i])
                  && (forall q :: q in s.targets && q != k ==> q in s'.targets && s'.targets[q] == s.targets[q]))
  {
    hide Sum, FinishClosing;
    var t := TrancheOf(s, k);
    var s1 := SetTranche(s, k, t.(status := Closing)).(targets := s.targets - {k}, orders := MarkTranche(s.orders, k));
    FinishEffects(gw, s1, k, bid);
    MarkedIsAsked(s.orders, k);
  }

  lemma MarkedIsAsked(os: seq<Child>, k: Key)
    ensures AllAsked(os, MarkTranche(os, k), (o: Child) => o.key == k)
  {
  }

  /** One pass of the closing path. */
  lemma FinishEffects(gw: Gateway, s: State, k: Key, bid: int)
    requires Known(s, k) && TrancheOf(s, k).status == Closing
    ensures var t, s' := TrancheOf(s, k), FinishClosing(gw, s, k, bid);
            && Known(s', k) && TrancheOf(s', k) == t.(status := if t.traded >= t.volume then Completed else Closing)
            && |s.orders| <= |s'.orders| && (forall i :: 0 <= i < |s.orders| ==> SameBut(s.orders[i], s'.orders[i]))
            && (forall q :: q in s'.targets ==> q in s.targets && s'.targets[q] == s.targets[q])
            && (s'.parents[k.parent].status == s.parents[k.parent].status ==>
                  && s'.targets == s.targets
                  && (forall i :: 0 <= i < |s.orders| && s.orders[i].key != k ==> s'.orders[i] == s.orders[i]))
  {
    hide Sum, Available;
  }

  // ---------- what a report does to its order ----------

  /** Before and after a report on order i. */
  ghost predicate Reported(gw: Gateway, s: State, r: Report, i: nat, s': State) {
    Inv(gw, s) && i < |s.orders| && i == IndexOf(s.orders, r.id) && s' == ProcessOrder(s, r).state && |s'.orders| == |s.orders|
  }

  predicate HasEnded(status: OrderStatus) {
    status == AllTraded || status == OrderCancelled || status == Rejected
  }

  /**
   * Any report on a known order, in any order and true or not: the status is taken over unless the order has ended,
   * the cumulative quantity never falls, an ended order has nothing live, and no other order changes but for a wish to
   * cancel it.
   */
  lemma ReportTaken(gw: Gateway, s: State, r: Report)
    requires Inv(gw, s) && IndexOf(s.orders, r.id) < |s.orders|
    ensures var i, s' := IndexOf(s.orders, r.id), ProcessOrder(s, r).state;
            && Reported(gw, s, r, i, s')
            && (forall j :: 0 <= j < |s.orders| && j != i ==> SameBut(s.orders[j], s'.orders[j]))
            && var o, o' := s.orders[i], s'.orders[i];
               && o'.id == r.id == o.id && o'.key == o.key && o'.volume == o.volume && o'.price == o.price && o'.aggressive == o.aggressive
               && o'.status == (if HasEnded(o.status) then o.status else r.status)
               && o'.traded == (if r.traded > o.traded then r.traded else o.traded)
               && o'.Leaves() == (if HasEnded(o'.status) || o'.traded >= o.volume then 0 else o.volume - o'.traded)
               && (o.cancelRequested ==> o'.cancelRequested)
  {
    hide Sum, Deliver, Inv;
    var i := IndexOf(s.orders, r.id);
    OthersFitInv(gw, s, i);
    ProcessDelivers(s, r);
    DeliverOrders(s, i, r);
  }

  lemma DeliverOrders(s: State, i: nat, r: Report)
    requires i < |s.orders| && Known(s, s.orders[i].key)
    ensures var os := Deliver(s, i, r).state.orders;
            |os| == |s.orders| && forall j :: 0 <= j < |os| ==> SameBut(if j == i then Absorb(s.orders[i], r) else s.orders[j], os[j])
  {
    hide Sum, Fill, PauseParent, Complete;
    FillOrders(s, i, r);
    var b, k := Fill(s, i, r).state, s.orders[i].key;
    FillKnown(s, i, r);
    PauseAsks(b, k.parent);
    CompleteAsks(b, k);
  }

  lemma FillKnown(s: State, i: nat, r: Report)
    requires i < |s.orders| && Known(s, s.orders[i].key)
    ensures Known(Fill(s, i, r).state, s.orders[i].key)
  {
    hide Consume;
  }

  lemma PauseAsks(s: State, p: ParentId)
    requires p in s.parents
    ensures var os := PauseParent(s, p).orders; |os| == |s.orders| && forall j :: 0 <= j < |os| ==> SameBut(s.orders[j], os[j])
  {
  }

  lemma CompleteAsks(s: State, k: Key)
    requires Known(s, k)
    ensures var os := Complete(s, k).orders; |os| == |s.orders| && forall j :: 0 <= j < |os| ==> SameBut(s.orders[j], os[j])
  {
  }

  // ---------- what a report does to its parent and tranche ----------

  /** A rejection, or a cancellation nobody asked for, that is news or repeats what ended the order. */
  predicate IsAlarm(o: Child, r: Report) {
    && (!HasEnded(o.status) || o.status == r.status)
    && (r.status == Rejected || (r.status == OrderCancelled && !o.cancelRequested))
  }

  /** The lots of a report that are new. */
  function News(o: Child, r: Report): nat {
    if r.traded > o.traded then r.traded - o.traded else 0
  }

  /**
   * Where the parent and the tranche of a reported order stand afterwards, unless the target raises. An alarm pauses a
   * running or waiting parent, with the effects of a pause. Otherwise a tranche with nothing left is completed, loses
   * its target and has its open orders asked to be cancelled, and a parent with nothing left is completed.
   */
  lemma ReportMovesParent(gw: Gateway, s: State, r: Report)
    requires Inv(gw, s) && IndexOf(s.orders, r.id) < |s.orders| && ProcessOrder(s, r).Done?
    ensures var o, s' := s.orders[IndexOf(s.orders, r.id)], ProcessOrder(s, r).state;
            && Known(s, o.key) && Known(s', o.key)
            && var p, t, p', t' := s.parents[o.key.parent], TrancheOf(s, o.key), s'.parents[o.key.parent], TrancheOf(s', o.key);
               if IsAlarm(o, r) then
                 && p'.status == (if p.status == Running || p.status == ParentWaiting then Paused else p.status)
                 && (p'.status != p.status ==>
                       o.key !in s'.targets
                       && forall j :: 0 <= j < |s'.orders| && s'.orders[j].key == o.key && IsOpen(s'.orders[j]) ==> s'.orders[j].cancelRequested)
               else
                 && p'.status == (if p.traded + News(o, r) >= p.total then ParentCompleted else p.status)
                 && t'.status == (if t.traded + News(o, r) >= t.volume then Completed else t.status)
                 && (t.traded + News(o, r) >= t.volume ==>
                       o.key !in s'.targets
                       && forall j :: 0 <= j < |s'.orders| && s'.orders[j].key == o.key && IsOpen(s'.orders[j]) ==> s'.orders[j].cancelRequested)
                 && (t.traded + News(o, r) < t.volume ==> OthersStay(s, s', IndexOf(s.orders, r.id), o.key))
  {
    hide Sum, Deliver, Inv, Total;
    var i := IndexOf(s.orders, r.id);
    OthersFitInv(gw, s, i);
    ProcessDelivers(s, r);
    DeliverMoves(s, i, r);
  }

  lemma DeliverMoves(s: State, i: nat, r: Report)
    requires i < |s.orders| && Known(s, s.orders[i].key) && Deliver(s, i, r).Done?
    requires TrancheOf(s, s.orders[i].key).traded <= TrancheOf(s, s.orders[i].key).volume
    requires s.parents[s.orders[i].key.parent].traded <= s.parents[s.orders[i].key.parent].total
    ensures var o, s' := s.orders[i], Deliver(s, i, r).state;
            && Known(s', o.key)
            && var p, t, p', t' := s.parents[o.key.parent], TrancheOf(s, o.key), s'.parents[o.key.parent], TrancheOf(s', o.key);
               if IsAlarm(o, r) then
                 && p'.status == (if p.status == Running || p.status == ParentWaiting then Paused else p.status)
                 && (p'.status != p.status ==> AskedAll(s', o.key))
               else
                 && p'.status == (if p.traded + News(o, r) >= p.total then ParentCompleted else p.status)
                 && t'.status == (if t.traded + News(o, r) >= t.volume then Completed else t.status)
                 && (t.traded + News(o, r) >= t.volume ==> AskedAll(s', o.key))
                 && (t.traded + News(o, r) < t.volume ==> OthersStay(s, s', i, o.key))
  {
    hide Sum, Fill, PauseParent, Complete, AskedAll, OthersStay;
    var o, b := s.orders[i], Fill(s, i, r).state;
    FillBooks(s, i, r);
    PauseMoves(b, o.key);
    CompleteMoves(b, o.key);
    if TrancheOf(b, o.key).traded < TrancheOf(b, o.key).volume {
      StaysThen(s, b, Complete(b, o.key), i, o.key);
    }
  }

  lemma StaysThen(s: State, b: State, s': State, i: nat, k: Key)
    requires OthersStay(s, b, i, k) && s'.orders == b.orders && s'.targets == b.targets
    ensures OthersStay(s, s', i, k)
  {
  }

  /** Every other order and every other target is as before. */
  predicate OthersStay(s: State, s': State, i: nat, k: Key) {
    && |s'.orders| == |s.orders| && (forall j :: 0 <= j < |s.orders| && j != i ==> s'.orders[j] == s.orders[j])
    && s'.targets.Keys == s.targets.Keys && forall q :: q in s.targets && q != k ==> s'.targets[q] == s.targets[q]
  }

  /** The tranche has no target, and each of its open orders is asked to be cancelled. */
  predicate AskedAll(s: State, k: Key) {
    k !in s.targets && forall j :: 0 <= j < |s.orders| && s.orders[j].key == k && IsOpen(s.orders[j]) ==> s.orders[j].cancelRequested
  }

  lemma FillBooks(s: State, i: nat, r: Report)
    requires i < |s.orders| && Known(s, s.orders[i].key)
    requires TrancheOf(s, s.orders[i].key).traded <= TrancheOf(s, s.orders[i].key).volume
    requires s.parents[s.orders[i].key.parent].traded <= s.parents[s.orders[i].key.parent].total
    ensures var o, b := s.orders[i], Fill(s, i, r).state;
            && Known(b, o.key)
            && var p, t, p', t' := s.parents[o.key.parent], TrancheOf(s, o.key), b.parents[o.key.parent], TrancheOf(b, o.key);
               && p'.status == p.status && t'.status == t.status && p'.total == p.total && t'.volume == t.volume
               && p'.traded == Min(p.traded + News(o, r), p.total) && t'.traded == Min(t.traded + News(o, r), t.volume)
               && OthersStay(s, b, i, o.key)
  {
    hide Consume;
  }

  lemma PauseMoves(s: State, k: Key)
    requires Known(s, k)
    ensures var s' := PauseParent(s, k.parent);
            && Known(s', k)
            && var p := s.parents[k.parent];
               s'.parents[k.parent].status == (if p.status == Running || p.status == ParentWaiting then Paused else p.status)
               && (p.status == Running || p.status == ParentWaiting ==> AskedAll(s', k))
  {
    assert k == Key(k.parent, k.index);
  }

  lemma CompleteMoves(s: State, k: Key)
    requires Known(s, k)
    ensures var s' := Complete(s, k);
            && Known(s', k)
            && var p, t := s.parents[k.parent], TrancheOf(s, k);
               && s'.parents[k.parent].status == (if p.traded >= p.total then ParentCompleted else p.status)
               && TrancheOf(s', k).status == (if t.traded >= t.volume then Completed else t.status)
               && (t.traded >= t.volume ==> AskedAll(s', k))
               && (t.traded < t.volume ==> s'.orders == s.orders && s'.targets == s.targets)
  {
  }

  // ---------- cancellations are confirmed, then the missing lots are sent ----------

  /** The reports of a list, one after the other. */
  function AfterAll(s: State, rs: seq<Report>): State
    decreases |rs|
  {
    if rs == [] then s else AfterAll(ProcessOrder(s, rs[0]).state, rs[1..])
  }

  /** The gateway confirms the cancellation of an order of the tranche that was asked to be cancelled. */
  predicate Confirms(s: State, k: Key, r: Report) {
    var i := IndexOf(s.orders, r.id);
    && i < |s.orders| && s.orders[i].key == k && s.orders[i].cancelRequested
    && r.status == OrderCancelled && r.traded <= s.orders[i].traded
  }

  function Ended(o: Child): Child {
    if HasEnded(o.status) then o else o.(status := OrderCancelled)
  }

  lemma ConfirmedIs(gw: Gateway, s: State, k: Key, r: Report)
    requires Inv(gw, s) && k in s.targets && Confirms(s, k, r)
    ensures var i := IndexOf(s.orders, r.id);
            && ProcessOrder(s, r) == Done(s.(orders := s.orders[i := Ended(s.orders[i])]))
            && Inv(gw, ProcessOrder(s, r).state)
  {
    hide Sum, Inv, Total;
    var i := IndexOf(s.orders, r.id);
    OthersFitInv(gw, s, i);
    ProcessDelivers(s, r);
    HasLotsLeft(gw, s, k);
    Quietly(s, i, r);
    AdmissibleCancel(gw, s, r);
    ProcessOrderKeeps(gw, s, r);
  }

  lemma AdmissibleCancel(gw: Gateway, s: State, r: Report)
    requires Inv(gw, s) && IndexOf(s.orders, r.id) < |s.orders| && r.traded <= s.orders[IndexOf(s.orders, r.id)].traded
    ensures Admissible(s, r)
  {
    assert GoodChild(gw, s, s.orders[IndexOf(s.orders, r.id)]);
  }

  lemma HasLotsLeft(gw: Gateway, s: State, k: Key)
    requires Inv(gw, s) && k in s.targets
    ensures Known(s, k) && TrancheOf(s, k).traded < TrancheOf(s, k).volume && s.parents[k.parent].traded < s.parents[k.parent].total
  {
    hide Sum;
    assert TargetSound(s, k) && PhaseSound(s, k);
    RemainingWithinParent(gw, s, k);
  }

  lemma Quietly(s: State, i: nat, r: Report)
    requires i < |s.orders| && Known(s, s.orders[i].key) && s.orders[i].cancelRequested
    requires r.status == OrderCancelled && r.traded <= s.orders[i].traded
    requires var k := s.orders[i].key; TrancheOf(s, k).traded < TrancheOf(s, k).volume && s.parents[k.parent].traded < s.parents[k.parent].total
    ensures Deliver(s, i, r) == Done(s.(orders := s.orders[i := Ended(s.orders[i])]))
  {
    assert Absorb(s.orders[i], r) == Ended(s.orders[i]);
  }

  /** Orders stay as they are or have ended. */
  predicate OnlyEnded(os: seq<Child>, os': seq<Child>) {
    |os'| == |os| && forall j :: 0 <= j < |os| ==> os'[j] == os[j] || os'[j] == Ended(os[j])
  }

  predicate HasEndedAt(os: seq<Child>, os': seq<Child>, id: OrderId) {
    var i := IndexOf(os, id);
    i < |os| && i < |os'| && os'[i] == Ended(os[i])
  }

  /** After confirmations, in any order and repeated or not, exactly the confirmed orders have ended, and nothing else changed. */
  lemma {:induction false} ConfirmationsEnd(gw: Gateway, s: State, k: Key, rs: seq<Report>)
    requires Inv(gw, s) && k in s.targets && forall n :: 0 <= n < |rs| ==> Confirms(s, k, rs[n])
    ensures var s' := AfterAll(s, rs);
            && Inv(gw, s') && s' == s.(orders := s'.orders) && OnlyEnded(s.orders, s'.orders)
            && forall n :: 0 <= n < |rs| ==> HasEndedAt(s.orders, s'.orders, rs[n].id)
    decreases |rs|
  {
    hide Inv, ProcessOrder, Confirms, OnlyEnded, HasEndedAt;
    if rs == [] {
      NoneEnded(s.orders);
    } else {
      var s1 := ProcessOrder(s, rs[0]).state;
      ConfirmedIs(gw, s, k, rs[0]);
      OneEnded(s, k, rs[0]);
      forall n | 0 <= n < |rs[1..]|
        ensures Confirms(s1, k, rs[1..][n])
      {
        StillConfirms(s, s1, k, rs[0], rs[n + 1]);
      }
      ConfirmationsEnd(gw, s1, k, rs[1..]);
      var s' := AfterAll(s, rs);
      EndedThen(s.orders, s1.orders, s'.orders);
      forall n | 0 <= n < |rs|
        ensures HasEndedAt(s.orders, s'.orders, rs[n].id)
      {
        if n == 0 {
          EndedFirst(s.orders, s1.orders, s'.orders, rs[0].id);
        } else {
          assert rs[n] == rs[1..][n - 1];
          EndedLater(s.orders, s1.orders, s'.orders, rs[n].id);
        }
      }
    }
  }

  lemma NoneEnded(os: seq<Child>)
    ensures OnlyEnded(os, os)
  {
  }

  lemma OneEnded(s: State, k: Key, r: Report)
    requires Confirms(s, k, r)
    ensures var i := IndexOf(s.orders, r.id);
            i < |s.orders| && OnlyEnded(s.orders, s.orders[i := Ended(s.orders[i])]) && HasEndedAt(s.orders, s.orders[i := Ended(s.orders[i])], r.id)
  {
  }

  lemma StillConfirms(s: State, s1: State, k: Key, r: Report, r': Report)
    requires Confirms(s, k, r) && Confirms(s, k, r')
    requires s1 == s.(orders := s.orders[IndexOf(s.orders, r.id) := Ended(s.orders[IndexOf(s.orders, r.id)])])
    ensures Confirms(s1, k, r')
  {
    SameIndex(s.orders, s1.orders, r'.id);
  }

  lemma EndedThen(os: seq<Child>, os1: seq<Child>, os': seq<Child>)
    requires OnlyEnded(os, os1) && OnlyEnded(os1, os')
    ensures OnlyEnded(os, os')
  {
    forall j | 0 <= j < |os|
      ensures os'[j] == os[j] || os'[j] == Ended(os[j])
    {
      EndedTwice(os[j]);
      assert os1[j] == os[j] || os1[j] == Ended(os[j]);
      assert os'[j] == os1[j] || os'[j] == Ended(os1[j]);
    }
  }

  lemma EndedFirst(os: seq<Child>, os1: seq<Child>, os': seq<Child>, id: OrderId)
    requires HasEndedAt(os, os1, id) && OnlyEnded(os1, os')
    ensures HasEndedAt(os, os', id)
  {
    var i := IndexOf(os, id);
    EndedTwice(os[i]);
  }

  lemma EndedLater(os: seq<Child>, os1: seq<Child>, os': seq<Child>, id: OrderId)
    requires OnlyEnded(os, os1) && HasEndedAt(os1, os', id)
    ensures HasEndedAt(os, os', id)
  {
    SameIndex(os, os1, id);
    EndedTwice(os[IndexOf(os, id)]);
  }

  lemma EndedTwice(o: Child)
    ensures Ended(Ended(o)) == Ended(o)
  {
  }

  lemma {:induction false} SameIndex(os: seq<Child>, os': seq<Child>, id: OrderId)
    requires |os'| == |os| && forall j :: 0 <= j < |os| ==> os'[j].id == os[j].id
    ensures IndexOf(os', id) == IndexOf(os, id)
  {
    if os == [] {
    } else {
      SameIndex(os[1..], os'[1..], id);
    }
  }

  /** Every open order of the tranche that was asked to be cancelled is confirmed. */
  ghost predicate Covers(s: State, k: Key, rs: seq<Report>) {
    forall j :: 0 <= j < |s.orders| && s.orders[j].key == k && s.orders[j].cancelRequested && IsOpen(s.orders[j]) ==>
      exists n :: 0 <= n < |rs| && IndexOf(s.orders, rs[n].id) == j
  }

  /**
   * A reconciliation that found too much asks for cancellations and sends nothing. Once all of them are confirmed, in
   * any order and repeated or not, nothing is pending, every bucket fits, and the next reconciliation sends exactly the
   * missing lots, after which the live lots equal the target if and only if every request was answered.
   */
  lemma ConfirmedThenSent(gw: Gateway, s: State, k: Key, rs: seq<Report>)
    requires Inv(gw, s) && FreshIds(gw) && k in s.targets && Pending(MarkExcess(s.orders, k, s.targets[k]), k)
    requires Known(s, k)
    requires var s1 := Reconcile(gw, s, k).state; Covers(s1, k, rs) && forall n :: 0 <= n < |rs| ==> Confirms(s1, k, rs[n])
    ensures var t, s2 := s.targets[k], AfterAll(Reconcile(gw, s, k).state, rs);
            && Known(s2, k) && k in s2.targets && s2.targets[k] == t && !Pending(s2.orders, k) && Fits(s2.orders, k, t)
            && var s3 := Reconcile(gw, s2, k).state;
               && s3.sent == s.sent + Wanted(s2.orders, k, t, 0)
               && (AllAnswered(gw, |s2.sent|, |s3.sent|) <==> Converged(s3.orders, k, t))
  {
    hide Sum, Inv, Reconcile, Wanted, Converged, MarkExcess, Fits, AllAnswered, Pending;
    TargetKnown(gw, s, k);
    var t, s1 := s.targets[k], Reconcile(gw, s, k).state;
    ReconcileConverges(gw, s, k);
    ReconcileKeeps(gw, s, k);
    ConfirmationsEnd(gw, s1, k, rs);
    var s2 := AfterAll(s1, rs);
    NothingAsked(s1, s2, k, rs);
    LeftFits(s.orders, s1.orders, s2.orders, k, t);
    FitsIsNotPending(s2.orders, k, t);
    ReconcileConverges(gw, s2, k);
  }

  lemma TargetKnown(gw: Gateway, s: State, k: Key)
    requires Inv(gw, s) && k in s.targets
    ensures Known(s, k)
  {
    assert TargetSound(s, k);
  }

  /** Nothing of the tranche that was asked to be cancelled is open any more. */
  predicate NoneWaits(os: seq<Child>, k: Key) {
    forall j :: 0 <= j < |os| && os[j].key == k && os[j].cancelRequested ==> !IsOpen(os[j])
  }

  lemma NothingAsked(s1: State, s2: State, k: Key, rs: seq<Report>)
    requires Covers(s1, k, rs) && OnlyEnded(s1.orders, s2.orders)
    requires forall n :: 0 <= n < |rs| ==> HasEndedAt(s1.orders, s2.orders, rs[n].id)
    ensures NoneWaits(s2.orders, k) && !Pending(s2.orders, k)
  {
    forall j | 0 <= j < |s2.orders| && s2.orders[j].key == k && s2.orders[j].cancelRequested
      ensures !IsOpen(s2.orders[j])
    {
      assert s2.orders[j] == s1.orders[j] || s2.orders[j] == Ended(s1.orders[j]);
      if IsOpen(s1.orders[j]) {
        var n :| 0 <= n < |rs| && IndexOf(s1.orders, rs[n].id) == j;
        assert HasEndedAt(s1.orders, s2.orders, rs[n].id);
      }
    }
  }

  /** What is left of the tranche was not asked to be cancelled, so it was kept, and what is kept fits. */
  lemma LeftFits(os: seq<Child>, os1: seq<Child>, os2: seq<Child>, k: Key, t: Target)
    requires os1 == MarkExcess(os, k, t) && NoneWaits(os2, k) && OnlyEnded(os1, os2)
    ensures Fits(os2, k, t)
  {
    hide Excess;
    forall b | 0 <= b < BUCKETS
      ensures LiveIn(os2, k, t, b) <= Desired(t, b)
    {
      forall j | 0 <= j < |os|
        ensures Weight(LiveAt(k, b, t.bid), os2[j]) <= if Excess(os, k, t, j) then 0 else Weight(LiveAt(k, b, t.bid), os[j])
      {
        LeftWeight(os, os1, os2, k, t, b, j);
      }
      KeptBounds(os, os2, k, t, b, |os|);
      assert os2[..|os|] == os2;
      KeptFits(os, k, t, b);
    }
  }

  lemma LeftWeight(os: seq<Child>, os1: seq<Child>, os2: seq<Child>, k: Key, t: Target, b: nat, j: nat)
    requires os1 == MarkExcess(os, k, t) && |os2| == |os1| && NoneWaits(os2, k) && j < |os|
    requires os2[j] == os1[j] || os2[j] == Ended(os1[j])
    ensures Weight(LiveAt(k, b, t.bid), os2[j]) <= if Excess(os, k, t, j) then 0 else Weight(LiveAt(k, b, t.bid), os[j])
  {
    hide Sum;
    assert os1[j] == if Excess(os, k, t, j) then Mark(os[j]) else os[j];
  }

  lemma {:induction false} KeptBounds(os: seq<Child>, os2: seq<Child>, k: Key, t: Target, b: nat, n: nat)
    requires n <= |os| == |os2|
    requires forall j :: 0 <= j < |os| ==>
               Weight(LiveAt(k, b, t.bid), os2[j]) <= if Excess(os, k, t, j) then 0 else Weight(LiveAt(k, b, t.bid), os[j])
    ensures Sum(LiveAt(k, b, t.bid), os2[..n]) <= Kept(os, k, t, b, n)
  {
    hide Excess, Weight;
    if n == 0 {
    } else {
      KeptBounds(os, os2, k, t, b, n - 1);
      assert os2[..n][..n - 1] == os2[..n - 1];
    }
  }

  lemma FitsIsNotPending(os: seq<Child>, k: Key, t: Target)
    requires Fits(os, k, t) && !Pending(os, k)
    ensures !Pending(MarkExcess(os, k, t), k)
  {
    ExcessIffOverfull(os, k, t);
    assert MarkExcess(os, k, t) == os;
  }

  // ---------- which orders reconciliation cancels ----------

  /** An order is in a traded bucket exactly if it is what a request for that bucket would place at this best bid. */
  lemma BucketIsRequested(s: State, o: Child, t: Target, b: nat)
    requires Known(s, o.key) && b < INACTIVE
    ensures BucketOf(o, t.bid) == b
            <==> o.price == Deficit(s, o.key, t, b).price && o.aggressive == Deficit(s, o.key, t, b).aggressive
  {
    hide Sum, Available;
  }

  /**
   * Newest first: if an order is cancelled, so is every newer open one of its bucket; and an order is cancelled only if
   * it does not fit beside the older ones of its bucket.
   */
  lemma CancelsNewest(os: seq<Child>, k: Key, t: Target, i: nat, j: nat)
    requires i < j < |os| && os[i].key == k && os[j].key == k && IsOpen(os[j]) && BucketOf(os[i], t.bid) == BucketOf(os[j], t.bid)
    ensures var os' := MarkExcess(os, k, t);
            |os'| == |os| && (os'[i].cancelRequested && !os[i].cancelRequested ==>
              os'[j].cancelRequested
              && Sum(LiveAt(k, BucketOf(os[i], t.bid), t.bid), os[..i]) + (os[i].volume - os[i].traded) > Desired(t, BucketOf(os[i], t.bid)))
  {
    var b := BucketOf(os[i], t.bid);
    assert os[..i + 1][..i] == os[..i];
    assert os[..j + 1][..i + 1] == os[..i + 1];
    SumPrefix(LiveAt(k, b, t.bid), os[..j + 1], i + 1);
  }

  // ---------- unknown orders ----------

  /** An unknown order is recorded exactly if its reference names a known parent, with what the report says of it. */
  lemma AdoptionRecords(gw: Gateway, s: State, r: Report)
    requires Inv(gw, s) && forall i :: 0 <= i < |s.orders| ==> s.orders[i].id != r.id
    ensures var d := ProcessOrder(s, r);
            if !(r.reference.Algorithm? && r.reference.parent in s.parents) then d == Done(s)
            else
              && |d.state.orders| == |s.orders| + 1
              && var o := d.state.orders[|s.orders|];
                 && o.id == r.id && o.parent == r.reference.parent && o.key == r.reference.key && o.price == r.price
                 && o.volume == r.volume && o.level == r.reference.level && o.aggressive == (r.reference.level == 0)
                 && o.status == r.status
                 && (d.Raised? && d.error == UnknownTranche
                     <==> !(r.reference.key.parent == r.reference.parent && Known(s, r.reference.key)))
                 && (!(d.Raised? && d.error == UnknownTranche) ==> o.traded == r.traded)
  {
    hide Sum, Inv, Deliver;
    NotAnIndex(s.orders, r.id);
    if r.reference.Algorithm? && r.reference.parent in s.parents {
      IndexOfAppended(s.orders, Adopted(r));
      if r.reference.key.parent == r.reference.parent && Known(s, r.reference.key) {
        AdoptDelivers(s, r);
        AdoptedTarget(gw, s, r);
        var s0 := s.(orders := s.orders + [Adopted(r)]);
        DeliverOrders(s0, |s.orders|, r);
        DeliverClamps(s0, |s.orders|, r);
      }
    }
  }

  lemma {:induction false} NotAnIndex(os: seq<Child>, id: OrderId)
    requires forall i :: 0 <= i < |os| ==> os[i].id != id
    ensures IndexOf(os, id) == |os|
  {
    if os == [] {
    } else {
      NotAnIndex(os[1..], id);
    }
  }

  // ---------- from which buckets a fill is taken ----------

  /** Bucket c comes before bucket d when a fill of bucket b is taken: b itself, then the inactive lots, then from the market bucket on. */
  predicate TakenBefore(b: nat, c: nat, d: nat) {
    c != d && (c == b || (d != b && (c == INACTIVE || (d != INACTIVE && c < d))))
  }

  predicate EmptiedFirst(a: Allocation, a': Allocation, b: nat) {
    forall c, d :: 0 <= c < BUCKETS && 0 <= d < BUCKETS && TakenBefore(b, c, d) && a'[d] < a[d] ==> a'[c] == 0
  }

  /** A bucket is drawn on only once every bucket before it is empty. */
  lemma ConsumesInOrder(a: Allocation, b: nat, quantity: nat)
    requires b < BUCKETS
    ensures var (a', rest) := Consume(a, Priority(b), quantity); EmptiedFirst(a, a', b)
  {
    hide Consume;
    var (a', rest) := Consume(a, Priority(b), quantity);
    forall c, d | 0 <= c < BUCKETS && 0 <= d < BUCKETS && TakenBefore(b, c, d) && a'[d] < a[d]
      ensures a'[c] == 0
    {
      DrawnAfter(a, Priority(b), quantity, if c == b then 0 else if c == 6 then 1 else c + 2, d);
    }
  }

  /** A bucket not among the first places of the list is drawn on only after those are empty. */
  lemma {:induction false} DrawnAfter(a: Allocation, order: seq<nat>, quantity: nat, n: nat, d: nat)
    requires (forall i :: 0 <= i < |order| ==> order[i] < BUCKETS) && n < |order| && d < BUCKETS
    requires forall i :: 0 <= i <= n ==> order[i] != d
    ensures var (a', rest) := Consume(a, order, quantity); a'[d] < a[d] ==> a'[order[n]] == 0
    decreases |order|
  {
    var b := order[0];
    var a1, rest1 := Deduct(a, b, quantity), quantity - Min(a[b], quantity);
    ConsumeAccounts(a1, order[1..], rest1);
    if n == 0 {
      var (a', rest) := Consume(a1, order[1..], rest1);
      assert Consume(a, order, quantity) == (a', rest);
      if rest1 == 0 {
        ConsumeNothing(a1, order[1..]);
      } else {
        assert a'[b] <= a1[b] == 0;
      }
    } else {
      DrawnAfter(a1, order[1..], rest1, n - 1, d);
    }
  }

  /**
   * The fill of a report that the target covers is taken from the order's own bucket first, then from the inactive
   * lots, then from the market bucket on; a market order draws on the market bucket.
   */
  lemma ReportConsumesInOrder(gw: Gateway, s: State, r: Report)
    requires Inv(gw, s) && Admissible(s, r)
    ensures var o, s' := s.orders[IndexOf(s.orders, r.id)], ProcessOrder(s, r).state;
            o.key in s'.targets ==>
              && o.key in s.targets && s'.targets[o.key].bid == s.targets[o.key].bid
              && EmptiedFirst(s.targets[o.key].allocation, s'.targets[o.key].allocation,
                              if o.aggressive then 0 else BucketOf(o, s.targets[o.key].bid))
  {
    hide Sum, Inv, Deliver, Consume, EmptiedFirst, Total;
    var i := IndexOf(s.orders, r.id);
    OthersFitInv(gw, s, i);
    ProcessDelivers(s, r);
    ProcessOrderKeeps(gw, s, r);
    DeliverTargets(s, i, r);
  }

  lemma DeliverTargets(s: State, i: nat, r: Report)
    requires i < |s.orders| && Known(s, s.orders[i].key)
    ensures var o, s' := s.orders[i], Deliver(s, i, r).state;
            o.key in s'.targets ==>
              && o.key in s.targets && s'.targets[o.key].bid == s.targets[o.key].bid
              && (Deliver(s, i, r).Done? ==>
                    EmptiedFirst(s.targets[o.key].allocation, s'.targets[o.key].allocation, Preferred(o, s.targets[o.key].bid)))
  {
    hide Sum, Consume, Priority, EmptiedFirst, Preferred, Complete, PauseParent;
    var o, b := s.orders[i], Fill(s, i, r).state;
    FillKnown(s, i, r);
    SettleTargets(b, o.key);
    if o.key in s.targets {
      var t := s.targets[o.key];
      PreferredIsBucket(o, t.bid);
      PreferredAlike(o, r, t.bid);
      ConsumesInOrder(t.allocation, Preferred(o, t.bid), Added(o, r));
      NothingEmptied(t.allocation, Preferred(o, t.bid));
    }
  }

  lemma PreferredAlike(o: Child, r: Report, bid: int)
    ensures Preferred(Absorb(o, r), bid) == Preferred(o, bid)
  {
  }

  lemma NothingEmptied(a: Allocation, b: nat)
    ensures EmptiedFirst(a, a, b)
  {
  }

  lemma SettleTargets(s: State, k: Key)
    requires Known(s, k)
    ensures k in PauseParent(s, k.parent).targets ==> k in s.targets && PauseParent(s, k.parent).targets[k] == s.targets[k]
    ensures k in Complete(s, k).targets ==> k in s.targets && Complete(s, k).targets[k] == s.targets[k]
  {
  }
}
