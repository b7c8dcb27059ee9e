/**
 * The coordinator as the object it is: dictionaries updated in place by methods with loops. Every public method
 * is proved to do exactly what its function in module Coordinator says.
 */
module CoordinatorObject {
  import opened Wrappers
  import opened Models
  import opened Coordinator
  import opened CoordinatorSums

  /** Positions below n of the live orders of tranche k in bucket b, oldest first. */
  function Positions(os: seq<Child>, k: Key, t: Target, b: nat, n: nat): (r: seq<nat>)
    requires n <= |os|
    ensures forall j :: 0 <= j < |r| ==> r[j] < n
  {
    if n == 0 then []
    else
      var r := Positions(os, k, t, b, n - 1);
      if os[n - 1].key == k && os[n - 1].Leaves() > 0 && BucketOf(os[n - 1], t.bid) == b then r + [n - 1] else r
  }

  function LeavesAt(os: seq<Child>, positions: seq<nat>): nat
    requires forall j :: 0 <= j < |positions| ==> positions[j] < |os|
  {
    if positions == [] then 0
    else LeavesAt(os, positions[..|positions| - 1]) + os[positions[|positions| - 1]].Leaves()
  }

  lemma {:induction false} PositionsSum(os: seq<Child>, k: Key, t: Target, b: nat, n: nat)
    requires n <= |os|
    ensures LeavesAt(os, Positions(os, k, t, b, n)) == Sum(LiveAt(k, b, t.bid), os[..n])
  {
    if n == 0 {
    } else {
      PositionsSum(os, k, t, b, n - 1);
      assert os[..n][..n - 1] == os[..n - 1];
      var r := Positions(os, k, t, b, n - 1);
      assert (r + [n - 1])[..|r|] == r;
    }
  }

  lemma {:induction false} PositionsOrdered(os: seq<Child>, k: Key, t: Target, b: nat, n: nat)
    requires n <= |os|
    ensures var r := Positions(os, k, t, b, n);
            && (forall i, j :: 0 <= i < j < |r| ==> r[i] < r[j])
            && (forall i :: 0 <= i < n ==> (i in r <==> os[i].key == k && os[i].Leaves() > 0 && BucketOf(os[i], t.bid) == b))
  {
    if n == 0 {
    } else {
      PositionsOrdered(os, k, t, b, n - 1);
    }
  }

  /** The positions up to the j-th are those below its successor. */
  lemma {:induction false} PositionsPrefix(os: seq<Child>, k: Key, t: Target, b: nat, n: nat, j: nat)
    requires n <= |os| && j < |Positions(os, k, t, b, n)|
    ensures var r := Positions(os, k, t, b, n);
            r[..j + 1] == Positions(os, k, t, b, r[j] + 1)
  {
    var r, r' := Positions(os, k, t, b, n), Positions(os, k, t, b, n - 1);
    if j < |r'| {
      PositionsPrefix(os, k, t, b, n - 1, j);
      assert r[..j + 1] == r'[..j + 1];
    } else {
      assert r[..j + 1] == r;
    }
  }

  /** An order is in excess exactly when the live lots of its bucket up to it exceed the target. */
  lemma ExcessAt(os: seq<Child>, k: Key, t: Target, b: nat, j: nat)
    requires j < |Positions(os, k, t, b, |os|)|
    ensures var r := Positions(os, k, t, b, |os|);
            Excess(os, k, t, r[j]) <==> LeavesAt(os, r[..j + 1]) > Desired(t, b)
  {
    hide Sum, Positions, LeavesAt;
    var r := Positions(os, k, t, b, |os|);
    PositionsPrefix(os, k, t, b, |os|, j);
    PositionsSum(os, k, t, b, r[j] + 1);
    PositionsOrdered(os, k, t, b, |os|);
    assert r[j] in r;
  }

  lemma {:induction false} LeavesAtPrefix(os: seq<Child>, r: seq<nat>, j: nat)
    requires j <= |r| && forall i :: 0 <= i < |r| ==> r[i] < |os|
    ensures LeavesAt(os, r[..j]) <= LeavesAt(os, r)
  {
    if j < |r| {
      LeavesAtPrefix(os, r[..|r| - 1], j);
      assert r[..|r| - 1][..j] == r[..j];
    } else {
      assert r[..j] == r;
    }
  }

  lemma LeavesAtStep(os: seq<Child>, r: seq<nat>, j: nat)
    requires j < |r| && forall i :: 0 <= i < |r| ==> r[i] < |os|
    ensures LeavesAt(os, r[..j + 1]) == LeavesAt(os, r[..j]) + os[r[j]].Leaves()
  {
    assert r[..j + 1][..j] == r[..j];
  }

  lemma BucketTotal(os: seq<Child>, os': seq<Child>, k: Key, t: Target, b: nat)
    requires OnlyMarked(os, os')
    ensures Sum(LiveAt(k, b, t.bid), os') == LeavesAt(os, Positions(os, k, t, b, |os|))
  {
    MarkedSum(LiveAt(k, b, t.bid), os, os');
    PositionsSum(os, k, t, b, |os|);
    assert os[..|os|] == os;
  }

  /** Before position j everything fits, from j on everything is in excess. */
  lemma ExcessSuffix(os: seq<Child>, k: Key, t: Target, b: nat, j: nat, i: nat)
    requires j <= |Positions(os, k, t, b, |os|)| && i in Positions(os, k, t, b, |os|)
    requires var r := Positions(os, k, t, b, |os|);
             && (j > 0 ==> LeavesAt(os, r[..j]) <= Desired(t, b))
             && forall m :: j <= m < |r| ==> Excess(os, k, t, r[m])
    ensures i in Positions(os, k, t, b, |os|)[j..] <==> Excess(os, k, t, i)
  {
    hide Sum, Positions, LeavesAt, Excess;
    var r := Positions(os, k, t, b, |os|);
    PositionsOrdered(os, k, t, b, |os|);
    var m :| 0 <= m < |r| && r[m] == i;
    if m < j {
      ExcessAt(os, k, t, b, m);
      LeavesAtPrefix(os, r[..j], m + 1);
      assert r[..j][..m + 1] == r[..m + 1];
    } else {
      assert r[j..][m - j] == i;
    }
  }

  class ExecutionCoordinator {
    var parents: map<ParentId, Parent>
    var orders: seq<Child>
    var targets: map<Key, Target>
    var sent: seq<Request>
    const gateway: Gateway

    function View(): State
      reads this
    {
      State(parents, orders, targets, sent)
    }

    constructor (gateway: Gateway)
      ensures View() == State(map[], [], map[], []) && this.gateway == gateway
    {
      this.gateway := gateway;
      parents, orders, targets, sent := map[], [], map[], [];
    }

    method RegisterParent(p: ParentId, parent: Parent)
      modifies this`parents
      ensures View() == old(View()).(parents := old(parents)[p := parent])
    {
      parents := parents[p := parent];
    }

    method CancelOrder(i: nat)
      requires i < |orders|
      modifies this`orders
      ensures orders == old(orders)[i := Mark(old(orders)[i])]
    {
      if orders[i].Leaves() <= 0 || orders[i].cancelRequested {
        return;
      }
      orders := orders[i := orders[i].(cancelRequested := true)];
    }

    method CancelTrancheOrders(k: Key)
      modifies this`orders
      ensures orders == MarkTranche(old(orders), k)
    {
      for i := 0 to |orders|
        invariant |orders| == |old(orders)|
        invariant forall j :: 0 <= j < |orders| ==>
                    orders[j] == if j < i && old(orders)[j].key == k then Mark(old(orders)[j]) else old(orders)[j]
      {
        if orders[i].key == k {
          CancelOrder(i);
        }
      }
    }

    method PauseParent(p: ParentId)
      requires p in parents
      modifies this`parents, this`orders, this`targets
      ensures View() == Coordinator.PauseParent(old(View()), p)
    {
      ghost var s := View();
      if parents[p].status != Running && parents[p].status != ParentWaiting {
        return;
      }
      parents := parents[p := parents[p].(status := Paused)];
      for i := 0 to |parents[p].tranches|
        invariant p in parents && |parents[p].tranches| == |s.parents[p].tranches|
        invariant parents == s.parents[p := s.parents[p].(status := Paused, tranches := parents[p].tranches)]
        invariant forall j :: 0 <= j < |parents[p].tranches| ==>
                    parents[p].tranches[j] == if j < i then PauseTranche(s.parents[p].tranches[j]) else s.parents[p].tranches[j]
        invariant targets == DropTargets(s.targets, p, i)
        invariant orders == MarkTranches(s.orders, p, i)
      {
        var tranche := parents[p].tranches[i];
        if tranche.status == Active {
          parents := parents[p := parents[p].(tranches := parents[p].tranches[i := tranche.(status := Closing)])];
        }
        targets := targets - {Key(p, i)};
        CancelTrancheOrders(Key(p, i));
        MarkNextTranche(s.orders, p, i);
        DropNextTarget(s.targets, p, i);
      }
      assert parents[p].tranches == Coordinator.PauseParent(s, p).parents[p].tranches;
    }

    method CancelParent(p: ParentId)
      requires p in parents
      modifies this`parents, this`orders, this`targets
      ensures View() == Coordinator.CancelParent(old(View()), p)
    {
      ghost var s := View();
      if parents[p].status == ParentCompleted || parents[p].status == ParentCancelled {
        return;
      }
      parents := parents[p := parents[p].(status := ParentCancelled)];
      for i := 0 to |parents[p].tranches|
        invariant p in parents && |parents[p].tranches| == |s.parents[p].tranches|
        invariant parents == s.parents[p := s.parents[p].(status := ParentCancelled, tranches := parents[p].tranches)]
        invariant forall j :: 0 <= j < |parents[p].tranches| ==>
                    parents[p].tranches[j] == if j < i then CancelTranche(s.parents[p].tranches[j]) else s.parents[p].tranches[j]
        invariant targets == DropTargets(s.targets, p, i)
        invariant orders == MarkTranches(s.orders, p, i)
      {
        targets := targets - {Key(p, i)};
        CancelTrancheOrders(Key(p, i));
        var tranche := parents[p].tranches[i];
        if tranche.status != Completed && tranche.status != Error {
          parents := parents[p := parents[p].(tranches := parents[p].tranches[i := tranche.(status := Cancelled)])];
        }
        MarkNextTranche(s.orders, p, i);
        DropNextTarget(s.targets, p, i);
      }
      assert parents[p].tranches == Coordinator.CancelParent(s, p).parents[p].tranches;
    }

    static lemma MarkNextTranche(os: seq<Child>, p: ParentId, i: nat)
      ensures MarkTranche(MarkTranches(os, p, i), Key(p, i)) == MarkTranches(os, p, i + 1)
    {
      var a, b := MarkTranche(MarkTranches(os, p, i), Key(p, i)), MarkTranches(os, p, i + 1);
      forall j | 0 <= j < |os|
        ensures a[j] == b[j]
      {
        assert os[j].key == Key(os[j].key.parent, os[j].key.index);
      }
    }

    static lemma DropNextTarget(ts: map<Key, Target>, p: ParentId, i: nat)
      ensures DropTargets(ts, p, i) - {Key(p, i)} == DropTargets(ts, p, i + 1)
    {
      forall k | k in ts
        ensures k in DropTargets(ts, p, i) - {Key(p, i)} <==> k in DropTargets(ts, p, i + 1)
      {
        assert k == Key(k.parent, k.index);
      }
    }

    method ResumeParent(p: ParentId) returns (failure: Option<Failure>)
      requires p in parents
      modifies this`parents
      ensures var r := Coordinator.ResumeParent(old(View()), p);
              View() == r.state && failure == if r.Raised? then Some(r.error) else None
    {
      ghost var s := View();
      if parents[p].status != Paused {
        return Some(NotPaused);
      }
      if Sum(ParentLive(p), orders) > 0 {
        return Some(ChildrenLive);
      }
      parents := parents[p := parents[p].(status := Running)];
      for i := 0 to |parents[p].tranches|
        invariant p in parents && |parents[p].tranches| == |s.parents[p].tranches|
        invariant parents == s.parents[p := s.parents[p].(status := Running, tranches := parents[p].tranches)]
        invariant forall j :: 0 <= j < |parents[p].tranches| ==>
                    parents[p].tranches[j] == if j < i then ResumeTranche(s.parents[p].tranches[j]) else s.parents[p].tranches[j]
      {
        var tranche := parents[p].tranches[i];
        if tranche.status == Closing && tranche.Remaining() > 0 {
          parents := parents[p := parents[p].(tranches := parents[p].tranches[i := tranche.(status := Waiting)])];
        }
      }
      assert parents[p].tranches == Coordinator.ResumeParent(s, p).state.parents[p].tranches;
      return None;
    }

    method SendOrder(r: Request)
      requires r.key.parent in parents
      modifies this
      ensures View() == Send(gateway, old(View()), r)
    {
      if r.quantity <= 0 {
        return;
      }
      var id := gateway(|sent|);
      sent := sent + [r];
      if id == "" {
        PauseParent(r.key.parent);
        return;
      }
      var record := IndexOf(orders, id);
      if record == |orders| {
        orders := orders + [Child(id, r.key.parent, r.key, r.price, r.quantity, r.level, r.aggressive, 0, Submitting, false)];
      }
    }

    /** assert_hard_limits. */
    method AssertHardLimits(p: ParentId) returns (raised: bool)
      requires p in parents
      ensures !raised <==> WithinLimits(View(), p)
    {
      var potential := Sum(ParentLive(p), orders);
      if parents[p].traded + potential > parents[p].total {
        return true;
      }
      for i := 0 to |parents[p].tranches|
        invariant forall j :: 0 <= j < i ==>
                    parents[p].tranches[j].traded + Sum(LiveOf(Key(p, j)), orders) <= parents[p].tranches[j].volume
      {
        var tranche := parents[p].tranches[i];
        if tranche.traded + Sum(LiveOf(Key(p, i)), orders) > tranche.volume {
          return true;
        }
      }
      return false;
    }

    /** Sort the live orders of a tranche into buckets: 0 aggressive, 1 to 5 by level, 6 outside. */
    method Classify(k: Key, t: Target) returns (active: seq<seq<nat>>)
      ensures |active| == BUCKETS
      ensures forall b :: 0 <= b < BUCKETS ==> active[b] == Positions(orders, k, t, b, |orders|)
    {
      active := [[], [], [], [], [], [], []];
      for i := 0 to |orders|
        invariant |active| == BUCKETS
        invariant forall b :: 0 <= b < BUCKETS ==> active[b] == Positions(orders, k, t, b, i)
      {
        if orders[i].key == k && orders[i].Leaves() > 0 {
          var b := BucketOf(orders[i], t.bid);
          active := active[b := active[b] + [i]];
        }
      }
    }

    /** Cancel the newest orders of bucket b until the rest fits; only the cancel flags of the list change. */
    method CancelExcess(k: Key, t: Target, b: nat, list: seq<nat>, ghost os: seq<Child>)
      requires b < BUCKETS && OnlyMarked(os, orders) && list == Positions(os, k, t, b, |os|)
      requires forall i :: 0 <= i < |os| && i in list ==> orders[i] == os[i]
      modifies this`orders
      ensures |orders| == |old(orders)|
      ensures forall i :: 0 <= i < |orders| ==>
                orders[i] == if i in list && Excess(os, k, t, i) then Mark(os[i]) else old(orders)[i]
    {
      hide Sum, Positions, LeavesAt, Excess;
      PositionsOrdered(os, k, t, b, |os|);
      BucketTotal(os, orders, k, t, b);
      var current := Sum(LiveAt(k, b, t.bid), orders);
      assert list[..|list|] == list;
      var j := |list|;
      while j > 0 && current > Desired(t, b)
        invariant 0 <= j <= |list| && |orders| == |os|
        invariant current == LeavesAt(os, list[..j])
        invariant forall m :: j <= m < |list| ==> Excess(os, k, t, list[m])
        invariant forall i :: 0 <= i < |orders| ==> orders[i] == if i in list[j..] then Mark(os[i]) else old(orders)[i]
      {
        j := j - 1;
        ExcessAt(os, k, t, b, j);
        LeavesAtStep(os, list, j);
        assert list[j..] == [list[j]] + list[j + 1..];
        assert list[j] in list && list[j] !in list[j + 1..];
        CancelOrder(list[j]);
        current := current - orders[list[j]].Leaves();
      }
      forall i | 0 <= i < |orders| && i in list
        ensures i in list[j..] <==> Excess(os, k, t, i)
      {
        ExcessSuffix(os, k, t, b, j, i);
      }
    }

    /** The cancelling half of _reconcile: outside orders first, then the market bucket, then level by level. */
    method CancelAllExcess(k: Key, t: Target)
      modifies this`orders
      ensures orders == MarkExcess(old(orders), k, t)
    {
      var active := Classify(k, t);
      ghost var os := orders;
      CancelExcess(k, t, INACTIVE, active[INACTIVE], os);
      PositionsOrdered(os, k, t, INACTIVE, |os|);
      for b := 0 to INACTIVE
        invariant OnlyMarked(os, orders)
        invariant forall i :: 0 <= i < |os| ==>
                    orders[i] == if Excess(os, k, t, i) && (BucketOf(os[i], t.bid) < b || BucketOf(os[i], t.bid) == INACTIVE)
                                 then Mark(os[i]) else os[i]
      {
        PositionsOrdered(os, k, t, b, |os|);
        CancelExcess(k, t, b, active[b], os);
      }
    }

    method CancelPending(k: Key) returns (pending: bool)
      ensures pending == Pending(orders, k)
    {
      for i := 0 to |orders|
        invariant forall j :: 0 <= j < i ==> !(orders[j].key == k && orders[j].Waits())
      {
        if orders[i].key == k && orders[i].Waits() {
          return true;
        }
      }
      return false;
    }

    method Reconcile(k: Key) returns (raised: bool)
      requires Known(View(), k)
      modifies this
      ensures var r := Coordinator.Reconcile(gateway, old(View()), k);
              View() == r.state && raised == r.Raised?
    {
      if k !in targets || parents[k.parent].status != Running {
        return false;
      }
      var target := targets[k];
      CancelAllExcess(k, target);
      var pending := CancelPending(k);
      ghost var s := View();
      if !pending {
        for b := 0 to INACTIVE
          invariant Known(View(), k) && Known(s, k)
          invariant SendDeficits(gateway, View(), k, target, b) == SendDeficits(gateway, s, k, target, 0)
        {
          var r := Deficit(View(), k, target, b);
          SendOrder(r);
        }
      }
      raised := AssertHardLimits(k.parent);
    }

    method ApplyIntent(k: Key, intent: seq<real>, bid: int) returns (allocation: Allocation, raised: bool)
      requires Known(View(), k) && Fractions(intent)
      modifies this
      ensures var r := Coordinator.ApplyIntent(gateway, old(View()), k, intent, bid);
              View() == r.state && raised == r.Raised?
      ensures allocation == TargetQuantities(intent, TrancheOf(old(View()), k).Remaining())
    {
      allocation := ComputeTargets(intent, parents[k.parent].tranches[k.index].Remaining());
      targets := targets[k := Target(allocation, bid)];
      raised := Reconcile(k);
    }

    method ReconcilePending(k: Key, bid: int) returns (raised: bool)
      requires Known(View(), k)
      modifies this
      ensures var r := Coordinator.ReconcilePending(gateway, old(View()), k, bid);
              View() == r.state && raised == r.Raised?
    {
      if k !in targets || parents[k.parent].tranches[k.index].status != Active {
        return false;
      }
      targets := targets[k := targets[k].(bid := bid)];
      raised := Reconcile(k);
    }

    method SetStatus(k: Key, status: TrancheStatus)
      requires Known(View(), k)
      modifies this`parents
      ensures View() == SetTranche(old(View()), k, TrancheOf(old(View()), k).(status := status))
    {
      var parent := parents[k.parent];
      var tranche := parent.tranches[k.index].(status := status);
      parents := parents[k.parent := parent.(tranches := parent.tranches[k.index := tranche])];
    }

    method FinishClosingTranche(k: Key, bid: int)
      requires Known(View(), k)
      modifies this
      ensures View() == FinishClosing(gateway, old(View()), k, bid)
    {
      var tranche := parents[k.parent].tranches[k.index];
      if tranche.Remaining() <= 0 {
        SetStatus(k, Completed);
        return;
      }
      if Sum(LiveOf(k), orders) > 0 {
        for i := 0 to |orders|
          invariant View() == old(View()).(orders := orders) && |orders| == |old(orders)|
          invariant forall j :: 0 <= j < |orders| ==>
                      orders[j] == if j < i then MarkOffBid(old(orders), k, bid)[j] else old(orders)[j]
        {
          if orders[i].key == k && (!orders[i].aggressive || orders[i].price != bid) {
            CancelOrder(i);
          }
        }
        assert orders == MarkOffBid(old(orders), k, bid);
        return;
      }
      var quantity := Min(tranche.Remaining(), Available(View(), k));
      SendOrder(Request(k, quantity, bid, 0, true));
    }

    method BeginTrancheClose(k: Key, bid: int)
      requires Known(View(), k)
      modifies this
      ensures View() == BeginClose(gateway, old(View()), k, bid)
    {
      var status := parents[k.parent].tranches[k.index].status;
      if status == Completed || status == Cancelled || status == Error {
        return;
      }
      if status == Closing {
        FinishClosingTranche(k, bid);
        return;
      }
      SetStatus(k, Closing);
      targets := targets - {k};
      CancelTrancheOrders(k);
      FinishClosingTranche(k, bid);
    }

    method ContinueTrancheClose(k: Key, bid: int)
      requires Known(View(), k)
      modifies this
      ensures View() == ContinueClose(gateway, old(View()), k, bid)
    {
      if parents[k.parent].tranches[k.index].status == Closing {
        FinishClosingTranche(k, bid);
      }
    }

    /** The loop of _consume_target_fill. The preferred bucket is visited once, as dict.fromkeys leaves it. */
    method ConsumeBuckets(allocation: Allocation, priority: seq<nat>, quantity: nat) returns (quantities: Allocation, remaining: nat)
      requires priority != [] && forall i :: 0 <= i < |priority| ==> priority[i] < BUCKETS
      ensures (quantities, remaining) == Consume(allocation, priority, quantity)
    {
      hide Consume;
      quantities, remaining := allocation, quantity;
      var n: nat := 0;
      while n < |priority|
        invariant 0 <= n <= |priority|
        invariant n > 0 ==> remaining == 0 || quantities[priority[0]] == 0
        invariant Consume(quantities, priority[n..], remaining) == Consume(allocation, priority, quantity)
      {
        ConsumeStep(quantities, priority, n, remaining);
        var index := priority[n];
        if n == 0 || index != priority[0] {
          var consumed := Min(quantities[index], remaining);
          quantities := quantities[index := quantities[index] - consumed];
          remaining := remaining - consumed;
        } else {
          assert Deduct(quantities, index, remaining) == quantities;
        }
        n := n + 1;
        if remaining == 0 {
          break;
        }
      }
      ConsumeEnd(quantities, priority, n, remaining);
    }

    static lemma ConsumeStep(a: Allocation, order: seq<nat>, n: nat, quantity: nat)
      requires n < |order| && forall i :: 0 <= i < |order| ==> order[i] < BUCKETS
      ensures Consume(a, order[n..], quantity)
           == Consume(Deduct(a, order[n], quantity), order[n + 1..], quantity - Min(a[order[n]], quantity))
    {
      assert order[n..][1..] == order[n + 1..];
    }

    static lemma ConsumeEnd(a: Allocation, order: seq<nat>, n: nat, quantity: nat)
      requires n <= |order| && forall i :: 0 <= i < |order| ==> order[i] < BUCKETS
      requires n == |order| || quantity == 0
      ensures Consume(a, order[n..], quantity) == (a, quantity)
    {
      if quantity == 0 {
        ConsumeNothing(a, order[n..]);
      }
    }

    /** _consume_target_fill. */
    method ConsumeTargetFill(o: Child, quantity: nat) returns (raised: bool)
      modifies this`targets
      ensures var r := ConsumeFill(old(View()), o, quantity);
              View() == r.state && raised == r.Raised?
    {
      hide Consume, Priority;
      if o.key !in targets || quantity <= 0 {
        return false;
      }
      var target := targets[o.key];
      var priority := Priority(Preferred(o, target.bid));
      var quantities, remaining := ConsumeBuckets(target.allocation, priority, quantity);
      if remaining > 0 {
        return true;
      }
      targets := targets[o.key := target.(allocation := quantities)];
      return false;
    }

    method ProcessOrder(r: Report) returns (raised: bool)
      modifies this
      ensures var x := Coordinator.ProcessOrder(old(View()), r);
              View() == x.state && raised == x.Raised?
    {
      var i := IndexOf(orders, r.id);
      if i == |orders| {
        AdoptOrder(r);
        i := IndexOf(orders, r.id);
      }
      if i == |orders| {
        return false;
      }
      var o := orders[i];
      if o.parent !in parents {
        return false;
      }
      if o.key.parent != o.parent || !Known(View(), o.key) {
        return true;
      }
      raised := DeliverReport(i, r);
    }

    method AdoptOrder(r: Report)
      modifies this`orders
      ensures View() == Adopt(old(View()), r)
    {
      if !r.reference.Algorithm? || r.reference.parent !in parents {
        return;
      }
      var level := r.reference.level;
      orders := orders + [Child(r.id, r.reference.parent, r.reference.key, r.price, r.volume, level, level == 0, 0, r.status, false)];
    }

    method BookFill(o: Child, delta: nat) returns (raised: bool)
      requires Known(View(), o.key)
      modifies this`parents, this`targets
      ensures var x := Book(old(View()), o, delta);
              View() == x.state && raised == x.Raised?
    {
      if delta == 0 {
        return false;
      }
      var p, k := parents[o.key.parent], o.key;
      var t := p.tranches[k.index];
      var tranches := p.tranches[k.index := t.(traded := Min(t.traded + delta, t.volume))];
      parents := parents[k.parent := p.(traded := Min(p.traded + delta, p.total), tranches := tranches)];
      raised := ConsumeTargetFill(o, delta);
    }

    method DeliverReport(i: nat, r: Report) returns (raised: bool)
      requires i < |orders| && Known(View(), orders[i].key)
      modifies this
      ensures var x := Deliver(old(View()), i, r);
              View() == x.state && raised == x.Raised?
    {
      hide Consume, Priority, Sum, Complete, Coordinator.PauseParent, IsFinal;
      var o := orders[i];
      var delta := if r.traded > o.traded then r.traded - o.traded else 0;
      var accepted := !(IsFinal(o.status) && r.status != o.status);
      orders := orders[i := o.(traded := Max(o.traded, r.traded), status := if accepted then r.status else o.status)];
      raised := BookFill(orders[i], delta);
      if raised {
        return true;
      }
      if accepted && r.status == OrderCancelled && !o.cancelRequested {
        PauseParent(o.key.parent);
        return false;
      }
      if accepted && r.status == Rejected {
        PauseParent(o.key.parent);
        return false;
      }
      CompleteIfFilled(o.key);
    }

    method CompleteIfFilled(k: Key)
      requires Known(View(), k)
      modifies this
      ensures View() == Complete(old(View()), k)
    {
      if parents[k.parent].tranches[k.index].Remaining() == 0 {
        SetStatus(k, Completed);
        targets := targets - {k};
        CancelTrancheOrders(k);
      }
      if parents[k.parent].Remaining() == 0 {
        parents := parents[k.parent := parents[k.parent].(status := ParentCompleted)];
      }
    }
  }
}
