/** Algebra of the sums the coordinator takes over its child orders, tranches and target buckets. */
module CoordinatorSums {
  import opened Models
  import opened Coordinator

  lemma SumAppend(m: Measure, os: seq<Child>, o: Child)
    ensures Sum(m, os + [o]) == Sum(m, os) + Weight(m, o)
  {
    assert (os + [o])[..|os|] == os;
  }

  lemma {:induction false} SumUpdate(m: Measure, os: seq<Child>, i: nat, o: Child)
    requires i < |os|
    ensures Sum(m, os[i := o]) == Sum(m, os) - Weight(m, os[i]) + Weight(m, o)
  {
    var n := |os| - 1;
    if i == n {
      assert os[i := o][..n] == os[..n];
    } else {
      assert os[i := o][..n] == os[..n][i := o];
      SumUpdate(m, os[..n], i, o);
    }
  }

  /** Sums see only the weights. */
  lemma {:induction false} SumAlike(m: Measure, os: seq<Child>, m': Measure, os': seq<Child>)
    requires |os| == |os'| && forall i :: 0 <= i < |os| ==> Weight(m, os[i]) == Weight(m', os'[i])
    ensures Sum(m, os) == Sum(m', os')
  {
    if os == [] {
    } else {
      SumAlike(m, os[..|os| - 1], m', os'[..|os| - 1]);
    }
  }

  lemma {:induction false} SumAtMost(m: Measure, os: seq<Child>, m': Measure)
    requires forall i :: 0 <= i < |os| ==> Weight(m, os[i]) <= Weight(m', os[i])
    ensures Sum(m, os) <= Sum(m', os)
  {
    if os == [] {
    } else {
      SumAtMost(m, os[..|os| - 1], m');
    }
  }

  lemma {:induction false} SumMember(m: Measure, os: seq<Child>, i: nat)
    requires i < |os|
    ensures Weight(m, os[i]) <= Sum(m, os)
  {
    if i < |os| - 1 {
      SumMember(m, os[..|os| - 1], i);
    }
  }

  lemma {:induction false} SumZero(m: Measure, os: seq<Child>)
    requires forall i :: 0 <= i < |os| ==> Weight(m, os[i]) == 0
    ensures Sum(m, os) == 0
  {
    if os == [] {
    } else {
      SumZero(m, os[..|os| - 1]);
    }
  }

  lemma {:induction false} SumPrefix(m: Measure, os: seq<Child>, n: nat)
    requires n <= |os|
    ensures Sum(m, os[..n]) <= Sum(m, os)
  {
    if n < |os| {
      assert os[..|os| - 1][..n] == os[..n];
      SumPrefix(m, os[..|os| - 1], n);
    } else {
      assert os[..n] == os;
    }
  }

  /** Marking orders for cancellation changes no quantity. */
  predicate OnlyMarked(os: seq<Child>, os': seq<Child>) {
    && |os| == |os'|
    && forall i :: 0 <= i < |os| ==> os'[i] == os[i] || os'[i] == os[i].(cancelRequested := true)
  }

  lemma MarkedSum(m: Measure, os: seq<Child>, os': seq<Child>)
    requires OnlyMarked(os, os')
    ensures Sum(m, os) == Sum(m, os')
  {
    forall i | 0 <= i < |os|
      ensures Weight(m, os[i]) == Weight(m, os'[i])
    {
      assert os'[i] == os[i] || os'[i] == os[i].(cancelRequested := true);
    }
    SumAlike(m, os, m, os');
  }

  // ---------- buckets ----------

  function BucketSum(k: Key, bid: int, os: seq<Child>, n: nat): nat {
    if n == 0 then 0 else BucketSum(k, bid, os, n - 1) + Sum(LiveAt(k, n - 1, bid), os)
  }

  /** The seven buckets partition the live volume of a tranche. */
  lemma {:induction false} BucketsPartition(k: Key, bid: int, os: seq<Child>)
    ensures BucketSum(k, bid, os, BUCKETS) == Sum(LiveOf(k), os)
  {
    if os == [] {
      EmptyBuckets(k, bid, BUCKETS);
    } else {
      BucketsPartition(k, bid, os[..|os| - 1]);
      BucketsGrow(k, bid, os, BUCKETS);
    }
  }

  lemma {:induction false} EmptyBuckets(k: Key, bid: int, n: nat)
    ensures BucketSum(k, bid, [], n) == 0
  {
    if n == 0 {
    } else {
      EmptyBuckets(k, bid, n - 1);
    }
  }

  lemma {:induction false} BucketsGrow(k: Key, bid: int, os: seq<Child>, n: nat)
    requires os != []
    ensures var o := os[|os| - 1];
            BucketSum(k, bid, os, n) == BucketSum(k, bid, os[..|os| - 1], n)
                                      + if o.key == k && BucketOf(o, bid) < n then o.Leaves() else 0
  {
    if n == 0 {
    } else {
      BucketsGrow(k, bid, os, n - 1);
    }
  }

  // ---------- tranches of a parent ----------

  function Volumes(ts: seq<Tranche>): nat {
    if ts == [] then 0 else Volumes(ts[..|ts| - 1]) + ts[|ts| - 1].volume
  }

  function Traded(ts: seq<Tranche>): nat {
    if ts == [] then 0 else Traded(ts[..|ts| - 1]) + ts[|ts| - 1].traded
  }

  lemma {:induction false} TradedUpdate(ts: seq<Tranche>, i: nat, t: Tranche)
    requires i < |ts| && t.volume == ts[i].volume
    ensures Traded(ts[i := t]) == Traded(ts) - ts[i].traded + t.traded
    ensures Volumes(ts[i := t]) == Volumes(ts)
  {
    var n := |ts| - 1;
    if i == n {
      assert ts[i := t][..n] == ts[..n];
    } else {
      assert ts[i := t][..n] == ts[..n][i := t];
      TradedUpdate(ts[..n], i, t);
    }
  }

  predicate SameLots(ts: seq<Tranche>, ts': seq<Tranche>) {
    && |ts| == |ts'|
    && forall i :: 0 <= i < |ts| ==> ts[i].volume == ts'[i].volume && ts[i].traded == ts'[i].traded
  }

  lemma {:induction false} LotsAlike(ts: seq<Tranche>, ts': seq<Tranche>)
    requires SameLots(ts, ts')
    ensures Volumes(ts) == Volumes(ts') && Traded(ts) == Traded(ts')
  {
    if ts == [] {
    } else {
      LotsAlike(ts[..|ts| - 1], ts'[..|ts| - 1]);
    }
  }

  /** Live volume of the first n tranches of a parent. */
  function TrancheLive(p: ParentId, os: seq<Child>, n: nat): nat {
    if n == 0 then 0 else TrancheLive(p, os, n - 1) + Sum(LiveOf(Key(p, n - 1)), os)
  }

  lemma {:induction false} TrancheLiveGrow(p: ParentId, os: seq<Child>, n: nat)
    requires os != []
    ensures var o := os[|os| - 1];
            TrancheLive(p, os, n) == TrancheLive(p, os[..|os| - 1], n)
                                   + if o.key.parent == p && o.key.index < n then o.Leaves() else 0
  {
    if n == 0 {
    } else {
      TrancheLiveGrow(p, os, n - 1);
      assert os[|os| - 1].key == Key(os[|os| - 1].key.parent, os[|os| - 1].key.index);
    }
  }

  /** The live volume of a parent is that of its tranches together. */
  lemma {:induction false} TranchesPartition(p: ParentId, os: seq<Child>, n: nat)
    requires forall i :: 0 <= i < |os| ==> os[i].parent == os[i].key.parent && (os[i].parent == p ==> os[i].key.index < n)
    ensures TrancheLive(p, os, n) == Sum(ParentLive(p), os)
  {
    if os == [] {
      NoTrancheLive(p, n);
    } else {
      TrancheLiveGrow(p, os, n);
      TranchesPartition(p, os[..|os| - 1], n);
    }
  }

  lemma {:induction false} NoTrancheLive(p: ParentId, n: nat)
    ensures TrancheLive(p, [], n) == 0
  {
    if n == 0 {
    } else {
      NoTrancheLive(p, n - 1);
    }
  }

  function TrancheFilled(p: ParentId, os: seq<Child>, n: nat): nat {
    if n == 0 then 0 else TrancheFilled(p, os, n - 1) + Sum(FilledOf(Key(p, n - 1)), os)
  }

  lemma {:induction false} TrancheFilledGrow(p: ParentId, os: seq<Child>, n: nat)
    requires os != []
    ensures var o := os[|os| - 1];
            TrancheFilled(p, os, n) == TrancheFilled(p, os[..|os| - 1], n)
                                     + if o.key.parent == p && o.key.index < n then o.traded else 0
  {
    if n == 0 {
    } else {
      TrancheFilledGrow(p, os, n - 1);
      assert os[|os| - 1].key == Key(os[|os| - 1].key.parent, os[|os| - 1].key.index);
    }
  }

  lemma {:induction false} FillsPartition(p: ParentId, os: seq<Child>, n: nat)
    requires forall i :: 0 <= i < |os| ==> os[i].parent == os[i].key.parent && (os[i].parent == p ==> os[i].key.index < n)
    ensures TrancheFilled(p, os, n) == Sum(ParentFilled(p), os)
  {
    if os == [] {
      NoTrancheFilled(p, n);
    } else {
      TrancheFilledGrow(p, os, n);
      FillsPartition(p, os[..|os| - 1], n);
    }
  }

  lemma {:induction false} NoTrancheFilled(p: ParentId, n: nat)
    ensures TrancheFilled(p, [], n) == 0
  {
    if n == 0 {
    } else {
      NoTrancheFilled(p, n - 1);
    }
  }

  // ---------- consuming a fill ----------

  lemma {:induction false} TotalUpdate(a: seq<nat>, b: nat, x: nat)
    requires b < |a|
    ensures Total(a[b := x]) == Total(a) - a[b] + x
  {
    var n := |a| - 1;
    if b == n {
      assert a[b := x][..n] == a[..n];
    } else {
      assert a[b := x][..n] == a[..n][b := x];
      TotalUpdate(a[..n], b, x);
    }
  }

  lemma {:induction false} TotalZero(a: seq<nat>)
    requires forall i :: 0 <= i < |a| ==> a[i] == 0
    ensures Total(a) == 0
  {
    if a == [] {
    } else {
      TotalZero(a[..|a| - 1]);
    }
  }

  /** What is not consumed is left over only when every bucket visited is empty. */
  lemma {:induction false} ConsumeAccounts(a: Allocation, order: seq<nat>, quantity: nat)
    requires forall i :: 0 <= i < |order| ==> order[i] < BUCKETS
    ensures var (a', rest) := Consume(a, order, quantity);
            && rest <= quantity
            && Total(a') + quantity == Total(a) + rest
            && (forall b :: 0 <= b < BUCKETS ==> a'[b] <= a[b])
            && (rest > 0 ==> forall i :: 0 <= i < |order| ==> a'[order[i]] == 0)
    decreases |order|
  {
    if order == [] {
    } else {
      var b := order[0];
      TotalUpdate(a, b, a[b] - Min(a[b], quantity));
      ConsumeAccounts(Deduct(a, b, quantity), order[1..], quantity - Min(a[b], quantity));
      var (a', rest) := Consume(a, order, quantity);
      forall i | rest > 0 && 0 <= i < |order|
        ensures a'[order[i]] == 0
      {
        if i > 0 {
          assert order[i] == order[1..][i - 1];
        }
      }
    }
  }

  /** A fill no larger than the target is consumed entirely. */
  lemma ConsumeAll(a: Allocation, b: nat, quantity: nat)
    requires b < BUCKETS && quantity <= Total(a)
    ensures var (a', rest) := Consume(a, Priority(b), quantity);
            rest == 0 && Total(a') == Total(a) - quantity
  {
    hide Consume, Total, Priority;
    ConsumeAccounts(a, Priority(b), quantity);
    var (a', rest) := Consume(a, Priority(b), quantity);
    if rest > 0 {
      forall c | 0 <= c < BUCKETS
        ensures a'[c] == 0
      {
        PriorityVisits(b, c);
      }
      TotalZero(a');
    }
  }

  lemma PriorityVisits(b: nat, c: nat)
    requires b < BUCKETS && c < BUCKETS
    ensures |Priority(b)| == 8 && Priority(b)[if c == 6 then 1 else c + 2] == c
  {
  }

  /** A fill no larger than its own bucket is taken from that bucket alone. */
  lemma ConsumeOwnBucket(a: Allocation, b: nat, quantity: nat)
    requires b < BUCKETS && quantity <= a[b]
    ensures Consume(a, Priority(b), quantity) == (a[b := a[b] - quantity], 0)
  {
    ConsumeFirst(a, Priority(b), quantity);
  }

  lemma ConsumeFirst(a: Allocation, order: seq<nat>, quantity: nat)
    requires order != [] && forall i :: 0 <= i < |order| ==> order[i] < BUCKETS
    requires quantity <= a[order[0]]
    ensures Consume(a, order, quantity) == (a[order[0] := a[order[0]] - quantity], 0)
  {
    ConsumeNothing(Deduct(a, order[0], quantity), order[1..]);
  }

  lemma {:induction false} ConsumeNothing(a: Allocation, order: seq<nat>)
    requires forall i :: 0 <= i < |order| ==> order[i] < BUCKETS
    ensures Consume(a, order, 0) == (a, 0)
    decreases |order|
  {
    if order == [] {
    } else {
      assert Deduct(a, order[0], 0) == a;
      ConsumeNothing(a, order[1..]);
    }
  }
}
