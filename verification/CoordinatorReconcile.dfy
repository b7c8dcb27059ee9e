/** Reconciliation converges exactly, repeats silently, and never refills what was executed. */
module CoordinatorReconcile {
  import opened Models
  import opened Coordinator
  import opened CoordinatorSums
  import opened CoordinatorSafety

  function LiveIn(os: seq<Child>, k: Key, t: Target, b: nat): nat {
    Sum(LiveAt(k, b, t.bid), os)
  }

  /** Live quantity equals the target in the market bucket and the five levels, and nothing is live elsewhere. */
  predicate Converged(os: seq<Child>, k: Key, t: Target) {
    forall b :: 0 <= b < BUCKETS ==> LiveIn(os, k, t, b) == Desired(t, b)
  }

  predicate Fits(os: seq<Child>, k: Key, t: Target) {
    forall b :: 0 <= b < BUCKETS ==> LiveIn(os, k, t, b) <= Desired(t, b)
  }

  // ---------- which orders are cancelled ----------

  /** The cancelling half finds an order to cancel exactly when some bucket holds more than its target. */
  lemma ExcessIffOverfull(os: seq<Child>, k: Key, t: Target)
    ensures (forall i :: 0 <= i < |os| ==> !Excess(os, k, t, i)) <==> Fits(os, k, t)
  {
    if forall i :: 0 <= i < |os| ==> !Excess(os, k, t, i) {
      forall b | 0 <= b < BUCKETS
        ensures LiveIn(os, k, t, b) <= Desired(t, b)
      {
        NoExcessFits(os, k, t, b, |os|);
        assert os[..|os|] == os;
      }
    }
    if Fits(os, k, t) {
      forall i | 0 <= i < |os|
        ensures !Excess(os, k, t, i)
      {
        var b := BucketOf(os[i], t.bid);
        SumPrefix(LiveAt(k, b, t.bid), os, i + 1);
        assert LiveIn(os, k, t, b) <= Desired(t, b);
      }
    }
  }

  lemma {:induction false} NoExcessFits(os: seq<Child>, k: Key, t: Target, b: nat, n: nat)
    requires n <= |os| && b < BUCKETS
    requires forall i :: 0 <= i < |os| ==> !Excess(os, k, t, i)
    ensures Sum(LiveAt(k, b, t.bid), os[..n]) <= Desired(t, b)
  {
    if n == 0 {
    } else {
      NoExcessFits(os, k, t, b, n - 1);
      assert os[..n][..n - 1] == os[..n - 1];
      assert !Excess(os, k, t, n - 1);
    }
  }

  /** The kept orders are the oldest that fit: what is not marked of a bucket never exceeds its target. */
  lemma KeptFits(os: seq<Child>, k: Key, t: Target, b: nat)
    requires b < BUCKETS
    ensures Kept(os, k, t, b, |os|) <= Desired(t, b)
  {
    KeptPrefix(os, k, t, b, |os|);
  }

  /** Live volume of bucket b among the first n orders that reconciliation does not cancel. */
  function Kept(os: seq<Child>, k: Key, t: Target, b: nat, n: nat): nat
    requires n <= |os|
  {
    if n == 0 then 0
    else Kept(os, k, t, b, n - 1) + if Excess(os, k, t, n - 1) then 0 else Weight(LiveAt(k, b, t.bid), os[n - 1])
  }

  lemma {:induction false} KeptPrefix(os: seq<Child>, k: Key, t: Target, b: nat, n: nat)
    requires b < BUCKETS && n <= |os|
    ensures Kept(os, k, t, b, n) <= Desired(t, b)
    ensures Kept(os, k, t, b, n) <= Sum(LiveAt(k, b, t.bid), os[..n])
  {
    if n == 0 {
    } else {
      KeptPrefix(os, k, t, b, n - 1);
      assert os[..n][..n - 1] == os[..n - 1];
    }
  }

  /** No cancel outstanding after the first half means that there was nothing to cancel. */
  lemma NotPendingFits(os: seq<Child>, k: Key, t: Target)
    requires !Pending(MarkExcess(os, k, t), k)
    ensures MarkExcess(os, k, t) == os && Fits(os, k, t)
  {
    var ms := MarkExcess(os, k, t);
    forall i | 0 <= i < |os|
      ensures !Excess(os, k, t, i)
    {
      assert Excess(os, k, t, i) ==> ms[i].key == k && ms[i].Waits();
    }
    ExcessIffOverfull(os, k, t);
  }

  // ---------- what is sent ----------

  /** The requests for the buckets from b on that hold too little, in bucket order. */
  function Wanted(os: seq<Child>, k: Key, t: Target, b: nat): seq<Request>
    requires b <= INACTIVE
    decreases INACTIVE - b
  {
    if b == INACTIVE then []
    else if LiveIn(os, k, t, b) >= Desired(t, b) then Wanted(os, k, t, b + 1)
    else [Request(k, Desired(t, b) - LiveIn(os, k, t, b), t.bid + b, b, b == 0)] + Wanted(os, k, t, b + 1)
  }

  function MissingFrom(os: seq<Child>, k: Key, t: Target, b: nat): int
    requires b <= INACTIVE
    decreases INACTIVE - b
  {
    if b == INACTIVE then 0 else Desired(t, b) - LiveIn(os, k, t, b) + MissingFrom(os, k, t, b + 1)
  }

  lemma {:induction false} MissingIs(os: seq<Child>, k: Key, t: Target, b: nat)
    requires b <= INACTIVE
    ensures MissingFrom(os, k, t, b) == Total(t.allocation[..INACTIVE]) - Total(t.allocation[..b])
                                        - BucketSum(k, t.bid, os, INACTIVE) + BucketSum(k, t.bid, os, b)
    decreases INACTIVE - b
  {
    if b == INACTIVE {
    } else {
      MissingIs(os, k, t, b + 1);
      TotalPrefix(t.allocation, b + 1);
    }
  }

  lemma {:induction false} MissingNonNegative(os: seq<Child>, k: Key, t: Target, b: nat)
    requires b <= INACTIVE && Fits(os, k, t)
    ensures 0 <= MissingFrom(os, k, t, b)
    decreases INACTIVE - b
  {
    if b == INACTIVE {
    } else {
      assert LiveIn(os, k, t, b) <= Desired(t, b);
      MissingNonNegative(os, k, t, b + 1);
    }
  }

  lemma {:induction false} AlikeFrom(os: seq<Child>, os': seq<Child>, k: Key, t: Target, b: nat)
    requires b <= INACTIVE
    requires forall c :: b <= c < INACTIVE ==> LiveIn(os', k, t, c) == LiveIn(os, k, t, c)
    ensures Wanted(os', k, t, b) == Wanted(os, k, t, b) && MissingFrom(os', k, t, b) == MissingFrom(os, k, t, b)
    decreases INACTIVE - b
  {
    if b == INACTIVE {
    } else {
      AlikeFrom(os, os', k, t, b + 1);
    }
  }

  /** One answered request fills its own bucket and no other; a refused one changes no bucket. */
  lemma SendFillsBucket(gw: Gateway, s: State, k: Key, t: Target, b: nat, q: nat)
    requires Inv(gw, s) && FreshIds(gw) && Known(s, k) && b < INACTIVE && 0 < q
    ensures var s' := Send(gw, s, Request(k, q, t.bid + b, b, b == 0));
            && s'.sent == s.sent + [Request(k, q, t.bid + b, b, b == 0)]
            && (forall c :: 0 <= c < BUCKETS && c != b ==> LiveIn(s'.orders, k, t, c) == LiveIn(s.orders, k, t, c))
            && LiveIn(s'.orders, k, t, b) == LiveIn(s.orders, k, t, b) + (if gw(|s.sent|) == "" then 0 else q)
            && Sum(LiveOf(k), s'.orders) == Sum(LiveOf(k), s.orders) + (if gw(|s.sent|) == "" then 0 else q)
            && TrancheOf(s', k).volume == TrancheOf(s, k).volume && TrancheOf(s', k).traded == TrancheOf(s, k).traded
  {
    hide Sum;
    var r := Request(k, q, t.bid + b, b, b == 0);
    var s' := Send(gw, s, r);
    if gw(|s.sent|) == "" {
      MarkedSum(LiveOf(k), s.orders, s'.orders);
      forall c | 0 <= c < BUCKETS
        ensures LiveIn(s'.orders, k, t, c) == LiveIn(s.orders, k, t, c)
      {
        MarkedSum(LiveAt(k, c, t.bid), s.orders, s'.orders);
      }
    } else {
      NewId(gw, s, gw(|s.sent|));
      var o := Child(gw(|s.sent|), k.parent, k, r.price, q, b, b == 0, 0, Submitting, false);
      assert s'.orders == s.orders + [o];
      SumAppend(LiveOf(k), s.orders, o);
      forall c | 0 <= c < BUCKETS
        ensures LiveIn(s'.orders, k, t, c) == LiveIn(s.orders, k, t, c) + if c == b then q else 0
      {
        SumAppend(LiveAt(k, c, t.bid), s.orders, o);
      }
    }
  }

  ghost predicate AllAnswered(gw: Gateway, from: nat, to: nat) {
    forall i: nat :: from <= i < to ==> gw(i) != ""
  }

  /** What the sending half did from bucket b on. */
  ghost predicate SentExactly(gw: Gateway, s: State, s': State, k: Key, t: Target, b: nat)
    requires b <= INACTIVE
  {
    && s'.sent == s.sent + Wanted(s.orders, k, t, b)
    && (forall c :: 0 <= c < b || c == INACTIVE ==> LiveIn(s'.orders, k, t, c) == LiveIn(s.orders, k, t, c))
    && (forall c :: b <= c < INACTIVE ==> LiveIn(s'.orders, k, t, c) <= Desired(t, c))
    && (AllAnswered(gw, |s.sent|, |s'.sent|) <==> forall c :: b <= c < INACTIVE ==> LiveIn(s'.orders, k, t, c) == Desired(t, c))
  }

  /** The available lots never cut a request. */
  lemma DeficitExact(gw: Gateway, s: State, k: Key, t: Target, b: nat)
    requires Inv(gw, s) && Known(s, k) && b < INACTIVE
    requires Fits(s.orders, k, t)
    requires MissingFrom(s.orders, k, t, b) <= TrancheOf(s, k).volume - TrancheOf(s, k).traded - Sum(LiveOf(k), s.orders)
    ensures LiveIn(s.orders, k, t, b) <= Desired(t, b)
    ensures Deficit(s, k, t, b) == Request(k, Desired(t, b) - LiveIn(s.orders, k, t, b), t.bid + b, b, b == 0)
  {
    ParentSlack(gw, s, k);
    MissingNonNegative(s.orders, k, t, b + 1);
    assert LiveIn(s.orders, k, t, b) <= Desired(t, b);
  }

  lemma SendDeficitOne(gw: Gateway, s: State, k: Key, t: Target, b: nat)
    requires Inv(gw, s) && FreshIds(gw) && Known(s, k) && b < INACTIVE
    requires Fits(s.orders, k, t)
    requires MissingFrom(s.orders, k, t, b) <= TrancheOf(s, k).volume - TrancheOf(s, k).traded - Sum(LiveOf(k), s.orders)
    ensures var s1 := Send(gw, s, Deficit(s, k, t, b));
            && SentOne(gw, s, s1, k, t, b)
            && Fits(s1.orders, k, t)
            && MissingFrom(s1.orders, k, t, b + 1) <= TrancheOf(s1, k).volume - TrancheOf(s1, k).traded - Sum(LiveOf(k), s1.orders)
            && Wanted(s1.orders, k, t, b + 1) == Wanted(s.orders, k, t, b + 1)
  {
    hide Send, Deficit, Sum, Inv, Fits;
    DeficitExact(gw, s, k, t, b);
    var q := Desired(t, b) - LiveIn(s.orders, k, t, b);
    if q > 0 {
      SendFillsBucket(gw, s, k, t, b, q);
    } else {
      NothingSent(gw, s, k, t, b);
    }
    var s1 := Send(gw, s, Deficit(s, k, t, b));
    AlikeFrom(s.orders, s1.orders, k, t, b + 1);
    StillFits(s, s1, k, t, b);
  }

  /** The requests do not depend on how the gateway answers. */
  lemma {:induction false} SendDeficitsExact(gw: Gateway, s: State, k: Key, t: Target, b: nat)
    requires Inv(gw, s) && FreshIds(gw) && Known(s, k) && b <= INACTIVE && TrancheOf(s, k).status != Waiting
    requires Fits(s.orders, k, t)
    requires MissingFrom(s.orders, k, t, b) <= TrancheOf(s, k).volume - TrancheOf(s, k).traded - Sum(LiveOf(k), s.orders)
    ensures SentExactly(gw, s, SendDeficits(gw, s, k, t, b), k, t, b)
    decreases INACTIVE - b
  {
    hide Send, Deficit, Sum, Fits, Inv, LiveIn, Desired;
    if b == INACTIVE {
    } else {
      var r := Deficit(s, k, t, b);
      DeficitFits(s, k, t, b);
      var s1 := Send(gw, s, r);
      SendDeficitOne(gw, s, k, t, b);
      SendKeeps(gw, s, r);
      SendLeavesWaiting(gw, s, r, k);
      SendDeficitsExact(gw, s1, k, t, b + 1);
      ExactStep(gw, s, s1, SendDeficits(gw, s1, k, t, b + 1), k, t, b);
    }
  }

  lemma StillFits(s: State, s1: State, k: Key, t: Target, b: nat)
    requires Fits(s.orders, k, t) && b < INACTIVE
    requires forall c :: 0 <= c < BUCKETS && c != b ==> LiveIn(s1.orders, k, t, c) == LiveIn(s.orders, k, t, c)
    requires LiveIn(s1.orders, k, t, b) <= Desired(t, b)
    ensures Fits(s1.orders, k, t)
  {
    forall c | 0 <= c < BUCKETS
      ensures LiveIn(s1.orders, k, t, c) <= Desired(t, c)
    {
      assert LiveIn(s.orders, k, t, c) <= Desired(t, c);
    }
  }

  /** What one bucket's request did. */
  ghost predicate SentOne(gw: Gateway, s: State, s1: State, k: Key, t: Target, b: nat)
    requires b < INACTIVE
  {
    var q := Desired(t, b) - LiveIn(s.orders, k, t, b);
    && (forall c :: 0 <= c < BUCKETS && c != b ==> LiveIn(s1.orders, k, t, c) == LiveIn(s.orders, k, t, c))
    && if q <= 0 then s1.sent == s.sent && LiveIn(s1.orders, k, t, b) == Desired(t, b)
       else
         && s1.sent == s.sent + [Request(k, q, t.bid + b, b, b == 0)]
         && LiveIn(s1.orders, k, t, b) == if gw(|s.sent|) == "" then LiveIn(s.orders, k, t, b) else Desired(t, b)
  }

  lemma ExactStep(gw: Gateway, s: State, s1: State, s': State, k: Key, t: Target, b: nat)
    requires b < INACTIVE && SentOne(gw, s, s1, k, t, b)
    requires SentExactly(gw, s1, s', k, t, b + 1)
    requires Wanted(s1.orders, k, t, b + 1) == Wanted(s.orders, k, t, b + 1)
    ensures SentExactly(gw, s, s', k, t, b)
  {
    hide LiveIn, Desired;
    assert s'.sent == s.sent + Wanted(s.orders, k, t, b);
    AnswersSplit(gw, |s.sent|, |s1.sent|, |s'.sent|);
    assert LiveIn(s'.orders, k, t, b) == LiveIn(s1.orders, k, t, b);
  }

  lemma AnswersSplit(gw: Gateway, from: nat, mid: nat, to: nat)
    requires from <= mid <= to && mid <= from + 1
    ensures AllAnswered(gw, from, to) <==> (mid == from || gw(from) != "") && AllAnswered(gw, mid, to)
  {
  }

  // ---------- the theorems ----------

  /** The lots missing in all buckets are free lots of the tranche. */
  lemma MissingIsFree(s: State, k: Key, t: Target)
    requires Known(s, k) && Fits(s.orders, k, t) && TrancheOf(s, k).traded <= TrancheOf(s, k).volume
    requires Total(t.allocation) == TrancheOf(s, k).Remaining()
    ensures MissingFrom(s.orders, k, t, 0) <= TrancheOf(s, k).volume - TrancheOf(s, k).traded - Sum(LiveOf(k), s.orders)
  {
    MissingIs(s.orders, k, t, 0);
    BucketsPartition(k, t.bid, s.orders);
    assert LiveIn(s.orders, k, t, INACTIVE) <= Desired(t, INACTIVE);
    TotalPrefix(t.allocation, BUCKETS);
  }

  /**
   * One reconciliation of a running parent with a target. Either some cancellation of the tranche is unconfirmed
   * and nothing is sent, or exactly the missing lots are requested, bucket by bucket, whatever the gateway answers;
   * and then live orders equal the target everywhere if and only if no request was refused.
   */
  lemma ReconcileConverges(gw: Gateway, s: State, k: Key)
    requires Inv(gw, s) && FreshIds(gw) && Known(s, k) && k in s.targets
    ensures var t, s' := s.targets[k], Reconcile(gw, s, k).state;
            if Pending(MarkExcess(s.orders, k, t), k) then
              s' == s.(orders := MarkExcess(s.orders, k, t)) && Pending(s'.orders, k)
            else
              && s'.sent == s.sent + Wanted(s.orders, k, t, 0)
              && (AllAnswered(gw, |s.sent|, |s'.sent|) <==> Converged(s'.orders, k, t))
  {
    var t := s.targets[k];
    assert TargetSound(s, k) && PhaseSound(s, k);
    hide SendDeficits, Sum, Converged;
    if !Pending(MarkExcess(s.orders, k, t), k) {
      NotPendingFits(s.orders, k, t);
      assert s.(orders := MarkExcess(s.orders, k, t)) == s;
      SendPhaseConverges(gw, s, k);
    }
  }

  lemma SendPhaseConverges(gw: Gateway, s: State, k: Key)
    requires Inv(gw, s) && FreshIds(gw) && Known(s, k) && k in s.targets && Fits(s.orders, k, s.targets[k])
    ensures var t, s' := s.targets[k], SendDeficits(gw, s, k, s.targets[k], 0);
            && s'.sent == s.sent + Wanted(s.orders, k, t, 0)
            && (AllAnswered(gw, |s.sent|, |s'.sent|) <==> Converged(s'.orders, k, t))
  {
    var t := s.targets[k];
    hide SendDeficits, Wanted, LiveIn, Converged, MissingFrom, Sum;
    assert TargetSound(s, k) && TrancheBooked(s, k);
    MissingIsFree(s, k, t);
    SendDeficitsExact(gw, s, k, t, 0);
    ExactMeansConverged(gw, s, SendDeficits(gw, s, k, t, 0), k, t);
  }

  lemma ExactMeansConverged(gw: Gateway, s: State, s': State, k: Key, t: Target)
    requires SentExactly(gw, s, s', k, t, 0) && Fits(s.orders, k, t)
    ensures AllAnswered(gw, |s.sent|, |s'.sent|) <==> Converged(s'.orders, k, t)
  {
    hide LiveIn, Wanted;
    assert LiveIn(s.orders, k, t, INACTIVE) <= Desired(t, INACTIVE);
    assert Converged(s'.orders, k, t) <==> forall c :: 0 <= c < INACTIVE ==> LiveIn(s'.orders, k, t, c) == Desired(t, c);
  }

  /** Reconciling a converged tranche issues no command: the whole state stays as it is. */
  lemma ConvergedIsQuiet(gw: Gateway, s: State, k: Key)
    requires Inv(gw, s) && FreshIds(gw) && Known(s, k) && k in s.targets
    requires Converged(s.orders, k, s.targets[k])
    ensures Reconcile(gw, s, k) == Done(s)
    ensures ReconcilePending(gw, s, k, s.targets[k].bid) == Done(s)
  {
    hide Sum;
    var t := s.targets[k];
    assert Fits(s.orders, k, t);
    ExcessIffOverfull(s.orders, k, t);
    assert MarkExcess(s.orders, k, t) == s.orders;
    assert s.(orders := MarkExcess(s.orders, k, t)) == s;
    NothingWanted(gw, s, k, t, 0);
    ReconcileKeeps(gw, s, k);
    assert s.(targets := s.targets[k := t.(bid := t.bid)]) == s;
  }

  /** Marking orders changes no live volume, so a second pass finds the same orders, all marked already. */
  lemma MarkExcessTwice(os: seq<Child>, k: Key, t: Target)
    ensures MarkExcess(MarkExcess(os, k, t), k, t) == MarkExcess(os, k, t)
  {
    var ms := MarkExcess(os, k, t);
    forall i | 0 <= i < |os|
      ensures Excess(ms, k, t, i) <==> Excess(os, k, t, i)
    {
      var b := BucketOf(os[i], t.bid);
      assert OnlyMarked(os[..i + 1], ms[..i + 1]);
      MarkedSum(LiveAt(k, b, t.bid), os[..i + 1], ms[..i + 1]);
    }
  }

  /** A tranche with a target is ready for the sending half. */
  lemma SendReady(gw: Gateway, s: State, k: Key)
    requires Inv(gw, s) && Known(s, k) && k in s.targets && Fits(s.orders, k, s.targets[k])
    ensures s.parents[k.parent].status == Running && TrancheOf(s, k).status == Active
    ensures MissingFrom(s.orders, k, s.targets[k], 0) <= TrancheOf(s, k).volume - TrancheOf(s, k).traded - Sum(LiveOf(k), s.orders)
  {
    hide Sum, MissingFrom, Fits;
    assert TargetSound(s, k) && PhaseSound(s, k) && TrancheBooked(s, k);
    MissingIsFree(s, k, s.targets[k]);
  }

  lemma NotRefused(gw: Gateway, from: nat, to: nat)
    ensures AllAnswered(gw, from, to) <==> !Refused(gw, from, to)
  {
  }

  /** A target that is still there after the sending half means that every request was answered. */
  lemma TargetSurvives(gw: Gateway, s: State, k: Key)
    requires Inv(gw, s) && FreshIds(gw) && Known(s, k) && k in s.targets && Fits(s.orders, k, s.targets[k])
    ensures var s' := SendDeficits(gw, s, k, s.targets[k], 0);
            k in s'.targets ==> s'.targets[k] == s.targets[k] && AllAnswered(gw, |s.sent|, |s'.sent|)
  {
    hide Sum, Converged, SendDeficits, Wanted, MissingFrom, LiveIn, Inv, Fits, SendsWhilePaused;
    var t := s.targets[k];
    SendReady(gw, s, k);
    SendDeficitsExact(gw, s, k, t, 0);
    SendPauses(gw, s, k, t, 0);
    NotRefused(gw, |s.sent|, |s.sent| + |Wanted(s.orders, k, t, 0)|);
  }

  /**
   * A repeat of a reconciliation issues no command and changes nothing, whatever the first one did: left a
   * cancellation unconfirmed, had every request answered, or had one refused.
   */
  lemma ReconcileRepeats(gw: Gateway, s: State, k: Key)
    requires Inv(gw, s) && FreshIds(gw) && Known(s, k)
    ensures var s' := Reconcile(gw, s, k).state; Known(s', k) && Reconcile(gw, s', k) == Done(s')
  {
    hide Sum, SendDeficits, Converged, Inv;
    ReconcileKeeps(gw, s, k);
    var s' := Reconcile(gw, s, k).state;
    if k in s.targets && s.parents[k.parent].status == Running {
      var t := s.targets[k];
      if Pending(MarkExcess(s.orders, k, t), k) {
        MarkExcessTwice(s.orders, k, t);
        NoOversell(gw, s', k.parent);
      } else {
        NotPendingFits(s.orders, k, t);
        assert s.(orders := MarkExcess(s.orders, k, t)) == s;
        TargetSurvives(gw, s, k);
        ReconcileConverges(gw, s, k);
        if k in s'.targets {
          ConvergedIsQuiet(gw, s', k);
        }
      }
    }
  }

  lemma {:induction false} NothingWanted(gw: Gateway, s: State, k: Key, t: Target, b: nat)
    requires Known(s, k) && Converged(s.orders, k, t) && b <= INACTIVE
    ensures SendDeficits(gw, s, k, t, b) == s
    decreases INACTIVE - b
  {
    if b == INACTIVE {
    } else {
      assert LiveIn(s.orders, k, t, b) == Desired(t, b);
      NothingWanted(gw, s, k, t, b + 1);
    }
  }

  /** A report that only executes: nothing live vanishes except what was filled. */
  predicate OnlyFills(o: Child, r: Report) {
    && r.status != OrderCancelled && r.status != Rejected
    && Absorb(o, r).Leaves() + (Absorb(o, r).traded - o.traded) == o.Leaves()
  }

  /** The fill of a live order of a converged tranche comes out of the order's own bucket. */
  lemma FillHitsOwnBucket(s: State, i: nat, r: Report, t: Target)
    requires i < |s.orders| && Converged(s.orders, s.orders[i].key, t)
    requires s.orders[i].traded < r.traded && OnlyFills(s.orders[i], r)
    ensures var o, o' := s.orders[i], Absorb(s.orders[i], r);
            var b, delta := BucketOf(o, t.bid), o'.traded - o.traded;
            && b < INACTIVE && Preferred(o', t.bid) == b && delta <= t.allocation[b]
            && Consume(t.allocation, Priority(b), delta) == (t.allocation[b := t.allocation[b] - delta], 0)
  {
    hide Consume, Priority;
    var o := s.orders[i];
    var b := BucketOf(o, t.bid);
    SumMember(LiveAt(o.key, b, t.bid), s.orders, i);
    assert LiveIn(s.orders, o.key, t, b) == Desired(t, b);
    ConsumeOwnBucket(t.allocation, b, Absorb(o, r).traded - o.traded);
  }

  /** Executions keep a converged tranche converged, so a later reconciliation at the same best bid refills nothing. */
  lemma FillNotReplenished(gw: Gateway, s: State, r: Report)
    requires Inv(gw, s) && FreshIds(gw) && Admissible(s, r)
    requires var o := s.orders[IndexOf(s.orders, r.id)];
             o.key in s.targets && Converged(s.orders, o.key, s.targets[o.key]) && OnlyFills(o, r)
    ensures var k, s' := s.orders[IndexOf(s.orders, r.id)].key, ProcessOrder(s, r).state;
            k in s'.targets ==>
              && Converged(s'.orders, k, s'.targets[k])
              && ReconcilePending(gw, s', k, s.targets[k].bid) == Done(s')
  {
    var i := IndexOf(s.orders, r.id);
    var k, o' := s.orders[i].key, Absorb(s.orders[i], r);
    assert GoodChild(gw, s, s.orders[i]);
    ProcessOrderKeeps(gw, s, r);
    var s' := ProcessOrder(s, r).state;
    if k in s'.targets {
      FillKeepsConverged(gw, s, i, r);
      assert TargetSound(s', k);
      ConvergedIsQuiet(gw, s', k);
    }
  }

  lemma FillKeepsConverged(gw: Gateway, s: State, i: nat, r: Report)
    requires Inv(gw, s) && Admissible(s, r) && i == IndexOf(s.orders, r.id)
    requires s.orders[i].key in s.targets && Converged(s.orders, s.orders[i].key, s.targets[s.orders[i].key])
    requires OnlyFills(s.orders[i], r)
    requires s.orders[i].key in ProcessOrder(s, r).state.targets
    ensures var k, s' := s.orders[i].key, ProcessOrder(s, r).state;
            s'.targets[k].bid == s.targets[k].bid && Converged(s'.orders, k, s'.targets[k])
  {
    hide Sum, Complete, Fill;
    var k := s.orders[i].key;
    assert GoodChild(gw, s, s.orders[i]);
    FillKeeps(gw, s, i, r);
    ReportIsFill(gw, s, i, r);
    FillTargets(gw, s, i, r);
    CompleteKeepsTarget(Fill(s, i, r).state, k);
    FilledConverged(s, i, r, Fill(s, i, r).state.targets);
  }

  lemma ReportIsFill(gw: Gateway, s: State, i: nat, r: Report)
    requires GoodChildren(gw, s) && i < |s.orders| && i == IndexOf(s.orders, r.id) && OnlyFills(s.orders[i], r)
    requires Known(s, s.orders[i].key) && Fill(s, i, r).Done? && Known(Fill(s, i, r).state, s.orders[i].key)
    ensures ProcessOrder(s, r) == Done(Complete(Fill(s, i, r).state, s.orders[i].key))
  {
    hide Fill, Complete;
    assert GoodChild(gw, s, s.orders[i]);
  }

  lemma CompleteKeepsTarget(f: State, k: Key)
    requires Known(f, k) && k in Complete(f, k).targets
    ensures k in f.targets && Complete(f, k).targets[k] == f.targets[k] && Complete(f, k).orders == f.orders
  {
  }

  lemma FilledConverged(s: State, i: nat, r: Report, targets: map<Key, Target>)
    requires i < |s.orders| && s.orders[i].key in s.targets && s.orders[i].key in targets
    requires Converged(s.orders, s.orders[i].key, s.targets[s.orders[i].key]) && OnlyFills(s.orders[i], r)
    requires var o, o', t := s.orders[i], Absorb(s.orders[i], r), s.targets[s.orders[i].key];
             var b, delta := BucketOf(o, t.bid), o'.traded - o.traded;
             && (delta == 0 ==> targets == s.targets)
             && (delta > 0 ==> b < INACTIVE && delta <= t.allocation[b]
                               && targets[o.key] == t.(allocation := t.allocation[b := t.allocation[b] - delta]))
    ensures Converged(s.orders[i := Absorb(s.orders[i], r)], s.orders[i].key, targets[s.orders[i].key])
  {
    var o, o', t := s.orders[i], Absorb(s.orders[i], r), s.targets[s.orders[i].key];
    forall b | 0 <= b < BUCKETS
      ensures LiveIn(s.orders[i := o'], o.key, targets[o.key], b) == Desired(targets[o.key], b)
    {
      assert LiveIn(s.orders, o.key, t, b) == Desired(t, b);
      SumUpdate(LiveAt(o.key, b, t.bid), s.orders, i, o');
    }
  }

  lemma FillTargets(gw: Gateway, s: State, i: nat, r: Report)
    requires Inv(gw, s) && Admissible(s, r) && i == IndexOf(s.orders, r.id)
    requires s.orders[i].key in s.targets && Converged(s.orders, s.orders[i].key, s.targets[s.orders[i].key])
    requires OnlyFills(s.orders[i], r) && Known(s, s.orders[i].key)
    ensures var o, o', t := s.orders[i], Absorb(s.orders[i], r), s.targets[s.orders[i].key];
            var b, delta, f := BucketOf(o, t.bid), o'.traded - o.traded, Fill(s, i, r).state;
            && f.orders == s.orders[i := o'] && o.key in f.targets
            && (delta == 0 ==> f.targets == s.targets)
            && (delta > 0 ==> b < INACTIVE && delta <= t.allocation[b]
                              && f.targets[o.key] == t.(allocation := t.allocation[b := t.allocation[b] - delta]))
  {
    hide Consume, Priority, Inv, Sum, Converged;
    if s.orders[i].traded < r.traded {
      FillHitsOwnBucket(s, i, r, s.targets[s.orders[i].key]);
    }
  }

  /** The closing path sends only with nothing live, and then exactly the remaining lots at the best bid. */
  lemma CloseSendsRemainder(gw: Gateway, s: State, k: Key, bid: int)
    requires Inv(gw, s) && Known(s, k)
    ensures var t, s' := TrancheOf(s, k), FinishClosing(gw, s, k, bid);
            if t.Remaining() > 0 && Sum(LiveOf(k), s.orders) == 0
            then s'.sent == s.sent + [Request(k, t.Remaining(), bid, 0, true)]
            else s'.sent == s.sent && OnlyMarked(s.orders, s'.orders)
  {
    ParentSlack(gw, s, k);
    assert TrancheBooked(s, k);
  }

  /** What one pass of the closing path sends. */
  function Remainder(s: State, k: Key, bid: int): seq<Request>
    requires Known(s, k)
  {
    if TrancheOf(s, k).Remaining() > 0 && Sum(LiveOf(k), s.orders) == 0 then [Request(k, TrancheOf(s, k).Remaining(), bid, 0, true)] else []
  }

  /** Closing sends whatever the parent's status: only the tranche's own status counts. */
  lemma CloseSendsIff(gw: Gateway, s: State, k: Key, bid: int)
    requires Inv(gw, s) && Known(s, k)
    ensures ContinueClose(gw, s, k, bid).sent == s.sent + if TrancheOf(s, k).status == Closing then Remainder(s, k, bid) else []
    ensures BeginClose(gw, s, k, bid).sent
            == s.sent + if TrancheOf(s, k).status in {Waiting, Active, Closing} then Remainder(s, k, bid) else []
  {
    hide Sum, FinishClosing, Inv, Available;
    CloseSendsRemainder(gw, s, k, bid);
    var t := TrancheOf(s, k);
    if t.status == Active || t.status == Waiting {
      var s1 := SetTranche(s, k, t.(status := Closing)).(targets := s.targets - {k}, orders := MarkTranche(s.orders, k));
      StartClosingKeeps(gw, s, k);
      CloseSendsRemainder(gw, s1, k, bid);
      MarkedSum(LiveOf(k), s.orders, s1.orders);
    }
  }

  /**
   * A pause does not stop a tranche from sending: it turns active tranches into closing ones, and the timer's loop,
   * which goes on after the pause, lets each closing tranche with nothing live send all it has left.
   */
  lemma PausedSendsIff(gw: Gateway, s: State, k: Key, bid: int)
    requires Inv(gw, s) && Known(s, k) && s.parents[k.parent].status == Running
    ensures var s1 := PauseParent(s, k.parent);
            && Known(s1, k) && s1.parents[k.parent].status == Paused
            && ContinueClose(gw, s1, k, bid).sent
               == s.sent + if TrancheOf(s, k).status in {Active, Closing} then Remainder(s, k, bid) else []
  {
    hide Sum, FinishClosing, Inv, Available, ContinueClose, BeginClose;
    var s1 := PauseParent(s, k.parent);
    PauseKeeps(gw, s, k.parent);
    CloseSendsIff(gw, s1, k, bid);
    MarkedSum(LiveOf(k), s.orders, s1.orders);
  }

  /** While lots are live, closing leaves uncancelled only aggressive orders at the current best bid. */
  lemma CloseCancelsOffBid(gw: Gateway, s: State, k: Key, bid: int, i: nat)
    requires Known(s, k) && i < |s.orders| && s.orders[i].key == k && s.orders[i].Leaves() > 0
    requires TrancheOf(s, k).Remaining() > 0
    ensures var os := FinishClosing(gw, s, k, bid).orders;
            i < |os| && os[i].cancelRequested == (s.orders[i].cancelRequested || BucketOf(s.orders[i], bid) != 0 || !s.orders[i].aggressive)
  {
    SumMember(LiveOf(k), s.orders, i);
  }

  // ---------- refused requests ----------

  /** Some request from the given position on is refused. */
  ghost predicate Refused(gw: Gateway, from: nat, to: int) {
    exists i: nat :: from <= i < to && gw(i) == ""
  }

  /** From bucket b on, some request goes out while the parent is already paused. */
  predicate SendsWhilePaused(gw: Gateway, s: State, k: Key, t: Target, b: nat)
    requires Known(s, k) && b <= INACTIVE
    decreases INACTIVE - b
  {
    b < INACTIVE &&
    (var r := Deficit(s, k, t, b);
     (s.parents[k.parent].status == Paused && r.quantity > 0) || SendsWhilePaused(gw, Send(gw, s, r), k, t, b + 1))
  }

  /** The sending half at bucket b: nothing is too full, and the missing lots are available. */
  ghost predicate Sending(gw: Gateway, s: State, k: Key, t: Target, b: nat) {
    && Inv(gw, s) && FreshIds(gw) && Known(s, k) && b <= INACTIVE && TrancheOf(s, k).status != Waiting && Fits(s.orders, k, t)
    && MissingFrom(s.orders, k, t, b) <= TrancheOf(s, k).volume - TrancheOf(s, k).traded - Sum(LiveOf(k), s.orders)
  }

  /** One bucket: its request goes out if lots are missing, and the rest is wanted as before. */
  lemma SendingStep(gw: Gateway, s: State, k: Key, t: Target, b: nat)
    requires Sending(gw, s, k, t, b) && b < INACTIVE
    ensures Known(s, k) && Deficit(s, k, t, b).key == k
    ensures var r := Deficit(s, k, t, b);
            var s1 := Send(gw, s, r);
            && Sending(gw, s1, k, t, b + 1)
            && |s1.sent| == |s.sent| + (if r.quantity > 0 then 1 else 0)
            && |Wanted(s.orders, k, t, b)| == |Wanted(s1.orders, k, t, b + 1)| + (if r.quantity > 0 then 1 else 0)
  {
    hide Sum, Inv, Fits, Deficit, Send, LiveIn, Desired, MissingFrom;
    DeficitExact(gw, s, k, t, b);
    DeficitFits(s, k, t, b);
    SendDeficitOne(gw, s, k, t, b);
    SendKeeps(gw, s, Deficit(s, k, t, b));
    SendLeavesWaiting(gw, s, Deficit(s, k, t, b), k);
  }

  /** The sending half ends with the parent paused and the target gone exactly when a request was refused. */
  lemma {:induction false} SendPauses(gw: Gateway, s: State, k: Key, t: Target, b: nat)
    requires Sending(gw, s, k, t, b) && s.parents[k.parent].status == Running
    ensures var s', n := SendDeficits(gw, s, k, t, b), |Wanted(s.orders, k, t, b)|;
            && (if Refused(gw, |s.sent|, |s.sent| + n) then s'.parents[k.parent].status == Paused && k !in s'.targets
                else s'.parents[k.parent].status == Running && s'.targets == s.targets)
            && (SendsWhilePaused(gw, s, k, t, b) <==> Refused(gw, |s.sent|, |s.sent| + n - 1))
    decreases INACTIVE - b
  {
    hide Sum, Inv, Fits, Deficit, Send, LiveIn, Desired, MissingFrom, Wanted, Refused, FreshIds;
    if b == INACTIVE {
      NothingRefused(gw, s, k, t);
    } else {
      var r := Deficit(s, k, t, b);
      SendingStep(gw, s, k, t, b);
      if r.quantity > 0 && gw(|s.sent|) == "" {
        PausesHere(gw, s, k, t, b);
      } else {
        SendRuns(gw, s, r);
        SendPauses(gw, Send(gw, s, r), k, t, b + 1);
        RefusedLater(gw, |s.sent|, |Wanted(s.orders, k, t, b)|, r.quantity > 0);
      }
    }
  }

  /** This bucket's request is refused: the parent is paused, and the rest of the loop sends on. */
  lemma PausesHere(gw: Gateway, s: State, k: Key, t: Target, b: nat)
    requires Sending(gw, s, k, t, b) && b < INACTIVE && s.parents[k.parent].status == Running
    requires Deficit(s, k, t, b).quantity > 0 && gw(|s.sent|) == ""
    ensures var s', n := SendDeficits(gw, s, k, t, b), |Wanted(s.orders, k, t, b)|;
            && Refused(gw, |s.sent|, |s.sent| + n) && s'.parents[k.parent].status == Paused && k !in s'.targets
            && (SendsWhilePaused(gw, s, k, t, b) <==> Refused(gw, |s.sent|, |s.sent| + n - 1))
  {
    hide Sum, Inv, Fits, Deficit, Send, LiveIn, Desired, MissingFrom, Wanted, Refused, FreshIds;
    var r := Deficit(s, k, t, b);
    SendingStep(gw, s, k, t, b);
    RefusedNow(gw, s, r);
    PausedSends(gw, Send(gw, s, r), k, t, b + 1);
    RefusedFirst(gw, |s.sent|, |Wanted(s.orders, k, t, b)|);
  }

  lemma NothingRefused(gw: Gateway, s: State, k: Key, t: Target)
    ensures Wanted(s.orders, k, t, INACTIVE) == [] && !Refused(gw, |s.sent|, |s.sent|) && !Refused(gw, |s.sent|, |s.sent| - 1)
  {
  }

  /** The first of n requests is refused. */
  lemma RefusedFirst(gw: Gateway, from: nat, n: nat)
    requires gw(from) == ""
    ensures Refused(gw, from, from + n) <==> n > 0
    ensures Refused(gw, from, from + n - 1) <==> n > 1
  {
  }

  /** The first of n requests is answered, or nothing is requested yet. */
  lemma RefusedLater(gw: Gateway, from: nat, n: nat, one: bool)
    requires one ==> n > 0 && gw(from) != ""
    ensures one ==> (Refused(gw, from, from + n) <==> Refused(gw, from + 1, from + n))
    ensures one ==> (Refused(gw, from, from + n - 1) <==> Refused(gw, from + 1, from + n - 1))
  {
    forall i: nat | one && from <= i < from + n && gw(i) == ""
      ensures from + 1 <= i
    {
    }
  }

  /** Under a paused parent the rest of the loop sends whatever is wanted. */
  lemma {:induction false} PausedSends(gw: Gateway, s: State, k: Key, t: Target, b: nat)
    requires Sending(gw, s, k, t, b) && s.parents[k.parent].status == Paused && k !in s.targets
    ensures var s' := SendDeficits(gw, s, k, t, b); s'.parents[k.parent].status == Paused && k !in s'.targets
    ensures SendsWhilePaused(gw, s, k, t, b) <==> |Wanted(s.orders, k, t, b)| > 0
    decreases INACTIVE - b
  {
    hide Sum, Inv, Fits, Deficit, Send, LiveIn, Desired, MissingFrom;
    if b == INACTIVE {
    } else {
      var r := Deficit(s, k, t, b);
      SendingStep(gw, s, k, t, b);
      SendStaysPaused(gw, s, r);
      PausedSends(gw, Send(gw, s, r), k, t, b + 1);
    }
  }

  lemma RefusedNow(gw: Gateway, s: State, r: Request)
    requires Known(s, r.key) && s.parents[r.key.parent].status == Running && r.quantity > 0 && gw(|s.sent|) == ""
    ensures var s1 := Send(gw, s, r); Known(s1, r.key) && s1.parents[r.key.parent].status == Paused && r.key !in s1.targets
  {
  }

  lemma SendRuns(gw: Gateway, s: State, r: Request)
    requires Known(s, r.key) && (r.quantity == 0 || gw(|s.sent|) != "")
    ensures Send(gw, s, r).parents == s.parents && Send(gw, s, r).targets == s.targets
  {
  }

  lemma SendStaysPaused(gw: Gateway, s: State, r: Request)
    requires Known(s, r.key) && s.parents[r.key.parent].status == Paused
    ensures Send(gw, s, r).parents == s.parents && Send(gw, s, r).targets == s.targets
  {
  }

  lemma NothingSent(gw: Gateway, s: State, k: Key, t: Target, b: nat)
    requires Known(s, k) && b < INACTIVE && LiveIn(s.orders, k, t, b) >= Desired(t, b)
    ensures Send(gw, s, Deficit(s, k, t, b)) == s
  {
  }

  /**
   * A reconciliation with nothing to cancel sends every wanted request, refused ones included, for its loop reads
   * neither the parent's status nor the dropped target again. The parent ends paused if and only if a request was
   * refused, and a request goes out under the paused parent if and only if one before the last was refused.
   */
  lemma RefusalPausesIff(gw: Gateway, s: State, k: Key)
    requires Inv(gw, s) && FreshIds(gw) && Known(s, k) && k in s.targets
    requires !Pending(MarkExcess(s.orders, k, s.targets[k]), k)
    ensures var s', w, n := Reconcile(gw, s, k).state, Wanted(s.orders, k, s.targets[k], 0), |s.sent|;
            && s'.sent == s.sent + w
            && k.parent in s'.parents
            && (s'.parents[k.parent].status == Paused <==> Refused(gw, n, n + |w|))
            && (k !in s'.targets <==> Refused(gw, n, n + |w|))
            && (SendsWhilePaused(gw, s, k, s.targets[k], 0) <==> Refused(gw, n, n + |w| - 1))
  {
    hide Sum, SendDeficits, Wanted, MissingFrom, SendsWhilePaused, Converged, Inv, Fits, Refused, Pending, AllAnswered;
    var t := s.targets[k];
    NotPendingFits(s.orders, k, t);
    SendReady(gw, s, k);
    ReconcileConverges(gw, s, k);
    assert s.(orders := MarkExcess(s.orders, k, t)) == s;
    SendPauses(gw, s, k, t, 0);
  }
}
