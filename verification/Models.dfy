/**
 * Value entities of the execution application: parents, tranches, intents and
 * target allocations (vnpy_acrl_execution/models.py).
 */
module Models {

  /** Parents are named by a string; a tranche name is its parent's name and a sequence number. */
  type ParentId = string
  datatype Key = Key(parent: ParentId, index: nat)

  datatype ParentStatus = ParentWaiting | Running | Paused | ParentCompleted | ParentCancelled | ParentError
  datatype TrancheStatus = Waiting | Active | Closing | Completed | Cancelled | Error

  datatype Tranche = Tranche(volume: nat, traded: nat, status: TrancheStatus) {
    function Remaining(): nat {
      if traded <= volume then volume - traded else 0
    }
  }

  datatype Parent = Parent(total: nat, traded: nat, status: ParentStatus, tranches: seq<Tranche>) {
    function Remaining(): nat {
      if traded <= total then total - traded else 0
    }
  }

  const BUCKETS := 7
  const INACTIVE := 6

  /** Lots per bucket: 0 is the market sell, 1 to 5 the limit levels, 6 stays inactive. */
  type Allocation = a: seq<nat> | |a| == BUCKETS witness [0, 0, 0, 0, 0, 0, 0]

  function Total(a: seq<nat>): nat {
    if a == [] then 0 else Total(a[..|a| - 1]) + a[|a| - 1]
  }

  // ---------- rounding an intent to lots ----------

  /** Nearest integer, halves to even: the rounding of NumPy and of Python 3. */
  function Round(x: real): (n: int)
    ensures n as real - 0.5 <= x <= n as real + 0.5
    ensures x == n as real - 0.5 || x == n as real + 0.5 ==> n % 2 == 0
  {
    var f := x.Floor;
    var d := x - f as real;
    if d < 0.5 then f
    else if d > 0.5 then f + 1
    else if f % 2 == 0 then f else f + 1
  }

  function Min(a: int, b: int): int {
    if a <= b then a else b
  }

  function Abs(x: real): real {
    if x < 0.0 then -x else x
  }

  function MaxReal(x: real, y: real): real {
    if x < y then y else x
  }

  /** What ExecutionIntent.from_array accepts: seven non-negative fractions summing to one, up to its tolerance. */
  const TOLERANCE := 0.00002

  predicate Fractions(fractions: seq<real>) {
    |fractions| == BUCKETS && forall i :: 0 <= i < |fractions| ==> 0.0 <= fractions[i]
  }

  predicate ValidIntent(fractions: seq<real>) {
    && Fractions(fractions)
    && Abs(SumReal(fractions) - 1.0) <= TOLERANCE
  }

  function SumReal(xs: seq<real>): real {
    if xs == [] then 0.0 else SumReal(xs[..|xs| - 1]) + xs[|xs| - 1]
  }

  /** The exact, unrounded lots of bucket i. */
  function Share(f: seq<real>, remaining: nat, i: nat): (x: real)
    requires i < |f| && 0.0 <= f[i]
    ensures 0.0 <= x
  {
    f[i] * remaining as real
  }

  function Take(f: seq<real>, remaining: nat, i: nat, available: nat): (q: nat)
    requires i < |f| && 0.0 <= f[i]
    ensures q <= available
    ensures q as real <= Share(f, remaining, i) + 0.5
    ensures q == available || q as real >= Share(f, remaining, i) - 0.5
  {
    Min(Round(Share(f, remaining, i)), available)
  }

  /** Lots not yet given to the first i buckets; each bucket takes its rounded share, capped by what is left. */
  function Left(f: seq<real>, remaining: nat, i: nat): nat
    requires i <= |f| && forall j :: 0 <= j < |f| ==> 0.0 <= f[j]
    decreases i, 0
  {
    if i == 0 then remaining else Left(f, remaining, i - 1) - Bucket(f, remaining, i - 1)
  }

  function Bucket(f: seq<real>, remaining: nat, i: nat): (q: nat)
    requires i < |f| && forall j :: 0 <= j < |f| ==> 0.0 <= f[j]
    ensures q <= Left(f, remaining, i)
    decreases i, 1
  {
    Take(f, remaining, i, Left(f, remaining, i))
  }

  /** The target of an intent: whatever the seven buckets leave over joins the inactive one. */
  function TargetQuantities(f: seq<real>, remaining: nat): Allocation
    requires Fractions(f)
  {
    [Bucket(f, remaining, 0), Bucket(f, remaining, 1), Bucket(f, remaining, 2), Bucket(f, remaining, 3),
     Bucket(f, remaining, 4), Bucket(f, remaining, 5), Bucket(f, remaining, 6) + Left(f, remaining, 7)]
  }

  /** No lot is created or lost by rounding. */
  lemma RoundingConserves(f: seq<real>, remaining: nat)
    requires Fractions(f)
    ensures Total(TargetQuantities(f, remaining)) == remaining
  {
    TotalOfSeven(TargetQuantities(f, remaining));
    var l := i requires 0 <= i <= 7 => Left(f, remaining, i);
    assert l(1) == l(0) - Bucket(f, remaining, 0);
    assert l(2) == l(1) - Bucket(f, remaining, 1);
    assert l(3) == l(2) - Bucket(f, remaining, 2);
    assert l(4) == l(3) - Bucket(f, remaining, 3);
    assert l(5) == l(4) - Bucket(f, remaining, 4);
    assert l(6) == l(5) - Bucket(f, remaining, 5);
    assert l(7) == l(6) - Bucket(f, remaining, 6);
  }

  lemma TotalOfSeven(a: Allocation)
    ensures Total(a) == a[0] + a[1] + a[2] + a[3] + a[4] + a[5] + a[6]
  {
    TotalPrefix(a, 7);
    TotalPrefix(a, 6);
    TotalPrefix(a, 5);
    TotalPrefix(a, 4);
    TotalPrefix(a, 3);
    TotalPrefix(a, 2);
    TotalPrefix(a, 1);
  }

  lemma TotalPrefix(a: seq<nat>, n: nat)
    requires 0 < n <= |a|
    ensures Total(a[..n]) == Total(a[..n - 1]) + a[n - 1]
    ensures a[..|a|] == a && Total(a[..0]) == 0
  {
    assert a[..n][..n - 1] == a[..n - 1];
  }

  /** What the fractions of the first i buckets ask for, before rounding. */
  function Asked(f: seq<real>, remaining: nat, i: nat): real
    requires i <= |f| && forall j :: 0 <= j < |f| ==> 0.0 <= f[j]
  {
    if i == 0 then 0.0 else Asked(f, remaining, i - 1) + Share(f, remaining, i - 1)
  }

  lemma {:induction false} AskedIsShare(f: seq<real>, remaining: nat, i: nat)
    requires i <= |f| && forall j :: 0 <= j < |f| ==> 0.0 <= f[j]
    ensures Asked(f, remaining, i) == SumReal(f[..i]) * remaining as real
  {
    if i == 0 {
    } else {
      AskedIsShare(f, remaining, i - 1);
      assert f[..i][..i - 1] == f[..i - 1];
    }
  }

  lemma {:induction false} AskedMonotone(f: seq<real>, remaining: nat, i: nat, j: nat)
    requires i <= j <= |f| && forall k :: 0 <= k < |f| ==> 0.0 <= f[k]
    ensures Asked(f, remaining, i) <= Asked(f, remaining, j)
  {
    if i < j {
      AskedMonotone(f, remaining, i, j - 1);
    }
  }

  /** Half a lot of drift per bucket, unless a bucket was capped, and then nothing is left. */
  lemma {:induction false} LeftBounds(f: seq<real>, remaining: nat, i: nat)
    requires i <= |f| && forall j :: 0 <= j < |f| ==> 0.0 <= f[j]
    ensures Left(f, remaining, i) as real >= remaining as real - Asked(f, remaining, i) - i as real / 2.0
    ensures Left(f, remaining, i) == 0
         || Left(f, remaining, i) as real <= remaining as real - Asked(f, remaining, i) + i as real / 2.0
  {
    hide Share, Take;
    if i == 0 {
    } else {
      LeftBounds(f, remaining, i - 1);
    }
  }

  /** The lots by which the accepted fractions miss a sum of one. */
  function Gap(f: seq<real>, remaining: nat): real {
    Abs(SumReal(f) - 1.0) * remaining as real
  }

  lemma GapIsMissedShare(f: seq<real>, remaining: nat)
    requires forall j :: 0 <= j < |f| ==> 0.0 <= f[j]
    ensures Abs(Asked(f, remaining, |f|) - remaining as real) == Gap(f, remaining)
  {
    AskedIsShare(f, remaining, |f|);
    assert f[..|f|] == f;
    var d, r := SumReal(f) - 1.0, remaining as real;
    assert SumReal(f) * r - r == d * r;
    if d < 0.0 {
      assert d * r <= 0.0;
      assert -(d * r) == (-d) * r;
    } else {
      assert d * r >= 0.0;
    }
  }

  /**
   * The lots an entry gets may exceed its exact share by half a lot, and fall short of it by half a lot or half a lot
   * for each earlier entry, and by what the fractions miss of one.
   */
  predicate NearShare(lots: nat, f: seq<real>, remaining: nat, i: nat)
    requires i < |f|
  {
    var share, gap := f[i] * remaining as real, Abs(SumReal(f) - 1.0) * remaining as real;
    share - MaxReal(0.5, i as real / 2.0) - gap <= lots as real <= share + 0.5
  }

  /** The last entry gets the rest: off its share by half a lot for each earlier entry and by what the fractions miss of one. */
  predicate NearRest(lots: nat, f: seq<real>, remaining: nat)
    requires f != []
  {
    var n := |f| - 1;
    var share, slack := f[n] * remaining as real, n as real / 2.0 + Abs(SumReal(f) - 1.0) * remaining as real;
    share - slack <= lots as real <= share + slack
  }

  /** Any number of fractions turned into lots: every entry near its share, nothing lost. */
  predicate Rounded(lots: seq<nat>, f: seq<real>, remaining: nat) {
    && |lots| == |f| && f != [] && Total(lots) == remaining
    && (forall i :: 0 <= i < |f| - 1 ==> NearShare(lots[i], f, remaining, i))
    && NearRest(lots[|f| - 1], f, remaining)
  }

  lemma AskedStep(f: seq<real>, remaining: nat, i: nat)
    requires i < |f| && forall j :: 0 <= j < |f| ==> 0.0 <= f[j]
    ensures Asked(f, remaining, i + 1) == Asked(f, remaining, i) + Share(f, remaining, i)
  {
  }

  /** All fractions together ask for the remaining lots, up to what they miss of one. */
  lemma AskedWithin(f: seq<real>, remaining: nat)
    requires forall j :: 0 <= j < |f| ==> 0.0 <= f[j]
    ensures remaining as real - Gap(f, remaining) <= Asked(f, remaining, |f|) <= remaining as real + Gap(f, remaining)
    ensures Gap(f, remaining) >= 0.0
  {
    hide Gap, Asked, SumReal;
    GapIsMissedShare(f, remaining);
  }

  lemma BucketWithin(f: seq<real>, remaining: nat, i: nat)
    requires i < |f| && forall j :: 0 <= j < |f| ==> 0.0 <= f[j]
    ensures var q, share := Bucket(f, remaining, i) as real, Share(f, remaining, i);
            share - MaxReal(0.5, i as real / 2.0) - Gap(f, remaining) <= q <= share + 0.5
  {
    hide Share, Gap, Asked, Left, SumReal, Take;
    AskedWithin(f, remaining);
    AskedStep(f, remaining, i);
    AskedMonotone(f, remaining, i + 1, |f|);
    LeftBounds(f, remaining, i);
  }

  lemma LeftWithin(f: seq<real>, remaining: nat)
    requires f != [] && forall j :: 0 <= j < |f| ==> 0.0 <= f[j]
    ensures var n := |f| - 1;
            var q, share, slack := Left(f, remaining, n) as real, Share(f, remaining, n), n as real / 2.0 + Gap(f, remaining);
            share - slack <= q <= share + slack
  {
    hide Share, Gap, Asked, Left, SumReal;
    AskedWithin(f, remaining);
    AskedStep(f, remaining, |f| - 1);
    LeftBounds(f, remaining, |f| - 1);
  }

  lemma BucketNearShare(f: seq<real>, remaining: nat, i: nat)
    requires i < |f| && forall j :: 0 <= j < |f| ==> 0.0 <= f[j]
    ensures NearShare(Bucket(f, remaining, i), f, remaining, i)
  {
    hide SumReal, Bucket, Left, MaxReal, Abs;
    BucketWithin(f, remaining, i);
  }

  lemma LeftNearRest(f: seq<real>, remaining: nat)
    requires f != [] && forall j :: 0 <= j < |f| ==> 0.0 <= f[j]
    ensures NearRest(Left(f, remaining, |f| - 1), f, remaining)
  {
    hide SumReal, Left, Abs;
    LeftWithin(f, remaining);
  }

  lemma {:induction false} GivenAndLeft(lots: seq<nat>, f: seq<real>, remaining: nat, n: nat)
    requires n <= |f| && n <= |lots| && forall j :: 0 <= j < |f| ==> 0.0 <= f[j]
    requires forall i :: 0 <= i < n ==> lots[i] == Bucket(f, remaining, i)
    ensures Total(lots[..n]) + Left(f, remaining, n) == remaining
  {
    if n == 0 {
    } else {
      GivenAndLeft(lots, f, remaining, n - 1);
      TotalPrefix(lots, n);
    }
  }

  /** Buckets for all entries but the last, which gets the rest. */
  lemma RestToLast(lots: seq<nat>, f: seq<real>, remaining: nat)
    requires f != [] && |lots| == |f| && forall j :: 0 <= j < |f| ==> 0.0 <= f[j]
    requires forall i :: 0 <= i < |f| - 1 ==> lots[i] == Bucket(f, remaining, i)
    requires lots[|f| - 1] == Left(f, remaining, |f| - 1)
    ensures Rounded(lots, f, remaining)
  {
    hide NearShare, NearRest, Bucket, Left;
    forall i: nat | i < |f| - 1
      ensures NearShare(lots[i], f, remaining, i)
    {
      BucketNearShare(f, remaining, i);
    }
    LeftNearRest(f, remaining);
    GivenAndLeft(lots, f, remaining, |f| - 1);
    TotalPrefix(lots, |lots|);
  }

  /** A traded bucket is its exact share, at most half a lot above; a cap costs at most the half lots rounded up before. */
  lemma TradedBucketBounds(f: seq<real>, remaining: nat, i: nat)
    requires Fractions(f) && i < INACTIVE
    ensures TargetQuantities(f, remaining)[i] as real <= Share(f, remaining, i) + 0.5
    ensures TargetQuantities(f, remaining)[i] as real
         >= Share(f, remaining, i) - MaxReal(0.5, i as real / 2.0) - Gap(f, remaining)
  {
    hide Share, Gap, Bucket, TargetQuantities, SumReal, MaxReal;
    BucketWithin(f, remaining, i);
    BucketIsTarget(f, remaining, i);
  }

  lemma BucketIsTarget(f: seq<real>, remaining: nat, i: nat)
    requires Fractions(f) && i < BUCKETS
    ensures TargetQuantities(f, remaining)[i] == if i < INACTIVE then Bucket(f, remaining, i) else Left(f, remaining, INACTIVE)
  {
    assert Left(f, remaining, BUCKETS) == Left(f, remaining, INACTIVE) - Bucket(f, remaining, INACTIVE);
  }

  /** The list of targets after i rounds of the loop below. */
  ghost function Filled(f: seq<real>, remaining: nat, i: nat): (q: seq<nat>)
    requires Fractions(f) && i <= BUCKETS
    ensures |q| == i
  {
    if i == 0 then [] else Filled(f, remaining, i - 1) + [Bucket(f, remaining, i - 1)]
  }

  lemma {:induction false} FilledAt(f: seq<real>, remaining: nat, i: nat, j: nat)
    requires Fractions(f) && j < i <= BUCKETS
    ensures Filled(f, remaining, i)[j] == Bucket(f, remaining, j)
  {
    if j < i - 1 {
      FilledAt(f, remaining, i - 1, j);
    }
  }

  lemma FilledIsTarget(f: seq<real>, remaining: nat)
    requires Fractions(f)
    ensures var q := Filled(f, remaining, BUCKETS);
            q[..INACTIVE] + [q[INACTIVE] + Left(f, remaining, BUCKETS)] == TargetQuantities(f, remaining)
  {
    var q, a := Filled(f, remaining, BUCKETS), TargetQuantities(f, remaining);
    forall j | 0 <= j < INACTIVE
      ensures q[j] == a[j]
    {
      FilledAt(f, remaining, BUCKETS, j);
    }
    FilledAt(f, remaining, BUCKETS, INACTIVE);
  }

  /** The inactive bucket absorbs every rounding error: three lots at most. */
  lemma InactiveBounds(f: seq<real>, remaining: nat)
    requires Fractions(f)
    ensures var q, share := TargetQuantities(f, remaining)[INACTIVE] as real, Share(f, remaining, INACTIVE);
            share - 3.0 - Gap(f, remaining) <= q <= share + 3.0 + Gap(f, remaining)
  {
    GapIsMissedShare(f, remaining);
    LeftBounds(f, remaining, INACTIVE);
    BucketIsTarget(f, remaining, INACTIVE);
    assert Asked(f, remaining, BUCKETS) == Asked(f, remaining, INACTIVE) + Share(f, remaining, INACTIVE);
  }

  /** The loop of ExecutionIntent.target_quantities. */
  method ComputeTargets(f: seq<real>, remaining: nat) returns (a: Allocation)
    requires Fractions(f)
    ensures a == TargetQuantities(f, remaining)
    ensures Total(a) == remaining
  {
    var available := remaining;
    var targets: seq<nat> := [];
    for i := 0 to BUCKETS
      invariant targets == Filled(f, remaining, i) && available == Left(f, remaining, i)
    {
      var quantity := Take(f, remaining, i, available);
      targets := targets + [quantity];
      available := available - quantity;
    }
    FilledIsTarget(f, remaining);
    RoundingConserves(f, remaining);
    return targets[..INACTIVE] + [targets[INACTIVE] + available];
  }
}
