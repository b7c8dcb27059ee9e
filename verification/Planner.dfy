/** The Almgren-Chriss schedule (ac_planner.py) and the tranches cut from it (tranche_scheduler.py). */
module Planner {

  const INVENTORY := 20
  const ROUNDS := 80
  const FLAT := 0.00000001

  /** The hyperbolic sine enters as any function that vanishes at zero and increases strictly. */
  ghost predicate SinhLike(sinh: real -> real) {
    sinh(0.0) == 0.0 && forall x: real, y: real :: x < y ==> sinh(x) < sinh(y)
  }

  datatype Plan = Plan(total: nat, duration: real, kappa: real, sinh: real -> real) {
    ghost predicate Valid() {
      total > 0 && duration > 0.0 && kappa >= 0.0 && SinhLike(sinh)
    }

    function Clamp(t: real): real
      requires duration > 0.0
    {
      if t < 0.0 then 0.0 else if t > duration then duration else t
    }

    function Fraction(num: real, den: real): real
      requires den > 0.0
    {
      num / den
    }

    function RemainingAt(elapsed: real): real
      requires Valid()
    {
      var t := Clamp(elapsed);
      if Product(kappa, duration) < FLAT then Product(total as real, 1.0 - Fraction(t, duration))
      else
        assert Product(kappa, duration) > 0.0;
        Fraction(Product(total as real, sinh(Product(kappa, duration - t))), sinh(Product(kappa, duration)))
    }

    function CumulativeAt(elapsed: real): real
      requires Valid()
    {
      total as real - RemainingAt(elapsed)
    }
  }

  function Product(x: real, y: real): real {
    x * y
  }

  lemma ProductMonotone(x: real, y: real, z: real)
    requires 0.0 <= x && y <= z
    ensures Product(x, y) <= Product(x, z)
  {
    assert x * (z - y) >= 0.0;
  }

  lemma FractionMonotone(p: Plan, x: real, y: real, d: real)
    requires x <= y && d > 0.0
    ensures p.Fraction(x, d) <= p.Fraction(y, d)
  {
    DivMonotone(x, y, d);
  }

  lemma DivMonotone(x: real, y: real, d: real)
    requires x <= y && d > 0.0
    ensures x / d <= y / d
  {
    assert (y - x) / d >= 0.0;
  }

  lemma SinhMonotone(sinh: real -> real, x: real, y: real)
    requires SinhLike(sinh) && x <= y
    ensures sinh(x) <= sinh(y)
  {
  }

  /** More time never means more remaining volume. */
  lemma RemainingDecreases(p: Plan, s: real, t: real)
    requires p.Valid() && s <= t
    ensures p.RemainingAt(t) <= p.RemainingAt(s)
  {
    hide Product;
    var s', t' := p.Clamp(s), p.Clamp(t);
    if Product(p.kappa, p.duration) < FLAT {
      FractionMonotone(p, s', t', p.duration);
      ProductMonotone(p.total as real, 1.0 - p.Fraction(t', p.duration), 1.0 - p.Fraction(s', p.duration));
    } else {
      ProductMonotone(p.kappa, p.duration - t', p.duration - s');
      SinhMonotone(p.sinh, Product(p.kappa, p.duration - t'), Product(p.kappa, p.duration - s'));
      ProductMonotone(p.total as real, p.sinh(Product(p.kappa, p.duration - t')), p.sinh(Product(p.kappa, p.duration - s')));
      FractionMonotone(p, Product(p.total as real, p.sinh(Product(p.kappa, p.duration - t'))),
                       Product(p.total as real, p.sinh(Product(p.kappa, p.duration - s'))), p.sinh(Product(p.kappa, p.duration)));
    }
  }

  /** The curve runs from nothing to everything. */
  lemma CurveEnds(p: Plan)
    requires p.Valid()
    ensures p.CumulativeAt(0.0) == 0.0 && p.CumulativeAt(p.duration) == p.total as real
  {
    assert p.Clamp(0.0) == 0.0 && p.Clamp(p.duration) == p.duration;
    assert Product(p.kappa, 0.0) == 0.0;
    if Product(p.kappa, p.duration) < FLAT {
      assert p.duration / p.duration == 1.0;
    } else {
      var d := p.sinh(Product(p.kappa, p.duration));
      assert d > 0.0;
      assert p.duration - 0.0 == p.duration;
      assert Product(p.total as real, d) / d == p.total as real;
      assert Product(p.total as real, 0.0) / d == 0.0;
    }
  }

  // ---------- bisection ----------

  /** t halved n times. */
  function Halved(t: real, n: nat): (r: real)
    ensures t > 0.0 ==> r > 0.0
  {
    if n == 0 then t else Halved(t, n - 1) / 2.0
  }

  /** The interval after n rounds. */
  function Bracket(p: Plan, target: real, n: nat): (r: (real, real))
    requires p.Valid()
  {
    if n == 0 then (0.0, p.duration)
    else
      var (low, high) := Bracket(p, target, n - 1);
      var mid := (low + high) / 2.0;
      if p.CumulativeAt(mid) < target then (mid, high) else (low, mid)
  }

  function CompletionTime(p: Plan, volume: real): real
    requires p.Valid()
  {
    if volume <= 0.0 then 0.0
    else if volume >= p.total as real then p.duration
    else
      var (low, high) := Bracket(p, volume, ROUNDS);
      (low + high) / 2.0
  }

  /** Every round keeps the crossing inside the interval and halves it. */
  lemma {:induction false} BracketHolds(p: Plan, target: real, n: nat)
    requires p.Valid() && 0.0 < target < p.total as real
    ensures var (low, high) := Bracket(p, target, n);
            && 0.0 <= low && high <= p.duration && high - low == Halved(p.duration, n)
            && p.CumulativeAt(low) < target <= p.CumulativeAt(high)
  {
    hide Plan.CumulativeAt;
    if n == 0 {
      CurveEnds(p);
    } else {
      BracketHolds(p, target, n - 1);
    }
  }

  /** The result lies within duration / 2^81 of both ends of an interval in which the curve crosses the target. */
  lemma CompletionIsClose(p: Plan, volume: real)
    requires p.Valid() && 0.0 < volume < p.total as real
    ensures var r, e := CompletionTime(p, volume), Halved(p.duration, ROUNDS + 1);
            && 0.0 < r < p.duration
            && p.CumulativeAt(r - e) < volume <= p.CumulativeAt(r + e)
  {
    hide Plan.CumulativeAt, Bracket;
    BracketHolds(p, volume, ROUNDS);
    assert Halved(p.duration, ROUNDS + 1) == Halved(p.duration, ROUNDS) / 2.0;
  }

  lemma CompletionInRange(p: Plan, volume: real)
    requires p.Valid()
    ensures 0.0 <= CompletionTime(p, volume) <= p.duration
    ensures volume > 0.0 ==> CompletionTime(p, volume) > 0.0
  {
    if 0.0 < volume < p.total as real {
      CompletionIsClose(p, volume);
    }
  }

  /** Two bisections side by side: the intervals are the same, or that of the larger target lies later. */
  lemma {:induction false} BracketsOrdered(p: Plan, v: real, w: real, n: nat)
    requires p.Valid() && 0.0 < v <= w < p.total as real
    ensures Bracket(p, v, n) == Bracket(p, w, n) || Bracket(p, v, n).1 <= Bracket(p, w, n).0
  {
    hide Plan.CumulativeAt;
    if n == 0 {
    } else {
      BracketsOrdered(p, v, w, n - 1);
      BracketHolds(p, v, n - 1);
      BracketHolds(p, w, n - 1);
    }
  }

  /** A larger volume is never completed earlier. */
  lemma CompletionMonotone(p: Plan, v: real, w: real)
    requires p.Valid() && v <= w
    ensures CompletionTime(p, v) <= CompletionTime(p, w)
  {
    hide Plan.CumulativeAt, Bracket;
    CompletionInRange(p, v);
    CompletionInRange(p, w);
    if 0.0 < v && w < p.total as real {
      BracketsOrdered(p, v, w, ROUNDS);
      BracketHolds(p, v, ROUNDS);
      BracketHolds(p, w, ROUNDS);
    }
  }

  method CompletionTimeFor(p: Plan, cumulative: real) returns (t: real)
    requires p.Valid()
    ensures t == CompletionTime(p, cumulative)
  {
    var target := if cumulative < 0.0 then 0.0 else if cumulative > p.total as real then p.total as real else cumulative;
    if target <= 0.0 {
      return 0.0;
    }
    if target >= p.total as real {
      return p.duration;
    }
    var low, high := 0.0, p.duration;
    for i := 0 to ROUNDS
      invariant (low, high) == Bracket(p, target, i)
    {
      var midpoint := (low + high) / 2.0;
      if p.CumulativeAt(midpoint) < target {
        low := midpoint;
      } else {
        high := midpoint;
      }
    }
    return (low + high) / 2.0;
  }

  // ---------- the curve ----------

  /**
   * The curve is the Almgren-Chriss one: what remains is to the total as sinh of the remaining time is to sinh of the
   * whole, times at which kappa scales; with next to no curvature it is a straight line.
   */
  lemma CurveIsAlmgrenChriss(p: Plan, t: real)
    requires p.Valid() && 0.0 <= t <= p.duration
    ensures if p.kappa * p.duration < FLAT then p.RemainingAt(t) * p.duration == p.total as real * (p.duration - t)
            else p.RemainingAt(t) * p.sinh(p.kappa * p.duration) == p.total as real * p.sinh(p.kappa * (p.duration - t))
  {
    var d, k := p.duration, Product(p.kappa, p.duration);
    if k < FLAT {
      assert p.RemainingAt(t) == Product(p.total as real, 1.0 - p.Fraction(t, d));
      StraightLine(p, t);
    } else {
      assert p.RemainingAt(t) == p.Fraction(Product(p.total as real, p.sinh(Product(p.kappa, d - t))), p.sinh(k));
      Quotient(p, Product(p.total as real, p.sinh(Product(p.kappa, d - t))), p.sinh(k));
    }
  }

  lemma StraightLine(p: Plan, t: real)
    requires p.duration > 0.0
    ensures Product(p.total as real, 1.0 - p.Fraction(t, p.duration)) * p.duration == p.total as real * (p.duration - t)
  {
    var n, d, x := p.total as real, p.duration, p.Fraction(t, p.duration);
    Quotient(p, t, d);
    assert n * (1.0 - x) * d == n * (d - x * d);
  }

  lemma Quotient(p: Plan, x: real, y: real)
    requires y > 0.0
    ensures p.Fraction(x, y) * y == x
  {
  }

  // ---------- tranches ----------

  datatype Slot = Slot(sequence: nat, start: real, deadline: real)

  /** Tranches in order, deadlines never decreasing, positive, the last at the end of the plan; starts before deadlines. */
  ghost predicate Schedule(p: Plan, horizon: real, slots: seq<Slot>) {
    && (forall i :: 0 <= i < |slots| ==> slots[i].sequence == i + 1)
    && (forall i :: 0 <= i < |slots| ==> 0.0 < slots[i].deadline <= p.duration)
    && (forall i, j :: 0 <= i < j < |slots| ==> slots[i].deadline <= slots[j].deadline)
    && (forall i :: 0 <= i < |slots| ==> 
         && 0.0 <= slots[i].start < slots[i].deadline && slots[i].deadline - slots[i].start <= horizon
         && (slots[i].start == 0.0 || slots[i].deadline - slots[i].start == horizon))
  }

  /** build_tranches; None for a volume that is not a multiple of the model inventory. */
  method BuildTranches(p: Plan, horizon: real) returns (ok: bool, slots: seq<Slot>)
    requires p.Valid() && horizon > 0.0
    ensures ok <==> p.total % INVENTORY == 0
    ensures ok ==> |slots| * INVENTORY == p.total && Schedule(p, horizon, slots)
    ensures ok ==> slots != [] && slots[|slots| - 1].deadline == p.duration
    ensures ok ==> forall i :: 0 <= i < |slots| ==> slots[i].deadline == CompletionTime(p, ((i + 1) * INVENTORY) as real)
  {
    slots := [];
    if p.total % INVENTORY != 0 {
      return false, [];
    }
    var count := p.total / INVENTORY;
    for index := 1 to count + 1
      invariant |slots| == index - 1
      invariant Schedule(p, horizon, slots)
      invariant forall i :: 0 <= i < |slots| ==> slots[i].deadline == CompletionTime(p, ((i + 1) * INVENTORY) as real)
    {
      var milestone := index * INVENTORY;
      var deadline := CompletionTimeFor(p, milestone as real);
      CompletionInRange(p, milestone as real);
      forall i | 0 <= i < |slots|
        ensures slots[i].deadline <= deadline
      {
        CompletionMonotone(p, ((i + 1) * INVENTORY) as real, milestone as real);
      }
      var start := if deadline - horizon > 0.0 then deadline - horizon else 0.0;
      slots := slots + [Slot(index, start, deadline)];
    }
    ok := true;
  }
}
