/** Capacity and admission of tranches (tranche_scheduler.py), as the engine's timer drives them (engine.py). */
module Scheduler {
  import Planner

  // ---------- the capacity sweep ----------

  datatype Boundary = Boundary(time: real, delta: int)

  /** The sort key of the sweep: time first, then ends before starts. */
  predicate Before(a: Boundary, b: Boundary) {
    a.time < b.time || (a.time == b.time && a.delta <= b.delta)
  }

  function Insert(b: Boundary, s: seq<Boundary>): (r: seq<Boundary>)
    ensures |r| == |s| + 1
  {
    if s == [] || Before(b, s[0]) then [b] + s else [s[0]] + Insert(b, s[1..])
  }

  function Sorted(s: seq<Boundary>): (r: seq<Boundary>)
    ensures |r| == |s|
  {
    if s == [] then [] else Insert(s[0], Sorted(s[1..]))
  }

  predicate InOrder(s: seq<Boundary>) {
    forall i, j :: 0 <= i < j < |s| ==> Before(s[i], s[j])
  }

  lemma {:induction false} InsertMember(b: Boundary, s: seq<Boundary>, x: Boundary)
    ensures x in Insert(b, s) <==> x == b || x in s
  {
    if s != [] && !Before(b, s[0]) {
      InsertMember(b, s[1..], x);
      assert s == [s[0]] + s[1..];
    }
  }

  lemma {:induction false} InsertInOrder(b: Boundary, s: seq<Boundary>)
    requires InOrder(s)
    ensures InOrder(Insert(b, s))
  {
    if s != [] && !Before(b, s[0]) {
      InsertInOrder(b, s[1..]);
      var r := Insert(b, s[1..]);
      forall j | 0 <= j < |r|
        ensures Before(s[0], r[j])
      {
        InsertMember(b, s[1..], r[j]);
      }
    }
  }

  lemma {:induction false} SortedInOrder(s: seq<Boundary>)
    ensures InOrder(Sorted(s))
  {
    if s == [] {
    } else {
      SortedInOrder(s[1..]);
      InsertInOrder(s[0], Sorted(s[1..]));
    }
  }

  /** Sum of the deltas up to and including a point in time. */
  function Net(s: seq<Boundary>, t: real): int {
    if s == [] then 0 else (if s[0].time <= t then s[0].delta else 0) + Net(s[1..], t)
  }

  function SumDeltas(s: seq<Boundary>): int {
    if s == [] then 0 else SumDeltas(s[..|s| - 1]) + s[|s| - 1].delta
  }

  lemma {:induction false} NetInsert(b: Boundary, s: seq<Boundary>, t: real)
    ensures Net(Insert(b, s), t) == (if b.time <= t then b.delta else 0) + Net(s, t)
  {
    if s == [] || Before(b, s[0]) {
      assert ([b] + s)[1..] == s;
    } else {
      NetInsert(b, s[1..], t);
      assert ([s[0]] + Insert(b, s[1..]))[1..] == Insert(b, s[1..]);
    }
  }

  /** Sorting moves no boundary in time. */
  lemma {:induction false} NetSorted(s: seq<Boundary>, t: real)
    ensures Net(Sorted(s), t) == Net(s, t)
  {
    if s == [] {
    } else {
      NetSorted(s[1..], t);
      NetInsert(s[0], Sorted(s[1..]), t);
    }
  }

  lemma {:induction false} NetAppend(s: seq<Boundary>, b: Boundary, t: real)
    ensures Net(s + [b], t) == Net(s, t) + if b.time <= t then b.delta else 0
  {
    if s == [] {
      assert s + [b] == [b];
    } else {
      assert (s + [b])[1..] == s[1..] + [b];
      NetAppend(s[1..], b, t);
    }
  }

  /** A sweep over a sorted list has seen, at some prefix, exactly what lies up to a given time. */
  lemma {:induction false} NetIsPrefix(s: seq<Boundary>, t: real)
    requires InOrder(s)
    ensures exists k :: 0 <= k <= |s| && SumDeltas(s[..k]) == Net(s, t)
  {
    if s == [] {
      assert SumDeltas(s[..0]) == Net(s, t);
    } else {
      var n := |s| - 1;
      assert s == s[..n] + [s[n]];
      NetAppend(s[..n], s[n], t);
      NetIsPrefix(s[..n], t);
      if s[n].time <= t {
        AllUpTo(s, t);
        assert s[..|s|] == s;
      } else {
        var k :| 0 <= k <= n && SumDeltas(s[..n][..k]) == Net(s[..n], t);
        assert s[..n][..k] == s[..k];
      }
    }
  }

  lemma {:induction false} AllUpTo(s: seq<Boundary>, t: real)
    requires forall i :: 0 <= i < |s| ==> s[i].time <= t
    ensures SumDeltas(s) == Net(s, t)
  {
    if s == [] {
    } else {
      var n := |s| - 1;
      AllUpTo(s[..n], t);
      assert s == s[..n] + [s[n]];
      NetAppend(s[..n], s[n], t);
    }
  }

  /** What the sweep counts never exceeds what holds at some point in time. */
  lemma {:induction false} PrefixAtMostNet(s: seq<Boundary>, k: nat)
    requires InOrder(s) && k <= |s| && forall i :: 0 <= i < |s| ==> s[i].delta == 1 || s[i].delta == -1
    ensures SumDeltas(s[..k]) <= 0 || exists i :: 0 <= i < k && s[i].delta == 1 && SumDeltas(s[..k]) <= Net(s, s[i].time)
    decreases k
  {
    if k == 0 {
    } else {
      var b := s[k - 1];
      assert s[..k][..k - 1] == s[..k - 1];
      if b.delta == -1 {
        PrefixAtMostNet(s, k - 1);
      } else {
        var t := b.time;
        assert s == s[..k] + s[k..];
        NetConcat(s[..k], s[k..], t);
        AllUpTo(s[..k], t);
        OnlyStarts(s[k..], t);
      }
    }
  }

  lemma {:induction false} NetConcat(a: seq<Boundary>, b: seq<Boundary>, t: real)
    ensures Net(a + b, t) == Net(a, t) + Net(b, t)
  {
    if a == [] {
      assert a + b == b;
    } else {
      assert (a + b)[1..] == a[1..] + b;
      NetConcat(a[1..], b, t);
    }
  }

  lemma {:induction false} OnlyStarts(s: seq<Boundary>, t: real)
    requires forall i :: 0 <= i < |s| && s[i].time <= t ==> s[i].delta == 1
    ensures Net(s, t) >= 0
  {
    if s == [] {
    } else {
      OnlyStarts(s[1..], t);
    }
  }

  // ---------- overlap ----------

  /** The half-open interval in which a tranche is meant to be live. */
  predicate Covers(slot: Planner.Slot, t: real) {
    slot.start <= t < slot.deadline
  }

  /** How many tranches are meant to be live at a time. */
  function Overlap(slots: seq<Planner.Slot>, t: real): nat {
    if slots == [] then 0 else Overlap(slots[..|slots| - 1], t) + if Covers(slots[|slots| - 1], t) then 1 else 0
  }

  function Boundaries(slots: seq<Planner.Slot>): seq<Boundary> {
    if slots == [] then []
    else
      var slot := slots[|slots| - 1];
      Boundaries(slots[..|slots| - 1]) + [Boundary(slot.start, 1), Boundary(slot.deadline, -1)]
  }

  ghost predicate Proper(slots: seq<Planner.Slot>) {
    forall i :: 0 <= i < |slots| ==> slots[i].start < slots[i].deadline
  }

  lemma {:induction false} NetIsOverlap(slots: seq<Planner.Slot>, t: real)
    requires Proper(slots)
    ensures Net(Boundaries(slots), t) == Overlap(slots, t)
  {
    if slots == [] {
    } else {
      var n := |slots| - 1;
      NetIsOverlap(slots[..n], t);
      var a, b := Boundary(slots[n].start, 1), Boundary(slots[n].deadline, -1);
      NetConcat(Boundaries(slots[..n]), [a, b], t);
      assert [a, b][1..] == [b];
      assert [b][1..] == [];
      assert Net([b], t) == (if b.time <= t then -1 else 0) + Net([], t);
      assert Net([a, b], t) == (if a.time <= t then 1 else 0) - (if b.time <= t then 1 else 0);
    }
  }

  lemma {:induction false} BoundaryDeltas(slots: seq<Planner.Slot>, i: nat)
    requires i < |Boundaries(slots)|
    ensures Boundaries(slots)[i].delta == 1 || Boundaries(slots)[i].delta == -1
  {
    var n := |slots| - 1;
    if i < |Boundaries(slots[..n])| {
      BoundaryDeltas(slots[..n], i);
    }
  }

  lemma {:induction false} SortedMember(s: seq<Boundary>, x: Boundary)
    ensures x in Sorted(s) <==> x in s
  {
    if s == [] {
    } else {
      SortedMember(s[1..], x);
      InsertMember(s[0], Sorted(s[1..]), x);
      assert s == [s[0]] + s[1..];
    }
  }

  predicate AtMost(slots: seq<Planner.Slot>, peak: nat, t: real) {
    Overlap(slots, t) <= peak
  }

  predicate Exactly(slots: seq<Planner.Slot>, peak: nat, t: real) {
    Overlap(slots, t) == peak
  }

  /** The most tranches meant to be live at once. */
  ghost predicate IsPeak(slots: seq<Planner.Slot>, peak: nat) {
    && (forall t :: AtMost(slots, peak, t))
    && (exists t :: Exactly(slots, peak, t))
  }

  lemma {:induction false} OverlapBefore(slots: seq<Planner.Slot>, t: real)
    requires forall i :: 0 <= i < |slots| ==> t < slots[i].start
    ensures Overlap(slots, t) == 0
  {
    if slots == [] {
    } else {
      OverlapBefore(slots[..|slots| - 1], t);
    }
  }

  lemma {:induction false} SomethingBefore(slots: seq<Planner.Slot>) returns (t: real)
    ensures forall i :: 0 <= i < |slots| ==> t < slots[i].start
  {
    t := 0.0;
    if slots == [] {
    } else {
      var n := |slots| - 1;
      var u := SomethingBefore(slots[..n]);
      t := if u < slots[n].start then u else slots[n].start - 1.0;
      forall i | 0 <= i < |slots|
        ensures t < slots[i].start
      {
        assert i < n ==> slots[i] == slots[..n][i];
      }
    }
  }

  /** The sweep: the largest running sum over the sorted boundaries is the largest overlap of the intervals. */
  method Capacity(slots: seq<Planner.Slot>) returns (peak: nat)
    requires Proper(slots)
    ensures IsPeak(slots, peak)
  {
    var boundaries := Sorted(Boundaries(slots));
    peak := 0;
    var active := 0;
    var best := 0;
    var k := 0;
    while k < |boundaries|
      invariant 0 <= k <= |boundaries| && active == SumDeltas(boundaries[..k])
      invariant forall j :: 0 <= j <= k ==> SumDeltas(boundaries[..j]) <= peak
      invariant 0 <= best <= k && peak == SumDeltas(boundaries[..best])
    {
      assert boundaries[..k + 1][..k] == boundaries[..k];
      active := active + boundaries[k].delta;
      if active > peak {
        peak := active;
        best := k + 1;
      }
      k := k + 1;
    }
    PeakOfSweep(slots, boundaries, peak, best);
  }

  lemma PeakOfSweep(slots: seq<Planner.Slot>, boundaries: seq<Boundary>, peak: nat, best: nat)
    requires Proper(slots) && boundaries == Sorted(Boundaries(slots)) && best <= |boundaries|
    requires forall j :: 0 <= j <= |boundaries| ==> SumDeltas(boundaries[..j]) <= peak
    requires peak == SumDeltas(boundaries[..best])
    ensures IsPeak(slots, peak)
  {
    SortedInOrder(Boundaries(slots));
    forall t
      ensures AtMost(slots, peak, t)
    {
      NetSorted(Boundaries(slots), t);
      NetIsOverlap(slots, t);
      NetIsPrefix(boundaries, t);
    }
    forall i | 0 <= i < |boundaries|
      ensures boundaries[i].delta == 1 || boundaries[i].delta == -1
    {
      SortedMember(Boundaries(slots), boundaries[i]);
      var j :| 0 <= j < |Boundaries(slots)| && Boundaries(slots)[j] == boundaries[i];
      BoundaryDeltas(slots, j);
    }
    PrefixAtMostNet(boundaries, best);
    if peak > 0 {
      var i :| 0 <= i < best && boundaries[i].delta == 1 && SumDeltas(boundaries[..best]) <= Net(boundaries, boundaries[i].time);
      var t := boundaries[i].time;
      NetSorted(Boundaries(slots), t);
      NetIsOverlap(slots, t);
      assert AtMost(slots, peak, t);
      assert Exactly(slots, peak, t);
    } else {
      var t := SomethingBefore(slots);
      OverlapBefore(slots, t);
      assert Exactly(slots, peak, t);
    }
  }
}
