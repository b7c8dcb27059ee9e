/** When an active tranche asks the policy for a decision (Tranche.activate, decision_due and record_decision in models.py). */
module DecisionClock {
  import opened Wrappers
  import opened Models

  const DECISIONS := 10

  /** The planned time of decision k, from the start. */
  function Offset(horizon: real, k: nat): real {
    k as real * (horizon / DECISIONS as real)
  }

  function Ratio(t: real, h: real): real
    requires h > 0.0
  {
    t / h
  }

  datatype Clock = Clock(started: real, deadline: real, next: Option<real>, index: nat) {
    function Horizon(): real {
      if deadline - started > 0.0 then deadline - started else 0.0
    }

    function Due(now: real): bool {
      index < DECISIONS && next.Some? && now >= next.value && now < deadline
    }

    /** normalized_time: how much of the horizon has passed. */
    function Normalized(now: real): real {
      var h := deadline - started;
      if h <= 0.0 then 1.0
      else
        var x := Ratio(now - started, h);
        if x < 0.0 then 0.0 else if x > 1.0 then 1.0 else x
    }

    /** The next decision comes a tenth of the horizon after the previous one was planned, whenever that one was made. */
    ghost predicate OnGrid() {
      index <= DECISIONS && next == if index < DECISIONS then Some(Point(index)) else None
    }

    function Point(k: nat): real {
      started + Offset(Horizon(), k)
    }
  }

  lemma StartOfGrid(h: real)
    ensures Offset(h, 0) == 0.0
  {
  }

  lemma NoGrid(k: nat)
    ensures Offset(0.0, k) == 0.0
  {
    assert 0.0 / DECISIONS as real == 0.0;
  }

  function Recorded(c: Clock): Clock {
    if c.index + 1 >= DECISIONS then c.(index := c.index + 1, next := None)
    else c.(index := c.index + 1, next := Some(c.started + Offset(c.Horizon(), c.index + 1)))
  }

  class TrancheClock {
    var status: TrancheStatus
    var clock: Option<Clock>

    ghost predicate Valid()
      reads this
    {
      (status == Waiting ==> clock == None) && (status == Active ==> clock.Some?) && (clock.Some? ==> clock.value.OnGrid())
    }

    constructor ()
      ensures Valid() && status == Waiting
    {
      status, clock := Waiting, None;
    }

    method Activate(now: real, parentStarted: real, offset: real) returns (ok: bool)
      requires Valid()
      modifies this
      ensures Valid() && (ok <==> old(status) == Waiting)
      ensures ok ==> status == Active && clock == Some(Clock(now, parentStarted + offset, Some(now), 0))
      ensures !ok ==> status == old(status) && clock == old(clock)
    {
      if status != Waiting {
        return false;
      }
      StartOfGrid(Clock(now, parentStarted + offset, Some(now), 0).Horizon());
      clock := Some(Clock(now, parentStarted + offset, Some(now), 0));
      status := Active;
      ok := true;
    }

    /** decision_due, and record_decision when a decision is made. */
    method DecideIfDue(now: real) returns (decided: bool)
      requires Valid()
      modifies this`clock
      ensures Valid()
      ensures decided <==> status == Active && old(clock).Some? && old(clock).value.Due(now)
      ensures decided ==> clock == Some(Recorded(old(clock).value))
      ensures !decided ==> clock == old(clock)
    {
      hide Offset, Ratio;
      decided := status == Active && clock.value.Due(now);
      if decided {
        var c := clock.value;
        var index := c.index + 1;
        if index >= DECISIONS {
          clock := Some(c.(index := index, next := None));
        } else {
          clock := Some(c.(index := index, next := Some(c.started + Offset(c.Horizon(), index))));
        }
      }
    }
  }

  // ---------- runs ----------

  /** Timer events while the tranche is active: a decision is made whenever one is due. */
  function After(c: Clock, times: seq<real>): Clock {
    if times == [] then c
    else
      var before := After(c, times[..|times| - 1]);
      if before.Due(times[|times| - 1]) then Recorded(before) else before
  }

  lemma {:induction false} AfterOnGrid(c: Clock, times: seq<real>)
    requires c.OnGrid()
    ensures After(c, times).OnGrid() && After(c, times).started == c.started && After(c, times).deadline == c.deadline
    ensures c.index <= After(c, times).index
  {
    hide Offset, Ratio;
    if times == [] {
    } else {
      AfterOnGrid(c, times[..|times| - 1]);
    }
  }

  /** The decisions made along a run. */
  function Decisions(c: Clock, times: seq<real>): nat {
    if times == [] then 0
    else
      var n := |times| - 1;
      Decisions(c, times[..n]) + if After(c, times[..n]).Due(times[n]) then 1 else 0
  }

  /** No run makes more than ten decisions, and the index counts them: after the tenth none is ever due again. */
  lemma {:induction false} AtMostTen(c: Clock, times: seq<real>)
    requires c.OnGrid() && c.index == 0
    ensures Decisions(c, times) == After(c, times).index <= DECISIONS
    ensures Decisions(c, times) == DECISIONS ==> forall now :: !After(c, times).Due(now)
  {
    hide Offset, Ratio;
    AfterOnGrid(c, times);
    if times == [] {
    } else {
      AtMostTen(c, times[..|times| - 1]);
    }
  }

  /** A tenth of the time to the deadline for each decision made; a deadline not after the start leaves no time. */
  function Planned(started: real, deadline: real, k: nat): real {
    started + k as real / 10.0 * (if deadline > started then deadline - started else 0.0)
  }

  lemma PlannedIsPoint(c: Clock, k: nat)
    ensures Planned(c.started, c.deadline, k) == c.Point(k)
  {
    hide Offset;
    OffsetIs(c.Horizon(), k);
  }

  /** In any run the next decision, the one with number k, is due exactly from its planned time on and before the end. */
  lemma DueExactly(c: Clock, times: seq<real>, now: real)
    requires c.OnGrid() && c.index == 0
    ensures var k := Decisions(c, times);
            After(c, times).Due(now) <==> k < 10 && Planned(c.started, c.deadline, k) <= now < c.deadline
  {
    hide Ratio, Offset, Planned;
    AfterOnGrid(c, times);
    AtMostTen(c, times);
    PlannedIsPoint(After(c, times), Decisions(c, times));
  }

  /** In any run the decision with number k is made in the last 10 - k tenths of the horizon, and before its end. */
  lemma DecisionInItsPart(c: Clock, times: seq<real>, now: real)
    requires c.OnGrid() && After(c, times).Due(now)
    ensures var k := After(c, times).index; k < DECISIONS && k as real / 10.0 <= After(c, times).Normalized(now) < 1.0
  {
    hide Offset, Ratio;
    AfterOnGrid(c, times);
    var d := After(c, times);
    NoGrid(d.index);
    assert d.started < d.deadline;
    GridPoint(d.deadline - d.started, d.index, now - d.started);
  }

  lemma GridPoint(h: real, k: nat, t: real)
    requires h > 0.0 && Offset(h, k) <= t < h
    ensures k as real / 10.0 <= Ratio(t, h) < 1.0
  {
    hide Ratio, Offset;
    var x, f := Ratio(t, h), k as real / 10.0;
    DivideBack(t, h);
    OffsetIs(h, k);
    LessByProduct(f, x, h);
    assert x * h < h;
    MoreByProduct(x, h);
  }

  lemma OffsetIs(h: real, k: nat)
    ensures Offset(h, k) == k as real / 10.0 * h
  {
  }

  lemma DivideBack(t: real, h: real)
    requires h > 0.0
    ensures Ratio(t, h) * h == t
  {
  }

  lemma LessByProduct(f: real, x: real, h: real)
    requires h > 0.0 && f * h <= x * h
    ensures f <= x
  {
    assert f > x ==> (f - x) * h > 0.0;
  }

  lemma MoreByProduct(x: real, h: real)
    requires h > 0.0 && x * h < h
    ensures x < 1.0
  {
    assert x >= 1.0 ==> (x - 1.0) * h >= 0.0;
  }

  /** A tranche started at or after its deadline never asks for a decision. */
  lemma LateStartNeverDecides(c: Clock, times: seq<real>, now: real)
    requires c.OnGrid() && c.deadline <= c.started
    ensures !After(c, times).Due(now)
  {
    hide Offset, Ratio;
    AfterOnGrid(c, times);
    NoGrid(After(c, times).index);
  }
}
