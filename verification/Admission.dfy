/** Which tranches the engine's timer starts, over whole runs (tranche_scheduler.py, engine.py, models.py). */
module Admission {
  import opened Models
  import opened Scheduler
  import Planner

  type Slots = seq<Planner.Slot>
  type Statuses = seq<TrancheStatus>

  predicate Live(status: TrancheStatus) {
    status == Active || status == Closing
  }

  predicate Ripe(slot: Planner.Slot, status: TrancheStatus, elapsed: real) {
    status == Waiting && slot.start <= elapsed
  }

  function LiveCount(st: Statuses): nat {
    if st == [] then 0 else LiveCount(st[..|st| - 1]) + if Live(st[|st| - 1]) then 1 else 0
  }

  /** Positions of the tranches that wait and are due. */
  function Eligible(slots: Slots, st: Statuses, elapsed: real): (r: seq<nat>)
    requires |st| == |slots|
    ensures Indexes(slots, r)
  {
    if st == [] then []
    else
      var n := |st| - 1;
      Eligible(slots[..n], st[..n], elapsed) + if Ripe(slots[n], st[n], elapsed) then [n] else []
  }

  /** Earlier deadline first, then the lower sequence number. */
  predicate Ahead(slots: Slots, i: nat, j: nat)
    requires i < |slots| && j < |slots|
  {
    var a, b := slots[i], slots[j];
    a.deadline < b.deadline || (a.deadline == b.deadline && a.sequence <= b.sequence)
  }

  predicate Indexes(slots: Slots, ids: seq<nat>) {
    forall k :: 0 <= k < |ids| ==> ids[k] < |slots|
  }

  function Place(slots: Slots, i: nat, ids: seq<nat>): (r: seq<nat>)
    requires i < |slots| && Indexes(slots, ids)
    ensures Indexes(slots, r) && |r| == |ids| + 1
    decreases |ids|
  {
    if ids == [] || Ahead(slots, i, ids[0]) then [i] + ids else [ids[0]] + Place(slots, i, ids[1..])
  }

  function Queue(slots: Slots, ids: seq<nat>): (r: seq<nat>)
    requires Indexes(slots, ids)
    ensures Indexes(slots, r) && |r| == |ids|
  {
    if ids == [] then [] else Place(slots, ids[0], Queue(slots, ids[1..]))
  }

  function DueToStart(slots: Slots, st: Statuses, limit: nat, elapsed: real): (r: seq<nat>)
    requires |st| == |slots|
    ensures Indexes(slots, r)
  {
    var live := LiveCount(st);
    if limit <= live then []
    else
      var waiting := Queue(slots, Eligible(slots, st, elapsed));
      if limit - live < |waiting| then waiting[..limit - live] else waiting
  }

  // ---------- what is admitted ----------

  predicate InQueue(slots: Slots, ids: seq<nat>)
    requires Indexes(slots, ids)
  {
    forall i, j :: 0 <= i < j < |ids| ==> Ahead(slots, ids[i], ids[j])
  }

  lemma {:induction false} PlaceMember(slots: Slots, i: nat, ids: seq<nat>)
    requires i < |slots| && Indexes(slots, ids)
    ensures multiset(Place(slots, i, ids)) == multiset(ids) + multiset{i}
    decreases |ids|
  {
    if ids != [] && !Ahead(slots, i, ids[0]) {
      PlaceMember(slots, i, ids[1..]);
      assert ids == [ids[0]] + ids[1..];
    }
  }

  lemma {:induction false} PlaceInQueue(slots: Slots, i: nat, ids: seq<nat>)
    requires i < |slots| && Indexes(slots, ids) && InQueue(slots, ids)
    ensures InQueue(slots, Place(slots, i, ids))
    decreases |ids|
  {
    if ids != [] && !Ahead(slots, i, ids[0]) {
      PlaceInQueue(slots, i, ids[1..]);
      PlaceMember(slots, i, ids[1..]);
      var r := Place(slots, i, ids[1..]);
      forall j | 0 <= j < |r|
        ensures Ahead(slots, ids[0], r[j])
      {
        assert r[j] in multiset(r);
        assert r[j] == i || r[j] in ids[1..];
      }
    }
  }

  lemma {:induction false} QueueIsSorted(slots: Slots, ids: seq<nat>)
    requires Indexes(slots, ids)
    ensures InQueue(slots, Queue(slots, ids)) && multiset(Queue(slots, ids)) == multiset(ids)
  {
    if ids == [] {
    } else {
      QueueIsSorted(slots, ids[1..]);
      PlaceInQueue(slots, ids[0], Queue(slots, ids[1..]));
      PlaceMember(slots, ids[0], Queue(slots, ids[1..]));
      assert ids == [ids[0]] + ids[1..];
    }
  }

  lemma {:induction false} EligibleMember(slots: Slots, st: Statuses, elapsed: real, i: nat)
    requires |st| == |slots|
    ensures i in Eligible(slots, st, elapsed) <==> i < |st| && Ripe(slots[i], st[i], elapsed)
    ensures multiset(Eligible(slots, st, elapsed))[i] <= 1
  {
    hide Ripe;
    if st == [] {
    } else {
      EligibleMember(slots[..|st| - 1], st[..|st| - 1], elapsed, i);
    }
  }

  /** An entry of the sorted waiting list waits and is due, and is listed once. */
  lemma WaitingListed(slots: Slots, st: Statuses, elapsed: real, k: nat)
    requires |st| == |slots| && k < |Queue(slots, Eligible(slots, st, elapsed))|
    ensures var w := Queue(slots, Eligible(slots, st, elapsed));
            Ripe(slots[w[k]], st[w[k]], elapsed) && forall l :: k < l < |w| ==> w[k] != w[l]
  {
    hide Ripe, Queue, Eligible, InQueue;
    var ids := Eligible(slots, st, elapsed);
    var w := Queue(slots, ids);
    QueueIsSorted(slots, ids);
    assert w[k] in multiset(w);
    EligibleMember(slots, st, elapsed, w[k]);
    forall l | k < l < |w|
      ensures w[k] != w[l]
    {
      TwiceIn(w, k, l);
    }
  }

  lemma TwiceIn(s: seq<nat>, k: nat, l: nat)
    requires k < l < |s|
    ensures s[k] == s[l] ==> multiset(s)[s[k]] >= 2
  {
    assert s == s[..l] + s[l..];
    assert s[..l][k] == s[k] && s[l..][0] == s[l];
    assert s[k] in multiset(s[..l]) && s[l] in multiset(s[l..]);
  }

  lemma QueueHas(slots: Slots, st: Statuses, elapsed: real, j: nat) returns (k: nat)
    requires |st| == |slots| && j < |st| && Ripe(slots[j], st[j], elapsed)
    ensures k < |Queue(slots, Eligible(slots, st, elapsed))| && Queue(slots, Eligible(slots, st, elapsed))[k] == j
  {
    hide Ripe, Queue, Eligible, InQueue;
    var ids := Eligible(slots, st, elapsed);
    QueueIsSorted(slots, ids);
    EligibleMember(slots, st, elapsed, j);
    var w := Queue(slots, ids);
    assert j in multiset(w);
    k :| 0 <= k < |w| && w[k] == j;
  }

  /** Earliest deadlines are started first: whoever is started comes before whoever is not. */
  lemma AdmitsByDeadline(slots: Slots, st: Statuses, limit: nat, elapsed: real, i: nat, j: nat)
    requires |st| == |slots| && i in DueToStart(slots, st, limit, elapsed)
    requires j < |st| && Ripe(slots[j], st[j], elapsed) && j !in DueToStart(slots, st, limit, elapsed)
    ensures i < |st| && Ripe(slots[i], st[i], elapsed) && Ahead(slots, i, j)
  {
    hide Ripe, Queue, Eligible, Ahead;
    var ids := Eligible(slots, st, elapsed);
    var w, due := Queue(slots, ids), DueToStart(slots, st, limit, elapsed);
    QueueIsSorted(slots, ids);
    var k :| 0 <= k < |due| && due[k] == i;
    WaitingListed(slots, st, elapsed, k);
    var l := QueueHas(slots, st, elapsed, j);
    assert l >= |due|;
  }

  /** Only waiting tranches that are due are started, each once, and no more than there is room for. */
  lemma DueAre(slots: Slots, st: Statuses, limit: nat, elapsed: real)
    requires |st| == |slots|
    ensures var due := DueToStart(slots, st, limit, elapsed);
            && (forall k :: 0 <= k < |due| ==> Ripe(slots[due[k]], st[due[k]], elapsed))
            && (forall k, l :: 0 <= k < l < |due| ==> due[k] != due[l])
            && LiveCount(st) + |due| <= if LiveCount(st) < limit then limit else LiveCount(st)
  {
    hide Ripe, Queue, Eligible;
    forall k | 0 <= k < |Queue(slots, Eligible(slots, st, elapsed))|
      ensures var w := Queue(slots, Eligible(slots, st, elapsed));
              Ripe(slots[w[k]], st[w[k]], elapsed) && forall l :: k < l < |w| ==> w[k] != w[l]
    {
      WaitingListed(slots, st, elapsed, k);
    }
  }

  /** If a due tranche is not started, no place is left. */
  lemma NoPlaceLeft(slots: Slots, st: Statuses, limit: nat, elapsed: real, j: nat)
    requires |st| == |slots| && j < |st| && Ripe(slots[j], st[j], elapsed) && j !in DueToStart(slots, st, limit, elapsed)
    ensures LiveCount(st) + |DueToStart(slots, st, limit, elapsed)| >= limit
  {
    hide Ripe, Queue, Eligible, LiveCount;
    var k := QueueHas(slots, st, elapsed, j);
    assert limit > LiveCount(st) ==> k >= |DueToStart(slots, st, limit, elapsed)|;
  }

  // ---------- capacity ----------

  /** Live tranches have been due before. */
  ghost predicate Started(slots: Slots, st: Statuses, elapsed: real)
    requires |st| == |slots|
  {
    forall i :: 0 <= i < |st| && Live(st[i]) ==> slots[i].start <= elapsed
  }

  ghost predicate BeforeDeadlines(slots: Slots, st: Statuses, elapsed: real)
    requires |st| == |slots|
  {
    forall i :: 0 <= i < |st| && (Live(st[i]) || Ripe(slots[i], st[i], elapsed)) ==> elapsed < slots[i].deadline
  }

  /** Live and eligible tranches all lie within their intervals at that time. */
  lemma {:induction false} LiveAndEligibleOverlap(slots: Slots, st: Statuses, elapsed: real)
    requires |st| == |slots| && Started(slots, st, elapsed) && BeforeDeadlines(slots, st, elapsed)
    ensures LiveCount(st) + |Eligible(slots, st, elapsed)| <= Overlap(slots, elapsed)
  {
    if st == [] {
    } else {
      var n := |st| - 1;
      LiveAndEligibleOverlap(slots[..n], st[..n], elapsed);
    }
  }

  /**
   * With at least as many places as the peak of the sweep, and no live or eligible tranche past its own deadline,
   * every eligible tranche is started.
   */
  lemma CapacitySuffices(slots: Slots, st: Statuses, limit: nat, elapsed: real, peak: nat, i: nat)
    requires |st| == |slots| && IsPeak(slots, peak) && peak <= limit
    requires Started(slots, st, elapsed) && BeforeDeadlines(slots, st, elapsed)
    requires i < |st| && Ripe(slots[i], st[i], elapsed)
    ensures i in DueToStart(slots, st, limit, elapsed)
  {
    hide Ripe, Queue, Eligible, Overlap, Started, BeforeDeadlines, LiveCount;
    LiveAndEligibleOverlap(slots, st, elapsed);
    assert AtMost(slots, peak, elapsed);
    var k := QueueHas(slots, st, elapsed, i);
    assert DueToStart(slots, st, limit, elapsed)[k] == i;
  }

  // ---------- runs ----------

  function Activate(st: Statuses, ids: seq<nat>): (r: Statuses)
    requires forall k :: 0 <= k < |ids| ==> ids[k] < |st|
    ensures |r| == |st| && forall i :: 0 <= i < |st| ==> r[i] == if i in ids then Active else st[i]
  {
    if ids == [] then st
    else
      assert ids == [ids[0]] + ids[1..];
      Activate(st, ids[1..])[ids[0] := Active]
  }

  lemma {:induction false} LiveMore(st: Statuses, i: nat)
    requires i < |st| && !Live(st[i])
    ensures LiveCount(st[i := Active]) == LiveCount(st) + 1
  {
    var n := |st| - 1;
    if i == n {
      assert st[i := Active][..n] == st[..n];
    } else {
      assert st[i := Active][..n] == st[..n][i := Active];
      LiveMore(st[..n], i);
    }
  }

  lemma {:induction false} ActivateCounts(st: Statuses, ids: seq<nat>)
    requires forall k :: 0 <= k < |ids| ==> ids[k] < |st| && st[ids[k]] == Waiting
    requires forall k, l :: 0 <= k < l < |ids| ==> ids[k] != ids[l]
    ensures LiveCount(Activate(st, ids)) == LiveCount(st) + |ids|
  {
    if ids == [] {
    } else {
      ActivateCounts(st, ids[1..]);
      LiveMore(Activate(st, ids[1..]), ids[0]);
    }
  }

  function AllWaiting(st: Statuses): (r: seq<nat>)
    ensures forall k :: 0 <= k < |r| ==> r[k] < |st|
  {
    if st == [] then [] else AllWaiting(st[..|st| - 1]) + if st[|st| - 1] == Waiting then [|st| - 1] else []
  }

  /** One timer event: start what is due; at the parent's deadline start everything still waiting. */
  function Tick(slots: Slots, st: Statuses, limit: nat, duration: real, elapsed: real): (r: Statuses)
    requires |st| == |slots|
    ensures |r| == |st|
  {
    var started := Activate(st, DueToStart(slots, st, limit, elapsed));
    if elapsed >= duration then Activate(started, AllWaiting(started)) else started
  }

  /** What the coordinator does to tranches (EngineRuns.StepIsQuiet): it brings none to life; a resumed parent may send one back to waiting. */
  ghost predicate Quiet(st: Statuses, st': Statuses) {
    && |st'| == |st|
    && forall i :: 0 <= i < |st| && Live(st'[i]) ==> Live(st[i])
  }

  datatype Event = Timer(elapsed: real) | Change(statuses: Statuses)

  /** Time goes on, and stays before the parent's deadline; other changes are quiet. */
  ghost predicate Possible(slots: Slots, st: Statuses, clock: real, limit: nat, duration: real, events: seq<Event>)
    requires |st| == |slots|
    decreases |events|
  {
    events == [] ||
    match events[0]
    case Timer(elapsed) =>
      clock <= elapsed < duration && Possible(slots, Tick(slots, st, limit, duration, elapsed), elapsed, limit, duration, events[1..])
    case Change(st') => Quiet(st, st') && Possible(slots, st', clock, limit, duration, events[1..])
  }

  ghost function After(slots: Slots, st: Statuses, clock: real, limit: nat, duration: real, events: seq<Event>): (r: Statuses)
    requires |st| == |slots| && Possible(slots, st, clock, limit, duration, events)
    ensures |r| == |slots|
    decreases |events|
  {
    if events == [] then st
    else
      match events[0]
      case Timer(elapsed) => After(slots, Tick(slots, st, limit, duration, elapsed), elapsed, limit, duration, events[1..])
      case Change(st') => After(slots, st', clock, limit, duration, events[1..])
  }

  function ClockAfter(clock: real, events: seq<Event>): real
    decreases |events|
  {
    if events == [] then clock else ClockAfter(if events[0].Timer? then events[0].elapsed else clock, events[1..])
  }

  lemma {:induction false} QuietCounts(st: Statuses, st': Statuses)
    requires Quiet(st, st')
    ensures LiveCount(st') <= LiveCount(st)
  {
    if st == [] {
    } else {
      QuietCounts(st[..|st| - 1], st'[..|st| - 1]);
    }
  }

  lemma TickKeeps(slots: Slots, st: Statuses, limit: nat, duration: real, clock: real, elapsed: real)
    requires |st| == |slots| && LiveCount(st) <= limit && Started(slots, st, clock) && clock <= elapsed < duration
    ensures var r := Tick(slots, st, limit, duration, elapsed); LiveCount(r) <= limit && Started(slots, r, elapsed)
  {
    hide LiveCount, DueToStart;
    var due := DueToStart(slots, st, limit, elapsed);
    DueAre(slots, st, limit, elapsed);
    ActivateCounts(st, due);
  }

  /** In every run before the parent's deadline at most the configured number of tranches is live, each of them due. */
  lemma {:induction false} RunWithinLimit(slots: Slots, st: Statuses, clock: real, limit: nat, duration: real, events: seq<Event>)
    requires |st| == |slots| && LiveCount(st) <= limit && Started(slots, st, clock) && Possible(slots, st, clock, limit, duration, events)
    ensures var r := After(slots, st, clock, limit, duration, events);
            LiveCount(r) <= limit && Started(slots, r, ClockAfter(clock, events))
    decreases |events|
  {
    hide LiveCount, Tick;
    if events == [] {
    } else {
      match events[0]
      case Timer(elapsed) =>
        TickKeeps(slots, st, limit, duration, clock, elapsed);
        RunWithinLimit(slots, Tick(slots, st, limit, duration, elapsed), elapsed, limit, duration, events[1..]);
      case Change(st') =>
        QuietCounts(st, st');
        RunWithinLimit(slots, st', clock, limit, duration, events[1..]);
    }
  }

  lemma StartedLater(slots: Slots, st: Statuses, clock: real, elapsed: real)
    requires |st| == |slots| && Started(slots, st, clock) && clock <= elapsed
    ensures Started(slots, st, elapsed)
  {
  }

  /** In every such run, with sufficient capacity, a timer event makes live every tranche that waits and is due by then. */
  lemma RunStartsAllDue(slots: Slots, st: Statuses, clock: real, limit: nat, duration: real, events: seq<Event>, elapsed: real, peak: nat, i: nat)
    requires |st| == |slots| && LiveCount(st) <= limit && Started(slots, st, clock) && Possible(slots, st, clock, limit, duration, events)
    requires IsPeak(slots, peak) && peak <= limit && ClockAfter(clock, events) <= elapsed
    requires var r := After(slots, st, clock, limit, duration, events);
             BeforeDeadlines(slots, r, elapsed) && i < |r| && Ripe(slots[i], r[i], elapsed)
    ensures Tick(slots, After(slots, st, clock, limit, duration, events), limit, duration, elapsed)[i] == Active
  {
    hide LiveCount, DueToStart, IsPeak, Started, BeforeDeadlines, Ripe;
    RunWithinLimit(slots, st, clock, limit, duration, events);
    var r := After(slots, st, clock, limit, duration, events);
    StartedLater(slots, r, ClockAfter(clock, events), elapsed);
    CapacitySuffices(slots, r, limit, elapsed, peak, i);
  }

  lemma {:induction false} WaitingMember(st: Statuses)
    ensures forall k :: 0 <= k < |AllWaiting(st)| ==> st[AllWaiting(st)[k]] == Waiting
    ensures forall k, l :: 0 <= k < l < |AllWaiting(st)| ==> AllWaiting(st)[k] != AllWaiting(st)[l]
  {
    if st == [] {
    } else {
      WaitingMember(st[..|st| - 1]);
    }
  }

  lemma {:induction false} WaitingOneLess(st: Statuses, i: nat)
    requires i < |st| && st[i] == Waiting
    ensures |AllWaiting(st[i := Active])| == |AllWaiting(st)| - 1
  {
    var n := |st| - 1;
    if i == n {
      assert st[i := Active][..n] == st[..n];
    } else {
      assert st[i := Active][..n] == st[..n][i := Active];
      WaitingOneLess(st[..n], i);
    }
  }

  lemma {:induction false} WaitingLess(st: Statuses, ids: seq<nat>)
    requires forall k :: 0 <= k < |ids| ==> ids[k] < |st| && st[ids[k]] == Waiting
    requires forall k, l :: 0 <= k < l < |ids| ==> ids[k] != ids[l]
    ensures |AllWaiting(Activate(st, ids))| == |AllWaiting(st)| - |ids|
  {
    if ids == [] {
    } else {
      WaitingLess(st, ids[1..]);
      WaitingOneLess(Activate(st, ids[1..]), ids[0]);
    }
  }

  /**
   * From the parent's deadline on the limit is not kept: it is exceeded exactly if more tranches are live or waiting.
   * This counts before they are closed, where one that has nothing left drops out (EngineRuns.DeadlineLeavesUnfinished).
   */
  lemma DeadlineExceedsIff(slots: Slots, st: Statuses, limit: nat, duration: real, elapsed: real)
    requires |st| == |slots| && LiveCount(st) <= limit && duration <= elapsed
    ensures LiveCount(Tick(slots, st, limit, duration, elapsed)) > limit <==> LiveCount(st) + |AllWaiting(st)| > limit
  {
    hide LiveCount, DueToStart, AllWaiting, Activate;
    var due := DueToStart(slots, st, limit, elapsed);
    DueAre(slots, st, limit, elapsed);
    ActivateCounts(st, due);
    WaitingLess(st, due);
    var started := Activate(st, due);
    WaitingMember(started);
    ActivateCounts(started, AllWaiting(started));
  }

  /** Two tranches meant to be live one after the other, so that one place suffices. */
  const IN_TURN := [Planner.Slot(1, 0.0, 5.0), Planner.Slot(2, 5.0, 10.0)]

  lemma OneAtATime()
    ensures IsPeak(IN_TURN, 1)
  {
    forall t: real
      ensures AtMost(IN_TURN, 1, t)
    {
      OverlapOfTwo(t);
    }
    OverlapOfTwo(0.0);
    assert Exactly(IN_TURN, 1, 0.0);
  }

  lemma OverlapOfTwo(t: real)
    ensures Overlap(IN_TURN, t) == if 0.0 <= t < 10.0 then 1 else 0
  {
    assert IN_TURN[..1] == [IN_TURN[0]] && IN_TURN[..1][..0] == [];
    assert Overlap(IN_TURN[..1], t) == if 0.0 <= t < 5.0 then 1 else 0;
  }

  /** Neither was started before the parent's deadline, for want of market data or because of a pause: then both are live. */
  lemma TwoAtTheDeadline()
    ensures IsPeak(IN_TURN, 1)
    ensures LiveCount([Waiting, Waiting]) == 0 && LiveCount(Tick(IN_TURN, [Waiting, Waiting], 1, 10.0, 10.0)) > 1
  {
    hide Tick, IsPeak;
    var st: Statuses := [Waiting, Waiting];
    assert st[..1] == [Waiting] && st[..1][..0] == [];
    assert AllWaiting(st[..1]) == [0] && AllWaiting(st) == [0, 1];
    assert LiveCount(st[..1]) == 0;
    OneAtATime();
    DeadlineExceedsIff(IN_TURN, st, 1, 10.0, 10.0);
  }
}
