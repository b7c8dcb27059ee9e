/**
 * The engine's timer and the coordinator together (engine.py, tranche_scheduler.py): how many tranches of a parent are
 * live when timer events, user commands, closings and order reports are interleaved.
 */
module EngineRuns {
  import opened Models
  import opened Coordinator
  import opened CoordinatorRuns
  import A = Admission
  import Scheduler

  /** The parent's tranches as the scheduler sees them. */
  function Statuses(s: State, p: ParentId): seq<TrancheStatus>
    requires p in s.parents
  {
    var ts := s.parents[p].tranches;
    seq(|ts|, i requires 0 <= i < |ts| => ts[i].status)
  }

  // ---------- what the coordinator does to statuses ----------

  /** No tranche of the parent comes to life. */
  ghost predicate Quieter(s: State, s': State, p: ParentId) {
    p in s.parents && p in s'.parents && A.Quiet(Statuses(s, p), Statuses(s', p))
  }

  lemma SameIsQuiet(s: State, s': State, p: ParentId)
    requires p in s.parents && s'.parents == s.parents
    ensures Quieter(s, s', p)
  {
  }

  lemma QuietChain(s: State, s1: State, s2: State, p: ParentId)
    requires Quieter(s, s1, p) && Quieter(s1, s2, p)
    ensures Quieter(s, s2, p)
  {
    var a, b, c := Statuses(s, p), Statuses(s1, p), Statuses(s2, p);
    forall i | 0 <= i < |a| && A.Live(c[i])
      ensures A.Live(a[i])
    {
      assert A.Live(b[i]);
    }
  }

  lemma QuietPause(s: State, q: ParentId, p: ParentId)
    requires q in s.parents && p in s.parents
    ensures Quieter(s, PauseParent(s, q), p)
  {
  }

  lemma QuietSend(gw: Gateway, s: State, r: Request, p: ParentId)
    requires r.key.parent in s.parents && p in s.parents
    ensures Quieter(s, Send(gw, s, r), p)
  {
    hide Quieter, PauseParent;
    var s1 := s.(sent := s.sent + [r]);
    SameIsQuiet(s, s1, p);
    QuietPause(s1, r.key.parent, p);
    QuietChain(s, s1, PauseParent(s1, r.key.parent), p);
    if Send(gw, s, r).parents == s.parents {
      SameIsQuiet(s, Send(gw, s, r), p);
    }
  }

  lemma {:induction false} QuietDeficits(gw: Gateway, s: State, k: Key, t: Target, b: nat, p: ParentId)
    requires Known(s, k) && b <= INACTIVE && p in s.parents
    ensures Quieter(s, SendDeficits(gw, s, k, t, b), p)
    decreases INACTIVE - b
  {
    hide Quieter, Send, Deficit;
    if b == INACTIVE {
      SameIsQuiet(s, s, p);
    } else {
      DeficitKey(s, k, t, b);
      var s1 := Send(gw, s, Deficit(s, k, t, b));
      QuietSend(gw, s, Deficit(s, k, t, b), p);
      QuietDeficits(gw, s1, k, t, b + 1, p);
      QuietChain(s, s1, SendDeficits(gw, s, k, t, b), p);
    }
  }

  lemma DeficitKey(s: State, k: Key, t: Target, b: nat)
    requires Known(s, k) && b < INACTIVE
    ensures Deficit(s, k, t, b).key == k
  {
  }

  lemma QuietReconcile(gw: Gateway, s: State, k: Key, p: ParentId)
    requires Known(s, k) && p in s.parents
    ensures Quieter(s, Reconcile(gw, s, k).state, p)
  {
    hide Quieter, SendDeficits, MarkExcess;
    SameIsQuiet(s, s, p);
    if k in s.targets {
      var s1 := s.(orders := MarkExcess(s.orders, k, s.targets[k]));
      SameIsQuiet(s, s1, p);
      QuietDeficits(gw, s1, k, s.targets[k], 0, p);
      QuietChain(s, s1, SendDeficits(gw, s1, k, s.targets[k], 0), p);
    }
  }

  /** Reconciling under a new target. */
  lemma QuietRetarget(gw: Gateway, s: State, k: Key, t: Target, p: ParentId)
    requires Known(s, k) && p in s.parents
    ensures Quieter(s, Reconcile(gw, s.(targets := s.targets[k := t]), k).state, p)
  {
    hide Quieter, Reconcile;
    var s1 := s.(targets := s.targets[k := t]);
    SameIsQuiet(s, s1, p);
    QuietReconcile(gw, s1, k, p);
    QuietChain(s, s1, Reconcile(gw, s1, k).state, p);
  }

  /** A tranche that takes a new status which is not live, or was live before. */
  lemma QuietSet(s: State, k: Key, t: Tranche, p: ParentId)
    requires Known(s, k) && p in s.parents && (k.parent == p && A.Live(t.status) ==> A.Live(TrancheOf(s, k).status))
    ensures Quieter(s, SetTranche(s, k, t), p)
  {
  }

  lemma QuietFinish(gw: Gateway, s: State, k: Key, bid: int, p: ParentId)
    requires Known(s, k) && p in s.parents
    ensures Quieter(s, FinishClosing(gw, s, k, bid), p)
  {
    hide Quieter, Send, Available, Sum;
    var t, s' := TrancheOf(s, k), FinishClosing(gw, s, k, bid);
    if t.Remaining() == 0 {
      QuietSet(s, k, t.(status := Completed), p);
    } else if Sum(LiveOf(k), s.orders) > 0 {
      SameIsQuiet(s, s', p);
    } else {
      QuietSend(gw, s, Request(k, Min(t.Remaining(), Available(s, k)), bid, 0, true), p);
    }
  }

  /** Closing a tranche brings only a waiting one to life. */
  lemma QuietClose(gw: Gateway, s: State, k: Key, bid: int, p: ParentId)
    requires Known(s, k) && p in s.parents && (k.parent == p ==> TrancheOf(s, k).status != Waiting)
    ensures Quieter(s, BeginClose(gw, s, k, bid), p)
  {
    hide Quieter, FinishClosing, SetTranche;
    SameIsQuiet(s, s, p);
    var t := TrancheOf(s, k);
    if t.status == Closing {
      QuietFinish(gw, s, k, bid, p);
    } else if t.status == Active || t.status == Waiting {
      var s0 := SetTranche(s, k, t.(status := Closing));
      var s1 := s0.(targets := s.targets - {k}, orders := MarkTranche(s.orders, k));
      QuietSet(s, k, t.(status := Closing), p);
      SetKnown(s, k, t.(status := Closing));
      assert p in s0.parents by { QuietIn(s, s0, p); }
      SameIsQuiet(s0, s1, p);
      QuietFinish(gw, s1, k, bid, p);
      QuietChain(s, s0, s1, p);
      QuietChain(s, s1, BeginClose(gw, s, k, bid), p);
    }
  }

  lemma QuietIn(s: State, s': State, p: ParentId)
    requires Quieter(s, s', p)
    ensures p in s'.parents
  {
  }

  lemma SetKnown(s: State, k: Key, t: Tranche)
    requires Known(s, k)
    ensures Known(SetTranche(s, k, t), k)
  {
  }

  lemma QuietDeliver(s: State, i: nat, r: Report, p: ParentId)
    requires i < |s.orders| && Known(s, s.orders[i].key) && p in s.parents
    ensures Quieter(s, Deliver(s, i, r).state, p)
  {
    hide Quieter, Fill, PauseParent, Complete;
    var k, b := s.orders[i].key, Fill(s, i, r).state;
    QuietFill(s, i, r, p);
    QuietPause(b, k.parent, p);
    QuietComplete(b, k, p);
    QuietChain(s, b, PauseParent(b, k.parent), p);
    QuietChain(s, b, Complete(b, k), p);
  }

  lemma QuietFill(s: State, i: nat, r: Report, p: ParentId)
    requires i < |s.orders| && Known(s, s.orders[i].key) && p in s.parents
    ensures Quieter(s, Fill(s, i, r).state, p) && Known(Fill(s, i, r).state, s.orders[i].key) && p in Fill(s, i, r).state.parents
  {
    hide Consume;
  }

  lemma QuietComplete(s: State, k: Key, p: ParentId)
    requires Known(s, k) && p in s.parents
    ensures Quieter(s, Complete(s, k), p)
  {
  }

  lemma QuietReport(s: State, r: Report, p: ParentId)
    requires p in s.parents
    ensures Quieter(s, ProcessOrder(s, r).state, p)
  {
    hide Quieter, Deliver;
    var s0 := if IndexOf(s.orders, r.id) < |s.orders| then s else Adopt(s, r);
    SameIsQuiet(s, s0, p);
    var i := IndexOf(s0.orders, r.id);
    if i < |s0.orders| && Known(s0, s0.orders[i].key) {
      QuietDeliver(s0, i, r, p);
      QuietChain(s, s0, Deliver(s0, i, r).state, p);
    }
  }

  lemma QuietCommand(s: State, q: ParentId, p: ParentId)
    requires q in s.parents && p in s.parents
    ensures Quieter(s, CancelParent(s, q), p) && Quieter(s, ResumeParent(s, q).state, p)
  {
  }

  /** What the engine does not do to a tranche outside the timer's admission: start it, or close it before it ever started. */
  predicate Calm(s: State, e: Event, p: ParentId) {
    match e
    case Register(q, _) => q != p
    case Activate(k) => k.parent != p
    case Close(k, _) => k.parent == p && Known(s, k) ==> TrancheOf(s, k).status != Waiting
    case _ => true
  }

  /** Every other call into the coordinator, and every report, brings no tranche of the parent to life. */
  lemma StepIsQuiet(gw: Gateway, s: State, e: Event, p: ParentId)
    requires Enabled(s, e) && p in s.parents && Calm(s, e, p)
    ensures Quieter(s, Step(gw, s, e).state, p)
  {
    hide Quieter, Reconcile, BeginClose, FinishClosing, PauseParent, CancelParent, ResumeParent, ProcessOrder, TargetQuantities, SetTranche;
    SameIsQuiet(s, s, p);
    match e
    case Register(q, volumes) => QuietRegister(s, q, volumes, p);
    case Activate(k) => QuietSet(s, k, TrancheOf(s, k).(status := Active), p);
    case Decide(k, intent, bid) =>
      QuietRetarget(gw, s, k, Target(TargetQuantities(intent, TrancheOf(s, k).Remaining()), bid), p);
    case Refresh(k, bid) =>
      if k in s.targets {
        QuietRetarget(gw, s, k, s.targets[k].(bid := bid), p);
      }
    case Close(k, bid) => QuietClose(gw, s, k, bid, p);
    case KeepClosing(k, bid) => QuietFinish(gw, s, k, bid, p);
    case Pause(q) => QuietPause(s, q, p);
    case Resume(q) => QuietCommand(s, q, p);
    case Cancel(q) => QuietCommand(s, q, p);
    case Inform(r) => QuietReport(s, r, p);
  }

  lemma QuietRegister(s: State, q: ParentId, volumes: seq<nat>, p: ParentId)
    requires p in s.parents && q != p
    ensures Quieter(s, s.(parents := s.parents[q := NewParent(volumes)]), p)
  {
  }

  // ---------- runs of the engine ----------

  /** A parent with the slots of its tranches, the number of tranches that may be live, and its duration. */
  datatype Job = Job(p: ParentId, slots: A.Slots, limit: nat, duration: real)

  /** A timer event of a running parent before its deadline, or any other call into the coordinator. */
  datatype Move = Timer(elapsed: real) | Call(e: Event)

  function Activations(p: ParentId, ids: seq<nat>): seq<Event> {
    seq(|ids|, i requires 0 <= i < |ids| => Activate(Key(p, ids[i])))
  }

  ghost predicate Fits(gw: Gateway, j: Job, es: seq<Event>) {
    && Reach(gw, es).At? && j.p in Reach(gw, es).s.parents
    && |Statuses(Reach(gw, es).s, j.p)| == |j.slots|
  }

  function Due(s: State, j: Job, elapsed: real): seq<nat>
    requires j.p in s.parents && |Statuses(s, j.p)| == |j.slots|
  {
    A.DueToStart(j.slots, Statuses(s, j.p), j.limit, elapsed)
  }

  /**
   * The engine's run, as the calls es it has made so far. A timer event starts what the scheduler says; every other
   * call is one that the engine makes outside that. That the parent stays known, as Fits says, is no condition:
   * TimerTicks and CallIsQuiet show it of every move.
   */
  ghost predicate EngineRun(gw: Gateway, j: Job, es: seq<Event>, clock: real, moves: seq<Move>)
    requires Fits(gw, j, es)
    decreases |moves|
  {
    moves == [] ||
    var s := Reach(gw, es).s;
    match moves[0]
    case Timer(elapsed) =>
      var next := es + Activations(j.p, Due(s, j, elapsed));
      && clock <= elapsed < j.duration && s.parents[j.p].status == Running
      && Fits(gw, j, next) && EngineRun(gw, j, next, elapsed, moves[1..])
    case Call(e) =>
      && Enabled(s, e) && Calm(s, e, j.p)
      && Fits(gw, j, es + [e]) && EngineRun(gw, j, es + [e], clock, moves[1..])
  }

  /** The calls made by the end of the run. */
  ghost function CallsAfter(gw: Gateway, j: Job, es: seq<Event>, clock: real, moves: seq<Move>): (r: seq<Event>)
    requires Fits(gw, j, es) && EngineRun(gw, j, es, clock, moves)
    ensures Fits(gw, j, r)
    decreases |moves|
  {
    if moves == [] then es
    else
      match moves[0]
      case Timer(elapsed) => CallsAfter(gw, j, es + Activations(j.p, Due(Reach(gw, es).s, j, elapsed)), elapsed, moves[1..])
      case Call(e) => CallsAfter(gw, j, es + [e], clock, moves[1..])
  }

  function ClockAfter(clock: real, moves: seq<Move>): real
    decreases |moves|
  {
    if moves == [] then clock else ClockAfter(if moves[0].Timer? then moves[0].elapsed else clock, moves[1..])
  }

  // ---------- no move fails ----------

  lemma ActivateStatuses(gw: Gateway, s: State, p: ParentId, i: nat)
    requires p in s.parents && Enabled(s, Activate(Key(p, i)))
    ensures var s' := Step(gw, s, Activate(Key(p, i))).state;
            && p in s'.parents && Statuses(s', p) == Statuses(s, p)[i := Active] && s'.parents[p].status == s.parents[p].status
  {
  }

  /** The scheduler's choice can be started, one tranche after the other, and changes nothing else. */
  lemma {:induction false} ActivationsReach(gw: Gateway, es: seq<Event>, p: ParentId, ids: seq<nat>)
    requires Reach(gw, es).At? && p in Reach(gw, es).s.parents && Reach(gw, es).s.parents[p].status == Running
    requires var st := Statuses(Reach(gw, es).s, p);
             && (forall k :: 0 <= k < |ids| ==> ids[k] < |st| && st[ids[k]] == Waiting)
             && (forall k, l :: 0 <= k < l < |ids| ==> ids[k] != ids[l])
    ensures var r := Reach(gw, es + Activations(p, ids));
            && r.At? && p in r.s.parents && r.s.parents[p].status == Running
            && Statuses(r.s, p) == A.Activate(Statuses(Reach(gw, es).s, p), ids)
  {
    hide Reach, Enabled, Step, A.Activate, Statuses;
    var n := |ids| - 1;
    if ids == [] {
      assert es + [] == es;
      ActivateNone(Statuses(Reach(gw, es).s, p));
    } else {
      var before := es + Activations(p, ids[..n]);
      assert forall k :: 0 <= k < n ==> ids[..n][k] == ids[k];
      ActivationsReach(gw, es, p, ids[..n]);
      assert es + Activations(p, ids) == before + [Activate(Key(p, ids[n]))];
      LastApart(ids);
      ActivateAppend(Statuses(Reach(gw, es).s, p), ids[..n], ids[n]);
      ActivateOne(gw, before, p, ids[n]);
    }
  }

  lemma ActivateOne(gw: Gateway, before: seq<Event>, p: ParentId, i: nat)
    requires Reach(gw, before).At? && p in Reach(gw, before).s.parents && Reach(gw, before).s.parents[p].status == Running
    requires i < |Statuses(Reach(gw, before).s, p)| && Statuses(Reach(gw, before).s, p)[i] == Waiting
    ensures var r := Reach(gw, before + [Activate(Key(p, i))]);
            && r.At? && p in r.s.parents && r.s.parents[p].status == Running
            && Statuses(r.s, p) == Statuses(Reach(gw, before).s, p)[i := Active]
  {
    hide Reach, Enabled, Step;
    MayActivate(Reach(gw, before).s, p, i);
    ReachNext(gw, before, Activate(Key(p, i)));
    ActivateStatuses(gw, Reach(gw, before).s, p, i);
  }

  lemma ActivateNone(st: seq<TrancheStatus>)
    ensures A.Activate(st, []) == st
  {
  }

  lemma LastApart(ids: seq<nat>)
    requires ids != [] && forall k, l :: 0 <= k < l < |ids| ==> ids[k] != ids[l]
    ensures ids == ids[..|ids| - 1] + [ids[|ids| - 1]] && ids[|ids| - 1] !in ids[..|ids| - 1]
  {
  }

  lemma ActivateAppend(st: seq<TrancheStatus>, ids: seq<nat>, x: nat)
    requires (forall k :: 0 <= k < |ids| ==> ids[k] < |st|) && x < |st| && x !in ids
    ensures A.Activate(st, ids + [x]) == A.Activate(st, ids)[x := Active]
    ensures A.Activate(st, ids)[x] == st[x]
  {
  }

  lemma MayActivate(s: State, p: ParentId, i: nat)
    requires p in s.parents && s.parents[p].status == Running && i < |Statuses(s, p)| && Statuses(s, p)[i] == Waiting
    ensures Enabled(s, Activate(Key(p, i)))
  {
  }

  /** A timer event is the scheduler's tick. */
  lemma TimerTicks(gw: Gateway, j: Job, es: seq<Event>, elapsed: real)
    requires Fits(gw, j, es) && Reach(gw, es).s.parents[j.p].status == Running && elapsed < j.duration
    ensures var next := es + Activations(j.p, Due(Reach(gw, es).s, j, elapsed));
            && Fits(gw, j, next)
            && Statuses(Reach(gw, next).s, j.p)
               == A.Tick(j.slots, Statuses(Reach(gw, es).s, j.p), j.limit, j.duration, elapsed)
  {
    hide Reach, Step, Enabled, A.DueToStart, A.LiveCount;
    A.DueAre(j.slots, Statuses(Reach(gw, es).s, j.p), j.limit, elapsed);
    ActivationsReach(gw, es, j.p, Due(Reach(gw, es).s, j, elapsed));
  }

  lemma CallIsQuiet(gw: Gateway, j: Job, es: seq<Event>, e: Event)
    requires Fits(gw, j, es) && Enabled(Reach(gw, es).s, e) && Calm(Reach(gw, es).s, e, j.p)
    ensures Fits(gw, j, es + [e]) && A.Quiet(Statuses(Reach(gw, es).s, j.p), Statuses(Reach(gw, es + [e]).s, j.p))
  {
    hide Reach, Step, Enabled, Calm;
    ReachNext(gw, es, e);
    StepIsQuiet(gw, Reach(gw, es).s, e, j.p);
  }

  // ---------- the engine's runs are the scheduler's ----------

  /** What happened to the statuses, as a run of the scheduler. */
  ghost function Changes(gw: Gateway, j: Job, es: seq<Event>, clock: real, moves: seq<Move>): seq<A.Event>
    requires Fits(gw, j, es) && EngineRun(gw, j, es, clock, moves)
    decreases |moves|
  {
    if moves == [] then []
    else
      match moves[0]
      case Timer(elapsed) =>
        [A.Timer(elapsed)] + Changes(gw, j, es + Activations(j.p, Due(Reach(gw, es).s, j, elapsed)), elapsed, moves[1..])
      case Call(e) =>
        [A.Change(Statuses(Reach(gw, es + [e]).s, j.p))] + Changes(gw, j, es + [e], clock, moves[1..])
  }

  lemma {:induction false} EngineRefines(gw: Gateway, j: Job, es: seq<Event>, clock: real, moves: seq<Move>)
    requires Fits(gw, j, es) && EngineRun(gw, j, es, clock, moves)
    ensures var st, cs := Statuses(Reach(gw, es).s, j.p), Changes(gw, j, es, clock, moves);
            && A.Possible(j.slots, st, clock, j.limit, j.duration, cs)
            && A.After(j.slots, st, clock, j.limit, j.duration, cs)
               == Statuses(Reach(gw, CallsAfter(gw, j, es, clock, moves)).s, j.p)
            && A.ClockAfter(clock, cs) == ClockAfter(clock, moves)
    decreases |moves|
  {
    hide Reach, Enabled, Calm, Statuses, A.Tick, A.Quiet, Activations, Due;
    if moves == [] {
    } else {
      match moves[0]
      case Timer(elapsed) =>
        var next := es + Activations(j.p, Due(Reach(gw, es).s, j, elapsed));
        TimerTicks(gw, j, es, elapsed);
        EngineRefines(gw, j, next, elapsed, moves[1..]);
        assert ([A.Timer(elapsed)] + Changes(gw, j, next, elapsed, moves[1..]))[1..] == Changes(gw, j, next, elapsed, moves[1..]);
      case Call(e) =>
        CallIsQuiet(gw, j, es, e);
        EngineRefines(gw, j, es + [e], clock, moves[1..]);
        var c := A.Change(Statuses(Reach(gw, es + [e]).s, j.p));
        assert ([c] + Changes(gw, j, es + [e], clock, moves[1..]))[1..] == Changes(gw, j, es + [e], clock, moves[1..]);
    }
  }

  // ---------- results ----------

  /**
   * From the parent's registration on, whatever decisions, closings, commands and reports come between the timer
   * events, at most the configured number of its tranches is live before its deadline, each of them due.
   */
  lemma EngineWithinLimit(gw: Gateway, j: Job, es: seq<Event>, volumes: seq<nat>, clock: real, moves: seq<Move>)
    requires Reach(gw, es).At? && Enabled(Reach(gw, es).s, Register(j.p, volumes)) && |volumes| == |j.slots|
    requires Fits(gw, j, es + [Register(j.p, volumes)]) && EngineRun(gw, j, es + [Register(j.p, volumes)], clock, moves)
    ensures var st := Statuses(Reach(gw, CallsAfter(gw, j, es + [Register(j.p, volumes)], clock, moves)).s, j.p);
            A.LiveCount(st) <= j.limit && A.Started(j.slots, st, ClockAfter(clock, moves))
  {
    hide Reach, EngineRun, CallsAfter, A.Possible, A.After, A.LiveCount;
    var start := es + [Register(j.p, volumes)];
    NothingLive(gw, j, es, volumes, clock);
    EngineRefines(gw, j, start, clock, moves);
    A.RunWithinLimit(j.slots, Statuses(Reach(gw, start).s, j.p), clock, j.limit, j.duration, Changes(gw, j, start, clock, moves));
  }

  /** With enough places for the peak of the plan, a timer event of such a run starts every tranche that waits and is due. */
  lemma EngineStartsAllDue(gw: Gateway, j: Job, es: seq<Event>, volumes: seq<nat>, clock: real, moves: seq<Move>,
                           elapsed: real, peak: nat, i: nat)
    requires Reach(gw, es).At? && Enabled(Reach(gw, es).s, Register(j.p, volumes)) && |volumes| == |j.slots|
    requires Fits(gw, j, es + [Register(j.p, volumes)]) && EngineRun(gw, j, es + [Register(j.p, volumes)], clock, moves)
    requires Scheduler.IsPeak(j.slots, peak) && peak <= j.limit && ClockAfter(clock, moves) <= elapsed < j.duration
    requires var s := Reach(gw, CallsAfter(gw, j, es + [Register(j.p, volumes)], clock, moves)).s;
             && s.parents[j.p].status == Running && A.BeforeDeadlines(j.slots, Statuses(s, j.p), elapsed)
             && i < |j.slots| && A.Ripe(j.slots[i], Statuses(s, j.p)[i], elapsed)
    ensures var calls := CallsAfter(gw, j, es + [Register(j.p, volumes)], clock, moves);
            var next := calls + Activations(j.p, Due(Reach(gw, calls).s, j, elapsed));
            Fits(gw, j, next) && Statuses(Reach(gw, next).s, j.p)[i] == Active
  {
    hide Reach, EngineRun, CallsAfter, Statuses, Due, Activations, A.Possible, A.After, A.LiveCount, A.Tick, A.Ripe, A.BeforeDeadlines,
      A.Started, Scheduler.IsPeak;
    var start := es + [Register(j.p, volumes)];
    var calls := CallsAfter(gw, j, start, clock, moves);
    NothingLive(gw, j, es, volumes, clock);
    EngineRefines(gw, j, start, clock, moves);
    A.RunStartsAllDue(j.slots, Statuses(Reach(gw, start).s, j.p), clock, j.limit, j.duration, Changes(gw, j, start, clock, moves), elapsed, peak, i);
    TimerTicks(gw, j, calls, elapsed);
  }

  lemma NothingLive(gw: Gateway, j: Job, es: seq<Event>, volumes: seq<nat>, clock: real)
    requires Reach(gw, es).At? && Enabled(Reach(gw, es).s, Register(j.p, volumes)) && |volumes| == |j.slots|
    ensures Fits(gw, j, es + [Register(j.p, volumes)])
    ensures var st := Statuses(Reach(gw, es + [Register(j.p, volumes)]).s, j.p);
            A.LiveCount(st) == 0 && A.Started(j.slots, st, clock)
  {
    hide Reach;
    var s := Reach(gw, es).s;
    ReachNext(gw, es, Register(j.p, volumes));
    NoneLive(Statuses(Step(gw, s, Register(j.p, volumes)).state, j.p));
  }

  lemma {:induction false} NoneLive(st: seq<TrancheStatus>)
    requires forall i :: 0 <= i < |st| ==> !A.Live(st[i])
    ensures A.LiveCount(st) == 0
  {
    if st == [] {
    } else {
      NoneLive(st[..|st| - 1]);
    }
  }

  // ---------- the parent's deadline ----------

  /**
   * The pass over the tranches once the parent's deadline has come. A tranche that waits is activated and closed at
   * once, which leaves the same state as closing it.
   */
  function DeadlinePass(gw: Gateway, s: State, p: ParentId, bid: int, n: nat): (s': State)
    requires p in s.parents && n <= |s.parents[p].tranches|
    ensures p in s'.parents && |s'.parents[p].tranches| == |s.parents[p].tranches|
  {
    if n == 0 then s
    else
      var before := DeadlinePass(gw, s, p, bid, n - 1);
      CloseStep(gw, before, p, n - 1, bid);
      BeginClose(gw, before, Key(p, n - 1), bid)
  }

  predicate IsOver(t: Tranche) {
    t.status == Completed || t.status == Cancelled || t.status == Error
  }

  /** How a tranche stands after it has been closed. */
  function Ended(t: Tranche): TrancheStatus {
    if IsOver(t) then t.status else if t.Remaining() == 0 then Completed else Closing
  }

  /** Tranches not over that have lots left. */
  function Unfinished(ts: seq<Tranche>): nat {
    if ts == [] then 0 else Unfinished(ts[..|ts| - 1]) + if !IsOver(ts[|ts| - 1]) && ts[|ts| - 1].Remaining() > 0 then 1 else 0
  }

  /** No lots move, and a tranche stands as before unless a pause closed it. */
  predicate AtMostPaused(t: Tranche, t': Tranche) {
    t' == t || (t.status == Active && t' == t.(status := Closing))
  }

  /** Closing one tranche: it has ended, and the others are at most paused. */
  lemma CloseStep(gw: Gateway, s: State, p: ParentId, i: nat, bid: int)
    requires p in s.parents && i < |s.parents[p].tranches|
    ensures var s' := BeginClose(gw, s, Key(p, i), bid);
            && p in s'.parents && |s'.parents[p].tranches| == |s.parents[p].tranches|
            && var ts, ts' := s.parents[p].tranches, s'.parents[p].tranches;
               && ts'[i] == ts[i].(status := Ended(ts[i]))
               && forall j :: 0 <= j < |ts| && j != i ==> AtMostPaused(ts[j], ts'[j])
  {
    hide FinishClosing;
    var k, t := Key(p, i), s.parents[p].tranches[i];
    if t.status == Closing {
      FinishStep(gw, s, k, bid);
    } else if !IsOver(t) {
      var s1 := SetTranche(s, k, t.(status := Closing)).(targets := s.targets - {k}, orders := MarkTranche(s.orders, k));
      FinishStep(gw, s1, k, bid);
    }
  }

  lemma FinishStep(gw: Gateway, s: State, k: Key, bid: int)
    requires Known(s, k) && TrancheOf(s, k).status == Closing
    ensures var s' := FinishClosing(gw, s, k, bid);
            && Known(s', k) && |s'.parents[k.parent].tranches| == |s.parents[k.parent].tranches|
            && var ts, ts' := s.parents[k.parent].tranches, s'.parents[k.parent].tranches;
               && ts'[k.index] == ts[k.index].(status := Ended(ts[k.index]))
               && forall j :: 0 <= j < |ts| && j != k.index ==> AtMostPaused(ts[j], ts'[j])
  {
    hide Sum, Available;
  }

  lemma {:induction false} PassEnds(gw: Gateway, s: State, p: ParentId, bid: int, n: nat)
    requires p in s.parents && n <= |s.parents[p].tranches|
    ensures var ts, ts' := s.parents[p].tranches, DeadlinePass(gw, s, p, bid, n).parents[p].tranches;
            && (forall j :: 0 <= j < n ==> ts'[j] == ts[j].(status := Ended(ts[j])))
            && (forall j :: n <= j < |ts| ==> AtMostPaused(ts[j], ts'[j]))
  {
    hide BeginClose;
    if n == 0 {
    } else {
      PassEnds(gw, s, p, bid, n - 1);
      CloseStep(gw, DeadlinePass(gw, s, p, bid, n - 1), p, n - 1, bid);
    }
  }

  lemma {:induction false} EndedLive(ts: seq<Tranche>, st: seq<TrancheStatus>)
    requires |st| == |ts| && forall j :: 0 <= j < |ts| ==> st[j] == Ended(ts[j])
    ensures A.LiveCount(st) == Unfinished(ts)
  {
    if ts == [] {
    } else {
      EndedLive(ts[..|ts| - 1], st[..|ts| - 1]);
    }
  }

  function Closings(p: ParentId, bid: int, n: nat): seq<Event> {
    seq(n, i requires 0 <= i < n => Close(Key(p, i), bid))
  }

  /** The pass is part of a run of the coordinator, so all that holds of its runs holds after it. */
  lemma {:induction false} PassIsRun(gw: Gateway, es: seq<Event>, p: ParentId, bid: int, n: nat)
    requires Reach(gw, es).At? && p in Reach(gw, es).s.parents && n <= |Reach(gw, es).s.parents[p].tranches|
    ensures Reach(gw, es + Closings(p, bid, n)) == At(DeadlinePass(gw, Reach(gw, es).s, p, bid, n))
  {
    hide Reach, BeginClose;
    if n == 0 {
      assert es + [] == es;
    } else {
      var before := es + Closings(p, bid, n - 1);
      PassIsRun(gw, es, p, bid, n - 1);
      assert es + Closings(p, bid, n) == before + [Close(Key(p, n - 1), bid)];
      ReachNext(gw, before, Close(Key(p, n - 1), bid));
    }
  }

  /**
   * From the parent's deadline on the limit is not kept: after the pass exactly the tranches with lots left are live,
   * whether they were started before or not, however many that are.
   */
  lemma DeadlineLeavesUnfinished(gw: Gateway, s: State, p: ParentId, bid: int)
    requires p in s.parents
    ensures var ts := s.parents[p].tranches;
            A.LiveCount(Statuses(DeadlinePass(gw, s, p, bid, |ts|), p)) == Unfinished(ts)
  {
    hide DeadlinePass, A.LiveCount, Unfinished;
    var ts := s.parents[p].tranches;
    PassEnds(gw, s, p, bid, |ts|);
    EndedLive(ts, Statuses(DeadlinePass(gw, s, p, bid, |ts|), p));
  }
}
