/** Whole runs: any interleaving of decisions, refreshes, closings, user commands and order reports. */
module CoordinatorRuns {
  import opened Models
  import opened Coordinator
  import opened CoordinatorSums
  import opened CoordinatorSafety

  /** One locked call into the coordinator, or the activation of a tranche by the engine. */
  datatype Event =
    | Register(p: ParentId, volumes: seq<nat>)
    | Activate(k: Key)
    | Decide(k: Key, intent: seq<real>, bid: int)
    | Refresh(k: Key, bid: int)
    | Close(k: Key, bid: int)
    | KeepClosing(k: Key, bid: int)
    | Pause(p: ParentId)
    | Resume(p: ParentId)
    | Cancel(p: ParentId)
    | Inform(r: Report)

  /** What the engine checks before the call, and what is assumed of reports. */
  predicate Enabled(s: State, e: Event) {
    match e
    case Register(p, volumes) => p !in s.parents && forall i :: 0 <= i < |volumes| ==> volumes[i] > 0
    case Activate(k) => Known(s, k) && TrancheOf(s, k).status == Waiting && s.parents[k.parent].status == Running
    case Decide(k, intent, _) => Known(s, k) && TrancheOf(s, k).status == Active && ValidIntent(intent)
    case Refresh(k, _) => Known(s, k)
    case Close(k, _) => Known(s, k)
    case KeepClosing(k, _) => Known(s, k)
    case Pause(p) => p in s.parents
    case Resume(p) => p in s.parents
    case Cancel(p) => p in s.parents
    case Inform(r) => Admissible(s, r)
  }

  function NewParent(volumes: seq<nat>): Parent {
    var ts := seq(|volumes|, i requires 0 <= i < |volumes| => Tranche(volumes[i], 0, Waiting));
    Parent(Volumes(ts), 0, Running, ts)
  }

  function Step(gw: Gateway, s: State, e: Event): Outcome
    requires Enabled(s, e)
  {
    match e
    case Register(p, volumes) => Done(s.(parents := s.parents[p := NewParent(volumes)]))
    case Activate(k) => Done(SetTranche(s, k, TrancheOf(s, k).(status := Active)))
    case Decide(k, intent, bid) => ApplyIntent(gw, s, k, intent, bid)
    case Refresh(k, bid) => ReconcilePending(gw, s, k, bid)
    case Close(k, bid) => Done(BeginClose(gw, s, k, bid))
    case KeepClosing(k, bid) => Done(ContinueClose(gw, s, k, bid))
    case Pause(p) => Done(PauseParent(s, p))
    case Resume(p) => ResumeParent(s, p)
    case Cancel(p) => Done(CancelParent(s, p))
    case Inform(r) => ProcessOrder(s, r)
  }

  const INITIAL := State(map[], [], map[], [])

  /** The state after a run, None once an event was not enabled. */
  datatype Reached = Stuck | At(s: State)

  function Reach(gw: Gateway, events: seq<Event>): Reached {
    if events == [] then At(INITIAL)
    else
      var before := Reach(gw, events[..|events| - 1]);
      if before.At? && Enabled(before.s, events[|events| - 1])
      then At(Step(gw, before.s, events[|events| - 1]).state)
      else Stuck
  }

  lemma ReachNext(gw: Gateway, events: seq<Event>, e: Event)
    requires Reach(gw, events).At? && Enabled(Reach(gw, events).s, e)
    ensures Reach(gw, events + [e]) == At(Step(gw, Reach(gw, events).s, e).state)
  {
    hide Enabled, Step;
    assert (events + [e])[..|events|] == events;
  }

  // ---------- every step keeps the invariant ----------

  lemma RegisterKeeps(gw: Gateway, s: State, p: ParentId, volumes: seq<nat>)
    requires Inv(gw, s) && Enabled(s, Register(p, volumes))
    ensures Inv(gw, Step(gw, s, Register(p, volumes)).state)
  {
    var s' := Step(gw, s, Register(p, volumes)).state;
    forall i | 0 <= i < |s'.orders|
      ensures GoodChild(gw, s', s'.orders[i])
    {
      assert GoodChild(gw, s, s.orders[i]);
    }
    forall k | Known(s', k)
      ensures TrancheBooked(s', k) && PhaseSound(s', k)
    {
      if k.parent == p {
        NoOrdersOf(gw, s, k);
      } else {
        assert Known(s, k) && TrancheBooked(s, k) && PhaseSound(s, k);
      }
    }
    forall k | k in s'.targets
      ensures TargetSound(s', k)
    {
      assert TargetSound(s, k);
    }
    forall q | q in s'.parents
      ensures ParentBooked(s'.parents[q])
    {
      if q == p {
        NothingTraded(s'.parents[p].tranches);
      } else {
        assert ParentBooked(s.parents[q]);
      }
    }
  }

  lemma {:induction false} NothingTraded(ts: seq<Tranche>)
    requires forall i :: 0 <= i < |ts| ==> ts[i].traded == 0
    ensures Traded(ts) == 0
  {
    if ts == [] {
    } else {
      NothingTraded(ts[..|ts| - 1]);
    }
  }

  lemma NoOrdersOf(gw: Gateway, s: State, k: Key)
    requires GoodChildren(gw, s) && k.parent !in s.parents
    ensures Sum(FilledOf(k), s.orders) == 0 && Sum(LiveOf(k), s.orders) == 0
  {
    forall i | 0 <= i < |s.orders|
      ensures s.orders[i].key != k
    {
      assert GoodChild(gw, s, s.orders[i]);
    }
    SumZero(FilledOf(k), s.orders);
    SumZero(LiveOf(k), s.orders);
  }

  lemma ActivateKeeps(gw: Gateway, s: State, k: Key)
    requires Inv(gw, s) && Enabled(s, Activate(k))
    ensures Inv(gw, Step(gw, s, Activate(k)).state)
  {
    hide Sum, GoodChildren, Books, SameAmounts, OnlyMarked, PhaseSound, TargetSound, Known, SetTranche;
    var s' := SetTranche(s, k, TrancheOf(s, k).(status := Active));
    ActivateAmounts(s, k);
    KeepsBooks(gw, s, s');
    forall q | Known(s', q)
      ensures PhaseSound(s', q)
    {
      ActivatePhase(s, k, q);
    }
    forall q | q in s'.targets
      ensures TargetSound(s', q)
    {
      ActivateTarget(s, k, q);
    }
  }

  lemma ActivateAmounts(s: State, k: Key)
    requires Known(s, k)
    ensures var s' := SetTranche(s, k, TrancheOf(s, k).(status := Active));
            SameAmounts(s, s') && OnlyMarked(s.orders, s'.orders) && s'.sent == s.sent && s'.targets == s.targets
  {
  }

  lemma ActivatePhase(s: State, k: Key, q: Key)
    requires Phases(s) && Enabled(s, Activate(k)) && Known(SetTranche(s, k, TrancheOf(s, k).(status := Active)), q)
    ensures PhaseSound(SetTranche(s, k, TrancheOf(s, k).(status := Active)), q)
  {
    hide Sum, Total;
    assert Known(s, q) && PhaseSound(s, q) && PhaseSound(s, k);
  }

  lemma ActivateTarget(s: State, k: Key, q: Key)
    requires Phases(s) && Enabled(s, Activate(k)) && q in s.targets
    ensures TargetSound(SetTranche(s, k, TrancheOf(s, k).(status := Active)), q)
  {
    hide Sum, Total;
    assert TargetSound(s, q);
  }

  /** No step raises, except that a resume may be refused. */
  lemma StepKeeps(gw: Gateway, s: State, e: Event)
    requires Inv(gw, s) && FreshIds(gw) && Enabled(s, e)
    ensures Inv(gw, Step(gw, s, e).state)
    ensures Step(gw, s, e).Done? || (e.Resume? && Step(gw, s, e).state == s)
  {
    match e
    case Register(p, volumes) => RegisterKeeps(gw, s, p, volumes);
    case Activate(k) => ActivateKeeps(gw, s, k);
    case Decide(k, intent, bid) => ApplyIntentKeeps(gw, s, k, intent, bid);
    case Refresh(k, bid) => ReconcilePendingKeeps(gw, s, k, bid);
    case Close(k, bid) => BeginCloseKeeps(gw, s, k, bid);
    case KeepClosing(k, bid) => ContinueCloseKeeps(gw, s, k, bid);
    case Pause(p) => PauseKeeps(gw, s, p);
    case Resume(p) => ResumeKeeps(gw, s, p);
    case Cancel(p) => CancelKeeps(gw, s, p);
    case Inform(r) => ProcessOrderKeeps(gw, s, r);
  }

  lemma {:induction false} RunKeeps(gw: Gateway, events: seq<Event>)
    requires FreshIds(gw) && Reach(gw, events).At?
    ensures Inv(gw, Reach(gw, events).s)
  {
    if events == [] {
    } else {
      var before := events[..|events| - 1];
      RunKeeps(gw, before);
      StepKeeps(gw, Reach(gw, before).s, events[|events| - 1]);
    }
  }

  /**
   * No oversell in any run: whatever the interleaving, what a parent and each of its tranches has traded, with all
   * that is still live, stays within its volume, and parent, tranches and child orders agree on what was traded.
   */
  lemma RunNeverOversells(gw: Gateway, events: seq<Event>, p: ParentId)
    requires FreshIds(gw) && Reach(gw, events).At? && p in Reach(gw, events).s.parents
    ensures var s := Reach(gw, events).s;
            && WithinLimits(s, p)
            && s.parents[p].traded == Traded(s.parents[p].tranches) == Sum(ParentFilled(p), s.orders)
  {
    RunKeeps(gw, events);
    NoOversell(gw, Reach(gw, events).s, p);
    LedgersAgree(gw, Reach(gw, events).s, p);
  }

  /** In every run a stored target covers exactly the remaining lots of an active tranche of a running parent. */
  lemma RunTargetsTrackInventory(gw: Gateway, events: seq<Event>, k: Key)
    requires FreshIds(gw) && Reach(gw, events).At? && k in Reach(gw, events).s.targets
    ensures var s := Reach(gw, events).s;
            && Known(s, k) && TrancheOf(s, k).status == Active && s.parents[k.parent].status == Running
            && Total(s.targets[k].allocation) == TrancheOf(s, k).volume - TrancheOf(s, k).traded
  {
    RunKeeps(gw, events);
    var s := Reach(gw, events).s;
    assert TargetSound(s, k) && PhaseSound(s, k) && TrancheBooked(s, k);
  }

  // ---------- fills are the maxima of what was reported ----------

  /** The largest cumulative quantity reported for an order. */
  function MaxReported(events: seq<Event>, id: OrderId): nat {
    if events == [] then 0
    else
      var e, m := events[|events| - 1], MaxReported(events[..|events| - 1], id);
      if e.Inform? && e.r.id == id then Max(m, e.r.traded) else m
  }

  predicate SameFill(o: Child, o': Child) {
    o'.id == o.id && o'.volume == o.volume && o'.traded == o.traded && o'.status == o.status
  }

  /** Orders already sent keep their identity, their volume, their fill and their status; new ones start empty. */
  predicate OrdersGrow(os: seq<Child>, os': seq<Child>) {
    && |os| <= |os'|
    && (forall i :: 0 <= i < |os| ==> SameFill(os[i], os'[i]))
    && (forall i :: |os| <= i < |os'| ==> os'[i].traded == 0 && !IsFinal(os'[i].status))
  }

  lemma SendGrows(gw: Gateway, s: State, r: Request)
    requires r.key.parent in s.parents
    ensures OrdersGrow(s.orders, Send(gw, s, r).orders)
  {
  }

  lemma {:induction false} SendDeficitsGrow(gw: Gateway, s: State, k: Key, t: Target, b: nat)
    requires Known(s, k) && b <= INACTIVE
    ensures OrdersGrow(s.orders, SendDeficits(gw, s, k, t, b).orders)
    decreases INACTIVE - b
  {
    hide Send, Sum, Available, OrdersGrow, Deficit;
    if b == INACTIVE {
      OrdersStay(s.orders);
    } else {
      DeficitFits(s, k, t, b);
      var s1 := Send(gw, s, Deficit(s, k, t, b));
      SendGrows(gw, s, Deficit(s, k, t, b));
      SendDeficitsGrow(gw, s1, k, t, b + 1);
      GrowTwice(s.orders, s1.orders, SendDeficits(gw, s1, k, t, b + 1).orders);
    }
  }

  lemma OrdersStay(os: seq<Child>)
    ensures OrdersGrow(os, os)
  {
  }

  lemma GrowTwice(os: seq<Child>, os': seq<Child>, os'': seq<Child>)
    requires OrdersGrow(os, os') && OrdersGrow(os', os'')
    ensures OrdersGrow(os, os'')
  {
    forall i | 0 <= i < |os|
      ensures SameFill(os[i], os''[i])
    {
      assert SameFill(os[i], os'[i]) && SameFill(os'[i], os''[i]);
    }
    forall i | |os| <= i < |os''|
      ensures os''[i].traded == 0 && !IsFinal(os''[i].status)
    {
      assert i < |os'| ==> SameFill(os'[i], os''[i]);
    }
  }

  lemma ReconcileGrows(gw: Gateway, s: State, k: Key)
    requires Known(s, k)
    ensures OrdersGrow(s.orders, Reconcile(gw, s, k).state.orders)
  {
    hide Sum, SendDeficits;
    if k in s.targets && s.parents[k.parent].status == Running {
      var s1 := s.(orders := MarkExcess(s.orders, k, s.targets[k]));
      SendDeficitsGrow(gw, s1, k, s.targets[k], 0);
    }
  }

  lemma FinishGrows(gw: Gateway, s: State, k: Key, bid: int)
    requires Known(s, k)
    ensures OrdersGrow(s.orders, FinishClosing(gw, s, k, bid).orders)
  {
    hide Sum, Available;
  }

  /** Only order reports change what an order has filled or how it ended. */
  lemma StepGrows(gw: Gateway, s: State, e: Event)
    requires Enabled(s, e) && !e.Inform?
    ensures OrdersGrow(s.orders, Step(gw, s, e).state.orders)
  {
    hide Sum, SendDeficits, FinishClosing, Reconcile, TargetQuantities;
    match e
    case Decide(k, intent, bid) =>
      ReconcileGrows(gw, s.(targets := s.targets[k := Target(TargetQuantities(intent, TrancheOf(s, k).Remaining()), bid)]), k);
    case Refresh(k, bid) =>
      if k in s.targets {
        ReconcileGrows(gw, s.(targets := s.targets[k := s.targets[k].(bid := bid)]), k);
      }
    case Close(k, bid) =>
      FinishGrows(gw, s, k, bid);
      var s1 := SetTranche(s, k, TrancheOf(s, k).(status := Closing)).(targets := s.targets - {k}, orders := MarkTranche(s.orders, k));
      FinishGrows(gw, s1, k, bid);
    case KeepClosing(k, bid) => FinishGrows(gw, s, k, bid);
    case _ =>
  }

  /** A report changes the fill and status of its own order only, and those as Absorb says. */
  lemma InformAbsorbs(gw: Gateway, s: State, r: Report)
    requires Inv(gw, s) && Admissible(s, r)
    ensures var i := IndexOf(s.orders, r.id);
            OrdersGrow(s.orders[i := Absorb(s.orders[i], r)], ProcessOrder(s, r).state.orders)
  {
    hide Sum, Complete, PauseParent, Fill;
    var i := IndexOf(s.orders, r.id);
    assert GoodChild(gw, s, s.orders[i]);
    FillKeeps(gw, s, i, r);
    FillOrders(s, i, r);
    SettleGrows(Fill(s, i, r).state, s.orders[i].key);
  }

  lemma FillOrders(s: State, i: nat, r: Report)
    requires i < |s.orders| && Known(s, s.orders[i].key)
    ensures Fill(s, i, r).state.orders == s.orders[i := Absorb(s.orders[i], r)]
  {
    hide Consume;
  }

  lemma SettleGrows(s: State, k: Key)
    requires Known(s, k)
    ensures OrdersGrow(s.orders, Complete(s, k).orders) && OrdersGrow(s.orders, PauseParent(s, k.parent).orders)
  {
  }

  /** Every order's fill is the largest quantity reported for it; nothing was reported for an unknown order. */
  ghost predicate History(s: State, events: seq<Event>) {
    && (forall i :: 0 <= i < |s.orders| ==> s.orders[i].traded == MaxReported(events, s.orders[i].id))
    && (forall id :: !HasId(s.orders, id) ==> MaxReported(events, id) == 0)
  }

  lemma HistoryGrows(s: State, s': State, events: seq<Event>)
    requires History(s, events) && OrdersGrow(s.orders, s'.orders)
    requires forall i, j :: 0 <= i < j < |s'.orders| ==> s'.orders[i].id != s'.orders[j].id
    ensures History(s', events)
  {
    forall i | 0 <= i < |s'.orders|
      ensures s'.orders[i].traded == MaxReported(events, s'.orders[i].id)
    {
      if i >= |s.orders| {
        assert forall j :: 0 <= j < |s.orders| ==> s.orders[j].id == s'.orders[j].id != s'.orders[i].id;
        assert !HasId(s.orders, s'.orders[i].id);
      }
    }
    forall id | !HasId(s'.orders, id)
      ensures MaxReported(events, id) == 0
    {
      assert forall j :: 0 <= j < |s.orders| ==> s.orders[j].id == s'.orders[j].id != id;
      assert !HasId(s.orders, id);
    }
  }

  lemma HistoryReported(gw: Gateway, s: State, events: seq<Event>, r: Report)
    requires History(s, events) && GoodChildren(gw, s) && Admissible(s, r)
    ensures var i := IndexOf(s.orders, r.id);
            History(s.(orders := s.orders[i := Absorb(s.orders[i], r)]), events + [Inform(r)])
  {
    var i := IndexOf(s.orders, r.id);
    var s' := s.(orders := s.orders[i := Absorb(s.orders[i], r)]);
    assert (events + [Inform(r)])[..|events|] == events;
    forall id | !HasId(s'.orders, id)
      ensures MaxReported(events + [Inform(r)], id) == 0
    {
      assert s'.orders[i].id != id;
      assert forall j :: 0 <= j < |s.orders| ==> s.orders[j].id == s'.orders[j].id != id;
      assert !HasId(s.orders, id);
    }
  }

  lemma StepHistory(gw: Gateway, s: State, events: seq<Event>, e: Event)
    requires Inv(gw, s) && FreshIds(gw) && Enabled(s, e) && History(s, events)
    ensures History(Step(gw, s, e).state, events + [e])
  {
    hide Sum, Step, Enabled, ProcessOrder, MaxReported;
    var s' := Step(gw, s, e).state;
    StepKeeps(gw, s, e);
    if e.Inform? {
      InformHistory(gw, s, events, e.r);
    } else {
      StepGrows(gw, s, e);
      HistorySkips(s, events, e);
      HistoryGrows(s, s', events + [e]);
    }
  }

  lemma InformHistory(gw: Gateway, s: State, events: seq<Event>, r: Report)
    requires Inv(gw, s) && FreshIds(gw) && Enabled(s, Inform(r)) && History(s, events)
    ensures History(Step(gw, s, Inform(r)).state, events + [Inform(r)])
  {
    hide Sum, ProcessOrder, MaxReported;
    var i := IndexOf(s.orders, r.id);
    ProcessOrderKeeps(gw, s, r);
    HistoryReported(gw, s, events, r);
    InformAbsorbs(gw, s, r);
    HistoryGrows(s.(orders := s.orders[i := Absorb(s.orders[i], r)]), ProcessOrder(s, r).state, events + [Inform(r)]);
  }

  lemma {:induction false} RunHistory(gw: Gateway, events: seq<Event>)
    requires FreshIds(gw) && Reach(gw, events).At?
    ensures History(Reach(gw, events).s, events)
  {
    hide Step;
    if events == [] {
    } else {
      var n := |events| - 1;
      RunHistory(gw, events[..n]);
      RunKeeps(gw, events[..n]);
      assert events == events[..n] + [events[n]];
      StepHistory(gw, Reach(gw, events[..n]).s, events[..n], events[n]);
    }
  }

  lemma HistorySkips(s: State, events: seq<Event>, e: Event)
    requires History(s, events) && !e.Inform?
    ensures History(s, events + [e])
  {
    assert (events + [e])[..|events|] == events;
  }

  /** The orders of a tranche or of a parent. */
  datatype Scope = OfTranche(k: Key) | OfParent(p: ParentId) {
    predicate Has(o: Child) {
      match this
      case OfTranche(k) => o.key == k
      case OfParent(p) => o.parent == p
    }

    function Filled(): Measure {
      match this
      case OfTranche(k) => FilledOf(k)
      case OfParent(p) => ParentFilled(p)
    }

    function Live(): Measure {
      match this
      case OfTranche(k) => LiveOf(k)
      case OfParent(p) => ParentLive(p)
    }
  }

  /** The fills of a tranche or a parent, as the sum over its orders of the largest quantity reported for each. */
  function SumOfMaxima(events: seq<Event>, os: seq<Child>, scope: Scope): nat {
    if os == [] then 0
    else
      var o := os[|os| - 1];
      SumOfMaxima(events, os[..|os| - 1], scope) + if scope.Has(o) then MaxReported(events, o.id) else 0
  }

  lemma {:induction false} MaximaAreFills(events: seq<Event>, os: seq<Child>, scope: Scope)
    requires forall i :: 0 <= i < |os| ==> os[i].traded == MaxReported(events, os[i].id)
    ensures SumOfMaxima(events, os, scope) == Sum(scope.Filled(), os)
  {
    if os == [] {
    } else {
      MaximaAreFills(events, os[..|os| - 1], scope);
    }
  }

  /**
   * Fill accounting in any run, with reports duplicated, reordered or stale: each order has filled the largest
   * cumulative quantity reported for it, and its tranche and its parent the sums of these.
   */
  lemma RunFillsAreMaxima(gw: Gateway, events: seq<Event>, k: Key)
    requires FreshIds(gw) && Reach(gw, events).At? && Known(Reach(gw, events).s, k)
    ensures var s := Reach(gw, events).s;
            && (forall i :: 0 <= i < |s.orders| ==> s.orders[i].traded == MaxReported(events, s.orders[i].id))
            && TrancheOf(s, k).traded == SumOfMaxima(events, s.orders, OfTranche(k))
            && s.parents[k.parent].traded == SumOfMaxima(events, s.orders, OfParent(k.parent))
  {
    RunKeeps(gw, events);
    RunHistory(gw, events);
    var s := Reach(gw, events).s;
    assert TrancheBooked(s, k);
    MaximaAreFills(events, s.orders, OfTranche(k));
    MaximaAreFills(events, s.orders, OfParent(k.parent));
    LedgersAgree(gw, s, k.parent);
  }

  /**
   * Two runs that were given the same reports, each in its own order and as often as it likes, with whatever calls in
   * between: an order that both know has the same fill in both.
   */
  lemma MaximaIgnoreOrder(gw: Gateway, events: seq<Event>, gw': Gateway, events': seq<Event>, i: nat, j: nat)
    requires FreshIds(gw) && Reach(gw, events).At? && FreshIds(gw') && Reach(gw', events').At?
    requires forall r :: Inform(r) in events <==> Inform(r) in events'
    requires i < |Reach(gw, events).s.orders| && j < |Reach(gw', events').s.orders|
    requires Reach(gw, events).s.orders[i].id == Reach(gw', events').s.orders[j].id
    ensures Reach(gw, events).s.orders[i].traded == Reach(gw', events').s.orders[j].traded
  {
    hide Reach, MaxReported;
    var id := Reach(gw, events).s.orders[i].id;
    RunHistory(gw, events);
    RunHistory(gw', events');
    MaxReportedIs(events, id);
    MaxReportedIs(events', id);
  }

  lemma {:induction false} MaxReportedIs(events: seq<Event>, id: OrderId)
    ensures forall e :: e in events && e.Inform? && e.r.id == id ==> e.r.traded <= MaxReported(events, id)
    ensures MaxReported(events, id) > 0 ==>
              exists e :: e in events && e.Inform? && e.r.id == id && e.r.traded == MaxReported(events, id)
  {
    if events == [] {
    } else {
      var n := |events| - 1;
      MaxReportedIs(events[..n], id);
      assert events == events[..n] + [events[n]];
      if MaxReported(events[..n], id) == MaxReported(events, id) > 0 {
        var e :| e in events[..n] && e.Inform? && e.r.id == id && e.r.traded == MaxReported(events, id);
        assert e in events;
      }
    }
  }

  /** Along any run orders stay, fills only grow, and a final status is never replaced. */
  lemma StepIsMonotone(gw: Gateway, s: State, e: Event, i: nat)
    requires Inv(gw, s) && FreshIds(gw) && Enabled(s, e) && i < |s.orders|
    ensures var os := Step(gw, s, e).state.orders;
            && i < |os| && os[i].id == s.orders[i].id
            && s.orders[i].traded <= os[i].traded
            && (IsFinal(s.orders[i].status) ==> os[i].status == s.orders[i].status && os[i].traded == s.orders[i].traded)
  {
    if e.Inform? {
      InformAbsorbs(gw, s, e.r);
    } else {
      StepGrows(gw, s, e);
    }
  }

  // ---------- a cancelled parent ----------

  predicate StaysCancelled(s: State, p: ParentId) {
    p in s.parents && s.parents[p].status == ParentCancelled
  }

  lemma CancelledSend(gw: Gateway, s: State, r: Request, p: ParentId)
    requires r.key.parent in s.parents && StaysCancelled(s, p)
    ensures StaysCancelled(Send(gw, s, r), p)
  {
  }

  lemma {:induction false} CancelledDeficits(gw: Gateway, s: State, k: Key, t: Target, b: nat, p: ParentId)
    requires Known(s, k) && b <= INACTIVE && StaysCancelled(s, p)
    ensures StaysCancelled(SendDeficits(gw, s, k, t, b), p)
    decreases INACTIVE - b
  {
    hide Send, Sum, Available;
    if b == INACTIVE {
    } else {
      CancelledSend(gw, s, Deficit(s, k, t, b), p);
      CancelledDeficits(gw, Send(gw, s, Deficit(s, k, t, b)), k, t, b + 1, p);
    }
  }

  lemma CancelledReconcile(gw: Gateway, s: State, k: Key, p: ParentId)
    requires Known(s, k) && StaysCancelled(s, p)
    ensures StaysCancelled(Reconcile(gw, s, k).state, p)
  {
    hide Sum, SendDeficits;
    if k in s.targets {
      CancelledDeficits(gw, s.(orders := MarkExcess(s.orders, k, s.targets[k])), k, s.targets[k], 0, p);
    }
  }

  lemma CancelledFinish(gw: Gateway, s: State, k: Key, bid: int, p: ParentId)
    requires Known(s, k) && StaysCancelled(s, p)
    ensures StaysCancelled(FinishClosing(gw, s, k, bid), p)
  {
    hide Sum, Available, Send;
    CancelledSend(gw, s, Request(k, Min(TrancheOf(s, k).Remaining(), Available(s, k)), bid, 0, true), p);
  }

  /** No call brings a cancelled parent back. */
  lemma CancelledCall(gw: Gateway, s: State, e: Event, p: ParentId)
    requires Enabled(s, e) && !e.Inform? && StaysCancelled(s, p)
    ensures StaysCancelled(Step(gw, s, e).state, p)
  {
    hide Sum, SendDeficits, FinishClosing, Reconcile, TargetQuantities;
    match e
    case Decide(k, intent, bid) =>
      CancelledReconcile(gw, s.(targets := s.targets[k := Target(TargetQuantities(intent, TrancheOf(s, k).Remaining()), bid)]), k, p);
    case Refresh(k, bid) =>
      if k in s.targets {
        CancelledReconcile(gw, s.(targets := s.targets[k := s.targets[k].(bid := bid)]), k, p);
      }
    case Close(k, bid) =>
      CancelledFinish(gw, s, k, bid, p);
      var s1 := SetTranche(s, k, TrancheOf(s, k).(status := Closing)).(targets := s.targets - {k}, orders := MarkTranche(s.orders, k));
      CancelledFinish(gw, s1, k, bid, p);
    case KeepClosing(k, bid) => CancelledFinish(gw, s, k, bid, p);
    case _ =>
  }

  /** The report that completes a cancelled parent: one that fills what it had left, unless it is an alarm. */
  predicate Completes(s: State, e: Event, p: ParentId)
    requires Enabled(s, e) && p in s.parents
  {
    e.Inform? &&
    var o := s.orders[IndexOf(s.orders, e.r.id)];
    o.parent == p && !Alarms(o, e.r) && Absorb(o, e.r).traded - o.traded >= s.parents[p].Remaining()
  }

  /** A cancelled parent stays cancelled under every call and report, except that a racing last fill completes it. */
  lemma CancelledCompletesIff(gw: Gateway, s: State, e: Event, p: ParentId)
    requires Inv(gw, s) && Enabled(s, e) && StaysCancelled(s, p)
    ensures var s' := Step(gw, s, e).state;
            p in s'.parents && s'.parents[p].status == if Completes(s, e, p) then ParentCompleted else ParentCancelled
  {
    hide Inv, ProcessOrder, Absorb, Alarms, Reconcile, FinishClosing, BeginClose, PauseParent, CancelParent, ResumeParent, ApplyIntent;
    if e.Inform? {
      CancelledInform(gw, s, e.r, p);
    } else {
      CancelledCall(gw, s, e, p);
    }
  }

  lemma CancelledInform(gw: Gateway, s: State, r: Report, p: ParentId)
    requires Inv(gw, s) && Admissible(s, r) && StaysCancelled(s, p)
    ensures var s' := ProcessOrder(s, r).state;
            p in s'.parents && s'.parents[p].status == if Completes(s, Inform(r), p) then ParentCompleted else ParentCancelled
  {
    hide Sum, Book, Consume, Complete, PauseParent, Inv, GoodChildren, Books, AlmostPhases, CoordinatorSafety.Filled, Absorb, Shrinks;
    var i := IndexOf(s.orders, r.id);
    var o, o' := s.orders[i], Absorb(s.orders[i], r);
    ChildIsGood(gw, s, i, r);
    AbsorbShrinks(s, r);
    BookKeeps(gw, s, i, o', o'.traded - o.traded);
    var b := Fill(s, i, r).state;
    FilledStatus(s, b, i, o', o'.traded - o.traded, p);
    CompleteStatus(b, o.key);
    CompleteOthers(b, o.key, p);
    CancelledPause(b, o.key.parent, p);
  }

  lemma ChildIsGood(gw: Gateway, s: State, i: nat, r: Report)
    requires Inv(gw, s) && i < |s.orders|
    ensures var o := s.orders[i]; o.parent == o.key.parent && Known(s, o.key) && o.traded <= o.volume && Absorb(o, r).key == o.key
  {
    assert GoodChild(gw, s, s.orders[i]);
  }

  lemma FilledStatus(s: State, b: State, i: nat, o': Child, delta: nat, p: ParentId)
    requires i < |s.orders| && Known(s, o'.key) && CoordinatorSafety.Filled(s, b, i, o', delta) && p in s.parents
    ensures p in b.parents && b.parents[p].status == s.parents[p].status && b.parents[p].total == s.parents[p].total
    ensures b.parents[p].traded == s.parents[p].traded + if p == o'.key.parent then delta else 0
  {
  }

  lemma CancelledPause(s: State, q: ParentId, p: ParentId)
    requires q in s.parents && StaysCancelled(s, p)
    ensures StaysCancelled(PauseParent(s, q), p)
  {
  }

  lemma CompleteOthers(s: State, k: Key, p: ParentId)
    requires Known(s, k) && p in s.parents
    ensures p in Complete(s, k).parents && (p != k.parent ==> Complete(s, k).parents[p] == s.parents[p])
  {
  }

  lemma CompleteStatus(s: State, k: Key)
    requires Known(s, k)
    ensures var p, p' := s.parents[k.parent], Complete(s, k).parents[k.parent];
            p'.traded == p.traded && p'.status == if p.Remaining() == 0 then ParentCompleted else p.status
  {
  }
}
