/** Short runs of one parent with a tranche or two of 20 lots, in which the properties that do not always hold fail. */
module CoordinatorWitnesses {
  import opened Models
  import opened Coordinator
  import opened CoordinatorSums
  import opened CoordinatorSafety
  import opened CoordinatorRuns
  import opened CoordinatorReconcile
  import opened CoordinatorLimits

  const K := Key("p", 0)

  /** A gateway that accepts two orders, and one that refuses the first request. */
  const TWO_ORDERS: Gateway := n => if n == 0 then "a" else if n == 1 then "b" else ""
  const REFUSES_FIRST: Gateway := n => if n == 1 then "b" else ""

  lemma IdsAreFresh()
    ensures FreshIds(TWO_ORDERS) && FreshIds(REFUSES_FIRST)
  {
  }

  function Of(parent: ParentStatus, tranche: TrancheStatus): map<ParentId, Parent> {
    map["p" := Parent(20, 0, parent, [Tranche(20, 0, tranche)])]
  }

  function Market(id: OrderId, status: OrderStatus): Child {
    Child(id, "p", K, 100, 20, 0, true, 0, status, false)
  }

  const ALL_OF_IT := Request(K, 20, 100, 0, true)

  /** A report on one of the orders, and one on an order of somebody else that claims to belong to the tranche. */
  function Told(id: OrderId, traded: nat): Report {
    Report(id, OrderCancelled, traded, 100, 20, Foreign)
  }

  const ALL_OF_B := Report("b", AllTraded, 20, 100, 20, Foreign)

  const STRANGER := Report("x", NotTraded, 0, 100, 30, Algorithm("p", K, 0))

  // ---------- a decision to sell everything ----------

  const AT_MARKET: seq<real> := [1.0, 0.0, 0.0, 0.0, 0.0, 0.0, 0.0]
  const ALL_AT_MARKET := Target([20, 0, 0, 0, 0, 0, 0], 100)

  lemma AtMarketIsValid()
    ensures ValidIntent(AT_MARKET) && TargetQuantities(AT_MARKET, 20) == ALL_AT_MARKET.allocation
  {
    hide TargetQuantities;
    AtMarketSum();
    AtMarketRounds();
  }

  lemma AtMarketSum()
    ensures SumReal(AT_MARKET) == 1.0
  {
    var one := [] + [1.0];
    SumAppended([], 1.0);
    SumAppended(one, 0.0);
    SumAppended(one + [0.0], 0.0);
    SumAppended(one + [0.0] + [0.0], 0.0);
    SumAppended(one + [0.0] + [0.0] + [0.0], 0.0);
    SumAppended(one + [0.0] + [0.0] + [0.0] + [0.0], 0.0);
    SumAppended(one + [0.0] + [0.0] + [0.0] + [0.0] + [0.0], 0.0);
    assert AT_MARKET == one + [0.0] + [0.0] + [0.0] + [0.0] + [0.0] + [0.0];
  }

  lemma AtMarketRounds()
    ensures TargetQuantities(AT_MARKET, 20) == ALL_AT_MARKET.allocation
  {
    assert Share(AT_MARKET, 20, 0) == 20.0;
    assert Round(20.0) == 20 && Left(AT_MARKET, 20, 0) == 20;
    assert Bucket(AT_MARKET, 20, 0) == 20 && Left(AT_MARKET, 20, 1) == 0;
  }

  lemma SumAppended(xs: seq<real>, x: real)
    ensures SumReal(xs + [x]) == SumReal(xs) + x
  {
    assert (xs + [x])[..|xs|] == xs;
  }

  predicate NothingLive(os: seq<Child>) {
    forall i :: 0 <= i < |os| ==> os[i].Leaves() == 0
  }

  /** With nothing live the decision is one market order for all 20 lots. */
  lemma DecideSends(gw: Gateway, s: State)
    requires Known(s, K) && s.parents["p"].status == Running && TrancheOf(s, K).status == Active && TrancheOf(s, K).Remaining() == 20
    requires s.targets == map[] && NothingLive(s.orders) && Available(s, K) >= 20
    ensures Enabled(s, Decide(K, AT_MARKET, 100))
    ensures Step(gw, s, Decide(K, AT_MARKET, 100)).state == Send(gw, s.(targets := map[K := ALL_AT_MARKET]), ALL_OF_IT)
  {
    hide Sum, SendDeficits, TargetQuantities, ValidIntent, Send, Deficit, Available;
    AtMarketIsValid();
    var s1 := s.(targets := map[K := ALL_AT_MARKET]);
    assert s.targets[K := ALL_AT_MARKET] == s1.targets;
    assert MarkExcess(s1.orders, K, ALL_AT_MARKET) == s1.orders;
    FirstDeficit(s, s1);
    SendsFirst(gw, s1);
    NothingMore(gw, Send(gw, s1, ALL_OF_IT), 1);
  }

  lemma SendsFirst(gw: Gateway, s: State)
    requires Known(s, K) && Deficit(s, K, ALL_AT_MARKET, 0) == ALL_OF_IT
    ensures Known(Send(gw, s, ALL_OF_IT), K)
    ensures SendDeficits(gw, s, K, ALL_AT_MARKET, 0) == SendDeficits(gw, Send(gw, s, ALL_OF_IT), K, ALL_AT_MARKET, 1)
  {
    hide Send, Deficit;
  }

  lemma FirstDeficit(s: State, s1: State)
    requires Known(s, K) && s1 == s.(targets := s1.targets) && NothingLive(s.orders) && Available(s, K) >= 20
    ensures Deficit(s1, K, ALL_AT_MARKET, 0) == ALL_OF_IT
  {
    SumZero(LiveAt(K, 0, 100), s.orders);
  }

  lemma {:induction false} NothingMore(gw: Gateway, s: State, b: nat)
    requires Known(s, K) && 1 <= b <= INACTIVE
    ensures SendDeficits(gw, s, K, ALL_AT_MARKET, b) == s
    decreases INACTIVE - b
  {
    hide Sum, Available;
    if b == INACTIVE {
    } else {
      assert Deficit(s, K, ALL_AT_MARKET, b).quantity == 0;
      NothingMore(gw, s, b + 1);
    }
  }

  // ---------- the runs ----------

  const REGISTERED := [Register("p", [20])]
  const ACTIVATED := REGISTERED + [Activate(K)]
  const SOLD := ACTIVATED + [Decide(K, AT_MARKET, 100)]
  const LOST := SOLD + [Inform(Told("a", 0))]
  const RESUMED := LOST + [Resume("p")]
  const RESTARTED := RESUMED + [Activate(K)]
  const AGAIN := RESTARTED + [Decide(K, AT_MARKET, 100)]
  const FINISHED := AGAIN + [Inform(ALL_OF_B)]

  lemma RegisteredIs(gw: Gateway)
    ensures Reach(gw, REGISTERED) == At(State(Of(Running, Waiting), [], map[], []))
  {
    assert Reach(gw, []) == At(INITIAL);
    assert [] + REGISTERED == REGISTERED;
    ReachNext(gw, [], Register("p", [20]));
    var ts := NewParent([20]).tranches;
    assert ts == [Tranche(20, 0, Waiting)];
    assert Volumes(ts) == 20;
  }

  /** The tranche takes a new status, the parent too. */
  lemma Retouched(was: ParentStatus, t: TrancheStatus, now: ParentStatus, t': TrancheStatus)
    ensures Of(was, t)["p" := Parent(20, 0, now, [Tranche(20, 0, t)][0 := Tranche(20, 0, t')])] == Of(now, t')
    ensures Of(was, t)["p" := Parent(20, 0, now, [Tranche(20, 0, t')])] == Of(now, t')
  {
    assert [Tranche(20, 0, t)][0 := Tranche(20, 0, t')] == [Tranche(20, 0, t')];
  }

  lemma ActivatedIs(gw: Gateway)
    ensures Reach(gw, ACTIVATED) == At(State(Of(Running, Active), [], map[], []))
  {
    hide Reach;
    RegisteredIs(gw);
    ReachNext(gw, REGISTERED, Activate(K));
    Retouched(Running, Waiting, Running, Active);
  }

  lemma NoLots(m: Measure)
    ensures Sum(m, []) == 0
  {
  }

  lemma SoldIs()
    ensures Reach(TWO_ORDERS, SOLD)
         == At(State(Of(Running, Active), [Market("a", Submitting)], map[K := ALL_AT_MARKET], [ALL_OF_IT]))
  {
    hide Reach, Sum, Step, Enabled;
    ActivatedIs(TWO_ORDERS);
    NoLots(LiveOf(K));
    NoLots(ParentLive("p"));
    DecideSends(TWO_ORDERS, Reach(TWO_ORDERS, ACTIVATED).s);
    ReachNext(TWO_ORDERS, ACTIVATED, Decide(K, AT_MARKET, 100));
  }

  lemma LostIs()
    ensures Reach(TWO_ORDERS, LOST) == At(State(Of(Paused, Closing), [Market("a", OrderCancelled)], map[], [ALL_OF_IT]))
  {
    hide Reach, Sum;
    var s := State(Of(Running, Active), [Market("a", Submitting)], map[K := ALL_AT_MARKET], [ALL_OF_IT]);
    var r, b := Told("a", 0), s.(orders := [Market("a", OrderCancelled)]);
    SoldIs();
    assert IndexOf(s.orders, "a") == 0;
    ReachNext(TWO_ORDERS, SOLD, Inform(r));
    assert [Market("a", Submitting)][0 := Market("a", OrderCancelled)] == [Market("a", OrderCancelled)];
    assert Fill(s, 0, r) == Done(b);
    Retouched(Running, Active, Paused, Closing);
    assert MarkTranches(b.orders, "p", 1) == b.orders && DropTargets(b.targets, "p", 1) == map[];
    var ts := [Tranche(20, 0, Active)];
    assert seq(|ts|, i requires 0 <= i < |ts| => PauseTranche(ts[i])) == [Tranche(20, 0, Closing)];
    assert PauseParent(b, "p") == b.(parents := Of(Paused, Closing), targets := map[]);
  }

  lemma ResumedIs()
    ensures Reach(TWO_ORDERS, RESUMED) == At(State(Of(Running, Waiting), [Market("a", OrderCancelled)], map[], [ALL_OF_IT]))
  {
    hide Reach;
    var ts := [Tranche(20, 0, Closing)];
    LostIs();
    ReachNext(TWO_ORDERS, LOST, Resume("p"));
    Retouched(Paused, Closing, Running, Waiting);
    assert seq(|ts|, i requires 0 <= i < |ts| => ResumeTranche(ts[i])) == [Tranche(20, 0, Waiting)];
  }

  lemma RestartedIs()
    ensures Reach(TWO_ORDERS, RESTARTED) == At(State(Of(Running, Active), [Market("a", OrderCancelled)], map[], [ALL_OF_IT]))
  {
    hide Reach;
    ResumedIs();
    ReachNext(TWO_ORDERS, RESUMED, Activate(K));
    Retouched(Running, Waiting, Running, Active);
  }

  lemma AgainIs()
    ensures Reach(TWO_ORDERS, AGAIN)
         == At(State(Of(Running, Active), [Market("a", OrderCancelled), Market("b", Submitting)], map[K := ALL_AT_MARKET], [ALL_OF_IT, ALL_OF_IT]))
  {
    hide Reach, Sum, Step, Enabled;
    RestartedIs();
    var s := Reach(TWO_ORDERS, RESTARTED).s;
    OneSum(s.orders, Market("a", OrderCancelled), LiveOf(K));
    OneSum(s.orders, Market("a", OrderCancelled), ParentLive("p"));
    DecideSends(TWO_ORDERS, s);
    ReachNext(TWO_ORDERS, RESTARTED, Decide(K, AT_MARKET, 100));
    assert !HasId(s.orders, "b");
  }

  lemma OneSum(os: seq<Child>, o: Child, m: Measure)
    requires os == [o]
    ensures Sum(m, os) == Weight(m, o)
  {
    assert os[..0] == [];
  }

  lemma FinishedIs()
    ensures Reach(TWO_ORDERS, FINISHED)
         == At(State(map["p" := Parent(20, 20, ParentCompleted, [Tranche(20, 20, Completed)])],
                     [Market("a", OrderCancelled), Market("b", AllTraded).(traded := 20)], map[], [ALL_OF_IT, ALL_OF_IT]))
  {
    hide Reach, Sum, Consume, Complete, Book;
    AgainIs();
    var s := Reach(TWO_ORDERS, AGAIN).s;
    var a, b := Market("a", OrderCancelled), Market("b", AllTraded).(traded := 20);
    assert s.orders[1..] == [Market("b", Submitting)];
    assert IndexOf(s.orders[1..], "b") == 0;
    assert IndexOf(s.orders, "b") == 1;
    ReachNext(TWO_ORDERS, AGAIN, Inform(ALL_OF_B));
    assert s.orders[1 := b] == [a, b];
    var s1 := State(map["p" := Parent(20, 20, Running, [Tranche(20, 20, Active)])], [a, b], map[K := NOTHING_LEFT], s.sent);
    AllBooked(s.(orders := [a, b]), b, s1);
    AllCompleted(s1, a, b);
  }

  const NOTHING_LEFT := Target([0, 0, 0, 0, 0, 0, 0], 100)

  lemma AllBooked(s: State, b: Child, s1: State)
    requires s.parents == Of(Running, Active) && s.targets == map[K := ALL_AT_MARKET] && b == Market("b", AllTraded).(traded := 20)
    requires s1 == s.(parents := map["p" := Parent(20, 20, Running, [Tranche(20, 20, Active)])], targets := map[K := NOTHING_LEFT])
    ensures Book(s, b, 20) == Done(s1)
  {
    hide Consume;
    assert [Tranche(20, 0, Active)][0 := Tranche(20, 20, Active)] == [Tranche(20, 20, Active)];
    ConsumeOwnBucket(ALL_AT_MARKET.allocation, 0, 20);
    assert ALL_AT_MARKET.allocation[0 := 0] == NOTHING_LEFT.allocation && s.targets[K := NOTHING_LEFT] == s1.targets;
    assert s.parents["p" := Parent(20, 20, Running, [Tranche(20, 20, Active)])] == s1.parents;
  }

  lemma AllCompleted(s: State, a: Child, b: Child)
    requires s == State(map["p" := Parent(20, 20, Running, [Tranche(20, 20, Active)])], [a, b], map[K := NOTHING_LEFT], s.sent)
    requires a.Leaves() == b.Leaves() == 0
    ensures Complete(s, K) == State(map["p" := Parent(20, 20, ParentCompleted, [Tranche(20, 20, Completed)])], [a, b], map[], s.sent)
  {
    assert s.targets - {K} == map[];
    assert [Tranche(20, 20, Active)][0 := Tranche(20, 20, Completed)] == [Tranche(20, 20, Completed)];
    assert MarkTranche(s.orders, K) == s.orders;
    assert Complete(s, K).parents == map["p" := Parent(20, 20, ParentCompleted, [Tranche(20, 20, Completed)])];
  }

  // ---------- what fails in them ----------

  /** Order a is reported cancelled, the resumed parent sells its lots again with order b, and then a turns out to have been filled. */
  lemma LateFillOversells()
    ensures Reach(TWO_ORDERS, AGAIN).At?
    ensures var s := Reach(TWO_ORDERS, AGAIN).s;
            var late := ProcessOrder(s, Told("a", 20)).state;
            && !Admissible(s, Told("a", 20))
            && Known(late, K) && !TrancheFits(late, K, 20) && !WithinLimits(late, "p")
  {
    hide Reach, ProcessOrder, WithinLimits, Inv, TrancheFits, Sum;
    IdsAreFresh();
    AgainIs();
    var s := Reach(TWO_ORDERS, AGAIN).s;
    RunKeeps(TWO_ORDERS, AGAIN);
    TwoSums(s.orders, Market("a", OrderCancelled), Market("b", Submitting), LiveOf(K));
    TwoSums(s.orders, Market("a", OrderCancelled), Market("b", Submitting), ParentLive("p"));
    assert IndexOf(s.orders, "a") == 0;
    LateFillOversellsIff(TWO_ORDERS, s, Told("a", 20));
    ReportFitsIff(TWO_ORDERS, s, Told("a", 20));
  }

  /** Once b is filled too, the late fill of a sells 40 of 20 lots, and the hard limits hold all the same. */
  lemma LateFillHides()
    ensures Reach(TWO_ORDERS, FINISHED).At?
    ensures var late := ProcessOrder(Reach(TWO_ORDERS, FINISHED).s, Told("a", 20)).state;
            Known(late, K) && !TrancheFits(late, K, 20) && WithinLimits(late, "p")
  {
    hide Reach, ProcessOrder, WithinLimits, Inv, TrancheFits, Sum;
    IdsAreFresh();
    FinishedIs();
    var s := Reach(TWO_ORDERS, FINISHED).s;
    RunKeeps(TWO_ORDERS, FINISHED);
    var a, b := Market("a", OrderCancelled), Market("b", AllTraded).(traded := 20);
    TwoSums(s.orders, a, b, LiveOf(K));
    TwoSums(s.orders, a, b, ParentLive("p"));
    assert IndexOf(s.orders, "a") == 0;
    LateFillOversellsIff(TWO_ORDERS, s, Told("a", 20));
    ReportFitsIff(TWO_ORDERS, s, Told("a", 20));
  }

  lemma TwoSums(os: seq<Child>, a: Child, b: Child, m: Measure)
    requires os == [a, b]
    ensures Sum(m, os) == Weight(m, a) + Weight(m, b)
  {
    assert os[..1] == [a] && [a][..0] == [];
    assert Sum(m, [a]) == Weight(m, a);
  }

  /** An order of 30 lots is adopted into a tranche of 20. */
  lemma AdoptionOversells(gw: Gateway)
    requires FreshIds(gw)
    ensures Reach(gw, REGISTERED).At?
    ensures var adopted := ProcessOrder(Reach(gw, REGISTERED).s, STRANGER).state;
            && Known(adopted, K) && !TrancheFits(adopted, K, 20) && !WithinLimits(adopted, "p")
  {
    hide Reach, ProcessOrder, WithinLimits, Inv, Sum;
    RegisteredIs(gw);
    var s := Reach(gw, REGISTERED).s;
    RunKeeps(gw, REGISTERED);
    NoLots(LiveOf(K));
    NoLots(FilledOf(K));
    NoLots(ParentLive("p"));
    AdoptionFitsIff(gw, s, STRANGER);
    AdoptedIsLive(s);
  }

  lemma AdoptedIsLive(s: State)
    requires s.orders == [] && Known(s, K) && K !in s.targets && s.parents["p"].Remaining() > 0 && TrancheOf(s, K).Remaining() > 0
    ensures Sum(LiveOf(K), ProcessOrder(s, STRANGER).state.orders) == 30
  {
    hide Sum;
    var o := Adopted(STRANGER);
    assert IndexOf([o], "x") == 0;
    assert [o][0 := o] == [o];
    assert ProcessOrder(s, STRANGER).state.orders == [o];
    SumAppend(LiveOf(K), [], o);
    NoLots(LiveOf(K));
    assert [] + [o] == [o];
  }

  /** The cancellation that paused the parent is reported again after the parent was resumed, and pauses it again. */
  lemma RepeatPauses()
    ensures Reach(TWO_ORDERS, RESUMED).At?
    ensures var s := Reach(TWO_ORDERS, RESUMED).s;
            var again := ProcessOrder(s, Told("a", 0)).state;
            && Inform(Told("a", 0)) in RESUMED
            && "p" in s.parents && s.parents["p"].status == Running
            && "p" in again.parents && again.parents["p"].status == Paused
  {
    hide Reach, ProcessOrder, Inv;
    IdsAreFresh();
    ResumedIs();
    var s := Reach(TWO_ORDERS, RESUMED).s;
    RunKeeps(TWO_ORDERS, RESUMED);
    assert IndexOf(s.orders, "a") == 0;
    assert Inform(Told("a", 0)) in [Inform(Told("a", 0))];
    DuplicatePausesIff(TWO_ORDERS, s, Told("a", 0));
  }

  // ---------- a refused request ----------

  const HALVES: seq<real> := [0.5, 0.5, 0.0, 0.0, 0.0, 0.0, 0.0]

  lemma HalvesAreValid()
    ensures ValidIntent(HALVES) && TargetQuantities(HALVES, 20) == [10, 10, 0, 0, 0, 0, 0]
  {
    HalvesSum();
    HalvesRound();
  }

  lemma HalvesSum()
    ensures SumReal(HALVES) == 1.0
  {
    var two := [] + [0.5] + [0.5];
    SumAppended([], 0.5);
    SumAppended([] + [0.5], 0.5);
    SumAppended(two, 0.0);
    SumAppended(two + [0.0], 0.0);
    SumAppended(two + [0.0] + [0.0], 0.0);
    SumAppended(two + [0.0] + [0.0] + [0.0], 0.0);
    SumAppended(two + [0.0] + [0.0] + [0.0] + [0.0], 0.0);
    assert HALVES == two + [0.0] + [0.0] + [0.0] + [0.0] + [0.0];
  }

  lemma HalvesRound()
    ensures TargetQuantities(HALVES, 20) == [10, 10, 0, 0, 0, 0, 0]
  {
    assert Share(HALVES, 20, 0) == 10.0 == Share(HALVES, 20, 1);
    assert Round(10.0) == 10 && Left(HALVES, 20, 0) == 20;
    assert Bucket(HALVES, 20, 0) == 10 && Left(HALVES, 20, 1) == 10;
    assert Bucket(HALVES, 20, 1) == 10 && Left(HALVES, 20, 2) == 0;
  }

  /** The first of two requests is refused and pauses the parent; the second is sent all the same. */
  lemma RefusedSendsOn()
    ensures Reach(REFUSES_FIRST, ACTIVATED).At? && Reach(REFUSES_FIRST, ACTIVATED + [Decide(K, HALVES, 100)]).At?
    ensures var before, s := Reach(REFUSES_FIRST, ACTIVATED).s, Reach(REFUSES_FIRST, ACTIVATED + [Decide(K, HALVES, 100)]).s;
            && before.sent == [] && s.sent == [Request(K, 10, 100, 0, true), Request(K, 10, 101, 1, false)]
            && "p" in s.parents && s.parents["p"].status == Paused && REFUSES_FIRST(0) == ""
  {
    hide Reach, Reconcile, Inv, Sum, TargetQuantities, ValidIntent, Wanted, Pending, MarkExcess;
    IdsAreFresh();
    HalvesAreValid();
    ActivatedIs(REFUSES_FIRST);
    var s := Reach(REFUSES_FIRST, ACTIVATED).s;
    RunKeeps(REFUSES_FIRST, ACTIVATED);
    ReachNext(REFUSES_FIRST, ACTIVATED, Decide(K, HALVES, 100));
    var t := Target([10, 10, 0, 0, 0, 0, 0], 100);
    var s1 := s.(targets := s.targets[K := t]);
    RoundingConserves(HALVES, 20);
    RetargetKeeps(REFUSES_FIRST, s, K, t);
    NothingPending(t);
    WantedIs(t);
    RefusalPausesIff(REFUSES_FIRST, s1, K);
    assert REFUSES_FIRST(0) == "" ==> Refused(REFUSES_FIRST, 0, 2);
  }

  lemma NothingPending(t: Target)
    ensures !Pending(MarkExcess([], K, t), K)
  {
  }

  lemma WantedIs(t: Target)
    requires t.allocation == [10, 10, 0, 0, 0, 0, 0] && t.bid == 100
    ensures Wanted([], K, t, 0) == [Request(K, 10, 100, 0, true), Request(K, 10, 101, 1, false)]
  {
    assert Wanted([], K, t, 6) == [];
    assert Wanted([], K, t, 5) == [];
    assert Wanted([], K, t, 4) == [];
    assert Wanted([], K, t, 3) == [];
    assert Wanted([], K, t, 2) == [];
    assert Wanted([], K, t, 1) == [Request(K, 10, 101, 1, false)];
  }

  // ---------- a paused parent with two tranches ----------

  const K2 := Key("p", 1)
  const PAIR := [Register("p", [20, 20])]
  const ONE_ACTIVE := PAIR + [Activate(K)]
  const BOTH_ACTIVE := ONE_ACTIVE + [Activate(K2)]
  const REFUSED := BOTH_ACTIVE + [Decide(K, AT_MARKET, 100)]

  function Two(parent: ParentStatus, first: TrancheStatus, second: TrancheStatus): map<ParentId, Parent> {
    map["p" := Parent(40, 0, parent, [Tranche(20, 0, first), Tranche(20, 0, second)])]
  }

  lemma PairIs(gw: Gateway)
    ensures Reach(gw, PAIR) == At(State(Two(Running, Waiting, Waiting), [], map[], []))
  {
    assert Reach(gw, []) == At(INITIAL);
    assert [] + PAIR == PAIR;
    ReachNext(gw, [], Register("p", [20, 20]));
    var ts := NewParent([20, 20]).tranches;
    assert ts == [Tranche(20, 0, Waiting), Tranche(20, 0, Waiting)];
    assert ts[..1] == [Tranche(20, 0, Waiting)] && ts[..1][..0] == [];
    assert Volumes(ts[..1]) == 20 && Volumes(ts) == 40;
  }

  lemma BothActiveIs(gw: Gateway)
    ensures Reach(gw, BOTH_ACTIVE) == At(State(Two(Running, Active, Active), [], map[], []))
  {
    hide Reach;
    var w, a := Tranche(20, 0, Waiting), Tranche(20, 0, Active);
    PairIs(gw);
    ReachNext(gw, PAIR, Activate(K));
    assert [w, w][0 := a] == [a, w] && [a, w][1 := a] == [a, a];
    ReachNext(gw, ONE_ACTIVE, Activate(K2));
  }

  lemma RefusedIs()
    ensures Reach(REFUSES_FIRST, REFUSED) == At(State(Two(Paused, Closing, Closing), [], map[], [ALL_OF_IT]))
  {
    hide Reach, Sum, Step, Enabled;
    BothActiveIs(REFUSES_FIRST);
    NoLots(LiveOf(K));
    NoLots(ParentLive("p"));
    var s := Reach(REFUSES_FIRST, BOTH_ACTIVE).s;
    DecideSends(REFUSES_FIRST, s);
    ReachNext(REFUSES_FIRST, BOTH_ACTIVE, Decide(K, AT_MARKET, 100));
    var s1 := s.(targets := map[K := ALL_AT_MARKET], sent := [ALL_OF_IT]);
    var ts, c := s.parents["p"].tranches, Tranche(20, 0, Closing);
    assert seq(|ts|, i requires 0 <= i < |ts| => PauseTranche(ts[i])) == [c, c];
    assert MarkTranches([], "p", 2) == [] && DropTargets(s1.targets, "p", 2) == map[];
    assert PauseParent(s1, "p") == s1.(parents := Two(Paused, Closing, Closing), targets := map[]);
  }

  /** One tranche's refusal pauses the parent; the timer's loop goes on, and the other tranche sends all its lots. */
  lemma PausedSendsAll()
    ensures Reach(REFUSES_FIRST, REFUSED).At? && Reach(REFUSES_FIRST, REFUSED + [KeepClosing(K2, 100)]).At?
    ensures var before, s := Reach(REFUSES_FIRST, REFUSED).s, Reach(REFUSES_FIRST, REFUSED + [KeepClosing(K2, 100)]).s;
            && "p" in before.parents && before.parents["p"].status == Paused
            && s.sent == before.sent + [Request(K2, 20, 100, 0, true)]
  {
    hide Reach, Inv, Sum, ContinueClose, BeginClose;
    IdsAreFresh();
    RefusedIs();
    RunKeeps(REFUSES_FIRST, REFUSED);
    var s := Reach(REFUSES_FIRST, REFUSED).s;
    NoLots(LiveOf(K2));
    CloseSendsIff(REFUSES_FIRST, s, K2, 100);
    ReachNext(REFUSES_FIRST, REFUSED, KeepClosing(K2, 100));
  }
}
