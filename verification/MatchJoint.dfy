/**
 * The coordinator and ordermatch as one system. The coordinator's requests reach the exchange some time after they
 * were sent, the exchange's reports reach the coordinator at any time, in any order, repeatedly or not at all.
 */
module MatchJoint {
  import opened Wrappers
  import opened Models
  import opened Coordinator
  import opened CoordinatorSafety
  import opened CoordinatorRuns
  import opened MatchComposition
  import E = MatchEngine
  import M = MatchReports

  datatype World = World(s: State, x: M.Exchange)

  /** A call into the coordinator, an event at the exchange, or the delivery of a report. */
  datatype Move = Call(e: Event) | Venue(v: M.Event) | Arrival(r: Report)

  /** The id the gateway gave to the n-th request. */
  ghost predicate Names(gw: Gateway, n: nat, id: OrderId) {
    gw(n) == id != ""
  }

  /** The exchange gets an order under one of the coordinator's ids only if that request was sent, and as it was sent. */
  ghost predicate Passed(gw: Gateway, s: State, v: M.Event) {
    match v
    case Submit(id, side, price, quantity) =>
      forall n: nat :: Names(gw, n, id) ==>
        n < |s.sent| && side == E.Sell && price == s.sent[n].price && quantity == s.sent[n].quantity
    case CancelRequest(_, _) => true
    case Refuse(id) => forall n: nat :: Names(gw, n, id) ==> n < |s.sent|
  }

  /** Of a report that is delivered nothing is assumed but its origin: the exchange, and a request of the coordinator. */
  ghost predicate Possible(gw: Gateway, w: World, m: Move) {
    match m
    case Call(e) => !e.Inform? && Enabled(w.s, e)
    case Venue(v) => M.Enabled(w.x, v) && Passed(gw, w.s, v)
    case Arrival(r) => From(w.x.reports, r) && exists n: nat :: n < |w.s.sent| && Names(gw, n, r.id)
  }

  ghost function After(gw: Gateway, w: World, m: Move): World
    requires Possible(gw, w, m) && E.AllOpen(w.x.bids) && E.AllOpen(w.x.asks)
  {
    match m
    case Call(e) => w.(s := Step(gw, w.s, e).state)
    case Venue(v) => w.(x := M.Step(w.x, v))
    case Arrival(r) => w.(s := ProcessOrder(w.s, r).state)
  }

  ghost function Run(gw: Gateway, moves: seq<Move>): Option<World> {
    if moves == [] then Some(World(INITIAL, M.OPENING))
    else
      var before, m := Run(gw, moves[..|moves| - 1]), moves[|moves| - 1];
      if before.Some? && Possible(gw, before.value, m) && E.AllOpen(before.value.x.bids) && E.AllOpen(before.value.x.asks)
      then Some(After(gw, before.value, m))
      else None
  }

  // ---------- the two runs in a joint run ----------

  function Ours(moves: seq<Move>): seq<Event> {
    if moves == [] then []
    else
      var m := moves[|moves| - 1];
      Ours(moves[..|moves| - 1]) + (match m case Call(e) => [e] case Venue(_) => [] case Arrival(r) => [Inform(r)])
  }

  function Theirs(moves: seq<Move>): seq<M.Event> {
    if moves == [] then []
    else
      var m := moves[|moves| - 1];
      Theirs(moves[..|moves| - 1]) + if m.Venue? then [m.v] else []
  }

  lemma Apart(before: seq<Move>, m: Move)
    ensures m.Call? ==> Ours(before + [m]) == Ours(before) + [m.e] && Theirs(before + [m]) == Theirs(before)
    ensures m.Venue? ==> Ours(before + [m]) == Ours(before) && Theirs(before + [m]) == Theirs(before) + [m.v]
    ensures m.Arrival? ==> Ours(before + [m]) == Ours(before) + [Inform(m.r)] && Theirs(before + [m]) == Theirs(before)
  {
    assert (before + [m])[..|before|] == before;
    assert Ours(before) + [] == Ours(before) && Theirs(before) + [] == Theirs(before);
  }

  // ---------- requests and orders ----------

  ghost predicate RecordedAs(gw: Gateway, s: State, n: nat, o: Child) {
    n < |s.sent| && Names(gw, n, o.id) && s.sent[n].quantity == o.volume
  }

  ghost predicate HasRequest(gw: Gateway, s: State, o: Child) {
    exists n: nat :: RecordedAs(gw, s, n, o)
  }

  ghost predicate HasOrder(gw: Gateway, s: State, n: nat) {
    exists i: nat :: i < |s.orders| && RecordedAs(gw, s, n, s.orders[i])
  }

  /** Orders and answered requests are the same, volume for volume. */
  ghost predicate Recorded(gw: Gateway, s: State) {
    && (forall i :: 0 <= i < |s.orders| ==> HasRequest(gw, s, s.orders[i]))
    && (forall n: nat :: n < |s.sent| && gw(n) != "" ==> HasOrder(gw, s, n))
  }

  predicate SameName(o: Child, o': Child) {
    o'.id == o.id && o'.volume == o.volume
  }

  /** Nothing is sent, and no order appears or changes its name or volume. */
  predicate SameOrders(s: State, s': State) {
    && s'.sent == s.sent && |s'.orders| == |s.orders|
    && forall i :: 0 <= i < |s.orders| ==> SameName(s.orders[i], s'.orders[i])
  }

  lemma SameRecorded(gw: Gateway, s: State, s': State)
    requires Recorded(gw, s) && SameOrders(s, s')
    ensures Recorded(gw, s')
  {
    RecordedGrows(gw, s, s');
  }

  predicate MoreOrders(s: State, s': State) {
    && s.sent <= s'.sent && |s.orders| <= |s'.orders|
    && forall i :: 0 <= i < |s.orders| ==> SameName(s.orders[i], s'.orders[i])
  }

  lemma StillRequested(gw: Gateway, s: State, s': State, i: nat)
    requires i < |s.orders| && HasRequest(gw, s, s.orders[i]) && MoreOrders(s, s')
    ensures HasRequest(gw, s', s'.orders[i])
  {
    var n: nat :| RecordedAs(gw, s, n, s.orders[i]);
    assert SameName(s.orders[i], s'.orders[i]);
    assert RecordedAs(gw, s', n, s'.orders[i]);
  }

  lemma StillOrdered(gw: Gateway, s: State, s': State, n: nat)
    requires HasOrder(gw, s, n) && MoreOrders(s, s')
    ensures HasOrder(gw, s', n)
  {
    var i: nat :| i < |s.orders| && RecordedAs(gw, s, n, s.orders[i]);
    assert SameName(s.orders[i], s'.orders[i]);
    assert RecordedAs(gw, s', n, s'.orders[i]);
  }

  /** More requests and more orders leave the recorded ones recorded. */
  lemma RecordedGrows(gw: Gateway, s: State, s': State)
    requires Recorded(gw, s) && MoreOrders(s, s')
    ensures forall i :: 0 <= i < |s.orders| ==> HasRequest(gw, s', s'.orders[i])
    ensures forall n: nat :: n < |s.sent| && gw(n) != "" ==> HasOrder(gw, s', n)
  {
    hide HasRequest, HasOrder, SameName;
    forall i | 0 <= i < |s.orders|
      ensures i < |s'.orders| && HasRequest(gw, s', s'.orders[i])
    {
      StillRequested(gw, s, s', i);
    }
    forall n: nat | n < |s.sent| && gw(n) != ""
      ensures HasOrder(gw, s', n)
    {
      StillOrdered(gw, s, s', n);
    }
  }

  /** One request more, and the order it was answered with. */
  lemma AppendRecorded(gw: Gateway, s: State, r: Request, s': State)
    requires Recorded(gw, s) && s'.sent == s.sent + [r]
    requires gw(|s.sent|) == "" ==> s'.orders == s.orders
    requires gw(|s.sent|) != "" ==>
               |s'.orders| == |s.orders| + 1 && s'.orders[..|s.orders|] == s.orders
               && s'.orders[|s.orders|].id == gw(|s.sent|) && s'.orders[|s.orders|].volume == r.quantity
    ensures Recorded(gw, s')
  {
    hide HasRequest, HasOrder, RecordedAs;
    assert forall i :: 0 <= i < |s.orders| ==> s'.orders[i] == s'.orders[..|s.orders|][i];
    RecordedGrows(gw, s, s');
    if gw(|s.sent|) != "" {
      LastRecorded(gw, s', |s.sent|, |s.orders|);
    }
  }

  lemma LastRecorded(gw: Gateway, s: State, n: nat, i: nat)
    requires n < |s.sent| && i < |s.orders| && gw(n) == s.orders[i].id != "" && s.sent[n].quantity == s.orders[i].volume
    ensures HasRequest(gw, s, s.orders[i]) && HasOrder(gw, s, n)
  {
    assert RecordedAs(gw, s, n, s.orders[i]);
  }

  lemma SendRecorded(gw: Gateway, s: State, r: Request)
    requires Recorded(gw, s) && FreshIds(gw) && r.key.parent in s.parents
    ensures Recorded(gw, Send(gw, s, r)) && s.sent <= Send(gw, s, r).sent
  {
    hide Recorded;
    var id, s1 := gw(|s.sent|), s.(sent := s.sent + [r]);
    if r.quantity > 0 && id == "" {
      AppendRecorded(gw, s, r, s1);
      SameRecorded(gw, s1, PauseParent(s1, r.key.parent));
    } else if r.quantity > 0 {
      Unused(gw, s);
      AppendRecorded(gw, s, r, Send(gw, s, r));
    }
  }

  lemma Unused(gw: Gateway, s: State)
    requires Recorded(gw, s) && FreshIds(gw)
    ensures gw(|s.sent|) != "" ==> !HasId(s.orders, gw(|s.sent|))
  {
    forall i | 0 <= i < |s.orders|
      ensures gw(|s.sent|) != "" ==> s.orders[i].id != gw(|s.sent|)
    {
      assert HasRequest(gw, s, s.orders[i]);
      var n: nat :| RecordedAs(gw, s, n, s.orders[i]);
    }
  }

  lemma {:induction false} SendDeficitsRecorded(gw: Gateway, s: State, k: Key, t: Target, b: nat)
    requires Recorded(gw, s) && FreshIds(gw) && Known(s, k) && b <= INACTIVE
    ensures Recorded(gw, SendDeficits(gw, s, k, t, b)) && s.sent <= SendDeficits(gw, s, k, t, b).sent
    decreases INACTIVE - b
  {
    hide Recorded, Send, Sum, Available;
    if b == INACTIVE {
    } else {
      SendRecorded(gw, s, Deficit(s, k, t, b));
      SendDeficitsRecorded(gw, Send(gw, s, Deficit(s, k, t, b)), k, t, b + 1);
    }
  }

  lemma ReconcileRecorded(gw: Gateway, s: State, k: Key)
    requires Recorded(gw, s) && FreshIds(gw) && Known(s, k)
    ensures Recorded(gw, Reconcile(gw, s, k).state) && s.sent <= Reconcile(gw, s, k).state.sent
  {
    hide Recorded, Sum, SendDeficits;
    if k in s.targets && s.parents[k.parent].status == Running {
      var s1 := s.(orders := MarkExcess(s.orders, k, s.targets[k]));
      SameRecorded(gw, s, s1);
      SendDeficitsRecorded(gw, s1, k, s.targets[k], 0);
    }
  }

  lemma FinishRecorded(gw: Gateway, s: State, k: Key, bid: int)
    requires Recorded(gw, s) && FreshIds(gw) && Known(s, k)
    ensures Recorded(gw, FinishClosing(gw, s, k, bid)) && s.sent <= FinishClosing(gw, s, k, bid).sent
  {
    hide Recorded, Sum, Available, Send;
    var t, s' := TrancheOf(s, k), FinishClosing(gw, s, k, bid);
    if t.Remaining() == 0 || Sum(LiveOf(k), s.orders) > 0 {
      SameRecorded(gw, s, s');
    } else {
      SendRecorded(gw, s, Request(k, Min(t.Remaining(), Available(s, k)), bid, 0, true));
    }
  }

  lemma CloseRecorded(gw: Gateway, s: State, k: Key, bid: int)
    requires Recorded(gw, s) && FreshIds(gw) && Known(s, k)
    ensures Recorded(gw, BeginClose(gw, s, k, bid)) && s.sent <= BeginClose(gw, s, k, bid).sent
  {
    hide Recorded, FinishClosing;
    FinishRecorded(gw, s, k, bid);
    var s1 := SetTranche(s, k, TrancheOf(s, k).(status := Closing)).(targets := s.targets - {k}, orders := MarkTranche(s.orders, k));
    SameRecorded(gw, s, s1);
    FinishRecorded(gw, s1, k, bid);
  }

  lemma CallRecorded(gw: Gateway, s: State, e: Event)
    requires Recorded(gw, s) && FreshIds(gw) && Enabled(s, e) && !e.Inform?
    ensures Recorded(gw, Step(gw, s, e).state) && s.sent <= Step(gw, s, e).state.sent
  {
    hide Recorded, Sum, Reconcile, FinishClosing, BeginClose, TargetQuantities;
    match e
    case Decide(k, intent, bid) =>
      var s1 := s.(targets := s.targets[k := Target(TargetQuantities(intent, TrancheOf(s, k).Remaining()), bid)]);
      SameRecorded(gw, s, s1);
      ReconcileRecorded(gw, s1, k);
    case Refresh(k, bid) =>
      if k in s.targets {
        var s1 := s.(targets := s.targets[k := s.targets[k].(bid := bid)]);
        SameRecorded(gw, s, s1);
        ReconcileRecorded(gw, s1, k);
      }
    case Close(k, bid) => CloseRecorded(gw, s, k, bid);
    case KeepClosing(k, bid) => FinishRecorded(gw, s, k, bid);
    case Register(_, _) => SameRecorded(gw, s, Step(gw, s, e).state);
    case Activate(_) => SameRecorded(gw, s, Step(gw, s, e).state);
    case Pause(_) => SameRecorded(gw, s, Step(gw, s, e).state);
    case Resume(_) => SameRecorded(gw, s, Step(gw, s, e).state);
    case Cancel(_) => SameRecorded(gw, s, Step(gw, s, e).state);
    case Inform(_) =>
  }

  lemma InformRecorded(gw: Gateway, s: State, r: Report)
    requires Recorded(gw, s) && IndexOf(s.orders, r.id) < |s.orders|
    ensures Recorded(gw, ProcessOrder(s, r).state)
  {
    hide Recorded;
    InformSame(s, r);
    SameRecorded(gw, s, ProcessOrder(s, r).state);
  }

  lemma InformSame(s: State, r: Report)
    requires IndexOf(s.orders, r.id) < |s.orders|
    ensures SameOrders(s, ProcessOrder(s, r).state)
  {
    hide Deliver;
    var i := IndexOf(s.orders, r.id);
    if Known(s, s.orders[i].key) {
      DeliverSame(s, i, r);
    }
  }

  lemma DeliverSame(s: State, i: nat, r: Report)
    requires i < |s.orders| && Known(s, s.orders[i].key)
    ensures SameOrders(s, Deliver(s, i, r).state)
  {
    hide Fill, PauseParent, Complete;
    FillSame(s, i, r);
    PauseSame(Fill(s, i, r).state, s.orders[i].key.parent);
    CompleteSame(Fill(s, i, r).state, s.orders[i].key);
  }

  lemma FillSame(s: State, i: nat, r: Report)
    requires i < |s.orders| && Known(s, s.orders[i].key)
    ensures SameOrders(s, Fill(s, i, r).state) && Known(Fill(s, i, r).state, s.orders[i].key)
  {
    hide Consume;
  }

  lemma PauseSame(s: State, p: ParentId)
    requires p in s.parents
    ensures SameOrders(s, PauseParent(s, p))
  {
  }

  lemma CompleteSame(s: State, k: Key)
    requires Known(s, k)
    ensures SameOrders(s, Complete(s, k))
  {
  }

  // ---------- what the exchange reports ----------

  /** First reports under the coordinator's ids are about requests that were sent, as they were sent. */
  ghost predicate Owned(gw: Gateway, sent: seq<Request>, rs: seq<M.ExecReport>) {
    forall j, n: nat :: 0 <= j < |rs| && Names(gw, n, rs[j].id) ==> FirstOwned(sent, n, rs[j])
  }

  predicate FirstOwned(sent: seq<Request>, n: nat, r: M.ExecReport) {
    && (r.status == M.New ==> n < |sent| && r.quantity == sent[n].quantity)
    && (r.status == M.Rejected ==> n < |sent|)
  }

  lemma OwnedGrows(gw: Gateway, sent: seq<Request>, sent': seq<Request>, rs: seq<M.ExecReport>)
    requires Owned(gw, sent, rs) && sent <= sent'
    ensures Owned(gw, sent', rs)
  {
    forall j, n: nat | 0 <= j < |rs| && Names(gw, n, rs[j].id)
      ensures FirstOwned(sent', n, rs[j])
    {
      assert FirstOwned(sent, n, rs[j]);
    }
  }

  lemma {:induction false} FillsAreFills(ts: seq<E.Trade>, j: nat)
    requires j < |M.FillReports(ts)|
    ensures M.FillReports(ts)[j].IsFill()
  {
    if j >= 2 {
      FillsAreFills(ts[1..], j - 2);
    }
  }

  /** The reports an event adds: at most the first of them is an acceptance or a rejection. */
  lemma VenueReports(x: M.Exchange, v: M.Event)
    requires E.AllOpen(x.bids) && E.AllOpen(x.asks) && M.Enabled(x, v)
    ensures var rs, rs' := x.reports, M.Step(x, v).reports;
            && rs <= rs'
            && forall j :: |rs| <= j < |rs'| && (rs'[j].status == M.New || rs'[j].status == M.Rejected) ==>
              match v
              case Submit(id, _, _, quantity) => rs'[j].id == id && rs'[j].status == M.New && rs'[j].quantity == quantity
              case CancelRequest(_, _) => false
              case Refuse(id) => rs'[j].id == id && rs'[j].status == M.Rejected
  {
    hide M.FillReports, E.Submitted, M.Last;
    if v.Submit? {
      var m := E.Submitted(x.bids, x.asks, E.Fresh(v.id, v.side, v.price, v.quantity));
      forall j: nat | j < |M.FillReports(m.trades)|
        ensures M.FillReports(m.trades)[j].IsFill()
      {
        FillsAreFills(m.trades, j);
      }
    }
  }

  lemma VenueOwned(gw: Gateway, s: State, x: M.Exchange, v: M.Event)
    requires E.AllOpen(x.bids) && E.AllOpen(x.asks) && M.Enabled(x, v) && Passed(gw, s, v) && Owned(gw, s.sent, x.reports)
    ensures Owned(gw, s.sent, M.Step(x, v).reports)
  {
    hide M.Step;
    var rs, rs' := x.reports, M.Step(x, v).reports;
    VenueReports(x, v);
    forall j, n: nat | 0 <= j < |rs'| && Names(gw, n, rs'[j].id)
      ensures FirstOwned(s.sent, n, rs'[j])
    {
      assert j < |rs| ==> rs'[j] == rs[j];
    }
  }

  /** Every report continues an acceptance of the same quantity, or is a rejection. */
  lemma Began(rs: seq<M.ExecReport>, j: nat) returns (i: nat)
    requires M.WellFormed(rs) && j < |rs|
    ensures i < |rs| && rs[i].id == rs[j].id
    ensures (rs[i].status == M.New && rs[i].quantity == rs[j].quantity) || (i == j && rs[j].status == M.Rejected)
  {
    i := First(rs, j);
    M.PrefixWellFormed(rs, i + 1);
    assert rs[..i + 1][..i] == rs[..i];
    NoLast(rs[..i], rs[i].id);
    if i < j {
      M.StreamGrows(rs, i, j);
    }
  }

  lemma {:induction false} First(rs: seq<M.ExecReport>, j: nat) returns (i: nat)
    requires j < |rs|
    ensures i <= j && rs[i].id == rs[j].id && forall h :: 0 <= h < i ==> rs[h].id != rs[i].id
    decreases j
  {
    if h: nat :| h < j && rs[h].id == rs[j].id {
      i := First(rs, h);
    } else {
      i := j;
    }
  }

  lemma {:induction false} NoLast(rs: seq<M.ExecReport>, id: E.ClientId)
    requires forall h :: 0 <= h < |rs| ==> rs[h].id != id
    ensures M.Last(rs, id) == None
  {
    if rs == [] {
    } else {
      NoLast(rs[..|rs| - 1], id);
    }
  }

  lemma OwnedIsSentAs(gw: Gateway, s: State, rs: seq<M.ExecReport>, i: nat)
    requires FreshIds(gw) && Recorded(gw, s) && M.WellFormed(rs) && Owned(gw, s.sent, rs) && i < |s.orders|
    ensures SentAs(rs, s.orders[i])
  {
    hide M.WellFormed;
    var o := s.orders[i];
    assert HasRequest(gw, s, o);
    var n: nat :| RecordedAs(gw, s, n, o);
    forall j | 0 <= j < |rs| && rs[j].id == o.id
      ensures rs[j].status == M.Rejected || rs[j].quantity == o.volume
    {
      var f := Began(rs, j);
      assert Names(gw, n, rs[f].id);
      assert FirstOwned(s.sent, n, rs[f]);
    }
  }

  // ---------- what every joint run keeps ----------

  ghost predicate Joint(gw: Gateway, moves: seq<Move>, w: World) {
    && Reach(gw, Ours(moves)) == At(w.s) && M.Reaches(Theirs(moves), w.x)
    && Delivered(w.x.reports, Ours(moves)) && Recorded(gw, w.s) && Owned(gw, w.s.sent, w.x.reports)
  }

  lemma DeliveredNext(rs: seq<M.ExecReport>, events: seq<Event>, e: Event)
    requires Delivered(rs, events) && (e.Inform? ==> From(rs, e.r))
    ensures Delivered(rs, events + [e])
  {
  }

  lemma DeliveredGrows(rs: seq<M.ExecReport>, rs': seq<M.ExecReport>, events: seq<Event>)
    requires Delivered(rs, events) && rs <= rs'
    ensures Delivered(rs', events)
  {
    forall i | 0 <= i < |events| && events[i].Inform?
      ensures From(rs', events[i].r)
    {
      var r := events[i].r;
      if IsFinal(r.status) || r.traded > 0 {
        var j: nat :| MatchComposition.At(rs, r, j);
        assert MatchComposition.At(rs', r, j);
      }
    }
  }

  lemma ReachesNext(events: seq<M.Event>, x: M.Exchange, v: M.Event)
    requires M.Reaches(events, x) && E.AllOpen(x.bids) && E.AllOpen(x.asks) && M.Enabled(x, v)
    ensures M.Reaches(events + [v], M.Step(x, v))
  {
    hide M.Enabled, M.Step;
    assert (events + [v])[..|events|] == events;
  }

  lemma CallJoint(gw: Gateway, before: seq<Move>, w: World, e: Event)
    requires FreshIds(gw) && Joint(gw, before, w) && Possible(gw, w, Call(e))
    ensures Joint(gw, before + [Call(e)], w.(s := Step(gw, w.s, e).state))
  {
    hide Reach, M.Reaches, Delivered, Recorded, Owned, Enabled, Step;
    Apart(before, Call(e));
    ReachNext(gw, Ours(before), e);
    DeliveredNext(w.x.reports, Ours(before), e);
    CallRecorded(gw, w.s, e);
    OwnedGrows(gw, w.s.sent, Step(gw, w.s, e).state.sent, w.x.reports);
  }

  lemma VenueJoint(gw: Gateway, before: seq<Move>, w: World, v: M.Event)
    requires Joint(gw, before, w) && Possible(gw, w, Venue(v)) && E.AllOpen(w.x.bids) && E.AllOpen(w.x.asks)
    ensures Joint(gw, before + [Venue(v)], w.(x := M.Step(w.x, v)))
  {
    hide Reach, M.Reaches, Delivered, Recorded, Owned, M.Enabled, M.Step, Passed;
    Apart(before, Venue(v));
    ReachesNext(Theirs(before), w.x, v);
    VenueReports(w.x, v);
    DeliveredGrows(w.x.reports, M.Step(w.x, v).reports, Ours(before));
    VenueOwned(gw, w.s, w.x, v);
  }

  /** A report of one of the coordinator's requests is about an order it has on record, and is as it assumes of reports. */
  lemma ArrivalEnabled(gw: Gateway, before: seq<Move>, w: World, r: Report)
    requires FreshIds(gw) && Joint(gw, before, w) && M.WellFormed(w.x.reports) && Possible(gw, w, Arrival(r))
    ensures Enabled(w.s, Inform(r))
  {
    hide Reach, M.Reaches, Delivered, Owned, Enabled, M.WellFormed, From;
    var n: nat :| n < |w.s.sent| && Names(gw, n, r.id);
    assert HasOrder(gw, w.s, n);
    var i: nat :| i < |w.s.orders| && RecordedAs(gw, w.s, n, w.s.orders[i]);
    var k := IndexOf(w.s.orders, r.id);
    assert k <= i;
    OwnedIsSentAs(gw, w.s, w.x.reports, k);
    StreamIsAdmissible(gw, Ours(before), w.x.reports, r);
  }

  lemma ArrivalJoint(gw: Gateway, before: seq<Move>, w: World, r: Report)
    requires FreshIds(gw) && Joint(gw, before, w) && M.WellFormed(w.x.reports) && Possible(gw, w, Arrival(r))
    ensures Joint(gw, before + [Arrival(r)], w.(s := ProcessOrder(w.s, r).state))
  {
    hide Reach, M.Reaches, Delivered, Recorded, Owned, M.WellFormed, ProcessOrder, From;
    Apart(before, Arrival(r));
    ArrivalEnabled(gw, before, w, r);
    ReachNext(gw, Ours(before), Inform(r));
    DeliveredNext(w.x.reports, Ours(before), Inform(r));
    InformRecorded(gw, w.s, r);
    InformSame(w.s, r);
  }

  lemma StartsJoint(gw: Gateway)
    ensures Joint(gw, [], World(INITIAL, M.OPENING))
  {
  }

  lemma {:induction false} RunIsJoint(gw: Gateway, moves: seq<Move>)
    requires FreshIds(gw) && Run(gw, moves).Some?
    ensures Joint(gw, moves, Run(gw, moves).value)
  {
    hide Joint, Possible, M.Inv;
    if moves == [] {
      StartsJoint(gw);
    } else {
      var before, m := moves[..|moves| - 1], moves[|moves| - 1];
      assert moves == before + [m];
      RunIsJoint(gw, before);
      NextIsJoint(gw, before, Run(gw, before).value, m);
    }
  }

  lemma NextIsJoint(gw: Gateway, before: seq<Move>, w: World, m: Move)
    requires FreshIds(gw) && Joint(gw, before, w) && Possible(gw, w, m) && E.AllOpen(w.x.bids) && E.AllOpen(w.x.asks)
    ensures Joint(gw, before + [m], After(gw, w, m))
  {
    hide Joint, Possible;
    match m
    case Call(e) => CallJoint(gw, before, w, e);
    case Venue(v) => VenueJoint(gw, before, w, v);
    case Arrival(r) =>
      JointIsSound(gw, before, w);
      ArrivalJoint(gw, before, w, r);
  }

  lemma JointIsSound(gw: Gateway, moves: seq<Move>, w: World)
    requires Joint(gw, moves, w)
    ensures M.Inv(w.x) && M.WellFormed(w.x.reports) && E.AllOpen(w.x.bids) && E.AllOpen(w.x.asks)
  {
    M.RunIsWellFormed(Theirs(moves), w.x);
  }

  // ---------- what the exchange did ----------

  /** Lots of an order executed or still open at the exchange. */
  function Exposed(rs: seq<M.ExecReport>, id: OrderId): nat {
    match M.Last(rs, id)
    case None => 0
    case Some(r) => r.cum + r.leaves
  }

  function Exposure(rs: seq<M.ExecReport>, os: seq<Child>, scope: Scope): nat {
    if os == [] then 0
    else
      var o := os[|os| - 1];
      Exposure(rs, os[..|os| - 1], scope) + if scope.Has(o) then Exposed(rs, o.id) else 0
  }

  /** Executed lots of the orders alone. */
  function Executed(rs: seq<M.ExecReport>, os: seq<Child>, scope: Scope): nat {
    if os == [] then 0
    else
      var o := os[|os| - 1];
      Executed(rs, os[..|os| - 1], scope) + if scope.Has(o) then M.Lots(rs, o.id) else 0
  }

  /** The cumulative and the open quantity of a report fit its order, and nothing is open after the last one. */
  lemma ReportFits(rs: seq<M.ExecReport>, j: nat)
    requires M.WellFormed(rs) && j < |rs|
    ensures rs[j].cum + rs[j].leaves <= rs[j].quantity
    ensures rs[j].IsTerminal() ==> rs[j].leaves == 0
    ensures rs[j].status == M.Rejected ==> rs[j].cum == 0
  {
    hide E.Money;
    M.PrefixWellFormed(rs, j + 1);
    assert rs[..j + 1][..j] == rs[..j];
    M.CumWithinQuantity(rs, j);
  }

  /** Why a final order is final: the exchange's last report on it was delivered. */
  lemma FinalIsDelivered(gw: Gateway, moves: seq<Move>, w: World, i: nat, j: nat)
    requires FreshIds(gw) && Joint(gw, moves, w) && M.WellFormed(w.x.reports)
    requires i < |w.s.orders| && IsFinal(w.s.orders[i].status)
    requires j < |w.x.reports| && w.x.reports[j].id == w.s.orders[i].id && M.Last(w.x.reports, w.s.orders[i].id) == Some(w.x.reports[j])
    ensures w.x.reports[j].IsTerminal() && w.x.reports[j].cum <= w.s.orders[i].traded
  {
    hide Reach, M.Reaches, Recorded, Owned, M.WellFormed, FinalHistory;
    var rs, o, events := w.x.reports, w.s.orders[i], Ours(moves);
    RunHistory(gw, events);
    RunFinal(gw, events);
    var k := WhyFinal(w.s.orders, events, i);
    assert From(rs, events[k].r);
    var t: nat :| MatchComposition.At(rs, events[k].r, t);
    ReportedAtLeast(events, k);
    M.FinalIsLargest(rs, j, t);
    LastIsLast(rs, t, j);
  }

  lemma LastIsLast(rs: seq<M.ExecReport>, t: nat, j: nat)
    requires M.WellFormed(rs) && j <= t < |rs| && rs[t].id == rs[j].id && rs[t].IsTerminal() && M.Last(rs, rs[j].id) == Some(rs[j])
    ensures rs[j] == rs[t]
  {
    var l := M.LastIs(rs, t);
    if t < l {
      M.StreamGrows(rs, t, l);
    }
  }

  /** What an order has executed or still has open at the exchange, the coordinator counts as filled or live. */
  lemma OrderIsCovered(gw: Gateway, moves: seq<Move>, w: World, i: nat)
    requires FreshIds(gw) && Joint(gw, moves, w) && i < |w.s.orders|
    ensures Exposed(w.x.reports, w.s.orders[i].id) <= w.s.orders[i].traded + w.s.orders[i].Leaves()
  {
    hide Joint, M.WellFormed;
    var rs, o := w.x.reports, w.s.orders[i];
    JointIsSound(gw, moves, w);
    if M.Last(rs, o.id).Some? {
      var j := M.LastOf(rs, o.id);
      ReportFits(rs, j);
      SentAsInRun(gw, moves, w, i);
      if IsFinal(o.status) {
        FinalIsDelivered(gw, moves, w, i, j);
      }
    }
  }

  lemma SentAsInRun(gw: Gateway, moves: seq<Move>, w: World, i: nat)
    requires FreshIds(gw) && Joint(gw, moves, w) && i < |w.s.orders|
    ensures SentAs(w.x.reports, w.s.orders[i])
  {
    JointIsSound(gw, moves, w);
    OwnedIsSentAs(gw, w.s, w.x.reports, i);
  }

  lemma {:induction false} ExposureIsCovered(rs: seq<M.ExecReport>, os: seq<Child>, scope: Scope)
    requires forall i :: 0 <= i < |os| ==> Exposed(rs, os[i].id) <= os[i].traded + os[i].Leaves()
    ensures Exposure(rs, os, scope) <= Sum(scope.Filled(), os) + Sum(scope.Live(), os)
  {
    if os == [] {
    } else {
      ExposureIsCovered(rs, os[..|os| - 1], scope);
    }
  }

  lemma RunIsCovered(gw: Gateway, moves: seq<Move>, scope: Scope)
    requires FreshIds(gw) && Run(gw, moves).Some?
    ensures var w := Run(gw, moves).value;
            Exposure(w.x.reports, w.s.orders, scope) <= Sum(scope.Filled(), w.s.orders) + Sum(scope.Live(), w.s.orders)
  {
    hide Joint, Run;
    var w := Run(gw, moves).value;
    RunIsJoint(gw, moves);
    forall i: nat | i < |w.s.orders|
      ensures Exposed(w.x.reports, w.s.orders[i].id) <= w.s.orders[i].traded + w.s.orders[i].Leaves()
    {
      OrderIsCovered(gw, moves, w, i);
    }
    ExposureIsCovered(w.x.reports, w.s.orders, scope);
  }

  // ---------- results ----------

  /**
   * Coordinator and ordermatch together, whatever is delivered when, in any order, again or never: the limits hold,
   * and what the exchange has executed and still has open for a parent or a tranche stays within its volume, also
   * where the coordinator has not heard of it yet.
   */
  lemma TogetherNeverOversell(gw: Gateway, moves: seq<Move>, p: ParentId)
    requires FreshIds(gw) && Run(gw, moves).Some? && p in Run(gw, moves).value.s.parents
    ensures var w := Run(gw, moves).value;
            var parent, rs, os := w.s.parents[p], w.x.reports, w.s.orders;
            && WithinLimits(w.s, p)
            && Exposure(rs, os, OfParent(p)) <= parent.total
            && forall i :: 0 <= i < |parent.tranches| ==> Exposure(rs, os, OfTranche(Key(p, i))) <= parent.tranches[i].volume
  {
    hide Run, Reach, M.Reaches, Delivered, Owned, Recorded;
    var w := Run(gw, moves).value;
    RunIsJoint(gw, moves);
    RunNeverOversells(gw, Ours(moves), p);
    RunKeeps(gw, Ours(moves));
    RunIsCovered(gw, moves, OfParent(p));
    forall i | 0 <= i < |w.s.parents[p].tranches|
      ensures Exposure(w.x.reports, w.s.orders, OfTranche(Key(p, i))) <= w.s.parents[p].tranches[i].volume
    {
      RunIsCovered(gw, moves, OfTranche(Key(p, i)));
      assert TrancheBooked(w.s, Key(p, i));
    }
  }

  /** No order of the coordinator at the exchange is missing from its records. */
  lemma NothingUnrecorded(gw: Gateway, moves: seq<Move>, j: nat, n: nat)
    requires FreshIds(gw) && Run(gw, moves).Some?
    requires j < |Run(gw, moves).value.x.reports| && Names(gw, n, Run(gw, moves).value.x.reports[j].id)
    ensures var w := Run(gw, moves).value; HasId(w.s.orders, w.x.reports[j].id) && HasOrder(gw, w.s, n)
  {
    hide Run, M.WellFormed, M.Inv;
    var w := Run(gw, moves).value;
    RunIsJoint(gw, moves);
    JointIsSound(gw, moves, w);
    var i := Began(w.x.reports, j);
    assert FirstOwned(w.s.sent, n, w.x.reports[i]);
    assert HasOrder(gw, w.s, n);
    var k: nat :| k < |w.s.orders| && RecordedAs(gw, w.s, n, w.s.orders[k]);
  }

  /** Whatever the exchange has reported on the coordinator's orders can be delivered at any time and never raises. */
  lemma ReportsNeverRaise(gw: Gateway, moves: seq<Move>, r: Report)
    requires FreshIds(gw) && Run(gw, moves).Some? && Possible(gw, Run(gw, moves).value, Arrival(r))
    ensures Enabled(Run(gw, moves).value.s, Inform(r)) && ProcessOrder(Run(gw, moves).value.s, r).Done?
  {
    hide Run, Joint, Possible, Inv, M.Inv;
    var w := Run(gw, moves).value;
    RunIsJoint(gw, moves);
    JointIsSound(gw, moves, w);
    NeverRaises(gw, moves, w, r);
  }

  /** A joint run never gets stuck: the exchange's books stay open, so every possible move can be made. */
  lemma NeverStuck(gw: Gateway, moves: seq<Move>, m: Move)
    requires FreshIds(gw) && Run(gw, moves).Some? && Possible(gw, Run(gw, moves).value, m)
    ensures Run(gw, moves + [m]).Some?
  {
    hide Joint, Possible, M.Inv;
    RunIsJoint(gw, moves);
    JointIsSound(gw, moves, Run(gw, moves).value);
    assert (moves + [m])[..|moves|] == moves;
  }

  lemma NeverRaises(gw: Gateway, moves: seq<Move>, w: World, r: Report)
    requires FreshIds(gw) && Joint(gw, moves, w) && M.WellFormed(w.x.reports) && Possible(gw, w, Arrival(r))
    ensures Enabled(w.s, Inform(r)) && ProcessOrder(w.s, r).Done?
  {
    hide Possible, Inv, ProcessOrder, Reach, M.Reaches, M.WellFormed, Delivered, Recorded, Owned;
    ArrivalEnabled(gw, moves, w, r);
    RunKeeps(gw, Ours(moves));
    ProcessOrderKeeps(gw, w.s, r);
  }

  // ---------- what the coordinator knows of it ----------

  /** A report with all that was executed of the order has arrived, whatever came before or after it. */
  ghost predicate Told(events: seq<Event>, rs: seq<M.ExecReport>, id: OrderId) {
    M.Lots(rs, id) == 0 || exists e :: e in events && e.Inform? && e.r.id == id && e.r.traded == M.Lots(rs, id)
  }

  /** The executed lots are the last cumulative quantity, which no report exceeds. */
  lemma ReportedWithinLots(rs: seq<M.ExecReport>, j: nat)
    requires M.WellFormed(rs) && j < |rs|
    ensures rs[j].cum <= M.Lots(rs, rs[j].id)
  {
    M.TotalsAreExact(rs, rs[j].id);
    var l := M.LastIs(rs, j);
    if j < l {
      M.StreamGrows(rs, j, l);
    }
  }

  /** No delivered report is ahead of the exchange. */
  lemma NotAhead(rs: seq<M.ExecReport>, events: seq<Event>, id: OrderId)
    requires M.WellFormed(rs) && Delivered(rs, events)
    ensures MaxReported(events, id) <= M.Lots(rs, id)
    ensures MaxReported(events, id) == M.Lots(rs, id) <==> Told(events, rs, id)
  {
    hide M.WellFormed, M.Lots, MaxReported, From;
    MaxReportedIs(events, id);
    if MaxReported(events, id) > 0 {
      var e :| e in events && e.Inform? && e.r.id == id && e.r.traded == MaxReported(events, id);
      ReportInLots(rs, events, e);
    }
    if M.Lots(rs, id) > 0 && Told(events, rs, id) {
      var e :| e in events && e.Inform? && e.r.id == id && e.r.traded == M.Lots(rs, id);
      assert e.r.traded <= MaxReported(events, id);
    }
  }

  lemma ReportInLots(rs: seq<M.ExecReport>, events: seq<Event>, e: Event)
    requires M.WellFormed(rs) && Delivered(rs, events) && e in events && e.Inform?
    ensures e.r.traded <= M.Lots(rs, e.r.id)
  {
    hide M.WellFormed, M.Lots;
    var i :| 0 <= i < |events| && events[i] == e;
    assert From(rs, events[i].r);
    if j: nat :| MatchComposition.At(rs, e.r, j) {
      ReportedWithinLots(rs, j);
    }
  }

  lemma {:induction false} FillsWithinExecuted(rs: seq<M.ExecReport>, os: seq<Child>, scope: Scope)
    requires forall i :: 0 <= i < |os| ==> os[i].traded <= M.Lots(rs, os[i].id)
    ensures Sum(scope.Filled(), os) <= Executed(rs, os, scope)
    ensures Sum(scope.Filled(), os) == Executed(rs, os, scope)
            <==> forall i :: 0 <= i < |os| && scope.Has(os[i]) ==> os[i].traded == M.Lots(rs, os[i].id)
  {
    if os == [] {
    } else {
      var n := |os| - 1;
      FillsWithinExecuted(rs, os[..n], scope);
      assert forall i :: 0 <= i < n ==> os[..n][i] == os[i];
    }
  }

  /**
   * The ledger of a parent never runs ahead of the exchange, and equals what the exchange executed for it exactly when,
   * for each of its orders, the report with the whole executed quantity has arrived: earlier ones need not.
   */
  lemma LedgerIsExecuted(gw: Gateway, moves: seq<Move>, p: ParentId)
    requires FreshIds(gw) && Run(gw, moves).Some? && p in Run(gw, moves).value.s.parents
    ensures var w := Run(gw, moves).value;
            var traded, rs, os := w.s.parents[p].traded, w.x.reports, w.s.orders;
            && traded <= Executed(rs, os, OfParent(p))
            && (traded == Executed(rs, os, OfParent(p))
                <==> forall i :: 0 <= i < |os| && os[i].parent == p ==> Told(Ours(moves), rs, os[i].id))
  {
    hide Run, Reach, M.Reaches, Owned, Recorded, Told, WithinLimits, Inv, M.Inv, M.WellFormed;
    var w := Run(gw, moves).value;
    RunIsJoint(gw, moves);
    JointIsSound(gw, moves, w);
    RunNeverOversells(gw, Ours(moves), p);
    RunHistory(gw, Ours(moves));
    forall i | 0 <= i < |w.s.orders|
      ensures w.s.orders[i].traded <= M.Lots(w.x.reports, w.s.orders[i].id)
      ensures w.s.orders[i].traded == M.Lots(w.x.reports, w.s.orders[i].id) <==> Told(Ours(moves), w.x.reports, w.s.orders[i].id)
    {
      NotAhead(w.x.reports, Ours(moves), w.s.orders[i].id);
    }
    FillsWithinExecuted(w.x.reports, w.s.orders, OfParent(p));
  }
}
