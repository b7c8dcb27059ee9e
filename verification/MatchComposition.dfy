/**
 * The coordinator behind ordermatch: what the exchange reports, delivered late, repeatedly or out of order, is what
 * the coordinator assumes of order reports.
 */
module MatchComposition {
  import opened Coordinator
  import opened CoordinatorSafety
  import opened CoordinatorRuns
  import M = MatchReports

  function StatusOf(s: M.Status): OrderStatus {
    match s
    case New => NotTraded
    case PartiallyFilled => PartTraded
    case Filled => AllTraded
    case Canceled => OrderCancelled
    case Rejected => OrderStatus.Rejected
  }

  ghost predicate At(rs: seq<M.ExecReport>, r: Report, j: nat) {
    j < |rs| && rs[j].id == r.id && StatusOf(rs[j].status) == r.status && rs[j].cum == r.traded
  }

  /** The report is one of the exchange's, or the gateway's own notice that it has sent the order. */
  ghost predicate From(rs: seq<M.ExecReport>, r: Report) {
    (!IsFinal(r.status) && r.traded == 0) || exists j :: At(rs, r, j)
  }

  /** Every report delivered in the run comes from the exchange; which of its reports arrive, when and how often is open. */
  ghost predicate Delivered(rs: seq<M.ExecReport>, events: seq<Event>) {
    forall i :: 0 <= i < |events| && events[i].Inform? ==> From(rs, events[i].r)
  }

  /** The exchange knows the order with the volume it was sent with. */
  ghost predicate SentAs(rs: seq<M.ExecReport>, o: Child) {
    forall j :: 0 <= j < |rs| && rs[j].id == o.id ==> rs[j].status == M.Rejected || rs[j].quantity == o.volume
  }

  // ---------- why an order is final ----------

  predicate Ends(e: Event, id: OrderId) {
    e.Inform? && e.r.id == id && IsFinal(e.r.status)
  }

  /** An order is final only if a final report on it was delivered. */
  ghost predicate FinalHistory(os: seq<Child>, events: seq<Event>) {
    forall i :: 0 <= i < |os| && IsFinal(os[i].status) ==> exists k :: 0 <= k < |events| && Ends(events[k], os[i].id)
  }

  lemma FinalGrows(os: seq<Child>, os': seq<Child>, events: seq<Event>, e: Event)
    requires FinalHistory(os, events) && OrdersGrow(os, os')
    ensures FinalHistory(os', events + [e])
  {
    forall i | 0 <= i < |os'| && IsFinal(os'[i].status)
      ensures exists k :: 0 <= k < |events + [e]| && Ends((events + [e])[k], os'[i].id)
    {
      var k :| 0 <= k < |events| && Ends(events[k], os[i].id);
      assert Ends((events + [e])[k], os'[i].id);
    }
  }

  lemma FinalAbsorbs(os: seq<Child>, i: nat, events: seq<Event>, r: Report)
    requires FinalHistory(os, events) && i < |os| && os[i].id == r.id
    ensures FinalHistory(os[i := Absorb(os[i], r)], events + [Inform(r)])
  {
    var os', all := os[i := Absorb(os[i], r)], events + [Inform(r)];
    forall j | 0 <= j < |os'| && IsFinal(os'[j].status)
      ensures exists k :: 0 <= k < |all| && Ends(all[k], os'[j].id)
    {
      if IsFinal(os[j].status) {
        var k :| 0 <= k < |events| && Ends(events[k], os[j].id);
        assert Ends(all[k], os'[j].id);
      } else {
        assert Ends(all[|events|], os'[j].id);
      }
    }
  }

  lemma {:induction false} RunFinal(gw: Gateway, events: seq<Event>)
    requires FreshIds(gw) && Reach(gw, events).At?
    ensures FinalHistory(Reach(gw, events).s.orders, events)
  {
    hide Step, FinalHistory, Enabled;
    if events == [] {
      NothingFinal();
    } else {
      var n := |events| - 1;
      var before, e := Reach(gw, events[..n]).s, events[n];
      RunFinal(gw, events[..n]);
      RunKeeps(gw, events[..n]);
      assert events == events[..n] + [e];
      StepFinal(gw, before, events[..n], e);
    }
  }

  lemma NothingFinal()
    ensures FinalHistory([], [])
  {
  }

  lemma StepFinal(gw: Gateway, s: State, events: seq<Event>, e: Event)
    requires Inv(gw, s) && FreshIds(gw) && Enabled(s, e) && FinalHistory(s.orders, events)
    ensures FinalHistory(Step(gw, s, e).state.orders, events + [e])
  {
    if e.Inform? {
      InformFinal(gw, s, events, e.r);
    } else {
      hide Step, FinalHistory, Inv, Enabled;
      StepGrows(gw, s, e);
      FinalGrows(s.orders, Step(gw, s, e).state.orders, events, e);
    }
  }

  lemma InformFinal(gw: Gateway, s: State, events: seq<Event>, r: Report)
    requires Inv(gw, s) && Admissible(s, r) && FinalHistory(s.orders, events)
    ensures FinalHistory(ProcessOrder(s, r).state.orders, events + [Inform(r)])
  {
    hide ProcessOrder, FinalHistory, Inv;
    var i := IndexOf(s.orders, r.id);
    InformAbsorbs(gw, s, r);
    FinalAbsorbs(s.orders, i, events, r);
    FinalStays(s.orders[i := Absorb(s.orders[i], r)], ProcessOrder(s, r).state.orders, events + [Inform(r)]);
  }

  lemma FinalStays(os: seq<Child>, os': seq<Child>, events: seq<Event>)
    requires FinalHistory(os, events) && OrdersGrow(os, os')
    ensures FinalHistory(os', events)
  {
    forall i | 0 <= i < |os'| && IsFinal(os'[i].status)
      ensures exists k :: 0 <= k < |events| && Ends(events[k], os'[i].id)
    {
      assert i < |os|;
    }
  }

  // ---------- composition ----------

  lemma {:induction false} ReportedAtLeast(events: seq<Event>, k: nat)
    requires k < |events| && events[k].Inform?
    ensures events[k].r.traded <= MaxReported(events, events[k].r.id)
  {
    if k < |events| - 1 {
      ReportedAtLeast(events[..|events| - 1], k);
    }
  }

  /**
   * In any coordinator run whose reports come from a well-formed stream, in whatever order, with whatever repetitions
   * and gaps, the next report from that stream is admissible: within the order's volume, and not above what was known
   * when the order became final.
   */
  lemma StreamIsAdmissible(gw: Gateway, events: seq<Event>, rs: seq<M.ExecReport>, r: Report)
    requires FreshIds(gw) && Reach(gw, events).At? && M.WellFormed(rs) && Delivered(rs, events) && From(rs, r)
    requires var os := Reach(gw, events).s.orders; IndexOf(os, r.id) < |os| && SentAs(rs, os[IndexOf(os, r.id)])
    ensures Enabled(Reach(gw, events).s, Inform(r))
  {
    hide M.WellFormed, Reach, FinalHistory;
    var s := Reach(gw, events).s;
    var o := s.orders[IndexOf(s.orders, r.id)];
    RunHistory(gw, events);
    RunFinal(gw, events);
    if exists j :: At(rs, r, j) {
      var j: nat :| At(rs, r, j);
      M.CumWithinQuantity(rs, j);
      RejectedIsEmpty(rs, j);
      if IsFinal(o.status) {
        var k := WhyFinal(s.orders, events, IndexOf(s.orders, r.id));
        assert From(rs, events[k].r);
        var t: nat :| At(rs, events[k].r, t);
        M.FinalIsLargest(rs, j, t);
        ReportedAtLeast(events, k);
      }
    }
  }

  lemma WhyFinal(os: seq<Child>, events: seq<Event>, i: nat) returns (k: nat)
    requires FinalHistory(os, events) && i < |os| && IsFinal(os[i].status)
    ensures k < |events| && Ends(events[k], os[i].id)
  {
    k :| 0 <= k < |events| && Ends(events[k], os[i].id);
  }

  lemma RejectedIsEmpty(rs: seq<M.ExecReport>, j: nat)
    requires M.WellFormed(rs) && j < |rs|
    ensures rs[j].status == M.Rejected ==> rs[j].cum == 0
  {
    M.PrefixWellFormed(rs, j + 1);
    assert rs[..j + 1][..j] == rs[..j];
  }
}
