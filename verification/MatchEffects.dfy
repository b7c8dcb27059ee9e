/** What a new order and a cancel request do to the exchange, said of its books and of the reports they add. */
module MatchEffects {
  import opened Wrappers
  import opened MatchEngine
  import opened MatchReports

  function BookOf(x: Exchange, side: Side): seq<Ord> {
    if side == Buy then x.bids else x.asks
  }

  function OtherBook(x: Exchange, side: Side): seq<Ord> {
    if side == Buy then x.asks else x.bids
  }

  // ---------- cancel requests ----------

  /** os' is os without its order at position i. */
  predicate Erased(os: seq<Ord>, os': seq<Ord>, i: nat) {
    i < |os| && |os'| == |os| - 1 && forall j :: 0 <= j < |os'| ==> os'[j] == if j < i then os[j] else os[j + 1]
  }

  /**
   * A cancel request for an order that rests on the side: one report is added, with nothing left open and the executed
   * quantity, the order is in neither book and not live any more, and all other orders keep their places. Without such
   * an order nothing happens.
   */
  lemma CancelEffects(x: Exchange, id: ClientId, side: Side)
    requires Inv(x)
    ensures var x' := Step(x, CancelRequest(id, side));
            && ((forall i :: 0 <= i < |BookOf(x, side)| ==> BookOf(x, side)[i].id != id) ==> x' == x)
            && forall i :: 0 <= i < |BookOf(x, side)| && BookOf(x, side)[i].id == id ==>
              && |x'.reports| == |x.reports| + 1 && x'.reports[..|x.reports|] == x.reports
              && Confirmation(BookOf(x, side)[i], x'.reports[|x.reports|])
              && Erased(BookOf(x, side), BookOf(x', side), i) && OtherBook(x', side) == OtherBook(x, side)
              && !HasOrd(x'.bids, id) && !HasOrd(x'.asks, id) && !Live(x'.reports, id)
  {
    hide AllOpen, Sorted, Uncrossed, WellFormed, AllRest, Last;
    var f := Find(BookOf(x, side), id);
    assert f < |BookOf(x, side)| ==> BookOf(x, side)[f].id == id;
    forall i | 0 <= i < |BookOf(x, side)| && BookOf(x, side)[i].id == id
      ensures var x' := Step(x, CancelRequest(id, side));
              && |x'.reports| == |x.reports| + 1 && x'.reports[..|x.reports|] == x.reports
              && Confirmation(BookOf(x, side)[i], x'.reports[|x.reports|])
              && Erased(BookOf(x, side), BookOf(x', side), i) && OtherBook(x', side) == OtherBook(x, side)
              && !HasOrd(x'.bids, id) && !HasOrd(x'.asks, id) && !Live(x'.reports, id)
    {
      CancelOne(x, side, i);
    }
  }

  /** The report on a cancelled order. */
  predicate Confirmation(o: Ord, r: ExecReport) {
    r.id == o.id && r.status == Canceled && r.leaves == 0 && r.cum == o.executed && r.quantity == o.quantity && r.avg == o.avg
  }

  lemma CancelOne(x: Exchange, side: Side, i: nat)
    requires Inv(x) && i < |BookOf(x, side)|
    ensures var id := BookOf(x, side)[i].id;
            var x' := Step(x, CancelRequest(id, side));
            && |x'.reports| == |x.reports| + 1 && x'.reports[..|x.reports|] == x.reports
            && Confirmation(BookOf(x, side)[i], x'.reports[|x.reports|])
            && Erased(BookOf(x, side), BookOf(x', side), i) && OtherBook(x', side) == OtherBook(x, side)
            && !HasOrd(x'.bids, id) && !HasOrd(x'.asks, id) && !Live(x'.reports, id)
  {
    hide Sorted, Uncrossed, WellFormed, AllRest, Last, Backed;
    var os, id := BookOf(x, side), BookOf(x, side)[i].id;
    assert Find(os, id) == i;
    var x' := Step(x, CancelRequest(id, side));
    LastAppend(x.reports, x'.reports[|x.reports|], id);
    CancelKeeps(x, id, side);
    RestsIffLive(x', id);
  }

  /** A refused order is reported once, with nothing executed or open, and the books do not change. */
  lemma RefuseEffects(x: Exchange, id: ClientId)
    requires Inv(x) && Enabled(x, Refuse(id))
    ensures var x' := Step(x, Refuse(id));
            && x'.bids == x.bids && x'.asks == x.asks && |x'.reports| == |x.reports| + 1 && x'.reports[..|x.reports|] == x.reports
            && !Live(x'.reports, id)
            && var r := x'.reports[|x.reports|]; r.id == id && r.status == Rejected && r.cum == 0 && r.leaves == 0
  {
    hide AllOpen, Sorted, Uncrossed, WellFormed, AllRest, AllBacked, Disjoint, Last;
    LastAppend(x.reports, Refusal(id), id);
  }

  // ---------- new orders ----------

  /**
   * A new order is accepted by the first report; all other reports it sets off are fills. What is reported as executed
   * of it leaves the opposite book lot for lot, and what remains of it rests in its own book, which loses nothing else.
   */
  lemma SubmitEffects(x: Exchange, id: ClientId, side: Side, price: int, quantity: nat)
    requires Inv(x) && Enabled(x, Submit(id, side, price, quantity))
    ensures var x' := Step(x, Submit(id, side, price, quantity));
            && |x'.reports| > |x.reports| && x'.reports[..|x.reports|] == x.reports
            && Acceptance(x'.reports[|x.reports|], id, quantity)
            && (forall j :: |x.reports| < j < |x'.reports| ==> x'.reports[j].IsFill())
            && var executed := Lots(x'.reports, id);
               && OpenLots(OtherBook(x', side)) + executed == OpenLots(OtherBook(x, side))
               && OpenLots(BookOf(x', side)) + executed == OpenLots(BookOf(x, side)) + quantity
               && (HasOrd(BookOf(x', side), id) <==> executed < quantity)
  {
    hide AllOpen, Sorted, Uncrossed, WellFormed, AllRest, AllBacked, Disjoint, Last, Match, Inserted, FillReports, Lots, OpenLots;
    var o := Fresh(id, side, price, quantity);
    var m := Submitted(x.bids, x.asks, o);
    SubmitKeeps(x, id, side, price, quantity);
    FillsOnly(m.trades);
    SubmitTrades(x, o);
    SubmitConserves(x, o);
    RestsUnlessDone(x, o);
  }

  predicate Acceptance(r: ExecReport, id: ClientId, quantity: nat) {
    r.id == id && r.status == New && r.quantity == r.leaves == quantity && r.cum == 0
  }

  lemma FillsOnly(ts: seq<Trade>)
    ensures forall j :: 0 <= j < |FillReports(ts)| ==> FillReports(ts)[j].IsFill()
  {
    if ts == [] {
    } else {
      FillsOnly(ts[1..]);
    }
  }

  /** Exactly one side of each trade is the order's, and both sides trade the same quantity. */
  predicate OneSided(ts: seq<Trade>, id: ClientId) {
    forall i :: 0 <= i < |ts| ==> ((ts[i].bid.id == id) != (ts[i].ask.id == id)) && ts[i].bid.lastQuantity == ts[i].ask.lastQuantity
  }

  lemma {:induction false} LotsOfTrades(rs: seq<ExecReport>, ts: seq<Trade>, id: ClientId)
    requires OneSided(ts, id)
    ensures Lots(rs + FillReports(ts), id) == Lots(rs, id) + TradedLots(ts)
    decreases |ts|
  {
    if ts == [] {
      assert rs + [] == rs;
    } else {
      var a, b := FillReport(ts[0].bid), FillReport(ts[0].ask);
      LotsAppend(rs, a, id);
      LotsAppend(rs + [a], b, id);
      LotsOfTrades(rs + [a] + [b], ts[1..], id);
      assert rs + ([a, b] + FillReports(ts[1..])) == rs + [a] + [b] + FillReports(ts[1..]);
    }
  }

  lemma LotsAppend(rs: seq<ExecReport>, r: ExecReport, id: ClientId)
    ensures Lots(rs + [r], id) == Lots(rs, id) + if r.id == id && r.IsFill() then r.lastQuantity else 0
  {
    assert (rs + [r])[..|rs|] == rs;
  }

  /** In the books of one order the two sides of a trade are different orders. */
  lemma {:induction false} SidesDiffer(bids: seq<Ord>, asks: seq<Ord>, i: nat)
    requires AllOpen(bids) && AllOpen(asks) && Disjoint(bids, asks) && i < |Match(bids, asks).trades|
    ensures var t := Match(bids, asks).trades[i]; t.bid.id != t.ask.id
    decreases |bids| + |asks|
  {
    hide Average, Disjoint, Traded, Rest, Match;
    MatchSteps(bids, asks, i);
    FirstsDiffer(bids, asks);
    var t := Traded(bids[0], asks[0]);
    if i == 0 {
    } else {
      DisjointRest(bids, asks, t.bid, t.ask);
      SidesDiffer(Rest(t.bid, bids), Rest(t.ask, asks), i - 1);
    }
  }

  lemma FirstsDiffer(bids: seq<Ord>, asks: seq<Ord>)
    requires AllOpen(bids) && AllOpen(asks) && Disjoint(bids, asks) && bids != [] && asks != []
    ensures var t := Traded(bids[0], asks[0]); t.bid.id == bids[0].id != asks[0].id == t.ask.id
  {
  }

  lemma SubmitTrades(x: Exchange, o: Ord)
    requires Inv(x) && Last(x.reports, o.id) == None && o.quantity > 0 && o == Fresh(o.id, o.side, o.price, o.quantity)
    ensures var m := Submitted(x.bids, x.asks, o);
            Lots(x.reports + [ReportOn(o, New)] + FillReports(m.trades), o.id) == TradedLots(m.trades)
  {
    hide Sorted, WellFormed, AllRest, Last, Match, Inserted, FillReports, Lots, Backed;
    var m := Submitted(x.bids, x.asks, o);
    UnknownAbsent(x.reports, x.bids, o.id);
    UnknownAbsent(x.reports, x.asks, o.id);
    forall i: nat | i < |m.trades|
      ensures ((m.trades[i].bid.id == o.id) != (m.trades[i].ask.id == o.id)) && m.trades[i].bid.lastQuantity == m.trades[i].ask.lastQuantity
    {
      TradeOfOrder(x.bids, x.asks, o, i);
    }
    TotalsAreExact(x.reports, o.id);
    LotsAppend(x.reports, ReportOn(o, New), o.id);
    LotsOfTrades(x.reports + [ReportOn(o, New)], m.trades, o.id);
  }

  lemma TradeOfOrder(bids: seq<Ord>, asks: seq<Ord>, o: Ord, i: nat)
    requires AllOpen(bids) && AllOpen(asks) && Disjoint(bids, asks) && Uncrossed(bids, asks) && o.open > 0
    requires (forall j :: 0 <= j < |bids| ==> bids[j].id != o.id) && forall j :: 0 <= j < |asks| ==> asks[j].id != o.id
    requires i < |Submitted(bids, asks, o).trades|
    ensures var t := Submitted(bids, asks, o).trades[i];
            ((t.bid.id == o.id) != (t.ask.id == o.id)) && t.bid.lastQuantity == t.ask.lastQuantity
  {
    hide Match, Inserted, Average, Uncrossed, Disjoint;
    EveryTradeInvolvesTheNewOrder(bids, asks, o, i);
    InsertedOpen(Buy, bids, o);
    InsertedOpen(Sell, asks, o);
    if o.side == Buy {
      InsertedDisjoint(Buy, bids, o, asks);
      SidesDiffer(Inserted(Buy, bids, o), asks, i);
      TradesAreFair(Inserted(Buy, bids, o), asks, i);
    } else {
      DisjointSwap(bids, asks);
      InsertedDisjoint(Sell, asks, o, bids);
      DisjointSwap(Inserted(Sell, asks, o), bids);
      SidesDiffer(bids, Inserted(Sell, asks, o), i);
      TradesAreFair(bids, Inserted(Sell, asks, o), i);
    }
  }

  lemma {:induction false} OpenInserted(os: seq<Ord>, k: nat, o: Ord)
    requires k <= |os|
    ensures OpenLots(os[..k] + [o] + os[k..]) == OpenLots(os) + o.open
  {
    if k == 0 {
      assert os[..0] + [o] + os[0..] == [o] + os;
      assert ([o] + os)[1..] == os;
    } else {
      assert (os[..k] + [o] + os[k..])[1..] == os[1..][..k - 1] + [o] + os[1..][k - 1..];
      OpenInserted(os[1..], k - 1, o);
    }
  }

  lemma SubmitConserves(x: Exchange, o: Ord)
    requires AllOpen(x.bids) && AllOpen(x.asks) && o.open > 0
    ensures var m := Submitted(x.bids, x.asks, o);
            && OpenLots(m.bids) + TradedLots(m.trades) == OpenLots(x.bids) + (if o.side == Buy then o.open else 0)
            && OpenLots(m.asks) + TradedLots(m.trades) == OpenLots(x.asks) + (if o.side == Sell then o.open else 0)
  {
    hide Match, OpenLots;
    InsertedOpen(Buy, x.bids, o);
    InsertedOpen(Sell, x.asks, o);
    OpenInserted(x.bids, Slot(Buy, x.bids, o.price), o);
    OpenInserted(x.asks, Slot(Sell, x.asks, o.price), o);
    if o.side == Buy {
      MatchConserves(Inserted(Buy, x.bids, o), x.asks);
    } else {
      MatchConserves(x.bids, Inserted(Sell, x.asks, o));
    }
  }

  /** The order rests exactly if something of it is left. */
  lemma RestsUnlessDone(x: Exchange, o: Ord)
    requires Inv(x) && Enabled(x, Submit(o.id, o.side, o.price, o.quantity)) && o == Fresh(o.id, o.side, o.price, o.quantity)
    requires Inv(Step(x, Submit(o.id, o.side, o.price, o.quantity)))
    ensures var x' := Step(x, Submit(o.id, o.side, o.price, o.quantity));
            HasOrd(BookOf(x', o.side), o.id) <==> Lots(x'.reports, o.id) < o.quantity
  {
    hide Sorted, Uncrossed, Match, Inserted, Lots, WellFormed, AllRest, AllBacked, Disjoint, Last;
    var x' := Step(x, Submit(o.id, o.side, o.price, o.quantity));
    var m := Submitted(x.bids, x.asks, o);
    FillsOnly(m.trades);
    LiveUnlessDone(x', |x.reports|, o.id, o.quantity);
    RestsIffLive(x', o.id);
    NotElsewhere(x, o);
  }

  /** After an acceptance that only fills follow, an order is live until all of it is executed. */
  lemma LiveUnlessDone(x: Exchange, n: nat, id: ClientId, quantity: nat)
    requires Inv(x) && n < |x.reports| && Acceptance(x.reports[n], id, quantity) && quantity > 0
    requires forall j :: n < j < |x.reports| ==> x.reports[j].IsFill()
    ensures Live(x.reports, id) <==> Lots(x.reports, id) < quantity
  {
    hide WellFormed, Lots, AllRest, AllBacked;
    var rs := x.reports;
    var j := LastIs(rs, n);
    TotalsAreExact(rs, id);
    if j > n {
      StreamGrows(rs, n, j);
      FillAccounts(rs, j);
    }
  }

  lemma FillAccounts(rs: seq<ExecReport>, j: nat)
    requires WellFormed(rs) && j < |rs| && rs[j].IsFill()
    ensures rs[j].cum + rs[j].leaves == rs[j].quantity && (rs[j].status == Filled <==> rs[j].leaves == 0)
  {
    hide Money;
    PrefixWellFormed(rs, j + 1);
    assert rs[..j + 1][..j] == rs[..j];
  }

  /** A new order never rests in the opposite book. */
  lemma NotElsewhere(x: Exchange, o: Ord)
    requires Inv(x) && Last(x.reports, o.id) == None && o.open > 0
    ensures var m := Submitted(x.bids, x.asks, o); !HasOrd(if o.side == Buy then m.asks else m.bids, o.id)
  {
    hide Sorted, Uncrossed, Match, Inserted, WellFormed, AllRest, Last, Backed;
    UnknownAbsent(x.reports, x.bids, o.id);
    UnknownAbsent(x.reports, x.asks, o.id);
    InsertedOpen(Buy, x.bids, o);
    InsertedOpen(Sell, x.asks, o);
    if o.side == Buy {
      var k, l := MatchTakesFront(Inserted(Buy, x.bids, o), x.asks);
      SuffixHas(Match(Inserted(Buy, x.bids, o), x.asks).asks, x.asks, l, o.id);
    } else {
      var k, l := MatchTakesFront(x.bids, Inserted(Sell, x.asks, o));
      SuffixHas(Match(x.bids, Inserted(Sell, x.asks, o)).bids, x.bids, k, o.id);
    }
  }

  lemma SuffixHas(os': seq<Ord>, os: seq<Ord>, k: nat, id: ClientId)
    requires Suffix(os', os, k) && forall i :: 0 <= i < |os| ==> os[i].id != id
    ensures !HasOrd(os', id)
  {
    forall i | 0 <= i < |os'|
      ensures os'[i].id != id
    {
      assert os'[i].id == os[k + i].id;
    }
  }
}
