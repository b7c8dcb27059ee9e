/** The execution reports that ordermatch sends (QuickFIX/examples/ordermatch/Application.cpp), over whole runs. */
module MatchReports {
  import opened Wrappers
  import opened MatchEngine

  datatype Status = New | PartiallyFilled | Filled | Canceled | Rejected

  datatype ExecReport = ExecReport(id: ClientId, status: Status, quantity: nat, leaves: nat, cum: nat, avg: real,
                                   lastPrice: int, lastQuantity: nat) {
    predicate IsFill() {
      status == PartiallyFilled || status == Filled
    }

    predicate IsTerminal() {
      status == Filled || status == Canceled || status == Rejected
    }
  }

  /** updateOrder. */
  function ReportOn(o: Ord, status: Status): ExecReport {
    ExecReport(o.id, status, o.quantity, o.open, o.executed, o.avg, o.lastPrice, o.lastQuantity)
  }

  function FillReport(o: Ord): ExecReport {
    ReportOn(o, if o.IsFilled() then Filled else PartiallyFilled)
  }

  /** The queue of updates after matching: bid and ask of each trade. */
  function FillReports(ts: seq<Trade>): seq<ExecReport> {
    if ts == [] then [] else [FillReport(ts[0].bid), FillReport(ts[0].ask)] + FillReports(ts[1..])
  }

  // ---------- well-formed streams ----------

  /** The last report on an order. */
  function Last(rs: seq<ExecReport>, id: ClientId): Option<ExecReport> {
    if rs == [] then None
    else if rs[|rs| - 1].id == id then Some(rs[|rs| - 1])
    else Last(rs[..|rs| - 1], id)
  }

  /**
   * What may come next on an order: first its acceptance or its rejection; then fills that raise the cumulative
   * quantity, account for every lot and keep the average exact, the last of them exactly when nothing is left;
   * or one cancellation, which leaves nothing open; and nothing after the order is final.
   */
  predicate MayFollow(before: Option<ExecReport>, r: ExecReport) {
    match before
    case None => r.cum == 0 && ((r.status == New && r.leaves == r.quantity > 0) || (r.status == Rejected && r.leaves == 0))
    case Some(p) =>
      && !p.IsTerminal() && r.quantity == p.quantity
      && if r.IsFill() then
           && r.cum == p.cum + r.lastQuantity && r.lastQuantity > 0 && r.cum + r.leaves == r.quantity
           && (r.status == Filled <==> r.leaves == 0)
           && Money(r.avg, r.cum) == Money(r.lastPrice as real, r.lastQuantity) + Money(p.avg, p.cum)
         else r.status == Canceled && r.cum == p.cum && r.leaves == 0 && r.avg == p.avg
  }

  predicate WellFormed(rs: seq<ExecReport>) {
    rs == [] || (WellFormed(rs[..|rs| - 1]) && MayFollow(Last(rs[..|rs| - 1], rs[|rs| - 1].id), rs[|rs| - 1]))
  }

  lemma LastAppend(rs: seq<ExecReport>, r: ExecReport, id: ClientId)
    ensures Last(rs + [r], id) == if r.id == id then Some(r) else Last(rs, id)
  {
    assert (rs + [r])[..|rs|] == rs;
  }

  lemma WellFormedAppend(rs: seq<ExecReport>, r: ExecReport)
    requires WellFormed(rs) && MayFollow(Last(rs, r.id), r)
    ensures WellFormed(rs + [r])
  {
    assert (rs + [r])[..|rs|] == rs;
  }

  lemma {:induction false} LastIs(rs: seq<ExecReport>, i: nat) returns (j: nat)
    requires i < |rs|
    ensures i <= j < |rs| && Last(rs, rs[i].id) == Some(rs[j]) && rs[j].id == rs[i].id
  {
    var n := |rs| - 1;
    if rs[n].id == rs[i].id {
      j := n;
    } else {
      j := LastIs(rs[..n], i);
    }
  }

  /** Before any later report on the same order, a report is not final and has no larger cumulative quantity. */
  lemma {:induction false} StreamGrows(rs: seq<ExecReport>, i: nat, j: nat)
    requires WellFormed(rs) && i < j < |rs| && rs[i].id == rs[j].id
    ensures !rs[i].IsTerminal() && rs[j].status != New && rs[j].status != Rejected && rs[i].quantity == rs[j].quantity
    ensures rs[i].cum <= rs[j].cum && (rs[j].IsFill() ==> rs[i].cum < rs[j].cum)
    decreases j
  {
    hide Money;
    PrefixWellFormed(rs, j + 1);
    var before := rs[..j];
    assert rs[..j + 1][..j] == before;
    var k := LastIs(before, i);
    if i < k {
      StreamGrows(rs, i, k);
    }
  }

  lemma {:induction false} PrefixWellFormed(rs: seq<ExecReport>, n: nat)
    requires WellFormed(rs) && n <= |rs|
    ensures WellFormed(rs[..n])
  {
    if n == |rs| {
      assert rs[..n] == rs;
    } else {
      PrefixWellFormed(rs[..|rs| - 1], n);
      assert rs[..|rs| - 1][..n] == rs[..n];
    }
  }

  /** A final report carries the largest cumulative quantity of its order, whether others come before or were to come after. */
  lemma FinalIsLargest(rs: seq<ExecReport>, i: nat, j: nat)
    requires WellFormed(rs) && i < |rs| && j < |rs| && rs[i].id == rs[j].id && rs[j].IsTerminal()
    ensures rs[i].cum <= rs[j].cum && i <= j
  {
    if i < j {
      StreamGrows(rs, i, j);
    } else if j < i {
      StreamGrows(rs, j, i);
    }
  }

  lemma {:induction false} CumWithinQuantity(rs: seq<ExecReport>, i: nat)
    requires WellFormed(rs) && i < |rs|
    ensures rs[i].cum <= rs[i].quantity
  {
    hide Money;
    PrefixWellFormed(rs, i + 1);
    assert rs[..i + 1][..i] == rs[..i];
    if Last(rs[..i], rs[i].id).Some? {
      var j := LastOf(rs[..i], rs[i].id);
      CumWithinQuantity(rs, j);
    }
  }

  lemma {:induction false} LastOf(rs: seq<ExecReport>, id: ClientId) returns (j: nat)
    requires Last(rs, id).Some?
    ensures j < |rs| && Last(rs, id) == Some(rs[j]) && rs[j].id == id
  {
    var n := |rs| - 1;
    if rs[n].id == id {
      j := n;
    } else {
      j := LastOf(rs[..n], id);
    }
  }

  /** Lots and cash of all fills reported for an order. */
  function Lots(rs: seq<ExecReport>, id: ClientId): nat {
    if rs == [] then 0
    else
      var r := rs[|rs| - 1];
      Lots(rs[..|rs| - 1], id) + if r.id == id && r.IsFill() then r.lastQuantity else 0
  }

  function Cash(rs: seq<ExecReport>, id: ClientId): real {
    if rs == [] then 0.0
    else
      var r := rs[|rs| - 1];
      Cash(rs[..|rs| - 1], id) + if r.id == id && r.IsFill() then Money(r.lastPrice as real, r.lastQuantity) else 0.0
  }

  /** The last report of an order gives its exact totals: cumulative quantity, and average times cumulative quantity. */
  lemma {:induction false} TotalsAreExact(rs: seq<ExecReport>, id: ClientId)
    requires WellFormed(rs)
    ensures match Last(rs, id)
            case None => Lots(rs, id) == 0 && Cash(rs, id) == 0.0
            case Some(p) => p.cum == Lots(rs, id) && Money(p.avg, p.cum) == Cash(rs, id)
  {
    hide Money;
    if rs == [] {
    } else {
      TotalsAreExact(rs[..|rs| - 1], id);
      NothingIsZero(rs[|rs| - 1].avg);
    }
  }

  lemma NothingIsZero(avg: real)
    ensures Money(avg, 0) == 0.0
  {
  }

  // ---------- the exchange ----------

  datatype Exchange = Exchange(bids: seq<Ord>, asks: seq<Ord>, reports: seq<ExecReport>)

  const OPENING := Exchange([], [], [])

  datatype Event = Submit(id: ClientId, side: Side, price: int, quantity: nat) | CancelRequest(id: ClientId, side: Side) | Refuse(id: ClientId)

  /** Client ids are never reused and quantities are positive. */
  predicate Enabled(x: Exchange, e: Event) {
    match e
    case Submit(id, _, _, quantity) => Last(x.reports, id) == None && quantity > 0
    case CancelRequest(_, _) => true
    case Refuse(id) => Last(x.reports, id) == None
  }

  /** Market::find and Market::erase: the first order with the id. */
  function Find(os: seq<Ord>, id: ClientId): (i: nat)
    ensures i <= |os| && (i < |os| ==> os[i].id == id) && forall j :: 0 <= j < i ==> os[j].id != id
  {
    if os == [] || os[0].id == id then 0 else 1 + Find(os[1..], id)
  }

  function Without(os: seq<Ord>, i: nat): seq<Ord>
    requires i < |os|
  {
    os[..i] + os[i + 1..]
  }

  function Cancelled(o: Ord): Ord {
    o.(open := 0)
  }

  function Refusal(id: ClientId): ExecReport {
    ExecReport(id, Rejected, 0, 0, 0, 0.0, 0, 0)
  }

  function Step(x: Exchange, e: Event): Exchange
    requires AllOpen(x.bids) && AllOpen(x.asks) && Enabled(x, e)
  {
    match e
    case Submit(id, side, price, quantity) =>
      var o := Fresh(id, side, price, quantity);
      var m := Submitted(x.bids, x.asks, o);
      Exchange(m.bids, m.asks, x.reports + [ReportOn(o, New)] + FillReports(m.trades))
    case CancelRequest(id, side) =>
      var os := if side == Buy then x.bids else x.asks;
      var i := Find(os, id);
      if i == |os| then x
      else
        var reports := x.reports + [ReportOn(Cancelled(os[i]), Canceled)];
        if side == Buy then Exchange(Without(os, i), x.asks, reports) else Exchange(x.bids, Without(os, i), reports)
    case Refuse(id) => x.(reports := x.reports + [Refusal(id)])
  }

  /** The last report on an order says what rests of it. */
  predicate Backed(rs: seq<ExecReport>, o: Ord) {
    && Last(rs, o.id).Some? && o.open + o.executed == o.quantity
    && var p := Last(rs, o.id).value;
       !p.IsTerminal() && p.cum == o.executed && p.leaves == o.open && p.quantity == o.quantity && p.avg == o.avg
  }

  ghost predicate AllBacked(rs: seq<ExecReport>, os: seq<Ord>) {
    && (forall i :: 0 <= i < |os| ==> Backed(rs, os[i]))
    && (forall i, j :: 0 <= i < j < |os| ==> os[i].id != os[j].id)
  }

  ghost predicate Disjoint(bids: seq<Ord>, asks: seq<Ord>) {
    forall i, j :: 0 <= i < |bids| && 0 <= j < |asks| ==> bids[i].id != asks[j].id
  }

  predicate HasOrd(os: seq<Ord>, id: ClientId) {
    exists i :: 0 <= i < |os| && os[i].id == id
  }

  /** The order has been accepted and nothing final has been reported on it. */
  predicate Live(rs: seq<ExecReport>, id: ClientId) {
    Last(rs, id).Some? && !Last(rs, id).value.IsTerminal()
  }

  /** Every live order rests in a book. */
  ghost predicate AllRest(rs: seq<ExecReport>, bids: seq<Ord>, asks: seq<Ord>) {
    forall id :: Live(rs, id) ==> HasOrd(bids, id) || HasOrd(asks, id)
  }

  ghost predicate Inv(x: Exchange) {
    && AllOpen(x.bids) && AllOpen(x.asks) && Sorted(Buy, x.bids) && Sorted(Sell, x.asks) && Uncrossed(x.bids, x.asks)
    && WellFormed(x.reports) && AllBacked(x.reports, x.bids) && AllBacked(x.reports, x.asks) && Disjoint(x.bids, x.asks)
    && AllRest(x.reports, x.bids, x.asks)
  }

  /** An order rests in the market if and only if its reports so far do not end it. */
  lemma RestsIffLive(x: Exchange, id: ClientId)
    requires Inv(x)
    ensures HasOrd(x.bids, id) || HasOrd(x.asks, id) <==> Live(x.reports, id)
  {
    hide Last;
    forall i | 0 <= i < |x.bids|
      ensures Live(x.reports, x.bids[i].id)
    {
      assert Backed(x.reports, x.bids[i]);
    }
    forall i | 0 <= i < |x.asks|
      ensures Live(x.reports, x.asks[i].id)
    {
      assert Backed(x.reports, x.asks[i]);
    }
  }

  // ---------- one fill ----------

  lemma FillMayFollow(rs: seq<ExecReport>, o: Ord, price: int, q: nat)
    requires Backed(rs, o) && 0 < q <= o.open
    ensures MayFollow(Last(rs, o.id), FillReport(Execute(o, price, q)))
  {
    hide Money, Average, Last;
    AverageIsExact(q, price, o.avg, o.executed);
  }

  /** A report on the first order of a book keeps the rest of the book backed, and what is left of that order too. */
  lemma FillBacks(rs: seq<ExecReport>, os: seq<Ord>, price: int, q: nat)
    requires os != [] && AllBacked(rs, os) && 0 < q <= os[0].open
    ensures var o := Execute(os[0], price, q); AllBacked(rs + [FillReport(o)], Rest(o, os))
  {
    hide Average, Last;
    var o := Execute(os[0], price, q);
    var rs' := rs + [FillReport(o)];
    LastAppend(rs, FillReport(o), o.id);
    forall i | 1 <= i < |os|
      ensures Backed(rs', os[i])
    {
      LastAppend(rs, FillReport(o), os[i].id);
    }
    var r := Rest(o, os);
    forall i | 0 <= i < |r|
      ensures Backed(rs', r[i])
    {
      assert r[i] == if o.open == 0 then os[i + 1] else if i == 0 then o else os[i];
    }
  }

  lemma OtherBacks(rs: seq<ExecReport>, os: seq<Ord>, r: ExecReport)
    requires AllBacked(rs, os) && forall i :: 0 <= i < |os| ==> os[i].id != r.id
    ensures AllBacked(rs + [r], os)
  {
    hide Last;
    forall i | 0 <= i < |os|
      ensures Backed(rs + [r], os[i])
    {
      LastAppend(rs, r, os[i].id);
    }
  }

  lemma DisjointRest(bids: seq<Ord>, asks: seq<Ord>, bid: Ord, ask: Ord)
    requires Disjoint(bids, asks) && bids != [] && asks != [] && bid.id == bids[0].id && ask.id == asks[0].id
    ensures Disjoint(Rest(bid, bids), Rest(ask, asks))
  {
    var bs, ss := Rest(bid, bids), Rest(ask, asks);
    forall i | 0 <= i < |bs|
      ensures bs[i].id == bids[if bid.IsClosed() then i + 1 else i].id
    {
    }
    forall j | 0 <= j < |ss|
      ensures ss[j].id == asks[if ask.IsClosed() then j + 1 else j].id
    {
    }
  }

  lemma RestHas(os: seq<Ord>, o: Ord, id: ClientId)
    requires os != [] && HasOrd(os, id) && o.id == os[0].id && (id == o.id ==> o.open > 0)
    ensures HasOrd(Rest(o, os), id)
  {
    var i :| 0 <= i < |os| && os[i].id == id;
    var r := Rest(o, os);
    if o.open > 0 {
      assert r[i].id == id;
    } else {
      assert r[i - 1].id == id;
    }
  }

  /** After a trade an order is live exactly if it has not been reported filled, and then it still rests. */
  lemma TradeRests(rs: seq<ExecReport>, bids: seq<Ord>, asks: seq<Ord>)
    requires bids != [] && asks != [] && AllOpen(bids) && AllOpen(asks)
    requires AllBacked(rs, bids) && AllBacked(rs, asks) && Disjoint(bids, asks) && AllRest(rs, bids, asks)
    ensures var t := Traded(bids[0], asks[0]);
            AllRest(rs + [FillReport(t.bid)] + [FillReport(t.ask)], Rest(t.bid, bids), Rest(t.ask, asks))
  {
    hide Average, Last, Rest, HasOrd;
    var t := Traded(bids[0], asks[0]);
    var r1, r2 := FillReport(t.bid), FillReport(t.ask);
    assert Backed(rs, bids[0]) && Backed(rs, asks[0]);
    assert bids[0].id != asks[0].id;
    forall id | Live(rs + [r1] + [r2], id)
      ensures HasOrd(Rest(t.bid, bids), id) || HasOrd(Rest(t.ask, asks), id)
    {
      LastAppend(rs + [r1], r2, id);
      LastAppend(rs, r1, id);
      FirstHas(bids);
      FirstHas(asks);
      assert id != bids[0].id && id != asks[0].id ==> Live(rs, id);
      if id != asks[0].id && HasOrd(bids, id) {
        RestHas(bids, t.bid, id);
      } else {
        RestHas(asks, t.ask, id);
      }
    }
  }

  lemma FirstHas(os: seq<Ord>)
    requires os != []
    ensures HasOrd(os, os[0].id)
  {
  }

  /** One trade and its two reports. */
  lemma TradeReports(rs: seq<ExecReport>, bids: seq<Ord>, asks: seq<Ord>)
    requires bids != [] && asks != [] && AllOpen(bids) && AllOpen(asks)
    requires WellFormed(rs) && AllBacked(rs, bids) && AllBacked(rs, asks) && Disjoint(bids, asks)
    ensures var t := Traded(bids[0], asks[0]);
            var rs' := rs + [FillReport(t.bid)] + [FillReport(t.ask)];
            && WellFormed(rs') && AllBacked(rs', Rest(t.bid, bids)) && AllBacked(rs', Rest(t.ask, asks))
            && Disjoint(Rest(t.bid, bids), Rest(t.ask, asks))
  {
    hide Average, WellFormed, Last, MayFollow;
    var t := Traded(bids[0], asks[0]);
    var q := t.bid.lastQuantity;
    var price := asks[0].price;
    var r1, r2 := FillReport(t.bid), FillReport(t.ask);
    FillMayFollow(rs, bids[0], price, q);
    WellFormedAppend(rs, r1);
    FillBacks(rs, bids, price, q);
    OtherBacks(rs, asks, r1);
    var rs1 := rs + [r1];
    FillMayFollow(rs1, asks[0], price, q);
    WellFormedAppend(rs1, r2);
    FillBacks(rs1, asks, price, q);
    DisjointRest(bids, asks, t.bid, t.ask);
    OtherBacks(rs1, Rest(t.bid, bids), r2);
  }

  /** All trades of the matching loop. */
  lemma {:induction false} MatchReportsWell(rs: seq<ExecReport>, bids: seq<Ord>, asks: seq<Ord>)
    requires AllOpen(bids) && AllOpen(asks)
    requires WellFormed(rs) && AllBacked(rs, bids) && AllBacked(rs, asks) && Disjoint(bids, asks) && AllRest(rs, bids, asks)
    ensures var m := Match(bids, asks);
            var rs' := rs + FillReports(m.trades);
            && WellFormed(rs') && AllBacked(rs', m.bids) && AllBacked(rs', m.asks) && Disjoint(m.bids, m.asks)
            && AllRest(rs', m.bids, m.asks)
    decreases |bids| + |asks|
  {
    hide WellFormed, AllBacked, Disjoint, AllRest, Traded, Rest, FillReport;
    if Crossing(bids, asks) {
      var t := Traded(bids[0], asks[0]);
      TradeCloses(bids, asks);
      TradeReports(rs, bids, asks);
      TradeRests(rs, bids, asks);
      var rs' := rs + [FillReport(t.bid)] + [FillReport(t.ask)];
      MatchReportsWell(rs', Rest(t.bid, bids), Rest(t.ask, asks));
      var m := Match(Rest(t.bid, bids), Rest(t.ask, asks));
      assert ([t] + m.trades)[1..] == m.trades;
      assert rs + ([FillReport(t.bid), FillReport(t.ask)] + FillReports(m.trades)) == rs' + FillReports(m.trades);
    } else {
      assert rs + [] == rs;
    }
  }

  // ---------- steps and runs ----------

  lemma InsertedBacked(rs: seq<ExecReport>, side: Side, os: seq<Ord>, o: Ord)
    requires AllBacked(rs, os) && Backed(rs, o) && forall i :: 0 <= i < |os| ==> os[i].id != o.id
    ensures AllBacked(rs, Inserted(side, os, o))
  {
    hide Backed;
    var k, r := Slot(side, os, o.price), Inserted(side, os, o);
    forall i | 0 <= i < |r|
      ensures r[i] == if i < k then os[i] else if i == k then o else os[i - 1]
    {
    }
  }

  lemma InsertedDisjoint(side: Side, os: seq<Ord>, o: Ord, other: seq<Ord>)
    requires Disjoint(os, other) && forall j :: 0 <= j < |other| ==> other[j].id != o.id
    ensures Disjoint(Inserted(side, os, o), other)
  {
    var k, r := Slot(side, os, o.price), Inserted(side, os, o);
    forall i | 0 <= i < |r|
      ensures r[i] == if i < k then os[i] else if i == k then o else os[i - 1]
    {
    }
  }

  lemma DisjointSwap(a: seq<Ord>, b: seq<Ord>)
    requires Disjoint(a, b)
    ensures Disjoint(b, a)
  {
  }

  lemma UnknownAbsent(rs: seq<ExecReport>, os: seq<Ord>, id: ClientId)
    requires AllBacked(rs, os) && Last(rs, id) == None
    ensures forall i :: 0 <= i < |os| ==> os[i].id != id
  {
    forall i | 0 <= i < |os|
      ensures os[i].id != id
    {
      assert Backed(rs, os[i]);
    }
  }

  lemma SubmitKeeps(x: Exchange, id: ClientId, side: Side, price: int, quantity: nat)
    requires Inv(x) && Enabled(x, Submit(id, side, price, quantity))
    ensures Inv(Step(x, Submit(id, side, price, quantity)))
  {
    hide AllBacked, Disjoint, AllRest, Sorted, Uncrossed, WellFormed, Match, Inserted, FillReports, MayFollow, Backed, Last;
    var o := Fresh(id, side, price, quantity);
    var r := ReportOn(o, New);
    var rs := x.reports + [r];
    NewMayFollow(x.reports, o);
    WellFormedAppend(x.reports, r);
    UnknownAbsent(x.reports, x.bids, id);
    UnknownAbsent(x.reports, x.asks, id);
    OtherBacks(x.reports, x.bids, r);
    OtherBacks(x.reports, x.asks, r);
    SubmittedKeeps(x.bids, x.asks, o);
    if side == Buy {
      InsertedBacked(rs, Buy, x.bids, o);
      InsertedDisjoint(Buy, x.bids, o, x.asks);
      InsertedOpen(Buy, x.bids, o);
      InsertedRests(x.reports, Buy, x.bids, o, x.asks);
      MatchReportsWell(rs, Inserted(Buy, x.bids, o), x.asks);
    } else {
      InsertedBacked(rs, Sell, x.asks, o);
      DisjointSwap(x.bids, x.asks);
      InsertedDisjoint(Sell, x.asks, o, x.bids);
      DisjointSwap(Inserted(Sell, x.asks, o), x.bids);
      InsertedOpen(Sell, x.asks, o);
      RestSwap(x.reports, x.bids, x.asks);
      InsertedRests(x.reports, Sell, x.asks, o, x.bids);
      RestSwap(rs, Inserted(Sell, x.asks, o), x.bids);
      MatchReportsWell(rs, x.bids, Inserted(Sell, x.asks, o));
    }
  }

  lemma InsertedRests(rs: seq<ExecReport>, side: Side, os: seq<Ord>, o: Ord, other: seq<Ord>)
    requires AllRest(rs, os, other)
    ensures AllRest(rs + [ReportOn(o, New)], Inserted(side, os, o), other)
  {
    hide Last;
    var k, r := Slot(side, os, o.price), Inserted(side, os, o);
    assert r[k] == o;
    forall i | 0 <= i < |os|
      ensures HasOrd(r, os[i].id)
    {
      assert r[if i < k then i else i + 1] == os[i];
    }
    forall id | Live(rs + [ReportOn(o, New)], id)
      ensures HasOrd(r, id) || HasOrd(other, id)
    {
      LastAppend(rs, ReportOn(o, New), id);
      assert id != o.id ==> Live(rs, id);
    }
  }

  lemma RestSwap(rs: seq<ExecReport>, a: seq<Ord>, b: seq<Ord>)
    requires AllRest(rs, a, b)
    ensures AllRest(rs, b, a)
  {
  }

  /** A final report on an order of the book, and the book without it. */
  lemma WithoutRests(rs: seq<ExecReport>, os: seq<Ord>, i: nat, other: seq<Ord>, r: ExecReport)
    requires AllRest(rs, os, other) && i < |os| && r.id == os[i].id && r.IsTerminal()
    ensures AllRest(rs + [r], Without(os, i), other)
  {
    hide Last;
    var w := Without(os, i);
    forall id | Live(rs + [r], id)
      ensures HasOrd(w, id) || HasOrd(other, id)
    {
      LastAppend(rs, r, id);
      assert id != r.id && Live(rs, id);
      if HasOrd(os, id) {
        var j :| 0 <= j < |os| && os[j].id == id;
        assert w[if j < i then j else j - 1] == os[j];
      }
    }
  }

  lemma TerminalRests(rs: seq<ExecReport>, bids: seq<Ord>, asks: seq<Ord>, r: ExecReport)
    requires AllRest(rs, bids, asks) && r.IsTerminal()
    ensures AllRest(rs + [r], bids, asks)
  {
    hide Last;
    forall id | Live(rs + [r], id)
      ensures Live(rs, id)
    {
      LastAppend(rs, r, id);
    }
  }

  lemma InsertedOpen(side: Side, os: seq<Ord>, o: Ord)
    requires AllOpen(os) && o.open > 0
    ensures AllOpen(Inserted(side, os, o))
  {
  }

  lemma NewMayFollow(rs: seq<ExecReport>, o: Ord)
    requires Last(rs, o.id) == None && o == Fresh(o.id, o.side, o.price, o.quantity) && o.quantity > 0
    ensures MayFollow(Last(rs, o.id), ReportOn(o, New)) && Backed(rs + [ReportOn(o, New)], o)
  {
    LastAppend(rs, ReportOn(o, New), o.id);
  }

  lemma WithoutBacked(rs: seq<ExecReport>, os: seq<Ord>, i: nat, r: ExecReport)
    requires AllBacked(rs, os) && i < |os| && r.id == os[i].id
    ensures AllBacked(rs + [r], Without(os, i))
  {
    hide Backed;
    var w := Without(os, i);
    forall j | 0 <= j < |w|
      ensures w[j] == os[if j < i then j else j + 1]
    {
    }
    OtherBacks(rs, w, r);
  }

  lemma WithoutKeeps(side: Side, os: seq<Ord>, i: nat, other: seq<Ord>)
    requires i < |os| && AllOpen(os) && Sorted(side, os) && Disjoint(os, other)
    ensures AllOpen(Without(os, i)) && Sorted(side, Without(os, i)) && Disjoint(Without(os, i), other)
    ensures Uncrossed(os, other) ==> Uncrossed(Without(os, i), other)
    ensures Uncrossed(other, os) ==> Uncrossed(other, Without(os, i))
  {
    var w := Without(os, i);
    forall j | 0 <= j < |w|
      ensures w[j] == os[if j < i then j else j + 1]
    {
    }
  }

  lemma CancelKeeps(x: Exchange, id: ClientId, side: Side)
    requires Inv(x)
    ensures Inv(Step(x, CancelRequest(id, side)))
  {
    hide AllBacked, Disjoint, AllRest, Sorted, Uncrossed, WellFormed, MayFollow, Without;
    var os, other := if side == Buy then x.bids else x.asks, if side == Buy then x.asks else x.bids;
    var i := Find(os, id);
    if i < |os| {
      var r := ReportOn(Cancelled(os[i]), Canceled);
      CancelMayFollow(x.reports, os, i);
      WellFormedAppend(x.reports, r);
      WithoutBacked(x.reports, os, i, r);
      if side == Sell {
        DisjointSwap(x.bids, x.asks);
      }
      ElsewhereUnknown(os, i, other);
      OtherBacks(x.reports, other, r);
      WithoutKeeps(side, os, i, other);
      if side == Sell {
        RestSwap(x.reports, x.bids, x.asks);
      }
      WithoutRests(x.reports, os, i, other, r);
      if side == Sell {
        DisjointSwap(Without(os, i), other);
        RestSwap(x.reports + [r], Without(os, i), other);
      }
    }
  }

  lemma ElsewhereUnknown(os: seq<Ord>, i: nat, other: seq<Ord>)
    requires Disjoint(os, other) && i < |os|
    ensures forall j :: 0 <= j < |other| ==> other[j].id != os[i].id
  {
  }

  lemma CancelMayFollow(rs: seq<ExecReport>, os: seq<Ord>, i: nat)
    requires AllBacked(rs, os) && i < |os|
    ensures MayFollow(Last(rs, os[i].id), ReportOn(Cancelled(os[i]), Canceled))
  {
    assert Backed(rs, os[i]);
  }

  lemma StepKeeps(x: Exchange, e: Event)
    requires Inv(x) && Enabled(x, e)
    ensures Inv(Step(x, e))
  {
    hide AllBacked, Disjoint, AllRest, Sorted, Uncrossed, WellFormed, Submitted, FillReports;
    match e
    case Submit(id, side, price, quantity) => SubmitKeeps(x, id, side, price, quantity);
    case CancelRequest(id, side) => CancelKeeps(x, id, side);
    case Refuse(id) =>
      UnknownAbsent(x.reports, x.bids, id);
      UnknownAbsent(x.reports, x.asks, id);
      OtherBacks(x.reports, x.bids, Refusal(id));
      OtherBacks(x.reports, x.asks, Refusal(id));
      WellFormedAppend(x.reports, Refusal(id));
      TerminalRests(x.reports, x.bids, x.asks, Refusal(id));
  }

  /** The exchange after a run of events, as long as each is enabled. */
  ghost predicate Reaches(events: seq<Event>, x: Exchange) {
    if events == [] then x == OPENING
    else
      exists before: Exchange ::
        && Reaches(events[..|events| - 1], before) && AllOpen(before.bids) && AllOpen(before.asks)
        && Enabled(before, events[|events| - 1]) && x == Step(before, events[|events| - 1])
  }

  /** In every run of new orders, cancel requests and refusals the books stay uncrossed and the report stream well-formed. */
  lemma {:induction false} RunIsWellFormed(events: seq<Event>, x: Exchange)
    requires Reaches(events, x)
    ensures Inv(x)
  {
    hide Inv;
    if events == [] {
      OpeningIsFine();
    } else {
      var e := events[|events| - 1];
      var before: Exchange :| Reaches(events[..|events| - 1], before) && AllOpen(before.bids) && AllOpen(before.asks)
                              && Enabled(before, e) && x == Step(before, e);
      RunIsWellFormed(events[..|events| - 1], before);
      StepKeeps(before, e);
    }
  }

  lemma OpeningIsFine()
    ensures Inv(OPENING)
  {
  }
}
