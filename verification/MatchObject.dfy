/** ordermatch as the program runs it: a market with two books updated in place, and the application that reports on it. */
module MatchObject {
  import opened MatchEngine
  import opened MatchReports

  lemma SlotIs(side: Side, os: seq<Ord>, price: int, k: nat)
    requires k <= |os| && (forall i :: 0 <= i < k ==> !Ahead(side, price, os[i].price)) && (k < |os| ==> Ahead(side, price, os[k].price))
    ensures k == Slot(side, os, price)
  {
    var s := Slot(side, os, price);
    assert s >= k;
  }

  lemma FindIs(os: seq<Ord>, id: ClientId, k: nat)
    requires k <= |os| && (forall i :: 0 <= i < k ==> os[i].id != id) && (k < |os| ==> os[k].id == id)
    ensures k == Find(os, id)
  {
  }

  /** A book without the first order that has the id. */
  function Erased(os: seq<Ord>, id: ClientId): seq<Ord> {
    var k := Find(os, id);
    if k < |os| then Without(os, k) else os
  }

  function Updates(ts: seq<Trade>): seq<Ord> {
    if ts == [] then [] else [ts[0].bid, ts[0].ask] + Updates(ts[1..])
  }

  function ReportsOf(os: seq<Ord>): (r: seq<ExecReport>)
    ensures |r| == |os| && forall i :: 0 <= i < |os| ==> r[i] == FillReport(os[i])
  {
    if os == [] then [] else [FillReport(os[0])] + ReportsOf(os[1..])
  }

  lemma {:induction false} UpdatesReport(ts: seq<Trade>)
    ensures ReportsOf(Updates(ts)) == FillReports(ts)
  {
    if ts == [] {
    } else {
      UpdatesReport(ts[1..]);
      assert Updates(ts) == [ts[0].bid, ts[0].ask] + Updates(ts[1..]);
      assert ReportsOf(Updates(ts)) == [FillReport(ts[0].bid), FillReport(ts[0].ask)] + ReportsOf(Updates(ts[1..]));
    }
  }

  lemma MatchStep(bids: seq<Ord>, asks: seq<Ord>)
    requires AllOpen(bids) && AllOpen(asks) && Crossing(bids, asks)
    ensures var t := Traded(bids[0], asks[0]);
            && AllOpen(Rest(t.bid, bids)) && AllOpen(Rest(t.ask, asks))
            && Match(bids, asks) == Match(Rest(t.bid, bids), Rest(t.ask, asks)).(trades := [t] + Match(Rest(t.bid, bids), Rest(t.ask, asks)).trades)
  {
    TradeCloses(bids, asks);
  }

  lemma UpdatesFirst(done: seq<Ord>, t: Trade, ts: seq<Trade>)
    ensures done + Updates([t] + ts) == done + [t.bid] + [t.ask] + Updates(ts)
  {
    assert ([t] + ts)[1..] == ts;
    assert [t.bid, t.ask] == [t.bid] + [t.ask];
  }

  class Market {
    var bids: seq<Ord>
    var asks: seq<Ord>

    constructor ()
      ensures bids == [] && asks == []
    {
      bids, asks := [], [];
    }

    method Insert(o: Ord)
      modifies this
      ensures o.side == Buy ==> bids == Inserted(Buy, old(bids), o) && asks == old(asks)
      ensures o.side == Sell ==> asks == Inserted(Sell, old(asks), o) && bids == old(bids)
    {
      if o.side == Buy {
        var k := 0;
        while k < |bids| && !Ahead(Buy, o.price, bids[k].price)
          invariant 0 <= k <= |bids| && bids == old(bids) && asks == old(asks)
          invariant forall i :: 0 <= i < k ==> !Ahead(Buy, o.price, bids[i].price)
        {
          k := k + 1;
        }
        SlotIs(Buy, bids, o.price, k);
        bids := bids[..k] + [o] + bids[k..];
      } else {
        var k := 0;
        while k < |asks| && !Ahead(Sell, o.price, asks[k].price)
          invariant 0 <= k <= |asks| && bids == old(bids) && asks == old(asks)
          invariant forall i :: 0 <= i < k ==> !Ahead(Sell, o.price, asks[i].price)
        {
          k := k + 1;
        }
        SlotIs(Sell, asks, o.price, k);
        asks := asks[..k] + [o] + asks[k..];
      }
    }

    /** The position of the first order with the id; the length of the book if there is none. */
    method Locate(side: Side, id: ClientId) returns (k: nat)
      ensures k == Find(if side == Buy then bids else asks, id)
    {
      var os := if side == Buy then bids else asks;
      k := 0;
      while k < |os| && os[k].id != id
        invariant 0 <= k <= |os| && forall i :: 0 <= i < k ==> os[i].id != id
      {
        k := k + 1;
      }
      FindIs(os, id, k);
    }

    method Erase(side: Side, id: ClientId)
      modifies this
      ensures side == Buy ==> asks == old(asks) && bids == Erased(old(bids), id)
      ensures side == Sell ==> bids == old(bids) && asks == Erased(old(asks), id)
    {
      var k := Locate(side, id);
      if side == Buy {
        if k < |bids| {
          bids := bids[..k] + bids[k + 1..];
        }
      } else {
        if k < |asks| {
          asks := asks[..k] + asks[k + 1..];
        }
      }
    }

    /** The matching loop: it ends because each trade closes at least one order. */
    method MatchOrders() returns (updates: seq<Ord>)
      requires AllOpen(bids) && AllOpen(asks)
      modifies this
      ensures var m := Match(old(bids), old(asks)); bids == m.bids && asks == m.asks && updates == Updates(m.trades)
    {
      hide Average, Match, AllOpen, Traded, Rest;
      updates := [];
      ghost var ts: seq<Trade> := [];
      while Crossing(bids, asks)
        invariant AllOpen(bids) && AllOpen(asks)
        invariant Match(old(bids), old(asks)).bids == Match(bids, asks).bids && Match(old(bids), old(asks)).asks == Match(bids, asks).asks
        invariant Updates(Match(old(bids), old(asks)).trades) == updates + Updates(Match(bids, asks).trades)
        decreases |bids| + |asks|
      {
        OpenFirst(bids);
        OpenFirst(asks);
        MatchStep(bids, asks);
        TradeCloses(bids, asks);
        var bid, ask := bids[0], asks[0];
        var price := ask.price;
        var quantity := if bid.open > ask.open then ask.open else bid.open;
        bid, ask := Execute(bid, price, quantity), Execute(ask, price, quantity);
        TradedIs(bids[0], asks[0]);
        ghost var t := Traded(bids[0], asks[0]);
        UpdatesFirst(updates, t, Match(Rest(t.bid, bids), Rest(t.ask, asks)).trades);
        RestIs(bid, bids);
        RestIs(ask, asks);
        updates := updates + [bid] + [ask];
        bids := if bid.IsClosed() then bids[1..] else [bid] + bids[1..];
        asks := if ask.IsClosed() then asks[1..] else [ask] + asks[1..];
      }
      MatchEnds(bids, asks);
      assert updates + [] == updates;
    }
  }

  lemma OpenFirst(os: seq<Ord>)
    requires AllOpen(os) && os != []
    ensures os[0].open > 0
  {
  }

  lemma TradedIs(bid: Ord, ask: Ord)
    requires bid.open > 0 && ask.open > 0
    ensures var q := if bid.open > ask.open then ask.open else bid.open;
            Traded(bid, ask) == Trade(Execute(bid, ask.price, q), Execute(ask, ask.price, q))
  {
  }

  lemma RestIs(o: Ord, os: seq<Ord>)
    requires os != []
    ensures Rest(o, os) == if o.IsClosed() then os[1..] else [o] + os[1..]
  {
  }

  lemma MatchEnds(bids: seq<Ord>, asks: seq<Ord>)
    requires AllOpen(bids) && AllOpen(asks) && !Crossing(bids, asks)
    ensures Match(bids, asks) == Matched(bids, asks, [])
  {
  }

  class Application {
    const market: Market
    var reports: seq<ExecReport>

    function View(): Exchange
      reads this, market
    {
      Exchange(market.bids, market.asks, reports)
    }

    constructor ()
      ensures View() == OPENING && fresh(market)
    {
      market := new Market();
      reports := [];
    }

    method ReportFills(orders: seq<Ord>)
      modifies this`reports
      ensures reports == old(reports) + ReportsOf(orders)
    {
      var k := 0;
      assert ReportsOf(orders)[..0] == [] && reports + [] == reports;
      while k < |orders|
        invariant 0 <= k <= |orders|
        invariant reports == old(reports) + ReportsOf(orders)[..k]
      {
        assert ReportsOf(orders)[..k + 1] == ReportsOf(orders)[..k] + [FillReport(orders[k])];
        reports := reports + [FillReport(orders[k])];
        k := k + 1;
      }
      assert ReportsOf(orders)[..k] == ReportsOf(orders);
    }

    /** A new order: accepted, matched, and every trade reported to both owners. */
    method ProcessOrder(id: ClientId, side: Side, price: int, quantity: nat)
      requires Inv(View()) && Enabled(View(), Submit(id, side, price, quantity))
      modifies this, market
      ensures View() == Step(old(View()), Submit(id, side, price, quantity)) && Inv(View())
    {
      hide Sorted, Uncrossed, WellFormed, AllBacked, Disjoint, AllRest, Match, FillReports, Inserted, Updates;
      SubmitKeeps(View(), id, side, price, quantity);
      var o := Fresh(id, side, price, quantity);
      InsertedOpen(side, if side == Buy then market.bids else market.asks, o);
      market.Insert(o);
      reports := reports + [ReportOn(o, New)];
      ghost var m := Match(market.bids, market.asks);
      var orders := market.MatchOrders();
      UpdatesReport(m.trades);
      ReportFills(orders);
      assert old(View()).reports + [ReportOn(o, New)] + FillReports(m.trades) == reports;
    }

    /** A cancel request; an unknown id is ignored. */
    method ProcessCancel(id: ClientId, side: Side)
      requires Inv(View())
      modifies this, market
      ensures View() == Step(old(View()), CancelRequest(id, side)) && Inv(View())
    {
      hide Sorted, Uncrossed, WellFormed, AllBacked, Disjoint, AllRest;
      CancelKeeps(View(), id, side);
      var k := market.Locate(side, id);
      var os := if side == Buy then market.bids else market.asks;
      if k == |os| {
        return;
      }
      reports := reports + [ReportOn(Cancelled(os[k]), Canceled)];
      market.Erase(side, id);
    }
  }
}
