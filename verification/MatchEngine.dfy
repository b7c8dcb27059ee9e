/** The matching loop of QuickFIX/examples/ordermatch on the two price-ordered books of one symbol. */
module MatchEngine {

  type ClientId = string
  datatype Side = Buy | Sell

  datatype Ord = Ord(id: ClientId, side: Side, price: int, quantity: nat, open: nat, executed: nat, avg: real,
                     lastPrice: int, lastQuantity: nat) {
    predicate IsFilled() {
      quantity == executed
    }

    predicate IsClosed() {
      open == 0
    }
  }

  function Fresh(id: ClientId, side: Side, price: int, quantity: nat): Ord {
    Ord(id, side, price, quantity, quantity, 0, 0.0, 0, 0)
  }

  /** The average price after q more lots at a price. */
  function Average(q: nat, price: int, avg: real, executed: nat): real
    requires q + executed > 0
  {
    (q as real * price as real + avg * executed as real) / (q + executed) as real
  }

  function Money(price: real, quantity: nat): real {
    price * quantity as real
  }

  /** The average is exact: it spreads the cash over all executed lots. */
  lemma AverageIsExact(q: nat, price: int, avg: real, executed: nat)
    requires q + executed > 0
    ensures Money(Average(q, price, avg, executed), q + executed) == Money(price as real, q) + Money(avg, executed)
  {
    var cash, n := q as real * price as real + avg * executed as real, (q + executed) as real;
    assert cash / n * n == cash;
  }

  function Execute(o: Ord, price: int, q: nat): Ord
    requires 0 < q <= o.open
  {
    o.(avg := Average(q, price, o.avg, o.executed), open := o.open - q, executed := o.executed + q,
       lastPrice := price, lastQuantity := q)
  }

  // ---------- the books ----------

  /** Whether price p comes before price q on a side: bids fall, asks rise. */
  predicate Ahead(side: Side, p: int, q: int) {
    if side == Buy then p > q else p < q
  }

  predicate Sorted(side: Side, os: seq<Ord>) {
    forall i, j :: 0 <= i < j < |os| ==> !Ahead(side, os[j].price, os[i].price)
  }

  predicate AllOpen(os: seq<Ord>) {
    forall i :: 0 <= i < |os| ==> os[i].open > 0
  }

  /** Where a multimap puts a new entry: behind every entry that is not worse. */
  function Slot(side: Side, os: seq<Ord>, price: int): (k: nat)
    ensures k <= |os|
    ensures forall i :: 0 <= i < k ==> !Ahead(side, price, os[i].price)
    ensures k < |os| ==> Ahead(side, price, os[k].price)
  {
    if os == [] || Ahead(side, price, os[0].price) then 0 else 1 + Slot(side, os[1..], price)
  }

  function Inserted(side: Side, os: seq<Ord>, o: Ord): seq<Ord> {
    var k := Slot(side, os, o.price);
    os[..k] + [o] + os[k..]
  }

  /** The new order is behind all orders at its price and at better ones, and ahead of all at worse ones. */
  lemma InsertedInPriority(side: Side, os: seq<Ord>, o: Ord)
    requires Sorted(side, os)
    ensures Sorted(side, Inserted(side, os, o))
    ensures forall i :: 0 <= i < |os| ==>
              (i < Slot(side, os, o.price) <==> !Ahead(side, o.price, os[i].price))
  {
    var k := Slot(side, os, o.price);
    forall i | k <= i < |os|
      ensures Ahead(side, o.price, os[i].price)
    {
      assert !Ahead(side, os[i].price, os[k].price) || i == k;
    }
  }

  predicate Crossing(bids: seq<Ord>, asks: seq<Ord>) {
    bids != [] && asks != [] && bids[0].price >= asks[0].price
  }

  /** No bid meets any ask. */
  predicate Uncrossed(bids: seq<Ord>, asks: seq<Ord>) {
    forall i, j :: 0 <= i < |bids| && 0 <= j < |asks| ==> bids[i].price < asks[j].price
  }

  lemma NotCrossingIsUncrossed(bids: seq<Ord>, asks: seq<Ord>)
    requires Sorted(Buy, bids) && Sorted(Sell, asks) && !Crossing(bids, asks)
    ensures Uncrossed(bids, asks)
  {
    forall i, j | 0 <= i < |bids| && 0 <= j < |asks|
      ensures bids[i].price < asks[j].price
    {
      assert i == 0 || !Ahead(Buy, bids[i].price, bids[0].price);
      assert j == 0 || !Ahead(Sell, asks[j].price, asks[0].price);
    }
  }

  // ---------- matching ----------

  /** Both orders as they are after a trade. */
  datatype Trade = Trade(bid: Ord, ask: Ord)

  function Traded(bid: Ord, ask: Ord): Trade
    requires bid.open > 0 && ask.open > 0
  {
    var q := if bid.open > ask.open then ask.open else bid.open;
    Trade(Execute(bid, ask.price, q), Execute(ask, ask.price, q))
  }

  /** What is left of a book whose first order is now o. */
  function Rest(o: Ord, os: seq<Ord>): seq<Ord>
    requires os != []
  {
    if o.IsClosed() then os[1..] else [o] + os[1..]
  }

  datatype Matched = Matched(bids: seq<Ord>, asks: seq<Ord>, trades: seq<Trade>)

  /** The loop: trade the two first orders while they cross. At least one of them leaves its book each time. */
  function Match(bids: seq<Ord>, asks: seq<Ord>): Matched
    requires AllOpen(bids) && AllOpen(asks)
    decreases |bids| + |asks|
  {
    if !Crossing(bids, asks) then Matched(bids, asks, [])
    else
      var t := Traded(bids[0], asks[0]);
      var m := Match(Rest(t.bid, bids), Rest(t.ask, asks));
      m.(trades := [t] + m.trades)
  }

  lemma SortedTail(side: Side, o: Ord, os: seq<Ord>)
    requires Sorted(side, os) && os != [] && o.price == os[0].price
    ensures Sorted(side, Rest(o, os))
  {
    forall i, j | 0 <= i < j < |Rest(o, os)|
      ensures !Ahead(side, Rest(o, os)[j].price, Rest(o, os)[i].price)
    {
      if o.IsClosed() {
        assert Rest(o, os)[j] == os[j + 1] && Rest(o, os)[i] == os[i + 1];
      } else {
        assert Rest(o, os)[j] == os[j];
      }
    }
  }

  /** Matching ends with both books in order, open, and uncrossed. */
  lemma {:induction false} MatchUncrosses(bids: seq<Ord>, asks: seq<Ord>)
    requires AllOpen(bids) && AllOpen(asks) && Sorted(Buy, bids) && Sorted(Sell, asks)
    ensures var m := Match(bids, asks);
            && Sorted(Buy, m.bids) && Sorted(Sell, m.asks) && AllOpen(m.bids) && AllOpen(m.asks)
            && Uncrossed(m.bids, m.asks)
    decreases |bids| + |asks|
  {
    hide Sorted, Uncrossed;
    if Crossing(bids, asks) {
      var t := Traded(bids[0], asks[0]);
      SortedTail(Buy, t.bid, bids);
      SortedTail(Sell, t.ask, asks);
      MatchUncrosses(Rest(t.bid, bids), Rest(t.ask, asks));
    } else {
      NotCrossingIsUncrossed(bids, asks);
    }
  }

  /** A trade is for the smaller open quantity, at the ask's limit, within the bid's limit, and the same on both sides. */
  predicate Fair(t: Trade) {
    && 0 < t.bid.lastQuantity == t.ask.lastQuantity
    && t.bid.lastPrice == t.ask.lastPrice == t.ask.price <= t.bid.price
    && (t.bid.open == 0 || t.ask.open == 0)
  }

  lemma {:induction false} TradesAreFair(bids: seq<Ord>, asks: seq<Ord>, i: nat)
    requires AllOpen(bids) && AllOpen(asks) && i < |Match(bids, asks).trades|
    ensures Fair(Match(bids, asks).trades[i])
    decreases |bids| + |asks|
  {
    hide Average;
    var t := Traded(bids[0], asks[0]);
    if i == 0 {
    } else {
      TradesAreFair(Rest(t.bid, bids), Rest(t.ask, asks), i - 1);
    }
  }

  // ---------- conservation ----------

  function OpenLots(os: seq<Ord>): nat {
    if os == [] then 0 else os[0].open + OpenLots(os[1..])
  }

  function TradedLots(ts: seq<Trade>): nat {
    if ts == [] then 0 else ts[0].bid.lastQuantity + TradedLots(ts[1..])
  }

  lemma OpenRest(o: Ord, os: seq<Ord>)
    requires os != []
    ensures OpenLots(Rest(o, os)) == OpenLots(os) - os[0].open + o.open
  {
    assert ([o] + os[1..])[1..] == os[1..];
  }

  /** Both books lose exactly the traded lots. */
  lemma {:induction false} MatchConserves(bids: seq<Ord>, asks: seq<Ord>)
    requires AllOpen(bids) && AllOpen(asks)
    ensures var m := Match(bids, asks);
            && OpenLots(m.bids) + TradedLots(m.trades) == OpenLots(bids)
            && OpenLots(m.asks) + TradedLots(m.trades) == OpenLots(asks)
    decreases |bids| + |asks|
  {
    hide Average, Rest;
    if Crossing(bids, asks) {
      var t := Traded(bids[0], asks[0]);
      RestIsOpen(t.bid, bids);
      RestIsOpen(t.ask, asks);
      OpenRest(t.bid, bids);
      OpenRest(t.ask, asks);
      var m := Match(Rest(t.bid, bids), Rest(t.ask, asks));
      MatchConserves(Rest(t.bid, bids), Rest(t.ask, asks));
      assert ([t] + m.trades)[1..] == m.trades;
    }
  }

  lemma RestIsOpen(o: Ord, os: seq<Ord>)
    requires AllOpen(os) && os != []
    ensures AllOpen(Rest(o, os)) && |Rest(o, os)| == if o.open == 0 then |os| - 1 else |os|
  {
  }

  // ---------- priority ----------

  /** An order that has executed something since it was o. */
  predicate Continues(o': Ord, o: Ord) {
    o'.id == o.id && o'.side == o.side && o'.price == o.price && o'.quantity == o.quantity
    && o'.open <= o.open && o'.executed + o'.open == o.executed + o.open
  }

  /** os' is os without its first k orders, the next one possibly executed in part. */
  predicate Suffix(os': seq<Ord>, os: seq<Ord>, k: nat) {
    && k <= |os| && |os'| == |os| - k
    && (forall i :: 1 <= i < |os'| ==> os'[i] == os[k + i])
    && (os' != [] ==> Continues(os'[0], os[k]))
  }

  lemma SuffixStep(os': seq<Ord>, os: seq<Ord>, o: Ord, k: nat)
    requires os != [] && Continues(o, os[0]) && Suffix(os', Rest(o, os), k)
    ensures Suffix(os', os, if o.open == 0 then k + 1 else k)
  {
  }

  lemma TradeContinues(bid: Ord, ask: Ord)
    requires bid.open > 0 && ask.open > 0
    ensures Continues(Traded(bid, ask).bid, bid) && Continues(Traded(bid, ask).ask, ask)
  {
  }

  /** The first orders are served first: matching takes whole orders off the front of each book and at most part of the next. */
  lemma {:induction false} MatchTakesFront(bids: seq<Ord>, asks: seq<Ord>) returns (k: nat, l: nat)
    requires AllOpen(bids) && AllOpen(asks)
    ensures Suffix(Match(bids, asks).bids, bids, k) && Suffix(Match(bids, asks).asks, asks, l)
    decreases |bids| + |asks|
  {
    k, l := 0, 0;
    if Crossing(bids, asks) {
      hide Average, Suffix, Rest, Traded;
      var t := Traded(bids[0], asks[0]);
      TradeCloses(bids, asks);
      TradeContinues(bids[0], asks[0]);
      k, l := MatchTakesFront(Rest(t.bid, bids), Rest(t.ask, asks));
      SuffixStep(Match(bids, asks).bids, bids, t.bid, k);
      SuffixStep(Match(bids, asks).asks, asks, t.ask, l);
      k, l := if t.bid.open == 0 then k + 1 else k, if t.ask.open == 0 then l + 1 else l;
    }
  }

  lemma TradeCloses(bids: seq<Ord>, asks: seq<Ord>)
    requires AllOpen(bids) && AllOpen(asks) && Crossing(bids, asks)
    ensures var t := Traded(bids[0], asks[0]);
            && AllOpen(Rest(t.bid, bids)) && AllOpen(Rest(t.ask, asks))
            && |Rest(t.bid, bids)| + |Rest(t.ask, asks)| < |bids| + |asks|
            && t.bid.price == bids[0].price && t.ask.price == asks[0].price
  {
  }

  /** The trades are that of the two first orders and those of the books left by it. */
  lemma MatchSteps(bids: seq<Ord>, asks: seq<Ord>, i: nat)
    requires AllOpen(bids) && AllOpen(asks) && i < |Match(bids, asks).trades|
    ensures Crossing(bids, asks)
    ensures var t := Traded(bids[0], asks[0]);
            && AllOpen(Rest(t.bid, bids)) && AllOpen(Rest(t.ask, asks))
            && |Rest(t.bid, bids)| + |Rest(t.ask, asks)| < |bids| + |asks|
            && t.bid.price == bids[0].price && t.ask.price == asks[0].price
            && (i == 0 ==> Match(bids, asks).trades[i] == t)
            && (i > 0 ==>
                  var m := Match(Rest(t.bid, bids), Rest(t.ask, asks));
                  i - 1 < |m.trades| && Match(bids, asks).trades[i] == m.trades[i - 1])
  {
    hide Average, Traded, Rest, AllOpen;
    if Crossing(bids, asks) {
      TradeCloses(bids, asks);
    }
  }

  lemma {:induction false} TradeWithinBest(bids: seq<Ord>, asks: seq<Ord>, i: nat)
    requires AllOpen(bids) && AllOpen(asks) && Sorted(Buy, bids) && Sorted(Sell, asks) && i < |Match(bids, asks).trades|
    ensures var t := Match(bids, asks).trades[i]; t.bid.price <= bids[0].price && asks[0].price <= t.ask.price
    decreases |bids| + |asks|
  {
    hide Average, Sorted, Traded, Rest, Match;
    MatchSteps(bids, asks, i);
    var t := Traded(bids[0], asks[0]);
    if i == 0 {
    } else {
      var bids', asks' := Rest(t.bid, bids), Rest(t.ask, asks);
      SortedTail(Buy, t.bid, bids);
      SortedTail(Sell, t.ask, asks);
      FirstOfRest(Buy, t.bid, bids);
      FirstOfRest(Sell, t.ask, asks);
      MatchSteps(bids', asks', i - 1);
      TradeWithinBest(bids', asks', i - 1);
    }
  }

  /** Trades go through the bids and the asks in price order. */
  lemma {:induction false} TradesInPriceOrder(bids: seq<Ord>, asks: seq<Ord>, i: nat, j: nat)
    requires AllOpen(bids) && AllOpen(asks) && Sorted(Buy, bids) && Sorted(Sell, asks)
    requires i <= j < |Match(bids, asks).trades|
    ensures var ts := Match(bids, asks).trades;
            ts[j].bid.price <= ts[i].bid.price && ts[i].ask.price <= ts[j].ask.price
    decreases |bids| + |asks|
  {
    hide Average, Sorted, Traded, Rest;
    var t := Traded(bids[0], asks[0]);
    TradeCloses(bids, asks);
    if i == 0 {
      TradeWithinBest(bids, asks, j);
    } else {
      SortedTail(Buy, t.bid, bids);
      SortedTail(Sell, t.ask, asks);
      TradesInPriceOrder(Rest(t.bid, bids), Rest(t.ask, asks), i - 1, j - 1);
    }
  }

  lemma FirstOfRest(side: Side, o: Ord, os: seq<Ord>)
    requires os != [] && Sorted(side, os) && o.price == os[0].price
    ensures Rest(o, os) != [] ==> !Ahead(side, Rest(o, os)[0].price, os[0].price)
  {
  }

  // ---------- one new order ----------

  /** Every crossing pair involves the order with the given id. */
  predicate CrossedBy(bids: seq<Ord>, asks: seq<Ord>, id: ClientId) {
    forall i, j :: 0 <= i < |bids| && 0 <= j < |asks| && bids[i].price >= asks[j].price ==> bids[i].id == id || asks[j].id == id
  }

  lemma CrossedByRest(bids: seq<Ord>, asks: seq<Ord>, bid: Ord, ask: Ord, id: ClientId)
    requires CrossedBy(bids, asks, id) && bids != [] && asks != []
    requires Continues(bid, bids[0]) && Continues(ask, asks[0])
    ensures CrossedBy(Rest(bid, bids), Rest(ask, asks), id)
  {
    var bs, ss := Rest(bid, bids), Rest(ask, asks);
    forall i, j | 0 <= i < |bs| && 0 <= j < |ss| && bs[i].price >= ss[j].price
      ensures bs[i].id == id || ss[j].id == id
    {
      var i' := if bid.IsClosed() then i + 1 else i;
      var j' := if ask.IsClosed() then j + 1 else j;
      assert bids[i'].price == bs[i].price && asks[j'].price == ss[j].price;
    }
  }

  lemma {:induction false} TradesInvolve(bids: seq<Ord>, asks: seq<Ord>, id: ClientId, i: nat)
    requires AllOpen(bids) && AllOpen(asks) && CrossedBy(bids, asks, id) && i < |Match(bids, asks).trades|
    ensures var t := Match(bids, asks).trades[i]; t.bid.id == id || t.ask.id == id
    decreases |bids| + |asks|
  {
    hide Average, CrossedBy, Traded, Rest, Match;
    MatchSteps(bids, asks, i);
    FirstInvolves(bids, asks, id);
    var t := Traded(bids[0], asks[0]);
    if i == 0 {
    } else {
      CrossedByRest(bids, asks, t.bid, t.ask, id);
      TradesInvolve(Rest(t.bid, bids), Rest(t.ask, asks), id, i - 1);
    }
  }

  lemma FirstInvolves(bids: seq<Ord>, asks: seq<Ord>, id: ClientId)
    requires CrossedBy(bids, asks, id) && Crossing(bids, asks) && AllOpen(bids) && AllOpen(asks)
    ensures var t := Traded(bids[0], asks[0]);
            && (t.bid.id == id || t.ask.id == id) && Continues(t.bid, bids[0]) && Continues(t.ask, asks[0])
  {
    hide Average;
    CrossedByFirst(bids, asks, id);
    TradeContinues(bids[0], asks[0]);
  }

  lemma CrossedByFirst(bids: seq<Ord>, asks: seq<Ord>, id: ClientId)
    requires CrossedBy(bids, asks, id) && Crossing(bids, asks)
    ensures bids[0].id == id || asks[0].id == id
  {
  }

  /** The books after inserting an order and matching. */
  function Submitted(bids: seq<Ord>, asks: seq<Ord>, o: Ord): Matched
    requires AllOpen(bids) && AllOpen(asks) && o.open > 0
  {
    if o.side == Buy then Match(Inserted(Buy, bids, o), asks) else Match(bids, Inserted(Sell, asks, o))
  }

  /** Since the books are uncrossed between orders, every trade that an order sets off involves that order. */
  lemma EveryTradeInvolvesTheNewOrder(bids: seq<Ord>, asks: seq<Ord>, o: Ord, i: nat)
    requires AllOpen(bids) && AllOpen(asks) && Uncrossed(bids, asks) && o.open > 0
    requires i < |Submitted(bids, asks, o).trades|
    ensures var t := Submitted(bids, asks, o).trades[i]; t.bid.id == o.id || t.ask.id == o.id
  {
    if o.side == Buy {
      TradesInvolve(Inserted(Buy, bids, o), asks, o.id, i);
    } else {
      TradesInvolve(bids, Inserted(Sell, asks, o), o.id, i);
    }
  }

  /** Between orders the books are always in order, open and uncrossed. */
  lemma SubmittedKeeps(bids: seq<Ord>, asks: seq<Ord>, o: Ord)
    requires AllOpen(bids) && AllOpen(asks) && Sorted(Buy, bids) && Sorted(Sell, asks) && o.open > 0
    ensures var m := Submitted(bids, asks, o);
            && Sorted(Buy, m.bids) && Sorted(Sell, m.asks) && AllOpen(m.bids) && AllOpen(m.asks) && Uncrossed(m.bids, m.asks)
  {
    if o.side == Buy {
      InsertedInPriority(Buy, bids, o);
      MatchUncrosses(Inserted(Buy, bids, o), asks);
    } else {
      InsertedInPriority(Sell, asks, o);
      MatchUncrosses(bids, Inserted(Sell, asks, o));
    }
  }
}
