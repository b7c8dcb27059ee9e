/**
 * The five ranked quotes of a market snapshot (vnpy_acrl_execution market_state.py) projected onto a grid of ticks,
 * against the level-2 view that the simulated book computes itself (rlte limit_order_book.py).
 */
module DepthProjection {
  import opened OrderBook
  import opened BookSteps
  import opened BookVolumes

  const LEVELS := 5

  // ---------- the simulated book ----------

  function At(m: Levels, price: int): nat {
    if price in m then m[price] else 0
  }

  /** Price number l of a side's grid, counted from the best price of the opposite side. */
  function GridPrice(side: Side, opposite: int, l: nat): int {
    if side == Bid then opposite - l else opposite + l
  }

  /** level2 of a side when the opposite side has quotes: the volumes on the grid, empty prices included. */
  function Level2(m: Levels, side: Side, opposite: int, level: nat): (r: seq<nat>)
    ensures |r| == level && forall l :: 0 <= l < level ==> r[l] == At(m, GridPrice(side, opposite, l + 1))
  {
    if level == 0 then [] else Level2(m, side, opposite, level - 1) + [At(m, GridPrice(side, opposite, level))]
  }

  // ---------- the snapshot ----------

  datatype Snapshot = Snapshot(bidPrices: seq<int>, bidDepths: seq<nat>, askPrices: seq<int>, askDepths: seq<nat>) {
    predicate WellFormed() {
      |bidPrices| == |bidDepths| == |askPrices| == |askDepths| == LEVELS
    }

    /** has_complete_five_level_book. */
    predicate Complete()
      requires WellFormed()
    {
      && (forall i :: 0 <= i < LEVELS ==> bidPrices[i] > 0 && askPrices[i] > 0)
      && (forall i :: 0 <= i < LEVELS - 1 ==> bidPrices[i] > bidPrices[i + 1])
      && (forall i :: 0 <= i < LEVELS - 1 ==> askPrices[i] < askPrices[i + 1])
      && askPrices[0] > bidPrices[0]
    }
  }

  /** The quotes as a feed shows them: the first five non-empty levels of each side, best first. */
  function Ranked(m: Levels, side: Side): seq<int>
    requires |SortedKeys(m.Keys, side)| >= LEVELS
  {
    SortedKeys(m.Keys, side)[..LEVELS]
  }

  function Depths(m: Levels, prices: seq<int>): (r: seq<nat>)
    requires forall i :: 0 <= i < |prices| ==> prices[i] in m
    ensures |r| == |prices| && forall i :: 0 <= i < |prices| ==> r[i] == m[prices[i]]
  {
    if prices == [] then [] else [m[prices[0]]] + Depths(m, prices[1..])
  }

  predicate FiveLevels(bids: Levels, asks: Levels) {
    |SortedKeys(bids.Keys, Bid)| >= LEVELS && |SortedKeys(asks.Keys, Ask)| >= LEVELS
  }

  function Feed(bids: Levels, asks: Levels): Snapshot
    requires FiveLevels(bids, asks)
  {
    RankedIn(bids, Bid);
    RankedIn(asks, Ask);
    Snapshot(Ranked(bids, Bid), Depths(bids, Ranked(bids, Bid)), Ranked(asks, Ask), Depths(asks, Ranked(asks, Ask)))
  }

  lemma RankedIn(m: Levels, side: Side)
    requires |SortedKeys(m.Keys, side)| >= LEVELS
    ensures forall i :: 0 <= i < LEVELS ==> Ranked(m, side)[i] in m
  {
    var ks := SortedKeys(m.Keys, side);
    forall i | 0 <= i < LEVELS
      ensures ks[i] in m
    {
      assert ks[i] in ks;
    }
  }

  /** depth_at_price: the depth of the first quote at the price, zero if there is none. */
  method DepthAtPrice(prices: seq<int>, depths: seq<nat>, target: int) returns (depth: nat)
    requires |prices| == |depths|
    ensures target !in prices ==> depth == 0
    ensures target in prices ==> exists i :: 0 <= i < |prices| && prices[i] == target && depth == depths[i] && target !in prices[..i]
  {
    for i := 0 to |prices|
      invariant target !in prices[..i]
    {
      if prices[i] == target {
        return depths[i];
      }
      assert prices[..i + 1] == prices[..i] + [prices[i]];
    }
    assert prices[..|prices|] == prices;
    return 0;
  }

  // ---------- ranks ----------

  lemma {:induction false} SortedKeysOrdered(ks: set<int>, side: Side, i: nat, j: nat)
    requires i < j < |SortedKeys(ks, side)|
    ensures Better(side, SortedKeys(ks, side)[i], SortedKeys(ks, side)[j])
    decreases |ks|
  {
    var p := BestKey(ks, side);
    var rest := SortedKeys(ks - {p}, side);
    if i == 0 {
      assert rest[j - 1] in rest;
    } else {
      SortedKeysOrdered(ks - {p}, side, i - 1, j - 1);
    }
  }

  /** Each rank costs at least one tick. */
  lemma {:induction false} RankInTicks(ks: set<int>, side: Side, k: nat)
    requires k < |SortedKeys(ks, side)|
    ensures if side == Bid then SortedKeys(ks, side)[0] >= SortedKeys(ks, side)[k] + k
            else SortedKeys(ks, side)[0] + k <= SortedKeys(ks, side)[k]
  {
    if k == 0 {
    } else {
      RankInTicks(ks, side, k - 1);
      SortedKeysOrdered(ks, side, k - 1, k);
    }
  }

  ghost predicate Separate(bids: Levels, asks: Levels) {
    forall p, q :: p in bids && q in asks ==> p < q
  }

  /**
   * A price within five ticks of the opposite best price that holds any volume is among the first five quotes: no more
   * than four levels fit between.
   */
  lemma NearIsRanked(m: Levels, side: Side, opposite: int, l: nat)
    requires |SortedKeys(m.Keys, side)| >= LEVELS && 1 <= l <= LEVELS && GridPrice(side, opposite, l) in m
    requires forall p :: p in m ==> if side == Bid then p < opposite else p > opposite
    ensures GridPrice(side, opposite, l) in Ranked(m, side)
  {
    var ks := SortedKeys(m.Keys, side);
    var t := GridPrice(side, opposite, l);
    assert t in ks;
    var k :| 0 <= k < |ks| && ks[k] == t;
    RankInTicks(m.Keys, side, k);
    assert ks[0] in ks;
    assert k < LEVELS;
    assert ks[..LEVELS][k] == t;
  }

  /** What the projection looks up at a grid price is what the book holds there. */
  lemma LookupIsDepth(m: Levels, side: Side, opposite: int, l: nat, depth: nat)
    requires |SortedKeys(m.Keys, side)| >= LEVELS && 1 <= l <= LEVELS
    requires forall p :: p in m ==> if side == Bid then p < opposite else p > opposite
    requires forall i :: 0 <= i < LEVELS ==> Ranked(m, side)[i] in m
    requires var t := GridPrice(side, opposite, l);
             && (t !in Ranked(m, side) ==> depth == 0)
             && (t in Ranked(m, side) ==> exists i :: 0 <= i < LEVELS && Ranked(m, side)[i] == t && depth == m[Ranked(m, side)[i]])
    ensures depth == At(m, GridPrice(side, opposite, l))
  {
    var t := GridPrice(side, opposite, l);
    if t in m {
      NearIsRanked(m, side, opposite, l);
    } else {
      forall i | 0 <= i < LEVELS
        ensures Ranked(m, side)[i] != t
      {
      }
    }
  }

  lemma FeedIsComplete(bids: Levels, asks: Levels)
    requires FiveLevels(bids, asks) && Separate(bids, asks) && forall p :: p in bids ==> p > 0
    ensures Feed(bids, asks).WellFormed() && Feed(bids, asks).Complete()
  {
    RankedIn(bids, Bid);
    RankedIn(asks, Ask);
    var s := Feed(bids, asks);
    forall i | 0 <= i < LEVELS - 1
      ensures s.bidPrices[i] > s.bidPrices[i + 1] && s.askPrices[i] < s.askPrices[i + 1]
    {
      SortedKeysOrdered(bids.Keys, Bid, i, i + 1);
      SortedKeysOrdered(asks.Keys, Ask, i, i + 1);
    }
    assert s.bidPrices[0] in bids;
  }

  /** The projection of one side, in ticks. */
  method ProjectSide(side: Side, prices: seq<int>, depths: seq<nat>, opposite: int) returns (r: seq<nat>)
    requires |prices| == |depths| == LEVELS
    ensures |r| == LEVELS
    ensures forall l :: 0 <= l < LEVELS ==> FirstDepth(prices, depths, GridPrice(side, opposite, l + 1), r[l])
  {
    r := [];
    for level := 1 to LEVELS + 1
      invariant |r| == level - 1
      invariant forall l :: 0 <= l < level - 1 ==> FirstDepth(prices, depths, GridPrice(side, opposite, l + 1), r[l])
    {
      var depth := DepthAtPrice(prices, depths, GridPrice(side, opposite, level));
      r := r + [depth];
    }
  }

  predicate FirstDepth(prices: seq<int>, depths: seq<nat>, target: int, depth: nat)
    requires |prices| == |depths|
  {
    && (target !in prices ==> depth == 0)
    && (target in prices ==> exists i :: 0 <= i < |prices| && prices[i] == target && depth == depths[i] && target !in prices[..i])
  }

  method ModelBookDepths(s: Snapshot) returns (ok: bool, bids: seq<nat>, asks: seq<nat>)
    requires s.WellFormed()
    ensures ok <==> s.Complete()
    ensures ok ==> |bids| == |asks| == LEVELS
    ensures ok ==> forall l :: 0 <= l < LEVELS ==>
              && FirstDepth(s.bidPrices, s.bidDepths, GridPrice(Bid, s.askPrices[0], l + 1), bids[l])
              && FirstDepth(s.askPrices, s.askDepths, GridPrice(Ask, s.bidPrices[0], l + 1), asks[l])
  {
    ok := s.Complete();
    bids, asks := [], [];
    if ok {
      bids := ProjectSide(Bid, s.bidPrices, s.bidDepths, s.askPrices[0]);
      asks := ProjectSide(Ask, s.askPrices, s.askDepths, s.bidPrices[0]);
    }
  }

  lemma SideAgrees(m: Levels, side: Side, opposite: int, r: seq<nat>)
    requires |SortedKeys(m.Keys, side)| >= LEVELS && |r| == LEVELS
    requires forall i :: 0 <= i < LEVELS ==> Ranked(m, side)[i] in m
    requires forall p :: p in m ==> if side == Bid then p < opposite else p > opposite
    requires forall l :: 0 <= l < LEVELS ==>
               FirstDepth(Ranked(m, side), Depths(m, Ranked(m, side)), GridPrice(side, opposite, l + 1), r[l])
    ensures r == Level2(m, side, opposite, LEVELS)
  {
    hide SortedKeys, GridPrice;
    forall l | 0 <= l < LEVELS
      ensures r[l] == At(m, GridPrice(side, opposite, l + 1))
    {
      assert FirstDepth(Ranked(m, side), Depths(m, Ranked(m, side)), GridPrice(side, opposite, l + 1), r[l]);
      LookupIsDepth(m, side, opposite, l + 1, r[l]);
    }
  }

  /**
   * For every uncrossed book with at least five non-empty levels a side, projecting its five ranked quotes gives the
   * first five entries of the book's own level-2 view on both sides: no sixth level was needed.
   */
  method ProjectionIsLevel2(b: Book, vb: VolumeBook) returns (bids: seq<nat>, asks: seq<nat>)
    requires BookInv(b) && Shows(vb, b) && FiveLevels(vb.bids, vb.asks) && forall p :: p in vb.bids ==> p > 0
    ensures vb.bids != map[] && vb.asks != map[]
    ensures bids == Level2(vb.bids, Bid, BestKey(vb.asks.Keys, Ask), LEVELS)
    ensures asks == Level2(vb.asks, Ask, BestKey(vb.bids.Keys, Bid), LEVELS)
  {
    ShownIsSeparate(b, vb);
    FeedIsComplete(vb.bids, vb.asks);
    RankedIn(vb.bids, Bid);
    RankedIn(vb.asks, Ask);
    var ok;
    ok, bids, asks := ModelBookDepths(Feed(vb.bids, vb.asks));
    FirstRanked(vb.bids, Bid);
    FirstRanked(vb.asks, Ask);
    var bestBid, bestAsk := BestKey(vb.bids.Keys, Bid), BestKey(vb.asks.Keys, Ask);
    SideAgrees(vb.bids, Bid, bestAsk, bids);
    SideAgrees(vb.asks, Ask, bestBid, asks);
  }

  lemma FirstRanked(m: Levels, side: Side)
    requires |SortedKeys(m.Keys, side)| >= LEVELS
    ensures m != map[] && Ranked(m, side)[0] == BestKey(m.Keys, side)
  {
  }

  lemma ShownIsSeparate(b: Book, vb: VolumeBook)
    requires BookInv(b) && Shows(vb, b)
    ensures Separate(vb.bids, vb.asks)
  {
    forall p, q | p in vb.bids && q in vb.asks
      ensures p < q
    {
      VolumePositive(Level(Bid, p), b.orders);
      VolumePositive(Level(Ask, q), b.orders);
      var i :| 0 <= i < |b.orders| && Inside(Level(Bid, p), b.orders[i]);
      var j :| 0 <= j < |b.orders| && Inside(Level(Ask, q), b.orders[j]);
      assert b.orders[i].price < b.orders[j].price;
    }
  }
}
