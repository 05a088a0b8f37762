/** The opportunity detector and the order synthesizer: the spread test,
    the order size, the order side and the deltas that rebuild a transient
    book for the fill engine. All of it is pure. */
module Pricing {
  import opened MarketTypes

  /** Spread as a percentage of the best bid, in exact arithmetic. */
  function SpreadPct(bid: real, ask: real): (pct: real)
    requires bid > 0.0 && ask > bid
    ensures pct > 0.0
    ensures pct * bid == (ask - bid) * 100.0
  {
    (ask - bid) / bid * 100.0
  }

  /** How the detector judges the last best prices. */
  datatype Evaluation =
    | NoQuotes                                    // a side has never been quoted
    | InvalidMarket                               // non-positive bid, or locked/crossed book
    | Evaluated(spreadPct: real, triggered: bool)

  /** The detector: skip without quotes on both sides, skip a non-positive
      bid or an ask not above the bid, otherwise trigger when the spread is
      at most `maxSpreadPct` (the boundary triggers). */
  function EvaluateSpread(bestBid: Option<real>, bestAsk: Option<real>, maxSpreadPct: real): (e: Evaluation)
    ensures e.NoQuotes? <==> bestBid.None? || bestAsk.None?
    ensures e.InvalidMarket? <==>
      bestBid.Some? && bestAsk.Some? && !(bestBid.value > 0.0 && bestAsk.value > bestBid.value)
    ensures e.Evaluated? ==>
      bestBid.Some? && bestAsk.Some? && bestBid.value > 0.0 && bestAsk.value > bestBid.value &&
      e.spreadPct == SpreadPct(bestBid.value, bestAsk.value) &&
      (e.triggered <==> (bestAsk.value - bestBid.value) * 100.0 <= maxSpreadPct * bestBid.value)
  {
    match (bestBid, bestAsk)
    case (Some(bid), Some(ask)) =>
      if bid > 0.0 && ask > bid then
        var pct := SpreadPct(bid, ask);
        TriggerIsCrossMultiplied(bid, ask, maxSpreadPct);
        Evaluated(pct, pct <= maxSpreadPct)
      else
        InvalidMarket
    case _ => NoQuotes
  }

  /** The threshold test on the percentage agrees with its exact
      cross-multiplied form, in both directions. */
  lemma TriggerIsCrossMultiplied(bid: real, ask: real, maxSpreadPct: real)
    requires bid > 0.0 && ask > bid
    ensures SpreadPct(bid, ask) <= maxSpreadPct <==> (ask - bid) * 100.0 <= maxSpreadPct * bid
  {
    var pct := SpreadPct(bid, ask);
    if pct <= maxSpreadPct {
      assert pct * bid <= maxSpreadPct * bid;
    } else {
      assert pct * bid > maxSpreadPct * bid;
    }
  }

  /** Bid 0.50, ask 0.51 is a 2% spread and triggers at a 2% threshold. */
  lemma BoundarySpreadTriggers()
    ensures EvaluateSpread(Some(0.50), Some(0.51), 2.0) == Evaluated(2.0, true)
  {
    assert SpreadPct(0.50, 0.51) * 0.50 == 1.0;
  }

  /** Bid 0.50, ask 0.52 is a 4% spread and does not trigger at 2%. */
  lemma WideSpreadDoesNotTrigger()
    ensures EvaluateSpread(Some(0.50), Some(0.52), 2.0) == Evaluated(4.0, false)
  {
    assert SpreadPct(0.50, 0.52) * 0.50 == 2.0;
  }

  /** The random factor: `draw % 100` hundredths, where `draw` is the random u64. */
  function RandomFactor(draw: nat): (f: real)
    ensures 0.0 <= f <= 0.99
    ensures f * 100.0 == (draw % 100) as real
  {
    (draw % 100) as real / 100.0
  }

  /** `min + (max - min) * factor`. With `min <= max` the size lies in
      `[min, max)` unless `min == max`; it is `min` when the draw is a
      multiple of 100. With `min > max` (which the code does not forbid) it
      lies in `(max, min]`. */
  function OrderSize(minOrderSize: real, maxOrderSize: real, draw: nat): (size: real)
    ensures minOrderSize <= maxOrderSize ==> minOrderSize <= size <= maxOrderSize
    ensures minOrderSize < maxOrderSize ==> size < maxOrderSize
    ensures maxOrderSize < minOrderSize ==> maxOrderSize < size <= minOrderSize
    ensures draw % 100 == 0 ==> size == minOrderSize
  {
    var f := RandomFactor(draw);
    var size := minOrderSize + (maxOrderSize - minOrderSize) * f;
    ScaledWithin(minOrderSize, maxOrderSize, f, size);
    size
  }

  /** Moving from `lo` towards `hi` by a fraction `f <= 0.99` of the distance
      stays between the two and never reaches `hi` unless `lo == hi`. */
  lemma ScaledWithin(lo: real, hi: real, f: real, x: real)
    requires 0.0 <= f <= 0.99 && x == lo + (hi - lo) * f
    ensures lo <= hi ==> lo <= x <= hi
    ensures lo < hi ==> x < hi
    ensures hi < lo ==> hi < x <= lo
  {
    var d := hi - lo;
    var slack := 0.99 - f;
    assert 0.0 <= slack;
    assert d * 0.99 == d * f + d * slack;
    if d >= 0.0 {
      assert 0.0 <= d * f;
      assert 0.0 <= d * slack;
    } else {
      assert d * f <= 0.0;
      assert d * slack <= 0.0;
    }
  }

  /** With sizes 10 and 100 the draws 0, 50 and 99 give 10, 55 and 99.1. */
  lemma OrderSizeExamples()
    ensures OrderSize(10.0, 100.0, 0) == 10.0
    ensures OrderSize(10.0, 100.0, 50) == 55.0
    ensures OrderSize(10.0, 100.0, 99) == 99.1
  {
  }

  /** SELL on a crossed book, BUY otherwise. */
  function ChooseSide(bid: real, ask: real): Side
  {
    if bid > ask then SELL else BUY
  }

  /** The side is SELL exactly when the book is crossed, and a crossed book
      is never evaluated as an opportunity. */
  lemma CrossedBookSellsButNeverTriggers(bid: real, ask: real, maxSpreadPct: real)
    ensures ChooseSide(bid, ask) == SELL <==> bid > ask
    ensures bid > ask ==> EvaluateSpread(Some(bid), Some(ask), maxSpreadPct) == InvalidMarket
  {
  }

  /** Every order the detector lets through is a BUY. */
  lemma EvaluatedMarketBuys(bid: real, ask: real, maxSpreadPct: real)
    requires EvaluateSpread(Some(bid), Some(ask), maxSpreadPct).Evaluated?
    ensures ChooseSide(bid, ask) == BUY
  {
  }

  /** The market order built for an opportunity: the own token, BUY unless
      the book is crossed, a size within the configured bounds and a fixed 1%
      slippage tolerance. */
  function BuildRequest(tokenId: string, minOrderSize: real, maxOrderSize: real, draw: nat, bid: real, ask: real): (r: MarketOrderRequest)
    ensures r.tokenId == tokenId && r.slippageTolerance == Some(1.0)
    ensures r.side == BUY <==> bid <= ask
    ensures minOrderSize <= maxOrderSize ==> minOrderSize <= r.amount <= maxOrderSize
    ensures r.amount == OrderSize(minOrderSize, maxOrderSize, draw)
  {
    MarketOrderRequest(tokenId, ChooseSide(bid, ask), OrderSize(minOrderSize, maxOrderSize, draw), Some(1.0))
  }

  /** One delta per level, in order, all on `side` with the same `sequence`. */
  function LevelDeltas(tokenId: string, levels: seq<Level>, side: Side, sequence: nat): seq<OrderDelta>
  {
    if levels == [] then []
    else [OrderDelta(tokenId, side, levels[0].price, levels[0].size, sequence)]
         + LevelDeltas(tokenId, levels[1..], side, sequence)
  }

  /** The deltas replayed into a fresh book: bids as BUY with sequence 1,
      then asks as SELL with sequence 2. */
  function ReplayDeltas(tokenId: string, snapshot: BookSnapshot): seq<OrderDelta>
  {
    LevelDeltas(tokenId, snapshot.bids, BUY, 1) + LevelDeltas(tokenId, snapshot.asks, SELL, 2)
  }

  lemma {:induction false} LevelDeltasAt(tokenId: string, levels: seq<Level>, side: Side, sequence: nat, i: nat)
    requires i < |levels|
    ensures |LevelDeltas(tokenId, levels, side, sequence)| == |levels|
    ensures LevelDeltas(tokenId, levels, side, sequence)[i]
         == OrderDelta(tokenId, side, levels[i].price, levels[i].size, sequence)
  {
    if i > 0 {
      LevelDeltasAt(tokenId, levels[1..], side, sequence, i - 1);
    } else if |levels| > 1 {
      LevelDeltasAt(tokenId, levels[1..], side, sequence, 0);
    }
  }

  /** Appending a level appends its delta. */
  lemma {:induction false} LevelDeltasSnoc(tokenId: string, levels: seq<Level>, level: Level, side: Side, sequence: nat)
    ensures LevelDeltas(tokenId, levels + [level], side, sequence)
         == LevelDeltas(tokenId, levels, side, sequence) + [OrderDelta(tokenId, side, level.price, level.size, sequence)]
  {
    if levels != [] {
      assert (levels + [level])[1..] == levels[1..] + [level];
      LevelDeltasSnoc(tokenId, levels[1..], level, side, sequence);
    }
  }

  /** The replay has one delta per level, bids first; each keeps its level's
      price and size, bids become BUY with sequence 1, asks SELL with sequence 2. */
  lemma ReplayDeltasShape(tokenId: string, snapshot: BookSnapshot)
    ensures var r := ReplayDeltas(tokenId, snapshot);
      |r| == |snapshot.bids| + |snapshot.asks| &&
      (forall i :: 0 <= i < |snapshot.bids| ==>
         r[i] == OrderDelta(tokenId, BUY, snapshot.bids[i].price, snapshot.bids[i].size, 1)) &&
      (forall j :: 0 <= j < |snapshot.asks| ==>
         r[|snapshot.bids| + j] == OrderDelta(tokenId, SELL, snapshot.asks[j].price, snapshot.asks[j].size, 2))
  {
    var bids := LevelDeltas(tokenId, snapshot.bids, BUY, 1);
    var asks := LevelDeltas(tokenId, snapshot.asks, SELL, 2);
    if snapshot.bids != [] { LevelDeltasAt(tokenId, snapshot.bids, BUY, 1, 0); }
    if snapshot.asks != [] { LevelDeltasAt(tokenId, snapshot.asks, SELL, 2, 0); }
    if snapshot.bids == [] { assert bids == []; }
    if snapshot.asks == [] { assert asks == []; }
    forall i | 0 <= i < |snapshot.bids|
      ensures bids[i] == OrderDelta(tokenId, BUY, snapshot.bids[i].price, snapshot.bids[i].size, 1)
    {
      LevelDeltasAt(tokenId, snapshot.bids, BUY, 1, i);
    }
    forall j | 0 <= j < |snapshot.asks|
      ensures asks[j] == OrderDelta(tokenId, SELL, snapshot.asks[j].price, snapshot.asks[j].size, 2)
    {
      LevelDeltasAt(tokenId, snapshot.asks, SELL, 2, j);
    }
  }

  /** The first replayed delta a transient book's `apply_delta` refuses:
      its position in the replay (bids first, then asks) and the error. */
  datatype Refusal = Refusal(position: nat, error: Error)

  /** Outcome of replaying a snapshot into a fresh book that refuses
      `rejectAt` (if any): the refusal's error fails the replay, otherwise
      the book holds all replayed deltas, one per level. */
  function ReplayOutcome(tokenId: string, snapshot: BookSnapshot, rejectAt: Option<Refusal>): (r: Result<seq<OrderDelta>>)
    ensures r.Err? <==> rejectAt.Some? && rejectAt.value.position < |snapshot.bids| + |snapshot.asks|
    ensures r.Err? ==> r.error == rejectAt.value.error
    ensures r.Ok? ==> r.value == ReplayDeltas(tokenId, snapshot) && |r.value| == |snapshot.bids| + |snapshot.asks|
  {
    ReplayDeltasShape(tokenId, snapshot);
    if rejectAt.Some? && rejectAt.value.position < |snapshot.bids| + |snapshot.asks| then Err(rejectAt.value.error)
    else Ok(ReplayDeltas(tokenId, snapshot))
  }
}
