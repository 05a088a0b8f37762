/** `SnipeStrategy`: the single owner of the strategy state. Its methods
    update the fields step by step and are proved to follow the transition
    functions of module StrategySpec. */
module Strategy {
  import opened MarketTypes
  import opened Pricing
  import opened Staleness
  import opened Statistics
  import opened StrategySpec

  /** The two replay loops of the order execution: every bid level, then every
      ask level, is applied to a fresh transient book, which is represented
      by the deltas it has received. The book refuses the delta at position
      `rejectAt`, if there is one, and its error propagates. */
  method ReplayIntoFreshBook(tokenId: string, snapshot: BookSnapshot, rejectAt: Option<Refusal>)
    returns (r: Result<seq<OrderDelta>>)
    ensures r == ReplayOutcome(tokenId, snapshot, rejectAt)
  {
    var bids, asks := snapshot.bids, snapshot.asks;
    var applied: seq<OrderDelta> := [];
    for i := 0 to |bids|
      invariant applied == LevelDeltas(tokenId, bids[..i], BUY, 1)
      invariant !(rejectAt.Some? && rejectAt.value.position < i)
    {
      if rejectAt.Some? && rejectAt.value.position == i {
        return Err(rejectAt.value.error);
      }
      LevelDeltasSnoc(tokenId, bids[..i], bids[i], BUY, 1);
      assert bids[..i + 1] == bids[..i] + [bids[i]];
      applied := applied + [OrderDelta(tokenId, BUY, bids[i].price, bids[i].size, 1)];
    }
    assert bids[..|bids|] == bids;
    ghost var bidDeltas := applied;
    for j := 0 to |asks|
      invariant applied == bidDeltas + LevelDeltas(tokenId, asks[..j], SELL, 2)
      invariant !(rejectAt.Some? && rejectAt.value.position < |bids| + j)
    {
      if rejectAt.Some? && rejectAt.value.position == |bids| + j {
        return Err(rejectAt.value.error);
      }
      LevelDeltasSnoc(tokenId, asks[..j], asks[j], SELL, 2);
      assert asks[..j + 1] == asks[..j] + [asks[j]];
      applied := applied + [OrderDelta(tokenId, SELL, asks[j].price, asks[j].size, 2)];
    }
    assert asks[..|asks|] == asks;
    r := Ok(applied);
  }

  class SnipeStrategy {
    const tokenId: string
    const maxSpreadPct: real
    const minOrderSize: real
    const maxOrderSize: real
    const staleThreshold: nat

    var lastBestBid: Option<real>
    var lastBestAsk: Option<real>
    var lastUpdate: nat
    var stats: Stats

    /** Latencies of the filled orders, oldest first. */
    ghost var fillTimes: seq<real>

    function Cfg(): Config
    {
      Config(tokenId, maxSpreadPct, minOrderSize, maxOrderSize, staleThreshold)
    }

    function Current(): State
      reads this
    {
      State(lastBestBid, lastBestAsk, lastUpdate, stats)
    }

    /** The counters are ordered and the average fill time is the mean of the
        latencies of the filled orders. */
    ghost predicate Valid()
      reads this
    {
      CountersOrdered(stats) && |fillTimes| == stats.ordersFilled && stats.avgFillTimeMs == Mean(fillTimes)
    }

    constructor (tokenId: string, maxSpreadPct: real, minOrderSize: real, maxOrderSize: real, staleThreshold: nat)
      ensures Valid() && fillTimes == []
      ensures Cfg() == Config(tokenId, maxSpreadPct, minOrderSize, maxOrderSize, staleThreshold)
      ensures Current() == InitialState()
    {
      this.tokenId := tokenId;
      this.maxSpreadPct := maxSpreadPct;
      this.minOrderSize := minOrderSize;
      this.maxOrderSize := maxOrderSize;
      this.staleThreshold := staleThreshold;
      lastBestBid, lastBestAsk := None, None;
      lastUpdate := 0;
      stats := InitialStats();
      fillTimes := [];
    }

    /** `process_update`: routes one event. */
    method ProcessUpdate(message: StreamMessage, env: Environment)
      returns (r: Result<()>, sent: Option<Submission>, staleWarning: Option<nat>)
      requires Valid()
      modifies this
      ensures Valid()
      ensures Step(Current(), r, sent, staleWarning) == Process(Cfg(), old(Current()), message, env)
      ensures fillTimes == old(fillTimes) + (if stats.ordersFilled > old(stats.ordersFilled) then [env.fillTimeMs as real] else [])
    {
      r, sent, staleWarning := Ok(()), None, None;
      match message
      case BookUpdate(delta) =>
        if delta.tokenId == tokenId {
          r, sent := ProcessBookUpdate(env);
        }
      case Trade(fill) =>
        if fill.tokenId == tokenId {
          r := ProcessTrade(fill);
        }
      case Heartbeat(_) =>
        staleWarning := CheckStaleQuotes(env.now);
      case OtherMessage =>
    }

    /** `process_book_update`: the book manager's answer is `env.book`. */
    method ProcessBookUpdate(env: Environment) returns (r: Result<()>, sent: Option<Submission>)
      requires Valid()
      modifies this
      ensures Valid()
      ensures Step(Current(), r, sent, None) == OnBookUpdate(Cfg(), old(Current()), env)
      ensures fillTimes == old(fillTimes) + (if stats.ordersFilled > old(stats.ordersFilled) then [env.fillTimeMs as real] else [])
    {
      if env.book.Err? {
        return Err(env.book.error), None;
      }
      var book := env.book.value;
      if |book.bids| > 0 {
        lastBestBid := Some(book.bids[0].price);
      }
      if |book.asks| > 0 {
        lastBestAsk := Some(book.asks[0].price);
      }
      lastUpdate := env.now;
      r, sent := CheckOpportunities(book, env);
    }

    /** `process_trade`. */
    method ProcessTrade(fill: FillEvent) returns (r: Result<()>)
      requires Valid()
      modifies this
      ensures Valid() && fillTimes == old(fillTimes)
      ensures Step(Current(), r, None, None) == OnTrade(old(Current()), fill)
    {
      stats := stats.(totalVolume := stats.totalVolume + fill.size);
      r := Ok(());
    }

    /** `check_opportunities`, given the snapshot just read from the book manager. */
    method CheckOpportunities(book: BookSnapshot, env: Environment) returns (r: Result<()>, sent: Option<Submission>)
      requires Valid()
      modifies this
      ensures Valid()
      ensures Step(Current(), r, sent, None) == OpportunityCheck(Cfg(), old(Current()), book, env)
      ensures fillTimes == old(fillTimes) + (if stats.ordersFilled > old(stats.ordersFilled) then [env.fillTimeMs as real] else [])
    {
      r, sent := Ok(()), None;
      if lastBestBid.None? || lastBestAsk.None? {
        return;
      }
      var bid, ask := lastBestBid.value, lastBestAsk.value;
      if !(bid > 0.0 && ask > bid) {
        return;
      }
      var spreadPct := SpreadPct(bid, ask);
      if spreadPct <= maxSpreadPct {
        stats := stats.(opportunitiesDetected := stats.opportunitiesDetected + 1);
        r, sent := ExecuteSnipeOrder(bid, ask, book, env);
      }
    }

    /** `execute_snipe_order`, called right after the opportunity was counted.
        The book manager is read again for the replay; nothing has changed it
        since `book` was read, so `book` is that answer. */
    method ExecuteSnipeOrder(bid: real, ask: real, book: BookSnapshot, env: Environment)
      returns (r: Result<()>, sent: Option<Submission>)
      requires Valid() && stats.ordersPlaced < stats.opportunitiesDetected
      modifies this
      ensures Valid()
      ensures Step(Current(), r, sent, None) == ExecuteSnipe(Cfg(), old(Current()), bid, ask, book, env)
      ensures fillTimes == old(fillTimes) + (if stats.ordersFilled > old(stats.ordersFilled) then [env.fillTimeMs as real] else [])
    {
      var size := OrderSize(minOrderSize, maxOrderSize, env.draw);
      var side := ChooseSide(bid, ask);
      var request := MarketOrderRequest(tokenId, side, size, Some(1.0));
      var replayed := ReplayIntoFreshBook(tokenId, book, env.replayRejectAt);
      if replayed.Err? {
        return Err(replayed.error), None;
      }
      sent := Some(Submission(request, replayed.value));
      if env.fill.Err? {
        return Err(env.fill.error), sent;
      }
      var latency := env.fillTimeMs as real;
      ghost var before := stats;
      RecordOrderKeepsMean(stats, fillTimes, env.fill.value, latency);
      stats := stats.(ordersPlaced := stats.ordersPlaced + 1);
      if env.fill.value == Filled {
        stats := stats.(ordersFilled := stats.ordersFilled + 1);
        stats := stats.(avgFillTimeMs := AverageStep(stats.avgFillTimeMs, stats.ordersFilled, latency));
        fillTimes := fillTimes + [latency];
      }
      assert stats == RecordOrder(before, env.fill.value, latency);
      r := Ok(());
    }

    /** `check_stale_quotes`: reads the state, changes nothing, and reports the
        age of the quotes when it exceeds the threshold. */
    method CheckStaleQuotes(now: nat) returns (staleWarning: Option<nat>)
      ensures staleWarning == StaleWarning(Cfg(), Current(), now)
      ensures staleWarning.Some? <==> now > lastUpdate + staleThreshold
    {
      var age := QuoteAge(now, lastUpdate);
      staleWarning := if age > staleThreshold then Some(age) else None;
      StaleIffPastDeadline(now, lastUpdate, staleThreshold);
    }
  }
}
