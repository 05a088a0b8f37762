/** What one inbound event does to the strategy, as pure functions of the
    configuration, the state before the event and the answers of the
    collaborators. The class in module Strategy is proved to follow them. */
module StrategySpec {
  import opened MarketTypes
  import opened Pricing
  import opened Staleness
  import opened Statistics

  /** The configuration fixed at construction. */
  datatype Config = Config(
    tokenId: string,
    maxSpreadPct: real,
    minOrderSize: real,
    maxOrderSize: real,
    staleThreshold: nat)

  /** The fields the strategy updates. */
  datatype State = State(
    lastBestBid: Option<real>,
    lastBestAsk: Option<real>,
    lastUpdate: nat,
    stats: Stats)

  /** The state right after construction. */
  function InitialState(): State
  {
    State(None, None, 0, InitialStats())
  }

  /** What the outside world answers while one event is processed:
      - `now`: the clock in seconds;
      - `book`: the book manager's answer to creating the book if absent,
        applying the event's delta and reading the book back;
      - `draw`: the random u64 behind the order size;
      - `replayRejectAt`: the first replayed delta the transient book
        refuses, with the error it raises, if any;
      - `fill`: the fill engine's answer for the order;
      - `fillTimeMs`: how long the fill engine took. */
  datatype Environment = Environment(
    now: nat,
    book: Result<BookSnapshot>,
    draw: nat,
    replayRejectAt: Option<Refusal>,
    fill: Result<FillStatus>,
    fillTimeMs: nat)

  /** An order handed to the fill engine together with the transient book it
      runs against (given as the deltas the book received). */
  datatype Submission = Submission(request: MarketOrderRequest, book: seq<OrderDelta>)

  /** The effect of one operation: the new state, the `Result<()>` returned,
      the order handed to the fill engine, and the age reported by a
      staleness warning. */
  datatype Step = Step(next: State, outcome: Result<()>, submitted: Option<Submission>, staleWarning: Option<nat>)

  /** Nothing changes and `Ok(())` is returned. */
  function Unchanged(s: State): Step
  {
    Step(s, Ok(()), None, None)
  }

  /** `execute_snipe_order` on a state whose opportunity is already counted. */
  function ExecuteSnipe(cfg: Config, s: State, bid: real, ask: real, snapshot: BookSnapshot, env: Environment): Step
  {
    var request := BuildRequest(cfg.tokenId, cfg.minOrderSize, cfg.maxOrderSize, env.draw, bid, ask);
    match ReplayOutcome(cfg.tokenId, snapshot, env.replayRejectAt)
    case Err(e) => Step(s, Err(e), None, None)
    case Ok(deltas) =>
      var sent := Some(Submission(request, deltas));
      match env.fill
      case Err(e) => Step(s, Err(e), sent, None)
      case Ok(status) =>
        Step(s.(stats := RecordOrder(s.stats, status, env.fillTimeMs as real)), Ok(()), sent, None)
  }

  /** `check_opportunities`: a triggered spread is counted, then executed. */
  function OpportunityCheck(cfg: Config, s: State, snapshot: BookSnapshot, env: Environment): Step
  {
    match EvaluateSpread(s.lastBestBid, s.lastBestAsk, cfg.maxSpreadPct)
    case Evaluated(_, true) =>
      var counted := s.(stats := s.stats.(opportunitiesDetected := s.stats.opportunitiesDetected + 1));
      ExecuteSnipe(cfg, counted, s.lastBestBid.value, s.lastBestAsk.value, snapshot, env)
    case _ => Unchanged(s)
  }

  /** The recorded best price of a side: the first level's, or the previous
      one when the side is empty. */
  function TopOfBook(previous: Option<real>, levels: seq<Level>): Option<real>
  {
    if levels == [] then previous else Some(levels[0].price)
  }

  /** `process_book_update`. */
  function OnBookUpdate(cfg: Config, s: State, env: Environment): Step
  {
    match env.book
    case Err(e) => Step(s, Err(e), None, None)
    case Ok(snapshot) =>
      var quoted := State(TopOfBook(s.lastBestBid, snapshot.bids), TopOfBook(s.lastBestAsk, snapshot.asks), env.now, s.stats);
      OpportunityCheck(cfg, quoted, snapshot, env)
  }

  /** `process_trade`. */
  function OnTrade(s: State, fill: FillEvent): Step
  {
    Step(s.(stats := RecordTrade(s.stats, fill.size)), Ok(()), None, None)
  }

  /** `check_stale_quotes`: the age it warns about, if it warns. */
  function StaleWarning(cfg: Config, s: State, now: nat): (w: Option<nat>)
    ensures w.Some? <==> now > s.lastUpdate + cfg.staleThreshold
    ensures w.Some? ==> s.lastUpdate + w.value == now
  {
    StaleIffPastDeadline(now, s.lastUpdate, cfg.staleThreshold);
    if IsStale(now, s.lastUpdate, cfg.staleThreshold) then Some(QuoteAge(now, s.lastUpdate)) else None
  }

  /** `process_update`: events for other tokens and unknown events are ignored. */
  function Process(cfg: Config, s: State, message: StreamMessage, env: Environment): Step
  {
    match message
    case BookUpdate(delta) => if delta.tokenId == cfg.tokenId then OnBookUpdate(cfg, s, env) else Unchanged(s)
    case Trade(fill) => if fill.tokenId == cfg.tokenId then OnTrade(s, fill) else Unchanged(s)
    case Heartbeat(_) => Step(s, Ok(()), None, StaleWarning(cfg, s, env.now))
    case OtherMessage => Unchanged(s)
  }

  /** A stream of events, each with its own environment; as in the demo
      driver, a failed event is dropped and processing continues. */
  function Run(cfg: Config, s: State, messages: seq<StreamMessage>, envs: seq<Environment>): State
    requires |messages| == |envs|
    decreases |messages|
  {
    if messages == [] then s
    else Run(cfg, Process(cfg, s, messages[0], envs[0]).next, messages[1..], envs[1..])
  }

  // ---------------------------------------------------------------- routing

  /** Book updates and trades for another token change nothing. */
  lemma ForeignTokenIgnored(cfg: Config, s: State, message: StreamMessage, env: Environment)
    requires (message.BookUpdate? && message.delta.tokenId != cfg.tokenId)
          || (message.Trade? && message.fill.tokenId != cfg.tokenId)
    ensures Process(cfg, s, message, env) == Step(s, Ok(()), None, None)
  {
  }

  /** A heartbeat leaves the whole state alone, never fails and warns exactly
      when the quotes are older than the threshold. */
  lemma HeartbeatOnlyChecksStaleness(cfg: Config, s: State, timestamp: nat, env: Environment)
    ensures var step := Process(cfg, s, Heartbeat(timestamp), env);
      step.next == s && step.outcome == Ok(()) && step.submitted == None &&
      (step.staleWarning.Some? <==> env.now > s.lastUpdate + cfg.staleThreshold) &&
      (step.staleWarning.Some? ==> step.staleWarning.value == env.now - s.lastUpdate)
  {
    StaleIffPastDeadline(env.now, s.lastUpdate, cfg.staleThreshold);
  }

  /** A trade for the own token adds its size to the volume and changes nothing else. */
  lemma OwnTradeAddsVolume(cfg: Config, s: State, fill: FillEvent, env: Environment)
    requires fill.tokenId == cfg.tokenId
    ensures var step := Process(cfg, s, Trade(fill), env);
      step.outcome == Ok(()) && step.submitted == None && step.staleWarning == None &&
      step.next.stats.totalVolume == s.stats.totalVolume + fill.size &&
      step.next.(stats := step.next.stats.(totalVolume := s.stats.totalVolume)) == s
  {
  }

  // ----------------------------------------------------------- book updates

  /** A failing book manager aborts the event before anything changes. */
  lemma BookErrorChangesNothing(cfg: Config, s: State, delta: OrderDelta, env: Environment)
    requires delta.tokenId == cfg.tokenId && env.book.Err?
    ensures Process(cfg, s, BookUpdate(delta), env) == Step(s, Err(env.book.error), None, None)
  {
  }

  /** After an own book update the manager answered, each best price is the
      first level of its side or, for an empty side, the previous value, and
      the update time is `now`, whatever the opportunity check then does. */
  lemma BookUpdateRecordsTopOfBook(cfg: Config, s: State, delta: OrderDelta, env: Environment)
    requires delta.tokenId == cfg.tokenId && env.book.Ok?
    ensures var next := Process(cfg, s, BookUpdate(delta), env).next;
      var snapshot := env.book.value;
      next.lastUpdate == env.now &&
      (snapshot.bids != [] ==> next.lastBestBid == Some(snapshot.bids[0].price)) &&
      (snapshot.bids == [] ==> next.lastBestBid == s.lastBestBid) &&
      (snapshot.asks != [] ==> next.lastBestAsk == Some(snapshot.asks[0].price)) &&
      (snapshot.asks == [] ==> next.lastBestAsk == s.lastBestAsk)
  {
  }

  /** Once an own book update succeeded at time `now`, no staleness warning is
      raised up to `now + threshold`, and one is raised at every later time. */
  lemma FreshAfterBookUpdate(cfg: Config, s: State, delta: OrderDelta, env: Environment, later: nat)
    requires delta.tokenId == cfg.tokenId && env.book.Ok?
    ensures var next := Process(cfg, s, BookUpdate(delta), env).next;
      (StaleWarning(cfg, next, later) == None <==> later <= env.now + cfg.staleThreshold)
  {
    BookUpdateRecordsTopOfBook(cfg, s, delta, env);
    var next := Process(cfg, s, BookUpdate(delta), env).next;
    StaleIffPastDeadline(later, next.lastUpdate, cfg.staleThreshold);
  }

  // ------------------------------------------------------ opportunity check

  /** Without two quotes, with a non-positive bid, a locked or crossed book,
      or a spread above the threshold, the check returns `Ok(())` and changes nothing. */
  lemma UntriggeredCheckChangesNothing(cfg: Config, s: State, snapshot: BookSnapshot, env: Environment)
    requires !(s.lastBestBid.Some? && s.lastBestAsk.Some? &&
               s.lastBestBid.value > 0.0 && s.lastBestAsk.value > s.lastBestBid.value &&
               SpreadPct(s.lastBestBid.value, s.lastBestAsk.value) <= cfg.maxSpreadPct)
    ensures OpportunityCheck(cfg, s, snapshot, env) == Unchanged(s)
  {
  }

  /** A triggered check counts exactly one opportunity, even when the
      execution that follows fails, and only the statistics change. */
  lemma TriggeredCheckCountsOnce(cfg: Config, s: State, snapshot: BookSnapshot, env: Environment)
    requires s.lastBestBid.Some? && s.lastBestAsk.Some?
    requires s.lastBestBid.value > 0.0 && s.lastBestAsk.value > s.lastBestBid.value
    requires SpreadPct(s.lastBestBid.value, s.lastBestAsk.value) <= cfg.maxSpreadPct
    ensures var step := OpportunityCheck(cfg, s, snapshot, env);
      step.next.stats.opportunitiesDetected == s.stats.opportunitiesDetected + 1 &&
      step.next.(stats := s.stats) == s
  {
  }

  /** Orders are counted as placed only when the fill engine answered, and as
      filled only when it answered `Filled`. */
  lemma OrdersCountedOnFillEngineAnswer(cfg: Config, s: State, snapshot: BookSnapshot, env: Environment)
    ensures var step := OpportunityCheck(cfg, s, snapshot, env);
      step.next.stats.ordersPlaced
        == s.stats.ordersPlaced + (if step.submitted.Some? && env.fill.Ok? then 1 else 0) &&
      step.next.stats.ordersFilled
        == s.stats.ordersFilled + (if step.submitted.Some? && env.fill == Ok(Filled) then 1 else 0) &&
      (step.outcome == Ok(()) <==> (step.submitted.Some? && env.fill.Ok?) || step.next == s)
  {
  }

  /** A triggered check that fails returns the failing collaborator's error
      as it is: the transient book's when it refuses a replayed delta (and
      then no order is sent), the fill engine's when it fails the order. */
  lemma FailedExecutionReturnsError(cfg: Config, s: State, snapshot: BookSnapshot, env: Environment)
    requires s.lastBestBid.Some? && s.lastBestAsk.Some?
    requires s.lastBestBid.value > 0.0 && s.lastBestAsk.value > s.lastBestBid.value
    requires SpreadPct(s.lastBestBid.value, s.lastBestAsk.value) <= cfg.maxSpreadPct
    ensures var step := OpportunityCheck(cfg, s, snapshot, env);
      var refused := env.replayRejectAt.Some? &&
        env.replayRejectAt.value.position < |snapshot.bids| + |snapshot.asks|;
      (refused ==> step.outcome == Err(env.replayRejectAt.value.error) && step.submitted == None) &&
      (!refused && env.fill.Err? ==> step.outcome == Err(env.fill.error) && step.submitted.Some?) &&
      (!refused && env.fill.Ok? ==> step.outcome == Ok(()) && step.submitted.Some?)
  {
  }

  /** Every order handed to the fill engine is a BUY for the own token with
      1% slippage tolerance, sized from the draw within the configured
      bounds, and runs against the replay of the current snapshot. */
  lemma SubmittedOrderShape(cfg: Config, s: State, snapshot: BookSnapshot, env: Environment)
    requires OpportunityCheck(cfg, s, snapshot, env).submitted.Some?
    ensures var sub := OpportunityCheck(cfg, s, snapshot, env).submitted.value;
      sub.request.tokenId == cfg.tokenId && sub.request.side == BUY &&
      sub.request.slippageTolerance == Some(1.0) &&
      sub.request.amount == OrderSize(cfg.minOrderSize, cfg.maxOrderSize, env.draw) &&
      (cfg.minOrderSize <= cfg.maxOrderSize ==>
         cfg.minOrderSize <= sub.request.amount <= cfg.maxOrderSize) &&
      sub.book == ReplayDeltas(cfg.tokenId, snapshot) &&
      |sub.book| == |snapshot.bids| + |snapshot.asks|
  {
    var bid, ask := s.lastBestBid.value, s.lastBestAsk.value;
    EvaluatedMarketBuys(bid, ask, cfg.maxSpreadPct);
    ReplayDeltasShape(cfg.tokenId, snapshot);
  }

  // -------------------------------------------------------------- counters

  /** One event keeps `filled <= placed <= opportunities`. */
  lemma ProcessKeepsCountersOrdered(cfg: Config, s: State, message: StreamMessage, env: Environment)
    requires CountersOrdered(s.stats)
    ensures CountersOrdered(Process(cfg, s, message, env).next.stats)
  {
    if message.BookUpdate? && message.delta.tokenId == cfg.tokenId && env.book.Ok? {
      var snapshot := env.book.value;
      var quoted := State(TopOfBook(s.lastBestBid, snapshot.bids), TopOfBook(s.lastBestAsk, snapshot.asks), env.now, s.stats);
      OrdersCountedOnFillEngineAnswer(cfg, quoted, snapshot, env);
    }
  }

  /** ... and so does any stream of events. */
  lemma {:induction false} RunKeepsCountersOrdered(cfg: Config, s: State, messages: seq<StreamMessage>, envs: seq<Environment>)
    requires |messages| == |envs| && CountersOrdered(s.stats)
    ensures CountersOrdered(Run(cfg, s, messages, envs).stats)
    decreases |messages|
  {
    if messages != [] {
      ProcessKeepsCountersOrdered(cfg, s, messages[0], envs[0]);
      RunKeepsCountersOrdered(cfg, Process(cfg, s, messages[0], envs[0]).next, messages[1..], envs[1..]);
    }
  }

  /** The counters start ordered, so they are ordered after any stream. */
  lemma CountersOrderedFromStart(cfg: Config, messages: seq<StreamMessage>, envs: seq<Environment>)
    requires |messages| == |envs|
    ensures var stats := Run(cfg, InitialState(), messages, envs).stats;
      stats.ordersFilled <= stats.ordersPlaced <= stats.opportunitiesDetected
  {
    RunKeepsCountersOrdered(cfg, InitialState(), messages, envs);
  }
}
