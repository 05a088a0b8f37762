# Snipe strategy: a verified model of its decision loop

This project models the decision logic of `SnipeStrategy` from the snipe example of polyfill-rs.
The strategy watches the order book of one token. When the best bid/ask spread is narrow enough, it
synthesizes a market order and runs it through a simulated fill engine. It keeps running statistics
and warns when the quotes go stale.

Modules, one per component:

- `MarketTypes` (`market_types.dfy`): the values exchanged with the feed and the collaborators:
  levels, book snapshots, deltas, trades, fill statuses, market orders, stream messages, and
  `Result` for the library's `Result<T>` (every strategy operation returns `Result<()>`).
- `Pricing` (`pricing.dfy`): the opportunity detector and the order synthesizer. It holds the spread
  percentage, the inclusive threshold test, the random order size, the side choice, and the deltas
  that rebuild a transient book.
- `Staleness` (`staleness.dfy`): the saturating quote age and the strict `>` test.
- `Statistics` (`statistics.dfy`): `SnipeStats`, the incremental mean, the order bookkeeping as
  written and as corrected (see Findings), and trade volume.
- `StrategySpec` (`strategy_spec.dfy`): what one event does, as pure functions of the configuration,
  the state and the collaborators' answers. It also holds the lemmas about routing, book updates,
  the opportunity check, submitted orders, and the counter invariant over any event stream.
- `Strategy` (`strategy.dfy`): the class `SnipeStrategy`. Its methods update the fields step by step
  and are proved to follow `StrategySpec`. Its invariant `Valid()` keeps
  `orders_filled <= orders_placed <= opportunities_detected`. It also keeps the average fill time
  equal to the mean of the filled orders' latencies, which the ghost field `fillTimes` records:
  every method says exactly how `fillTimes` changes (one latency appended per new fill). The
  transient book is filled by two loops.

The event model (`StrategySpec.Process`, `StrategySpec.Run`, the class methods and the counter and
mean lemmas) describes the corrected program: an order's latency enters the average only when the
order is `Filled`. Only `Statistics.RecordOrderAsWritten` models the average update as the code
writes it, and the Findings section compares the two.

The collaborators are inputs (an `Environment` per event): the clock (`now`), the book manager's
answer after creating, updating and reading the book (`book`, `Err` or a snapshot), the random
`u64` (`draw`), the first replayed delta the transient book refuses, with the error it raises
(`replayRejectAt`), the fill engine's answer (`fill`, `Err` or `Ok(status)`), and its latency
(`fillTimeMs`). The errors of the book manager, the transient book and the fill engine are returned
as they are, as `?` does. `Decimal` prices
and sizes are exact `real`s. The threshold test is also proved equal to its cross-multiplied form
`(ask - bid) * 100 <= max_spread_pct * bid`.

Behaviour of the code worth knowing:

- A failed event keeps the changes made before the failing call: the new best prices,
  `last_update` and the `opportunities_detected` increment.
- `orders_placed` grows only when the fill engine returns `Ok`.
- The largest random factor is 0.99, so with sizes 10 and 100 the largest order size is 99.1.
- The code recomputes the average fill time after every placed order, filled or not. This is a
  bug (see Findings); the event model uses the corrected update.

## Model

| member | source | states |
|---|---|---|
| `Pricing.SpreadPct` | examples/snipe.rs:314-316 | for `bid > 0` and `ask > bid` the spread percentage is positive, and `pct * bid == (ask - bid) * 100` |
| `Pricing.EvaluateSpread` | examples/snipe.rs:305-322 | no evaluation unless both best prices exist; invalid market iff `bid <= 0` or `ask <= bid`; otherwise it triggers iff `(ask - bid) * 100 <= max * bid` |
| `Pricing.TriggerIsCrossMultiplied` | examples/snipe.rs:316-322 | `spread_pct <= max_spread_pct` iff `(ask - bid) * 100 <= max_spread_pct * bid`, both directions |
| `Pricing.BoundarySpreadTriggers` | examples/snipe.rs:314 | bid 0.50, ask 0.51 gives exactly 2% and triggers at a 2% threshold (inclusive) |
| `Pricing.WideSpreadDoesNotTrigger` | examples/snipe.rs:316-322 | bid 0.50, ask 0.52 gives 4% and does not trigger at 2% |
| `Pricing.RandomFactor` | examples/snipe.rs:358 | the factor lies in `[0, 0.99]` and is `draw % 100` hundredths |
| `Pricing.OrderSize` | examples/snipe.rs:358-360 | for `min <= max` the size lies in `[min, max]`, strictly below `max` when `min < max`, and equals `min` when `draw % 100 == 0`; for `min > max` it lies in `(max, min]` |
| `Pricing.OrderSizeExamples` | examples/snipe.rs:358-360 | with sizes 10 and 100, draws 0, 50, 99 give 10, 55, 99.1 |
| `Pricing.CrossedBookSellsButNeverTriggers` | examples/snipe.rs:316-369 | the side is SELL iff `bid > ask`, and a crossed book is an invalid market, never an opportunity |
| `Pricing.EvaluatedMarketBuys` | examples/snipe.rs:363-369 | every evaluated market gives side BUY |
| `Pricing.ChooseSide` | examples/snipe.rs:363-369 | SELL on a crossed book, BUY otherwise; its properties are stated by `Pricing.CrossedBookSellsButNeverTriggers` and `Pricing.EvaluatedMarketBuys` |
| `Pricing.BuildRequest` | examples/snipe.rs:358-379 | the request is for the own token with slippage 1%, BUY iff `bid <= ask`, and its amount is the order size, within `[min, max]` when `min <= max` |
| `Pricing.ReplayOutcome` | examples/snipe.rs:383-409 | fails with the refusal's own error iff the refused position lies within the replayed levels; otherwise holds the replay deltas, one per level |
| `Pricing.LevelDeltas` | examples/snipe.rs:388-397 | one replay loop as a function of its levels; stated by `Pricing.LevelDeltasAt` and `Pricing.LevelDeltasSnoc` |
| `Pricing.ReplayDeltas` | examples/snipe.rs:386-409 | both replay loops, bids then asks; stated by `Pricing.ReplayDeltasShape` |
| `Pricing.LevelDeltasAt` | examples/snipe.rs:388-397 | one delta per level; the i-th carries the i-th level's price and size, the side and the sequence |
| `Pricing.LevelDeltasSnoc` | examples/snipe.rs:388-397 | replaying one more level appends exactly its delta |
| `Pricing.ReplayDeltasShape` | examples/snipe.rs:386-409 | the replay has one delta per level of both sides, bids first as BUY with sequence 1, then asks as SELL with sequence 2, same order, price and size |
| `Staleness.QuoteAge` | examples/snipe.rs:463 | saturating age: 0 when `now < last_update`, otherwise `last_update + age == now`; never above `now` |
| `Staleness.IsStale` | examples/snipe.rs:466 | the strict test `age > stale_threshold`; `Staleness.StaleIffPastDeadline` states it as a deadline, both directions |
| `Staleness.StaleIffPastDeadline` | examples/snipe.rs:463-466 | stale iff `now > last_update + stale_threshold`, both directions |
| `Staleness.StaleScenarios` | examples/snipe.rs:466 | updated 10 s ago with threshold 5 is stale; 3 s ago is fresh |
| `Statistics.InitialStats` | examples/snipe.rs:134-145 | default statistics: counters ordered, nothing filled, no volume, and the average is the mean of no latencies |
| `Statistics.AverageStep` | examples/snipe.rs:431-433 | the incremental step `(avg * (n - 1) + t) / n`; its `n >= 1` is the guard on `orders_filled - 1`, and `Statistics.AverageStepIsMean` states its property |
| `Statistics.AverageStepIsMean` | examples/snipe.rs:429-433 | the step `(avg * (n - 1) + t) / n` turns the mean of n-1 samples into the mean of n samples |
| `Statistics.RecordOrder` | examples/snipe.rs:423-427 | after an `Ok(status)`, placed grows by 1, filled by 1 iff the status is `Filled`; opportunities and volume unchanged; the average moves only on a fill |
| `Statistics.RecordOrderKeepsMean` | examples/snipe.rs:429-433 | if the average is the mean of the filled latencies, it stays so after an order is recorded |
| `Statistics.FirstFillSetsAverage` | examples/snipe.rs:431-433 | after the first filled order the average equals its own latency |
| `Statistics.U64Sub` | examples/snipe.rs:432 | u64 subtraction succeeds iff the subtrahend is at most the minuend, and then returns the difference |
| `Statistics.RecordOrderAsWritten` | examples/snipe.rs:424-433 | the bookkeeping as written panics iff no order was filled yet and this one is not filled |
| `Statistics.AsWrittenFirstPartialFillPanics` | examples/snipe.rs:424-433 | a first, partially filled order panics as written; the corrected bookkeeping only counts it as placed |
| `Statistics.AsWrittenAveragesUnfilledOrders` | examples/snipe.rs:429-433 | as written, a rejected order's latency is folded into the average as `(avg * (n - 1) + t) / n` after n fills: 10 becomes 100 after one fill, 55 after two; corrected, the average stays at 10 |
| `Statistics.AsWrittenCountersAgree` | examples/snipe.rs:423-433 | where the as-written code does not panic, its counters equal the corrected ones, and on a fill the whole result is equal |
| `Statistics.RecordTrade` | examples/snipe.rs:283 | a trade adds exactly its size to the volume and changes no other statistic |
| `StrategySpec.ExecuteSnipe` | examples/snipe.rs:355-444 | the order execution; its submitted order is described by `StrategySpec.SubmittedOrderShape` and its counters by `StrategySpec.OrdersCountedOnFillEngineAnswer` |
| `StrategySpec.OpportunityCheck` | examples/snipe.rs:305-336 | the opportunity check; stated by `StrategySpec.UntriggeredCheckChangesNothing` and `StrategySpec.TriggeredCheckCountsOnce` |
| `StrategySpec.TopOfBook` | examples/snipe.rs:249-255 | the first level's price, or the previous value for an empty side; stated by `StrategySpec.BookUpdateRecordsTopOfBook` |
| `StrategySpec.OnBookUpdate` | examples/snipe.rs:237-264 | an own book update; stated by `StrategySpec.BookErrorChangesNothing`, `StrategySpec.BookUpdateRecordsTopOfBook` and `StrategySpec.FreshAfterBookUpdate` |
| `StrategySpec.OnTrade` | examples/snipe.rs:273-294 | an own trade; stated by `StrategySpec.OwnTradeAddsVolume` |
| `StrategySpec.StaleWarning` | examples/snipe.rs:461-481 | a warning is reported iff `now > last_update + stale_threshold`, and it carries the age `now - last_update` |
| `StrategySpec.Process` | examples/snipe.rs:201-225 | the event router; stated by `StrategySpec.ForeignTokenIgnored`, `StrategySpec.HeartbeatOnlyChecksStaleness` and `StrategySpec.ProcessKeepsCountersOrdered` |
| `StrategySpec.Run` | examples/snipe.rs:640-664 | a stream of events, a failed one dropped; stated by `StrategySpec.RunKeepsCountersOrdered` and `StrategySpec.CountersOrderedFromStart` |
| `StrategySpec.ForeignTokenIgnored` | examples/snipe.rs:201-215 | book updates and trades for another token change nothing and return `Ok` |
| `StrategySpec.HeartbeatOnlyChecksStaleness` | examples/snipe.rs:217-220 | a heartbeat changes no field, returns `Ok`, and warns iff `now > last_update + threshold`, reporting the age |
| `StrategySpec.OwnTradeAddsVolume` | examples/snipe.rs:273-294 | an own trade adds `fill.size` to `total_volume` and changes nothing else |
| `StrategySpec.BookErrorChangesNothing` | examples/snipe.rs:237-246 | a book-manager error is returned unchanged and no field changes |
| `StrategySpec.BookUpdateRecordsTopOfBook` | examples/snipe.rs:248-258 | after a book update each best price is the first level's, or the previous value for an empty side, and `last_update` is `now` |
| `StrategySpec.FreshAfterBookUpdate` | examples/snipe.rs:257-258 | after a book update at `now`, no staleness warning up to `now + threshold`, and a warning at every later time |
| `StrategySpec.UntriggeredCheckChangesNothing` | examples/snipe.rs:305-322 | no two quotes, a non-positive bid, a locked or crossed book, or a spread above the threshold: `Ok` and no state change |
| `StrategySpec.TriggeredCheckCountsOnce` | examples/snipe.rs:322-332 | a triggered check adds exactly 1 to `opportunities_detected`, even if execution then fails; quotes are untouched |
| `StrategySpec.OrdersCountedOnFillEngineAnswer` | examples/snipe.rs:418-427 | placed grows by 1 only when the fill engine answered `Ok`; filled grows by 1 only on `Ok(Filled)` |
| `StrategySpec.FailedExecutionReturnsError` | examples/snipe.rs:355-420 | a triggered check returns the transient book's own error, with no order sent, when a replayed delta is refused, and the fill engine's error when it fails the order |
| `StrategySpec.SubmittedOrderShape` | examples/snipe.rs:355-420 | each submitted order is a BUY for the own token with 1% slippage, sized within `[min, max]`, against the replay of the current snapshot |
| `StrategySpec.ProcessKeepsCountersOrdered` | examples/snipe.rs:322-427 | one event keeps `filled <= placed <= opportunities` |
| `StrategySpec.RunKeepsCountersOrdered` | examples/snipe.rs:201-225 | any event stream keeps `filled <= placed <= opportunities` |
| `StrategySpec.CountersOrderedFromStart` | examples/snipe.rs:134-145 | starting from the default statistics, the counters are ordered after any stream |
| `Strategy.ReplayIntoFreshBook` | examples/snipe.rs:384-409 | the two replay loops produce exactly the replay deltas, or the transient book's error when it refuses one |
| `Strategy.SnipeStrategy.constructor` | examples/snipe.rs:159-188 | the configuration is stored; no quotes, `last_update` 0 and default statistics |
| `Strategy.SnipeStrategy.ProcessUpdate` | examples/snipe.rs:201-225 | the new state, result, submitted order and warning are those of `StrategySpec.Process`; `fillTimes` gains the latency exactly when a fill is counted; the invariant is kept |
| `Strategy.SnipeStrategy.ProcessBookUpdate` | examples/snipe.rs:237-264 | follows `StrategySpec.OnBookUpdate`; `fillTimes` gains the latency exactly when a fill is counted; the invariant is kept |
| `Strategy.SnipeStrategy.ProcessTrade` | examples/snipe.rs:273-294 | follows `StrategySpec.OnTrade`: only `total_volume` grows by the trade size |
| `Strategy.SnipeStrategy.CheckOpportunities` | examples/snipe.rs:305-336 | follows `StrategySpec.OpportunityCheck`; `fillTimes` gains the latency exactly when a fill is counted; the invariant is kept |
| `Strategy.SnipeStrategy.ExecuteSnipeOrder` | examples/snipe.rs:355-444 | follows `StrategySpec.ExecuteSnipe` with the corrected bookkeeping; `fillTimes` gains the latency exactly when a fill is counted; keeps counters ordered and the average equal to the mean of filled latencies |
| `Strategy.SnipeStrategy.CheckStaleQuotes` | examples/snipe.rs:461-481 | changes nothing and warns, with the age, iff `now > last_update + stale_threshold` |

## Left out

- Collaborators: `OrderBookManager`, `OrderBook::apply_delta` and `FillEngine::execute_market_order`
  are library code and are not modelled. Their answers, including errors, are inputs.
- The transient book is represented by the sequence of deltas it received. How the library merges
  them (for example, sequence-number checks) is not modelled.
- The second `get_book` in the order execution returns the same snapshot as the first. Nothing
  changes the book manager in between, so it gives no separate error path.
- Clock and randomness: `time::now_secs` and `rand::random::<u64>` become the inputs `now` and `draw`.
- The client id, built from `time::now_millis`, and the `chrono` timestamps of deltas are left out.
- Floating point: `avg_fill_time_ms` is an `f64` in the code and an exact `real` here. The fill
  latency from `Instant` is the input `fillTimeMs`.
- Rounding: `rust_decimal` rounds to 28 significant digits and panics on overflow. Prices, sizes
  and volume are exact reals here.
- Integer width: the `u64` counters and timestamps are unbounded naturals. Overflow after 2^64
  events is not modelled. The one `u64` underflow that matters is modelled explicitly (Findings).
- `total_pnl` is never updated (the attribution code is commented out), so it is left out.
- Logging: the `info!`/`warn!` output is left out. A staleness warning is returned as the reported age.
- `MockMarketData`, `main` and the async demo loop are left out; they only drive the strategy with
  random data. Note that `rand::random::<i64>() % 100` is signed, so the demo's price factor spans
  -1.49..0.49 rather than the commented -0.5..0.5.
- `get_stats` only returns the statistics; `Current().stats` plays its role.

## Findings

| source | as written | input that shows it | evidently intended | confidence | as-written member | corrected member |
|---|---|---|---|---|---|---|
| examples/snipe.rs:429-433 | after every placed order, filled or not, the average is recomputed with `(orders_filled - 1)` on a `u64` and divided by `orders_filled` | the first order the fill engine answers `Ok(PartiallyFilled)` or `Ok(Rejected)`: `0 - 1` underflows (a panic in debug builds; in release builds it wraps and the division by 0.0 gives infinity or NaN); later, an unfilled order's latency is folded into the average as `(avg * (n - 1) + t) / n` after n fills, so with two fills averaging 10 a rejected order of 100 ms moves it to 55 | recompute the average only when the order is `Filled`, so `orders_filled >= 1` and the average stays the mean of the filled latencies | high (not executed) | `Statistics.RecordOrderAsWritten` (`Statistics.AsWrittenFirstPartialFillPanics`, `Statistics.AsWrittenAveragesUnfilledOrders`) | `Statistics.RecordOrder` (`Statistics.RecordOrderKeepsMean`, used by `StrategySpec.ExecuteSnipe` and `Strategy.SnipeStrategy.ExecuteSnipeOrder`) |
