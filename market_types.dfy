/** Values exchanged between the snipe strategy and its market-data feed,
    its order-book manager and its fill engine.

    Prices and sizes are exact decimals in the program; here they are `real`.
    Token identifiers are strings. */
module MarketTypes {

  datatype Option<T> = None | Some(value: T)

  /** Errors raised by the collaborators the strategy calls: the order-book
      manager or a transient order book (`BookOperationFailed`) and the fill
      engine (`SimulationFailed`). The strategy never raises one of its own. */
  datatype Error = BookOperationFailed | SimulationFailed

  /** `Result<T>` of the library, specialised to its error type; every strategy
      operation returns `Result<()>`. */
  datatype Result<T> = Ok(value: T) | Err(error: Error)

  datatype Side = BUY | SELL

  /** One price level of one side of a book. */
  datatype Level = Level(price: real, size: real)

  /** What the order-book manager answers for a token: bid levels best
      (highest) first, ask levels best (lowest) first. */
  datatype BookSnapshot = BookSnapshot(bids: seq<Level>, asks: seq<Level>)

  /** An incremental book update. The wall-clock timestamp the program attaches
      is not modelled. */
  datatype OrderDelta = OrderDelta(tokenId: string, side: Side, price: real, size: real, sequence: nat)

  /** A trade seen on the market feed. */
  datatype FillEvent = FillEvent(tokenId: string, side: Side, price: real, size: real)

  /** Status of a simulated market order; only `Filled` is told apart by the strategy. */
  datatype FillStatus = Filled | PartiallyFilled | Rejected

  /** The synthetic market order the strategy hands to the fill engine
      (the time-derived client identifier is not modelled). */
  datatype MarketOrderRequest = MarketOrderRequest(tokenId: string, side: Side, amount: real, slippageTolerance: Option<real>)

  /** Inbound events; `OtherMessage` stands for the feed's other variants,
      which the strategy ignores. */
  datatype StreamMessage =
    | BookUpdate(delta: OrderDelta)
    | Trade(fill: FillEvent)
    | Heartbeat(timestamp: nat)
    | OtherMessage
}
