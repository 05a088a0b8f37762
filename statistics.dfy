/** The strategy's running statistics and their update laws. */
module Statistics {
  import opened MarketTypes

  /** `SnipeStats`. The u64 counters are unbounded here; `totalPnl` is left
      out because nothing ever updates it. */
  datatype Stats = Stats(
    opportunitiesDetected: nat,
    ordersPlaced: nat,
    ordersFilled: nat,
    totalVolume: real,
    avgFillTimeMs: real)

  /** `SnipeStats::default()`: nothing counted, no volume, and the average
      is the mean of no latencies. */
  function InitialStats(): (s: Stats)
    ensures CountersOrdered(s) && s.ordersFilled == 0
    ensures s.totalVolume == 0.0 && s.avgFillTimeMs == Mean([])
  {
    Stats(0, 0, 0, 0.0, 0.0)
  }

  /** Every filled order was placed and every placed order was an opportunity. */
  predicate CountersOrdered(s: Stats)
  {
    s.ordersFilled <= s.ordersPlaced <= s.opportunitiesDetected
  }

  function Sum(xs: seq<real>): real
  {
    if xs == [] then 0.0 else Sum(xs[..|xs| - 1]) + xs[|xs| - 1]
  }

  /** Arithmetic mean; 0 for no samples, the value the average starts from. */
  function Mean(xs: seq<real>): real
  {
    if xs == [] then 0.0 else Sum(xs) / |xs| as real
  }

  /** The incremental-mean step `(avg * (n - 1) + latency) / n` for the n-th sample. */
  function AverageStep(avg: real, n: nat, latency: real): real
    requires n >= 1
  {
    (avg * (n - 1) as real + latency) / n as real
  }

  /** The incremental step applied to the mean of `xs` yields the mean of `xs + [t]`. */
  lemma AverageStepIsMean(xs: seq<real>, t: real)
    ensures AverageStep(Mean(xs), |xs| + 1, t) == Mean(xs + [t])
  {
    var n := |xs| as real;
    assert (xs + [t])[..|xs|] == xs;
    assert Sum(xs + [t]) == Sum(xs) + t;
    if xs != [] {
      assert Mean(xs) * n == Sum(xs);
    }
    assert Mean(xs) * n == Sum(xs);
  }

  /** Statistics after the fill engine answered `Ok(status)`: one more order
      placed; a `Filled` status also counts one more fill and folds its
      latency into the average. The average moves only on a fill. */
  function RecordOrder(s: Stats, status: FillStatus, latency: real): (t: Stats)
    ensures t.ordersPlaced == s.ordersPlaced + 1
    ensures t.ordersFilled == if status == Filled then s.ordersFilled + 1 else s.ordersFilled
    ensures t.opportunitiesDetected == s.opportunitiesDetected && t.totalVolume == s.totalVolume
    ensures status != Filled ==> t.avgFillTimeMs == s.avgFillTimeMs
  {
    if status == Filled then
      var filled := s.ordersFilled + 1;
      s.(ordersPlaced := s.ordersPlaced + 1,
         ordersFilled := filled,
         avgFillTimeMs := AverageStep(s.avgFillTimeMs, filled, latency))
    else
      s.(ordersPlaced := s.ordersPlaced + 1)
  }

  /** If the average is the mean of the latencies of the filled orders, it
      stays so after an order is recorded. */
  lemma RecordOrderKeepsMean(s: Stats, fillTimes: seq<real>, status: FillStatus, latency: real)
    requires |fillTimes| == s.ordersFilled && s.avgFillTimeMs == Mean(fillTimes)
    ensures var t := RecordOrder(s, status, latency);
      var times := if status == Filled then fillTimes + [latency] else fillTimes;
      |times| == t.ordersFilled && t.avgFillTimeMs == Mean(times)
  {
    if status == Filled {
      AverageStepIsMean(fillTimes, latency);
    }
  }

  /** After one filled order the average is exactly its latency. */
  lemma FirstFillSetsAverage(latency: real)
    ensures RecordOrder(InitialStats(), Filled, latency).avgFillTimeMs == latency
  {
  }

  /** `a - b` on u64 in a debug build: `None` is the overflow panic. */
  function U64Sub(a: nat, b: nat): (r: Option<nat>)
    ensures r.Some? <==> b <= a
    ensures r.Some? ==> r.value + b == a
  {
    if b <= a then Some(a - b) else None
  }

  /** The bookkeeping as the code writes it: the average is recomputed
      after every placed order, filled or not, with `orders_filled - 1` on a
      u64. `None` is the panic of that subtraction, which happens exactly
      when no order has been filled yet and this one is not filled either. */
  function RecordOrderAsWritten(s: Stats, status: FillStatus, latency: real): (r: Option<Stats>)
    ensures r.None? <==> s.ordersFilled == 0 && status != Filled
  {
    var filled := if status == Filled then s.ordersFilled + 1 else s.ordersFilled;
    match U64Sub(filled, 1)
    case None => None
    case Some(_) =>
      Some(s.(ordersPlaced := s.ordersPlaced + 1,
              ordersFilled := filled,
              avgFillTimeMs := AverageStep(s.avgFillTimeMs, filled, latency)))
  }

  /** Concretely: a first order that is only partially filled panics. */
  lemma AsWrittenFirstPartialFillPanics()
    ensures RecordOrderAsWritten(InitialStats(), PartiallyFilled, 7.0) == None
    ensures RecordOrder(InitialStats(), PartiallyFilled, 7.0) == Stats(0, 1, 0, 0.0, 0.0)
  {
  }

  /** Even without a panic the as-written average is not the mean of the fill
      latencies: an unfilled order's latency is folded in as
      `(avg * (n - 1) + t) / n` after n fills. After one fill in 10 ms a
      rejected order taking 100 ms moves it to 100; after two fills averaging
      10 ms it moves to 55. The corrected average stays at 10. */
  lemma AsWrittenAveragesUnfilledOrders()
    ensures var first := RecordOrder(InitialStats(), Filled, 10.0);
      first.avgFillTimeMs == 10.0 &&
      RecordOrderAsWritten(first, Rejected, 100.0).Some? &&
      RecordOrderAsWritten(first, Rejected, 100.0).value.avgFillTimeMs == 100.0 &&
      RecordOrder(first, Rejected, 100.0).avgFillTimeMs == 10.0
    ensures var second := Stats(2, 2, 2, 0.0, 10.0);
      RecordOrderAsWritten(second, Rejected, 100.0).Some? &&
      RecordOrderAsWritten(second, Rejected, 100.0).value.avgFillTimeMs == 55.0 &&
      RecordOrder(second, Rejected, 100.0).avgFillTimeMs == 10.0
  {
  }

  /** Wherever the as-written bookkeeping does not panic, its counters agree
      with the corrected one; only the average differs. */
  lemma AsWrittenCountersAgree(s: Stats, status: FillStatus, latency: real)
    requires RecordOrderAsWritten(s, status, latency).Some?
    ensures var w := RecordOrderAsWritten(s, status, latency).value;
      var t := RecordOrder(s, status, latency);
      w.ordersPlaced == t.ordersPlaced && w.ordersFilled == t.ordersFilled &&
      w.opportunitiesDetected == t.opportunitiesDetected && w.totalVolume == t.totalVolume &&
      (status == Filled ==> w == t)
  {
  }

  /** A market trade of `size` adds to the traded volume and nothing else. */
  function RecordTrade(s: Stats, size: real): (t: Stats)
    ensures t.totalVolume - s.totalVolume == size
    ensures t.(totalVolume := s.totalVolume) == s
  {
    s.(totalVolume := s.totalVolume + size)
  }
}
