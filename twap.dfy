/**
 * TWAP execution: a total quantity split into `numChunks` chunks submitted one after the
 * other, with a cancel flag checked before each chunk. The registry of TWAP plans is the
 * class TwapOrders; the chunk loop is ExecuteTwapChunks, proved against RunChunks.
 */
module Twap {
  import opened Wrappers
  import opened Exchange
  import opened Validator

  /**
   * ERROR is left out: the source writes it when the loop itself raises, which takes a
   * chunk count that is not an integer; `numChunks` here is always one.
   */
  datatype TwapStatus = Active | Cancelled | Completed

  /** One entry of a plan's `errors` list; `chunk` is the 1-based chunk number of the message. */
  datatype ChunkError =
    | ChunkFailed(chunk: nat)       // the placement call returned nothing
    | NoCurrentPrice(chunk: nat)    // a LIMIT chunk found no (or a zero) current price
    | BadExecutedQty(chunk: nat)    // the response's executedQty could not be read as a number

  /** The configuration dictionary of one TWAP plan. */
  datatype TwapConfig = TwapConfig(
    twapId: string,
    symbol: string,
    totalQuantity: real,
    side: string,
    orderType: string,
    durationMinutes: real,
    numChunks: int,
    chunkSize: real,
    intervalSeconds: real,
    chunksExecuted: nat,
    totalExecuted: real,
    startTime: int,
    status: TwapStatus,
    executedOrders: seq<Order>,
    errors: seq<ChunkError>,
    endTime: Option<int>)

  /** Two configurations describe the same plan: only the progress fields may differ. */
  predicate SamePlan(a: TwapConfig, b: TwapConfig)
  {
    a.twapId == b.twapId && a.symbol == b.symbol && a.totalQuantity == b.totalQuantity
    && a.side == b.side && a.orderType == b.orderType && a.durationMinutes == b.durationMinutes
    && a.numChunks == b.numChunks && a.chunkSize == b.chunkSize
    && a.intervalSeconds == b.intervalSeconds && a.startTime == b.startTime
  }

  // ---------------------------------------------------------------------------------------
  // Creation
  // ---------------------------------------------------------------------------------------

  /** `max(1, int(duration_minutes))`: one chunk per whole minute, and at least one. */
  function DefaultChunkCount(durationMinutes: real): (n: int)
    requires durationMinutes > 0.0
    ensures n >= 1
    ensures durationMinutes >= 1.0 ==> n as real <= durationMinutes < n as real + 1.0
    ensures durationMinutes < 2.0 ==> n == 1
  {
    if durationMinutes.Floor > 1 then durationMinutes.Floor else 1
  }

  function ChunkCount(numChunks: Option<int>, durationMinutes: real): int
    requires durationMinutes > 0.0
  {
    if numChunks.Some? then numChunks.value else DefaultChunkCount(durationMinutes)
  }

  /** `if min_chunk_size and chunk_size < min_chunk_size`: an unknown or zero minimum never rejects. */
  predicate BelowMinimum(chunkSize: real, minQty: Option<real>)
  {
    minQty.Some? && minQty.value != 0.0 && chunkSize < minQty.value
  }

  // `get_min_quantity`: a read-only search over the exchange info

  /** Index of the first LOT_SIZE filter, or |filters| when there is none. */
  function FirstLotSize(filters: seq<Filter>): (j: nat)
    ensures j <= |filters|
    ensures forall k :: 0 <= k < j ==> filters[k].filterType != "LOT_SIZE"
    ensures j < |filters| ==> filters[j].filterType == "LOT_SIZE"
  {
    if filters == [] then 0
    else if filters[0].filterType == "LOT_SIZE" then 0
    else
      var j := FirstLotSize(filters[1..]);
      assert forall k :: 1 <= k < |filters| ==> filters[k] == filters[1..][k - 1];
      j + 1
  }

  /** Index of the first entry named `name` that has a LOT_SIZE filter, or |symbols| when there is none. */
  function FirstWithLotSize(symbols: seq<SymbolInfo>, name: string): (i: nat)
    ensures i <= |symbols|
    ensures forall k :: 0 <= k < i ==>
              symbols[k].symbol != name || FirstLotSize(symbols[k].filters) == |symbols[k].filters|
    ensures i < |symbols| ==>
              symbols[i].symbol == name && FirstLotSize(symbols[i].filters) < |symbols[i].filters|
  {
    if symbols == [] then 0
    else if symbols[0].symbol == name && FirstLotSize(symbols[0].filters) < |symbols[0].filters| then 0
    else
      var i := FirstWithLotSize(symbols[1..], name);
      assert forall k :: 1 <= k < |symbols| ==> symbols[k] == symbols[1..][k - 1];
      i + 1
  }

  /**
   * The minimum lot quantity of `symbol`: the minQty of the first LOT_SIZE filter of the
   * first entry with that name that has one. None when there is no such filter or the
   * exchange-info call fails.
   */
  function MinQuantity(info: ExchangeInfo, symbol: string): (q: Option<real>)
    ensures q.Some? <==>
              info.Some? && exists i :: 0 <= i < |info.value| && info.value[i].symbol == Upper(symbol)
                                        && FirstLotSize(info.value[i].filters) < |info.value[i].filters|
    ensures q.Some? ==>
              exists i, j :: && 0 <= i < |info.value| && info.value[i].symbol == Upper(symbol)
                             && 0 <= j < |info.value[i].filters|
                             && info.value[i].filters[j].filterType == "LOT_SIZE"
                             && q.value == info.value[i].filters[j].minQty
                             // no earlier entry of that name has a LOT_SIZE filter
                             && (forall k, m :: 0 <= k < i && info.value[k].symbol == Upper(symbol)
                                                && 0 <= m < |info.value[k].filters| ==>
                                                  info.value[k].filters[m].filterType != "LOT_SIZE")
                             // and no earlier filter of this entry is one
                             && (forall m :: 0 <= m < j ==> info.value[i].filters[m].filterType != "LOT_SIZE")
  {
    match info
    case None => None
    case Some(symbols) =>
      var i := FirstWithLotSize(symbols, Upper(symbol));
      if i < |symbols| then
        var f := symbols[i].filters;
        var j := FirstLotSize(f);
        assert forall k :: 0 <= k < i && symbols[k].symbol == Upper(symbol) ==>
                 FirstLotSize(symbols[k].filters) == |symbols[k].filters|;
        Some(f[j].minQty)
      else None
  }

  /** The inputs pass every check `place_twap_order` makes before registering the plan. */
  predicate TwapAccepted(symbol: string, totalQuantity: Value, side: string, durationMinutes: Value,
                         numChunks: Option<int>, symbols: ExchangeInfo, lotInfo: ExchangeInfo)
    ensures TwapAccepted(symbol, totalQuantity, side, durationMinutes, numChunks, symbols, lotInfo) ==>
              && totalQuantity.Number? && totalQuantity.x > 0.0
              && durationMinutes.Number? && durationMinutes.x > 0.0
              && symbols.Some?
              && (exists i :: 0 <= i < |symbols.value| && symbols.value[i].symbol == Upper(symbol)
                                                       && symbols.value[i].status == "TRADING")
              && (Upper(side) == "BUY" || Upper(side) == "SELL")
              && (numChunks.None? ==> ChunkCount(numChunks, durationMinutes.x) >= 1)
              && (numChunks.Some? ==> numChunks.value != 0)
  {
    && ValidatePositiveNumber(totalQuantity)
    && ValidatePositiveNumber(durationMinutes)
    && ValidateSymbol(symbols, symbol)
    && Upper(side) in ["BUY", "SELL"]
    // a zero chunk count raises ZeroDivisionError, which the handler turns into None
    && ChunkCount(numChunks, durationMinutes.x) != 0
    && !BelowMinimum(totalQuantity.x / ChunkCount(numChunks, durationMinutes.x) as real,
                     MinQuantity(lotInfo, symbol))
  }

  /**
   * The plan `place_twap_order` registers and returns, or None. `symbols` answers the
   * symbol validation, `lotInfo` the minimum-quantity lookup; the id and the start time
   * are given.
   */
  function CreateTwapConfig(symbol: string, totalQuantity: Value, side: string, durationMinutes: Value,
                            numChunks: Option<int>, orderType: string,
                            symbols: ExchangeInfo, lotInfo: ExchangeInfo,
                            twapId: string, now: int): (r: Option<TwapConfig>)
    ensures (|| !ValidatePositiveNumber(totalQuantity) || !ValidatePositiveNumber(durationMinutes)
             || !ValidateSymbol(symbols, symbol) || Upper(side) !in ["BUY", "SELL"]) ==> r.None?
    ensures r.Some? <==> TwapAccepted(symbol, totalQuantity, side, durationMinutes, numChunks, symbols, lotInfo)
    ensures r.Some? ==>
              var c := r.value;
              && c.numChunks != 0
              && (numChunks.Some? ==> c.numChunks == numChunks.value)
              && (numChunks.None? ==> c.numChunks == DefaultChunkCount(durationMinutes.x))
              && (numChunks.None? ==> 1 <= c.numChunks && (c.numChunks == 1 || c.numChunks as real <= durationMinutes.x))
              // the nominal chunks add up to the total, and the intervals to the duration
              && c.chunkSize * c.numChunks as real == totalQuantity.x
              && c.intervalSeconds * c.numChunks as real == durationMinutes.x * 60.0
              && !BelowMinimum(c.chunkSize, MinQuantity(lotInfo, symbol))
              && c.twapId == twapId && c.symbol == Upper(symbol) && c.side == Upper(side)
              && c.orderType == Upper(orderType) && c.totalQuantity == totalQuantity.x
              && c.durationMinutes == durationMinutes.x && c.startTime == now
              && c.status == Active && c.chunksExecuted == 0 && c.totalExecuted == 0.0
              && c.executedOrders == [] && c.errors == [] && c.endTime.None?
  {
    if !TwapAccepted(symbol, totalQuantity, side, durationMinutes, numChunks, symbols, lotInfo) then None
    else
      var n := ChunkCount(numChunks, durationMinutes.x);
      var chunkSize := totalQuantity.x / n as real;
      var intervalSeconds := (durationMinutes.x * 60.0) / n as real;
      Some(TwapConfig(twapId, Upper(symbol), totalQuantity.x, Upper(side), Upper(orderType),
                      durationMinutes.x, n, chunkSize, intervalSeconds, 0, 0.0, now, Active, [], [], None))
  }

  // ---------------------------------------------------------------------------------------
  // One chunk
  // ---------------------------------------------------------------------------------------

  /** What the outside world does during one iteration of the chunk loop. */
  datatype ChunkEvent = ChunkEvent(
    cancelRequested: bool,    // cancel_twap_order ran before this iteration's cancel check
    price: Option<real>,      // answer of get_current_price (read only for LIMIT chunks)
    response: Option<Order>)  // answer of the placement call; None when it raised

  /** The size of chunk `k` (0-based): nominal, except that the last one takes what is left. */
  function ChunkQuantity(c: TwapConfig, k: int): (q: real)
    ensures k != c.numChunks - 1 ==> q == c.chunkSize
    ensures k == c.numChunks - 1 ==> c.totalExecuted + q == c.totalQuantity
  {
    if k == c.numChunks - 1 then c.totalQuantity - c.totalExecuted else c.chunkSize
  }

  /**
   * Price of a LIMIT chunk: 0.1% above the current price for BUY, 0.1% below otherwise,
   * so the order is priced to fill while the slippage stays within 0.1%.
   */
  function LimitPrice(side: string, current: real): (p: real)
    ensures current > 0.0 && side == "BUY" ==> p > current
    ensures current > 0.0 && side != "BUY" ==> 0.0 < p < current
    ensures p - current == current / 1000.0 || current - p == current / 1000.0
  {
    if side == "BUY" then current * 1.001 else current * 0.999
  }

  /** The order chunk `k` submits; None when a LIMIT chunk raises before submitting. */
  function ChunkRequest(c: TwapConfig, k: int, price: Option<real>): (r: Option<OrderRequest>)
    ensures r.None? <==> c.orderType != "MARKET" && (price.None? || price.value == 0.0)
    ensures r.Some? ==> && r.value.symbol == c.symbol && r.value.side == c.side
                        && r.value.quantity == ChunkQuantity(c, k) && r.value.stopPrice.None?
    ensures r.Some? && c.orderType == "MARKET" ==>
              r.value.orderType == "MARKET" && r.value.price.None? && r.value.timeInForce.None?
    ensures r.Some? && c.orderType != "MARKET" ==>
              && r.value.orderType == "LIMIT" && r.value.timeInForce == Some("GTC")
              && r.value.price == Some(LimitPrice(c.side, price.value))
  {
    if c.orderType == "MARKET" then
      Some(OrderRequest(c.symbol, c.side, "MARKET", ChunkQuantity(c, k), None, None, None))
    else if price.None? || price.value == 0.0 then None
    else
      Some(OrderRequest(c.symbol, c.side, "LIMIT", ChunkQuantity(c, k),
                        Some(LimitPrice(c.side, price.value)), None, Some("GTC")))
  }

  /** The effect on the plan of chunk `k` once the cancel check has let it through. */
  function ApplyChunk(c: TwapConfig, k: nat, e: ChunkEvent): (d: TwapConfig)
    ensures SamePlan(d, c) && d.status == c.status && d.endTime == c.endTime
  {
    match ChunkRequest(c, k, e.price)
    case None => c.(errors := c.errors + [NoCurrentPrice(k + 1)])
    case Some(_) =>
      match e.response
      case None => c.(errors := c.errors + [ChunkFailed(k + 1)])
      case Some(order) =>
        // `chunks_executed += 1` happens before `float(executedQty)` can raise
        match order.executedQty
        case Malformed =>
          c.(chunksExecuted := c.chunksExecuted + 1, errors := c.errors + [BadExecutedQty(k + 1)])
        case Missing =>
          c.(chunksExecuted := c.chunksExecuted + 1,
             totalExecuted := c.totalExecuted + ChunkQuantity(c, k),
             executedOrders := c.executedOrders + [order])
        case Reported(q) =>
          c.(chunksExecuted := c.chunksExecuted + 1,
             totalExecuted := c.totalExecuted + q,
             executedOrders := c.executedOrders + [order])
  }

  /**
   * One chunk appends exactly one order or one error, advances `chunksExecuted` by at most
   * one and at least by the orders appended, and leaves the plan and its status alone.
   * By outcome: a chunk that submits nothing, or whose placement returns nothing, records
   * its error and changes no counter; a filled chunk counts, appends its order and adds its
   * `executedQty` to the total, or the size it was sent with when the answer has none; an
   * unreadable `executedQty` counts the chunk but adds nothing to the total.
   */
  lemma ApplyChunkStep(c: TwapConfig, k: nat, e: ChunkEvent)
    ensures var d := ApplyChunk(c, k, e);
            && SamePlan(d, c) && d.status == c.status
            && c.executedOrders <= d.executedOrders && c.errors <= d.errors
            && (|d.executedOrders| - |c.executedOrders|) + (|d.errors| - |c.errors|) == 1
            && c.chunksExecuted + (|d.executedOrders| - |c.executedOrders|) <= d.chunksExecuted <= c.chunksExecuted + 1
    ensures var d := ApplyChunk(c, k, e);
            ChunkRequest(c, k, e.price).None? ==>
              && d.errors == c.errors + [NoCurrentPrice(k + 1)]
              && d.chunksExecuted == c.chunksExecuted && d.totalExecuted == c.totalExecuted
              && d.executedOrders == c.executedOrders
    ensures var d := ApplyChunk(c, k, e);
            ChunkRequest(c, k, e.price).Some? && e.response.None? ==>
              && d.errors == c.errors + [ChunkFailed(k + 1)]
              && d.chunksExecuted == c.chunksExecuted && d.totalExecuted == c.totalExecuted
              && d.executedOrders == c.executedOrders
    ensures var d := ApplyChunk(c, k, e);
            ChunkRequest(c, k, e.price).Some? && e.response.Some? && !e.response.value.executedQty.Malformed? ==>
              && d.chunksExecuted == c.chunksExecuted + 1
              && d.executedOrders == c.executedOrders + [e.response.value]
              && d.errors == c.errors
              && d.totalExecuted == c.totalExecuted + (match e.response.value.executedQty
                                                       case Reported(q) => q
                                                       case _ => ChunkQuantity(c, k))
    ensures var d := ApplyChunk(c, k, e);
            ChunkRequest(c, k, e.price).Some? && e.response.Some? && e.response.value.executedQty.Malformed? ==>
              && d.errors == c.errors + [BadExecutedQty(k + 1)]
              && d.chunksExecuted == c.chunksExecuted + 1 && d.totalExecuted == c.totalExecuted
              && d.executedOrders == c.executedOrders
  {
  }

  function Submitted(req: Option<OrderRequest>): seq<OrderRequest>
  {
    if req.Some? then [req.value] else []
  }

  // ---------------------------------------------------------------------------------------
  // The chunk loop as a function
  // ---------------------------------------------------------------------------------------

  /** The plan after the loop, the orders it submitted in order, and how many chunks it went through. */
  datatype RunOutcome = RunOutcome(config: TwapConfig, submitted: seq<OrderRequest>, iterations: nat)

  /** Iterations `k` .. `numChunks - 1` of the chunk loop, stopping at the first cancel check that fires. */
  function RunChunks(c: TwapConfig, events: seq<ChunkEvent>, k: nat): (r: RunOutcome)
    requires c.numChunks <= |events|
    ensures SamePlan(r.config, c) && r.config.endTime == c.endTime
    ensures |r.submitted| <= r.iterations
    ensures k + r.iterations <= c.numChunks || r.iterations == 0
    decreases c.numChunks - k
  {
    if k >= c.numChunks then RunOutcome(c, [], 0)
    else
      var checked := if events[k].cancelRequested then c.(status := Cancelled) else c;
      if checked.status == Cancelled then RunOutcome(checked, [], 0)
      else
        var rest := RunChunks(ApplyChunk(checked, k, events[k]), events, k + 1);
        RunOutcome(rest.config, Submitted(ChunkRequest(checked, k, events[k].price)) + rest.submitted,
                   rest.iterations + 1)
  }

  /** One iteration of the chunk loop that the cancel check lets through keeps the loop's invariant. */
  lemma LoopStep(start: TwapConfig, c: TwapConfig, events: seq<ChunkEvent>, k: nat,
                 submitted: seq<OrderRequest>, iterations: nat)
    requires c.numChunks <= |events| && start.numChunks <= |events| && k < c.numChunks
    requires !events[k].cancelRequested && c.status != Cancelled
    requires var rest := RunChunks(c, events, k);
             RunChunks(start, events, 0) == RunOutcome(rest.config, submitted + rest.submitted, iterations + rest.iterations)
    ensures var next := ApplyChunk(c, k, events[k]);
            var rest := RunChunks(next, events, k + 1);
            RunChunks(start, events, 0)
              == RunOutcome(rest.config, (submitted + Submitted(ChunkRequest(c, k, events[k].price))) + rest.submitted,
                            iterations + 1 + rest.iterations)
  {
    var rest := RunChunks(ApplyChunk(c, k, events[k]), events, k + 1);
    var req := Submitted(ChunkRequest(c, k, events[k].price));
    assert submitted + (req + rest.submitted) == (submitted + req) + rest.submitted;
  }

  /** The first iteration from `k` on whose cancel check fires, or `n` when none does. */
  function FirstCancel(events: seq<ChunkEvent>, k: nat, n: int): (j: nat)
    requires n <= |events|
    ensures k <= j && (j == k || j <= n)
    ensures forall i :: k <= i < j ==> !events[i].cancelRequested
    ensures k <= j < n ==> events[j].cancelRequested
    decreases n - k
  {
    if k >= n then k
    else if events[k].cancelRequested then k
    else
      FirstCancel(events, k + 1, n)
  }

  /**
   * The loop goes through exactly the iterations before the first cancel, whatever the
   * exchange answers; a failed chunk never ends it. From the cancel on nothing is
   * submitted, and the plan then says CANCELLED.
   */
  lemma {:induction false} RunStopsAtCancel(c: TwapConfig, events: seq<ChunkEvent>, k: nat)
    requires c.numChunks <= |events|
    requires c.status != Cancelled
    ensures var out := RunChunks(c, events, k);
            && out.iterations == FirstCancel(events, k, c.numChunks) - k
            && |out.submitted| <= out.iterations
            && (out.config.status == Cancelled <==> k + out.iterations < c.numChunks)
            && (out.config.status != Cancelled ==> out.config.status == c.status)
    decreases c.numChunks - k
  {
    if k < c.numChunks && !events[k].cancelRequested {
      var next := ApplyChunk(c, k, events[k]);
      assert next.status == c.status && next.numChunks == c.numChunks;
      RunStopsAtCancel(next, events, k + 1);
    }
  }

  /**
   * Progress only accumulates: each iteration appends exactly one order or one error,
   * `chunksExecuted` grows by at most one per iteration and at least by the orders
   * appended, the lists keep what they held, and the plan itself does not change.
   */
  lemma {:induction false} RunCounters(c: TwapConfig, events: seq<ChunkEvent>, k: nat)
    requires c.numChunks <= |events|
    ensures var out := RunChunks(c, events, k);
            var d := out.config;
            && SamePlan(d, c)
            && c.executedOrders <= d.executedOrders && c.errors <= d.errors
            && (|d.executedOrders| - |c.executedOrders|) + (|d.errors| - |c.errors|) == out.iterations
            && c.chunksExecuted + (|d.executedOrders| - |c.executedOrders|) <= d.chunksExecuted
            && d.chunksExecuted <= c.chunksExecuted + out.iterations
            && (k <= c.numChunks ==> k + out.iterations <= c.numChunks)
            && (k > c.numChunks ==> out.iterations == 0)
    decreases c.numChunks - k
  {
    if k < c.numChunks {
      var checked := if events[k].cancelRequested then c.(status := Cancelled) else c;
      if checked.status != Cancelled {
        ApplyChunkStep(checked, k, events[k]);
        RunCounters(ApplyChunk(checked, k, events[k]), events, k + 1);
      }
    }
  }

  /**
   * For a freshly created plan: at most `numChunks` chunks are counted as executed, every
   * appended order was counted, and exactly one order or error is recorded per chunk
   * before the first cancel.
   */
  lemma {:induction false} FreshRunBounds(c: TwapConfig, events: seq<ChunkEvent>)
    requires c.numChunks <= |events|
    requires c.status == Active && c.chunksExecuted == 0 && c.executedOrders == [] && c.errors == []
    ensures var d := RunChunks(c, events, 0).config;
            && d.chunksExecuted <= (if c.numChunks > 0 then c.numChunks else 0)
            && |d.executedOrders| <= d.chunksExecuted
            && |d.executedOrders| + |d.errors| == FirstCancel(events, 0, c.numChunks)
  {
    RunStopsAtCancel(c, events, 0);
    RunCounters(c, events, 0);
  }

  /** An event in which chunk `j` of plan `c` goes through and fills its nominal size. */
  predicate FillsNominal(c: TwapConfig, e: ChunkEvent)
  {
    && !e.cancelRequested
    && (c.orderType != "MARKET" ==> e.price.Some? && e.price.value != 0.0)
    && e.response.Some?
    && (e.response.value.executedQty.Missing? || e.response.value.executedQty == Reported(c.chunkSize))
  }

  /**
   * When every remaining chunk fills its nominal size, the last chunk's remainder is
   * exactly one nominal chunk, every submitted order has the nominal size, no error is
   * recorded, and the plan ends with the whole quantity executed.
   */
  lemma {:induction false} RunFillsTotal(c: TwapConfig, events: seq<ChunkEvent>, k: nat)
    requires c.numChunks <= |events| && k <= c.numChunks
    requires c.status != Cancelled
    requires c.chunkSize * c.numChunks as real == c.totalQuantity
    requires c.totalExecuted == c.chunkSize * k as real
    requires forall j :: k <= j < c.numChunks ==> FillsNominal(c, events[j])
    ensures var out := RunChunks(c, events, k);
            && out.config.totalExecuted == c.totalQuantity
            && out.config.chunksExecuted == c.chunksExecuted + (c.numChunks - k)
            && out.config.errors == c.errors
            && |out.submitted| == c.numChunks - k
            && forall i :: 0 <= i < |out.submitted| ==> out.submitted[i].quantity == c.chunkSize
    decreases c.numChunks - k
  {
    if k < c.numChunks {
      var e := events[k];
      var next := ApplyChunk(c, k, e);
      var req := ChunkRequest(c, k, e.price);
      FillsNominalStep(c, k, e);
      forall j | k + 1 <= j < next.numChunks ensures FillsNominal(next, events[j]) {
        assert FillsNominal(c, events[j]);
      }
      RunFillsTotal(next, events, k + 1);
      assert RunChunks(c, events, k).submitted == [req.value] + RunChunks(next, events, k + 1).submitted;
    }
  }

  /** One chunk that fills its nominal size, on a plan that has executed `k` nominal chunks so far. */
  lemma FillsNominalStep(c: TwapConfig, k: nat, e: ChunkEvent)
    requires k < c.numChunks && FillsNominal(c, e)
    requires c.chunkSize * c.numChunks as real == c.totalQuantity
    requires c.totalExecuted == c.chunkSize * k as real
    ensures var next := ApplyChunk(c, k, e);
            var req := ChunkRequest(c, k, e.price);
            && req.Some? && req.value.quantity == c.chunkSize
            && next.totalExecuted == c.chunkSize * (k + 1) as real
            && next.chunksExecuted == c.chunksExecuted + 1 && next.errors == c.errors
  {
    assert ChunkQuantity(c, k) == c.chunkSize by {
      if k == c.numChunks - 1 {
        assert c.totalQuantity - c.totalExecuted == c.chunkSize * (c.numChunks - k) as real;
      }
    }
    ApplyChunkStep(c, k, e);
    assert c.chunkSize * (k + 1) as real == c.chunkSize * k as real + c.chunkSize;
  }

  /**
   * The plan as the last iteration (`numChunks - 1`) finds it once its cancel check has let
   * it through, or None when the loop stops before reaching it.
   */
  function LastChunkState(c: TwapConfig, events: seq<ChunkEvent>, k: nat): (s: Option<TwapConfig>)
    requires c.numChunks <= |events|
    ensures s.Some? ==> 0 < c.numChunks
    ensures s.Some? ==> SamePlan(s.value, c) && s.value.status == c.status && s.value.status != Cancelled
    decreases c.numChunks - k
  {
    if k >= c.numChunks then None
    else
      var checked := if events[k].cancelRequested then c.(status := Cancelled) else c;
      if checked.status == Cancelled then None
      else if k == c.numChunks - 1 then Some(checked)
      else LastChunkState(ApplyChunk(checked, k, events[k]), events, k + 1)
  }

  /** Every order sent before the last one carries `chunkSize`. */
  lemma {:induction false} RunChunkSizes(c: TwapConfig, events: seq<ChunkEvent>, k: nat)
    requires c.numChunks <= |events|
    ensures var out := RunChunks(c, events, k);
            forall i :: 0 <= i < |out.submitted| - 1 ==> out.submitted[i].quantity == c.chunkSize
    decreases c.numChunks - k
  {
    if k < c.numChunks && !events[k].cancelRequested && c.status != Cancelled {
      var next := ApplyChunk(c, k, events[k]);
      RunChunksCons(c, events, k);
      if k < c.numChunks - 1 {
        RunChunkSizes(next, events, k + 1);
        assert var o := RunChunks(next, events, k + 1);
               forall i :: 0 <= i < |o.submitted| - 1 ==> o.submitted[i].quantity == next.chunkSize;
        PrependSized(Submitted(ChunkRequest(c, k, events[k].price)), RunChunks(next, events, k + 1).submitted, c.chunkSize);
      }
    }
  }

  /** When the last chunk is not reached, or submits nothing, every order sent carries `chunkSize`. */
  lemma {:induction false} RunChunkSizesNoLast(c: TwapConfig, events: seq<ChunkEvent>, k: nat)
    requires c.numChunks <= |events|
    requires var last := LastChunkState(c, events, k);
             last.None? || ChunkRequest(last.value, c.numChunks - 1, events[c.numChunks - 1].price).None?
    ensures var out := RunChunks(c, events, k);
            forall i :: 0 <= i < |out.submitted| ==> out.submitted[i].quantity == c.chunkSize
    decreases c.numChunks - k
  {
    if k < c.numChunks && !events[k].cancelRequested && c.status != Cancelled {
      var next := ApplyChunk(c, k, events[k]);
      RunChunksCons(c, events, k);
      if k < c.numChunks - 1 {
        RunChunkSizesNoLast(next, events, k + 1);
        assert var o := RunChunks(next, events, k + 1);
               forall i :: 0 <= i < |o.submitted| ==> o.submitted[i].quantity == next.chunkSize;
        PrependSized(Submitted(ChunkRequest(c, k, events[k].price)), RunChunks(next, events, k + 1).submitted, c.chunkSize);
      }
    }
  }

  /** One iteration that the cancel check lets through, as RunChunks and LastChunkState see it. */
  lemma RunChunksCons(c: TwapConfig, events: seq<ChunkEvent>, k: nat)
    requires c.numChunks <= |events| && k < c.numChunks
    requires !events[k].cancelRequested && c.status != Cancelled
    ensures var next := ApplyChunk(c, k, events[k]);
            && RunChunks(c, events, k).submitted
                 == Submitted(ChunkRequest(c, k, events[k].price)) + RunChunks(next, events, k + 1).submitted
            && (k < c.numChunks - 1 ==> LastChunkState(c, events, k) == LastChunkState(next, events, k + 1))
            && (k == c.numChunks - 1 ==> LastChunkState(c, events, k) == Some(c)
                                         && RunChunks(next, events, k + 1) == RunOutcome(next, [], 0))
  {
  }

  /** An order of size `size` (or none) put in front keeps "all of size `size`", with or without the last element. */
  lemma PrependSized(head: seq<OrderRequest>, rest: seq<OrderRequest>, size: real)
    requires |head| <= 1 && forall i :: 0 <= i < |head| ==> head[i].quantity == size
    ensures (forall i :: 0 <= i < |rest| - 1 ==> rest[i].quantity == size) ==>
              forall i :: 0 <= i < |head + rest| - 1 ==> (head + rest)[i].quantity == size
    ensures (forall i :: 0 <= i < |rest| ==> rest[i].quantity == size) ==>
              forall i :: 0 <= i < |head + rest| ==> (head + rest)[i].quantity == size
  {
  }

  /**
   * When the last chunk is reached, the plan ends as that chunk leaves it, and the order it
   * submits, if any, is the last one sent and carries the total less what had been executed
   * when it started.
   */
  lemma {:induction false} RunLastChunk(c: TwapConfig, events: seq<ChunkEvent>, k: nat)
    requires c.numChunks <= |events|
    requires LastChunkState(c, events, k).Some?
    ensures var out := RunChunks(c, events, k);
            var last := LastChunkState(c, events, k).value;
            var req := ChunkRequest(last, c.numChunks - 1, events[c.numChunks - 1].price);
            && out.config == ApplyChunk(last, c.numChunks - 1, events[c.numChunks - 1])
            && (req.Some? ==>
                  && |out.submitted| > 0
                  && out.submitted[|out.submitted| - 1] == req.value
                  && req.value.quantity == c.totalQuantity - last.totalExecuted)
    decreases c.numChunks - k
  {
    var checked := if events[k].cancelRequested then c.(status := Cancelled) else c;
    var next := ApplyChunk(checked, k, events[k]);
    if k < c.numChunks - 1 {
      RunLastChunk(next, events, k + 1);
      assert LastChunkState(c, events, k) == LastChunkState(next, events, k + 1);
    } else {
      assert RunChunks(next, events, k + 1) == RunOutcome(next, [], 0);
    }
  }

  /** The last chunk is reached exactly when no cancel check fires before it. */
  lemma {:induction false} LastChunkReached(c: TwapConfig, events: seq<ChunkEvent>, k: nat)
    requires c.numChunks <= |events| && k < c.numChunks && c.status != Cancelled
    ensures LastChunkState(c, events, k).Some? <==> FirstCancel(events, k, c.numChunks) == c.numChunks
    decreases c.numChunks - k
  {
    if !events[k].cancelRequested && k < c.numChunks - 1 {
      LastChunkReached(ApplyChunk(c, k, events[k]), events, k + 1);
    }
  }

  /**
   * Whatever happened to the earlier chunks, a last chunk that is submitted and fills in
   * full (no `executedQty` in the answer, or exactly the quantity sent) brings
   * `totalExecuted` to the whole quantity.
   */
  lemma {:induction false} RunLastChunkCompletes(c: TwapConfig, events: seq<ChunkEvent>, k: nat)
    requires c.numChunks <= |events|
    requires LastChunkState(c, events, k).Some?
    requires var last := LastChunkState(c, events, k);
             var e := events[c.numChunks - 1];
             && ChunkRequest(last.value, c.numChunks - 1, e.price).Some?
             && e.response.Some?
             && (|| e.response.value.executedQty.Missing?
                 || e.response.value.executedQty == Reported(c.totalQuantity - last.value.totalExecuted))
    ensures RunChunks(c, events, k).config.totalExecuted == c.totalQuantity
  {
    RunLastChunk(c, events, k);
    var last := LastChunkState(c, events, k).value;
    ApplyChunkStep(last, c.numChunks - 1, events[c.numChunks - 1]);
  }

  /**
   * 1.0 BTCUSDT bought over 10 minutes in 5 MARKET chunks: chunks of 0.2 every 120 seconds,
   * registered ACTIVE with nothing executed, provided the symbol trades and its minimum lot
   * is at most 0.2.
   */
  lemma TwapSizingExample(symbols: ExchangeInfo, lotInfo: ExchangeInfo)
    requires ValidateSymbol(symbols, "BTCUSDT")
    requires MinQuantity(lotInfo, "BTCUSDT").None? || MinQuantity(lotInfo, "BTCUSDT").value <= 0.2
    ensures var r := CreateTwapConfig("BTCUSDT", Number(1.0), "BUY", Number(10.0), Some(5), "MARKET",
                                      symbols, lotInfo, "TWAP_1", 0);
            && r.Some? && r.value.chunkSize == 0.2 && r.value.intervalSeconds == 120.0
            && r.value.status == Active && r.value.chunksExecuted == 0
  {
    UpperOfUpperCase("BUY");
  }

  /**
   * Five MARKET chunks of which the third fails: one error is recorded for chunk 3, the
   * fourth and fifth chunks are still submitted, and four chunks count as executed.
   */
  lemma {:induction false} TwapFailedChunkExample(c: TwapConfig, orders: seq<Order>)
    requires c.numChunks == 5 && c.orderType == "MARKET" && c.status == Active
    requires c.chunksExecuted == 0 && c.executedOrders == [] && c.errors == []
    requires |orders| == 5 && forall i :: 0 <= i < 5 ==> orders[i].executedQty.Missing?
    ensures var events := seq(5, i requires 0 <= i < 5 =>
                             ChunkEvent(false, None, if i == 2 then None else Some(orders[i])));
            var out := RunChunks(c, events, 0);
            && out.iterations == 5 && |out.submitted| == 5
            && out.config.chunksExecuted == 4
            && out.config.errors == [ChunkFailed(3)]
            && out.config.executedOrders == [orders[0], orders[1], orders[3], orders[4]]
  {
    var events := seq(5, i requires 0 <= i < 5 =>
                      ChunkEvent(false, None, if i == 2 then None else Some(orders[i])));
    var c1 := ApplyChunk(c, 0, events[0]);
    var c2 := ApplyChunk(c1, 1, events[1]);
    var c3 := ApplyChunk(c2, 2, events[2]);
    var c4 := ApplyChunk(c3, 3, events[3]);
    var c5 := ApplyChunk(c4, 4, events[4]);
    assert c2.chunksExecuted == 2 && c2.errors == [];
    assert c3.chunksExecuted == 2 && c3.errors == [ChunkFailed(3)];
    assert c5.chunksExecuted == 4 && c5.executedOrders == [orders[0], orders[1], orders[3], orders[4]];
    assert RunChunks(c5, events, 5) == RunOutcome(c5, [], 0);
    assert |RunChunks(c4, events, 4).submitted| == 1;
    assert |RunChunks(c3, events, 3).submitted| == 2;
    assert |RunChunks(c2, events, 2).submitted| == 3;
    assert |RunChunks(c1, events, 1).submitted| == 4;
  }

  // ---------------------------------------------------------------------------------------
  // The registry
  // ---------------------------------------------------------------------------------------

  class TwapOrders {
    /** `active_twap_orders`: every plan ever registered, by id, whatever its status. */
    var activeTwapOrders: map<string, TwapConfig>

    constructor ()
      ensures activeTwapOrders == map[]
    {
      activeTwapOrders := map[];
    }

    /**
     * `place_twap_order`: validate, size, register under `twapId` and return the plan; an
     * existing entry under the same id is replaced. The background run is started by the
     * caller with ExecuteTwapChunks.
     */
    method PlaceTwapOrder(symbol: string, totalQuantity: Value, side: string, durationMinutes: Value,
                          numChunks: Option<int>, orderType: string,
                          symbols: ExchangeInfo, lotInfo: ExchangeInfo, twapId: string, now: int)
      returns (r: Option<TwapConfig>)
      modifies this
      ensures r == CreateTwapConfig(symbol, totalQuantity, side, durationMinutes, numChunks, orderType,
                                    symbols, lotInfo, twapId, now)
      ensures r.None? ==> activeTwapOrders == old(activeTwapOrders)
      ensures r.Some? ==> activeTwapOrders == old(activeTwapOrders)[twapId := r.value]
    {
      r := CreateTwapConfig(symbol, totalQuantity, side, durationMinutes, numChunks, orderType,
                            symbols, lotInfo, twapId, now);
      if r.Some? {
        activeTwapOrders := activeTwapOrders[twapId := r.value];
      }
    }

    /**
     * `_execute_twap_chunks`: the chunk loop over the plan registered under `twapId`.
     * `events[k]` is what happens around iteration k. Whether it ran to the end or broke
     * off at a cancel, the plan is then marked COMPLETED with the end time `now`.
     */
    method ExecuteTwapChunks(twapId: string, events: seq<ChunkEvent>, now: int)
      returns (submitted: seq<OrderRequest>)
      requires twapId in activeTwapOrders ==> activeTwapOrders[twapId].numChunks <= |events|
      modifies this
      ensures twapId !in old(activeTwapOrders) ==> activeTwapOrders == old(activeTwapOrders) && submitted == []
      ensures twapId in old(activeTwapOrders) ==>
                var out := RunChunks(old(activeTwapOrders)[twapId], events, 0);
                && submitted == out.submitted
                && activeTwapOrders == old(activeTwapOrders)[twapId := out.config.(status := Completed, endTime := Some(now))]
    {
      submitted := [];
      if twapId !in activeTwapOrders {
        return;
      }
      var config := activeTwapOrders[twapId];
      ghost var start := config;
      ghost var iterations := 0;
      var chunk := 0;
      while chunk < config.numChunks
        invariant 0 <= chunk && (chunk <= config.numChunks || chunk == 0)
        invariant config.numChunks == start.numChunks
        invariant activeTwapOrders == old(activeTwapOrders)[twapId := config]
        invariant var rest := RunChunks(config, events, chunk);
                  RunChunks(start, events, 0)
                    == RunOutcome(rest.config, submitted + rest.submitted, iterations + rest.iterations)
        decreases config.numChunks - chunk
      {
        ghost var top := config;
        if events[chunk].cancelRequested {
          // a concurrent cancel_twap_order marks the shared entry
          config := config.(status := Cancelled);
          activeTwapOrders := activeTwapOrders[twapId := config];
        }
        if config.status == Cancelled {
          break;
        }
        var request := ChunkRequest(config, chunk, events[chunk].price);
        ghost var before := submitted;
        submitted := submitted + Submitted(request);
        config := ApplyChunk(config, chunk, events[chunk]);
        activeTwapOrders := activeTwapOrders[twapId := config];
        iterations := iterations + 1;
        chunk := chunk + 1;
        LoopStep(start, top, events, chunk - 1, before, iterations - 1);
      }
      config := config.(status := Completed, endTime := Some(now));
      activeTwapOrders := activeTwapOrders[twapId := config];
    }

    /** `get_twap_status`: a copy of the plan, or None for an unknown id. */
    function GetTwapStatus(twapId: string): (r: Option<TwapConfig>)
      reads this
      ensures r.Some? <==> twapId in activeTwapOrders
      ensures r.Some? ==> r.value == activeTwapOrders[twapId]
    {
      if twapId !in activeTwapOrders then None else Some(activeTwapOrders[twapId])
    }

    /** `cancel_twap_order`: mark a known plan CANCELLED, whatever its status; False for an unknown id. */
    method CancelTwapOrder(twapId: string) returns (ok: bool)
      modifies this
      ensures ok <==> twapId in old(activeTwapOrders)
      ensures !ok ==> activeTwapOrders == old(activeTwapOrders)
      ensures ok ==> activeTwapOrders == old(activeTwapOrders)[twapId := old(activeTwapOrders)[twapId].(status := Cancelled)]
    {
      if twapId !in activeTwapOrders {
        return false;
      }
      activeTwapOrders := activeTwapOrders[twapId := activeTwapOrders[twapId].(status := Cancelled)];
      return true;
    }

    /** `get_active_twap_orders`: exactly the plans whose status is ACTIVE. */
    function GetActiveTwapOrders(): (r: map<string, TwapConfig>)
      reads this
      ensures forall id :: id in r <==> id in activeTwapOrders && activeTwapOrders[id].status == Active
      ensures forall id :: id in r ==> r[id] == activeTwapOrders[id]
    {
      map id | id in activeTwapOrders && activeTwapOrders[id].status == Active :: activeTwapOrders[id]
    }
  }
}
