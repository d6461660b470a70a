# Multi-leg strategy core of a Binance Futures trading bot, in Dafny

This project models the strategy layer of the bot. That layer sits on top of the exchange's
single-order call and covers:

- **TWAP** (time-weighted average price) plans, which split a quantity into chunks submitted one
  after another with a cooperative cancel flag;
- **OCO** (one-cancels-other) pairs of a take-profit and a stop-loss order, with caller-driven
  reconciliation;
- guarded single **stop** and **take-profit** orders, and the three-leg **bracket** (entry,
  stop-loss, take-profit) with rollback;
- the **validator**: positive numbers and tradable symbols.

The exchange is an oracle. Every answer a remote call would give is an input of the operation
that makes the call:

- an exchange-info snapshot, or None when the call raises;
- a current price;
- each placement response, or None when the call raises;
- each order status;
- each cancel acknowledgement.

What the strategies send is an output. Operations return the order requests they submit, and the
ids they send cancels for, in submission order. Ids and clock readings are given as inputs.
Quantities and prices are `real`.

Files, one module each:

- `wrappers.dfy`: `Option`.
- `exchange.dfy`: the gateway records, ASCII upper-casing, and the 0.5% stop-limit buffer that
  the OCO and bracket code share.
- `validator.dfy`: `src/validator.py`.
- `twap.dfy`: `src/advanced/twa.py`. The registry is the class `TwapOrders` over a
  `map<string, TwapConfig>`. The chunk loop `ExecuteTwapChunks` is a `while` loop proved equal
  to the pure `RunChunks`, and the lemmas about the loop are proved on `RunChunks`.
- `oco.dfy`: `src/advanced/oco.py`. The class `OcoOrders` over a `map<string, OcoEntry>`, with the
  price-ordering check and the reconciliation table as pure functions.
- `stop_limit.dfy`: `src/advanced/stop_limit.py`. The bracket is a method whose rollback is a
  loop over the legs already placed.

Where the code and the intended design differ, the model follows the code:

- After the TWAP loop ends, the plan is always marked COMPLETED. This includes a loop that
  stopped because the plan was cancelled, so the CANCELLED status is overwritten
  (`ExecuteTwapChunks`). `cancel_twap_order` also marks an already COMPLETED plan CANCELLED.
  Terminal states are therefore not final.
- When both OCO legs report FILLED, reconciliation still cancels the stop-loss leg. If that
  cancel succeeds, the pair is reported as a filled take-profit (`Reconcile`).
- The OCO price-ordering check is skipped when no current price is available, or when the price
  is 0. Every other side than SELL is checked with the BUY inequalities.
- The default chunk count truncates the duration (`int`). It is not rounded.
- A zero chunk count makes `place_twap_order` return None, through the division error.
- A minimum quantity of 0 never rejects a plan.
- When the bracket fails, it returns None and does not return the partial list of legs.
- The bracket validates nothing and does not wait for the entry to fill before placing the
  protective legs.
- When an OCO stop-loss submission fails after the take-profit was placed, the take-profit is
  neither cancelled nor recorded.
- A chunk response whose `executedQty` cannot be converted to a number still counts the chunk as
  executed. The exception comes after `chunks_executed += 1`, so an error is recorded but no
  order is appended.

## Model

| member | source | states |
|---|---|---|
| `Validator.ValidatePositiveNumber` | src/validator.py:3-18 | true exactly for an int/float strictly above zero |
| `Validator.SymbolNames` | src/validator.py:34 | a name is in the set iff some listed entry carries it |
| `Validator.AllMatchesTrading` | src/validator.py:42-47 | the scan succeeds iff every entry carrying the name has status TRADING |
| `Validator.ValidateSymbol` | src/validator.py:20-54 | true iff the exchange info was fetched, the upper-cased symbol is listed, and every entry with that name is TRADING; a failed fetch gives false |
| `Validator.ValidateSymbolIgnoresCase` | src/validator.py:36-43 | validating a symbol and its upper-case form give the same answer |
| `Exchange.UpperChar` | src/validator.py:36 | a lower-case ASCII letter becomes its upper-case letter; every other character is unchanged |
| `Exchange.Upper` | src/validator.py:36 | the same length, with every character upper-cased |
| `Exchange.StopLimitPrice` | src/advanced/oco.py:76 | the stop-loss limit is the trigger moved by 0.5% of it: down for SELL, up for any other side, for every trigger value (so below a positive SELL trigger and above a positive BUY one) |
| `Twap.DefaultChunkCount` | src/advanced/twa.py:40-42 | the default count is at least 1, is 1 under two minutes, and is otherwise the whole number of minutes |
| `Twap.FirstLotSize` | src/advanced/twa.py:227-229 | the index of the first LOT_SIZE filter, or the length when there is none |
| `Twap.FirstWithLotSize` | src/advanced/twa.py:225-228 | the index of the first entry with the name that has a LOT_SIZE filter; no earlier entry with that name has one |
| `Twap.MinQuantity` | src/advanced/twa.py:221-233 | Some iff some entry with the upper-cased name has a LOT_SIZE filter, and then it is the minQty of the first such filter of the first such entry; a failed fetch gives None |
| `Twap.TwapAccepted` | src/advanced/twa.py:29-52 | an accepted plan has a positive quantity and duration, a listed TRADING symbol, side BUY or SELL, and a non-zero chunk count (at least 1 when omitted) |
| `Twap.CreateTwapConfig` | src/advanced/twa.py:27-74 | an omitted chunk count becomes DefaultChunkCount of the duration; None on a non-positive quantity or duration, an untradable symbol, a side other than BUY/SELL, a zero chunk count, or a chunk below a known non-zero minimum; otherwise the chunks add up to the total and the intervals to the duration, the status is ACTIVE with zero progress and empty lists, and symbol, side and order type are upper-cased |
| `Twap.LimitPrice` | src/advanced/twa.py:125-129 | for a positive current price, a BUY chunk is priced above it and a SELL chunk below it, each by exactly 0.1% |
| `Twap.ChunkQuantity` | src/advanced/twa.py:112-115 | every chunk but the last has chunk_size; the last one is what brings total_executed up to total_quantity |
| `Twap.ChunkRequest` | src/advanced/twa.py:117-131 | nothing is submitted exactly for a LIMIT chunk without a non-zero price; otherwise the order has the plan's symbol, side and ChunkQuantity; a MARKET chunk has no price, a LIMIT chunk is GTC at LimitPrice of the current price |
| `Twap.ApplyChunk` | src/advanced/twa.py:112-152 | one chunk changes only the progress fields: the plan, its status and its end time stay |
| `Twap.ApplyChunkStep` | src/advanced/twa.py:117-152 | a chunk that submits nothing, or whose placement returns nothing, records its error and changes no counter; a filled chunk raises chunks_executed by one, appends its order and adds its executedQty to total_executed, or the chunk's own size when the answer has none; an unreadable executedQty counts the chunk, records an error and adds nothing |
| `Twap.RunChunks` | src/advanced/twa.py:104-152 | the loop leaves the plan and its end time alone, submits at most one order per iteration, and runs at most num_chunks iterations |
| `Twap.FirstCancel` | src/advanced/twa.py:104-109 | the first iteration whose cancel check fires: none before it fires, and it fires when it is in range |
| `Twap.RunStopsAtCancel` | src/advanced/twa.py:104-109 | the loop runs exactly the iterations before the first cancel, whatever the exchange answers; nothing is submitted from the cancel on; the status is CANCELLED iff it stopped early |
| `Twap.RunCounters` | src/advanced/twa.py:104-152 | progress only accumulates: the lists only grow, by one entry per iteration in total; chunks_executed grows by at most the iterations and at least by the orders appended; the plan is unchanged; at most num_chunks iterations |
| `Twap.FreshRunBounds` | src/advanced/twa.py:104-152 | for a new plan, chunks_executed <= num_chunks, and one order or error is recorded per chunk before the first cancel |
| `Twap.RunFillsTotal` | src/advanced/twa.py:111-135 | when every chunk fills its nominal size, the last chunk's remainder is exactly one nominal chunk, every order has that size, no error is recorded, and the whole quantity ends up executed |
| `Twap.LastChunkState` | src/advanced/twa.py:104-115 | the plan as the last iteration finds it: the same plan, not cancelled |
| `Twap.LastChunkReached` | src/advanced/twa.py:104-109 | the last iteration is reached exactly when no cancel check fires before it |
| `Twap.RunChunkSizes` | src/advanced/twa.py:112-131 | every order sent before the last one carries chunk_size |
| `Twap.RunChunkSizesNoLast` | src/advanced/twa.py:112-131 | when the last iteration is not reached or submits nothing, every order sent carries chunk_size |
| `Twap.RunLastChunk` | src/advanced/twa.py:112-136 | when the last iteration is reached, the plan ends as that chunk leaves it, and its order, if sent, is the last one and carries total_quantity less the total_executed it started from |
| `Twap.RunLastChunkCompletes` | src/advanced/twa.py:112-136 | whatever the earlier chunks did, a submitted last chunk that fills in full brings total_executed to total_quantity |
| `Twap.TwapSizingExample` | src/advanced/twa.py:41-74 | 1.0 over 10 minutes in 5 chunks gives chunks of 0.2 every 120 s, ACTIVE, with nothing executed |
| `Twap.TwapFailedChunkExample` | src/advanced/twa.py:133-152 | with chunk 3 of 5 failing: one error for chunk 3, chunks 4 and 5 still submitted, 4 chunks executed |
| `Twap.TwapOrders.constructor` | src/advanced/twa.py:9-12 | the registry starts empty |
| `Twap.TwapOrders.PlaceTwapOrder` | src/advanced/twa.py:14-91 | returns CreateTwapConfig's answer, and registers it under the id only on success; nothing changes on failure |
| `Twap.TwapOrders.ExecuteTwapChunks` | src/advanced/twa.py:93-164 | submits exactly what RunChunks submits and leaves RunChunks' plan in the registry, then marks it COMPLETED even after a cancel; an unknown id changes nothing |
| `Twap.TwapOrders.GetTwapStatus` | src/advanced/twa.py:196-200 | None for an unknown id, otherwise the registered plan |
| `Twap.TwapOrders.CancelTwapOrder` | src/advanced/twa.py:202-215 | false and no change for an unknown id; otherwise true, only that entry changes, and only its status, to CANCELLED |
| `Twap.TwapOrders.GetActiveTwapOrders` | src/advanced/twa.py:217-219 | exactly the registered plans whose status is ACTIVE, unchanged |
| `Oco.PriceOrderingOk` | src/advanced/oco.py:35-51 | passes when no non-zero price is known; otherwise SELL needs stop-loss < current < take-profit, any other side take-profit < current < stop-loss |
| `Oco.OcoPriceExample` | src/advanced/oco.py:36-44 | SELL at 30000: take-profit 31000 with stop-loss 29000 passes, take-profit 29500 fails |
| `Oco.OcoAccepted` | src/advanced/oco.py:26-51 | an accepted pair has positive quantity and prices, a listed TRADING symbol, and, when a non-zero price is known, prices that differ from it and from each other |
| `Oco.TakeProfitLeg` | src/advanced/oco.py:54-62 | a GTC TAKE_PROFIT request with the upper-cased symbol and side and the given quantity, triggered and limited at the take-profit price |
| `Oco.StopLossLeg` | src/advanced/oco.py:70-78 | a GTC STOP request with the upper-cased symbol and side, the given quantity, stopPrice = the stop-loss price and price = StopLimitPrice of it: 0.5% below for SELL, 0.5% above otherwise |
| `Oco.Reconcile` | src/advanced/oco.py:130-150 | take-profit FILLED cancels the stop-loss (also when both filled); else stop-loss FILLED cancels the take-profit; else nothing is cancelled; the pair is evicted iff a cancel was sent and succeeded, reporting the filled leg; otherwise both statuses are reported |
| `Oco.SuccessfulCancels` | src/advanced/oco.py:166-188 | only the cancels that succeeded, take-profit before stop-loss |
| `Oco.OcoOrders.constructor` | src/advanced/oco.py:7-10 | the registry starts empty |
| `Oco.OcoOrders.PlaceOcoOrder` | src/advanced/oco.py:12-107 | nothing is submitted when a check fails; otherwise the take-profit goes first and the stop-loss only if it succeeded; a pair holding both order ids is registered iff both succeed, and otherwise nothing changes |
| `Oco.OcoOrders.CheckAndCancelOco` | src/advanced/oco.py:109-154 | None and no change for an unknown id or a failed status lookup; otherwise Reconcile's report, its cancel, and eviction exactly when it evicts |
| `Oco.OcoOrders.CancelOcoOrders` | src/advanced/oco.py:156-197 | None for an unknown id; otherwise cancels take-profit then stop-loss, returns the successful ones, and always removes the pair |
| `Oco.OcoOrders.GetActiveOcoOrders` | src/advanced/oco.py:199-201 | every registered pair, unfiltered |
| `StopLimit.SingleLegAccepted` | src/advanced/stop_limit.py:23-30 | an accepted order has positive quantity, stop and limit prices, and a listed TRADING symbol |
| `StopLimit.PlaceTriggeredOrder` | src/advanced/stop_limit.py:21-51 | a request is sent iff quantity, trigger and limit are positive numbers and the symbol is tradable; it is triggered at the stop price and limited at the limit price; the exchange's answer is returned only if sent |
| `StopLimit.PlaceStopLossOrder` | src/advanced/stop_limit.py:10-51 | a request is sent iff the checks pass, and it is exactly the GTC STOP order with the upper-cased symbol and side, the quantity, price = limit and stopPrice = stop; the exchange's answer is returned only if sent |
| `StopLimit.PlaceTakeProfitOrder` | src/advanced/stop_limit.py:53-91 | a request is sent iff the checks pass, and it is exactly the GTC TAKE_PROFIT order with the upper-cased symbol and side, the quantity, price = limit and stopPrice = stop; the exchange's answer is returned only if sent |
| `StopLimit.OppositeSide` | src/advanced/stop_limit.py:122 | SELL after a BUY entry, BUY after any other side; so always BUY or SELL, and never the upper-cased entry side |
| `StopLimit.BracketRequests` | src/advanced/stop_limit.py:108-149 | three GTC requests, all for the upper-cased symbol and the quantity: a LIMIT entry on the given side at the entry price, with no stop price; a STOP on the opposite side triggered at the stop-loss price and limited at StopLimitPrice of it (below for a SELL stop, above for a BUY stop); a TAKE_PROFIT on the opposite side triggered and limited at the take-profit price |
| `StopLimit.PlaceStopLimitBracket` | src/advanced/stop_limit.py:93-162 | legs are submitted in order until one fails; success returns the three (role, order) pairs in order; a failure sends one cancel per placed leg, in order, and returns None |

## Left out

- Threads and sleeps. The TWAP daemon thread and `time.sleep` are not modelled. The race between
  `cancel_twap_order` and the loop is modelled only as a per-iteration flag, `ChunkEvent.cancelRequested`.
  The intermediate registry states the loop goes through cannot be observed between its iterations.
- PlaceTwapOrder: the returned configuration is modelled as a value. In the source, the dict
  that `place_twap_order` returns is the same object as the registry entry, and that aliasing is
  not modelled.
- GetTwapStatus: the source returns a shallow `.copy()` (src/advanced/twa.py:200), whose
  `executed_orders` and `errors` lists are still the live plan's and keep growing while the
  loop runs. The model returns a value snapshot, so that sharing is not modelled.
- CheckAndCancelOco: each status lookup is reduced to its status string, and a filled leg is
  reported by its registered order id. The source reports the whole lookup answer
  (`tp_order` / `sl_order`, src/advanced/oco.py:136 and :146) as `filled_order`.
- The TWAP ERROR status. The source writes it (src/advanced/twa.py:160-164) when the loop itself
  raises, for instance from `range()` given a chunk count that is not an integer, such as `5.0`.
  Creation accepts such a count. Here `numChunks` is an `Option<int>`, so that path is not modelled.
- Ids, clocks and logging. Timestamp-derived ids and `datetime.now()` are inputs, and id
  collisions are not modelled (a repeated id overwrites the entry). Logging and printing are left out.
- Floating point. NaN, infinity, rounding in `chunk_size`, and `str(price)` formatting are not
  modelled; `real` arithmetic is exact.
- Shape errors in exchange data. The model's records always carry the keys the code reads, so a
  KeyError inside exchange data is not modelled.
- Upper: ASCII letters only. Python's Unicode case mapping is not modelled.
- RunCounters: it does not claim that `total_executed` only grows. The amount added is whatever
  the exchange reports, or the chunk size when it reports nothing. The last chunk's size can be
  negative once earlier chunks over-executed.
- Python booleans. They count as numbers for `validate_positive_number`; `Value` does not model them.
- The CLI, credential loading and thin wrappers. `main.py`, `src/bot.py`, `src/sample_bot.py`,
  `src/market_orders.py` and `src/limit_orders.py` are not part of this model.
