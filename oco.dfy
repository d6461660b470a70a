/**
 * One-Cancels-Other pairs: a take-profit and a stop-loss order on the same quantity,
 * registered together; a caller-driven check cancels the survivor once one of them fills.
 */
module Oco {
  import opened Wrappers
  import opened Exchange
  import opened Validator

  /** The record kept in `active_oco_orders`. */
  datatype OcoEntry = OcoEntry(
    symbol: string,
    takeProfitOrderId: int,
    stopLossOrderId: int,
    quantity: real,
    side: string,
    createdTime: int)

  /** What `place_oco_order` returns on success. */
  datatype OcoResult = OcoResult(
    ocoId: string,
    symbol: string,
    takeProfitOrder: Order,
    stopLossOrder: Order,
    quantity: real,
    side: string)

  /** What `check_and_cancel_oco` reports for a known pair. */
  datatype OcoCheck =
    | Filled(filled: Role, cancelled: Role, filledOrderId: int)
    | BothActive(tpStatus: string, slStatus: string)

  /**
   * The price-ordering rule, applied only when a non-zero current price is known: closing
   * with SELL needs the stop-loss below and the take-profit above the current price, any
   * other side the reverse.
   */
  function PriceOrderingOk(side: string, takeProfitPrice: real, stopLossPrice: real,
                           currentPrice: Option<real>): (ok: bool)
    ensures currentPrice.None? || currentPrice.value == 0.0 ==> ok
    ensures currentPrice.Some? && currentPrice.value != 0.0 && Upper(side) == "SELL" ==>
              (ok <==> stopLossPrice < currentPrice.value < takeProfitPrice)
    ensures currentPrice.Some? && currentPrice.value != 0.0 && Upper(side) != "SELL" ==>
              (ok <==> takeProfitPrice < currentPrice.value < stopLossPrice)
  {
    if currentPrice.None? || currentPrice.value == 0.0 then true
    else if Upper(side) == "SELL" then
      if takeProfitPrice <= currentPrice.value then false
      else if stopLossPrice >= currentPrice.value then false
      else true
    else
      if takeProfitPrice >= currentPrice.value then false
      else if stopLossPrice <= currentPrice.value then false
      else true
  }

  /**
   * Closing a long BTCUSDT position with SELL at a current price of 30000: a take-profit
   * at 31000 with a stop-loss at 29000 passes, a take-profit at 29500 is rejected.
   */
  lemma OcoPriceExample()
    ensures PriceOrderingOk("SELL", 31000.0, 29000.0, Some(30000.0))
    ensures !PriceOrderingOk("SELL", 29500.0, 29000.0, Some(30000.0))
  {
  }

  /** Every check `place_oco_order` makes before it submits anything. */
  predicate OcoAccepted(symbol: string, quantity: Value, takeProfitPrice: Value, stopLossPrice: Value,
                        side: string, symbols: ExchangeInfo, currentPrice: Option<real>)
    ensures OcoAccepted(symbol, quantity, takeProfitPrice, stopLossPrice, side, symbols, currentPrice) ==>
              && quantity.Number? && quantity.x > 0.0
              && takeProfitPrice.Number? && takeProfitPrice.x > 0.0
              && stopLossPrice.Number? && stopLossPrice.x > 0.0
              && symbols.Some?
              && (exists i :: 0 <= i < |symbols.value| && symbols.value[i].symbol == Upper(symbol)
                                                       && symbols.value[i].status == "TRADING")
              && (currentPrice.Some? && currentPrice.value != 0.0 ==>
                    takeProfitPrice.x != currentPrice.value && stopLossPrice.x != currentPrice.value
                    && takeProfitPrice.x != stopLossPrice.x)
  {
    && ValidatePositiveNumber(quantity)
    && ValidatePositiveNumber(takeProfitPrice)
    && ValidatePositiveNumber(stopLossPrice)
    && ValidateSymbol(symbols, symbol)
    && PriceOrderingOk(side, takeProfitPrice.x, stopLossPrice.x, currentPrice)
  }

  /** The take-profit leg: triggers and limits at the take-profit price. */
  function TakeProfitLeg(symbol: string, quantity: real, takeProfitPrice: real, side: string): (req: OrderRequest)
    ensures req.orderType == "TAKE_PROFIT" && req.price == req.stopPrice == Some(takeProfitPrice)
    ensures req.timeInForce == Some("GTC")
    ensures req.side == Upper(side) && req.symbol == Upper(symbol) && req.quantity == quantity
  {
    OrderRequest(Upper(symbol), Upper(side), "TAKE_PROFIT", quantity,
                 Some(takeProfitPrice), Some(takeProfitPrice), Some("GTC"))
  }

  /** The stop-loss leg: triggers at the stop-loss price, limits 0.5% beyond it. */
  function StopLossLeg(symbol: string, quantity: real, stopLossPrice: real, side: string): (req: OrderRequest)
    ensures req.orderType == "STOP" && req.stopPrice == Some(stopLossPrice)
    ensures req.timeInForce == Some("GTC")
    ensures req.price == Some(StopLimitPrice(stopLossPrice, Upper(side)))
    ensures stopLossPrice > 0.0 && Upper(side) == "SELL" ==> req.price.Some? && req.price.value < stopLossPrice
    ensures stopLossPrice > 0.0 && Upper(side) != "SELL" ==> req.price.Some? && req.price.value > stopLossPrice
    ensures req.side == Upper(side) && req.symbol == Upper(symbol) && req.quantity == quantity
  {
    OrderRequest(Upper(symbol), Upper(side), "STOP", quantity,
                 Some(StopLimitPrice(stopLossPrice, Upper(side))), Some(stopLossPrice), Some("GTC"))
  }

  /** The outcome of one reconciliation of a known pair. */
  datatype Reconciliation = Reconciliation(cancelSent: Option<int>, evict: bool, report: OcoCheck)

  /**
   * The decision table of `check_and_cancel_oco`, given both legs' statuses and whether the
   * one cancel it sends succeeds. A filled take-profit wins, even when the stop-loss has
   * filled too; the pair leaves the registry only when the cancel went through.
   */
  function Reconcile(e: OcoEntry, tpStatus: string, slStatus: string, cancelSucceeds: bool): (d: Reconciliation)
    ensures tpStatus == "FILLED" ==> d.cancelSent == Some(e.stopLossOrderId)
    ensures tpStatus != "FILLED" && slStatus == "FILLED" ==> d.cancelSent == Some(e.takeProfitOrderId)
    ensures tpStatus != "FILLED" && slStatus != "FILLED" ==> d.cancelSent.None?
    ensures d.evict <==> d.cancelSent.Some? && cancelSucceeds
    ensures d.evict && tpStatus == "FILLED" ==> d.report == Filled(TakeProfit, StopLoss, e.takeProfitOrderId)
    ensures d.evict && tpStatus != "FILLED" ==> d.report == Filled(StopLoss, TakeProfit, e.stopLossOrderId)
    ensures !d.evict ==> d.report == BothActive(tpStatus, slStatus)
  {
    var both := BothActive(tpStatus, slStatus);
    if tpStatus == "FILLED" then
      if cancelSucceeds then Reconciliation(Some(e.stopLossOrderId), true, Filled(TakeProfit, StopLoss, e.takeProfitOrderId))
      else Reconciliation(Some(e.stopLossOrderId), false, both)
    else if slStatus == "FILLED" then
      if cancelSucceeds then Reconciliation(Some(e.takeProfitOrderId), true, Filled(StopLoss, TakeProfit, e.stopLossOrderId))
      else Reconciliation(Some(e.takeProfitOrderId), false, both)
    else Reconciliation(None, false, both)
  }

  /** The acknowledgements of `cancel_oco_orders`, take-profit first, keeping only the cancels that succeeded. */
  function SuccessfulCancels(tpCancel: Option<Order>, slCancel: Option<Order>): (rs: seq<(Role, Order)>)
    ensures |rs| == (if tpCancel.Some? then 1 else 0) + (if slCancel.Some? then 1 else 0)
    ensures forall i :: 0 <= i < |rs| ==>
              (rs[i].0 == TakeProfit && tpCancel == Some(rs[i].1)) || (rs[i].0 == StopLoss && slCancel == Some(rs[i].1))
    ensures tpCancel.Some? ==> rs[0] == (TakeProfit, tpCancel.value)
    ensures slCancel.Some? ==> rs[|rs| - 1] == (StopLoss, slCancel.value)
  {
    (if tpCancel.Some? then [(TakeProfit, tpCancel.value)] else [])
    + (if slCancel.Some? then [(StopLoss, slCancel.value)] else [])
  }

  class OcoOrders {
    /** `active_oco_orders`: the registered pairs by id. */
    var activeOcoOrders: map<string, OcoEntry>

    constructor ()
      ensures activeOcoOrders == map[]
    {
      activeOcoOrders := map[];
    }

    /**
     * `place_oco_order`: validate, submit the take-profit leg, then the stop-loss leg, and
     * register the pair under `ocoId` only when both were accepted. `submitted` lists the
     * placement calls made, in order; a failed call ends the operation with None and
     * leaves an already placed take-profit leg on the exchange.
     */
    method PlaceOcoOrder(symbol: string, quantity: Value, takeProfitPrice: Value, stopLossPrice: Value,
                         side: string, symbols: ExchangeInfo, currentPrice: Option<real>,
                         tpResponse: Option<Order>, slResponse: Option<Order>, ocoId: string, now: int)
      returns (r: Option<OcoResult>, submitted: seq<OrderRequest>)
      modifies this
      ensures !OcoAccepted(symbol, quantity, takeProfitPrice, stopLossPrice, side, symbols, currentPrice) ==>
                submitted == [] && r.None?
      ensures OcoAccepted(symbol, quantity, takeProfitPrice, stopLossPrice, side, symbols, currentPrice) ==>
                var tp := TakeProfitLeg(symbol, quantity.x, takeProfitPrice.x, side);
                var sl := StopLossLeg(symbol, quantity.x, stopLossPrice.x, side);
                submitted == if tpResponse.None? then [tp] else [tp, sl]
      ensures r.Some? <==> OcoAccepted(symbol, quantity, takeProfitPrice, stopLossPrice, side, symbols, currentPrice)
                           && tpResponse.Some? && slResponse.Some?
      ensures r.None? ==> activeOcoOrders == old(activeOcoOrders)
      ensures r.Some? ==>
                && r.value == OcoResult(ocoId, Upper(symbol), tpResponse.value, slResponse.value, quantity.x, Upper(side))
                && activeOcoOrders == old(activeOcoOrders)[ocoId := OcoEntry(Upper(symbol), tpResponse.value.orderId,
                                                                   slResponse.value.orderId, quantity.x, Upper(side), now)]
    {
      r, submitted := None, [];
      if !(ValidatePositiveNumber(quantity) && ValidatePositiveNumber(takeProfitPrice)
           && ValidatePositiveNumber(stopLossPrice) && ValidateSymbol(symbols, symbol)) {
        return;
      }
      if !PriceOrderingOk(side, takeProfitPrice.x, stopLossPrice.x, currentPrice) {
        return;
      }
      submitted := submitted + [TakeProfitLeg(symbol, quantity.x, takeProfitPrice.x, side)];
      if tpResponse.None? {
        return;
      }
      submitted := submitted + [StopLossLeg(symbol, quantity.x, stopLossPrice.x, side)];
      if slResponse.None? {
        return;
      }
      var tpOrder, slOrder := tpResponse.value, slResponse.value;
      activeOcoOrders := activeOcoOrders[ocoId := OcoEntry(Upper(symbol), tpOrder.orderId, slOrder.orderId,
                                                           quantity.x, Upper(side), now)];
      r := Some(OcoResult(ocoId, Upper(symbol), tpOrder, slOrder, quantity.x, Upper(side)));
    }

    /**
     * `check_and_cancel_oco`: read both legs' statuses (None when the lookup raised) and
     * apply Reconcile. `cancelSent` is the order id a cancel was sent for.
     */
    method CheckAndCancelOco(ocoId: string, tpStatus: Option<string>, slStatus: Option<string>,
                             cancelSucceeds: bool)
      returns (r: Option<OcoCheck>, cancelSent: Option<int>)
      modifies this
      ensures ocoId !in old(activeOcoOrders) || tpStatus.None? || slStatus.None? ==>
                r.None? && cancelSent.None? && activeOcoOrders == old(activeOcoOrders)
      ensures ocoId in old(activeOcoOrders) && tpStatus.Some? && slStatus.Some? ==>
                var d := Reconcile(old(activeOcoOrders)[ocoId], tpStatus.value, slStatus.value, cancelSucceeds);
                && r == Some(d.report) && cancelSent == d.cancelSent
                && activeOcoOrders == if d.evict then old(activeOcoOrders) - {ocoId} else old(activeOcoOrders)
    {
      if ocoId !in activeOcoOrders || tpStatus.None? || slStatus.None? {
        return None, None;
      }
      var d := Reconcile(activeOcoOrders[ocoId], tpStatus.value, slStatus.value, cancelSucceeds);
      if d.evict {
        activeOcoOrders := activeOcoOrders - {ocoId};
      }
      r, cancelSent := Some(d.report), d.cancelSent;
    }

    /**
     * `cancel_oco_orders`: send a cancel for the take-profit leg, then for the stop-loss leg,
     * collect the acknowledgements of those that succeeded, and drop the pair in any case.
     */
    method CancelOcoOrders(ocoId: string, tpCancel: Option<Order>, slCancel: Option<Order>)
      returns (r: Option<seq<(Role, Order)>>, cancelsSent: seq<int>)
      modifies this
      ensures ocoId !in old(activeOcoOrders) ==>
                r.None? && cancelsSent == [] && activeOcoOrders == old(activeOcoOrders)
      ensures ocoId in old(activeOcoOrders) ==>
                && r == Some(SuccessfulCancels(tpCancel, slCancel))
                && cancelsSent == [old(activeOcoOrders)[ocoId].takeProfitOrderId, old(activeOcoOrders)[ocoId].stopLossOrderId]
                && activeOcoOrders == old(activeOcoOrders) - {ocoId}
    {
      if ocoId !in activeOcoOrders {
        return None, [];
      }
      var entry := activeOcoOrders[ocoId];
      var results: seq<(Role, Order)> := [];
      cancelsSent := [entry.takeProfitOrderId];
      if tpCancel.Some? {
        results := results + [(TakeProfit, tpCancel.value)];
      }
      ghost var afterTakeProfit := results;
      assert afterTakeProfit == if tpCancel.Some? then [(TakeProfit, tpCancel.value)] else [];
      cancelsSent := cancelsSent + [entry.stopLossOrderId];
      if slCancel.Some? {
        results := results + [(StopLoss, slCancel.value)];
      }
      assert results == afterTakeProfit + (if slCancel.Some? then [(StopLoss, slCancel.value)] else []);
      activeOcoOrders := activeOcoOrders - {ocoId};
      assert results == SuccessfulCancels(tpCancel, slCancel);
      r := Some(results);
    }

    /** `get_active_oco_orders`: every registered pair, whatever the state of its legs. */
    function GetActiveOcoOrders(): (r: map<string, OcoEntry>)
      reads this
      ensures r.Keys == activeOcoOrders.Keys
      ensures forall id :: id in r ==> r[id] == activeOcoOrders[id]
    {
      activeOcoOrders
    }
  }
}
