/**
 * Single stop and take-profit placements, and the three-leg bracket (entry, stop-loss,
 * take-profit) that rolls back its placed legs when a later leg fails.
 */
module StopLimit {
  import opened Wrappers
  import opened Exchange
  import opened Validator

  /** One guarded placement: the request sent, if any, and what the operation returns. */
  datatype Placement = Placement(request: Option<OrderRequest>, order: Option<Order>)

  /** The checks both single-leg placements make before they submit. */
  predicate SingleLegAccepted(symbol: string, quantity: Value, stopPrice: Value, limitPrice: Value,
                              symbols: ExchangeInfo)
    ensures SingleLegAccepted(symbol, quantity, stopPrice, limitPrice, symbols) ==>
              && quantity.Number? && quantity.x > 0.0
              && stopPrice.Number? && stopPrice.x > 0.0
              && limitPrice.Number? && limitPrice.x > 0.0
              && symbols.Some?
              && exists i :: 0 <= i < |symbols.value| && symbols.value[i].symbol == Upper(symbol)
                                                      && symbols.value[i].status == "TRADING"
  {
    && ValidatePositiveNumber(quantity)
    && ValidatePositiveNumber(stopPrice)
    && ValidatePositiveNumber(limitPrice)
    && ValidateSymbol(symbols, symbol)
  }

  /**
   * A guarded triggered order of `orderType`: nothing is sent when a check fails; otherwise
   * one request limited at `limitPrice` and triggered at `stopPrice`, and the operation
   * returns the exchange's answer (None when the call raised).
   */
  function PlaceTriggeredOrder(orderType: string, symbol: string, quantity: Value, stopPrice: Value,
                               limitPrice: Value, side: string, symbols: ExchangeInfo,
                               response: Option<Order>): (p: Placement)
    ensures p.request.Some? <==> SingleLegAccepted(symbol, quantity, stopPrice, limitPrice, symbols)
    ensures p.request.Some? ==>
              p.request.value == OrderRequest(Upper(symbol), Upper(side), orderType, quantity.x,
                                              Some(limitPrice.x), Some(stopPrice.x), Some("GTC"))
              && p.request.value.quantity > 0.0 && p.request.value.price.value > 0.0
              && p.request.value.stopPrice.value > 0.0
    ensures p.order == if p.request.Some? then response else None
  {
    if !ValidatePositiveNumber(quantity) then Placement(None, None)
    else if !ValidatePositiveNumber(stopPrice) then Placement(None, None)
    else if !ValidatePositiveNumber(limitPrice) then Placement(None, None)
    else if !ValidateSymbol(symbols, symbol) then Placement(None, None)
    else
      Placement(Some(OrderRequest(Upper(symbol), Upper(side), orderType, quantity.x,
                                  Some(limitPrice.x), Some(stopPrice.x), Some("GTC"))),
                response)
  }

  /** `place_stop_loss_order`: a guarded STOP order. */
  function PlaceStopLossOrder(symbol: string, quantity: Value, stopPrice: Value, limitPrice: Value,
                              side: string, symbols: ExchangeInfo, response: Option<Order>): (p: Placement)
    ensures p.request.Some? <==> SingleLegAccepted(symbol, quantity, stopPrice, limitPrice, symbols)
    ensures p.request.Some? ==>
              p.request.value == OrderRequest(Upper(symbol), Upper(side), "STOP", quantity.x,
                                              Some(limitPrice.x), Some(stopPrice.x), Some("GTC"))
    ensures p.order == if p.request.Some? then response else None
  {
    PlaceTriggeredOrder("STOP", symbol, quantity, stopPrice, limitPrice, side, symbols, response)
  }

  /** `place_take_profit_order`: a guarded TAKE_PROFIT order. */
  function PlaceTakeProfitOrder(symbol: string, quantity: Value, stopPrice: Value, limitPrice: Value,
                                side: string, symbols: ExchangeInfo, response: Option<Order>): (p: Placement)
    ensures p.request.Some? <==> SingleLegAccepted(symbol, quantity, stopPrice, limitPrice, symbols)
    ensures p.request.Some? ==>
              p.request.value == OrderRequest(Upper(symbol), Upper(side), "TAKE_PROFIT", quantity.x,
                                              Some(limitPrice.x), Some(stopPrice.x), Some("GTC"))
    ensures p.order == if p.request.Some? then response else None
  {
    PlaceTriggeredOrder("TAKE_PROFIT", symbol, quantity, stopPrice, limitPrice, side, symbols, response)
  }

  /** The side of the protective legs: SELL after a BUY entry, BUY after anything else. */
  function OppositeSide(side: string): (o: string)
    ensures o in ["BUY", "SELL"]
    ensures o != Upper(side)
    ensures Upper(side) == "BUY" ==> o == "SELL"
    ensures Upper(side) != "BUY" ==> o == "BUY"
  {
    if Upper(side) == "BUY" then "SELL" else "BUY"
  }

  /**
   * The three requests of a bracket, in submission order: the LIMIT entry on `side`, then
   * the STOP and the TAKE_PROFIT on the opposite side.
   */
  function BracketRequests(symbol: string, quantity: real, entryPrice: real, stopLossPrice: real,
                           takeProfitPrice: real, side: string): (reqs: seq<OrderRequest>)
    ensures |reqs| == 3
    ensures forall i :: 0 <= i < 3 ==> reqs[i].symbol == Upper(symbol) && reqs[i].quantity == quantity
    ensures forall i :: 0 <= i < 3 ==> reqs[i].timeInForce == Some("GTC")
    ensures reqs[0].orderType == "LIMIT" && reqs[0].side == Upper(side) && reqs[0].price == Some(entryPrice)
    ensures reqs[0].stopPrice.None?
    ensures reqs[1].orderType == "STOP" && reqs[2].orderType == "TAKE_PROFIT"
    ensures reqs[1].side == reqs[2].side == OppositeSide(side) != reqs[0].side
    ensures reqs[1].stopPrice == Some(stopLossPrice)
    ensures reqs[1].price == Some(StopLimitPrice(stopLossPrice, OppositeSide(side)))
    ensures stopLossPrice > 0.0 && reqs[1].side == "SELL" ==> reqs[1].price.value < stopLossPrice
    ensures stopLossPrice > 0.0 && reqs[1].side == "BUY" ==> reqs[1].price.value > stopLossPrice
    ensures reqs[2].price == reqs[2].stopPrice == Some(takeProfitPrice)
  {
    var opposite := OppositeSide(side);
    [OrderRequest(Upper(symbol), Upper(side), "LIMIT", quantity, Some(entryPrice), None, Some("GTC")),
     OrderRequest(Upper(symbol), opposite, "STOP", quantity,
                  Some(StopLimitPrice(stopLossPrice, opposite)), Some(stopLossPrice), Some("GTC")),
     OrderRequest(Upper(symbol), opposite, "TAKE_PROFIT", quantity,
                  Some(takeProfitPrice), Some(takeProfitPrice), Some("GTC"))]
  }

  /**
   * `place_stop_limit_bracket`: no input checks; submit entry, stop-loss and take-profit
   * in that order without waiting for the entry to fill. On success return the three
   * (role, order) pairs in that order. When a submission fails, send a cancel for every
   * leg already placed, in placement order, ignore how those cancels end, and return None.
   */
  method PlaceStopLimitBracket(symbol: string, quantity: real, entryPrice: real, stopLossPrice: real,
                               takeProfitPrice: real, side: string,
                               entryResponse: Option<Order>, slResponse: Option<Order>,
                               tpResponse: Option<Order>)
    returns (r: Option<seq<(Role, Order)>>, submitted: seq<OrderRequest>, cancelsSent: seq<int>)
    ensures var reqs := BracketRequests(symbol, quantity, entryPrice, stopLossPrice, takeProfitPrice, side);
            && (entryResponse.None? ==> r.None? && submitted == reqs[..1] && cancelsSent == [])
            && (entryResponse.Some? && slResponse.None? ==>
                  r.None? && submitted == reqs[..2] && cancelsSent == [entryResponse.value.orderId])
            && (entryResponse.Some? && slResponse.Some? && tpResponse.None? ==>
                  r.None? && submitted == reqs
                  && cancelsSent == [entryResponse.value.orderId, slResponse.value.orderId])
            && (entryResponse.Some? && slResponse.Some? && tpResponse.Some? ==>
                  && r == Some([(Entry, entryResponse.value), (StopLoss, slResponse.value),
                                (TakeProfit, tpResponse.value)])
                  && submitted == reqs && cancelsSent == [])
  {
    var reqs := BracketRequests(symbol, quantity, entryPrice, stopLossPrice, takeProfitPrice, side);
    var orders: seq<(Role, Order)> := [];
    var failed := false;
    submitted := [reqs[0]];
    if entryResponse.None? {
      failed := true;
    } else {
      orders := orders + [(Entry, entryResponse.value)];
      submitted := submitted + [reqs[1]];
      if slResponse.None? {
        failed := true;
      } else {
        orders := orders + [(StopLoss, slResponse.value)];
        submitted := submitted + [reqs[2]];
        if tpResponse.None? {
          failed := true;
        } else {
          orders := orders + [(TakeProfit, tpResponse.value)];
          assert orders == [(Entry, entryResponse.value), (StopLoss, slResponse.value), (TakeProfit, tpResponse.value)];
        }
      }
    }
    cancelsSent := [];
    if !failed {
      return Some(orders), submitted, cancelsSent;
    }
    // roll back: one cancel per placed leg; a failing cancel is ignored
    for i := 0 to |orders|
      invariant |cancelsSent| == i
      invariant forall j :: 0 <= j < i ==> cancelsSent[j] == orders[j].1.orderId
    {
      cancelsSent := cancelsSent + [orders[i].1.orderId];
    }
    r := None;
  }
}
