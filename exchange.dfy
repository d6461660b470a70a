/**
 * The exchange as the strategies see it. Every remote call is an oracle: its answer is
 * an input of the operation that makes the call. This module holds the records those
 * answers are made of, the order requests the strategies send, and the two small
 * computations shared by several strategies (upper-casing and the stop-limit buffer).
 */
module Exchange {
  import opened Wrappers

  /** The `executedQty` field of a placement response: absent, a number, or a text that `float()` rejects. */
  datatype Qty = Missing | Reported(value: real) | Malformed

  /** What `futures_create_order` (and `futures_cancel_order`) returns, reduced to the fields the strategies read. */
  datatype Order = Order(orderId: int, executedQty: Qty)

  /** The keyword arguments of one `futures_create_order` call. */
  datatype OrderRequest = OrderRequest(
    symbol: string,
    side: string,
    orderType: string,
    quantity: real,
    price: Option<real>,
    stopPrice: Option<real>,
    timeInForce: Option<string>)

  /** One entry of an exchange-info symbol's `filters` list. */
  datatype Filter = Filter(filterType: string, minQty: real)

  /** One entry of `exchange_info['symbols']`. */
  datatype SymbolInfo = SymbolInfo(symbol: string, status: string, filters: seq<Filter>)

  /** The answer of `futures_exchange_info`; None when the call raises. */
  type ExchangeInfo = Option<seq<SymbolInfo>>

  /** The role tag of one leg of a multi-order strategy. */
  datatype Role = Entry | StopLoss | TakeProfit

  /** Python's `str.upper` on the ASCII letters. */
  function UpperChar(c: char): (u: char)
    ensures 'a' <= c <= 'z' ==> 'A' <= u <= 'Z' && u as int - c as int == 'A' as int - 'a' as int
    ensures !('a' <= c <= 'z') ==> u == c
  {
    if 'a' <= c <= 'z' then (c as int - 'a' as int + 'A' as int) as char else c
  }

  function Upper(s: string): (u: string)
    ensures |u| == |s|
    ensures forall i :: 0 <= i < |s| ==> u[i] == UpperChar(s[i])
  {
    seq(|s|, i requires 0 <= i < |s| => UpperChar(s[i]))
  }

  /** A string without lower-case ASCII letters is its own upper-case form. */
  lemma {:induction false} UpperOfUpperCase(s: string)
    requires forall i :: 0 <= i < |s| ==> !('a' <= s[i] <= 'z')
    ensures Upper(s) == s
  {
  }

  /**
   * The limit price of a stop-loss leg: the trigger price moved 0.5% past the trigger
   * in the direction the order trades, so the limit is still marketable once triggered.
   */
  function StopLimitPrice(stopPrice: real, side: string): (p: real)
    ensures stopPrice > 0.0 && side == "SELL" ==> 0.0 < p < stopPrice
    ensures stopPrice > 0.0 && side != "SELL" ==> p > stopPrice
    ensures side == "SELL" ==> stopPrice - p == stopPrice / 200.0
    ensures side != "SELL" ==> p - stopPrice == stopPrice / 200.0
  {
    if side == "SELL" then stopPrice * 0.995 else stopPrice * 1.005
  }
}
