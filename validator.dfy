/** Input checks shared by every strategy: positivity of numbers and tradability of a symbol. */
module Validator {
  import opened Wrappers
  import opened Exchange

  /** A Python argument as `validate_positive_number` sees it: an int or float, or anything else. */
  datatype Value = Number(x: real) | NotANumber

  /** True exactly for a number strictly greater than zero. */
  function ValidatePositiveNumber(v: Value): (ok: bool)
    ensures ok <==> v.Number? && v.x > 0.0
  {
    match v
    case NotANumber => false
    case Number(x) => !(x <= 0.0)
  }

  /** The set of symbol names listed by the exchange. */
  function SymbolNames(symbols: seq<SymbolInfo>): (names: set<string>)
    ensures forall name :: name in names <==> exists i :: 0 <= i < |symbols| && symbols[i].symbol == name
  {
    set s | s in symbols :: s.symbol
  }

  /** The scan over the symbol list: no entry named `name` has a status other than TRADING. */
  function AllMatchesTrading(symbols: seq<SymbolInfo>, name: string): (ok: bool)
    ensures ok <==> forall i :: 0 <= i < |symbols| && symbols[i].symbol == name ==> symbols[i].status == "TRADING"
  {
    if symbols == [] then true
    else if symbols[0].symbol == name && symbols[0].status != "TRADING" then false
    else
      var rest := AllMatchesTrading(symbols[1..], name);
      assert forall i :: 1 <= i < |symbols| ==> symbols[i] == symbols[1..][i - 1];
      rest
  }

  /**
   * A symbol is tradable when its upper-case form is listed and every listed entry of that
   * name is TRADING. A failed exchange-info call makes it untradable.
   */
  function ValidateSymbol(info: ExchangeInfo, symbol: string): (ok: bool)
    ensures ok <==> info.Some?
                    && (exists i :: 0 <= i < |info.value| && info.value[i].symbol == Upper(symbol))
                    && (forall i :: 0 <= i < |info.value| && info.value[i].symbol == Upper(symbol) ==>
                                      info.value[i].status == "TRADING")
  {
    match info
    case None => false
    case Some(symbols) =>
      if Upper(symbol) !in SymbolNames(symbols) then false
      else AllMatchesTrading(symbols, Upper(symbol))
  }

  /** Validation folds case: a symbol and its upper-case form are equally tradable. */
  lemma ValidateSymbolIgnoresCase(info: ExchangeInfo, symbol: string)
    ensures ValidateSymbol(info, Upper(symbol)) == ValidateSymbol(info, symbol)
  {
  }
}
