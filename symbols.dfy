/** The static table from what a user types (a currency's Chinese name or its code)
    to the symbol of the Taiwan-dollar cross rate on the quote site. */
module Symbols {
  import opened Wrappers

  /** The lookup table the dispatcher consults, entry for entry. */
  const RateSymbols: map<string, string> := map[
    "紐西蘭" := "NZDTWD=X",
    "NZD" := "NZDTWD=X",
    "美金" := "USDTWD=X",
    "USD" := "USDTWD=X",
    "歐元" := "EURTWD=X",
    "EUR" := "EURTWD=X",
    "日圓" := "JPYTWD=X",
    "JPY" := "JPYTWD=X",
    "人民幣" := "CNHTWD=X",
    "CNY" := "CNHTWD=X"
  ]

  /** One supported currency: its Chinese name, its code and its quote symbol. */
  datatype Currency = Currency(name: string, code: string, symbol: string)

  /** The supported currencies, each with its Chinese name, code and quote symbol,
      listed independently of the table. */
  const Currencies: seq<Currency> := [
    Currency("紐西蘭", "NZD", "NZDTWD=X"),
    Currency("美金", "USD", "USDTWD=X"),
    Currency("歐元", "EUR", "EURTWD=X"),
    Currency("日圓", "JPY", "JPYTWD=X"),
    Currency("人民幣", "CNY", "CNHTWD=X")
  ]

  /** The names listed in reply to the rate-list command, in the order they are shown. */
  const SupportedNames: seq<string> := ["紐西蘭", "美金", "歐元", "日圓", "人民幣"]

  /** `RATE_SYMBOLS.get(token)`: exact, case-sensitive lookup. */
  function Resolve(token: string): Option<string> {
    if token in RateSymbols then Some(RateSymbols[token]) else None
  }

  /** Only a currency's name or code resolves, and it resolves to that currency's symbol. */
  lemma ResolveOnlyCurrencies(token: string)
    requires Resolve(token).Some?
    ensures exists c :: c in Currencies && (token == c.name || token == c.code) && Resolve(token).value == c.symbol
  {
    var i :=
      if token == "紐西蘭" || token == "NZD" then 0
      else if token == "美金" || token == "USD" then 1
      else if token == "歐元" || token == "EUR" then 2
      else if token == "日圓" || token == "JPY" then 3
      else 4;
    NameAndCodeAgree(i);
    assert Currencies[i] in Currencies;
  }

  /** A currency's name and its code always resolve to the same symbol, and that
      symbol is the documented one. */
  lemma NameAndCodeAgree(i: nat)
    requires i < |Currencies|
    ensures Resolve(Currencies[i].name) == Resolve(Currencies[i].code) == Some(Currencies[i].symbol)
  {
  }

  /** The rate-list reply names exactly the supported currencies, in table order. */
  lemma SupportedNamesAreCurrencies()
    ensures |SupportedNames| == |Currencies|
    ensures forall i :: 0 <= i < |SupportedNames| ==> SupportedNames[i] == Currencies[i].name
    ensures forall n :: n in SupportedNames ==> Resolve(n).Some?
  {
  }
}
