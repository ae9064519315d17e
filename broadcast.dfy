/** The daily broadcast: fetch three rates, compose one summary, and push it to
    every subscriber in list order. The scheduler that fires it at 08:00 and the
    messaging client are outside the model; each push attempt is recorded in a log.
    `rateOf(symbol)` is what `get_rate(symbol)` returns; `GetRate` in the scraper
    module is its model, and the lemmas at the end put the two together. */
module Broadcast {
  import opened Wrappers
  import opened Text
  import opened Scraper
  import opened Subscribers

  /** A currency of the summary: the name shown and the symbol fetched. */
  datatype SummaryCurrency = SummaryCurrency(name: string, symbol: string)

  /** The summary's currencies, in the order its lines appear. */
  const SummaryCurrencies: seq<SummaryCurrency> := [
    SummaryCurrency("紐西蘭(NZD)", "NZDTWD=X"),
    SummaryCurrency("美金(USD)", "USDTWD=X"),
    SummaryCurrency("歐元(EUR)", "EURTWD=X")
  ]

  const Header := "每日匯率提醒（08:00）：\n"
  const Unavailable := "無法取得"

  /** One line of the summary: the name and the rate, or the placeholder when the
      rate is missing (`if rate:` is Python truthiness). */
  function SummaryLine(name: string, rate: Option<string>): string {
    name + "：" + (if Truthy(rate) then rate.value else Unavailable)
  }

  /** The lines for `cs`, each with the rate `rateOf` gives for its symbol. */
  function SummaryLines(cs: seq<SummaryCurrency>, rateOf: string -> Option<string>): (lines: seq<string>)
    ensures |lines| == |cs|
    ensures forall i :: 0 <= i < |cs| ==> lines[i] == SummaryLine(cs[i].name, rateOf(cs[i].symbol))
  {
    if cs == [] then []
    else SummaryLines(cs[..|cs| - 1], rateOf) + [SummaryLine(cs[|cs| - 1].name, rateOf(cs[|cs| - 1].symbol))]
  }

  /** The pushed message: the header, then the lines joined by newlines. */
  function SummaryText(rateOf: string -> Option<string>): string {
    Header + Join("\n", SummaryLines(SummaryCurrencies, rateOf))
  }

  /** The summary is the header and exactly three lines, NZD, then USD, then EUR. */
  lemma SummaryShape(rateOf: string -> Option<string>)
    ensures SummaryText(rateOf) ==
      Header
      + SummaryLine("紐西蘭(NZD)", rateOf("NZDTWD=X")) + "\n"
      + SummaryLine("美金(USD)", rateOf("USDTWD=X")) + "\n"
      + SummaryLine("歐元(EUR)", rateOf("EURTWD=X"))
  {
    var lines := SummaryLines(SummaryCurrencies, rateOf);
    var l0 := SummaryLine("紐西蘭(NZD)", rateOf("NZDTWD=X"));
    var l1 := SummaryLine("美金(USD)", rateOf("USDTWD=X"));
    var l2 := SummaryLine("歐元(EUR)", rateOf("EURTWD=X"));
    assert lines[0] == l0 && lines[1] == l1 && lines[2] == l2;
    assert lines[1..][1..] == [l2];
    assert Join("\n", lines[1..]) == l1 + "\n" + l2;
    calc {
      SummaryText(rateOf);
      Header + Join("\n", lines);
      Header + (l0 + "\n" + (l1 + "\n" + l2));
      Header + l0 + "\n" + l1 + "\n" + l2;
    }
  }

  /** When no rate can be read, all three lines carry the placeholder. */
  lemma SummaryAllUnavailable(rateOf: string -> Option<string>)
    requires forall sym :: rateOf(sym) == None
    ensures SummaryText(rateOf) ==
      Header + "紐西蘭(NZD)：" + Unavailable + "\n" + "美金(USD)：" + Unavailable + "\n" + "歐元(EUR)：" + Unavailable
  {
    SummaryShape(rateOf);
  }

  /** One push attempt: recipient, text, and whether the messaging API accepted it. */
  datatype PushAttempt = PushAttempt(to: string, text: string, delivered: bool)

  /** The first half of `send_rate_to_subscribers()`: the summary built line by
      line with `append`, then joined under the header. */
  method ComposeSummary(rateOf: string -> Option<string>) returns (message: string)
    ensures message == SummaryText(rateOf)
  {
    var lines: seq<string> := [];
    for k := 0 to |SummaryCurrencies|
      invariant |lines| == k
      invariant forall i :: 0 <= i < k ==>
        lines[i] == SummaryLine(SummaryCurrencies[i].name, rateOf(SummaryCurrencies[i].symbol))
    {
      var c := SummaryCurrencies[k];
      var rate := rateOf(c.symbol);
      if Truthy(rate) {
        lines := lines + [c.name + "：" + rate.value];
      } else {
        lines := lines + [c.name + "：" + Unavailable];
      }
    }
    assert lines == SummaryLines(SummaryCurrencies, rateOf);
    message := Header + Join("\n", lines);
  }

  /** `send_rate_to_subscribers()`. Nothing is pushed when the file holds no
      subscriber; otherwise the summary is pushed once to each subscriber, in list
      order. `delivered(id)` says whether the push to `id` succeeds; a failure is
      logged and the loop goes on with the next subscriber. */
  method SendRateToSubscribers(file: SubscriberFile, rateOf: string -> Option<string>, delivered: string -> bool)
    returns (pushes: seq<PushAttempt>)
    ensures file.Load() == [] ==> pushes == []
    ensures |pushes| == |file.Load()|
    ensures forall i :: 0 <= i < |pushes| ==>
      pushes[i] == PushAttempt(file.Load()[i], SummaryText(rateOf), delivered(file.Load()[i]))
  {
    var subs := file.Load();
    if subs == [] {
      return [];
    }
    var message := ComposeSummary(rateOf);
    pushes := [];
    for k := 0 to |subs|
      invariant |pushes| == k
      invariant forall i :: 0 <= i < k ==> pushes[i] == PushAttempt(subs[i], message, delivered(subs[i]))
    {
      pushes := pushes + [PushAttempt(subs[k], message, delivered(subs[k]))];
    }
  }

  /** The broadcast's summary over the scraper: when every request to the quote
      site fails, each subscriber gets the message with all three lines unavailable. */
  lemma SummaryWhenSiteUnreachable(fetch: HttpRequest -> HttpOutcome)
    requires forall q :: fetch(q) == TransportError
    ensures SummaryText(sym => GetRate(sym, fetch)) ==
      Header + "紐西蘭(NZD)：" + Unavailable + "\n" + "美金(USD)：" + Unavailable + "\n" + "歐元(EUR)：" + Unavailable
  {
    var rateOf := sym => GetRate(sym, fetch);
    forall sym ensures rateOf(sym) == None {
      assert fetch(RateRequest(sym)) == TransportError;
    }
    SummaryAllUnavailable(rateOf);
  }
}
