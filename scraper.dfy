/** Scraping one exchange rate from the quote page.

    The network and the HTML parser are abstracted: a request is answered by a
    `fetch` oracle, and a parsed page is the sequence of its elements in
    document order, each with its tag name, its class attribute and its text. */
module Scraper {
  import opened Wrappers
  import opened Text

  /** One element of the parsed page: tag name, class attribute, text content. */
  datatype Element = Element(tag: string, cls: string, text: string)

  /** One outbound GET with the URL, user agent and timeout that the fetchers pass to `requests.get`. */
  datatype HttpRequest = HttpRequest(url: string, userAgent: string, timeoutSeconds: nat)

  /** What a GET yields: an exception (connection error, timeout) or a response. */
  datatype HttpOutcome = TransportError | HttpResponse(status: int, page: seq<Element>)

  const QuoteUrlPrefix := "https://tw.stock.yahoo.com/quote/"
  const UserAgent := "Mozilla/5.0"
  /** `get_rate` waits 6 seconds, `get_nzd_twd_rate` 5. */
  const RateTimeout: nat := 6
  const NzdTimeout: nat := 5

  /** The price span's class while the rate is falling, and while it is rising. */
  const TrendDownClass := "Fz(32px) Fw(b) Lh(1) Mend(4px) D(f) Ai(c) C($c-trend-down)"
  const TrendUpClass := "Fz(32px) Fw(b) Lh(1) Mend(4px) D(f) Ai(c) C($c-trend-up)"

  /** `soup.find("span", attrs={"class": cls})` tests each element with this. */
  predicate IsSpanOf(e: Element, cls: string) {
    e.tag == "span" && e.cls == cls
  }

  /** The position of the first element from `from` on that is a span of class `cls`. */
  function FindSpanFrom(page: seq<Element>, cls: string, from: nat): (r: Option<nat>)
    requires from <= |page|
    ensures r.Some? ==> from <= r.value < |page| && IsSpanOf(page[r.value], cls)
    ensures r.Some? ==> forall j :: from <= j < r.value ==> !IsSpanOf(page[j], cls)
    ensures r.None? ==> forall j :: from <= j < |page| ==> !IsSpanOf(page[j], cls)
    decreases |page| - from
  {
    if from == |page| then None
    else if IsSpanOf(page[from], cls) then Some(from)
    else FindSpanFrom(page, cls, from + 1)
  }

  /** `soup.find`: the position of the first span of class `cls` in the page. */
  function FindSpan(page: seq<Element>, cls: string): (r: Option<nat>)
    ensures r.Some? ==> r.value < |page| && IsSpanOf(page[r.value], cls)
    ensures r.Some? ==> forall j :: 0 <= j < r.value ==> !IsSpanOf(page[j], cls)
    ensures r.None? ==> forall j :: 0 <= j < |page| ==> !IsSpanOf(page[j], cls)
  {
    FindSpanFrom(page, cls, 0)
  }

  /** The page's first span of class `cls` is at position `i`. */
  ghost predicate FirstSpanAt(page: seq<Element>, cls: string, i: nat) {
    i < |page| && IsSpanOf(page[i], cls) && forall j :: 0 <= j < i ==> !IsSpanOf(page[j], cls)
  }

  /** The price heuristic: the trend-down span, or only if the page has none the
      trend-up span; its stripped text unless that is empty. (A found tag is
      always truthy, so a blank trend-down span does not fall back.) */
  function ExtractPrice(page: seq<Element>): (r: Option<string>)
    ensures r.Some? ==> r.value != "" && Trimmed(r.value)
  {
    var tag := match FindSpan(page, TrendDownClass)
      case Some(i) => Some(i)
      case None => FindSpan(page, TrendUpClass);
    if tag.Some? && Strip(page[tag.value].text) != "" then Some(Strip(page[tag.value].text)) else None
  }

  /** A page with a trend-down span is read from its first such span alone,
      whatever trend-up spans it also holds. */
  lemma ExtractPriceTrendDown(page: seq<Element>, i: nat)
    requires FirstSpanAt(page, TrendDownClass, i)
    ensures Strip(page[i].text) == "" ==> ExtractPrice(page) == None
    ensures Strip(page[i].text) != "" ==> ExtractPrice(page) == Some(Strip(page[i].text))
  {
  }

  /** A page without any trend-down span is read from its first trend-up span. */
  lemma ExtractPriceTrendUp(page: seq<Element>, i: nat)
    requires forall j :: 0 <= j < |page| ==> !IsSpanOf(page[j], TrendDownClass)
    requires FirstSpanAt(page, TrendUpClass, i)
    ensures Strip(page[i].text) == "" ==> ExtractPrice(page) == None
    ensures Strip(page[i].text) != "" ==> ExtractPrice(page) == Some(Strip(page[i].text))
  {
  }

  /** A page with neither span yields no price. */
  lemma ExtractPriceNoSpan(page: seq<Element>)
    requires forall j :: 0 <= j < |page| ==> !IsSpanOf(page[j], TrendDownClass)
    requires forall j :: 0 <= j < |page| ==> !IsSpanOf(page[j], TrendUpClass)
    ensures ExtractPrice(page) == None
  {
  }

  /** The price, when there is one, is the stripped text of some span of one of the two classes. */
  lemma ExtractPriceSource(page: seq<Element>)
    requires ExtractPrice(page).Some?
    ensures exists i :: 0 <= i < |page| && page[i].tag == "span"
                        && (page[i].cls == TrendDownClass || page[i].cls == TrendUpClass)
                        && ExtractPrice(page).value == Strip(page[i].text)
  {
    var i := match FindSpan(page, TrendDownClass)
      case Some(k) => k
      case None => FindSpan(page, TrendUpClass).value;
    assert page[i].tag == "span";
  }

  /** The request `get_rate(symbol)` issues. */
  function RateRequest(symbol: string): HttpRequest
  {
    HttpRequest(QuoteUrlPrefix + symbol, UserAgent, RateTimeout)
  }

  /** Reading a price out of a GET outcome: an exception or a status other
      than 200 yields `None`. */
  function RateFromOutcome(o: HttpOutcome): (r: Option<string>)
    ensures o.TransportError? ==> r == None
    ensures o.HttpResponse? && o.status != 200 ==> r == None
    ensures o.HttpResponse? && o.status == 200 ==> r == ExtractPrice(o.page)
    ensures r.Some? ==> r.value != "" && Trimmed(r.value)
  {
    match o
    case TransportError => None
    case HttpResponse(status, page) => if status != 200 then None else ExtractPrice(page)
  }

  /** `get_rate(symbol)`: one GET of the quote page of `symbol`, then the heuristic. */
  function GetRate(symbol: string, fetch: HttpRequest -> HttpOutcome): (r: Option<string>)
    ensures r.Some? ==> r.value != "" && Trimmed(r.value)
    ensures !fetch(RateRequest(symbol)).HttpResponse? ==> r == None
    ensures fetch(RateRequest(symbol)).HttpResponse? && fetch(RateRequest(symbol)).status != 200 ==> r == None
    ensures fetch(RateRequest(symbol)).HttpResponse? && fetch(RateRequest(symbol)).status == 200 ==>
      r == ExtractPrice(fetch(RateRequest(symbol)).page)
  {
    RateFromOutcome(fetch(RateRequest(symbol)))
  }

  /** The request `get_nzd_twd_rate()` issues: the fixed URL of the NZD quote page
      (which `get_nzd_twd_rate` spells out whole) and a shorter timeout. */
  const NzdRequest := HttpRequest(QuoteUrlPrefix + "NZDTWD=X", UserAgent, NzdTimeout)

  /** `get_nzd_twd_rate()`: the same extraction on the fixed NZD quote page. */
  function GetNzdTwdRate(fetch: HttpRequest -> HttpOutcome): (r: Option<string>)
    ensures r.Some? ==> r.value != "" && Trimmed(r.value)
    ensures !fetch(NzdRequest).HttpResponse? ==> r == None
    ensures fetch(NzdRequest).HttpResponse? && fetch(NzdRequest).status != 200 ==> r == None
    ensures fetch(NzdRequest).HttpResponse? && fetch(NzdRequest).status == 200 ==> r == ExtractPrice(fetch(NzdRequest).page)
  {
    RateFromOutcome(fetch(NzdRequest))
  }

  /** The two fetchers differ only in their timeout: when the page is answered
      the same way under both, they agree with each other. */
  lemma NzdRateIsGetRate(fetch: HttpRequest -> HttpOutcome)
    requires fetch(NzdRequest) == fetch(HttpRequest(NzdRequest.url, UserAgent, RateTimeout))
    ensures GetNzdTwdRate(fetch) == GetRate("NZDTWD=X", fetch)
  {
  }

  /** A rate is never the empty string, so Python's `if rate:` is the same as `rate is not None`. */
  lemma RateTruthy(symbol: string, fetch: HttpRequest -> HttpOutcome)
    ensures Truthy(GetRate(symbol, fetch)) <==> GetRate(symbol, fetch).Some?
    ensures Truthy(GetNzdTwdRate(fetch)) <==> GetNzdTwdRate(fetch).Some?
  {
  }
}
