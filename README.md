# Exchange-rate LINE bot — a Dafny model

This project models the core of a LINE chat bot that answers exchange-rate questions. The bot is a small Flask app in `app.py`, and the model covers these parts of it:

- **The text-message handler (`handle_message`).** It strips the incoming text and tries an ordered list of exact phrases. The first match decides the one reply:
  - the NZD rate;
  - the quick-reply menu;
  - the list of supported currencies;
  - a currency token looked up in `RATE_SYMBOLS`;
  - subscribe and unsubscribe, which load the subscriber list, change it in place and save it back;
  - the easter egg.

  Any text that matches no phrase is echoed back.
- **The rate scraper (`get_rate`, `get_nzd_twd_rate`).** It fetches a Yahoo quote page. A transport error or a status other than 200 gives no rate. Otherwise it returns the stripped text of the first trend-down price span. It looks for a trend-up span only when the page has no trend-down span at all. A blank price gives no rate.
- **The subscriber store (`load_subscribers`, `save_subscribers`).** A JSON array of user ids. A missing or unreadable file loads as the empty list. A write that fails at the open leaves the file unchanged. A write that fails after the open has truncated the file leaves it unreadable, so the next load gives the empty list.
- **The daily broadcast (`send_rate_to_subscribers`).** A loop builds a three-currency summary, then one push is attempted per subscriber, in list order.
- **The postback handler (`handle_postback`).** It answers the tokens the menu sends.

Files and modules:

| file | module | contents |
|---|---|---|
| `wrappers.dfy` | `Wrappers` | `Option`, Python truthiness of an optional string, `dict.get` with a default |
| `text.dfy` | `Text` | Python's `str.strip` on Python's whitespace set, and `str.join` |
| `symbols.dfy` | `Symbols` | the `RATE_SYMBOLS` table and the currencies behind it |
| `scraper.dfy` | `Scraper` | the page as a sequence of elements, `soup.find`, price extraction, and both fetchers over a `fetch` function standing for `requests.get` |
| `subscribers.dfy` | `Subscribers` | `list.remove` and `list.append` on the id list, the subscriber file as a class with `Load`/`Save`, and the in-place list as a class |
| `broadcast.dfy` | `Broadcast` | the summary text and the push loop, both as methods proved against functions |
| `quickreply.dfy` | `QuickReply` | the eight quick-reply items |
| `postback.dfy` | `Postback` | the postback handler |
| `dispatcher.dfy` | `Dispatcher` | the rule order, each branch's answer, the in-place handler method, and lemmas that compose the handler with the scraper |

The upper layers take the rates as parameters. `rateOf(symbol)` stands for what `get_rate(symbol)` returns, and `nzdRate` for what `get_nzd_twd_rate()` returns. The lemmas near the end of `dispatcher.dfy` and `broadcast.dfy` put these together with the scraper model by instantiating `rateOf` as `sym => GetRate(sym, fetch)`.

## Model

| member | source | states |
|---|---|---|
| Wrappers.GetOr | app.py:446 | `params.get(key, "")`: the mapped value when the key is present, the default otherwise |
| Wrappers.Truthy | app.py:221 | Python's truth test on an optional string: false for `None` and for `""`; `RateTruthy` and the reply lemmas state what it decides |
| Text.SkipLeading | app.py:213 | where `lstrip` cuts: every position skipped holds whitespace, and the position reached does not |
| Text.SkipTrailing | app.py:213 | where `rstrip` cuts: every position dropped holds whitespace, and the last position kept does not |
| Text.Strip | app.py:213 | the stripped text is a contiguous slice of the input, everything before and after that slice is whitespace, and the slice neither starts nor ends with whitespace |
| Text.StripTrimmed | app.py:213 | an already trimmed text is left unchanged |
| Text.StripIdempotent | app.py:213 | stripping twice is stripping once |
| Text.StripEmpty | app.py:107 | a text strips to empty exactly when it is all whitespace, which is the blank-price test |
| Text.Join | app.py:126 | `sep.join(xs)`: the elements with the separator between neighbours; `Broadcast.SummaryShape` and `Dispatcher.FixedReplies` state the joined texts the bot sends |
| Symbols.Resolve | app.py:328-329 | `RATE_SYMBOLS.get(token)`; `ResolveOnlyCurrencies` and `NameAndCodeAgree` state which tokens it accepts and what each maps to |
| Symbols.ResolveOnlyCurrencies | app.py:66-77 | every token the table accepts is the Chinese name or the code of one listed currency, and maps to that currency's Yahoo symbol |
| Symbols.NameAndCodeAgree | app.py:66-77 | each currency's Chinese name and its code map to the same Yahoo symbol |
| Symbols.SupportedNamesAreCurrencies | app.py:318 | the five names of the rate list are the currencies' names in order, and each one is a key of the table |
| Scraper.FindSpanFrom | app.py:94-99 | the first span carrying exactly the given class at or after a position, or none if no such span exists |
| Scraper.FindSpan | app.py:94-99 | `soup.find("span", class)`: the first matching span in document order, or none if the page has none |
| Scraper.ExtractPrice | app.py:94-109 | a price that is found is never blank and has no surrounding whitespace |
| Scraper.ExtractPriceTrendDown | app.py:94-109 | when a trend-down span exists, the first one decides: its stripped text, or no price if that text is blank, and the trend-up span is not consulted |
| Scraper.ExtractPriceTrendUp | app.py:100-109 | with no trend-down span, the first trend-up span gives its stripped text, or no price if that text is blank |
| Scraper.ExtractPriceNoSpan | app.py:100-109 | a page with neither span gives no price |
| Scraper.ExtractPriceSource | app.py:94-108 | a price that is found comes from a span of the page |
| Scraper.RateFromOutcome | app.py:84-109 | a transport error gives no rate; a status other than 200 gives no rate; otherwise the rate is the extraction from the page, never blank |
| Scraper.RateRequest | app.py:82-85 | the GET `get_rate` issues: the quote URL of the symbol, the `Mozilla/5.0` user agent and a 6 s timeout; `GetRate` states what its answer yields |
| Scraper.GetRate | app.py:80-109 | `get_rate` requests the symbol's quote URL; a failed or non-200 fetch gives no rate; a 200 page gives the extraction from that page; a rate is never blank |
| Scraper.GetNzdTwdRate | app.py:172-208 | `get_nzd_twd_rate` requests the fixed NZD URL; a failed or non-200 fetch gives no rate; a 200 page gives the extraction from that page; a rate is never blank |
| Scraper.NzdRateIsGetRate | app.py:172-208 | when the 5 s and 6 s requests are answered alike, the NZD fetcher agrees with `get_rate("NZDTWD=X")` |
| Scraper.RateTruthy | app.py:331 | the callers' `if rate:` is the same test as "a rate was found", because a found rate is never empty |
| Subscribers.IndexOf | app.py:389 | the position of the first occurrence of an element that is in the list |
| Subscribers.RemoveFirst | app.py:389 | `list.remove(x)` on a list holding `x`; `RemoveFirstSpec` and `RemoveFirstNoDuplicates` state its effect |
| Subscribers.RemoveFirstCount | app.py:389 | `list.remove` takes away exactly one occurrence of the id (multiset difference) |
| Subscribers.RemoveFirstPositions | app.py:389 | `list.remove` shortens the list by one, keeps the elements before the first occurrence in place and shifts the later ones down by one |
| Subscribers.RemoveFirstSpec | app.py:389 | `list.remove` removes one occurrence and keeps every other element, in order |
| Subscribers.RemoveFirstNoDuplicates | app.py:389 | on a duplicate-free list, `remove` keeps the list duplicate-free and leaves the id absent, with all other members kept |
| Subscribers.Subscribe | app.py:358-368 | an id already in the list leaves it unchanged; a new id is appended at the end |
| Subscribers.SubscribeMembers | app.py:358-368 | after subscribing, the members are the old members plus the id, and duplicate-freedom is kept |
| Subscribers.SubscribeIdempotent | app.py:359-366 | subscribing twice is subscribing once |
| Subscribers.Unsubscribe | app.py:387-390 | the list after an unsubscribe: the first occurrence removed when the id is present, unchanged otherwise; `UnsubscribeMembers` and `SubscribeThenUnsubscribe` state its effect |
| Subscribers.UnsubscribeMembers | app.py:387-390 | on a duplicate-free list, unsubscribing removes exactly the id, keeps the list duplicate-free, and leaves a list without the id unchanged |
| Subscribers.SubscribeThenUnsubscribe | app.py:358-390 | unsubscribing a fresh subscriber restores the list exactly |
| Subscribers.SubscriberFile.constructor | app.py:40 | the file starts in the given state |
| Subscribers.SubscriberFile.Load | app.py:43-52 | a missing or unreadable file loads as the empty list; a stored array loads as itself |
| Subscribers.AfterSave | app.py:58-62 | the file after a save: the list when the write completes, the old file when the open fails, an unreadable file when the dump fails after the truncating open |
| Subscribers.SubscriberFile.Save | app.py:55-62 | a completed write stores the list, so the next load returns it; a failed open leaves the file as it was; a failure after the truncating open leaves a file that loads as the empty list |
| Subscribers.SubscriberList.constructor | app.py:358 | the in-memory list starts as the loaded list |
| Subscribers.SubscriberList.Append | app.py:367 | `subs.append(id)` adds the id at the end, in place |
| Subscribers.SubscriberList.Remove | app.py:389 | `subs.remove(id)` removes its first occurrence, in place |
| Broadcast.SummaryLine | app.py:121-125 | one summary line, `"{name}：{rate}"` for a truthy rate and `"{name}：無法取得"` otherwise; `SummaryLines` states it per currency |
| Broadcast.SummaryLines | app.py:119-125 | one line per currency, in order, each `"{name}：{rate}"` or `"{name}：無法取得"` by the truthiness of the rate |
| Broadcast.SummaryText | app.py:126 | the header joined to the summary lines; `SummaryShape` states the whole text and `ComposeSummary` is proved to build it |
| Broadcast.SummaryShape | app.py:119-126 | the message is the header followed by the NZD, USD and EUR lines separated by newlines |
| Broadcast.SummaryAllUnavailable | app.py:119-126 | when no rate can be read, every line says unavailable |
| Broadcast.ComposeSummary | app.py:119-126 | the summary loop yields exactly the summary text |
| Broadcast.SendRateToSubscribers | app.py:112-135 | no subscribers means no pushes; otherwise one push per subscriber, in list order, each carrying the same summary text; a failed push does not stop the loop |
| Broadcast.SummaryWhenSiteUnreachable | app.py:119-126 | with the quote site unreachable, the summary reports all three currencies as unavailable |
| QuickReply.MenuLayout | app.py:247-301 | the menu has eight items, the first five with an icon and the last three without; exactly the postback action and the three pickers send a postback, each picker sending its own mode as data |
| Postback.HandlePostback | app.py:432-468 | exactly the four menu tokens are answered: `postback` with "Postback", and `date`, `time` and `datetime` with the picked value or "" when it is absent |
| Postback.MenuPostbacksAnswered | app.py:438-468 | every postback the menu can send is answered, and a picker's answer is its own parameter |
| Dispatcher.Classify | app.py:219-427 | the ordered exact-match rules; `FixedPhrasesReachTheirRules`, the three `...ReachesRule` lemmas, `RateRuleIsTableLookup` and `ClassifyEcho` state which rule each text reaches |
| Dispatcher.NzdRateAnswer | app.py:219-235 | the default rate command's reply; `NzdRateReply` states it with the scraper |
| Dispatcher.RateAnswer | app.py:328-345 | a currency token's reply; `RateReply` and `RateReplyFromScraper` state it |
| Dispatcher.EasterEggAnswer | app.py:407-419 | the easter egg's reply for a pick; `EasterEggReply` and `EasterEggReachesEveryone` state its range |
| Dispatcher.SenderId | app.py:349-350 | the camel-case id wins when it is non-empty, otherwise the snake-case id is used; a missing or empty id is no id |
| Dispatcher.SubscribeAnswer | app.py:348-375 | the subscribe branch saves a list only when there is a sender id |
| Dispatcher.UnsubscribeAnswer | app.py:377-404 | the unsubscribe branch saves a list only when there is a sender id |
| Dispatcher.HandleCommand | app.py:218-427 | a list is saved only for a subscribe or unsubscribe phrase with a sender id |
| Dispatcher.HandleText | app.py:212-427 | a list is saved only when the stripped text is a subscribe or unsubscribe phrase and there is a sender id |
| Dispatcher.FixedPhrasesReachTheirRules | app.py:219-407 | each fixed phrase reaches its own rule, so no earlier rule shadows it |
| Dispatcher.TableKeyReachesRateRule | app.py:328-330 | every table key reaches the rate rule with its own symbol |
| Dispatcher.SubscribePhraseReachesRule | app.py:348 | both subscribe phrases reach the subscribe rule |
| Dispatcher.UnsubscribePhraseReachesRule | app.py:377 | both unsubscribe phrases reach the unsubscribe rule |
| Dispatcher.RateCommandAnswer | app.py:328-345 | a table key is answered by the rate branch with its own symbol's rate |
| Dispatcher.EasterEggCommandAnswer | app.py:407-419 | the easter-egg phrase is answered by the easter-egg branch |
| Dispatcher.RateRuleIsTableLookup | app.py:328-329 | the rate rule fires exactly for the table's keys and fetches the key's own symbol |
| Dispatcher.ClassifyEcho | app.py:421-427 | the echo fires exactly for texts that match no phrase |
| Dispatcher.EchoFallback | app.py:421-427 | an unmatched message is echoed back stripped, and nothing is saved |
| Dispatcher.HandleTextStripped | app.py:213 | a message and its stripped form get the same handling |
| Dispatcher.FixedReplies | app.py:238-325 | the menu phrase is answered with the prompt and the eight items; the list phrase with the header and the five names, one per line |
| Dispatcher.RateReply | app.py:328-345 | a currency token gets `"{text} 匯率：{rate}"` when the rate is truthy, and the failure message otherwise; nothing is saved |
| Dispatcher.SubscribeReply | app.py:348-375 | no id: an error and no save; already subscribed: a notice and no save; otherwise the id is appended, saved, and confirmed |
| Dispatcher.UnsubscribeReply | app.py:377-404 | no id: an error and no save; subscribed: the first occurrence is removed, saved, and confirmed; otherwise "not subscribed" and no save |
| Dispatcher.HandleTextKeepsStoreValid | app.py:348-404 | every text event keeps the stored list duplicate-free and free of empty ids |
| Dispatcher.EasterEggReply | app.py:407-419 | the easter egg answers `德德喜歡{p}！` for some listed person and saves nothing |
| Dispatcher.EasterEggReachesEveryone | app.py:408-412 | every listed person can be the pick |
| Dispatcher.HandleMessage | app.py:212-427 | the handler replies as the rules say; when the rules save a list, the file ends as that save's outcome leaves it, and otherwise it is unchanged |
| Dispatcher.SubscribeSender | app.py:348-375 | the in-place subscribe branch replies and saves exactly as the subscribe rule says |
| Dispatcher.UnsubscribeSender | app.py:377-404 | the in-place unsubscribe branch replies and saves exactly as the unsubscribe rule says |
| Dispatcher.RateReplyWhenFetchFails | app.py:328-345 | a currency token whose quote page fails to load or does not answer 200 gets the failure message |
| Dispatcher.RateReplyFromScraper | app.py:328-345 | a currency token is answered with its rate exactly when the scraper found one |
| Dispatcher.NzdRateReply | app.py:219-235 | the default rate command shows the NZD rate exactly when the fixed NZD page yielded one, and the failure notice otherwise |

## Left out

- The Flask route `/callback` (app.py:150-168), the webhook signature check and the SDK's event parsing are framework code. The model starts from the event's text, source and postback data.
- The LINE SDK client (`reply_message`, `push_message`) is left out. A reply is the value a handler returns. A push is a record of recipient, text and whether delivery succeeded, and that success is a parameter `delivered`.
- The network and BeautifulSoup are left out. `requests.get` is a parameter `fetch` from a request (URL, user agent, timeout) to an outcome. The parsed page is a flat sequence of elements, each with a tag, its exact `class` value and its text. `soup.find` with a class string is modelled as an exact match on the whole class value.
- The timeouts (6 s and 5 s) are only a field of the request. Timing is not modelled; a timeout counts as a transport error.
- The logging calls are left out (`app.logger`, `print`).
- JSON encoding is left out. A stored file that does not hold an array of strings is treated like an unreadable one. `open(SUBSCRIBERS_FILE, "w")` (app.py:59) truncates the file before `json.dump` writes. A failure after that point therefore leaves an empty or cut-off file. The model represents that file as unreadable (`Corrupt`) and does not model its bytes.
- The background scheduler (app.py:138-147) is not modelled. `send_rate_to_subscribers` is modelled as one call.
- The icon URLs are left as their relative paths. `urljoin` with `request.url_root` depends on the incoming request.
- `random.choice` becomes a parameter `choice`. The pick is `people[choice % 7]`.
- main.py is not part of this model. It is a stand-alone script that fetches the NZD page once and runs the same two `soup.find` calls. It has no exception handling around the request. It parses the page even after a non-200 status. It prints the span's text without stripping it and without a blank test.
- create.py is not part of this model. It is a separate small Flask app that pushes a fixed greeting through the older SDK.
