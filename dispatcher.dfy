/** `handle_message`: the reply to a text message. The stripped text is compared
    against an ordered list of exact phrases and the first rule that matches
    decides the one reply; subscribe and unsubscribe also rewrite the stored list.

    The rate lookups are given as what the two fetchers return: `rateOf(symbol)`
    for `get_rate(symbol)` and `nzdRate` for `get_nzd_twd_rate()`. The scraper
    module models both; the lemmas at the end compose the two modules. */
module Dispatcher {
  import opened Wrappers
  import opened Text
  import opened Symbols
  import opened Scraper
  import opened Subscribers
  import opened QuickReply

  /** What is sent with the event's reply token: a text, or a text with the menu attached. */
  datatype Reply = TextReply(text: string) | MenuReply(text: string, items: seq<Item>)

  /** The event's source as the handler looks at it: its `userId` attribute and
      its `user_id` attribute, either of which may be absent. */
  datatype Source = Source(camelCaseId: Option<string>, snakeCaseId: Option<string>)

  /** The phrases of the rules, in the order they are tried. */
  const NzdRatePhrase := "給我匯率"
  const MenuPhrase := "quick_reply"
  const RateListPhrase := "匯率清單"
  const SubscribePhrases := ["訂閱匯率", "訂閱"]
  const UnsubscribePhrases := ["取消訂閱", "取消訂閱匯率"]
  const EasterEggPhrase := "德德喜歡誰"

  /** The texts that some rule other than the echo matches. */
  predicate IsCommandPhrase(text: string) {
    || text in [NzdRatePhrase, MenuPhrase, RateListPhrase, EasterEggPhrase]
    || text in RateSymbols
    || text in SubscribePhrases
    || text in UnsubscribePhrases
  }

  /** The fixed reply texts. */
  const NzdRatePrefix := "目前紐西蘭幣（NZD）對台幣（TWD）的匯率是：\n👉 "
  const NzdRateFailure := "目前無法取得匯率 QQ（可能是 Yahoo 改版或暫時無法連線）"
  const RateListHeader := "我們支援的匯率：\n"
  const RateInfix := " 匯率："
  const RateFailure := "無法取得匯率，請稍後再試。"
  const NoIdForSubscribe := "無法取得你的 user id，無法完成訂閱。"
  const AlreadySubscribed := "你已經訂閱過每日匯率通知。"
  const NowSubscribed := "已訂閱每日匯率（每天 08:00）。"
  const NoIdForUnsubscribe := "無法取得你的 user id，無法完成取消訂閱。"
  const NowUnsubscribed := "已取消訂閱每日匯率。"
  const NotSubscribed := "你尚未訂閱每日匯率。"

  /** The names the easter egg picks from. */
  const People := ["威威", "伯伯", "小鄒", "錢錢", "小菜", "toby", "ㄈㄈ"]

  /** The rule a stripped text falls under. */
  datatype Command =
    | NzdRateCommand
    | MenuCommand
    | RateListCommand
    | RateCommand(symbol: string)
    | SubscribeCommand
    | UnsubscribeCommand
    | EasterEggCommand
    | EchoCommand

  /** The ordered exact-match rules; the first that matches wins. */
  function Classify(text: string): Command {
    if text == NzdRatePhrase then NzdRateCommand
    else if text == MenuPhrase then MenuCommand
    else if text == RateListPhrase then RateListCommand
    else if text in RateSymbols then RateCommand(RateSymbols[text])
    else if text in SubscribePhrases then SubscribeCommand
    else if text in UnsubscribePhrases then UnsubscribeCommand
    else if text == EasterEggPhrase then EasterEggCommand
    else EchoCommand
  }

  /** `getattr(source, "userId", None) or getattr(source, "user_id", None)`,
      then `if not user_id`: a missing or empty id is no id. */
  function SenderId(src: Source): (r: Option<string>)
    ensures r.Some? ==> r.value != "" && (r == src.camelCaseId || r == src.snakeCaseId)
    ensures r.None? <==> !Truthy(src.camelCaseId) && !Truthy(src.snakeCaseId)
    ensures Truthy(src.camelCaseId) ==> r == src.camelCaseId
  {
    var u := if Truthy(src.camelCaseId) then src.camelCaseId else src.snakeCaseId;
    if Truthy(u) then u else None
  }

  /** The outcome of one text event: the reply, and the list written back to the
      subscribers file if the handler saves one. */
  datatype Handled = Handled(reply: Reply, saved: Option<seq<string>>)

  /** The default rate command's answer. */
  function NzdRateAnswer(nzdRate: Option<string>): Handled {
    Handled(TextReply(if Truthy(nzdRate) then NzdRatePrefix + nzdRate.value else NzdRateFailure), None)
  }

  /** A currency token's answer. */
  function RateAnswer(text: string, rate: Option<string>): Handled {
    Handled(TextReply(if Truthy(rate) then text + RateInfix + rate.value else RateFailure), None)
  }

  /** The subscribe branch, on the list `load_subscribers()` returned. */
  function SubscribeAnswer(src: Source, stored: seq<string>): (h: Handled)
    ensures h.saved.Some? ==> SenderId(src).Some?
  {
    match SenderId(src)
    case None => Handled(TextReply(NoIdForSubscribe), None)
    case Some(id) =>
      if id in stored then Handled(TextReply(AlreadySubscribed), None)
      else Handled(TextReply(NowSubscribed), Some(stored + [id]))
  }

  /** The unsubscribe branch, on the list `load_subscribers()` returned. */
  function UnsubscribeAnswer(src: Source, stored: seq<string>): (h: Handled)
    ensures h.saved.Some? ==> SenderId(src).Some?
  {
    match SenderId(src)
    case None => Handled(TextReply(NoIdForUnsubscribe), None)
    case Some(id) =>
      if id in stored then Handled(TextReply(NowUnsubscribed), Some(RemoveFirst(stored, id)))
      else Handled(TextReply(NotSubscribed), None)
  }

  /** The easter egg's answer; `choice` stands for the pick of `random.choice`. */
  function EasterEggAnswer(choice: nat): Handled {
    Handled(TextReply("德德喜歡" + People[choice % |People|] + "！"), None)
  }

  /** The rules applied to the already stripped `text`. */
  function HandleCommand(text: string, src: Source, stored: seq<string>,
                         rateOf: string -> Option<string>, nzdRate: Option<string>, choice: nat): (h: Handled)
    ensures h.saved.Some? ==> SenderId(src).Some? && text in SubscribePhrases + UnsubscribePhrases
  {
    match Classify(text)
    case NzdRateCommand => NzdRateAnswer(nzdRate)
    case MenuCommand => Handled(MenuReply(MenuPrompt, Menu), None)
    case RateListCommand => Handled(TextReply(RateListHeader + Join("\n", SupportedNames)), None)
    case RateCommand(symbol) => RateAnswer(text, rateOf(symbol))
    case SubscribeCommand => SubscribeAnswer(src, stored)
    case UnsubscribeCommand => UnsubscribeAnswer(src, stored)
    case EasterEggCommand => EasterEggAnswer(choice)
    case EchoCommand => Handled(TextReply(text), None)
  }

  /** `handle_message` on the raw text of a message. `stored` is what
      `load_subscribers()` returns. */
  function HandleText(raw: string, src: Source, stored: seq<string>,
                      rateOf: string -> Option<string>, nzdRate: Option<string>, choice: nat): (h: Handled)
    ensures h.saved.Some? ==> SenderId(src).Some? && Strip(raw) in SubscribePhrases + UnsubscribePhrases
  {
    HandleCommand(Strip(raw), src, stored, rateOf, nzdRate, choice)
  }

  /** The rule phrases are pairwise distinct, so each command phrase reaches its
      own rule and the order of the rules changes the outcome of no input. */
  lemma FixedPhrasesReachTheirRules()
    ensures Classify(NzdRatePhrase) == NzdRateCommand
    ensures Classify(MenuPhrase) == MenuCommand
    ensures Classify(RateListPhrase) == RateListCommand
    ensures Classify(EasterEggPhrase) == EasterEggCommand
  {
  }

  /** Every key of the symbol table reaches the rate rule with its own symbol. */
  lemma TableKeyReachesRateRule(t: string)
    requires t in RateSymbols
    ensures Classify(t) == RateCommand(RateSymbols[t])
  {
  }

  /** Both subscribe phrases reach the subscribe rule. */
  lemma SubscribePhraseReachesRule(t: string)
    requires t in SubscribePhrases
    ensures Classify(t) == SubscribeCommand
  {
  }

  /** Both unsubscribe phrases reach the unsubscribe rule. */
  lemma UnsubscribePhraseReachesRule(t: string)
    requires t in UnsubscribePhrases
    ensures Classify(t) == UnsubscribeCommand
  {
  }

  /** A table key is handled by the rate rule with the key's own symbol. */
  lemma RateCommandAnswer(text: string, src: Source, stored: seq<string>,
                          rateOf: string -> Option<string>, nzdRate: Option<string>, choice: nat)
    requires text in RateSymbols
    ensures HandleCommand(text, src, stored, rateOf, nzdRate, choice) == RateAnswer(text, rateOf(RateSymbols[text]))
  {
    TableKeyReachesRateRule(text);
  }

  /** The easter-egg phrase is handled by the easter-egg rule. */
  lemma EasterEggCommandAnswer(text: string, src: Source, stored: seq<string>,
                               rateOf: string -> Option<string>, nzdRate: Option<string>, choice: nat)
    requires text == EasterEggPhrase
    ensures HandleCommand(text, src, stored, rateOf, nzdRate, choice) == EasterEggAnswer(choice)
  {
    FixedPhrasesReachTheirRules();
  }

  /** The rate rule fires exactly for the keys of the symbol table and fetches the
      key's own symbol: an unknown token never reaches the fetcher. */
  lemma RateRuleIsTableLookup(text: string)
    ensures Classify(text).RateCommand? <==> text in RateSymbols
    ensures Classify(text).RateCommand? ==> Resolve(text) == Some(Classify(text).symbol)
  {
    if text in RateSymbols {
      TableKeyReachesRateRule(text);
    }
  }

  /** The echo rule fires exactly for the texts that match no phrase. */
  lemma ClassifyEcho(text: string)
    ensures Classify(text) == EchoCommand <==> !IsCommandPhrase(text)
  {
  }

  /** A text that matches no phrase is echoed back, stripped, and nothing is saved. */
  lemma EchoFallback(raw: string, src: Source, stored: seq<string>,
                     rateOf: string -> Option<string>, nzdRate: Option<string>, choice: nat)
    ensures !IsCommandPhrase(Strip(raw)) ==>
      HandleText(raw, src, stored, rateOf, nzdRate, choice) == Handled(TextReply(Strip(raw)), None)
  {
    ClassifyEcho(Strip(raw));
  }

  /** Only the stripped text matters: a message and its stripped form are handled alike. */
  lemma HandleTextStripped(raw: string, src: Source, stored: seq<string>,
                           rateOf: string -> Option<string>, nzdRate: Option<string>, choice: nat)
    ensures HandleText(raw, src, stored, rateOf, nzdRate, choice)
         == HandleText(Strip(raw), src, stored, rateOf, nzdRate, choice)
  {
    StripIdempotent(raw);
  }

  /** The menu phrase is answered with the prompt and the eight quick-reply items,
      and the list phrase with the header and the five names, one per line. */
  lemma FixedReplies(raw: string, src: Source, stored: seq<string>,
                     rateOf: string -> Option<string>, nzdRate: Option<string>, choice: nat)
    ensures Strip(raw) == MenuPhrase ==>
      HandleText(raw, src, stored, rateOf, nzdRate, choice) == Handled(MenuReply(MenuPrompt, Menu), None)
    ensures Strip(raw) == RateListPhrase ==>
      HandleText(raw, src, stored, rateOf, nzdRate, choice)
        == Handled(TextReply(RateListHeader + Join("\n", SupportedNames)), None)
  {
    FixedPhrasesReachTheirRules();
  }

  /** A currency token is answered with `"{text} 匯率：{rate}"` when its rate was
      read, and with the failure message otherwise; nothing is saved. */
  lemma RateReply(raw: string, src: Source, stored: seq<string>,
                  rateOf: string -> Option<string>, nzdRate: Option<string>, choice: nat)
    requires Strip(raw) in RateSymbols
    ensures var rate := rateOf(RateSymbols[Strip(raw)]);
      HandleText(raw, src, stored, rateOf, nzdRate, choice) ==
        Handled(TextReply(if Truthy(rate) then Strip(raw) + RateInfix + rate.value else RateFailure), None)
  {
    RateCommandAnswer(Strip(raw), src, stored, rateOf, nzdRate, choice);
  }

  /** Subscribe: without an id, an error and no save; an id already in the list,
      "already subscribed" and no save; otherwise the id appended, saved, and
      "subscribed". */
  lemma SubscribeReply(raw: string, src: Source, stored: seq<string>,
                       rateOf: string -> Option<string>, nzdRate: Option<string>, choice: nat)
    requires Strip(raw) in SubscribePhrases
    ensures var h := HandleText(raw, src, stored, rateOf, nzdRate, choice);
      && (SenderId(src).None? ==> h == Handled(TextReply(NoIdForSubscribe), None))
      && (SenderId(src).Some? && SenderId(src).value in stored ==> h == Handled(TextReply(AlreadySubscribed), None))
      && (SenderId(src).Some? && SenderId(src).value !in stored ==>
            h == Handled(TextReply(NowSubscribed), Some(Subscribe(stored, SenderId(src).value))))
  {
    SubscribePhraseReachesRule(Strip(raw));
  }

  /** Unsubscribe: without an id, an error and no save; an id in the list, its
      first occurrence removed, saved, and "unsubscribed"; otherwise "not
      subscribed" and no save. */
  lemma UnsubscribeReply(raw: string, src: Source, stored: seq<string>,
                         rateOf: string -> Option<string>, nzdRate: Option<string>, choice: nat)
    requires Strip(raw) in UnsubscribePhrases
    ensures var h := HandleText(raw, src, stored, rateOf, nzdRate, choice);
      && (SenderId(src).None? ==> h == Handled(TextReply(NoIdForUnsubscribe), None))
      && (SenderId(src).Some? && SenderId(src).value in stored ==>
            h == Handled(TextReply(NowUnsubscribed), Some(Unsubscribe(stored, SenderId(src).value))))
      && (SenderId(src).Some? && SenderId(src).value !in stored ==> h == Handled(TextReply(NotSubscribed), None))
  {
    UnsubscribePhraseReachesRule(Strip(raw));
  }

  /** The store's invariant (no duplicates, no empty id) survives every text event. */
  lemma HandleTextKeepsStoreValid(raw: string, src: Source, stored: seq<string>,
                                  rateOf: string -> Option<string>, nzdRate: Option<string>, choice: nat)
    requires NoDuplicates(stored) && "" !in stored
    ensures var h := HandleText(raw, src, stored, rateOf, nzdRate, choice);
      h.saved.Some? ==> NoDuplicates(h.saved.value) && "" !in h.saved.value
  {
    var h := HandleText(raw, src, stored, rateOf, nzdRate, choice);
    if h.saved.Some? {
      var id := SenderId(src).value;
      if Strip(raw) in SubscribePhrases {
        SubscribeReply(raw, src, stored, rateOf, nzdRate, choice);
        SubscribeMembers(stored, id);
      } else {
        UnsubscribeReply(raw, src, stored, rateOf, nzdRate, choice);
        UnsubscribeMembers(stored, id);
      }
    }
  }

  /** The easter egg answers `德德喜歡{p}！` for one of the listed people and saves nothing. */
  lemma EasterEggReply(raw: string, src: Source, stored: seq<string>,
                       rateOf: string -> Option<string>, nzdRate: Option<string>, choice: nat)
    requires Strip(raw) == EasterEggPhrase
    ensures HandleText(raw, src, stored, rateOf, nzdRate, choice).saved == None
    ensures var reply := HandleText(raw, src, stored, rateOf, nzdRate, choice).reply;
      exists p :: p in People && reply == TextReply("德德喜歡" + p + "！")
  {
    EasterEggCommandAnswer(Strip(raw), src, stored, rateOf, nzdRate, choice);
    assert People[choice % |People|] in People;
  }

  /** Every one of the listed people can be the easter egg's pick. */
  lemma EasterEggReachesEveryone(raw: string, src: Source, stored: seq<string>,
                                 rateOf: string -> Option<string>, nzdRate: Option<string>, p: string)
    requires Strip(raw) == EasterEggPhrase && p in People
    ensures exists c: nat :: HandleText(raw, src, stored, rateOf, nzdRate, c).reply == TextReply("德德喜歡" + p + "！")
  {
    var c: nat :| c < |People| && People[c] == p;
    assert EasterEggAnswer(c).reply == TextReply("德德喜歡" + p + "！") by {
      assert c % |People| == c;
    }
    EasterEggCommandAnswer(Strip(raw), src, stored, rateOf, nzdRate, c);
    assert HandleText(raw, src, stored, rateOf, nzdRate, c) == EasterEggAnswer(c);
  }

  /** The event handler `handle_message` step by step: the same rules, with the loaded
      list changed in place and written back by the subscribe and unsubscribe
      branches. `outcome` says how writing the file ends, should the handler write it. */
  method HandleMessage(file: SubscriberFile, raw: string, src: Source,
                       rateOf: string -> Option<string>, nzdRate: Option<string>, choice: nat, outcome: WriteOutcome)
    returns (reply: Reply)
    modifies file
    ensures var h := HandleText(raw, src, old(file.Load()), rateOf, nzdRate, choice);
      && reply == h.reply
      && file.contents == (if h.saved.Some? then AfterSave(old(file.contents), h.saved.value, outcome) else old(file.contents))
  {
    var text := Strip(raw);
    var command := Classify(text);
    if command == SubscribeCommand {
      reply := SubscribeSender(file, src, outcome);
    } else if command == UnsubscribeCommand {
      reply := UnsubscribeSender(file, src, outcome);
    } else {
      reply := HandleCommand(text, src, file.Load(), rateOf, nzdRate, choice).reply;
    }
  }

  /** The subscribe branch: load, append the id in place if it is new, save. */
  method SubscribeSender(file: SubscriberFile, src: Source, outcome: WriteOutcome) returns (reply: Reply)
    modifies file
    ensures var h := SubscribeAnswer(src, old(file.Load()));
      && reply == h.reply
      && file.contents == (if h.saved.Some? then AfterSave(old(file.contents), h.saved.value, outcome) else old(file.contents))
  {
    var userId := SenderId(src);
    if userId.None? {
      return TextReply(NoIdForSubscribe);
    }
    var subs := new SubscriberList(file.Load());
    if userId.value in subs.ids {
      return TextReply(AlreadySubscribed);
    }
    subs.Append(userId.value);
    file.Save(subs.ids, outcome);
    return TextReply(NowSubscribed);
  }

  /** The unsubscribe branch: load, remove the id in place if it is there, save. */
  method UnsubscribeSender(file: SubscriberFile, src: Source, outcome: WriteOutcome) returns (reply: Reply)
    modifies file
    ensures var h := UnsubscribeAnswer(src, old(file.Load()));
      && reply == h.reply
      && file.contents == (if h.saved.Some? then AfterSave(old(file.contents), h.saved.value, outcome) else old(file.contents))
  {
    var userId := SenderId(src);
    if userId.None? {
      return TextReply(NoIdForUnsubscribe);
    }
    var subs := new SubscriberList(file.Load());
    if userId.value in subs.ids {
      subs.Remove(userId.value);
      file.Save(subs.ids, outcome);
      return TextReply(NowUnsubscribed);
    }
    return TextReply(NotSubscribed);
  }

  /** Composed with the scraper: a currency token whose
      quote page cannot be fetched, or answers with a status other than 200, gets
      the failure message. */
  lemma RateReplyWhenFetchFails(raw: string, src: Source, stored: seq<string>,
                                fetch: HttpRequest -> HttpOutcome, choice: nat)
    requires Strip(raw) in RateSymbols
    requires !fetch(RateRequest(RateSymbols[Strip(raw)])).HttpResponse?
          || fetch(RateRequest(RateSymbols[Strip(raw)])).status != 200
    ensures HandleText(raw, src, stored, sym => GetRate(sym, fetch), GetNzdTwdRate(fetch), choice)
         == Handled(TextReply(RateFailure), None)
  {
    RateReply(raw, src, stored, sym => GetRate(sym, fetch), GetNzdTwdRate(fetch), choice);
  }

  /** Composed with the scraper: since a scraped rate is never blank, a currency
      token is answered with its rate exactly when the scraper found one. */
  lemma RateReplyFromScraper(raw: string, src: Source, stored: seq<string>,
                             fetch: HttpRequest -> HttpOutcome, choice: nat)
    requires Strip(raw) in RateSymbols
    ensures var rate := GetRate(RateSymbols[Strip(raw)], fetch);
      HandleText(raw, src, stored, sym => GetRate(sym, fetch), GetNzdTwdRate(fetch), choice)
        == Handled(TextReply(if rate.Some? then Strip(raw) + RateInfix + rate.value else RateFailure), None)
  {
    RateReply(raw, src, stored, sym => GetRate(sym, fetch), GetNzdTwdRate(fetch), choice);
    RateTruthy(RateSymbols[Strip(raw)], fetch);
  }

  /** Composed with the scraper: the default rate command shows the NZD rate
      exactly when the fixed NZD page yielded one. */
  lemma NzdRateReply(raw: string, src: Source, stored: seq<string>,
                     fetch: HttpRequest -> HttpOutcome, choice: nat)
    requires Strip(raw) == NzdRatePhrase
    ensures var rate := GetNzdTwdRate(fetch);
      HandleText(raw, src, stored, sym => GetRate(sym, fetch), rate, choice)
        == Handled(TextReply(if rate.Some? then NzdRatePrefix + rate.value else NzdRateFailure), None)
  {
    RateTruthy("NZDTWD=X", fetch);
  }
}
