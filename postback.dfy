/** `handle_postback`: the reply to a postback event, from its data token and
    the picker parameters that came with it. */
module Postback {
  import opened Wrappers
  import opened QuickReply

  /** The tokens that get a reply. */
  const AnsweredTokens := ["postback", "date", "time", "datetime"]

  /** The reply text, or `None` when nothing is sent. */
  function HandlePostback(data: string, params: map<string, string>): (r: Option<string>)
    ensures r.Some? <==> data in AnsweredTokens
    ensures data == "postback" ==> r == Some("Postback")
    ensures data in AnsweredTokens && data != "postback" ==> r == Some(GetOr(params, data, ""))
  {
    if data == "postback" then Some("Postback")
    else if data == "date" then Some(GetOr(params, "date", ""))
    else if data == "time" then Some(GetOr(params, "time", ""))
    else if data == "datetime" then Some(GetOr(params, "datetime", ""))
    else None
  }

  /** Every action of the quick-reply menu that sends a postback gets a reply,
      and a picker's reply is the value it picked (empty if none came back). */
  lemma MenuPostbacksAnswered(i: nat, params: map<string, string>)
    requires i < |Menu| && PostbackData(Menu[i].action).Some?
    ensures HandlePostback(PostbackData(Menu[i].action).value, params).Some?
    ensures Menu[i].action.DatetimePickerAction? ==>
      HandlePostback(Menu[i].action.data, params) == Some(GetOr(params, Menu[i].action.mode, ""))
  {
    assert i == 0 || i == 2 || i == 3 || i == 4;
  }
}
