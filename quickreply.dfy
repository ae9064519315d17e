/** The quick-reply menu sent for the `quick_reply` command: eight fixed actions.
    Icons are given by their path under the service's static directory; the
    absolute URL built from the request's origin is not modelled. */
module QuickReply {
  import opened Wrappers

  datatype Action =
    | PostbackAction(name: string, data: string, displayText: string)
    | MessageAction(name: string, text: string)
    | DatetimePickerAction(name: string, data: string, mode: string,
                           initial: Option<string>, max: Option<string>, min: Option<string>)
    | CameraAction(name: string)
    | CameraRollAction(name: string)
    | LocationAction(name: string)

  datatype Item = Item(action: Action, icon: Option<string>)

  const MenuPrompt := "請選擇項目"

  const Menu: seq<Item> := [
    Item(PostbackAction("Postback", "postback", "postback"), Some("static/postback.png")),
    Item(MessageAction("Message", "message"), Some("static/message.png")),
    Item(DatetimePickerAction("Date", "date", "date", None, None, None), Some("static/calendar.png")),
    Item(DatetimePickerAction("Time", "time", "time", None, None, None), Some("static/time.png")),
    Item(DatetimePickerAction("Datetime", "datetime", "datetime",
                              Some("2024-01-01T00:00"), Some("2025-01-01T00:00"), Some("2023-01-01T00:00")),
         Some("static/calendar.png")),
    Item(CameraAction("Camera"), None),
    Item(CameraRollAction("Camera Roll"), None),
    Item(LocationAction("Location"), None)
  ]

  /** The data token an action sends back as a postback, if it sends one. */
  function PostbackData(a: Action): Option<string> {
    match a
    case PostbackAction(_, data, _) => Some(data)
    case DatetimePickerAction(_, data, _, _, _, _) => Some(data)
    case _ => None
  }

  /** The menu's layout: eight items, the first five with an icon and the last
      three without; exactly four of them send a postback, namely the postback
      action and the three pickers, each picker sending its own mode as data. */
  lemma MenuLayout()
    ensures |Menu| == 8
    ensures forall i :: 0 <= i < |Menu| ==> (Menu[i].icon.Some? <==> i < 5)
    ensures forall i :: 0 <= i < |Menu| ==> (PostbackData(Menu[i].action).Some? <==> i == 0 || 2 <= i <= 4)
    ensures forall i :: 0 <= i < |Menu| && Menu[i].action.DatetimePickerAction? ==>
      Menu[i].action.data == Menu[i].action.mode
  {
  }
}
