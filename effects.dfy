// Bot API calls as abstract effects. Every call a handler makes is recorded
// with the outcome Telegram gave it; which calls Telegram accepts is an
// oracle `accepts` passed in by the caller.
module Effects {
  import opened Wrappers
  import Models

  /** One Bot API call with the arguments the handlers vary. */
  datatype Action =
    | AnswerCallback(text: string, alert: bool)
    | SendMessage(chatId: int, text: string)
    | ReplyInChat(chatId: int, threadId: Option<int>, text: string)
    | CopyWithReplyButton(chatId: int, fromChatId: int, messageId: int, ticketId: int)
    | CopyMessage(chatId: int, threadId: Option<int>, fromChatId: int, messageId: int)
    | EditTopic(chatId: int, topicId: int, name: string)
    | CloseTopic(chatId: int, topicId: int)
    | CreateTopic(chatId: int, name: string)
    | EditPanelMarkup(chatId: int, messageId: int, ticketId: int)
    | RemoveKeyboard(chatId: int)   // edit_reply_markup(None) on the pressed message
    | SendMedia(chatId: int, threadId: Option<int>, kind: Models.AttachmentKind, fileId: string, caption: Option<string>)
    | SendDocument(chatId: int, fileName: string)
    | SendEmail(to: string, fileName: string)
    | ShowCabinet(chatId: int)   // "👤 Личный кабинет", the profile card and the main menu

  /** An attempted call and whether it succeeded. */
  datatype Effect = Effect(action: Action, ok: bool)

  function Attempt(a: Action, accepts: Action -> bool): Effect
  {
    Effect(a, accepts(a))
  }

  /** The calls of a log, in order. */
  function Actions(log: seq<Effect>): (r: seq<Action>)
    ensures |r| == |log|
    ensures forall i :: 0 <= i < |log| ==> r[i] == log[i].action
  {
    if |log| == 0 then [] else [log[0].action] + Actions(log[1..])
  }
}
