// The ReplyToDispatcher conversation: the user presses "reply to the
// dispatcher" under a ticket, the bot remembers the ticket's forum topic,
// and the next message the user sends is copied into that topic.
module ReplyDispatcher {
  import opened Wrappers
  import opened Text
  import opened Effects
  import TicketStore
  import UserKeyboards

  const BadIdText := "Некорректный идентификатор заявки."
  const NoThreadText := "К этой заявке ещё не привязан чат диспетчера. Попробуйте позже."
  const CancelledText := "❌ Отменено. Сообщение диспетчеру не отправлено."
  const NothingToCancelText := "Нет активного ввода."
  const NotSentText := "⚠️ Не удалось отправить."
  const HeaderText := "👤 Сообщение от пользователя:"
  const DeliveredText := "✅ Отправлено диспетчеру."
  const RetryText := "❌ Не удалось отправить сообщение диспетчеру. Повторите позже."

  function PromptText(ticketId: nat): string
  {
    "✍️ Напишите сообщение (фото/документ/голос) — я передам его диспетчеру по заявке №"
    + NatToString(ticketId) + ".\nЧтобы отменить — нажмите кнопку 🔙 Назад"
  }

  /** `parts = data.split(":")`; the id when there are exactly two parts and
    * the second is all digits. */
  function ParseReplyData(data: string): Option<nat>
  {
    var parts := Split(data, ':');
    if |parts| != 2 || !AllDigits(parts[1]) then None else Some(DigitsValue(parts[1]))
  }

  /** str(id) never contains ':'. */
  lemma NoColonInIntToString(id: int)
    ensures ':' !in IntToString(id)
  {
    var m: nat := if id < 0 then -id else id;
    NatToStringDigits(m);
    var d := NatToString(m);
    assert ':' !in d by {
      forall i | 0 <= i < |d| ensures d[i] != ':' {
        assert IsDigit(d[i]);
      }
    }
    if id < 0 {
      assert IntToString(id) == "-" + d;
    }
  }

  /** The reply button's data parses back to its ticket id; a negative id
    * (never produced for a stored ticket) is refused. */
  lemma ReplyDataRoundTrip(id: int)
    ensures ParseReplyData(UserKeyboards.ReplyData(id)) == if id >= 0 then Some(id) else None
  {
    var s := IntToString(id);
    NoColonInIntToString(id);
    var parts := ["user_reply", s];
    assert Join(parts, ':') == UserKeyboards.ReplyData(id);
    SplitJoin(parts, ':');
    assert Split(UserKeyboards.ReplyData(id), ':')[1] == s;
    if id < 0 {
      assert s[0] == '-';
    } else {
      NatToStringDigits(id);
    }
  }

  /** Data with more or fewer ':'-separated parts than two is refused. */
  lemma ReplyDataNeedsTwoParts(data: string)
    requires |Split(data, ':')| != 2
    ensures ParseReplyData(data) == None
  {
  }

  /** The state data set by start_user_reply. */
  datatype ReplyTarget = ReplyTarget(ticketId: int, groupChatId: int, threadId: int)

  /** `all([ticket_id, group_chat_id, thread_id])`. */
  predicate Complete(t: ReplyTarget)
  {
    t.ticketId != 0 && t.groupChatId != 0 && t.threadId != 0
  }

  /** What a relay attempt sends, in order: the header and the copy into the
    * topic whatever the header's fate, then the acknowledgement when the copy
    * went through, and the retry notice when the copy or the acknowledgement
    * failed. */
  function RelayLog(t: ReplyTarget, userChat: int, messageId: int, accepts: Action -> bool): (log: seq<Effect>)
    ensures !Complete(t) ==> Actions(log) == [SendMessage(userChat, NotSentText)]
    ensures Complete(t) ==>
      (&& |log| >= 3
       && log[0].action == ReplyInChat(t.groupChatId, Some(t.threadId), HeaderText)
       && log[1].action == CopyMessage(t.groupChatId, Some(t.threadId), userChat, messageId))
    ensures Complete(t) && log[1].ok ==> log[2].action == SendMessage(userChat, DeliveredText)
    ensures Complete(t) && !log[1].ok ==> Actions(log[2..]) == [SendMessage(userChat, RetryText)]
    ensures forall i :: 0 <= i < |log| ==> log[i].ok == accepts(log[i].action)
  {
    if !Complete(t) then [Attempt(SendMessage(userChat, NotSentText), accepts)]
    else
      var header := Attempt(ReplyInChat(t.groupChatId, Some(t.threadId), HeaderText), accepts);
      var copy := Attempt(CopyMessage(t.groupChatId, Some(t.threadId), userChat, messageId), accepts);
      var retry := Attempt(SendMessage(userChat, RetryText), accepts);
      if !copy.ok then [header, copy, retry]
      else
        var ack := Attempt(SendMessage(userChat, DeliveredText), accepts);
        if ack.ok then [header, copy, ack] else [header, copy, ack, retry]
  }

  /** Whether the relay ends the conversation: it does when the target was
    * incomplete, and when the copy went through, because the history (and
    * with it the state) is cleared before the acknowledgement is sent. */
  predicate RelayClears(t: ReplyTarget, log: seq<Effect>)
  {
    !Complete(t) || (|log| >= 2 && log[1].ok)
  }

  /** A failed copy never clears the state, so the user's next message retries. */
  lemma FailedCopyKeepsWaiting(t: ReplyTarget, userChat: int, messageId: int, accepts: Action -> bool)
    requires Complete(t)
    requires !accepts(CopyMessage(t.groupChatId, Some(t.threadId), userChat, messageId))
    ensures !RelayClears(t, RelayLog(t, userChat, messageId, accepts))
  {
  }

  /** A rejected header does not stop the copy, and a delivered copy ends
    * the conversation. */
  lemma HeaderFailureStillDelivers(t: ReplyTarget, userChat: int, messageId: int, accepts: Action -> bool)
    requires Complete(t)
    requires !accepts(ReplyInChat(t.groupChatId, Some(t.threadId), HeaderText))
    requires accepts(CopyMessage(t.groupChatId, Some(t.threadId), userChat, messageId))
    ensures RelayClears(t, RelayLog(t, userChat, messageId, accepts))
    ensures CopyMessage(t.groupChatId, Some(t.threadId), userChat, messageId) in Actions(RelayLog(t, userChat, messageId, accepts))
  {
    var log := RelayLog(t, userChat, messageId, accepts);
    assert Actions(log)[1] == log[1].action;
  }

  /** A refused acknowledgement after a delivered copy still ends the
    * conversation, and the user is told to retry although the dispatcher
    * has the message. */
  lemma AckFailureStillEnds(t: ReplyTarget, userChat: int, messageId: int, accepts: Action -> bool)
    requires Complete(t)
    requires accepts(CopyMessage(t.groupChatId, Some(t.threadId), userChat, messageId))
    requires !accepts(SendMessage(userChat, DeliveredText))
    ensures RelayClears(t, RelayLog(t, userChat, messageId, accepts))
    ensures Actions(RelayLog(t, userChat, messageId, accepts))[2..] ==
      [SendMessage(userChat, DeliveredText), SendMessage(userChat, RetryText)]
  {
  }

  /** The per-chat FSM of this conversation: `Some(target)` is the
    * waiting_message state with its data, `None` any other state. */
  class ReplyConversation {
    var waiting: Option<ReplyTarget>

    constructor ()
      ensures waiting == None
    {
      waiting := None;
    }

    /** start_user_reply (the router only passes data starting with "user_reply:"). */
    method Start(store: TicketStore.Store, data: string, userChat: int, accepts: Action -> bool)
      returns (log: seq<Effect>)
      requires StartsWith(data, "user_reply:")
      modifies this
      ensures ParseReplyData(data).None? ==>
        waiting == old(waiting) && log == [Attempt(AnswerCallback(BadIdText, true), accepts)]
      ensures ParseReplyData(data).Some? && store.TicketThreadInfo(ParseReplyData(data).value).None? ==>
        waiting == old(waiting) && log == [Attempt(AnswerCallback(NoThreadText, true), accepts)]
      ensures ParseReplyData(data).Some? && store.TicketThreadInfo(ParseReplyData(data).value).Some? ==>
        var id := ParseReplyData(data).value;
        var info := store.TicketThreadInfo(id).value;
        var prompt := Attempt(SendMessage(userChat, PromptText(id)), accepts);
        && waiting == Some(ReplyTarget(id, info.0, info.1))
        && log == [prompt] + (if prompt.ok then [Attempt(AnswerCallback("", false), accepts)] else [])
    {
      var id := ParseReplyData(data);
      if id.None? {
        log := [Attempt(AnswerCallback(BadIdText, true), accepts)];
        return;
      }
      var info := store.TicketThreadInfo(id.value);
      if info.None? {
        log := [Attempt(AnswerCallback(NoThreadText, true), accepts)];
        return;
      }
      waiting := Some(ReplyTarget(id.value, info.value.0, info.value.1));
      var prompt := Attempt(SendMessage(userChat, PromptText(id.value)), accepts);
      log := [prompt];
      if prompt.ok {
        log := log + [Attempt(AnswerCallback("", false), accepts)];
      }
    }

    /** cancel_reply: "/cancel" ends the conversation only while it waits. */
    method Cancel() returns (reply: string)
      modifies this
      ensures old(waiting).Some? ==> waiting == None && reply == CancelledText
      ensures old(waiting).None? ==> waiting == None && reply == NothingToCancelText
    {
      if waiting.Some? {
        waiting := None;
        reply := CancelledText;
      } else {
        reply := NothingToCancelText;
      }
    }

    /** relay_user_message_to_topic: the user's message while waiting. */
    method Relay(userChat: int, messageId: int, accepts: Action -> bool) returns (log: seq<Effect>)
      requires waiting.Some?
      modifies this
      ensures log == RelayLog(old(waiting).value, userChat, messageId, accepts)
      ensures waiting == if RelayClears(old(waiting).value, log) then None else old(waiting)
    {
      var t := waiting.value;
      if !(t.ticketId != 0 && t.groupChatId != 0 && t.threadId != 0) {
        log := [Attempt(SendMessage(userChat, NotSentText), accepts)];
        waiting := None;
        return;
      }
      var header := Attempt(ReplyInChat(t.groupChatId, Some(t.threadId), HeaderText), accepts);
      var copy := Attempt(CopyMessage(t.groupChatId, Some(t.threadId), userChat, messageId), accepts);
      log := [header, copy];
      if !copy.ok {
        log := log + [Attempt(SendMessage(userChat, RetryText), accepts)];
        return;
      }
      waiting := None;
      var ack := Attempt(SendMessage(userChat, DeliveredText), accepts);
      log := log + [ack];
      if !ack.ok {
        log := log + [Attempt(SendMessage(userChat, RetryText), accepts)];
      }
    }
  }
}
