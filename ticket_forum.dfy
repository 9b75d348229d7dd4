// The forum side of a ticket: every ticket has a topic in the notification
// group; admins change its status from a button panel (`tset:<id>:<mode>`)
// or with /open, /work, /done, and other admin messages in the topic are
// relayed to the ticket's author.
module TicketForum {
  import opened Wrappers
  import opened Text
  import opened Models
  import opened TicketStore
  import Acl
  import opened Effects

  /** aiogram's ContentType, with the members the forum distinguishes. */
  datatype ContentType =
    | TextContent | PhotoContent | VideoContent | DocumentContent | AudioContent
    | VoiceContent | StickerContent | AnimationContent
    | ForumTopicCreated | ForumTopicEdited | ForumTopicClosed | ForumTopicReopened
    | GeneralForumTopicHidden | GeneralForumTopicUnhidden | PinnedMessage
    | NewChatMembers | LeftChatMember | VideoChatScheduled | VideoChatStarted
    | VideoChatEnded | VideoChatParticipantsInvited | MessageAutoDeleteTimerChanged
    | SuccessfulPayment | ContactContent | LocationContent | OtherContent

  /** _SYSTEM_CONTENT_TYPES: service messages and contact/location shares. */
  predicate IsSystemContent(k: ContentType)
  {
    !(k.TextContent? || k.PhotoContent? || k.VideoContent? || k.DocumentContent? || k.AudioContent?
      || k.VoiceContent? || k.StickerContent? || k.AnimationContent? || k.OtherContent?)
  }

  /** A message in the group; `text` is "" when the message has none. */
  datatype GroupMessage = GroupMessage(
    chatId: int, messageId: int, senderId: int, senderIsBot: bool,
    isTopicMessage: bool, threadId: Option<int>, contentType: ContentType, text: string)

  predicate IsSlashText(text: string)
  {
    StartsWith(text, "/")
  }

  /** _is_system_message: a system content type, a bot's message, or '/'-text. */
  predicate IsSystemMessage(m: GroupMessage)
  {
    IsSystemContent(m.contentType) || m.senderIsBot || IsSlashText(m.text)
  }

  // ---------- topic names ----------

  /** _status_emoji (through TicketStatus.emoji, which agrees with it). */
  function StatusEmoji(s: TicketStatus): string
  {
    Emoji(StatusValue(s))
  }

  /** The name _rename_topic gives a ticket's topic. */
  function TopicName(s: TicketStatus, id: nat): string
  {
    StatusEmoji(s) + " Заявка №" + NatToString(id)
  }

  /** A topic name tells both the status and the ticket id. */
  lemma TopicNameInjective(s1: TicketStatus, id1: nat, s2: TicketStatus, id2: nat)
    ensures TopicName(s1, id1) == TopicName(s2, id2) <==> s1 == s2 && id1 == id2
  {
    if TopicName(s1, id1) == TopicName(s2, id2) {
      var n1, n2 := TopicName(s1, id1), TopicName(s2, id2);
      assert n1[0] == StatusEmoji(s1)[0] && n2[0] == StatusEmoji(s2)[0];
      LabelsDistinguishStatuses(s1, s2);
      var k := |StatusEmoji(s1) + " Заявка №"|;
      assert n1[k..] == NatToString(id1);
      assert n2[k..] == NatToString(id2);
      NatToStringDigits(id1);
      NatToStringDigits(id2);
    }
  }

  // ---------- the mode words shared by the panel and the commands ----------

  /** status_map: "open", "work" and "done" name the three statuses. */
  function ModeStatus(mode: string): Option<TicketStatus>
  {
    if mode == "open" then Some(Open)
    else if mode == "work" then Some(Work)
    else if mode == "done" then Some(Cancelled)
    else None
  }

  /** The mode word of a status on the panel buttons. */
  function ModeWord(s: TicketStatus): string
  {
    match s
    case Open => "open"
    case Work => "work"
    case Cancelled => "done"
  }

  lemma ModeCodec(s: TicketStatus, mode: string)
    ensures ModeStatus(ModeWord(s)) == Some(s)
    ensures ModeStatus(mode) == Some(s) <==> mode == ModeWord(s)
  {
  }

  // ---------- the panel's callback data ----------

  datatype PanelData = Malformed | UnknownMode | PanelCommand(ticketId: int, status: TicketStatus)

  /** `_, sid, smode = data.split(":")` then `int(sid)` (either failing is
    * Malformed), then the status_map lookup. */
  function ParsePanelData(data: string): (r: PanelData)
    ensures r.PanelCommand? ==> |Split(data, ':')| == 3 && PyInt(Split(data, ':')[1]) == Some(r.ticketId)
                                && ModeStatus(Split(data, ':')[2]) == Some(r.status)
    ensures r.UnknownMode? <==> (|Split(data, ':')| == 3 && PyInt(Split(data, ':')[1]).Some?
                                 && ModeStatus(Split(data, ':')[2]).None?)
  {
    var parts := Split(data, ':');
    if |parts| != 3 then Malformed
    else match PyInt(parts[1])
      case None => Malformed
      case Some(id) =>
        match ModeStatus(parts[2])
        case None => UnknownMode
        case Some(s) => PanelCommand(id, s)
  }

  /** The callback data of the panel button for status `s` (status_panel_kb). */
  function PanelButtonData(id: nat, s: TicketStatus): string
  {
    "tset:" + NatToString(id) + ":" + ModeWord(s)
  }

  /** Every panel button parses back to its own ticket and status. */
  lemma PanelDataRoundTrip(id: nat, s: TicketStatus)
    ensures ParsePanelData(PanelButtonData(id, s)) == PanelCommand(id, s)
  {
    var parts := ["tset", NatToString(id), ModeWord(s)];
    NatToStringDigits(id);
    assert ':' !in NatToString(id) by {
      forall i | 0 <= i < |NatToString(id)| ensures NatToString(id)[i] != ':' {
        assert IsDigit(NatToString(id)[i]);
      }
    }
    assert Join(parts, ':') == PanelButtonData(id, s) by {
      assert parts[1..][1..] == [ModeWord(s)];
      assert Join(parts[1..], ':') == NatToString(id) + ":" + ModeWord(s);
    }
    SplitJoin(parts, ':');
    PyIntOfIntToString(id);
  }

  // ---------- slash commands ----------

  /** `text.lower().lstrip("/").split("@")[0].split()[0]`; `None` where that
    * raises IndexError (no word is left). */
  function CommandWord(text: string): Option<string>
  {
    FirstWord(Split(LStripChar(Lower(text), '/'), '@')[0])
  }

  predicate LowerWord(w: string)
  {
    |w| > 0 && forall i :: 0 <= i < |w| ==> 'a' <= w[i] <= 'z'
  }

  /** "/w", "/w@bot" and "/w args" all give the command word `w`. */
  lemma CommandWordOf(w: string, rest: string)
    requires LowerWord(w)
    requires |rest| == 0 || rest[0] == '@' || IsSpace(rest[0])
    ensures CommandWord("/" + w + rest) == Some(w)
  {
    var l := Lower(rest);
    assert Lower("/" + w + rest) == "/" + w + l by {
      forall i | 0 <= i < |w| ensures LowerChar(w[i]) == w[i] { }
    }
    assert ("/" + w + l)[1..] == w + l;
    assert LStripChar(w + l, '/') == w + l by { assert (w + l)[0] == w[0]; }
    SplitHeadAppend(w, l, '@');
    var p := Split(l, '@')[0];
    if |l| > 0 && l[0] != '@' {
      assert l[0] == rest[0];
      SplitHeadStarts(l, '@');
    }
    TakeWordOf(w, p);
    assert LStrip(w + p) == w + p by { assert (w + p)[0] == w[0]; }
  }

  /** A slash on its own leaves no command word. */
  lemma BareSlashHasNoWord()
    ensures CommandWord("/") == None
  {
    assert Lower("/") == "/";
    assert LStripChar("/", '/') == LStripChar("", '/');
  }

  lemma {:induction false} SplitHeadAppend(a: string, b: string, sep: char)
    requires sep !in a
    ensures Split(a + b, sep)[0] == a + Split(b, sep)[0]
    decreases |a|
  {
    if |a| > 0 {
      assert (a + b)[1..] == a[1..] + b;
      assert sep !in a[1..] by { assert forall c :: c in a[1..] ==> c in a; }
      SplitHeadAppend(a[1..], b, sep);
      assert [a[0]] + a[1..] == a;
    } else {
      assert a + b == b;
    }
  }

  lemma SplitHeadStarts(s: string, sep: char)
    requires |s| > 0 && s[0] != sep
    ensures |Split(s, sep)[0]| > 0 && Split(s, sep)[0][0] == s[0]
  {
  }

  lemma {:induction false} TakeWordOf(w: string, t: string)
    requires forall i :: 0 <= i < |w| ==> !IsSpace(w[i])
    requires |t| == 0 || IsSpace(t[0])
    ensures TakeWord(w + t) == w
    decreases |w|
  {
    if |w| > 0 {
      assert (w + t)[1..] == w[1..] + t;
      TakeWordOf(w[1..], t);
      assert [w[0]] + w[1..] == w;
    } else {
      assert w + t == t;
    }
  }

  // ---------- messages ----------

  /** The author notice: "ℹ️ Ваша заявка №{id} {status_text}.\nСтатус: <b>{label}</b>". */
  function AuthorNotice(id: nat, s: TicketStatus): string
  {
    var statusText := match s
      case Open => "возвращена в работу"
      case Work => "взята в работу"
      case Cancelled => "завершена";
    "ℹ️ Ваша заявка №" + NatToString(id) + " " + statusText + ".\nСтатус: <b>" + Label(StatusValue(s)) + "</b>"
  }

  function PanelAnnouncement(id: nat, s: TicketStatus): string
  {
    "🔔 Статус заявки №" + NatToString(id) + " изменён на: <b>" + Label(StatusValue(s)) + "</b>"
  }

  /** _rename_topic then _close_topic_if_done; failures are swallowed, so
    * both are attempted whatever the other's outcome. */
  function TopicUpdates(chatId: int, threadId: int, id: nat, s: TicketStatus, accepts: Action -> bool): seq<Effect>
  {
    [Attempt(EditTopic(chatId, threadId, TopicName(s, id)), accepts)]
    + (if s == Cancelled then [Attempt(CloseTopic(chatId, threadId), accepts)] else [])
  }

  // ---------- the status panel ----------

  /** What a panel click decides before touching the store: the alert it
    * answers with, or the ticket and status to apply. */
  datatype Decision = Refuse(text: string, alert: bool) | Apply(ticketId: nat, status: TicketStatus)

  /** The guards of on_status_panel_click in their order; `channelId` 0 means
    * no notification chat is configured, and `bound` is the ticket bound to
    * the message's topic (None when the message has no topic). */
  function PanelDecision(channelId: int, chatId: int, isAdmin: bool, data: string, bound: Option<Ticket>): Decision
  {
    if channelId != 0 && chatId != channelId then Refuse("Неверный чат.", false)
    else if !isAdmin then Refuse("Только для администраторов.", true)
    else match ParsePanelData(data)
      case Malformed => Refuse("Некорректные данные.", true)
      case UnknownMode => Refuse("Неизвестный статус.", true)
      case PanelCommand(id, s) =>
        if bound.None? || bound.value.id != id then Refuse("Заявка не найдена в этом топике.", true)
        else Apply(bound.value.id, s)
  }

  /** A click changes a status only in the configured chat, from an admin,
    * with well-formed data naming exactly the ticket of the click's topic;
    * it may set the status the ticket already has. */
  lemma PanelAppliesOnlyWhenAuthorised(channelId: int, chatId: int, isAdmin: bool, data: string,
                                       bound: Option<Ticket>, id: nat, s: TicketStatus)
    ensures PanelDecision(channelId, chatId, isAdmin, data, bound) == Apply(id, s)
      <==> (&& (channelId == 0 || chatId == channelId)
            && isAdmin
            && ParsePanelData(data) == PanelCommand(id, s)
            && bound.Some? && bound.value.id == id)
  {
  }

  /** The topic's ticket for a thread id that Python finds truthy. */
  function TopicTicket(tickets: map<nat, Ticket>, nextId: nat, chatId: int, threadId: Option<int>): Option<Ticket>
  {
    if threadId.Some? && threadId.value != 0 then FirstBound(tickets, chatId, threadId.value, 1, nextId) else None
  }

  /** What follows a successful write on the panel path: rename and close,
    * the author notice (failure swallowed), the announcement in the topic
    * (a failure ends the handler), then the refreshed keyboard and the empty
    * callback answer, which share one try. */
  function PanelEffects(chatId: int, threadId: int, panelMessageId: int, id: nat, s: TicketStatus,
                        author: int, accepts: Action -> bool): seq<Effect>
  {
    var announce := ReplyInChat(chatId, Some(threadId), PanelAnnouncement(id, s));
    var markup := EditPanelMarkup(chatId, panelMessageId, id);
    TopicUpdates(chatId, threadId, id, s, accepts)
    + [Attempt(SendMessage(author, AuthorNotice(id, s)), accepts), Attempt(announce, accepts)]
    + (if !accepts(announce) then []
       else [Attempt(markup, accepts)]
            + (if accepts(markup) then [Attempt(AnswerCallback("", false), accepts)] else []))
  }

  /** After a write the rename, the close of a finished ticket and the author
    * notice are attempted whatever Telegram answers to each of them. */
  lemma PanelEffectsAttemptEverything(chatId: int, threadId: int, panelMessageId: int, id: nat, s: TicketStatus,
                                      author: int, accepts: Action -> bool)
    ensures var acts := Actions(PanelEffects(chatId, threadId, panelMessageId, id, s, author, accepts));
      && acts[0] == EditTopic(chatId, threadId, TopicName(s, id))
      && (CloseTopic(chatId, threadId) in acts <==> s == Cancelled)
      && SendMessage(author, AuthorNotice(id, s)) in acts
      && (EditPanelMarkup(chatId, panelMessageId, id) in acts
          <==> accepts(ReplyInChat(chatId, Some(threadId), PanelAnnouncement(id, s))))
  {
    PanelEffectsHead(chatId, threadId, panelMessageId, id, s, author, accepts);
    PanelEffectsTail(chatId, threadId, panelMessageId, id, s, author, accepts);
  }

  lemma PanelEffectsHead(chatId: int, threadId: int, panelMessageId: int, id: nat, s: TicketStatus,
                         author: int, accepts: Action -> bool)
    ensures var acts := Actions(PanelEffects(chatId, threadId, panelMessageId, id, s, author, accepts));
      && acts[0] == EditTopic(chatId, threadId, TopicName(s, id))
      && (CloseTopic(chatId, threadId) in acts <==> s == Cancelled)
      && SendMessage(author, AuthorNotice(id, s)) in acts
  {
    var log := PanelEffects(chatId, threadId, panelMessageId, id, s, author, accepts);
    var acts := Actions(log);
    var k := if s == Cancelled then 2 else 1;
    assert acts[k] == SendMessage(author, AuthorNotice(id, s));
    if s == Cancelled {
      assert acts[1] == CloseTopic(chatId, threadId);
    } else {
      forall i | 0 <= i < |acts| ensures acts[i] != CloseTopic(chatId, threadId) {
        assert log[i] in log;
      }
    }
  }

  lemma PanelEffectsTail(chatId: int, threadId: int, panelMessageId: int, id: nat, s: TicketStatus,
                         author: int, accepts: Action -> bool)
    ensures var acts := Actions(PanelEffects(chatId, threadId, panelMessageId, id, s, author, accepts));
      EditPanelMarkup(chatId, panelMessageId, id) in acts
      <==> accepts(ReplyInChat(chatId, Some(threadId), PanelAnnouncement(id, s)))
  {
    var log := PanelEffects(chatId, threadId, panelMessageId, id, s, author, accepts);
    var acts := Actions(log);
    var k := if s == Cancelled then 2 else 1;
    if accepts(ReplyInChat(chatId, Some(threadId), PanelAnnouncement(id, s))) {
      assert acts[k + 2] == EditPanelMarkup(chatId, panelMessageId, id);
    } else {
      assert |acts| == k + 2;
      forall i | 0 <= i < |acts| ensures acts[i] != EditPanelMarkup(chatId, panelMessageId, id) {
        assert log[i] in log;
      }
    }
  }

  /** on_status_panel_click, for data the router let through ("tset:" prefix). */
  method OnStatusPanelClick(store: Store, admins: Acl.AdminRegistry, channelId: int, chatId: int,
                            threadId: Option<int>, panelMessageId: int, senderId: int, data: string,
                            accepts: Action -> bool)
    returns (d: Decision, log: seq<Effect>)
    requires store.Valid()
    requires StartsWith(data, "tset:")
    modifies store`tickets
    ensures store.Valid()
    ensures d == PanelDecision(channelId, chatId, admins.IsAdmin(senderId), data,
                               TopicTicket(old(store.tickets), store.nextId, chatId, threadId))
    ensures d.Refuse? ==> store.tickets == old(store.tickets)
                          && log == [Attempt(AnswerCallback(d.text, d.alert), accepts)]
    ensures d.Apply? ==>
      && d.ticketId in old(store.tickets)
      && store.tickets == old(store.tickets)[d.ticketId := old(store.tickets)[d.ticketId].(status := d.status)]
      && log == PanelEffects(chatId, threadId.value, panelMessageId, d.ticketId, d.status,
                             store.AuthorOf(old(store.tickets)[d.ticketId]), accepts)
  {
    var bound := None;
    if threadId.Some? && threadId.value != 0 {
      bound := store.GetTicketByThread(chatId, threadId.value);
      FirstBoundIsLowestBound(store.tickets, chatId, threadId.value, 1, store.nextId);
    }
    d := PanelDecision(channelId, chatId, admins.IsAdmin(senderId), data, bound);
    if d.Refuse? {
      log := [Attempt(AnswerCallback(d.text, d.alert), accepts)];
      return;
    }
    assert bound.Some? && bound.value.id == d.ticketId;
    var id, s, thread := d.ticketId, d.status, threadId.value;
    var author := store.AuthorOf(store.tickets[id]);
    var res := store.SetTicketStatus(id, s);
    if res.None? {
      // set_ticket_status only fails for a missing ticket, and this one was just read
      assert false;
    }
    log := PanelEffects(chatId, thread, panelMessageId, id, s, author, accepts);
  }

  // ---------- slash commands in a topic ----------

  /** handle_status_command's decision: a reply, or the status to apply. */
  function CommandDecision(bound: Option<Ticket>, cmd: string): Decision
  {
    if bound.None? then Refuse("⚠️ Заявка для этого топика не найдена.", false)
    else match ModeStatus(cmd)
      case None => Refuse("❌ Неизвестная команда.", false)
      case Some(s) =>
        if bound.value.status == s then Refuse("ℹ️ Заявка уже имеет статус: " + Label(StatusValue(s)), false)
        else Apply(bound.value.id, s)
  }

  /** Unlike the panel, a command never rewrites the status a ticket already has. */
  lemma CommandChangesStatus(bound: Option<Ticket>, cmd: string)
    ensures CommandDecision(bound, cmd).Apply? <==>
      bound.Some? && ModeStatus(cmd).Some? && ModeStatus(cmd).value != bound.value.status
    ensures CommandDecision(bound, cmd).Apply? ==>
      CommandDecision(bound, cmd) == Apply(bound.value.id, ModeStatus(cmd).value)
  {
  }

  /** After a write: the author notice (failure swallowed), rename, close,
    * and the confirmation reply. */
  function CommandEffects(chatId: int, threadId: int, id: nat, s: TicketStatus, author: int,
                          accepts: Action -> bool): seq<Effect>
  {
    [Attempt(SendMessage(author, AuthorNotice(id, s)), accepts)]
    + TopicUpdates(chatId, threadId, id, s, accepts)
    + [Attempt(ReplyInChat(chatId, Some(threadId), "✅ Статус изменён на: <b>" + Label(StatusValue(s)) + "</b>"), accepts)]
  }

  /** handle_status_command. */
  method HandleStatusCommand(store: Store, chatId: int, threadId: int, cmd: string, accepts: Action -> bool)
    returns (d: Decision, log: seq<Effect>)
    requires store.Valid()
    modifies store`tickets
    ensures store.Valid()
    ensures d == CommandDecision(FirstBound(old(store.tickets), chatId, threadId, 1, store.nextId), cmd)
    ensures d.Refuse? ==> store.tickets == old(store.tickets)
                          && log == [Attempt(ReplyInChat(chatId, Some(threadId), d.text), accepts)]
    ensures d.Apply? ==>
      && d.ticketId in old(store.tickets)
      && store.tickets == old(store.tickets)[d.ticketId := old(store.tickets)[d.ticketId].(status := d.status)]
      && log == CommandEffects(chatId, threadId, d.ticketId, d.status,
                               store.AuthorOf(old(store.tickets)[d.ticketId]), accepts)
  {
    var bound := store.GetTicketByThread(chatId, threadId);
    FirstBoundIsLowestBound(store.tickets, chatId, threadId, 1, store.nextId);
    d := CommandDecision(bound, cmd);
    if d.Refuse? {
      log := [Attempt(ReplyInChat(chatId, Some(threadId), d.text), accepts)];
      return;
    }
    var author := store.AuthorOf(store.tickets[d.ticketId]);
    var res := store.SetTicketStatus(d.ticketId, d.status);
    if res.None? {
      assert false;
    }
    log := [Attempt(SendMessage(author, AuthorNotice(d.ticketId, d.status)), accepts)];
    log := log + TopicUpdates(chatId, threadId, d.ticketId, d.status, accepts);
    log := log + [Attempt(ReplyInChat(chatId, Some(threadId), "✅ Статус изменён на: <b>" + Label(StatusValue(d.status)) + "</b>"), accepts)];
  }

  // ---------- every group message ----------

  /** Where debug_all_group_messages sends a message. */
  datatype Route =
    | Ignored              // wrong place, not an admin, system message, or a command it leaves alone
    | StatusCommand(cmd: string)
    | NoCommandWord        // '/'-text with no word: IndexError
    | NoTicket
    | Relay(ticket: Ticket)

  function RouteOf(channelId: int, m: GroupMessage, isAdmin: bool, bound: Option<Ticket>): Route
  {
    if !m.isTopicMessage || m.threadId.None? then Ignored
    else if channelId != 0 && m.chatId != channelId then Ignored
    else if !isAdmin then Ignored
    else if IsSlashText(m.text) then
      match CommandWord(m.text)
      case None => NoCommandWord
      case Some(w) => if ModeStatus(w).Some? then StatusCommand(w) else Ignored
    else if IsSystemMessage(m) then Ignored
    else if bound.None? then NoTicket
    else Relay(bound.value)
  }

  /** A group message is relayed only when it is a topic message in the
    * configured chat, from an admin, not a system or '/'-message, and its
    * topic has a ticket; and every such message is relayed. */
  lemma RelayConditions(channelId: int, m: GroupMessage, isAdmin: bool, bound: Option<Ticket>)
    ensures RouteOf(channelId, m, isAdmin, bound).Relay? <==>
      (&& m.isTopicMessage && m.threadId.Some?
       && (channelId == 0 || m.chatId == channelId)
       && isAdmin
       && !IsSystemMessage(m)
       && bound.Some?)
    ensures RouteOf(channelId, m, isAdmin, bound).Relay? ==> RouteOf(channelId, m, isAdmin, bound).ticket == bound.value
  {
  }

  /** Only open, work and done (after normalisation) reach handle_status_command. */
  lemma CommandRouting(channelId: int, m: GroupMessage, isAdmin: bool, bound: Option<Ticket>)
    ensures RouteOf(channelId, m, isAdmin, bound).StatusCommand? ==>
      && IsSlashText(m.text) && isAdmin
      && CommandWord(m.text) == Some(RouteOf(channelId, m, isAdmin, bound).cmd)
      && RouteOf(channelId, m, isAdmin, bound).cmd in {"open", "work", "done"}
  {
  }

  /** _send_to_author: nothing without an author; the header and the copy
    * share one try, so a failed header skips the copy. */
  function RelayEffects(author: int, m: GroupMessage, id: nat, accepts: Action -> bool): seq<Effect>
  {
    var header := SendMessage(author, "📨 Сообщение по вашей заявке №" + NatToString(id) + ":");
    if author == 0 then []
    else if !accepts(header) then [Attempt(header, accepts)]
    else [Attempt(header, accepts), Attempt(CopyWithReplyButton(author, m.chatId, m.messageId, id), accepts)]
  }

  /** The copy reaches the author only after the header did. */
  lemma RelayCopyNeedsHeader(author: int, m: GroupMessage, id: nat, accepts: Action -> bool)
    ensures var log := RelayEffects(author, m, id, accepts);
      && (|log| == 2 <==> author != 0 && accepts(SendMessage(author, "📨 Сообщение по вашей заявке №" + NatToString(id) + ":")))
      && (|log| == 2 ==> log[1].action == CopyWithReplyButton(author, m.chatId, m.messageId, id))
  {
  }

  /** The ticket of a group message's topic. */
  function GroupBound(tickets: map<nat, Ticket>, nextId: nat, m: GroupMessage): Option<Ticket>
  {
    if m.threadId.Some? then FirstBound(tickets, m.chatId, m.threadId.value, 1, nextId) else None
  }

  /** debug_all_group_messages. A `NoCommandWord` route is the handler
    * raising; nothing was sent and nothing changed. */
  method OnGroupMessage(store: Store, admins: Acl.AdminRegistry, channelId: int, m: GroupMessage,
                        accepts: Action -> bool)
    returns (route: Route, log: seq<Effect>)
    requires store.Valid()
    modifies store`tickets
    ensures store.Valid()
    ensures route == RouteOf(channelId, m, admins.IsAdmin(m.senderId), GroupBound(old(store.tickets), store.nextId, m))
    ensures !route.StatusCommand? ==> store.tickets == old(store.tickets)
    ensures route.Relay? ==> log == RelayEffects(store.AuthorOf(route.ticket), m, route.ticket.id, accepts)
    ensures route.StatusCommand? ==>
      var d := CommandDecision(GroupBound(old(store.tickets), store.nextId, m), route.cmd);
      && (d.Refuse? ==> store.tickets == old(store.tickets)
                        && log == [Attempt(ReplyInChat(m.chatId, m.threadId, d.text), accepts)])
      && (d.Apply? ==>
          && d.ticketId in old(store.tickets)
          && store.tickets == old(store.tickets)[d.ticketId := old(store.tickets)[d.ticketId].(status := d.status)]
          && log == CommandEffects(m.chatId, m.threadId.value, d.ticketId, d.status,
                                   store.AuthorOf(old(store.tickets)[d.ticketId]), accepts))
    ensures !route.Relay? && !route.StatusCommand? ==> log == []
  {
    log := [];
    if !m.isTopicMessage || m.threadId.None? || (channelId != 0 && m.chatId != channelId) || !admins.IsAdmin(m.senderId) {
      return Ignored, [];
    }
    var thread := m.threadId.value;
    if IsSlashText(m.text) {
      var w := CommandWord(m.text);
      if w.None? {
        return NoCommandWord, [];
      }
      if ModeStatus(w.value).Some? {
        var d;
        d, log := HandleStatusCommand(store, m.chatId, thread, w.value, accepts);
        return StatusCommand(w.value), log;
      }
      return Ignored, [];
    }
    if IsSystemMessage(m) {
      return Ignored, [];
    }
    var bound := store.GetTicketByThread(m.chatId, thread);
    if bound.None? {
      return NoTicket, [];
    }
    route := Relay(bound.value);
    log := RelayEffects(store.AuthorOf(bound.value), m, bound.value.id, accepts);
  }
}
