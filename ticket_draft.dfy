// The user's ticket draft: text first, then attachments (single files and
// albums, with a deferred "album received" notice), then a preview that is
// confirmed into a stored ticket with a forum topic and admin notices. Also
// the owner's cancellation of an active ticket.
module TicketDraft {
  import opened Wrappers
  import opened Text
  import opened Models
  import TicketStore
  import Acl
  import opened Effects
  import TicketForum
  import Calendar

  /** TicketStates, with Idle for a cleared conversation. */
  datatype DraftState = Idle | WaitingText | Attachments | Preview

  /** At most this many handled message ids are remembered. */
  const MaxHandled := 100

  /** The minimum raw length of an accepted ticket text. */
  const MinTextLength := 5

  datatype FileRef = FileRef(fileId: string, uniqueId: string)

  /** The media of an incoming message; a photo comes in several sizes, smallest first. */
  datatype Media =
    | PhotoMedia(sizes: seq<FileRef>)
    | VideoMedia(file: FileRef)
    | DocumentMedia(file: FileRef)
    | AudioMedia(file: FileRef)
    | VoiceMedia(file: FileRef)

  /** A media message; `mediaGroupId` is "" when it is not part of an album. */
  datatype MediaMessage = MediaMessage(messageId: int, mediaGroupId: string, media: Media, caption: Option<string>)

  /** An attachment as the draft keeps it. */
  datatype DraftAttachment = DraftAttachment(kind: AttachmentKind, fileId: string, fileUniqueId: string, caption: Option<string>)

  /** A scheduled send_album_completion_message with the arguments it captured. */
  datatype Finalizer = Finalizer(taskId: nat, albumCount: nat, total: nat)

  function KindOf(m: Media): AttachmentKind
  {
    match m
    case PhotoMedia(_) => Photo
    case VideoMedia(_) => Video
    case DocumentMedia(_) => Document
    case AudioMedia(_) => Audio
    case VoiceMedia(_) => Voice
  }

  /** The attachment a message contributes: the largest photo size, and no
    * caption for a voice note; a photo without sizes contributes nothing. */
  function AttachmentOf(m: MediaMessage): (r: Option<DraftAttachment>)
    ensures r.None? <==> m.media.PhotoMedia? && |m.media.sizes| == 0
    ensures r.Some? ==> r.value.kind == KindOf(m.media)
    ensures r.Some? ==> r.value.caption == if m.media.VoiceMedia? then None else m.caption
    ensures r.Some? && m.media.PhotoMedia? ==>
      var largest := m.media.sizes[|m.media.sizes| - 1];
      r.value.fileId == largest.fileId && r.value.fileUniqueId == largest.uniqueId
    ensures r.Some? && !m.media.PhotoMedia? ==>
      r.value.fileId == m.media.file.fileId && r.value.fileUniqueId == m.media.file.uniqueId
  {
    match m.media
    case PhotoMedia(sizes) =>
      if |sizes| == 0 then None
      else Some(DraftAttachment(Photo, sizes[|sizes| - 1].fileId, sizes[|sizes| - 1].uniqueId, m.caption))
    case VideoMedia(f) => Some(DraftAttachment(Video, f.fileId, f.uniqueId, m.caption))
    case DocumentMedia(f) => Some(DraftAttachment(Document, f.fileId, f.uniqueId, m.caption))
    case AudioMedia(f) => Some(DraftAttachment(Audio, f.fileId, f.uniqueId, m.caption))
    case VoiceMedia(f) => Some(DraftAttachment(Voice, f.fileId, f.uniqueId, None))
  }

  function OptionSeq<T>(o: Option<T>): seq<T>
  {
    if o.Some? then [o.value] else []
  }

  /** `set(list(handled)[-100:])` after an add: once over the limit, one
    * element goes; which one is the set's iteration order, here `dropAt`. */
  function Trimmed(h: seq<int>, dropAt: nat): (r: seq<int>)
    ensures |h| <= MaxHandled ==> r == h
    ensures |h| > MaxHandled ==> |r| == |h| - 1
    ensures forall x :: x in r ==> x in h
    ensures Acl.Distinct(h) ==> Acl.Distinct(r)
  {
    if |h| <= MaxHandled then h
    else
      var k := dropAt % |h|;
      h[..k] + h[k + 1..]
  }

  /** Dropping one id keeps every other one. */
  lemma TrimmedKeepsOthers(h: seq<int>, dropAt: nat, x: int)
    requires |h| > MaxHandled && x in h && x != h[dropAt % |h|]
    ensures x in Trimmed(h, dropAt)
  {
    var k := dropAt % |h|;
    var i :| 0 <= i < |h| && h[i] == x;
    if i < k {
      assert Trimmed(h, dropAt)[i] == x;
    } else {
      assert Trimmed(h, dropAt)[i - 1] == x;
    }
  }

  const TextAccepted := "📝 Текст принят.\n\n📎 Теперь прикрепите фото/видео/документы/аудио/голосовые (можно несколько).\nКогда закончите — нажмите «Готово» или «Отмена»."
  const TextTooShort := "❗ Текст заявки слишком короткий.\nПожалуйста, опишите проблему подробнее (минимум 5 символов)."

  /** The notice for a finished album, with the total at that moment. */
  function AlbumNotice(count: nat, total: int): string
  {
    "✅ Принят альбом из " + NatToString(count) + " файлов. Всего прикреплено: " + IntToString(total)
  }

  /** The notice for an album a single file interrupts. */
  function AlbumClosedNotice(count: nat): string
  {
    "✅ Принят альбом из " + NatToString(count) + " файлов."
  }

  function SingleNotice(total: nat): string
  {
    "✅ Вложение принято. Всего прикреплено: " + NatToString(total)
  }

  /** The preview's attachment line: "N шт." or "нет". */
  function AttachmentsSummary(count: nat): (r: string)
    ensures count == 0 <==> r == "нет"
  {
    if count > 0 then NatToString(count) + " шт." else "нет"
  }

  /** The handled window after adding a new id: bounded and repeat-free
    * again, and holding nothing but the old ids and the new one. */
  function Remembered(h: seq<int>, id: int, dropAt: nat): (r: seq<int>)
    requires |h| <= MaxHandled && Acl.Distinct(h) && id !in h
    ensures |r| <= MaxHandled && Acl.Distinct(r)
    ensures forall x :: x in r ==> x in h || x == id
    ensures |h| < MaxHandled ==> r == h + [id]
  {
    var h' := h + [id];
    assert Acl.Distinct(h') by {
      forall i, j | 0 <= i < j < |h'| ensures h'[i] != h'[j] {
        if j == |h| { assert h'[i] in h; }
      }
    }
    Trimmed(h', dropAt)
  }

  /** Whether a new file closes the open album first: there is one with
    * files, and the file is single or from another group. */
  predicate ClosesAlbum(albumId: string, albumCount: nat, gid: string)
  {
    albumId != "" && albumCount > 0 && albumId != gid
  }

  /** The notice that closes an album: with the total before the new file
    * for an album file, without it for a single file. */
  function ClosingNotice(albumCount: nat, gid: string, total: int): string
  {
    if gid != "" then AlbumNotice(albumCount, total) else AlbumClosedNotice(albumCount)
  }

  /** The conversation state of one user (the FSM storage of ticket.py). */
  class Draft {
    const chat: int                // the user's chat, where service messages go
    var state: DraftState
    var text: Option<string>
    var attachments: seq<DraftAttachment>
    var handled: seq<int>          // handled_msg_ids
    var albumId: string            // album["id"], "" for None
    var albumCount: nat            // album["count"]
    var albumTask: Option<nat>     // album_task_id
    var pending: seq<Finalizer>    // finalizers scheduled and not yet run
    var nextTask: nat              // the identity the next finalizer gets
    var notices: seq<Effect>       // service messages attempted in the chat

    /** The handled window is bounded and repeat-free, and the recorded
      * finalizer, if any, is the most recently created one. */
    predicate Valid()
      reads this
    {
      |handled| <= MaxHandled && Acl.Distinct(handled)
      && (albumTask.Some? ==> albumTask.value + 1 == nextTask)
      && (forall i :: 0 <= i < |pending| ==> pending[i].taskId < nextTask)
    }

    constructor(chat: int)
      ensures Valid() && this.chat == chat
      ensures state == Idle && text.None? && attachments == [] && handled == []
      ensures albumId == "" && albumCount == 0 && albumTask.None? && pending == [] && notices == []
    {
      this.chat := chat;
      state, text, attachments, handled := Idle, None, [], [];
      albumId, albumCount, albumTask := "", 0, None;
      pending, nextTask, notices := [], 0, [];
    }

    /** A service message sent to the user's chat. */
    function Notice(t: string, accepts: Action -> bool): Effect
      reads this
    {
      Attempt(SendMessage(chat, t), accepts)
    }

    /** ticket_create_start: a fresh draft waiting for its text. */
    method Start()
      requires Valid()
      modifies this`state, this`attachments, this`handled, this`albumId, this`albumCount, this`albumTask
      ensures Valid()
      ensures state == WaitingText && attachments == [] && handled == []
      ensures albumId == "" && albumCount == 0 && albumTask.None?
    {
      state, attachments, handled := WaitingText, [], [];
      albumId, albumCount, albumTask := "", 0, None;
    }

    /** ticket_text_captured / ticket_text_invalid: text of at least five
      * characters is stored stripped and resets the attachments; shorter
      * text (or none, "") only draws a warning. The state is written before
      * the notice, so a refused notice changes nothing more. */
    method SubmitText(t: string, accepts: Action -> bool)
      requires Valid() && state == WaitingText
      modifies this`state, this`text, this`attachments, this`handled, this`albumId,
               this`albumCount, this`albumTask, this`notices
      ensures Valid()
      ensures |t| >= MinTextLength ==>
        && state == Attachments && text == Some(Strip(t))
        && attachments == [] && handled == [] && albumId == "" && albumCount == 0 && albumTask.None?
        && notices == old(notices) + [Notice(TextAccepted, accepts)]
      ensures |t| < MinTextLength ==>
        && state == WaitingText && text == old(text) && attachments == old(attachments)
        && handled == old(handled) && albumId == old(albumId) && albumCount == old(albumCount)
        && albumTask == old(albumTask) && notices == old(notices) + [Notice(TextTooShort, accepts)]
    {
      if |t| >= MinTextLength {
        text, attachments, handled := Some(Strip(t)), [], [];
        albumId, albumCount, albumTask := "", 0, None;
        state := Attachments;
        notices := notices + [Notice(TextAccepted, accepts)];
      } else {
        notices := notices + [Notice(TextTooShort, accepts)];
      }
    }

    /** ticket_collect_attachments. A message seen before changes nothing.
      * Otherwise the handler builds the new attachment list and handled
      * window, and the album or single-file branch stores them; `stored`
      * says whether it got that far, which fails only when the notice
      * closing an open album is refused and raises. */
    method CollectAttachment(m: MediaMessage, dropAt: nat, accepts: Action -> bool) returns (stored: bool)
      requires Valid() && state == Attachments
      modifies this`attachments, this`handled, this`albumId, this`albumCount, this`albumTask,
               this`pending, this`nextTask, this`notices
      ensures Valid()
      ensures m.messageId in old(handled) ==>
        && !stored
        && attachments == old(attachments) && handled == old(handled) && albumId == old(albumId)
        && albumCount == old(albumCount) && albumTask == old(albumTask) && pending == old(pending)
        && nextTask == old(nextTask) && notices == old(notices)
      ensures m.messageId !in old(handled) ==>
        var atts := old(attachments) + OptionSeq(AttachmentOf(m));
        var closing := Notice(ClosingNotice(old(albumCount), m.mediaGroupId, |atts| - 1), accepts);
        var closes := ClosesAlbum(old(albumId), old(albumCount), m.mediaGroupId);
        && (stored <==> !closes || closing.ok)
        && (!stored ==>
              && notices == old(notices) + [closing]
              && attachments == old(attachments) && handled == old(handled) && albumId == old(albumId)
              && albumCount == old(albumCount) && albumTask == old(albumTask)
              && pending == old(pending) && nextTask == old(nextTask))
        && (stored ==>
              && attachments == atts && handled == Remembered(old(handled), m.messageId, dropAt))
      ensures m.messageId !in old(handled) && stored && m.mediaGroupId != "" ==>
        && albumId == m.mediaGroupId
        && albumCount == (if old(albumId) == m.mediaGroupId then old(albumCount) + 1 else 1)
        && albumTask == Some(old(nextTask)) && nextTask == old(nextTask) + 1
        && pending == old(pending) + [Finalizer(old(nextTask), albumCount, |attachments|)]
        && notices == old(notices)
           + (if ClosesAlbum(old(albumId), old(albumCount), m.mediaGroupId)
              then [Notice(AlbumNotice(old(albumCount), |attachments| - 1), accepts)] else [])
      ensures m.messageId !in old(handled) && stored && m.mediaGroupId == "" ==>
        && albumId == "" && albumCount == 0 && albumTask.None?
        && pending == old(pending) && nextTask == old(nextTask)
        && notices == old(notices)
           + (if ClosesAlbum(old(albumId), old(albumCount), "")
              then [Notice(AlbumClosedNotice(old(albumCount)), accepts)] else [])
           + [Notice(SingleNotice(|attachments|), accepts)]
    {
      if m.messageId in handled {
        return false;
      }
      var h := Remembered(handled, m.messageId, dropAt);
      var atts := attachments + OptionSeq(AttachmentOf(m));
      if m.mediaGroupId != "" {
        stored := AlbumFile(m.mediaGroupId, atts, h, accepts);
      } else {
        stored := SingleFile(atts, h, accepts);
      }
    }

    /** The album branch of ticket_collect_attachments with the handler's
      * new attachment list `atts` and handled window `h`. A file from
      * another group first announces the open album; when that notice is
      * refused the handler raises before update_data, so nothing is
      * stored. Otherwise the lists and the album are stored and a fresh
      * finalizer becomes the recorded one. */
    method AlbumFile(gid: string, atts: seq<DraftAttachment>, h: seq<int>, accepts: Action -> bool)
      returns (stored: bool)
      requires Valid() && gid != "" && |h| <= MaxHandled && Acl.Distinct(h)
      modifies this`attachments, this`handled, this`albumId, this`albumCount, this`albumTask,
               this`pending, this`nextTask, this`notices
      ensures Valid()
      ensures var closing := Notice(AlbumNotice(old(albumCount), |atts| - 1), accepts);
        && (ClosesAlbum(old(albumId), old(albumCount), gid) ==> notices == old(notices) + [closing])
        && (!ClosesAlbum(old(albumId), old(albumCount), gid) ==> notices == old(notices))
        && (stored <==> !ClosesAlbum(old(albumId), old(albumCount), gid) || closing.ok)
      ensures stored ==>
        && attachments == atts && handled == h && albumId == gid
        && albumCount == (if old(albumId) == gid then old(albumCount) + 1 else 1)
        && albumTask == Some(old(nextTask)) && nextTask == old(nextTask) + 1
        && pending == old(pending) + [Finalizer(old(nextTask), albumCount, |atts|)]
      ensures !stored ==>
        && attachments == old(attachments) && handled == old(handled) && albumId == old(albumId)
        && albumCount == old(albumCount) && albumTask == old(albumTask)
        && pending == old(pending) && nextTask == old(nextTask)
    {
      var count := albumCount + 1;
      if albumId != gid {
        if albumId != "" && albumCount > 0 {
          var closing := Notice(AlbumNotice(albumCount, |atts| - 1), accepts);
          notices := notices + [closing];
          if !closing.ok {
            return false;
          }
        }
        count := 1;
      }
      attachments, handled := atts, h;
      albumId, albumCount := gid, count;
      pending := pending + [Finalizer(nextTask, count, |atts|)];
      albumTask := Some(nextTask);
      nextTask := nextTask + 1;
      stored := true;
    }

    /** The single-file branch of ticket_collect_attachments with the
      * handler's new lists. An open album is announced first, and a refused
      * announcement raises before update_data, so nothing is stored and the
      * album stays open. Otherwise the lists are stored, the album and the
      * recorded finalizer are forgotten, and the total is acknowledged; that
      * last notice comes after the update, so its refusal changes nothing. */
    method SingleFile(atts: seq<DraftAttachment>, h: seq<int>, accepts: Action -> bool) returns (stored: bool)
      requires Valid() && |h| <= MaxHandled && Acl.Distinct(h)
      modifies this`attachments, this`handled, this`albumId, this`albumCount, this`albumTask, this`notices
      ensures Valid()
      ensures var closing := Notice(AlbumClosedNotice(old(albumCount)), accepts);
        && (stored <==> !ClosesAlbum(old(albumId), old(albumCount), "") || closing.ok)
        && (!stored ==> notices == old(notices) + [closing])
        && (stored ==> notices == old(notices)
                                  + (if ClosesAlbum(old(albumId), old(albumCount), "") then [closing] else [])
                                  + [Notice(SingleNotice(|atts|), accepts)])
      ensures stored ==>
        attachments == atts && handled == h && albumId == "" && albumCount == 0 && albumTask.None?
      ensures !stored ==>
        && attachments == old(attachments) && handled == old(handled) && albumId == old(albumId)
        && albumCount == old(albumCount) && albumTask == old(albumTask)
    {
      if albumId != "" && albumCount > 0 {
        var closing := Notice(AlbumClosedNotice(albumCount), accepts);
        notices := notices + [closing];
        if !closing.ok {
          return false;
        }
      }
      attachments, handled := atts, h;
      albumId, albumCount, albumTask := "", 0, None;
      notices := notices + [Notice(SingleNotice(|atts|), accepts)];
      stored := true;
    }

    /** send_album_completion_message running for pending[k]: it announces
      * the album only while it is still the recorded finalizer, and clears
      * the record only once that announcement went through (a refused one
      * raises first); `album` itself is left as it is. */
    method FireFinalizer(k: nat, accepts: Action -> bool)
      requires Valid() && k < |pending|
      modifies this`pending, this`albumTask, this`notices
      ensures Valid()
      ensures pending == old(pending[..k] + pending[k + 1..])
      ensures old(albumTask) == Some(old(pending[k]).taskId) ==>
        var notice := Notice(AlbumNotice(old(pending[k]).albumCount, old(pending[k]).total), accepts);
        && notices == old(notices) + [notice]
        && albumTask == (if notice.ok then None else old(albumTask))
      ensures old(albumTask) != Some(old(pending[k]).taskId) ==>
        albumTask == old(albumTask) && notices == old(notices)
      ensures notices != old(notices) ==> old(pending[k]).taskId + 1 == nextTask
    {
      var f := pending[k];
      pending := pending[..k] + pending[k + 1..];
      if albumTask == Some(f.taskId) {
        var notice := Notice(AlbumNotice(f.albumCount, f.total), accepts);
        notices := notices + [notice];
        if notice.ok {
          albumTask := None;
        }
      }
    }

    /** ticket_attachments_done: on to the preview, which reports the count. */
    method AttachmentsDone() returns (summary: string)
      requires Valid() && state == Attachments
      modifies this`state
      ensures Valid() && state == Preview
      ensures summary == AttachmentsSummary(|attachments|)
    {
      state := Preview;
      summary := AttachmentsSummary(|attachments|);
    }

    /** ticket_edit: back to waiting for a new text. */
    method Edit()
      requires Valid() && state == Preview
      modifies this`state
      ensures Valid() && state == WaitingText
    {
      state := WaitingText;
    }

    /** ticket_add_attachments: back to collecting, keeping the attachments
      * and forgetting any album and pending finalizer. */
    method AddAttachments() returns (count: nat)
      requires Valid() && state == Preview
      modifies this`state, this`albumId, this`albumCount, this`albumTask
      ensures Valid() && state == Attachments
      ensures albumId == "" && albumCount == 0 && albumTask.None?
      ensures count == |attachments|
    {
      state := Attachments;
      albumId, albumCount, albumTask := "", 0, None;
      count := |attachments|;
    }

    /** state.clear(): the draft is forgotten; scheduled finalizers stay
      * scheduled but can no longer announce anything. */
    method Clear()
      requires Valid()
      modifies this`state, this`text, this`attachments, this`handled, this`albumId, this`albumCount, this`albumTask
      ensures Valid()
      ensures state == Idle && text.None? && attachments == [] && handled == []
      ensures albumId == "" && albumCount == 0 && albumTask.None?
    {
      state, text, attachments, handled := Idle, None, [], [];
      albumId, albumCount, albumTask := "", 0, None;
    }
  }

  /** A draft cleared while finalizers are still pending: whichever of them
    * runs afterwards announces nothing, and the draft stays cleared, losing
    * only that finalizer from the pending ones. */
  method ClearedDraftIsSilent(d: Draft, k: nat, accepts: Action -> bool)
    requires d.Valid() && k < |d.pending|
    modifies d
    ensures d.Valid()
    ensures d.notices == old(d.notices)
    ensures d.pending == old(d.pending[..k] + d.pending[k + 1..])
    ensures d.state == Idle && d.text.None? && d.attachments == [] && d.handled == []
    ensures d.albumId == "" && d.albumCount == 0 && d.albumTask.None?
  {
    d.Clear();
    d.FireFinalizer(k, accepts);
  }

  // ---------- confirmation ----------

  /** f"{value}" of a nullable column: None prints as "None". */
  function PyStr(o: Option<string>): string
  {
    if o.Some? then o.value else "None"
  }

  /** The applicant's address on the preview and in the notices. */
  function ProfileAddress(u: Option<User>): (r: string)
    ensures u.None? <==> r == ""
  {
    if u.None? then ""
    else
      var base := PyStr(u.value.street) + ", д. " + PyStr(u.value.house);
      assert base[|PyStr(u.value.street)|] == ',';
      if u.value.apartment.Some? && u.value.apartment.value != "" then base + ", кв. " + u.value.apartment.value
      else base
  }

  function OrDash(s: string): string
  {
    if s == "" then "—" else s
  }

  /** The applicant block shared by the topic message and the admin notices. */
  function ApplicantBlock(u: Option<User>, createdText: string): string
  {
    var name := if u.Some? then u.value.name else "—";
    var username := if u.Some? && u.value.username != "" then " (@" + u.value.username + ")" else "";
    var phone := if u.Some? && u.value.phone.Some? && u.value.phone.value != "" then u.value.phone.value else "—";
    "<blockquote><b>Заявитель:</b> " + name + username + "\n<b>Телефон:</b> " + phone
    + "\n<b>Адрес:</b> " + OrDash(ProfileAddress(u)) + "\n<b>Создано:</b> " + createdText + "\n</blockquote>"
  }

  /** The first message in the ticket's topic. */
  function TopicIntro(t: Ticket, u: Option<User>, createdText: string): string
  {
    "<b>Новая заявка №" + NatToString(t.id) + "</b>\n\n" + ApplicantBlock(u, createdText)
    + "\n\n<b>Текст:</b>\n<blockquote>" + t.text + "</blockquote>\n\n"
    + "Установить статус:\nОткрыта: /open\nВ работе: /work\nЗавершена: /done"
  }

  /** The private notice each admin gets. */
  function AdminNotice(t: Ticket, u: Option<User>, createdText: string): string
  {
    "<b>Новая заявка №" + NatToString(t.id) + "</b>\n\n" + ApplicantBlock(u, createdText)
    + "\n<b>Текст:</b>\n<blockquote>" + t.text + "</blockquote>\n\n"
  }

  /** The send_* call for one attachment; a voice note goes without caption. */
  function MediaAction(a: DraftAttachment, chatId: int, threadId: int): Action
  {
    SendMedia(chatId, Some(threadId), a.kind, a.fileId, if a.kind == Voice then None else a.caption)
  }

  /** One attempt per attachment, in order, each in its own try. */
  function MediaSends(atts: seq<DraftAttachment>, chatId: int, threadId: int, accepts: Action -> bool): seq<Effect>
  {
    if |atts| == 0 then []
    else MediaSends(atts[..|atts| - 1], chatId, threadId, accepts)
         + [Attempt(MediaAction(atts[|atts| - 1], chatId, threadId), accepts)]
  }

  /** Every attachment is sent once, in order, whatever Telegram answers. */
  lemma {:induction false} MediaSendsEveryAttachment(atts: seq<DraftAttachment>, chatId: int, threadId: int,
                                                     accepts: Action -> bool)
    ensures |MediaSends(atts, chatId, threadId, accepts)| == |atts|
    ensures forall i :: 0 <= i < |atts| ==>
      MediaSends(atts, chatId, threadId, accepts)[i] == Attempt(MediaAction(atts[i], chatId, threadId), accepts)
  {
    if |atts| > 0 {
      var init := atts[..|atts| - 1];
      MediaSendsEveryAttachment(init, chatId, threadId, accepts);
      forall i | 0 <= i < |init| ensures init[i] == atts[i] { }
    }
  }

  /** One private message per admin, in order, each in its own try. */
  function AdminSends(admins: seq<int>, text: string, accepts: Action -> bool): seq<Effect>
  {
    if |admins| == 0 then []
    else AdminSends(admins[..|admins| - 1], text, accepts) + [Attempt(SendMessage(admins[|admins| - 1], text), accepts)]
  }

  /** Every admin is messaged once, in order, whatever Telegram answers. */
  lemma {:induction false} AdminSendsEveryAdmin(admins: seq<int>, text: string, accepts: Action -> bool)
    ensures |AdminSends(admins, text, accepts)| == |admins|
    ensures forall i :: 0 <= i < |admins| ==>
      AdminSends(admins, text, accepts)[i] == Attempt(SendMessage(admins[i], text), accepts)
  {
    if |admins| > 0 {
      var init := admins[..|admins| - 1];
      AdminSendsEveryAdmin(init, text, accepts);
      forall i | 0 <= i < |init| ensures init[i] == admins[i] { }
    }
  }

  /** The ticket_attachments rows for the draft's attachments. */
  function Rows(ticketId: nat, atts: seq<DraftAttachment>): (r: seq<Attachment>)
    ensures |r| == |atts|
  {
    if |atts| == 0 then []
    else
      var a := atts[|atts| - 1];
      Rows(ticketId, atts[..|atts| - 1]) + [Attachment(ticketId, a.kind, a.fileId, Some(a.fileUniqueId), a.caption)]
  }

  /** The topic part of a confirmation: create the topic named after the new
    * ticket; once created, bind it and post the intro into it. */
  function TopicEffects(channelId: int, threadId: int, t: Ticket, intro: string, accepts: Action -> bool): seq<Effect>
  {
    var create := CreateTopic(channelId, TicketForum.TopicName(Open, t.id));
    if channelId == 0 then []
    else if !accepts(create) then [Attempt(create, accepts)]
    else [Attempt(create, accepts), Attempt(ReplyInChat(channelId, Some(threadId), intro), accepts)]
  }

  predicate TopicCreated(channelId: int, id: nat, accepts: Action -> bool)
  {
    channelId != 0 && accepts(CreateTopic(channelId, TicketForum.TopicName(Open, id)))
  }

  /** One more attachment adds its row and its send at the end. */
  lemma PrefixStep(ticketId: nat, atts: seq<DraftAttachment>, i: nat, chatId: int, threadId: int,
                   accepts: Action -> bool)
    requires i < |atts|
    ensures Rows(ticketId, atts[..i + 1])
      == Rows(ticketId, atts[..i]) + [Attachment(ticketId, atts[i].kind, atts[i].fileId, Some(atts[i].fileUniqueId), atts[i].caption)]
    ensures MediaSends(atts[..i + 1], chatId, threadId, accepts)
      == MediaSends(atts[..i], chatId, threadId, accepts) + [Attempt(MediaAction(atts[i], chatId, threadId), accepts)]
  {
    assert atts[..i + 1][..i] == atts[..i];
  }

  /** The attachment loop of ticket_confirm: each row is stored and, with a
    * topic, sent there; no failure stops the loop. */
  method StoreAttachments(store: TicketStore.Store, ticketId: nat, atts: seq<DraftAttachment>, toTopic: bool,
                          chatId: int, threadId: int, accepts: Action -> bool)
    returns (log: seq<Effect>)
    requires store.Valid() && ticketId in store.tickets
    modifies store`attachments
    ensures store.Valid()
    ensures store.attachments == old(store.attachments) + Rows(ticketId, atts)
    ensures log == if toTopic then MediaSends(atts, chatId, threadId, accepts) else []
  {
    log := [];
    var i := 0;
    while i < |atts|
      invariant 0 <= i <= |atts|
      invariant store.Valid()
      invariant store.attachments == old(store.attachments) + Rows(ticketId, atts[..i])
      invariant log == if toTopic then MediaSends(atts[..i], chatId, threadId, accepts) else []
    {
      var a := atts[i];
      var ok := store.AddTicketAttachment(Attachment(ticketId, a.kind, a.fileId, Some(a.fileUniqueId), a.caption));
      if toTopic {
        log := log + [Attempt(MediaAction(a, chatId, threadId), accepts)];
      }
      PrefixStep(ticketId, atts, i, chatId, threadId, accepts);
      i := i + 1;
    }
    assert atts[..i] == atts;
  }

  /** A loop sending `text` to every id in turn, each in its own try. */
  method NotifyAll(ids: seq<int>, text: string, accepts: Action -> bool) returns (log: seq<Effect>)
    ensures log == AdminSends(ids, text, accepts)
  {
    log := [];
    var j := 0;
    while j < |ids|
      invariant 0 <= j <= |ids|
      invariant log == AdminSends(ids[..j], text, accepts)
    {
      log := log + [Attempt(SendMessage(ids[j], text), accepts)];
      assert ids[..j + 1][..j] == ids[..j];
      j := j + 1;
    }
    assert ids[..j] == ids;
  }

  /** The part of ticket_confirm after the ticket exists: topic, attachments
    * and admin notices, in that order. */
  method Publish(store: TicketStore.Store, admins: Acl.AdminRegistry, t: Ticket, atts: seq<DraftAttachment>,
                 channelId: int, threadId: int, createdText: string, accepts: Action -> bool)
    returns (log: seq<Effect>)
    requires store.Valid() && admins.Valid() && t.id in store.tickets && t.ownerTg in store.users
    modifies store`tickets, store`attachments
    ensures store.Valid()
    ensures store.tickets == old(store.tickets)[t.id :=
              BindIf(old(store.tickets)[t.id], TopicCreated(channelId, t.id, accepts), channelId, threadId)]
    ensures store.attachments == old(store.attachments) + Rows(t.id, atts)
    ensures log == PublishLog(channelId, threadId, t, Some(store.users[t.ownerTg]), atts, admins.members,
                              createdText, accepts)
  {
    var u := Some(store.users[t.ownerTg]);
    log := TopicEffects(channelId, threadId, t, TopicIntro(t, u, createdText), accepts);
    var bound := TopicCreated(channelId, t.id, accepts);
    if bound {
      store.SetTicketThread(t.id, channelId, threadId);
    }
    var media := StoreAttachments(store, t.id, atts, bound && threadId != 0, channelId, threadId, accepts);
    log := log + media;
    var ids := admins.GetAdminIds();
    var notices := NotifyAll(ids, AdminNotice(t, u, createdText), accepts);
    log := log + notices;
  }

  /** What publishing a new ticket sends, in order: the topic and its intro,
    * the attachments into a topic that was created, and each admin's notice. */
  function PublishLog(channelId: int, threadId: int, t: Ticket, u: Option<User>, atts: seq<DraftAttachment>,
                      admins: seq<int>, createdText: string, accepts: Action -> bool): seq<Effect>
  {
    TopicEffects(channelId, threadId, t, TopicIntro(t, u, createdText), accepts)
    + (if TopicCreated(channelId, t.id, accepts) && threadId != 0
       then MediaSends(atts, channelId, threadId, accepts) else [])
    + AdminSends(admins, AdminNotice(t, u, createdText), accepts)
  }

  function CreatedReply(id: nat): string
  {
    "✅ Заявка №" + NatToString(id) + " создана."
  }
  /** The reply to the user, then the "Отправлено ✅" toast; a refused reply
    * raises, so the toast follows only a delivered one. */
  function CreatedAnswer(userChat: int, id: nat, accepts: Action -> bool): (log: seq<Effect>)
    ensures 1 <= |log| <= 2 && log[0] == Attempt(SendMessage(userChat, CreatedReply(id)), accepts)
    ensures |log| == 2 <==> log[0].ok
    ensures |log| == 2 ==> log[1] == Attempt(AnswerCallback("Отправлено ✅", false), accepts)
  {
    var reply := Attempt(SendMessage(userChat, CreatedReply(id)), accepts);
    [reply] + (if reply.ok then [Attempt(AnswerCallback("Отправлено ✅", false), accepts)] else [])
  }


  /** The part of ticket_confirm after the ticket row exists: publish it,
    * clear the draft, and tell the user. */
  method PublishAndClear(draft: Draft, store: TicketStore.Store, admins: Acl.AdminRegistry, t: Ticket, userChat: int,
                         channelId: int, threadId: int, createdText: string, accepts: Action -> bool)
    returns (log: seq<Effect>)
    requires draft.Valid() && store.Valid() && admins.Valid()
    requires t.id in store.tickets && store.tickets[t.id] == t && t.ownerTg in store.users
    modifies draft`state, draft`text, draft`attachments, draft`handled, draft`albumId, draft`albumCount, draft`albumTask
    modifies store`tickets, store`attachments
    ensures draft.Valid() && store.Valid()
    ensures store.tickets == old(store.tickets)[t.id := BindIf(t, TopicCreated(channelId, t.id, accepts), channelId, threadId)]
    ensures store.attachments == old(store.attachments) + Rows(t.id, old(draft.attachments))
    ensures log == PublishLog(channelId, threadId, t, Some(store.users[t.ownerTg]), old(draft.attachments),
                              admins.members, createdText, accepts)
                   + CreatedAnswer(userChat, t.id, accepts)
    ensures draft.state == Idle && draft.attachments == [] && draft.albumTask.None?
  {
    var published := Publish(store, admins, t, draft.attachments, channelId, threadId, createdText, accepts);
    draft.Clear();
    log := published + CreatedAnswer(userChat, t.id, accepts);
  }

  /** The ticket with the topic binding set when `bound` holds. */
  function BindIf(t: Ticket, bound: bool, chatId: int, threadId: int): Ticket
  {
    if bound then t.(groupChatId := Some(chatId), threadId := Some(threadId)) else t
  }

  lemma OverwriteTwice<K, V>(m: map<K, V>, k: K, a: V, b: V)
    ensures m[k := a][k := b] == m[k := b]
  {
  }

  /** `data.get("text", "").strip()`. */
  function ConfirmBody(text: Option<string>): string
  {
    Strip(text.GetOr(""))
  }

  datatype ConfirmOutcome = EmptyText | NoUser | Created(ticket: Ticket)

  /** ticket_confirm. An empty stripped text only alerts. create_ticket
    * raising for a user without a row ends the handler with nothing sent.
    * Otherwise the ticket is stored, the topic is created when a chat is
    * configured (and then bound, with `threadId` the id Telegram gave it),
    * each attachment is stored and, with a topic, sent there, each admin
    * gets a notice, and the draft is cleared. */
  method Confirm(draft: Draft, store: TicketStore.Store, admins: Acl.AdminRegistry, tg: int, userChat: int,
                 channelId: int, threadId: int, now: Calendar.DateTime, createdText: string,
                 accepts: Action -> bool)
    returns (outcome: ConfirmOutcome, log: seq<Effect>)
    requires draft.Valid() && draft.state == Preview && store.Valid() && admins.Valid()
    modifies draft`state, draft`text, draft`attachments, draft`handled, draft`albumId, draft`albumCount, draft`albumTask
    modifies store`tickets, store`nextId, store`attachments
    ensures draft.Valid() && store.Valid()
    ensures var body := ConfirmBody(old(draft.text));
      && (outcome.EmptyText? <==> body == "")
      && (outcome.NoUser? <==> body != "" && tg !in store.users)
    ensures !outcome.Created? ==>
      && store.tickets == old(store.tickets) && store.nextId == old(store.nextId)
      && store.attachments == old(store.attachments)
      && draft.state == Preview && draft.attachments == old(draft.attachments)
      && log == (if outcome.EmptyText? then [Attempt(AnswerCallback("Пустой текст", true), accepts)] else [])
    ensures outcome.Created? ==>
      var t := outcome.ticket;
      var u := Some(store.users[tg]);
      && t == NewTicket(old(store.nextId), tg, Strip(ConfirmBody(old(draft.text))), now)
      && store.tickets == old(store.tickets)[t.id := BindIf(t, TopicCreated(channelId, t.id, accepts), channelId, threadId)]
      && store.attachments == old(store.attachments) + Rows(t.id, old(draft.attachments))
      && log == PublishLog(channelId, threadId, t, u, old(draft.attachments), admins.members, createdText, accepts)
                + CreatedAnswer(userChat, t.id, accepts)
      && draft.state == Idle && draft.attachments == [] && draft.albumTask.None?
  {
    var body := ConfirmBody(draft.text);
    if body == "" {
      outcome, log := EmptyText, [Attempt(AnswerCallback("Пустой текст", true), accepts)];
    } else {
      outcome, log := CreateFromDraft(draft, store, admins, tg, userChat, body, channelId, threadId, now,
                                      createdText, accepts);
    }
  }

  /** ticket_confirm past the empty-text check. */
  method CreateFromDraft(draft: Draft, store: TicketStore.Store, admins: Acl.AdminRegistry, tg: int, userChat: int,
                         body: string, channelId: int, threadId: int, now: Calendar.DateTime, createdText: string,
                         accepts: Action -> bool)
    returns (outcome: ConfirmOutcome, log: seq<Effect>)
    requires draft.Valid() && store.Valid() && admins.Valid()
    modifies draft`state, draft`text, draft`attachments, draft`handled, draft`albumId, draft`albumCount, draft`albumTask
    modifies store`tickets, store`nextId, store`attachments
    ensures draft.Valid() && store.Valid()
    ensures !outcome.EmptyText? && (outcome.NoUser? <==> tg !in store.users)
    ensures outcome.NoUser? ==>
      && store.tickets == old(store.tickets) && store.nextId == old(store.nextId)
      && store.attachments == old(store.attachments)
      && draft.state == old(draft.state) && draft.attachments == old(draft.attachments)
      && log == []
    ensures outcome.Created? ==>
      var t := outcome.ticket;
      && t == NewTicket(old(store.nextId), tg, Strip(body), now)
      && store.tickets == old(store.tickets)[t.id := BindIf(t, TopicCreated(channelId, t.id, accepts), channelId, threadId)]
      && store.attachments == old(store.attachments) + Rows(t.id, old(draft.attachments))
      && log == PublishLog(channelId, threadId, t, Some(store.users[tg]), old(draft.attachments), admins.members,
                           createdText, accepts)
                + CreatedAnswer(userChat, t.id, accepts)
      && draft.state == Idle && draft.attachments == [] && draft.albumTask.None?
  {
    var created := store.CreateTicket(tg, body, now);
    if created.Err? {
      outcome, log := NoUser, [];
    } else {
      var t := created.value;
      assert t.ownerTg == tg && t.id == old(store.nextId) && store.tickets[t.id] == t;
      log := PublishAndClear(draft, store, admins, t, userChat, channelId, threadId, createdText, accepts);
      OverwriteTwice(old(store.tickets), t.id, t, BindIf(t, TopicCreated(channelId, t.id, accepts), channelId, threadId));
      outcome := Created(t);
    }
  }

  // ---------- the owner's cancellation ----------

  function CancelNotice(id: nat): string
  {
    "🚫 <b>Заявка №" + NatToString(id) + " отменена пользователем.</b>"
  }

  /** The mirroring of a cancellation: into the bound topic (a failed post
    * skips the rename and the close, which share its try), or into the
    * notification chat when the ticket has no topic. */
  function MirrorEffects(binding: Option<(int, int)>, channelId: int, id: nat, accepts: Action -> bool): seq<Effect>
  {
    match binding
    case Some((gchat, thread)) =>
      var post := ReplyInChat(gchat, Some(thread), CancelNotice(id));
      if !accepts(post) then [Attempt(post, accepts)]
      else [Attempt(post, accepts)] + TicketForum.TopicUpdates(gchat, thread, id, Cancelled, accepts)
    case None =>
      if channelId != 0 then [Attempt(SendMessage(channelId, CancelNotice(id)), accepts)] else []
  }

  /** A bound topic is renamed to the finished status and closed exactly when
    * the notice could be posted into it. */
  lemma CancelMirrorClosesTopic(gchat: int, thread: int, channelId: int, id: nat, accepts: Action -> bool)
    ensures var acts := Actions(MirrorEffects(Some((gchat, thread)), channelId, id, accepts));
      && (CloseTopic(gchat, thread) in acts <==> accepts(ReplyInChat(gchat, Some(thread), CancelNotice(id))))
      && (EditTopic(gchat, thread, TicketForum.TopicName(Cancelled, id)) in acts
          <==> accepts(ReplyInChat(gchat, Some(thread), CancelNotice(id))))
  {
    var post := ReplyInChat(gchat, Some(thread), CancelNotice(id));
    var acts := Actions(MirrorEffects(Some((gchat, thread)), channelId, id, accepts));
    if accepts(post) {
      assert acts[1] == EditTopic(gchat, thread, TicketForum.TopicName(Cancelled, id));
      assert acts[2] == CloseTopic(gchat, thread);
    } else {
      assert acts == [post];
    }
  }

  /** ticket_cancel_active. A refused cancellation only tells the user so;
    * a successful one is mirrored to the forum, sent to every admin (each on
    * its own) and confirmed to the user. */
  method CancelActive(store: TicketStore.Store, admins: Acl.AdminRegistry, tg: int, id: nat, userChat: int,
                      channelId: int, accepts: Action -> bool)
    returns (ok: bool, log: seq<Effect>)
    requires store.Valid() && admins.Valid()
    modifies store`tickets
    ensures store.Valid()
    ensures ok <==> tg in store.users && id in old(store.tickets) && old(store.tickets)[id].ownerTg == tg
                    && old(store.tickets)[id].status in {Open, Work}
    ensures !ok ==> store.tickets == old(store.tickets)
                    && log == [Attempt(SendMessage(userChat, "❌ Не удалось отменить заявку. Возможно, она уже не активна."), accepts),
                               Attempt(AnswerCallback("", false), accepts)]
    ensures ok ==> store.tickets == old(store.tickets)[id := old(store.tickets)[id].(status := Cancelled)]
                   && log == MirrorEffects(store.TicketThreadInfo(id), channelId, id, accepts)
                             + AdminSends(admins.members, CancelNotice(id), accepts)
                             + [Attempt(SendMessage(userChat, "✅ Заявка №" + NatToString(id) + " отменена."), accepts),
                                Attempt(AnswerCallback("Отменено ✅", false), accepts)]
  {
    ok := store.CancelTicket(tg, id);
    if !ok {
      log := [Attempt(SendMessage(userChat, "❌ Не удалось отменить заявку. Возможно, она уже не активна."), accepts),
              Attempt(AnswerCallback("", false), accepts)];
      return;
    }
    var notice := CancelNotice(id);
    var binding := store.TicketThreadInfo(id);
    match binding {
      case Some((gchat, thread)) =>
        var post := ReplyInChat(gchat, Some(thread), notice);
        log := [Attempt(post, accepts)];
        if accepts(post) {
          log := log + TicketForum.TopicUpdates(gchat, thread, id, Cancelled, accepts);
        }
      case None =>
        log := [];
        if channelId != 0 {
          log := [Attempt(SendMessage(channelId, notice), accepts)];
        }
    }
    var ids := admins.GetAdminIds();
    var notices := NotifyAll(ids, notice, accepts);
    log := log + notices;
    log := log + [Attempt(SendMessage(userChat, "✅ Заявка №" + NatToString(id) + " отменена."), accepts),
                  Attempt(AnswerCallback("Отменено ✅", false), accepts)];
  }
}
