// The admin's "📢 Создать пост" dialog: the post message is remembered,
// an optional URL button is collected, a preview is shown, and on
// confirmation the post is copied to the residents' group.
module Post {
  import opened Wrappers
  import opened Text
  import opened Effects

  /** The PostCreation states. */
  datatype PostStep = WaitingForPost | QButton | GetTextForButton | GetUrlForButton | Confirm

  /** An inline URL button. */
  datatype Button = Button(text: string, url: string)

  /** A copy of the remembered message with the given markup: the preview
    * in the admin's chat, or the publication in the group. */
  datatype Copy = Copy(fromChatId: int, messageId: int, markup: Option<Button>)

  /** What confirming did: nothing to publish, or the copy sent to the group
    * and the exception text Telegram answered with when it failed. */
  datatype ConfirmOutcome = NoData | Published(copy: Copy) | PublishFailed(copy: Copy, error: string)

  const AddButtonData := "post:add_button"
  const NoButtonData := "post:no_button"

  const NoDataText := "⚠️ Нет данных для публикации. Начните заново: 📢 «Создать пост»."
  const PublishedText := "✅ Пост успешно опубликован!"
  const PublishFailedPrefix := "❌ Ошибка при публикации: "
  const CancelledText := "🚫 Публикация отменена"
  const AskPostText := "📝 Отправь пост для публикации:"
  const ButtonQuestion := "Ок, запомнил сообщение для поста!\n\nДобавить кнопку?"
  const AskButtonText := "Отправь текст для кнопки:"
  const AskUrlText := "Отправь ссылку для кнопки:"
  const BadUrlText := "❗ Ссылка должна начинаться с http:// или https://. Попробуйте ещё раз:"
  const ConfirmQuestion := "Подтвердите публикацию:"

  /** The check on the button link. */
  predicate HasHttpScheme(url: string)
  {
    StartsWith(url, "http://") || StartsWith(url, "https://")
  }

  /** Python truthiness of a value read with data.get: a missing key, None,
    * 0 and "" are all false. */
  predicate IdPresent(v: Option<int>) { v.Some? && v.value != 0 }
  predicate TextPresent(v: Option<string>) { v.Some? && v.value != "" }

  /** The keyboard handle_confirm rebuilds from the stored button fields. */
  function Markup(buttonText: Option<string>, buttonUrl: Option<string>): (m: Option<Button>)
    ensures m.Some? <==> TextPresent(buttonText) && TextPresent(buttonUrl)
    ensures m.Some? ==> m.value == Button(buttonText.value, buttonUrl.value)
  {
    if TextPresent(buttonText) && TextPresent(buttonUrl) then Some(Button(buttonText.value, buttonUrl.value))
    else None
  }

  /** The guard accepts exactly the links made of "http://" or "https://"
    * followed by anything, and matches the scheme case-sensitively. */
  lemma HttpSchemeMeansPrefix(url: string)
    ensures HasHttpScheme(url) <==>
      (exists rest :: url == "http://" + rest) || (exists rest :: url == "https://" + rest)
  {
    if StartsWith(url, "http://") {
      assert url == "http://" + url[7..];
    } else if StartsWith(url, "https://") {
      assert url == "https://" + url[8..];
    }
    if exists rest :: url == "http://" + rest {
      var rest :| url == "http://" + rest;
      assert url[..7] == "http://";
    }
    if exists rest :: url == "https://" + rest {
      var rest :| url == "https://" + rest;
      assert url[..8] == "https://";
    }
  }

  lemma UpperCaseSchemeRejected()
    ensures !HasHttpScheme("HTTPS://t.me")
    ensures !HasHttpScheme("ftp://t.me")
    ensures HasHttpScheme("https://t.me")
  {
    assert "HTTPS://t.me"[..7][0] != "http://"[0];
    assert "HTTPS://t.me"[..8][0] != "https://"[0];
    assert "ftp://t.me"[..7][0] != "http://"[0];
    assert "ftp://t.me"[..8][0] != "https://"[0];
    assert "https://t.me"[..8] == "https://";
  }

  /** A link that passed the guard is never empty, so whether the published
    * post gets its button depends on the button's text alone: the preview
    * shows the button and the group receives it exactly when that text is
    * non-empty. */
  lemma PreviewButtonIsPublished(text: string, url: string)
    requires HasHttpScheme(url)
    ensures Markup(Some(text), Some(url)) == Some(Button(text, url)) <==> text != ""
    ensures text == "" ==> Markup(Some(text), Some(url)) == None
  {
  }

  /** The FSM context of the admin's chat: the state and the data keys the
    * dialog writes. */
  class PostDialog {
    var step: Option<PostStep>
    var messageId: Option<int>
    var chatId: Option<int>
    var textButton: Option<string>
    var buttonText: Option<string>
    var buttonUrl: Option<string>

    /** What the handlers keep true: past waiting_for_post the post is
      * remembered; the link is asked only once its text is stored; the
      * button fields are written only together, with a checked link, and
      * only once the link has been asked for. */
    predicate Valid()
      reads this
    {
      && (step.Some? && step.value != WaitingForPost ==> messageId.Some? && chatId.Some?)
      && (step == Some(GetUrlForButton) ==> textButton.Some?)
      && (buttonText.Some? <==> buttonUrl.Some?)
      && (buttonUrl.Some? ==> HasHttpScheme(buttonUrl.value))
      && (step.Some? && step.value != Confirm && step.value != GetUrlForButton ==> buttonUrl.None?)
    }

    predicate Cleared()
      reads this
    {
      step.None? && messageId.None? && chatId.None? && textButton.None? && buttonText.None? && buttonUrl.None?
    }

    constructor ()
      ensures Cleared() && Valid()
    {
      step := None;
      messageId := None;
      chatId := None;
      textButton := None;
      buttonText := None;
      buttonUrl := None;
    }

    /** state.clear(), as clear_chat_history ends. */
    method Clear()
      modifies this
      ensures Cleared() && Valid()
    {
      step := None;
      messageId := None;
      chatId := None;
      textButton := None;
      buttonText := None;
      buttonUrl := None;
    }

    /** create_post: whatever the chat was doing is cleared and the post is
      * asked for in the admin's chat `adminChat`; the dialog waits for it
      * only when that question went through (ask_and_track sets the state
      * after its send). The question edits the callback's message or, when
      * that fails, is sent anew: one attempt here, accepted when either
      * worked. The callback is answered only after a delivered question: a
      * refused one leaves nothing for save_msg, which then raises. */
    method Start(adminChat: int, accepts: Action -> bool) returns (log: seq<Effect>)
      modifies this
      ensures log == Closing(Attempt(SendMessage(adminChat, AskPostText), accepts), accepts)
      ensures step == if log[0].ok then Some(WaitingForPost) else None
      ensures messageId.None? && chatId.None? && textButton.None? && buttonText.None? && buttonUrl.None?
      ensures Valid()
    {
      Clear();
      var question := Attempt(SendMessage(adminChat, AskPostText), accepts);
      log := Closing(question, accepts);
      if question.ok {
        step := Some(WaitingForPost);
      }
    }

    /** receive_post: the message and its chat are remembered, the button
      * question is sent back to that chat, and the dialog moves on only
      * when it went through. */
    method ReceivePost(message: int, chat: int, accepts: Action -> bool) returns (log: seq<Effect>)
      requires Valid() && step == Some(WaitingForPost)
      modifies this
      ensures Valid()
      ensures log == [Attempt(SendMessage(chat, ButtonQuestion), accepts)]
      ensures step == if log[0].ok then Some(QButton) else old(step)
      ensures messageId == Some(message) && chatId == Some(chat)
      ensures textButton == old(textButton) && buttonText == old(buttonText) && buttonUrl == old(buttonUrl)
    {
      messageId := Some(message);
      chatId := Some(chat);
      var question := Attempt(SendMessage(chat, ButtonQuestion), accepts);
      log := [question];
      if question.ok {
        step := Some(QButton);
      }
    }

    /** The answer to "Добавить кнопку?": "post:add_button" asks for the
      * button text; "post:no_button" shows the preview without markup and
      * asks for confirmation; any other callback reaches neither handler.
      * Both handlers first remove the keyboard from the pressed message,
      * ignoring a refusal. Either way the dialog moves on, and the callback
      * is answered, only when its question went through (a refused
      * confirmation question raises in confirm_post). */
    method Choose(data: string, adminChat: int, accepts: Action -> bool) returns (preview: Option<Copy>, log: seq<Effect>)
      requires Valid() && step == Some(QButton)
      modifies this`step
      ensures Valid()
      ensures data == AddButtonData ==> (
        var question := Attempt(SendMessage(adminChat, AskButtonText), accepts);
        && log == [Attempt(RemoveKeyboard(adminChat), accepts)] + Closing(question, accepts)
        && step == (if question.ok then Some(GetTextForButton) else old(step))
        && preview.None?)
      ensures data == NoButtonData ==> (
        var question := Attempt(SendMessage(adminChat, ConfirmQuestion), accepts);
        && preview == Some(Copy(chatId.value, messageId.value, None))
        && Markup(buttonText, buttonUrl).None?
        && log == [Attempt(RemoveKeyboard(adminChat), accepts)] + Closing(question, accepts)
        && step == (if question.ok then Some(Confirm) else old(step)))
      ensures data != AddButtonData && data != NoButtonData ==> step == old(step) && preview.None? && log == []
    {
      preview := None;
      log := [];
      if data == AddButtonData {
        var question := Attempt(SendMessage(adminChat, AskButtonText), accepts);
        log := [Attempt(RemoveKeyboard(adminChat), accepts)] + Closing(question, accepts);
        if question.ok {
          step := Some(GetTextForButton);
        }
      } else if data == NoButtonData {
        preview := Some(Copy(chatId.value, messageId.value, None));
        var question := Attempt(SendMessage(adminChat, ConfirmQuestion), accepts);
        log := [Attempt(RemoveKeyboard(adminChat), accepts)] + Closing(question, accepts);
        if question.ok {
          step := Some(Confirm);
        }
      }
    }

    /** get_text_for_button: the stripped text is stored and the link is
      * asked for; the dialog moves on only when that question went through. */
    method ButtonTextReceived(text: string, adminChat: int, accepts: Action -> bool) returns (log: seq<Effect>)
      requires Valid() && step == Some(GetTextForButton)
      modifies this`step, this`textButton
      ensures Valid()
      ensures log == [Attempt(SendMessage(adminChat, AskUrlText), accepts)]
      ensures step == if log[0].ok then Some(GetUrlForButton) else old(step)
      ensures textButton == Some(Strip(text))
    {
      textButton := Some(Strip(text));
      var question := Attempt(SendMessage(adminChat, AskUrlText), accepts);
      log := [question];
      if question.ok {
        step := Some(GetUrlForButton);
      }
    }

    /** get_url_for_button: a stripped link without an http:// or https://
      * scheme is asked for again and nothing else changes; a good one is
      * stored with the button text beside it, the preview carries that
      * button, and the dialog reaches confirm only when the confirmation
      * question went through. */
    method ButtonUrlReceived(text: string, adminChat: int, accepts: Action -> bool)
      returns (preview: Option<Copy>, log: seq<Effect>)
      requires Valid() && step == Some(GetUrlForButton)
      modifies this`step, this`buttonText, this`buttonUrl
      ensures Valid()
      ensures preview.Some? <==> HasHttpScheme(Strip(text))
      ensures preview.None? ==>
        && log == [Attempt(SendMessage(adminChat, BadUrlText), accepts)]
        && step == old(step) && buttonText == old(buttonText) && buttonUrl == old(buttonUrl)
      ensures preview.Some? ==>
        && buttonText == textButton && buttonUrl == Some(Strip(text))
        && preview.value == Copy(chatId.value, messageId.value, Some(Button(textButton.value, Strip(text))))
        && log == [Attempt(SendMessage(adminChat, ConfirmQuestion), accepts)]
        && step == (if log[0].ok then Some(Confirm) else old(step))
    {
      var url := Strip(text);
      if !HasHttpScheme(url) {
        return None, [Attempt(SendMessage(adminChat, BadUrlText), accepts)];
      }
      buttonText := textButton;
      buttonUrl := Some(url);
      preview := Some(Copy(chatId.value, messageId.value, Some(Button(textButton.value, url))));
      var question := Attempt(SendMessage(adminChat, ConfirmQuestion), accepts);
      log := [question];
      if question.ok {
        step := Some(Confirm);
      }
    }

    /** The admin's answer, then callback.answer() once that answer went
      * through (a refused answer raises first). */
    function Closing(answer: Effect, accepts: Action -> bool): seq<Effect>
    {
      [answer] + (if answer.ok then [Attempt(AnswerCallback("", false), accepts)] else [])
    }

    /** handle_confirm in the admin's chat `adminChat`: with no message or
      * chat to copy, a warning and a cleared state; otherwise the post goes
      * to the group with the button only when both its text and link are
      * there, and the state is cleared whether or not Telegram took it.
      * `publish` gives the text of the exception a copy raised, None when
      * it went through. The success answer is sent inside the same `try`
      * as the copy, so when Telegram refuses it the error answer follows,
      * carrying `refusal`, the text of that refusal. */
    method ConfirmPost(adminChat: int, accepts: Action -> bool, publish: Copy -> Option<string>, refusal: string)
      returns (outcome: ConfirmOutcome, log: seq<Effect>)
      requires Valid() && step == Some(Confirm)
      modifies this
      ensures Cleared() && Valid()
      ensures outcome.NoData? <==> !IdPresent(old(messageId)) || !IdPresent(old(chatId))
      ensures outcome.NoData? ==> log == Closing(Attempt(SendMessage(adminChat, NoDataText), accepts), accepts)
      ensures !outcome.NoData? ==>
        && outcome.copy == Copy(old(chatId).value, old(messageId).value, Markup(old(buttonText), old(buttonUrl)))
        && (outcome.Published? <==> publish(outcome.copy).None?)
      ensures outcome.PublishFailed? ==>
        && outcome.error == publish(outcome.copy).value
        && log == Closing(Attempt(SendMessage(adminChat, PublishFailedPrefix + outcome.error), accepts), accepts)
      ensures outcome.Published? ==>
        var success := Attempt(SendMessage(adminChat, PublishedText), accepts);
        && (success.ok ==> log == Closing(success, accepts))
        && (!success.ok ==>
              log == [success] + Closing(Attempt(SendMessage(adminChat, PublishFailedPrefix + refusal), accepts), accepts))
    {
      if !IdPresent(messageId) || !IdPresent(chatId) {
        Clear();
        return NoData, Closing(Attempt(SendMessage(adminChat, NoDataText), accepts), accepts);
      }
      var markup := None;
      if TextPresent(buttonText) && TextPresent(buttonUrl) {
        markup := Some(Button(buttonText.value, buttonUrl.value));
      }
      var copy := Copy(chatId.value, messageId.value, markup);
      var error := publish(copy);
      Clear();
      if error.None? {
        outcome := Published(copy);
        var success := Attempt(SendMessage(adminChat, PublishedText), accepts);
        if success.ok {
          log := Closing(success, accepts);
        } else {
          log := [success] + Closing(Attempt(SendMessage(adminChat, PublishFailedPrefix + refusal), accepts), accepts);
        }
      } else {
        outcome := PublishFailed(copy, error.value);
        log := Closing(Attempt(SendMessage(adminChat, PublishFailedPrefix + error.value), accepts), accepts);
      }
    }

    /** handle_cancel: nothing is published, the state is cleared, and the
      * cancellation is answered. */
    method Cancel(adminChat: int, accepts: Action -> bool) returns (log: seq<Effect>)
      requires step == Some(Confirm)
      modifies this
      ensures Cleared() && Valid()
      ensures log == Closing(Attempt(SendMessage(adminChat, CancelledText), accepts), accepts)
    {
      Clear();
      log := Closing(Attempt(SendMessage(adminChat, CancelledText), accepts), accepts);
    }
  }

  /** Every question of a dialog with a button goes through when the
    * admin works in the chat `chat`. */
  predicate QuestionsGoThrough(chat: int, accepts: Action -> bool)
  {
    && accepts(SendMessage(chat, AskPostText))
    && accepts(SendMessage(chat, ButtonQuestion))
    && accepts(SendMessage(chat, AskButtonText))
    && accepts(SendMessage(chat, AskUrlText))
    && accepts(SendMessage(chat, ConfirmQuestion))
  }

  /** A full dialog with a button, each handler run once: it reaches
    * confirmation exactly when every question went through, and then the
    * group receives the very post the admin sent, with the button whose
    * text and link were typed (both stripped), as long as the text is not
    * blank. */
  method ButtonDialog(message: int, chat: int, text: string, link: string,
                      accepts: Action -> bool, publish: Copy -> Option<string>)
    returns (outcome: Option<ConfirmOutcome>)
    requires HasHttpScheme(Strip(link)) && message != 0 && chat != 0
    ensures outcome.Some? <==> QuestionsGoThrough(chat, accepts)
    ensures outcome.Some? ==> outcome.value.Published? || outcome.value.PublishFailed?
    ensures outcome.Some? ==> outcome.value.copy.fromChatId == chat && outcome.value.copy.messageId == message
    ensures outcome.Some? ==> (outcome.value.copy.markup.Some? <==> Strip(text) != "")
    ensures outcome.Some? && outcome.value.copy.markup.Some? ==>
      outcome.value.copy.markup.value == Button(Strip(text), Strip(link))
  {
    var d := new PostDialog();
    var log := d.Start(chat, accepts);
    if d.step.None? {
      return None;
    }
    log := d.ReceivePost(message, chat, accepts);
    if d.step != Some(QButton) {
      return None;
    }
    var p;
    p, log := d.Choose(AddButtonData, chat, accepts);
    if d.step != Some(GetTextForButton) {
      return None;
    }
    log := d.ButtonTextReceived(text, chat, accepts);
    if d.step != Some(GetUrlForButton) {
      return None;
    }
    p, log := d.ButtonUrlReceived(link, chat, accepts);
    if d.step != Some(Confirm) {
      return None;
    }
    PreviewButtonIsPublished(Strip(text), Strip(link));
    var confirmed, closing := d.ConfirmPost(chat, accepts, publish, "");
    outcome := Some(confirmed);
  }
}
