# Housing-management bot: a Dafny model

This project models the core of a Telegram bot for an apartment-building
management office, written in Python on aiogram and SQLAlchemy. Residents use
the bot to register and edit their profile (name, phone and address). They
report hot-water meter readings (up to three meters a month) and open repair
tickets with attachments. They can also cancel a ticket or reply to the
dispatcher.

Each ticket gets a forum topic in the dispatchers' group. There admins move
the ticket between "open", "work" and "done", using a button panel or the
/open, /work and /done commands. Admin messages written in a topic are relayed
to the ticket's author.

Admins can also:
- publish a post, with an optional link button, to the group;
- export tickets and readings as CSV, XLSX or JSON.

Two monthly background tasks run on their own:
- one reminds residents about missing cold-water readings;
- one exports those readings for the accountant.

A subscription gate in front of every update lets only users who are
subscribed to the required channels reach the handlers.

The model keeps the source's structure:
- one module per source file;
- a `class` wherever a handler changes state in place. This covers the
  database session (`TicketStore.Store`), the admin set (`Acl.AdminRegistry`),
  and each per-chat FSM (finite-state machine) with its stored data
  (`Registration.Dialogue`, `TicketDraft.Draft`, `Post.PostDialog`, and
  others);
- pure functions and lemmas for the parsing, formatting and decision logic;
- methods with loop invariants for the loops in the source.

Telegram calls are not executed. In most handlers each call is recorded as
an entry in an effect log (`Effects`), and a function parameter `accepts`
says whether Telegram takes each call. This lets a contract state what is
attempted, in which order, and what happens after a failure. A dialogue
step that sets its next state only after its question was sent moves on
only when `accepts` took that question. Some handlers do not log their
sends, because no answer from Telegram can change what they store: they
write their state before sending, or send through
`replace_or_send_message`, which catches every failure. The admin export
dialogues and the subscription middleware assume that their Telegram calls
succeed (see "Left out"). The current time, the query
results of tables this model does not hold, and similar inputs are
parameters.

Shared helpers:
- `Text` models Python's `str.strip`, `split`/`join`, `int()` parsing and
  number rendering;
- `Calendar` gives the proleptic Gregorian calendar;
- `Models` gives the `TicketStatus` codec with its labels and emoji.

## Model

| member | source | states |
|---|---|---|
| Acl.AdminRegistry.constructor | app/admin/acl.py:3 | the admin set starts empty, so nobody is an admin before the first load |
| Acl.AdminRegistry.SetAdminIds | app/admin/acl.py:5-7 | afterwards exactly the given ids are admins; earlier contents are gone and duplicates collapse |
| Acl.AdminRegistry.GetAdminIds | app/admin/acl.py:12-14 | returns every current admin exactly once and nothing else |
| Settings.CoerceChannelIdempotent | config/settings.py:9-23 | writing back a coerced channel and coercing it again gives the same channel |
| Settings.IntToStringShape | config/settings.py:17-18 | an integer's text is non-empty, has no surrounding space and never starts with "@", so a numeric id never reads as a username |
| Settings.RequiredChannelsMembers | config/settings.py:59-61 | a channel is required exactly when some configured entry coerces to it |
| Settings.ParseDaysCsv | config/settings.py:25-31 | the loop returns what the comma pieces give: blank pieces skipped, the rest read with int(), and a ValueError on a piece int() refuses |
| Settings.CombineStep | config/settings.py:27-30 | one more piece either is skipped, adds its value, or makes the whole parse fail |
| Settings.DaysCsvRoundTrip | config/settings.py:25-31 | joining a list of days with "," and parsing it back gives the list |
| Settings.RenderedHasNoComma | config/settings.py:27 | no rendered day contains a comma, so the split gives the pieces back |
| Settings.IntToStringNoComma | config/settings.py:27 | an integer's text has no comma |
| Settings.RenderedDays | config/settings.py:28-30 | parsing the rendered days gives the days |
| Validators.NormalisedPhoneKeepsDigits | app/user/utils/validators.py:7-11 | normalising a phone keeps its digits, keeps it valid or invalid, and is idempotent |
| Validators.DigitRun | app/user/utils/validators.py:4 | the digit run is the longest all-digit prefix |
| Validators.StripHead | app/user/utils/validators.py:4 | the stripped text starts where the left-stripped text starts |
| Validators.BadPrefixNeverDecides | app/user/utils/validators.py:13-16 | is_valid_house holds exactly when the stripped text matches the house shape; the bad-prefix check never changes the verdict |
| Validators.NatToStringLength | app/user/utils/validators.py:4 | a number has at most k digits exactly when it is below 10^k |
| Validators.DigitRunOfDigits | app/user/utils/validators.py:4 | a digit string is its own digit run |
| Validators.PlainHouseNumber | app/user/utils/validators.py:4 | a plain house number is valid exactly when it is below 100000 |
| Validators.ApartmentNumber | app/user/utils/validators.py:18-22 | an apartment number is valid exactly when it is below 100000, "0" included |
| Validators.StripIdempotent | app/user/utils/validators.py:28 | stripping twice is stripping once |
| Validators.StreetIgnoresSurroundingSpace | app/user/utils/validators.py:24-32 | surrounding whitespace never changes the street verdict |
| Validators.StreetNeedsALetter | app/user/utils/validators.py:29-31 | a street without a letter is refused |
| Models.StatusCodec | database/models.py:29-32 | the value codec is a bijection between the three statuses and "open", "work" and "cancelled"; any other string is refused |
| Models.Label | database/models.py:34-45 | each known value gets its Russian label and any other string is returned unchanged |
| Models.Emoji | database/models.py:47-53 | each known value gets its colour and any other string gets white |
| Models.LabelsDistinguishStatuses | database/models.py:34-53 | distinct statuses have distinct labels and emojis, and no label is itself a status value |
| Models.NewTicket | database/models.py:92-107 | a new ticket row is OPEN with no group or topic binding and carries the given id, owner, text and time |
| TicketStore.BetweenShape | database/requests.py:588-605 | a listing holds only stored matching tickets with ids in the range, with ids strictly decreasing, i.e. newest first |
| TicketStore.BetweenComplete | database/requests.py:588-605 | every stored matching ticket with an id in the range appears in the listing |
| TicketStore.Window | database/requests.py:593-604 | OFFSET/LIMIT never yields more than the page size |
| TicketStore.PageOfItem | database/requests.py:593-604 | paging partitions a listing: item k is item k mod n of page k/n + 1 |
| TicketStore.ApplyProfile | database/requests.py:100-129 | every given field is stored stripped, an empty apartment string becomes NULL, and a field given as None keeps its old value |
| TicketStore.AttachmentsOf | database/models.py:110-126 | the attachments that survive a cascade are exactly those whose ticket is still present |
| TicketStore.ReadingsNotOwnedBy | database/models.py:84-89 | the readings that survive deleting a user are exactly the other owners' readings |
| TicketStore.MeterNumberOr1 | database/requests.py:193 | `meter_number or 1` is never 0, and is 1 exactly for NULL, 0 or 1 |
| TicketStore.HistoryOf | database/requests.py:175-201 | the history holds exactly the items of the user's rows of that type and month, and no others |
| TicketStore.MeterHistoryByMonth | database/requests.py:161-201 | an unknown user gets no history, and no item has meter number 0 |
| TicketStore.MetersCountForMonth | database/requests.py:251-281 | an unknown user counts 0, and the count never exceeds the number of rows |
| TicketStore.SubmittedNumbersBound | database/requests.py:268-279 | there are no more distinct meter numbers than rows |
| TicketStore.SubmittedNumbersStep | database/requests.py:268-279 | appending a reading adds its number when it is a numbered hot reading of that month, and nothing else |
| TicketStore.SavedReadingCounted | database/requests.py:205-281 | a saved hot reading of a known user is counted for its month, and the count grows by one exactly when its number is new |
| TicketStore.AdminReads | database/requests.py:573-584 | successive list_admin_ids calls yield one result per call |
| TicketStore.AdminCacheIsSticky | database/requests.py:579-581 | once the cache is non-empty, every later call returns it whatever the admins table says |
| TicketStore.FirstNonEmptyReadWins | database/requests.py:576-584 | from an empty cache, the first non-empty table read is returned by every later call |
| TicketStore.FirstBoundIsLowestBound | database/requests.py:734-752 | the thread lookup finds a ticket bound to that chat and thread with no bound ticket before it, and nothing exactly when none is bound |
| TicketStore.Store.constructor | database/models.py:56-150 | the tables start empty and satisfy the keys and foreign keys |
| TicketStore.Store.GetOrCreateUser | database/requests.py:68-96 | an existing row only picks up a new non-empty username; otherwise a row is created with empty profile fields; nothing else changes |
| TicketStore.Store.UpdateUserProfile | database/requests.py:100-129 | an unknown user raises ValueError and changes nothing; otherwise only that row changes, as ApplyProfile says |
| TicketStore.Store.CreateTicket | database/requests.py:515-528 | without a user row it raises and nothing is stored; otherwise a new OPEN ticket with the stripped text and no topic gets the next id |
| TicketStore.Store.CancelTicket | database/requests.py:532-548 | it succeeds exactly for the caller's own OPEN or WORK ticket, which becomes CANCELLED; otherwise nothing changes |
| TicketStore.Store.SetTicketStatus | database/requests.py:767-789 | None exactly for an unknown id; otherwise the new status is written and (old, new, author or 0) returned |
| TicketStore.Store.SetTicketThread | database/requests.py:697-703 | a missing ticket changes nothing; otherwise both binding fields are overwritten |
| TicketStore.Store.AddTicketAttachment | database/requests.py:707-723 | the row is appended for an existing ticket, the only case its one caller produces; a missing ticket is refused and nothing changes |
| TicketStore.Store.TicketThreadInfo | database/requests.py:873-883 | the binding is returned exactly when both fields are set |
| TicketStore.Store.GetTicketByThread | database/requests.py:734-763 | the result is the first ticket bound to the chat and thread |
| TicketStore.Store.CollectMatching | database/requests.py:597-605 | the loop collects every matching ticket, newest first |
| TicketStore.Store.ListTickets | database/requests.py:588-622 | the result is the requested page of the tickets with that status, newest first |
| TicketStore.Store.ListUserTickets | database/requests.py:793-828 | an unknown user gets []; otherwise the page of the user's tickets with that status, newest first |
| TicketStore.Store.GetActiveTicket | database/requests.py:496-511 | None for an unknown user; otherwise the newest of the user's tickets that is not CANCELLED, if any |
| TicketStore.Store.CountUserTicketsGrouped | database/requests.py:671-693 | all zero for an unknown user; otherwise the per-status counts, with active = OPEN + WORK and total = all three |
| TicketStore.Store.ListAdminIds | database/requests.py:576-584 | a non-empty cache is returned as it is; otherwise the table is read and becomes the cache |
| TicketStore.Store.DeleteUser | database/models.py:77-89 | deleting a user removes their tickets, those tickets' attachments and their readings, and every foreign key still holds |
| TicketStore.Store.SaveMeterReading | database/requests.py:205-246 | a known user always gets a new row under an id no stored row has, and nothing is overwritten; the store's invariant holds after; an unknown user gets False and no row |
| TicketStore.GroupedTotalCountsAllOwned | database/requests.py:687-688 | the three status counts add up to every ticket the user owns |
| TicketStore.ActiveTicketIsNewestOpenOrWork | database/requests.py:496-511 | the active ticket belongs to the user, is OPEN or WORK, and is newer than every other non-cancelled ticket of theirs |
| TicketDraft.AttachmentOf | app/user/handlers/ticket.py:259-295 | a message contributes nothing exactly when it is a photo without sizes; a photo gives its largest size; the kind follows the media; a voice note never keeps a caption |
| TicketDraft.Trimmed | app/user/handlers/ticket.py:250-252 | a window within the limit is unchanged; over it exactly one id goes; no id is invented and repeats never appear |
| TicketDraft.TrimmedKeepsOthers | app/user/handlers/ticket.py:251-252 | trimming keeps every id but the one dropped |
| TicketDraft.AttachmentsSummary | app/user/handlers/ticket.py:381-384 | the preview says "нет" exactly when there are no attachments |
| TicketDraft.Draft.constructor | app/user/handlers/ticket.py:121-131 | a new conversation is idle, with no text, attachments, album or pending finalizer |
| TicketDraft.Draft.Start | app/user/handlers/ticket.py:121-131 | starting waits for the text with no attachments, no handled ids and no album |
| TicketDraft.Draft.SubmitText | app/user/handlers/ticket.py:153-191 | text of at least five characters is stored stripped, resets attachments and album, moves on and is acknowledged; shorter text only draws the warning and changes nothing else; each notice is logged, and since the state is written first a refused notice changes nothing more |
| TicketDraft.Draft.CollectAttachment | app/user/handlers/ticket.py:243-359 | a message seen before changes nothing and sends nothing; otherwise the handler is stored exactly when no album has to be closed or its closing notice went through; a refused closing notice is the only thing logged and nothing is stored; a stored message appends its attachment and joins the handled window, an album file grows or restarts the album and schedules the finalizer that supersedes earlier ones, and a single file closes any album and acknowledges the total |
| TicketDraft.Remembered | app/user/handlers/ticket.py:247-252 | a new message id joins the handled window, which stays bounded and repeat-free and holds nothing but the old ids and the new one; under the limit the id is simply appended |
| TicketDraft.Draft.AlbumFile | app/user/handlers/ticket.py:302-333 | a file from another group first announces the open album with the total before the new file; the new lists and album are stored exactly when that notice was not needed or went through; then the count grows for the same group or restarts at 1, and a fresh finalizer with that count and total becomes the recorded one; a refused notice leaves every field as it was |
| TicketDraft.Draft.SingleFile | app/user/handlers/ticket.py:335-359 | an open album is announced first; when that notice is refused nothing is stored and the album stays open; otherwise the lists are stored, the album and the recorded finalizer are forgotten and the total is acknowledged, after the update |
| TicketDraft.Draft.FireFinalizer | app/user/handlers/ticket.py:79-97 | the run finalizer leaves the pending ones; only while it is the recorded one does it announce its album with its count and total, and the record is cleared exactly when that announcement went through; a superseded one sends nothing and changes nothing |
| TicketDraft.Draft.AttachmentsDone | app/user/handlers/ticket.py:362-384 | the draft moves to the preview, which reports the attachment count |
| TicketDraft.Draft.Edit | app/user/handlers/ticket.py:194-198 | editing goes back to waiting for the text |
| TicketDraft.Draft.AddAttachments | app/user/handlers/ticket.py:692-703 | collecting resumes with the attachments kept and no album or pending finalizer |
| TicketDraft.Draft.Clear | app/helpers.py:6-15 | the draft is forgotten: idle, no text, no attachments, no album |
| TicketDraft.ClearedDraftIsSilent | app/user/handlers/ticket.py:83-90 | a finalizer that runs after the draft was cleared sends nothing, whatever Telegram would answer, and the draft stays cleared, losing only that pending finalizer |
| TicketDraft.ProfileAddress | app/user/handlers/ticket.py:432-438 | the address is empty exactly when the user has no profile row |
| TicketDraft.MediaSendsEveryAttachment | app/user/handlers/ticket.py:511-545 | each attachment is sent once, in order, whatever Telegram answers |
| TicketDraft.AdminSendsEveryAdmin | app/user/handlers/ticket.py:547-561 | each admin is messaged once, in order, whatever Telegram answers |
| TicketDraft.Rows | app/user/handlers/ticket.py:513-519 | one attachment row per draft attachment |
| TicketDraft.PrefixStep | app/user/handlers/ticket.py:511-545 | one more attachment adds its row and its send at the end |
| TicketDraft.StoreAttachments | app/user/handlers/ticket.py:506-545 | every attachment is stored in order, and sent into the topic when there is one |
| TicketDraft.NotifyAll | app/user/handlers/ticket.py:547-561 | the loop messages every admin in order |
| TicketDraft.Publish | app/user/handlers/ticket.py:484-561 | the topic is bound exactly when it could be created, all attachments are stored, and the log is topic and intro, then attachments (only with a topic), then admin notices |
| TicketDraft.PublishAndClear | app/user/handlers/ticket.py:484-572 | the ticket is published as Publish says and the draft cleared; the user is then told the ticket number, and the "Отправлено ✅" toast follows only when that reply went through |
| TicketDraft.OverwriteTwice | app/user/handlers/ticket.py:494 | binding the topic overwrites the row just created |
| TicketDraft.Confirm | app/user/handlers/ticket.py:419-572 | an empty stripped text only alerts; a user without a row gets nothing stored or sent; otherwise a new OPEN ticket with the stripped text is published, the draft cleared, and the log ends with the reply and, after a delivered reply, the toast |
| TicketDraft.CreateFromDraft | app/user/handlers/ticket.py:429-572 | create_ticket failing leaves store and draft as they were and sends nothing; otherwise the new ticket is stored, published and announced, the draft cleared, and the reply and toast logged as CreatedAnswer says |
| TicketDraft.CreatedAnswer | app/user/handlers/ticket.py:568-572 | the user is told the ticket number first; the "Отправлено ✅" toast follows exactly when that reply went through |
| TicketDraft.CancelMirrorClosesTopic | app/user/handlers/ticket.py:640-664 | a bound topic is renamed to the finished status and closed exactly when the notice could be posted into it |
| TicketDraft.CancelActive | app/user/handlers/ticket.py:620-688 | a refused cancellation changes nothing, says so and answers the callback; a successful one cancels only that ticket, mirrors it to the forum, tells every admin, confirms to the user and answers "Отменено ✅" |
| TicketForum.TopicNameInjective | app/group/ticket_forum.py:61-67 | a topic name tells both the status and the ticket id |
| TicketForum.ModeCodec | app/group/ticket_forum.py:154-159 | "open", "work" and "done" name the three statuses one to one, and no other word names any |
| TicketForum.ParsePanelData | app/group/ticket_forum.py:147-162 | a command needs exactly three colon pieces with an integer middle; an unknown mode word is told apart from malformed data |
| TicketForum.PanelDataRoundTrip | app/group/ticket_forum.py:147-159 | every panel button's data parses back to its own ticket and status |
| TicketForum.CommandWordOf | app/group/ticket_forum.py:235-236 | "/w", "/w@bot" and "/w args" all give the command word w |
| TicketForum.BareSlashHasNoWord | app/group/ticket_forum.py:236 | a slash on its own leaves no command word, so the split raises |
| TicketForum.SplitHeadAppend | app/group/ticket_forum.py:236 | the first piece of a split is unaffected by text after the first separator |
| TicketForum.SplitHeadStarts | app/group/ticket_forum.py:236 | the first piece keeps the first character when that is not the separator |
| TicketForum.TakeWordOf | app/group/ticket_forum.py:236 | the first word of a word followed by space is that word |
| TicketForum.PanelAppliesOnlyWhenAuthorised | app/group/ticket_forum.py:140-168 | a click applies a status exactly when it comes in the configured chat, from an admin, with well-formed data naming the ticket of the click's topic; the same status may be set again |
| TicketForum.PanelEffectsAttemptEverything | app/group/ticket_forum.py:175-206 | after a write the rename, the close of a finished ticket and the author notice are always attempted, and the keyboard is refreshed exactly when the announcement went through |
| TicketForum.PanelEffectsHead | app/group/ticket_forum.py:177-195 | the rename comes first, the close appears exactly for a finished ticket, and the author notice is attempted |
| TicketForum.PanelEffectsTail | app/group/ticket_forum.py:197-206 | the keyboard refresh happens exactly when the announcement was accepted |
| TicketForum.OnStatusPanelClick | app/group/ticket_forum.py:134-206 | a refused click changes nothing and answers its alert; an applied one writes the status to that ticket only and performs the panel effects |
| TicketForum.CommandChangesStatus | app/group/ticket_forum.py:257-283 | a command applies exactly when the topic has a ticket, the word names a status and that status differs from the current one |
| TicketForum.HandleStatusCommand | app/group/ticket_forum.py:257-302 | the decision is made on the topic's ticket; a refusal changes nothing and replies; an applied command writes only that ticket and notifies, renames, closes and confirms |
| TicketForum.RelayConditions | app/group/ticket_forum.py:211-253 | a group message is relayed exactly when it is a topic message of the configured chat, from an admin, not a system or slash message, and its topic has a ticket |
| TicketForum.CommandRouting | app/group/ticket_forum.py:234-241 | only slash text from an admin whose command word is open, work or done reaches the status command |
| TicketForum.RelayCopyNeedsHeader | app/group/ticket_forum.py:84-109 | the copy reaches the author only when there is an author and the header went through |
| TicketForum.OnGroupMessage | app/group/ticket_forum.py:211-253 | the route follows the guards; only a status command writes the store; a relay sends the header and the copy to the ticket's author |
| Effects.Actions | app/group/ticket_forum.py:61-109 | the calls of an effect log, one per entry, in order |
| ReplyDispatcher.NoColonInIntToString | app/user/handlers/user.py:60-61 | a ticket id's text never contains ":", so the reply data splits into exactly two parts |
| ReplyDispatcher.ReplyDataRoundTrip | app/user/handlers/user.py:59-65 | the reply button's data parses back to its ticket id; a negative id is refused |
| ReplyDispatcher.ReplyDataNeedsTwoParts | app/user/handlers/user.py:60-63 | data with more or fewer than two ":" pieces is refused |
| ReplyDispatcher.RelayLog | app/user/handlers/user.py:106-149 | an incomplete target only draws the failure notice; otherwise the header and the copy are both attempted, the acknowledgement follows a delivered copy, and the retry notice follows a failed one |
| ReplyDispatcher.FailedCopyKeepsWaiting | app/user/handlers/user.py:143-146 | a failed copy never clears the state, so the user's next message retries |
| ReplyDispatcher.HeaderFailureStillDelivers | app/user/handlers/user.py:120-149 | a rejected header does not stop the copy, and a delivered copy ends the conversation whatever happens to the acknowledgement |
| ReplyDispatcher.AckFailureStillEnds | app/user/handlers/user.py:133-146 | a refused acknowledgement after a delivered copy still ends the conversation, because the history and the state are cleared before it is sent; the user then gets the retry notice |
| ReplyDispatcher.ReplyConversation.constructor | app/user/handlers/user.py:21-23 | a chat starts outside the reply conversation |
| ReplyDispatcher.ReplyConversation.Start | app/user/handlers/user.py:58-89 | bad data and a ticket without a topic only alert and change nothing; otherwise the conversation waits with the ticket's chat and thread, the prompt is sent, and the callback is answered exactly when the prompt went through |
| ReplyDispatcher.ReplyConversation.Cancel | app/user/handlers/user.py:93-101 | "/cancel" ends a waiting conversation with the cancellation text, and otherwise says there is nothing to cancel |
| ReplyDispatcher.ReplyConversation.Relay | app/user/handlers/user.py:105-149 | the relay sends what RelayLog says, and the conversation ends exactly when RelayClears holds: for an incomplete target, or once the copy went through, before the acknowledgement is attempted |
| Profile.ProfileAddressIsExportAddress | app/user/utils/profile.py:13-22 | the card and the ticket export show the same address for every user |
| Profile.MonthName | app/user/utils/profile.py:29 | the month name is "—" exactly for 0 and numbers past 12, and otherwise the Russian name |
| Profile.BuildProfile | app/user/utils/profile.py:7-80 | the card is the one IsCardOf describes: an unknown user gets "profile not found"; otherwise the card shows the name or "—", the address, the phone, this month's hot readings grouped by meter (none when there are none), and the counts of the user's tickets with active = open + work |
| Registration.NextStepAdvancesByOne | app/user/handlers/registration.py:37-159 | every question but the apartment moves exactly one step on |
| Registration.ContactPhone | app/user/handlers/registration.py:56-60 | a shared contact's number always starts with "+", added only when missing |
| Registration.ContactPhoneIdempotent | app/user/handlers/registration.py:59-60 | the prefix is added at most once, and only where it is missing |
| Registration.AcceptedApartmentStored | app/user/handlers/registration.py:165-174 | an accepted apartment is stored as no apartment exactly for "-" or "—", and otherwise as its stripped digits |
| Registration.DashKeepsOldApartment | app/user/handlers/registration.py:174 | because None means "leave as it was", "-" keeps whatever apartment the row already had |
| Registration.Dialogue.constructor | app/user/utils/states.py:5-10 | a chat starts outside the dialogue with nothing collected |
| Registration.Dialogue.Start | app/user/handlers/registration.py:22-34 | the state is cleared and the dialogue asks for the name |
| Registration.Dialogue.OnName | app/user/handlers/registration.py:37-51 | a non-empty text is stored stripped and the phone question is sent; the dialogue moves on only when that question went through; anything else is not handled, sends nothing and changes nothing |
| Registration.Dialogue.OnContact | app/user/handlers/registration.py:55-72 | a shared contact is stored with "+" and the street question is sent; the dialogue moves on only when that question went through |
| Registration.Dialogue.OnPhoneText | app/user/handlers/registration.py:76-112 | a valid typed phone is stored as "+" and its digits and the street question is sent, and the dialogue moves on only when it went through; anything else draws the warning and changes nothing |
| Registration.Dialogue.OnStreet | app/user/handlers/registration.py:115-134 | a valid street from a person is stored stripped and the house question is sent, and the dialogue moves on only when it went through; anything else draws the warning and changes nothing |
| Registration.Dialogue.OnHouse | app/user/handlers/registration.py:137-155 | a valid house from a person is stored stripped and the apartment question is sent, and the dialogue moves on only when it went through; anything else draws the warning and changes nothing |
| Registration.Dialogue.OnApartment | app/user/handlers/registration.py:158-201 | a valid apartment saves the collected profile with status "active" and sends the confirmation; only when it went through are the dialogue and its data cleared and the "Личный кабинет" card sent, and that card is the saved user's profile card; an invalid apartment draws the warning; an unknown user sends nothing and changes nothing |
| EditProfile.ButtonSelectsItsField | app/user/keyboards/user_kb.py:127-136 | each edit button selects exactly its own field |
| EditProfile.ActionIsItsFieldsButton | app/user/handlers/edit_profile.py:31-116 | every action that selects a field is that field's button |
| EditProfile.EditTouchesOneField | app/user/handlers/edit_profile.py:131-134 | an edit changes the chosen field and resets the status to "new", since that argument keeps its default; every other field is kept |
| EditProfile.EditDemotesRegisteredUser | app/user/handlers/edit_profile.py:131-134 | an edit by a registered ("active") user always changes that user's status |
| EditProfile.IntendedEditKeepsStatus | database/requests.py:99-103 | the edit passing no status keeps the status and every field but the chosen one, and differs from the as-written edit only in the status |
| EditProfile.ApartmentDashStoredLiterally | app/user/handlers/edit_profile.py:119-134 | no validator runs, and unlike registration "-" is stored as it is |
| EditProfile.EditedPhoneIsNormalised | app/user/handlers/edit_profile.py:126-129 | an edited phone is always "+" and the digits of the text |
| EditProfile.DigitsOfSpaces | app/user/handlers/edit_profile.py:124-129 | stripping the text never loses a digit |
| EditProfile.Session.constructor | app/user/utils/states.py:12-13 | a chat starts outside the edit dialogue |
| EditProfile.Session.Choose | app/user/handlers/edit_profile.py:31-116 | a known edit button clears the state and waits for its field; any other action changes nothing |
| EditProfile.Session.Submit | app/user/handlers/edit_profile.py:119-144 | a non-empty text for a known user updates that one field and sends the acknowledgement; only when it went through is the state cleared and the "Личный кабинет" card, the user's profile card, sent; otherwise nothing is sent and nothing changes |
| UserKeyboards.StatusCallbackRoundTrip | app/user/keyboards/user_kb.py:26-43 | a status written into a history callback reads back as the same status, and every readable value is one the writer produces |
| UserKeyboards.PageCount | app/user/keyboards/user_kb.py:76 | there is always at least one page |
| UserKeyboards.PageCountIsLeast | app/user/keyboards/user_kb.py:76 | the pages hold every ticket, and one page fewer would not, unless there is just one |
| UserKeyboards.NavRow | app/user/keyboards/user_kb.py:77-87 | "« Назад" appears exactly past the first page and "Вперёд »" exactly before the last, and nothing else is in the row |
| UserKeyboards.HistoryListMenu | app/user/keyboards/user_kb.py:67-95 | one button per ticket in the given order, the navigation row only when it is not empty, and the way back to the filters always last |
| UserKeyboards.DetailActions | app/user/keyboards/user_kb.py:98-110 | the reply and cancel buttons appear exactly for an open or in-work ticket, and the way back is always the last row |
| UserKeyboards.MeterMainMenu | app/user/keyboards/user_kb.py:293-316 | the submit button appears exactly while fewer than three meters are in; history and back always |
| UserKeyboards.MeterNumberMenu | app/user/keyboards/user_kb.py:319-335 | meters 1, 2 and 3 in order, each carrying the month and year, then the way back |
| Meter.GroupOf | app/user/handlers/meter.py:441-446 | a meter's group holds exactly the readings of that meter |
| Meter.GroupOfAppend | app/user/handlers/meter.py:442-446 | grouping keeps the order in which the readings came |
| Meter.InsertSorted | app/user/handlers/meter.py:449 | adding a number to an ascending list of distinct numbers keeps it ascending and distinct, and adds exactly that number |
| Meter.SortedNumbers | app/user/handlers/meter.py:449 | the meter numbers that occur, each once, ascending |
| Meter.Listing | app/user/handlers/meter.py:439-455 | one block per meter that occurs, in ascending order, holding that meter's readings |
| Meter.ListingIsAPartition | app/user/handlers/meter.py:439-455 | every reading is shown exactly under its own meter, the meters ascend, and no block holds another meter's reading |
| Meter.GroupByMeter | app/user/handlers/meter.py:441-446 | the dictionary has one key per meter number, and each holds its meter's readings in order |
| Meter.MonthHistory | app/user/handlers/meter.py:439-455 | the blocks shown are exactly the partition by meter in ascending order |
| Meter.ReadInOrder | app/user/handlers/meter.py:449-455 | one block per sorted key, in key order |
| Meter.ThreeMetersCloseTheMenu | app/user/handlers/meter.py:80-88 | three different meters in for the month close the number menu, and a user with no readings can always choose |
| Meter.MenuAndButtonAgree | app/user/handlers/meter.py:39-69 | the number menu opens exactly when the main menu offers its submit button |
| Meter.NaNPassesRangeCheck | app/user/handlers/meter.py:164-166 | the range test as written lets "nan" through, although nan is no number from 0 to 9999999 |
| Meter.CorrectedRangeAgreesOffNaN | app/user/handlers/meter.py:164-166 | on every value except nan the corrected test is the written one, and the infinities are refused by both |
| Meter.ReadingAddress | app/user/handlers/meter.py:223-225 | the address always begins with the street and "д. " and the house |
| Meter.ReadingDateInChosenMonth | app/user/handlers/meter.py:281-288 | the date lies in the chosen month; it is today within the current month, and otherwise the month's last day |
| Meter.AllSubmittedExactlyAtThree | app/user/handlers/meter.py:325-337 | "all submitted" is said exactly when three or more meters are in |
| Meter.ConfirmText | app/user/handlers/meter.py:327-337 | the confirmation always opens with the "accepted" header |
| Meter.TopicPost | app/user/handlers/meter.py:365-402 | no topic configured means no message; otherwise the notice is sent once, into the meter topic |
| Meter.MeterSession.constructor | app/user/utils/states.py:20-22 | a chat starts outside the meter dialogue |
| Meter.MeterSession.StartInput | app/user/handlers/meter.py:108-156 | a meter already in this month's history is refused and nothing changes; otherwise the input for that meter and month begins |
| Meter.MeterSession.InputReading | app/user/handlers/meter.py:160-242 | a reading that does not parse or fails the range test as written draws the matching warning and keeps the state; nan passes that test, so a previewed reading is a number from 0 to 9999999 or nan; an unknown user is told so, and the state is cleared only when that message went through; otherwise the preview holds the reading and the profile |
| Meter.MeterSession.EditReading | app/user/handlers/meter.py:246-267 | editing goes back to typing the reading |
| Meter.MeterSession.Cancel | app/user/handlers/meter.py:352-362 | cancelling clears the state |
| Meter.MeterSession.Confirm | app/user/handlers/meter.py:271-348 | a known user's reading is appended as a new "hot" row dated in the chosen month; a failed save posts only the error and answers the callback with no text; otherwise the topic notice comes first and the confirmation follows, counting the meters in (at least one), saying "all submitted" exactly at three, and the callback is answered "✅ Данные сохранены!"; each callback answer is sent only when the reply before it went through; the state ends cleared either way |
| Meter.Answered | app/user/handlers/meter.py:339-348 | a reply sent with `call.message.answer` is followed by the callback answer exactly when the reply was delivered, because a refused reply raises before `call.answer` |
| Text.PyIntOfIntToString | config/settings.py:17-18 | Python's int() reads an integer's own text back as that integer |
| Text.JoinSplit | config/settings.py:27 | joining the pieces of a split with the separator gives back the text |
| Text.SplitJoin | config/settings.py:27 | splitting a join of separator-free pieces gives the pieces back |
| Text.SplitPiecesFree | config/settings.py:27 | no piece of a split contains the separator |
| Calendar.DaysInMonth | app/tasks/meter_reminder.py:29-30 | a month has 28 to 31 days, and 29 exactly for February of a leap year |
| Calendar.DaysBeforeYearClosedForm | database/export_queries.py:47 | the days before a year, counted year by year, equal (y-1)*365 + (y-1)//4 - (y-1)//100 + (y-1)//400, the count behind date.weekday() and date arithmetic |
| MeterReminder.DtIrkt | app/tasks/meter_reminder.py:33-40 | the instant lies in the requested month, on the requested day clamped to the month's last day, and exists exactly when datetime() accepts the year, day, hour and minute |
| MeterReminder.EarlierMonthBefore | app/tasks/meter_reminder.py:64-81 | a slot in an earlier month comes before every instant of a later month |
| MeterReminder.NextRunIsEarliestLaterSlot | app/tasks/meter_reminder.py:43-81 | the next run is strictly after now, in now's month or the next one (December rolling over to January), and no scheduled slot lies between them; it is missing only for an out-of-range configuration or the end of the calendar |
| MeterReminder.SendReminders | app/tasks/meter_reminder.py:95-132 | every row without cold readings is written to, in order, a failed send does not stop the round, and the count is the number of sends that went through |
| MeterReminder.AllMissingRowsReminded | database/requests.py:486 | since every missing-readings row has cold_exists false, every one of those users is written to |
| MeterExport.NextExportIsLater | app/tasks/meter_export.py:40-57 | before the calendar's last year the next export exists, is strictly later than now, lies in this month or the next, and is the 24th at 10:00:00 |
| MeterExport.ExportFileNameInjective | app/tasks/meter_export.py:170 | the zero-padded file name "cold_water_{year}_{MM}" differs for different months |
| MeterExport.SendMeterExport | app/tasks/meter_export.py:156-204 | a run produces nothing at all exactly when there are no cold-water readings for the month |
| MeterExport.RaisedRunLeavesFiles | app/tasks/meter_export.py:187-204 | a run raises exactly when the mailer's signature does not take the call's keywords, and a run that raised has mailed and unlinked nothing |
| MeterExport.AttachmentsKeywordUnknown | app/services/email_service.py:31-36 | `send_email` has no `attachments` parameter, so the call as written does not bind |
| MeterExport.ExportNeverMailed | app/tasks/meter_export.py:187-204 | as written, every month with readings raises whatever the mailer would answer: nothing is mailed and both temporary files stay behind |
| MeterExport.ExportMailsWhatItWrites | app/tasks/meter_export.py:163-204 | with a mailer whose signature takes the call's keywords, every file written is mailed and then unlinked, whatever the mailer answers, and each carries the month's file name |
| MeterExport.IntendedSignatureBinds | app/tasks/meter_export.py:187-192 | a mailer that takes a list of attachments binds the call as written |
| GetMeter.Chosen | app/admin/handlers/get_meter.py:190-191 | a callback month or year of 0 means "not chosen", and any other value is kept |
| GetMeter.MetersFileNameFromCallback | app/admin/handlers/get_meter.py:224-229 | the year shows whenever it is non-zero, the month only together with it, zero-padded, and the period only when no year was chosen |
| GetMeter.MonthFileNameInjective | app/admin/handlers/get_meter.py:226-227 | two different chosen months of one meter type never share a file name |
| GetMeter.CsvRow | app/admin/handlers/get_meter.py:328-340 | a CSV row has the seven header columns, its address is the reading preview's, and a missing phone is written as an empty field |
| GetMeter.MetersCsv | app/admin/handlers/get_meter.py:312-342 | the header, then one row per reading in the query's order |
| GetMeter.XlsxRow | app/admin/handlers/get_meter.py:378-386 | a sheet row has seven cells; the id stays a number and a missing phone stays None |
| GetMeter.SheetIsUnique | app/admin/handlers/get_meter.py:359-386 | a query result has exactly one sheet |
| GetMeter.SheetRectangular | app/admin/handlers/get_meter.py:364-386 | every row of the sheet has the header's seven cells |
| GetMeter.StrCellsMembers | app/admin/handlers/get_meter.py:392-397 | only text cells can widen a column, since len() of anything else raises and is swallowed |
| GetMeter.ColumnWidth | app/admin/handlers/get_meter.py:389-399 | the width loop gives min(longest text cell + 2, 50) |
| GetMeter.IdCellsAreNumbers | app/admin/handlers/get_meter.py:379 | below its header the id column holds only the readings' ids, as numbers |
| GetMeter.IdColumnWidth | app/admin/handlers/get_meter.py:389-399 | the id column is as wide as "ID" plus two, however long the ids are |
| GetMeter.NumbersUnderTextWidth | app/admin/handlers/get_meter.py:389-399 | a column whose only text is its header is as wide as the header plus two |
| GetMeter.XlsxSheet | app/admin/handlers/get_meter.py:363-386 | the appended rows form the query result's sheet |
| GetMeter.ColumnWidths | app/admin/handlers/get_meter.py:389-399 | one width per column, in order, each given by the width rule |
| GetMeter.MetersXlsx | app/admin/handlers/get_meter.py:345-402 | the sheet of the readings and the seven widths of its columns |
| GetMeter.IsoMeaning | app/admin/handlers/get_meter.py:416-418 | no date or datetime survives the conversion, every other value is untouched, and converting twice changes nothing |
| GetMeter.IsoRow | app/admin/handlers/get_meter.py:415-418 | every key is kept in place with its value converted |
| GetMeter.JsonRows | app/admin/handlers/get_meter.py:405-424 | one converted row per query row, in order, each with all its keys |
| GetMeter.ExportDialog.constructor | app/admin/handlers/get_meter.py:25-29 | an admin starts outside the export dialogue |
| GetMeter.ExportDialog.GenerateFile | app/admin/handlers/get_meter.py:185-271 | no rows means no file; "csv", "xlsx" and "json" give that file, named from the callback, with every record; the CSV table starts with the header row and has one row per record; every XLSX column width is the width rule applied to that column's cells; any other format fails; the dialogue ends in every case |
| ExportTickets.DayField | app/admin/handlers/export_tickets.py:163-164 | a "%d" field that parses is a day from 1 to 31 |
| ExportTickets.MonthField | app/admin/handlers/export_tickets.py:163-164 | a "%m" field that parses is a month from 1 to 12 |
| ExportTickets.YearField | app/admin/handlers/export_tickets.py:163-164 | a "%y" field that parses is a year from 1969 to 2068 |
| ExportTickets.ParseShortDate | app/admin/handlers/export_tickets.py:163-164 | a DD.MM.YY text that parses is a real calendar date |
| ExportTickets.CustomRangeAccepted | app/admin/handlers/export_tickets.py:155-167 | a range is accepted exactly when the text has two dash-separated parts that both parse, and it holds those two dates, the earlier first |
| ExportTickets.RangeIgnoresPartOrder | app/admin/handlers/export_tickets.py:166-167 | writing the range backwards selects the same period |
| ExportTickets.ShortDateRoundTrip | app/admin/handlers/export_tickets.py:163-164 | every date of the century the two-digit year covers, typed as DD.MM.YY, reads back as itself |
| ExportTickets.CustomRangeRoundTrip | app/admin/handlers/export_tickets.py:155-167 | "DD.MM.YY-DD.MM.YY" of any two such dates is accepted and gives the pair in order |
| ExportTickets.TicketsFileNamePrecedence | app/admin/handlers/export_tickets.py:234-238 | a chosen month decides the name whatever else is stored; otherwise a complete range decides it; only without either does the period, "all" by default, show |
| ExportTickets.MonthFileNameInjective | app/admin/handlers/export_tickets.py:235-236 | different chosen months never share a file name |
| ExportTickets.WorkColumn | app/admin/handlers/export_tickets.py:317 | a text of up to 100 characters is kept whole; a longer one keeps its first 100 and ends in "..." |
| ExportTickets.WorkColumnShortens | app/admin/handlers/export_tickets.py:317 | the column never exceeds 103 characters, always keeps the text's start, and shortening twice changes nothing |
| ExportTickets.TicketsCsv | app/admin/handlers/export_tickets.py:296-321 | the header, then one row per ticket in order, every row as wide as the header |
| ExportTickets.XlsxTable | app/admin/handlers/export_tickets.py:340-359 | the header, then one full row per ticket |
| ExportTickets.MaxLenIsLongest | app/admin/handlers/export_tickets.py:365-370 | the running maximum is the length of the longest cell, 0 for none |
| ExportTickets.WidthBounds | app/admin/handlers/export_tickets.py:371 | a width lies between 2 and 50; it is 50 exactly when some cell has 48 characters or more, and otherwise two more than the longest cell |
| ExportTickets.ColumnWidth | app/admin/handlers/export_tickets.py:362-372 | the width loop computes the width rule for its column |
| ExportTickets.XlsxSheet | app/admin/handlers/export_tickets.py:340-359 | the appended rows are the header and one row per ticket |
| ExportTickets.ColumnWidths | app/admin/handlers/export_tickets.py:362-372 | one width per column, in order |
| ExportTickets.TicketsXlsx | app/admin/handlers/export_tickets.py:324-375 | the sheet is the tickets' table, rectangular, with one width per column |
| ExportTickets.ExportSession.constructor | app/admin/handlers/export_tickets.py:28-32 | an admin starts with an empty export selection |
| ExportTickets.ExportSession.EnterDates | app/admin/handlers/export_tickets.py:153-187 | an accepted range is stored earlier date first and the dialogue moves to the format; a rejected one keeps everything |
| ExportTickets.PeriodOf | app/admin/handlers/export_tickets.py:191-277 | no stored period, or one the dialogue never stores, means all tickets; each stored name selects its own period |
| ExportTickets.ExportSession.Generate | app/admin/handlers/export_tickets.py:191-277 | the tickets are the export query's result for the stored period; none means no file; "csv" gives the header followed by the CSV row of each ticket in order, and anything else gives the XLSX table with one width per column, fitted to that column; the file is named by the stored selection, and the storage is cleared either way |
| ExportQueries.AddressParts | database/export_queries.py:76-82 | the address parts are never empty, and there are none exactly when street, house and apartment are all missing or empty |
| ExportQueries.AddressLineCases | database/export_queries.py:76-83 | a missing part takes its separator with it, so the address never has an empty segment, and no parts at all give "—" |
| ExportQueries.WeekStartsOnMonday | database/export_queries.py:46-52 | the week filter starts on a Monday no later than today, and today passes both the week and the month filter |
| ExportQueries.CustomRangeInclusive | database/export_queries.py:62-68 | both ends of a custom range are inside it |
| ExportQueries.IncompleteRequestsExportAll | database/export_queries.py:54-68 | a select_month request without both month and year, or a custom one without both dates, filters nothing |
| ExportQueries.SelectedExactlyTheMatches | database/export_queries.py:34-71 | a joined row is exported exactly when its creation date is in the period |
| ExportQueries.SelectedKeepsOrder | database/export_queries.py:37-71 | filtering keeps the newest-first order |
| ExportQueries.ExportedNewestFirst | database/export_queries.py:37-95 | the export rows come newest first |
| ExportQueries.RowsOf | database/export_queries.py:74-93 | one export row per joined row, in order |
| ExportQueries.TicketsForExport | database/export_queries.py:73-95 | the loop builds exactly the mapped rows of the tickets the period selects |
| ExportQueries.ColdReadingsSelectMonth | database/export_queries.py:112-128 | every exported reading is a cold reading of the requested month and year, today's by default, and every such reading is exported |
| ExportQueries.HotReadingsExcluded | database/export_queries.py:121-126 | a reading of any other meter type never reaches the export |
| Subscription.FirstBlocked | app/user/middlewares/check_subscription.py:63-72 | the channel found is the first one that does not pass, and there is none exactly when every channel passes |
| Subscription.PromptRows | app/user/middlewares/check_subscription.py:104-108 | the link row appears exactly when there is a link, and the check button is always last |
| Subscription.PromptUrlCases | app/user/middlewares/check_subscription.py:91-92 | an "@name" channel links to https://t.me/name, and a text channel without "@" never gets a link |
| Subscription.SubscriptionMiddleware.constructor | app/user/middlewares/check_subscription.py:36-47 | no argument means the configured channels; a single string is one channel and is never split into characters; any other collection is taken as it is |
| Subscription.SubscriptionMiddleware.Gate | app/user/middlewares/check_subscription.py:49-107 | the check callback passes unchecked; otherwise the handler runs exactly when every channel passes, and else the one prompt names the first channel that does not, with that channel's link |
| Subscription.BlockedAlert | app/user/middlewares/check_subscription.py:131-139 | a blocked re-check never says "confirmed" |
| Subscription.Recheck | app/user/middlewares/check_subscription.py:125-180 | the re-check stops exactly on the channel the gate would stop on, with that channel's alert, and changes no user; otherwise it confirms, the users table is the old one with only this user's row set as get_or_create_user leaves it (a new "new" row, or the old row taking a non-empty username), a "new" row gets the welcome, and any other gets the card IsCardOf describes for the updated store |
| Subscription.OneBadChannelBlocks | app/user/middlewares/check_subscription.py:63-72 | one channel the user left, was kicked from or that cannot be looked up is enough to stop the update, and the prompt names it or a channel before it |
| Post.Markup | app/admin/handlers/post.py:204-208 | the published post has a button exactly when both its text and its link are non-empty, and it is that button |
| Post.HttpSchemeMeansPrefix | app/admin/handlers/post.py:117 | the guard accepts exactly the links that begin with "http://" or "https://" |
| Post.UpperCaseSchemeRejected | app/admin/handlers/post.py:117 | the scheme is matched case-sensitively and no other scheme passes |
| Post.PreviewButtonIsPublished | app/admin/handlers/post.py:204-208 | a link that passed the guard is never empty, so the group receives the previewed button exactly when the button's text is non-empty |
| Post.PostDialog.constructor | app/admin/handlers/post.py:19-24 | a chat starts outside the post dialogue with nothing stored |
| Post.PostDialog.Clear | app/helpers.py:6-15 | clearing the chat history also clears the state and its data |
| Post.PostDialog.Start | app/admin/handlers/post.py:27-37 | whatever the chat was doing is cleared and the post is asked for; the dialogue waits for the post, and the callback is answered, only when that question went through |
| Post.PostDialog.ReceivePost | app/admin/handlers/post.py:40-55 | the post's message and chat are remembered and the button question is sent; the dialogue moves on only when it went through |
| Post.PostDialog.Choose | app/admin/handlers/post.py:58-93 | "post:add_button" asks for the button text; "post:no_button" previews the post without a button and asks for confirmation; both first try to remove the pressed keyboard, ignoring a refusal; each moves on, and answers the callback, only when its question went through; any other answer changes nothing |
| Post.PostDialog.ButtonTextReceived | app/admin/handlers/post.py:96-106 | the stripped text is stored and the link is asked for; the dialogue moves on only when that question went through |
| Post.PostDialog.ButtonUrlReceived | app/admin/handlers/post.py:109-141 | a link without an http or https scheme is asked for again and nothing changes; a good one is stored beside the button text, the preview carries that button, and the dialogue reaches confirmation only when the confirmation question went through |
| Post.PostDialog.ConfirmPost | app/admin/handlers/post.py:179-238 | the state is cleared first; with no message or chat stored only the warning is sent; otherwise the remembered post is copied to the group with the stored button when there is one; a refused success reply falls into the error reply; every path ends with the callback answer, reached only when the last reply went through |
| Post.PostDialog.Cancel | app/admin/handlers/post.py:241-258 | cancelling publishes nothing, clears the state, says so, and answers the callback only when that message went through |
| Post.ButtonDialog | app/admin/handlers/post.py:27-238 | a whole dialogue with a button reaches the confirmation exactly when every question went through, and then publishes the very post the admin sent, with the typed text and link, both stripped, as long as the text is not blank |

## Left out

- Telegram itself. Each call is an `Effects` entry whose success a parameter decides, except in the handlers listed in the next four lines. Message texts are kept only where a contract depends on them, and then literally, with their HTML tags. Parse modes, keyboards other than those in `UserKeyboards`, and message ids are not modelled.
- Sends that are not logged, because each handler writes its state before sending or sends through `replace_or_send_message`, which never raises: TicketDraft.Draft.Start, AttachmentsDone, Edit and AddAttachments; EditProfile.Session.Choose; Registration.Dialogue.Start; Meter.MeterSession.StartInput, EditReading and Cancel; ReplyDispatcher.ReplyConversation.Cancel; ExportTickets.ExportSession.EnterDates. A refused send there raises after the state is written, so the model's state is the source's.
- GetMeter.ExportDialog.GenerateFile and ExportTickets.ExportSession.Generate assume that every Telegram call in them succeeds. In the source a refused progress edit ("⏳") raises before the query, so no file is made and the state is kept. The state is also kept when the closing edit and the error edit after it are both refused. Whether the document was delivered is not modelled.
- Subscription.SubscriptionMiddleware.Gate assumes that the prompt is delivered. In the source the prompt is sent inside the lookup's `try`, so a refused prompt is caught and sent once more, and a second refusal propagates out of the middleware.
- Subscription.Recheck assumes that the alert for a blocked channel is delivered. In the source a refused "left" or "kicked" alert is caught, and the lookup-failure alert is sent in its place.
- The post preview that confirm_post copies into the admin's chat is returned as `preview` by Post.PostDialog.Choose and ButtonUrlReceived rather than logged; its failure is caught and changes nothing.
- Message history clean-up is not modelled: the tracked message ids, `save_msg`, `ask_and_track` and the deletions in `clear_chat_history`. The model keeps only the fact that `clear_chat_history` clears the FSM state.
- `asyncio` is not modelled: tasks, `sleep`, `_sleep_until`, and the `meter_reminder_loop` and `meter_export_loop` loops. The album finalizer's task identity is a counter (`TicketDraft.Draft.nextTask`). A cancelled finalizer stays in `pending`. When it runs it does nothing, because it is no longer the recorded one.
- Time zones, `datetime.utcnow()` and `date.today()` become parameters. Dates follow the Gregorian calendar of Python's `date` (years 1 to 9999). Seconds are the finest unit, and microseconds are left out.
- The floating-point reading is left out. `Meter.FloatValue` keeps only what the range test sees (a finite value, nan or an infinity). `float()` parsing is a parameter.
- Meter.MeterSession.InputReading: the preview message (with its confirmation keyboard) is not logged; it is sent after the reading and the state are stored, so its refusal changes nothing. The two-decimal rendering of the reading is a parameter (`shown`), because float formatting is not modelled. The handler follows the range test as written, which lets nan through; the intended test is `Meter.CorrectedRangeAgreesOffNaN`.
- Character classes cover ASCII and the Cyrillic alphabet only. Python's `str.isalpha`, `isdigit` and `\s` accept more of Unicode, and that wider range is not modelled.
- Text.PyInt: only ASCII digits, an optional sign, surrounding whitespace and single underscores between digits are read. Non-ASCII digits are not.
- A message that is not text (a sticker or a photo where text is expected) is modelled as `None` text in the handlers that take `Option<string>`. Post.PostDialog.ButtonTextReceived, Post.PostDialog.ButtonUrlReceived and ExportTickets.ExportSession.EnterDates take `string`: there the source calls `message.text.strip()` on `None`, which raises AttributeError before any state change or send (app/admin/handlers/post.py:99, app/admin/handlers/post.py:114, app/admin/handlers/export_tickets.py:155), so a non-text message changes nothing and is not modelled as a call. A message without `from_user` is not modelled.
- `calendar.monthrange` and `datetime()` raising are modelled as `None` (`MeterReminder.DtIrkt`) or excluded by a requires where the source's own data cannot reach them (a stored month outside 1 to 12).
- MeterExport.NextExportIsLater: the export day and time are the configuration defaults (24th, 10:00). `MeterReminder.NextRunIsEarliestLaterSlot` covers every configured day, hour and minute.
- `get_all_meter_readings_by_type_and_period` is not part of this model: its rows are a parameter of `GetMeter.ExportDialog.GenerateFile`.
- The XLSX fallback to CSV when openpyxl is missing is left out, as are cell styles and the temporary files' paths and removal in the admin exports.
- `_generate_cold_water_csv` and `_generate_cold_water_xlsx` (the cold-water file contents) are left out. Only whether files are produced, mailed and removed is modelled (`MeterExport`).
- E-mail is left out: the body of `send_email` and the accountant's address. Only its signature is modelled (`MeterExport.SendEmailSignature`), and the mailer's answer is a parameter.
- The `subs_prompt_id` bookkeeping of the subscription prompt, and the deletion of the prompt after a successful re-check, are left out.
- The post preview copy (`confirm_post`) is modelled as shown. Its failure is only logged by the source, so it changes nothing.
- `GROUP_ID`, `METER_CHAT_ID` and the topic ids are parameters. Their configuration parsing is left out.
- The admin filter on routers is left out: admin-only handlers are modelled as if the caller is an admin.
- Router ordering and FSM state shared between routers are left out. This includes which handler receives "/cancel" while another dialogue is waiting. Each dialogue is modelled on its own.
- TicketDraft.Trimmed: when the handled-id window is over its limit, the source drops the element that comes first in a Python set's iteration order. The model lets `dropAt` choose that element.
- Handlers outside the modelled core are left out:
  - `send_status_panel`;
  - `ticket_abort`, `ticket_open_active` and the `user_history_*` handlers;
  - `command_start_handler` and `open_cabinet`;
  - `meter_menu`'s text (only its button gating is modelled);
  - the static keyboards (`ticket_history_filter_menu`, `meter_history` and the admin menus);
  - `count_tickets`, `get_ticket_full` and `get_user_ticket_full`;
  - the remaining request helpers.
- TicketStore.MeterHistoryByMonth keeps the readings in the order they were stored. The query's order (meter number ascending, then reading date descending) is not modelled. The cabinet card groups the items by meter in ascending order, so only the order within one meter is not captured.
- TicketStore.Store.AddTicketAttachment refuses a ticket id that is not stored. The source relies on the database's foreign key, which SQLite may not enforce; its one caller always passes a ticket it has just created.
- TicketStore.Store.GetTicketByThread returns the ticket with the lowest id bound to the topic. The query's `.limit(1)` has no ORDER BY, so when several tickets share a topic the source may return any of them; the bot binds each new topic to one ticket only, so this does not arise from its own handlers.
- The FSM storage is aiogram's in-memory storage. The model treats the stored data as changed only through `update_data` and `clear`; whether a list read with `get_data` and changed in place aliases the stored one depends on the aiogram version and is not modelled.
- The SQL engine is not modelled. Queries are functions over in-memory tables. "Newest first" is descending id, because ids and `created_at` are handed out together at insertion.
- Database failures are not modelled: a failed commit or a lost connection. Each request fails only in the ways its own code does, such as the ValueError of `update_user_profile` for an unknown user.

## Findings

| source | as written | input that shows it | evidently intended | confidence | as-written member | corrected member |
|---|---|---|---|---|---|---|
| app/user/handlers/meter.py:164-166 | the range test `reading_value < 0 or reading_value > 9999999` is false for nan, so "nan" passes as a reading and is stored | the message text "nan" | only numbers from 0 to 9999999 are accepted, as the prompt says | not executed | Meter.NaNPassesRangeCheck | Meter.CorrectedRangeAgreesOffNaN |
| app/tasks/meter_export.py:187-192 | `send_email` is called with an `attachments=` keyword, but it takes a single `attachment_path` (app/services/email_service.py:31-36). The call raises TypeError before any mail is built, and the exception also skips the removal of the temporary files | any month with at least one cold-water reading | both files are mailed to the accountant and then removed | not executed | MeterExport.ExportNeverMailed | MeterExport.ExportMailsWhatItWrites |
| app/user/handlers/edit_profile.py:131-134 | the profile edit calls `update_user_profile` without a status, and that parameter defaults to "new" (database/requests.py:99-103), so every edit turns the user back into a new one: the greeting treats them as unregistered again and the reminder query, which skips "new" users, leaves them out | any profile edit by a registered ("active") user | the edit changes only the chosen field and keeps the status (`status=None`) | not executed | EditProfile.EditDemotesRegisteredUser | EditProfile.IntendedEditKeepsStatus |
