// The channel-subscription gate in front of every user update: which
// updates reach their handler, which channel the user is asked to join and
// with what buttons, and the "✅ Проверить" re-check.
module Subscription {
  import opened Wrappers
  import opened Text
  import opened Calendar
  import opened Models
  import opened Settings
  import TicketStore
  import Profile

  /** The one callback the gate lets through unchecked. */
  const CheckCallback := "check_subs"

  /** _is_subscribed: any member status but "left" and "kicked". */
  predicate IsSubscribed(status: string)
  {
    status != "left" && status != "kicked"
  }

  /** get_chat_member for one channel: None where the call raised, else the
    * member's status. A failed lookup counts as not subscribed. */
  predicate Passes(lookup: Channel -> Option<string>, c: Channel)
  {
    lookup(c).Some? && IsSubscribed(lookup(c).value)
  }

  /** The position of the first channel that does not pass, if any. */
  function FirstBlocked(channels: seq<Channel>, lookup: Channel -> Option<string>): (r: Option<nat>)
    ensures r.None? <==> forall k :: 0 <= k < |channels| ==> Passes(lookup, channels[k])
    ensures r.Some? ==>
      && r.value < |channels|
      && !Passes(lookup, channels[r.value])
      && forall k :: 0 <= k < r.value ==> Passes(lookup, channels[k])
  {
    if |channels| == 0 then None
    else if !Passes(lookup, channels[0]) then Some(0)
    else
      match FirstBlocked(channels[1..], lookup)
      case None => None
      case Some(i) => Some(i + 1)
  }

  lemma FirstBlockedStep(channels: seq<Channel>, lookup: Channel -> Option<string>, i: nat)
    requires i < |channels|
    requires forall k :: 0 <= k < i ==> Passes(lookup, channels[k])
    ensures !Passes(lookup, channels[i]) ==> FirstBlocked(channels, lookup) == Some(i)
  {
    if !Passes(lookup, channels[i]) {
      var r := FirstBlocked(channels, lookup);
      assert r.Some?;
      assert !(r.value > i);
    }
  }

  /** The update that reached the gate. */
  datatype Event = MessageEvent | CallbackEvent(data: string)

  datatype Button = SubscribeLink(url: string) | CheckButton

  /** What the gate did: run the handler, or send one prompt for the
    * channel that stopped it. */
  datatype GateOutcome = PassThrough | Prompted(channel: Channel, rows: seq<seq<Button>>)

  /** _prompt_subscribe's link: https://t.me/{name} for a string channel
    * starting with "@"; for a numeric id, the chat's username when get_chat
    * succeeds and has a non-empty one (`getChat` is None where it raised);
    * no link otherwise. */
  function PromptUrl(c: Channel, getChat: int -> Option<Option<string>>): Option<string>
  {
    match c
    case Username(n) => if StartsWith(n, "@") then Some("https://t.me/" + LStripChar(n, '@')) else None
    case ChatId(id) =>
      var chat := getChat(id);
      if chat.Some? && chat.value.Some? && chat.value.value != "" then Some("https://t.me/" + chat.value.value)
      else None
  }

  /** The prompt's keyboard: the link row when there is a link, then always
    * the check button. */
  function PromptRows(url: Option<string>): (rows: seq<seq<Button>>)
    ensures |rows| == (if url.Some? then 2 else 1)
    ensures rows[|rows| - 1] == [CheckButton]
    ensures url.Some? ==> rows[0] == [SubscribeLink(url.value)]
  {
    (if url.Some? then [[SubscribeLink(url.value)]] else []) + [[CheckButton]]
  }

  /** A username channel links to its own name; a channel neither "@..."
    * nor numeric never gets a link. */
  lemma PromptUrlCases(name: string, getChat: int -> Option<Option<string>>)
    requires name != "" && name[0] != '@'
    ensures PromptUrl(Username("@" + name), getChat) == Some("https://t.me/" + name)
    ensures PromptUrl(Username(name), getChat) == None
  {
    assert ("@" + name)[1..] == name;
    assert LStripChar("@" + name, '@') == LStripChar(name, '@');
  }

  /** How the channel setting reaches the middleware. */
  datatype ChannelsArg = Default | StringArg(s: string) | Items(xs: seq<Channel>)

  class SubscriptionMiddleware {
    var channels: seq<Channel>

    /** __init__: the settings' channels by default; a single string is one
      * channel (never split into characters); any other collection is taken
      * as it is. */
    constructor(arg: ChannelsArg, required: seq<Channel>)
      ensures arg.Default? ==> channels == required
      ensures arg.StringArg? ==> channels == [Username(arg.s)]
      ensures arg.Items? ==> channels == arg.xs
    {
      match arg
      case Default => channels := required;
      case StringArg(s) => channels := [Username(s)];
      case Items(xs) => channels := xs;
    }

    /** __call__: the check callback passes unchecked; otherwise the
      * channels are asked in order and the first one that does not pass
      * (unsubscribed or failing lookup) gets the single prompt and stops the
      * update; the handler runs only when every channel passes. */
    method Gate(event: Event, lookup: Channel -> Option<string>, getChat: int -> Option<Option<string>>)
      returns (outcome: GateOutcome)
      ensures event == CallbackEvent(CheckCallback) ==> outcome == PassThrough
      ensures event != CallbackEvent(CheckCallback) ==>
        match FirstBlocked(channels, lookup)
        case None => outcome == PassThrough
        case Some(i) => outcome == Prompted(channels[i], PromptRows(PromptUrl(channels[i], getChat)))
    {
      if event == CallbackEvent(CheckCallback) {
        return PassThrough;
      }
      var i := 0;
      while i < |channels|
        invariant 0 <= i <= |channels|
        invariant forall k :: 0 <= k < i ==> Passes(lookup, channels[k])
      {
        var member := lookup(channels[i]);
        if member.None? || !IsSubscribed(member.value) {
          FirstBlockedStep(channels, lookup, i);
          return Prompted(channels[i], PromptRows(PromptUrl(channels[i], getChat)));
        }
        i := i + 1;
      }
      return PassThrough;
    }
  }

  // ---------- check_subscriptions ----------

  const LeftAlert := "❌ Вы всё ещё не подписаны!"
  const KickedAlert := "❌ Вы были исключены из канала!"
  const LookupFailedAlert := "❌ Не удалось проверить подписку."
  const ConfirmedAlert := "✅ Подписка подтверждена!"

  /** The alert for a channel that does not pass. */
  function BlockedAlert(member: Option<string>): (text: string)
    requires member.None? || !IsSubscribed(member.value)
    ensures text != ConfirmedAlert
  {
    if member.None? then LookupFailedAlert
    else if member.value == "left" then LeftAlert
    else KickedAlert
  }

  /** What follows the alert: nothing, the welcome for a new user, or the
    * personal cabinet. */
  datatype FollowUp = Stopped | Welcome | Cabinet(card: Profile.Card)

  /** The re-check stops on the first channel the gate would stop on, with
    * that channel's alert; so it confirms exactly the users the gate lets
    * through. A confirmed user gets the row get_or_create_user leaves with
    * status "new", and then the welcome when that row is new, else the
    * cabinet card of the updated store. */
  method Recheck(store: TicketStore.Store, channels: seq<Channel>, lookup: Channel -> Option<string>,
                 tg: int, username: string, fullName: string, today: Date)
    returns (alert: string, follow: FollowUp)
    requires store.Valid() && ValidDate(today)
    modifies store`users
    ensures store.Valid()
    ensures follow.Stopped? <==> FirstBlocked(channels, lookup).Some?
    ensures follow.Stopped? ==>
      && alert == BlockedAlert(lookup(channels[FirstBlocked(channels, lookup).value]))
      && store.users == old(store.users)
    ensures !follow.Stopped? ==>
      && alert == ConfirmedAlert
      && tg in store.users
      && store.users == old(store.users)[tg := store.users[tg]]
      && (tg in old(store.users) ==>
            store.users[tg] == if username != "" then old(store.users)[tg].(username := username) else old(store.users)[tg])
      && (tg !in old(store.users) ==> store.users[tg] == User("new", username, fullName, None, None, None, None))
      && (follow.Welcome? <==> store.users[tg].status == "new")
      && (tg !in old(store.users) ==> follow.Welcome?)
      && (follow.Cabinet? ==> Profile.IsCardOf(store, tg, today, follow.card))
  {
    var i := 0;
    while i < |channels|
      invariant 0 <= i <= |channels|
      invariant forall k :: 0 <= k < i ==> Passes(lookup, channels[k])
    {
      var member := lookup(channels[i]);
      if member.None? || !IsSubscribed(member.value) {
        FirstBlockedStep(channels, lookup, i);
        return BlockedAlert(member), Stopped;
      }
      i := i + 1;
    }
    alert := ConfirmedAlert;
    var u := store.GetOrCreateUser(tg, username, fullName, "new");
    if u.status == "new" {
      follow := Welcome;
    } else {
      var card := Profile.BuildProfile(store, tg, today);
      follow := Cabinet(card);
    }
  }

  /** A single channel the user left, was kicked from or that cannot be
    * looked up is enough to stop the update, and the prompt names that
    * channel or one listed before it. */
  lemma OneBadChannelBlocks(channels: seq<Channel>, lookup: Channel -> Option<string>, j: nat)
    requires j < |channels| && !Passes(lookup, channels[j])
    ensures FirstBlocked(channels, lookup).Some?
    ensures FirstBlocked(channels, lookup).value <= j
  {
  }
}
