// Editing one profile field from the user's cabinet: a button picks the
// field, the next text becomes its value.
module EditProfile {
  import opened Wrappers
  import opened Text
  import opened Models
  import opened Effects
  import TicketStore
  import Validators
  import Calendar
  import Profile

  /** The FSM data key `param`. */
  datatype Param = NameField | PhoneField | StreetField | HouseField | ApartmentField

  function ParamKey(p: Param): string
  {
    match p
    case NameField => "name"
    case PhoneField => "phone"
    case StreetField => "street"
    case HouseField => "house"
    case ApartmentField => "apartment"
  }

  /** The callback action of each edit button. */
  function ButtonAction(p: Param): string
  {
    "edit_" + ParamKey(p)
  }

  /** Which field a callback action selects; the five quick_edit_* handlers. */
  function ParamOfAction(a: string): Option<Param>
  {
    if a == "edit_name" then Some(NameField)
    else if a == "edit_phone" then Some(PhoneField)
    else if a == "edit_street" then Some(StreetField)
    else if a == "edit_house" then Some(HouseField)
    else if a == "edit_apartment" then Some(ApartmentField)
    else None
  }

  /** Each button selects exactly its own field. */
  lemma ButtonSelectsItsField(p: Param)
    ensures ParamOfAction(ButtonAction(p)) == Some(p)
  {
    ButtonActionLiteral(p);
  }

  /** ... and every action that selects a field is that field's button. */
  lemma ActionIsItsFieldsButton(a: string)
    ensures ParamOfAction(a).Some? ==> ButtonAction(ParamOfAction(a).value) == a
  {
    if ParamOfAction(a).Some? {
      ButtonActionLiteral(ParamOfAction(a).value);
    }
  }

  lemma ButtonActionLiteral(p: Param)
    ensures p == NameField ==> ButtonAction(p) == "edit_name"
    ensures p == PhoneField ==> ButtonAction(p) == "edit_phone"
    ensures p == StreetField ==> ButtonAction(p) == "edit_street"
    ensures p == HouseField ==> ButtonAction(p) == "edit_house"
    ensures p == ApartmentField ==> ButtonAction(p) == "edit_apartment"
  {
  }

  /** The value stored: a phone as '+' and its digits, anything else stripped. */
  function EditValue(p: Param, text: string): string
  {
    var t := Strip(text);
    if p == PhoneField then Validators.NormalisedPhone(t) else t
  }

  function Only(p: Param, q: Param, v: string): Option<string>
  {
    if p == q then Some(v) else None
  }

  /** update_user_profile(telegram_id, **{param: value}): the status argument
    * keeps its default "new". */
  function EditedUser(u: User, p: Param, text: string): User
  {
    var v := EditValue(p, text);
    TicketStore.ApplyProfile(u, Some("new"), Only(p, NameField, v), Only(p, PhoneField, v),
                             Only(p, StreetField, v), Only(p, HouseField, v), Only(p, ApartmentField, v))
  }

  /** An edit changes the chosen field and the status, which it resets to
    * "new"; every other field is kept. */
  lemma EditTouchesOneField(u: User, p: Param, text: string)
    ensures EditedUser(u, p, text).status == "new"
    ensures p != NameField ==> EditedUser(u, p, text).name == u.name
    ensures p != PhoneField ==> EditedUser(u, p, text).phone == u.phone
    ensures p != StreetField ==> EditedUser(u, p, text).street == u.street
    ensures p != HouseField ==> EditedUser(u, p, text).house == u.house
    ensures p != ApartmentField ==> EditedUser(u, p, text).apartment == u.apartment
    ensures EditedUser(u, p, text).username == u.username
  {
    assert Strip("new") == "new";
  }

  /** As written, editing any field of a registered ("active") user turns
    * the user back into a "new" one: the greeting treats them as
    * unregistered again and the reminder query skips them. */
  lemma EditDemotesRegisteredUser(u: User, p: Param, text: string)
    requires u.status == "active"
    ensures EditedUser(u, p, text).status != u.status
  {
    EditTouchesOneField(u, p, text);
  }

  /** The edit as evidently intended: update_user_profile with
    * `status=None`, so only the chosen field changes. */
  function IntendedEditedUser(u: User, p: Param, text: string): User
  {
    var v := EditValue(p, text);
    TicketStore.ApplyProfile(u, None, Only(p, NameField, v), Only(p, PhoneField, v),
                             Only(p, StreetField, v), Only(p, HouseField, v), Only(p, ApartmentField, v))
  }

  /** The intended edit keeps the status and every other field, and differs
    * from the edit as written in the status alone. */
  lemma IntendedEditKeepsStatus(u: User, p: Param, text: string)
    ensures IntendedEditedUser(u, p, text).status == u.status
    ensures p != NameField ==> IntendedEditedUser(u, p, text).name == u.name
    ensures p != PhoneField ==> IntendedEditedUser(u, p, text).phone == u.phone
    ensures p != StreetField ==> IntendedEditedUser(u, p, text).street == u.street
    ensures p != HouseField ==> IntendedEditedUser(u, p, text).house == u.house
    ensures p != ApartmentField ==> IntendedEditedUser(u, p, text).apartment == u.apartment
    ensures IntendedEditedUser(u, p, text) == EditedUser(u, p, text).(status := u.status)
  {
    var a := IntendedEditedUser(u, p, text);
    var b := EditedUser(u, p, text);
    assert a.name == b.name && a.phone == b.phone && a.street == b.street;
    assert a.house == b.house && a.apartment == b.apartment && a.username == b.username;
  }

  /** No validator runs, and unlike registration "-" is stored as is. */
  lemma ApartmentDashStoredLiterally(u: User)
    ensures EditedUser(u, ApartmentField, "-").apartment == Some("-")
  {
    assert Strip("-") == "-";
  }

  /** An edited phone always carries the '+' and only the digits. */
  lemma EditedPhoneIsNormalised(u: User, text: string)
    ensures EditedUser(u, PhoneField, text).phone == Some("+" + DigitsOf(text))
  {
    var t := Strip(text);
    DigitsOfSpaces(text);
    var n := Validators.NormalisedPhone(t);
    assert Strip(n) == n by {
      StripNoSpaceEnds(n);
      if |DigitsOf(t)| > 0 {
        assert IsDigit(n[|n| - 1]);
      } else {
        assert n == "+";
      }
    }
  }

  /** Dropping surrounding whitespace never loses a digit. */
  lemma DigitsOfSpaces(text: string)
    ensures DigitsOf(Strip(text)) == DigitsOf(text)
  {
    LStripKeepsDigits(text);
    RStripKeepsDigits(LStrip(text));
  }

  lemma {:induction false} LStripKeepsDigits(s: string)
    ensures DigitsOf(LStrip(s)) == DigitsOf(s)
  {
    if |s| > 0 && IsSpace(s[0]) {
      LStripKeepsDigits(s[1..]);
    }
  }

  lemma {:induction false} RStripKeepsDigits(s: string)
    ensures DigitsOf(RStrip(s)) == DigitsOf(s)
    decreases |s|
  {
    if |s| > 0 && IsSpace(s[|s| - 1]) {
      var p := s[..|s| - 1];
      RStripKeepsDigits(p);
      DigitsOfAppend(p, [s[|s| - 1]]);
      assert s == p + [s[|s| - 1]];
    }
  }

  lemma {:induction false} DigitsOfAppend(a: string, b: string)
    ensures DigitsOf(a + b) == DigitsOf(a) + DigitsOf(b)
  {
    if |a| > 0 {
      DigitsOfAppend(a[1..], b);
      assert (a + b)[1..] == a[1..] + b;
    } else {
      assert a + b == b;
    }
  }

  const SavedText := "✅ Данные сохранены"

  /** The EditProfile FSM of one chat: `Some(p)` is the new_data state with
    * `param` set to `p`. */
  class Session {
    var editing: Option<Param>

    constructor ()
      ensures editing == None
    {
      editing := None;
    }

    /** quick_edit_*: the state is cleared and then waits for the chosen field. */
    method Choose(action: string) returns (chosen: bool)
      modifies this
      ensures chosen <==> ParamOfAction(action).Some?
      ensures chosen ==> editing == ParamOfAction(action)
      ensures !chosen ==> editing == old(editing)
    {
      var p := ParamOfAction(action);
      chosen := p.Some?;
      if chosen {
        editing := p;
      }
    }

    /** edit_profile: a non-empty text updates that one field (and resets the
      * status); an unknown user makes the update raise and nothing changes.
      * After an update the acknowledgement is sent to `chat`, and only when
      * it went through is the state cleared and the cabinet shown with the
      * card of the updated profile on the date `today`. */
    method Submit(store: TicketStore.Store, tg: int, text: Option<string>, today: Calendar.Date,
                  chat: int, accepts: Action -> bool)
      returns (saved: Option<User>, cabinet: Option<Profile.Card>, log: seq<Effect>)
      requires editing.Some?
      requires store.Valid() && Calendar.ValidDate(today)
      modifies this, store`users
      ensures store.Valid()
      ensures saved.Some? <==> text.Some? && |text.value| >= 1 && tg in old(store.users)
      ensures saved.Some? ==>
        && saved.value == EditedUser(old(store.users)[tg], old(editing).value, text.value)
        && store.users == old(store.users)[tg := saved.value]
        && |log| >= 1 && log[0] == Attempt(SendMessage(chat, SavedText), accepts)
        && log == [log[0]] + (if log[0].ok then [Attempt(ShowCabinet(chat), accepts)] else [])
        && editing == (if log[0].ok then None else old(editing))
        && (cabinet.Some? <==> log[0].ok)
      ensures saved.None? ==>
        log == [] && cabinet.None? && editing == old(editing) && store.users == old(store.users)
      ensures cabinet.Some? ==> Profile.IsCardOf(store, tg, today, cabinet.value)
    {
      saved, cabinet := None, None;
      log := [];
      if text.None? || |text.value| == 0 {
        return;
      }
      var p := editing.value;
      var v := EditValue(p, text.value);
      var r := store.UpdateUserProfile(tg, Some("new"), Only(p, NameField, v), Only(p, PhoneField, v),
                                       Only(p, StreetField, v), Only(p, HouseField, v), Only(p, ApartmentField, v));
      if r.Ok? {
        saved := Some(r.value);
        var ack := Attempt(SendMessage(chat, SavedText), accepts);
        log := [ack];
        if ack.ok {
          editing := None;
          var card := Profile.BuildProfile(store, tg, today);
          cabinet := Some(card);
          log := log + [Attempt(ShowCabinet(chat), accepts)];
        }
      }
    }
  }
}
