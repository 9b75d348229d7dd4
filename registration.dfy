// The registration dialogue: name, phone, street, house and apartment in
// that order, each validated before the next question, and the completed
// profile saved with status "active".
module Registration {
  import opened Wrappers
  import opened Text
  import opened Models
  import opened Effects
  import TicketStore
  import Validators
  import Calendar
  import Profile

  /** RegStates. */
  datatype RegStep = AskName | AskPhone | AskStreet | AskHouse | AskApartment

  /** The question after each one; `None` after the apartment, when the
    * profile is saved. */
  function NextStep(s: RegStep): Option<RegStep>
  {
    match s
    case AskName => Some(AskPhone)
    case AskPhone => Some(AskStreet)
    case AskStreet => Some(AskHouse)
    case AskHouse => Some(AskApartment)
    case AskApartment => None
  }

  /** The position of a question in the dialogue. */
  function StepIndex(s: RegStep): nat
  {
    match s
    case AskName => 0
    case AskPhone => 1
    case AskStreet => 2
    case AskHouse => 3
    case AskApartment => 4
  }

  /** Every step but the last moves exactly one question on. */
  lemma NextStepAdvancesByOne(s: RegStep)
    ensures NextStep(s).Some? <==> StepIndex(s) < 4
    ensures NextStep(s).Some? ==> StepIndex(NextStep(s).value) == StepIndex(s) + 1
  {
  }

  /** A shared contact's number gets a '+' in front unless it has one. */
  function ContactPhone(p: string): (r: string)
    ensures StartsWith(r, "+")
    ensures r == p || r == "+" + p
  {
    if StartsWith(p, "+") then p else "+" + p
  }

  /** The prefix is added at most once, and only where it is missing. */
  lemma ContactPhoneIdempotent(p: string)
    ensures ContactPhone(ContactPhone(p)) == ContactPhone(p)
    ensures ContactPhone(p) == p <==> StartsWith(p, "+")
  {
    if !StartsWith(p, "+") {
      assert |ContactPhone(p)| == |p| + 1;
    }
  }

  /** The apartment passed to update_user_profile: None for "-" or "—". */
  function StoredApartment(raw: string): Option<string>
  {
    var t := Strip(raw);
    if t == "-" || t == "—" then None else Some(t)
  }

  /** An accepted apartment is stored as no apartment or as its digits. */
  lemma AcceptedApartmentStored(raw: string)
    requires Validators.IsValidApartment(raw)
    ensures StoredApartment(raw).None? <==> Strip(raw) in {"-", "—"}
    ensures StoredApartment(raw).Some? ==>
      AllDigits(StoredApartment(raw).value) && |StoredApartment(raw).value| <= 5
  {
  }

  /** Because None means "leave as it was" to update_user_profile, "-"
    * keeps whatever apartment the row already had. */
  lemma DashKeepsOldApartment(u: User, name: string, phone: string, street: string, house: string)
    ensures TicketStore.ApplyProfile(u, Some("active"), Some(name), Some(phone), Some(street), Some(house),
                                     StoredApartment("-")).apartment == u.apartment
  {
    assert Strip("-") == "-";
  }

  function Get(field: Option<string>): string
  {
    if field.Some? then field.value else ""
  }

  const PhoneQuestion := "📱 Отправьте ваш <b>номер телефона</b>:\n"
    + "• Нажмите кнопку ниже для автоматической отправки\n"
    + "• Или введите вручную в формате: <code>+79991234567</code>"
  const StreetQuestion := "🏙️ Введите <b>улицу</b>:\nНапример: <b>ул. Ленина</b>"
  const HouseQuestion := "🏠 Укажите <b>дом</b>:\nНапример: <i>12</i>"
  const ApartmentQuestion := "🚪 Укажите <b>квартиру</b> (если нет — «-»):"
  const SavedText := "✅ Данные сохранены."
  const PhoneWarning := "❗ Неверный формат телефона.\n"
    + "Введите 11 цифр, например: <code>+79991234567</code> или <code>89991234567</code>\n"
    + "Или нажмите кнопку ниже для автоматической отправки."
  const StreetWarning := "❗ Пожалуйста, введите корректное название улицы.\n"
    + "Например: <code>ул. Ленина</code>"
  const HouseWarning := "❗ Пожалуйста, укажите <b>дом</b> без слов «д.», «дом», «кв.».\n"
    + "Примеры: <code>12</code>, <code>12б</code>, <code>12-1</code>, <code>12/3</code>"
  const ApartmentWarning := "❗ Для <b>квартиры</b> введите только число (например, <code>33</code>) "
    + "или <code>-</code>, если квартиры нет."

  /** The step after sending the next question: the dialogue moves on only
    * when Telegram took the question, because a refused send raises before
    * the state is set. */
  function StepAfter(s: RegStep, question: Effect): Option<RegStep>
  {
    if question.ok then NextStep(s) else Some(s)
  }

  /** The registration FSM of one chat: `step == None` outside the dialogue;
    * the fields are the FSM data collected so far. Each answer handler
    * returns the messages it sent to the user's chat `chat`, with the
    * outcome `accepts` gives them. */
  class Dialogue {
    var step: Option<RegStep>
    var name: Option<string>
    var phone: Option<string>
    var street: Option<string>
    var house: Option<string>

    constructor ()
      ensures step == None && name == None && phone == None && street == None && house == None
    {
      step := None;
      name := None;
      phone := None;
      street := None;
      house := None;
    }

    /** start_registration: a cleared state waiting for the name; the state
      * is set before the question is sent. */
    method Start()
      modifies this
      ensures step == Some(AskName) && name == None && phone == None && street == None && house == None
    {
      step := Some(AskName);
      name := None;
      phone := None;
      street := None;
      house := None;
    }

    /** reg_name: only a non-empty text is handled; it is stored stripped
      * before the phone question is sent, and the dialogue moves on when
      * that question went through. */
    method OnName(text: Option<string>, chat: int, accepts: Action -> bool) returns (handled: bool, log: seq<Effect>)
      requires step == Some(AskName)
      modifies this
      ensures handled <==> text.Some? && |text.value| >= 1
      ensures handled ==>
        && log == [Attempt(SendMessage(chat, PhoneQuestion), accepts)]
        && name == Some(Strip(text.value)) && step == StepAfter(AskName, log[0])
      ensures !handled ==> log == [] && name == old(name) && step == old(step)
      ensures phone == old(phone) && street == old(street) && house == old(house)
    {
      handled := text.Some? && |text.value| >= 1;
      log := [];
      if handled {
        name := Some(Strip(text.value));
        var question := Attempt(SendMessage(chat, PhoneQuestion), accepts);
        log := [question];
        if question.ok {
          step := NextStep(AskName);
        }
      }
    }

    /** reg_phone_contact: a shared contact is stored, and the dialogue moves
      * on when the street question went through. */
    method OnContact(number: string, chat: int, accepts: Action -> bool) returns (log: seq<Effect>)
      requires step == Some(AskPhone)
      modifies this
      ensures log == [Attempt(SendMessage(chat, StreetQuestion), accepts)]
      ensures phone == Some(ContactPhone(number)) && step == StepAfter(AskPhone, log[0])
      ensures name == old(name) && street == old(street) && house == old(house)
    {
      phone := Some(ContactPhone(number));
      var question := Attempt(SendMessage(chat, StreetQuestion), accepts);
      log := [question];
      if question.ok {
        step := NextStep(AskPhone);
      }
    }

    /** reg_phone_text_valid / reg_phone_invalid: a valid typed phone is
      * stored as '+' and its digits and the street is asked; anything else
      * is warned about and changes nothing. */
    method OnPhoneText(text: Option<string>, chat: int, accepts: Action -> bool) returns (warned: bool, log: seq<Effect>)
      requires step == Some(AskPhone)
      modifies this
      ensures warned <==> !(text.Some? && Validators.IsValidPhone(text.value))
      ensures !warned ==>
        && log == [Attempt(SendMessage(chat, StreetQuestion), accepts)]
        && phone == Some(Validators.NormalisedPhone(Strip(text.value))) && step == StepAfter(AskPhone, log[0])
      ensures warned ==>
        log == [Attempt(SendMessage(chat, PhoneWarning), accepts)] && phone == old(phone) && step == old(step)
      ensures name == old(name) && street == old(street) && house == old(house)
    {
      warned := !(text.Some? && Validators.IsValidPhone(text.value));
      if warned {
        log := [Attempt(SendMessage(chat, PhoneWarning), accepts)];
        return;
      }
      phone := Some(Validators.NormalisedPhone(Strip(text.value)));
      var question := Attempt(SendMessage(chat, StreetQuestion), accepts);
      log := [question];
      if question.ok {
        step := NextStep(AskPhone);
      }
    }

    /** reg_street_valid / reg_street_invalid. */
    method OnStreet(text: Option<string>, fromBot: bool, chat: int, accepts: Action -> bool)
      returns (warned: bool, log: seq<Effect>)
      requires step == Some(AskStreet)
      modifies this
      ensures warned <==> !(!fromBot && text.Some? && Validators.IsValidStreet(text.value))
      ensures !warned ==>
        && log == [Attempt(SendMessage(chat, HouseQuestion), accepts)]
        && street == Some(Strip(text.value)) && step == StepAfter(AskStreet, log[0])
      ensures warned ==>
        log == [Attempt(SendMessage(chat, StreetWarning), accepts)] && street == old(street) && step == old(step)
      ensures name == old(name) && phone == old(phone) && house == old(house)
    {
      warned := !(!fromBot && text.Some? && Validators.IsValidStreet(text.value));
      if warned {
        log := [Attempt(SendMessage(chat, StreetWarning), accepts)];
        return;
      }
      street := Some(Strip(text.value));
      var question := Attempt(SendMessage(chat, HouseQuestion), accepts);
      log := [question];
      if question.ok {
        step := NextStep(AskStreet);
      }
    }

    /** reg_house_valid / reg_house_invalid. */
    method OnHouse(text: Option<string>, fromBot: bool, chat: int, accepts: Action -> bool)
      returns (warned: bool, log: seq<Effect>)
      requires step == Some(AskHouse)
      modifies this
      ensures warned <==> !(!fromBot && text.Some? && Validators.IsValidHouse(text.value))
      ensures !warned ==>
        && log == [Attempt(SendMessage(chat, ApartmentQuestion), accepts)]
        && house == Some(Strip(text.value)) && step == StepAfter(AskHouse, log[0])
      ensures warned ==>
        log == [Attempt(SendMessage(chat, HouseWarning), accepts)] && house == old(house) && step == old(step)
      ensures name == old(name) && phone == old(phone) && street == old(street)
    {
      warned := !(!fromBot && text.Some? && Validators.IsValidHouse(text.value));
      if warned {
        log := [Attempt(SendMessage(chat, HouseWarning), accepts)];
        return;
      }
      house := Some(Strip(text.value));
      var question := Attempt(SendMessage(chat, ApartmentQuestion), accepts);
      log := [question];
      if question.ok {
        step := NextStep(AskHouse);
      }
    }

    /** reg_apartment_valid / reg_apartment_invalid: a valid apartment saves
      * the profile with status "active"; an unknown user makes
      * update_user_profile raise, which leaves everything as it was. After a
      * save the confirmation is sent, and only when it went through is the
      * dialogue ended and its data dropped, and then the cabinet shown with
      * the card of the saved profile on the date `today`. `log` holds the
      * messages sent up to that point. */
    method OnApartment(store: TicketStore.Store, tg: int, text: Option<string>, fromBot: bool,
                       today: Calendar.Date, chat: int, accepts: Action -> bool)
      returns (warned: bool, saved: Option<User>, cabinet: Option<Profile.Card>, log: seq<Effect>)
      requires step == Some(AskApartment)
      requires store.Valid() && Calendar.ValidDate(today)
      modifies this, store`users
      ensures store.Valid()
      ensures warned <==> !(!fromBot && text.Some? && Validators.IsValidApartment(text.value))
      ensures warned ==> saved == None && log == [Attempt(SendMessage(chat, ApartmentWarning), accepts)]
      ensures !warned ==> (saved.Some? <==> tg in old(store.users))
      ensures saved.Some? ==>
        && saved.value == TicketStore.ApplyProfile(old(store.users)[tg], Some("active"),
             Some(Strip(Get(old(name)))), Some(Strip(Get(old(phone)))), Some(Strip(Get(old(street)))),
             Some(Strip(Get(old(house)))), StoredApartment(text.value))
        && store.users == old(store.users)[tg := saved.value]
        && |log| >= 1 && log[0] == Attempt(SendMessage(chat, SavedText), accepts)
        && log == [log[0]] + (if log[0].ok then [Attempt(ShowCabinet(chat), accepts)] else [])
        && (cabinet.Some? <==> log[0].ok)
        && (log[0].ok ==> step == None && name == None && phone == None && street == None && house == None)
        && (!log[0].ok ==> step == old(step) && name == old(name) && phone == old(phone)
                           && street == old(street) && house == old(house))
      ensures saved.None? ==>
        && step == old(step) && name == old(name) && phone == old(phone)
        && street == old(street) && house == old(house) && store.users == old(store.users)
      ensures !warned && saved.None? ==> log == []
      ensures saved.None? ==> cabinet.None?
      ensures cabinet.Some? ==> Profile.IsCardOf(store, tg, today, cabinet.value)
    {
      warned := !(!fromBot && text.Some? && Validators.IsValidApartment(text.value));
      saved, cabinet := None, None;
      log := [];
      if warned {
        log := [Attempt(SendMessage(chat, ApartmentWarning), accepts)];
        return;
      }
      var r := store.UpdateUserProfile(tg, Some("active"), Some(Strip(Get(name))), Some(Strip(Get(phone))),
                                       Some(Strip(Get(street))), Some(Strip(Get(house))), StoredApartment(text.value));
      if r.Ok? {
        saved := Some(r.value);
        var confirmation := Attempt(SendMessage(chat, SavedText), accepts);
        log := [confirmation];
        EndIfSent(confirmation);
        if confirmation.ok {
          var card := Profile.BuildProfile(store, tg, today);
          cabinet := Some(card);
          log := log + [Attempt(ShowCabinet(chat), accepts)];
        }
      }
    }

    /** state.clear() after the confirmation of a save: the dialogue and its
      * data go only when the confirmation went through. */
    method EndIfSent(confirmation: Effect)
      modifies this
      ensures confirmation.ok ==> step == None && name == None && phone == None && street == None && house == None
      ensures !confirmation.ok ==> step == old(step) && name == old(name) && phone == old(phone)
                                   && street == old(street) && house == old(house)
    {
      if confirmation.ok {
        step, name, phone, street, house := None, None, None, None, None;
      }
    }
  }
}
