// Hot-water meter submission: choosing a meter (at most three per month),
// typing a reading, previewing and confirming it, and the month history
// grouped by meter.
module Meter {
  import opened Wrappers
  import opened Text
  import opened Models
  import opened Calendar
  import opened Effects
  import TicketStore
  import UserKeyboards

  type HistoryItem = TicketStore.HistoryItem

  // ---------- history grouping ----------

  /** The items of one meter, in the order they came. */
  function GroupOf(items: seq<HistoryItem>, n: int): (g: seq<HistoryItem>)
    ensures forall x :: x in g <==> x in items && x.meterNumber == n
  {
    if |items| == 0 then []
    else
      var last := items[|items| - 1];
      var front := items[..|items| - 1];
      assert forall x :: x in items <==> x in front || x == last;
      GroupOf(front, n) + (if last.meterNumber == n then [last] else [])
  }

  /** Grouping keeps the order: the group of a concatenation is the
    * concatenation of the groups. */
  lemma {:induction false} GroupOfAppend(a: seq<HistoryItem>, b: seq<HistoryItem>, n: int)
    ensures GroupOf(a + b, n) == GroupOf(a, n) + GroupOf(b, n)
    decreases |b|
  {
    if |b| == 0 {
      assert a + b == a;
    } else {
      var b' := b[..|b| - 1];
      GroupOfAppend(a, b', n);
      assert (a + b)[..|a + b| - 1] == a + b';
    }
  }

  /** The meter numbers that occur. */
  function Numbers(items: seq<HistoryItem>): set<int>
  {
    set x | x in items :: x.meterNumber
  }

  predicate StrictlyAscending(s: seq<int>)
  {
    forall i, j :: 0 <= i < j < |s| ==> s[i] < s[j]
  }

  /** Adds `k` to an ascending list of distinct numbers. */
  function InsertSorted(s: seq<int>, k: int): (r: seq<int>)
    requires StrictlyAscending(s)
    ensures StrictlyAscending(r)
    ensures forall x :: x in r <==> x in s || x == k
  {
    if |s| == 0 then [k]
    else if k < s[0] then [k] + s
    else if k == s[0] then s
    else
      var rest := InsertSorted(s[1..], k);
      assert forall x :: x in s <==> x == s[0] || x in s[1..];
      assert forall x :: x in s[1..] ==> s[0] < x;
      var r := [s[0]] + rest;
      assert forall j :: 1 <= j < |r| ==> r[j] == rest[j - 1] && r[j] in rest;
      r
  }

  /** `sorted(meters.keys())`: every meter number once, ascending. */
  function SortedNumbers(items: seq<HistoryItem>): (keys: seq<int>)
    ensures StrictlyAscending(keys)
    ensures forall k :: k in keys <==> k in Numbers(items)
  {
    if |items| == 0 then []
    else
      var front := items[..|items| - 1];
      var last := items[|items| - 1];
      var keys := InsertSorted(SortedNumbers(front), last.meterNumber);
      assert forall k :: k in Numbers(items) <==> k in Numbers(front) || k == last.meterNumber by {
        forall k | k in Numbers(items) ensures k in Numbers(front) || k == last.meterNumber {
          var x :| x in items && x.meterNumber == k;
          if x != last {
            assert x in front;
          }
        }
        forall k | k in Numbers(front) ensures k in Numbers(items) {
          var x :| x in front && x.meterNumber == k;
          assert x in items;
        }
      }
      keys
  }

  /** The history as shown: one (meter, its readings) block per meter, meters
    * ascending. */
  function Listing(items: seq<HistoryItem>): (l: seq<(int, seq<HistoryItem>)>)
    ensures |l| == |SortedNumbers(items)|
    ensures forall i :: 0 <= i < |l| ==> l[i] == (SortedNumbers(items)[i], GroupOf(items, SortedNumbers(items)[i]))
  {
    var keys := SortedNumbers(items);
    seq(|keys|, i requires 0 <= i < |keys| => (keys[i], GroupOf(items, keys[i])))
  }

  /** The listing shows every reading exactly under its own meter, each meter
    * once and in ascending order, and only readings of that meter under it. */
  lemma ListingIsAPartition(items: seq<HistoryItem>)
    ensures forall i, j :: 0 <= i < j < |Listing(items)| ==> Listing(items)[i].0 < Listing(items)[j].0
    ensures forall i, x :: 0 <= i < |Listing(items)| && x in Listing(items)[i].1 ==>
              x in items && x.meterNumber == Listing(items)[i].0
    ensures forall x :: x in items ==>
              exists i :: 0 <= i < |Listing(items)| && Listing(items)[i].0 == x.meterNumber && x in Listing(items)[i].1
  {
    var keys := SortedNumbers(items);
    var l := Listing(items);
    forall x | x in items
      ensures exists i :: 0 <= i < |l| && l[i].0 == x.meterNumber && x in l[i].1
    {
      assert x.meterNumber in Numbers(items);
      var i :| 0 <= i < |keys| && keys[i] == x.meterNumber;
      assert l[i].0 == x.meterNumber && x in l[i].1;
    }
  }

  /** One more item lands at the end of its own meter's group. */
  lemma GroupStep(items: seq<HistoryItem>, i: nat, n: int)
    requires i < |items|
    ensures GroupOf(items[..i + 1], n) == GroupOf(items[..i], n) + (if items[i].meterNumber == n then [items[i]] else [])
  {
    assert items[..i + 1][..i] == items[..i];
  }

  lemma NumbersStep(items: seq<HistoryItem>, i: nat)
    requires i < |items|
    ensures Numbers(items[..i + 1]) == Numbers(items[..i]) + {items[i].meterNumber}
  {
    var a, b := items[..i + 1], items[..i];
    assert forall x :: x in a <==> x in b || x == items[i];
    forall k | k in Numbers(a) ensures k in Numbers(b) + {items[i].meterNumber} {
      var x :| x in a && x.meterNumber == k;
    }
    forall k | k in Numbers(b) + {items[i].meterNumber} ensures k in Numbers(a) {
      if k in Numbers(b) {
        var x :| x in b && x.meterNumber == k;
        assert x in a;
      } else {
        assert items[i] in a;
      }
    }
  }

  /** A group with no member is empty. */
  lemma NoGroupWithoutItsNumber(items: seq<HistoryItem>, n: int)
    requires n !in Numbers(items)
    ensures GroupOf(items, n) == []
  {
  }

  /** Filing item `i` under its number keeps the dictionary equal to the
    * grouping of the first i + 1 items. */
  lemma GroupingStep(history: seq<HistoryItem>, i: nat, meters: map<int, seq<HistoryItem>>)
    requires i < |history|
    requires meters.Keys == Numbers(history[..i])
    requires forall n :: n in meters ==> meters[n] == GroupOf(history[..i], n)
    ensures var k := history[i].meterNumber;
      var m' := meters[k := (if k in meters then meters[k] else []) + [history[i]]];
      && m'.Keys == Numbers(history[..i + 1])
      && forall n :: n in m' ==> m'[n] == GroupOf(history[..i + 1], n)
  {
    var k := history[i].meterNumber;
    var m' := meters[k := (if k in meters then meters[k] else []) + [history[i]]];
    NumbersStep(history, i);
    if k !in meters {
      NoGroupWithoutItsNumber(history[..i], k);
    }
    forall n | n in m' ensures m'[n] == GroupOf(history[..i + 1], n) {
      GroupStep(history, i, n);
    }
  }

  /** The `meters` dictionary of show_month_history (and `by_meter` of the
    * profile): one entry per meter number, holding its items in order. */
  method GroupByMeter(history: seq<HistoryItem>) returns (meters: map<int, seq<HistoryItem>>)
    ensures meters.Keys == Numbers(history)
    ensures forall n :: n in meters ==> meters[n] == GroupOf(history, n)
  {
    meters := map[];
    var i := 0;
    while i < |history|
      invariant 0 <= i <= |history|
      invariant meters.Keys == Numbers(history[..i])
      invariant forall n :: n in meters ==> meters[n] == GroupOf(history[..i], n)
    {
      var key := history[i].meterNumber;
      GroupingStep(history, i, meters);
      var group := if key in meters then meters[key] else [];
      meters := meters[key := group + [history[i]]];
      i := i + 1;
    }
    assert history[..i] == history;
  }

  /** Every sorted key has its group in the dictionary, so the listing is
    * the dictionary read in that order. */
  lemma SortedKeysAreGrouped(history: seq<HistoryItem>, meters: map<int, seq<HistoryItem>>, keys: seq<int>)
    requires meters.Keys == Numbers(history)
    requires forall n :: n in meters ==> meters[n] == GroupOf(history, n)
    requires keys == SortedNumbers(history)
    ensures forall i :: 0 <= i < |keys| ==> keys[i] in meters
    ensures |Listing(history)| == |keys|
    ensures forall i :: 0 <= i < |keys| ==> Listing(history)[i] == (keys[i], meters[keys[i]])
  {
    forall i | 0 <= i < |keys| ensures keys[i] in meters && meters[keys[i]] == GroupOf(history, keys[i]) {
      assert keys[i] in keys;
    }
  }

  /** show_month_history's blocks: the dictionary read in ascending key order. */
  method MonthHistory(history: seq<HistoryItem>) returns (blocks: seq<(int, seq<HistoryItem>)>)
    ensures blocks == Listing(history)
  {
    var meters := GroupByMeter(history);
    var keys := SortedNumbers(history);
    SortedKeysAreGrouped(history, meters, keys);
    blocks := ReadInOrder(meters, keys);
    ListingFromBlocks(history, keys, meters, blocks);
  }

  /** The loop over sorted(meters.keys()): one block per key, in key order. */
  method ReadInOrder(meters: map<int, seq<HistoryItem>>, keys: seq<int>) returns (blocks: seq<(int, seq<HistoryItem>)>)
    requires forall i :: 0 <= i < |keys| ==> keys[i] in meters
    ensures |blocks| == |keys|
    ensures forall j :: 0 <= j < |keys| ==> blocks[j] == (keys[j], meters[keys[j]])
  {
    blocks := [];
    var i := 0;
    while i < |keys|
      invariant 0 <= i <= |keys|
      invariant |blocks| == i
      invariant forall j :: 0 <= j < i ==> blocks[j] == (keys[j], meters[keys[j]])
    {
      blocks := blocks + [(keys[i], meters[keys[i]])];
      i := i + 1;
    }
  }

  lemma ListingFromBlocks(history: seq<HistoryItem>, keys: seq<int>, meters: map<int, seq<HistoryItem>>,
                          blocks: seq<(int, seq<HistoryItem>)>)
    requires forall i :: 0 <= i < |keys| ==> keys[i] in meters
    requires |Listing(history)| == |keys| == |blocks|
    requires forall i :: 0 <= i < |keys| ==> Listing(history)[i] == (keys[i], meters[keys[i]])
    requires forall j :: 0 <= j < |keys| ==> blocks[j] == (keys[j], meters[keys[j]])
    ensures blocks == Listing(history)
  {
  }

  // ---------- choosing a meter ----------

  /** select_meter_number: the number menu opens only while fewer than
    * MAX_METERS distinct meters are in for the month. */
  function NumberMenuOpens(users: map<int, User>, rows: seq<MeterReading>, tg: int, month: int, year: int): (opens: bool)
  {
    TicketStore.MetersCountForMonth(users, rows, tg, month, year) < UserKeyboards.MaxMeters
  }

  /** Three different meters submitted for the month close the menu, and a
    * user with no rows yet can always choose. */
  lemma ThreeMetersCloseTheMenu(users: map<int, User>, rows: seq<MeterReading>, tg: int, month: int, year: int)
    ensures tg in users && {1, 2, 3} <= TicketStore.SubmittedNumbers(rows, tg, month, year) ==>
              !NumberMenuOpens(users, rows, tg, month, year)
    ensures rows == [] ==> NumberMenuOpens(users, rows, tg, month, year)
  {
    var s := TicketStore.SubmittedNumbers(rows, tg, month, year);
    if tg in users && {1, 2, 3} <= s {
      var t: set<int> := {1, 2, 3};
      assert s == t + (s - t);
      assert |t| == 3;
    }
  }

  /** The number menu opens exactly when the main menu shows its submit button. */
  lemma MenuAndButtonAgree(users: map<int, User>, rows: seq<MeterReading>, tg: int, month: int, year: int)
    ensures var c := TicketStore.MetersCountForMonth(users, rows, tg, month, year);
            NumberMenuOpens(users, rows, tg, month, year) <==> |UserKeyboards.MeterMainMenu(month, year, c)| == 3
  {
  }

  /** The states of MeterStates with an idle state for "no state". */
  datatype Step = Idle | WaitingReading | Preview

  // ---------- the reading ----------

  /** What `float(text.replace(',', '.'))` gives when it does not raise. */
  datatype FloatValue = Finite(x: real) | NaN | Infinity(negative: bool)

  /** `v < bound` in Python: false whenever nan is involved. */
  predicate FloatLess(v: FloatValue, bound: real)
  {
    match v
    case Finite(x) => x < bound
    case NaN => false
    case Infinity(negative) => negative
  }

  /** `v > bound` in Python. */
  predicate FloatGreater(v: FloatValue, bound: real)
  {
    match v
    case Finite(x) => x > bound
    case NaN => false
    case Infinity(negative) => !negative
  }

  const MaxReading: real := 9999999.0

  /** The range test as written: `reading_value < 0 or reading_value > 9999999`. */
  predicate OutOfRangeAsWritten(v: FloatValue)
  {
    FloatLess(v, 0.0) || FloatGreater(v, MaxReading)
  }

  /** A reading the prompt asks for: a number from 0 to 9999999. */
  predicate AcceptableReading(v: FloatValue)
  {
    v.Finite? && 0.0 <= v.x <= MaxReading
  }

  /** The test as written lets "nan" through, although it is no number from 0
    * to 9999999. */
  lemma NaNPassesRangeCheck()
    ensures !OutOfRangeAsWritten(NaN)
    ensures !AcceptableReading(NaN)
  {
  }

  /** On every value but nan the corrected test is the written one, so the
    * correction only closes that gap; infinities were already refused. */
  lemma CorrectedRangeAgreesOffNaN(v: FloatValue)
    ensures v != NaN ==> (AcceptableReading(v) <==> !OutOfRangeAsWritten(v))
    ensures v.Infinity? ==> OutOfRangeAsWritten(v)
  {
  }

  /** Python's f"{value}" of a nullable column: None prints as "None". */
  function PyStr(s: Option<string>): string
  {
    if s.Some? then s.value else "None"
  }

  /** The preview and topic address: "{street}, д. {house}", plus
    * ", кв. {apartment}" when the apartment is truthy. */
  function ReadingAddress(u: User): (a: string)
    ensures StartsWith(a, PyStr(u.street) + ", д. " + PyStr(u.house))
  {
    var base := PyStr(u.street) + ", д. " + PyStr(u.house);
    if u.apartment.Some? && u.apartment.value != "" then base + ", кв. " + u.apartment.value else base
  }

  /** The reading date: today within the current month, else the chosen
    * month's last day. */
  function ReadingDate(today: Date, month: int, year: int): Date
    requires 1 <= month <= 12
  {
    if today.year == year && today.month == month then today
    else Date(year, month, DaysInMonth(year, month))
  }

  /** The date is a real date of the chosen month, and outside the current
    * month it is no earlier than any day of that month. */
  lemma ReadingDateInChosenMonth(today: Date, month: int, year: int)
    requires 1 <= month <= 12 && 1 <= year <= 9999 && ValidDate(today)
    ensures var d := ReadingDate(today, month, year);
      && ValidDate(d) && d.month == month && d.year == year
      && (today.year == year && today.month == month ==> d == today)
      && (!(today.year == year && today.month == month) ==>
            forall e :: ValidDate(e) && e.month == month && e.year == year ==> DateAtMost(e, d))
  {
  }

  const OutOfRangeText := "❌ Неверный формат!\n\nПоказания должны быть числом от 0 до 9999999.\nПримеры: 123456, 123456.45\n\nПопробуйте ещё раз:"
  const NotANumberText := "❌ Неверный формат!\n\nПоказания должны быть числом.\nПримеры: 123456, 123456.45\n\nПопробуйте ещё раз:"
  const NoProfileText := "❌ Ошибка: данные пользователя не найдены.\nПожалуйста, сначала заполните профиль."
  const SaveErrorText := "❌ Ошибка при сохранении показаний.\nПопробуйте позже."
  const AllSubmittedText := "🎉 Все показания переданы!\n\nСпасибо!"

  /** `remaining = MAX_METERS - submitted_count` and the closing line. */
  function Remaining(submitted: nat): int
  {
    UserKeyboards.MaxMeters - submitted
  }

  function ClosingLine(remaining: int): string
  {
    if remaining > 0 then "💡 Можете передать ещё " + IntToString(remaining) + " счётчик(а/ов)\n\nСпасибо!"
    else AllSubmittedText
  }

  /** "All submitted" is said exactly when three or more meters are in. */
  lemma AllSubmittedExactlyAtThree(submitted: nat)
    ensures ClosingLine(Remaining(submitted)) == AllSubmittedText <==> submitted >= UserKeyboards.MaxMeters
  {
    if Remaining(submitted) > 0 {
      assert ClosingLine(Remaining(submitted))[0] == '💡';
      assert AllSubmittedText[0] == '🎉';
    }
  }

  const AcceptedHeader := "✅ <b>Показания успешно приняты!</b>"

  /** The confirmation sent to the user. */
  function ConfirmText(meterNumber: int, reading: string, d: Date, remaining: int): (t: string)
    ensures StartsWith(t, AcceptedHeader)
  {
    var t := AcceptedHeader + ("\n\n🔥 Счётчик ГВС №" + IntToString(meterNumber) + "\nПоказания: <b>" + reading
                                + "</b> м³\nДата: " + DateText(d) + "\n\n" + ClosingLine(remaining));
    assert t[..|AcceptedHeader|] == AcceptedHeader;
    t
  }

  /** dd.mm.yyyy. */
  function DateText(d: Date): string
  {
    var y := if d.year < 0 then 0 else d.year;
    ZeroPad2(if d.day < 0 then 0 else d.day) + "." + ZeroPad2(if d.month < 0 then 0 else d.month) + "." + NatToString(y)
  }

  /** The topic notice of send_to_group_topic. */
  function TopicNotice(u: User, meterNumber: int, reading: string, d: Date): string
  {
    "📊 <b>Новые показания ГВС</b>\n\n👤 <b>Пользователь:</b> " + u.name + "\n🏠 <b>Адрес:</b> " + ReadingAddress(u)
    + "\n🔥 <b>Счётчик:</b> №" + IntToString(meterNumber) + "\n📅 <b>Дата:</b> " + DateText(d)
    + "\n📊 <b>Показания:</b> " + reading + " м³"
  }

  /** send_to_group_topic: no topic configured (0) means no message. */
  function TopicPost(meterChat: int, topicId: int, u: User, meterNumber: int, reading: string, d: Date,
                     accepts: Action -> bool): (log: seq<Effect>)
    ensures topicId == 0 <==> log == []
    ensures topicId != 0 ==> Actions(log) == [ReplyInChat(meterChat, Some(topicId), TopicNotice(u, meterNumber, reading, d))]
  {
    if topicId == 0 then [] else [Attempt(ReplyInChat(meterChat, Some(topicId), TopicNotice(u, meterNumber, reading, d)), accepts)]
  }

  const SavedToast := "✅ Данные сохранены!"

  /** A reply in the chat and then the callback answer; a refused reply
    * raises, so the answer follows only a delivered one. */
  function Answered(reply: Effect, toast: string, accepts: Action -> bool): (log: seq<Effect>)
    ensures 1 <= |log| <= 2 && log[0] == reply
    ensures |log| == 2 <==> reply.ok
    ensures |log| == 2 ==> log[1] == Attempt(AnswerCallback(toast, false), accepts)
  {
    [reply] + (if reply.ok then [Attempt(AnswerCallback(toast, false), accepts)] else [])
  }

  /** What process_reading_input did with a message. */
  datatype InputOutcome = Rejected | NoProfile | Previewed

  /** The MeterStates FSM of one chat with its data. */
  class MeterSession {
    var step: Step
    var meterNumber: int
    var month: int
    var year: int
    var reading: string
    var user: Option<User>

    constructor ()
      ensures step == Idle && user == None
    {
      step := Idle;
      meterNumber, month, year := 0, 0, 0;
      reading := "";
      user := None;
    }

    /** start_meter_input: a meter already in this month's history is refused
      * and nothing changes; otherwise the input for it begins. */
    method StartInput(history: seq<HistoryItem>, number: int, m: int, y: int) returns (refused: bool)
      modifies this
      ensures refused <==> number in Numbers(history)
      ensures refused ==> step == old(step) && meterNumber == old(meterNumber) && month == old(month) && year == old(year)
      ensures !refused ==> step == WaitingReading && meterNumber == number && month == m && year == y
      ensures reading == old(reading) && user == old(user)
    {
      refused := false;
      var i := 0;
      while i < |history|
        invariant 0 <= i <= |history|
        invariant number !in Numbers(history[..i])
        modifies {}
      {
        NumbersStep(history, i);
        if history[i].meterNumber == number {
          refused := true;
          assert history[i] in history;
          assert number in Numbers(history);
          return;
        }
        i := i + 1;
      }
      assert history[..i] == history;
      step, meterNumber, month, year := WaitingReading, number, m, y;
    }

    /** process_reading_input with `parsed` the result of float() (None when it
      * raises) and `shown` its two-decimal rendering. A reading that does not
      * parse or fails the range test as written keeps the state; an unknown
      * user clears it; otherwise the preview is shown. Because the test as
      * written lets nan through, a previewed reading is either a number from
      * 0 to 9999999 or nan. A rejected reading draws the warning for its
      * case in `chat`; the unknown user is told so before the state is
      * cleared, so a refused message leaves the state as it was. The preview
      * itself is sent after the state is written and is not logged. */
    method InputReading(users: map<int, User>, tg: int, parsed: Option<FloatValue>, shown: string,
                        chat: int, accepts: Action -> bool)
      returns (outcome: InputOutcome, log: seq<Effect>)
      requires step == WaitingReading
      modifies this
      ensures outcome == Rejected <==> !(parsed.Some? && !OutOfRangeAsWritten(parsed.value))
      ensures outcome == NoProfile <==> parsed.Some? && !OutOfRangeAsWritten(parsed.value) && tg !in users
      ensures outcome != Rejected ==> AcceptableReading(parsed.value) || parsed.value == NaN
      ensures outcome == Rejected ==>
        && step == WaitingReading && reading == old(reading) && user == old(user)
        && log == [Attempt(SendMessage(chat, if parsed.None? then NotANumberText else OutOfRangeText), accepts)]
      ensures outcome == NoProfile ==>
        && log == [Attempt(SendMessage(chat, NoProfileText), accepts)]
        && (log[0].ok ==> step == Idle && user == None)
        && (!log[0].ok ==> step == old(step) && user == old(user) && reading == old(reading)
                           && meterNumber == old(meterNumber) && month == old(month) && year == old(year))
      ensures outcome == Previewed ==> step == Preview && reading == shown && user == Some(users[tg]) && log == []
      ensures outcome != NoProfile ==> meterNumber == old(meterNumber) && month == old(month) && year == old(year)
    {
      log := [];
      if !(parsed.Some? && !OutOfRangeAsWritten(parsed.value)) {
        log := [Attempt(SendMessage(chat, if parsed.None? then NotANumberText else OutOfRangeText), accepts)];
        return Rejected, log;
      }
      CorrectedRangeAgreesOffNaN(parsed.value);
      if tg !in users {
        log := [Attempt(SendMessage(chat, NoProfileText), accepts)];
        if log[0].ok {
          step, user := Idle, None;
        }
        return NoProfile, log;
      }
      reading, user, step := shown, Some(users[tg]), Preview;
      outcome := Previewed;
    }

    /** edit_reading: back to typing the reading. */
    method EditReading()
      requires step == Preview
      modifies this`step
      ensures step == WaitingReading
    {
      step := WaitingReading;
    }

    /** cancel_input: the state is cleared. */
    method Cancel()
      modifies this`step, this`user
      ensures step == Idle && user == None
    {
      step, user := Idle, None;
    }

    /** confirm_reading: the reading is saved as a new "hot" row; a failed
    * save shows an error and posts nothing; otherwise the topic gets the
    * notice (when one is configured) and the user the count of meters still
    * open. The state ends cleared either way (clear_chat_history clears it
    * before the reply), and the callback is answered only after a delivered
    * reply. */
    method Confirm(store: TicketStore.Store, tg: int, userChat: int, today: Date, now: DateTime,
                   meterChat: int, topicId: int, accepts: Action -> bool)
      returns (saved: bool, log: seq<Effect>)
      requires step == Preview && user.Some?
      requires 1 <= month <= 12 && 1 <= year <= 9999 && ValidDate(today) && store.Valid()
      modifies this`step, this`user, store`readings, store`nextReadingId
      ensures store.Valid()
      ensures saved <==> tg in store.users
      ensures var d := ReadingDate(today, old(month), old(year));
        && (saved ==> store.readings == old(store.readings)
                        + [MeterReading(old(store.nextReadingId), tg, "hot", Some(old(meterNumber)), old(reading), d, now)])
        && (!saved ==> store.readings == old(store.readings)
                       && log == Answered(Attempt(SendMessage(userChat, SaveErrorText), accepts), "", accepts))
      ensures saved ==>
        var d := ReadingDate(today, old(month), old(year));
        var c := TicketStore.MetersCountForMonth(store.users, store.readings, tg, old(month), old(year));
        && 1 <= c
        && log == TopicPost(meterChat, topicId, old(user).value, old(meterNumber), old(reading), d, accepts)
                  + Answered(Attempt(SendMessage(userChat, ConfirmText(old(meterNumber), old(reading), d, Remaining(c))), accepts),
                             SavedToast, accepts)
        && (Remaining(c) <= 0 <==> c >= UserKeyboards.MaxMeters)
        && Remaining(c) <= UserKeyboards.MaxMeters - 1
      ensures step == Idle && user == None
    {
      var d := ReadingDate(today, month, year);
      ReadingDateInChosenMonth(today, month, year);
      var r := MeterReading(store.nextReadingId, tg, "hot", Some(meterNumber), reading, d, now);
      ghost var before := store.readings;
      saved := store.SaveMeterReading(tg, "hot", reading, d, meterNumber, now);
      if !saved {
        log := Answered(Attempt(SendMessage(userChat, SaveErrorText), accepts), "", accepts);
        step, user := Idle, None;
        return;
      }
      TicketStore.SavedReadingCounted(store.users, before, r, meterNumber);
      log := TopicPost(meterChat, topicId, user.value, meterNumber, reading, d, accepts);
      var c := TicketStore.MetersCountForMonth(store.users, store.readings, tg, month, year);
      var closing := Attempt(SendMessage(userChat, ConfirmText(meterNumber, reading, d, Remaining(c))), accepts);
      log := log + Answered(closing, SavedToast, accepts);
      step, user := Idle, None;
    }
  }
}
