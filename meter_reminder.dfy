// The monthly reminder task: when the next reminder fires (the configured
// day of the month, clamped to the month's length, at the configured local
// time) and how one reminder round counts the messages it delivered.
module MeterReminder {
  import opened Wrappers
  import opened Calendar

  const MonthsRu: seq<string> := ["", "Январь", "Февраль", "Март", "Апрель", "Май", "Июнь",
    "Июль", "Август", "Сентябрь", "Октябрь", "Ноябрь", "Декабрь"]

  function Min(a: int, b: int): int { if a <= b then a else b }

  /** _dt_irkt: the local instant `day` (clamped to the month's last day)
    * of month `m`, at hour:minute:00; `None` where datetime() raises. */
  function DtIrkt(y: int, m: int, day: int, hour: int, minute: int): (r: Option<DateTime>)
    requires 1 <= m <= 12
    ensures r.Some? ==> ValidDateTime(r.value) && r.value.date.year == y && r.value.date.month == m
    ensures r.Some? ==> r.value.date.day == Min(day, DaysInMonth(y, m))
                        && r.value.hour == hour && r.value.minute == minute && r.value.second == 0
    ensures r.Some? <==> 1 <= y <= 9999 && day >= 1 && 0 <= hour < 24 && 0 <= minute < 60
  {
    var d := Min(day, DaysInMonth(y, m));
    if 1 <= y <= 9999 && d >= 1 && 0 <= hour < 24 && 0 <= minute < 60
    then Some(DateTime(Date(y, m, d), hour, minute, 0))
    else None
  }

  /** The month after (y, m). */
  function NextMonth(y: int, m: int): (int, int)
    requires 1 <= m <= 12
  {
    if m == 12 then (y + 1, 1) else (y, m + 1)
  }

  predicate MonthBefore(y1: int, m1: int, y2: int, m2: int)
  {
    y1 < y2 || (y1 == y2 && m1 < m2)
  }

  /** _next_run_dt: this month's slot if `now` is still before it, otherwise
    * next month's (December rolls over to January of the next year). */
  function NextRun(now: DateTime, day: int, hour: int, minute: int): Option<DateTime>
    requires ValidDateTime(now)
  {
    var y, m := now.date.year, now.date.month;
    var thisMonth := DtIrkt(y, m, day, hour, minute);
    if thisMonth.None? then None
    else if Before(now, thisMonth.value) then thisMonth
    else
      var (ny, nm) := NextMonth(y, m);
      DtIrkt(ny, nm, day, hour, minute)
  }

  /** A slot in an earlier month lies before every instant of a later month. */
  lemma EarlierMonthBefore(a: DateTime, b: DateTime)
    requires MonthBefore(a.date.year, a.date.month, b.date.year, b.date.month)
    ensures Before(a, b)
  {
  }

  /** The next run is strictly after `now`, falls in `now`'s month or the
    * next one, and no scheduled slot lies strictly between the two: it is
    * the earliest slot still to come. It is missing only when the
    * configuration is out of range or the calendar ends. */
  lemma {:induction false} NextRunIsEarliestLaterSlot(now: DateTime, day: int, hour: int, minute: int)
    requires ValidDateTime(now)
    ensures var r := NextRun(now, day, hour, minute);
      && (r.Some? ==> Before(now, r.value) && ValidDateTime(r.value))
      && (r.Some? ==> (r.value.date.year, r.value.date.month) == (now.date.year, now.date.month)
                      || (r.value.date.year, r.value.date.month) == NextMonth(now.date.year, now.date.month))
      && (r.Some? ==> forall y, m :: 1 <= m <= 12 && DtIrkt(y, m, day, hour, minute).Some?
                        && Before(now, DtIrkt(y, m, day, hour, minute).value)
                        ==> !Before(DtIrkt(y, m, day, hour, minute).value, r.value))
      && (r.None? <==> !(day >= 1 && 0 <= hour < 24 && 0 <= minute < 60)
                       || (now.date.year == 9999 && now.date.month == 12
                           && !Before(now, DtIrkt(9999, 12, day, hour, minute).value)))
  {
    var r := NextRun(now, day, hour, minute);
    var y0, m0 := now.date.year, now.date.month;
    if r.Some? {
      var ry, rm := r.value.date.year, r.value.date.month;
      forall y, m | 1 <= m <= 12 && DtIrkt(y, m, day, hour, minute).Some?
                    && Before(now, DtIrkt(y, m, day, hour, minute).value)
        ensures !Before(DtIrkt(y, m, day, hour, minute).value, r.value)
      {
        var s := DtIrkt(y, m, day, hour, minute).value;
        if MonthBefore(y, m, y0, m0) {
          EarlierMonthBefore(s, now);
          assert false;
        } else if (y, m) == (ry, rm) {
          assert s == r.value;
        } else if MonthBefore(y, m, ry, rm) {
          assert false;
        } else {
          EarlierMonthBefore(r.value, s);
        }
      }
    }
  }

  /** One row of list_users_missing_month_meters as the reminder task reads it. */
  datatype ReminderRow = ReminderRow(telegramId: int, coldExists: bool, month: int, year: int)

  /** month_name in _send_reminders: empty outside 1..12. */
  function MonthName(month: int): string
  {
    if 1 <= month <= 12 then MonthsRu[month] else ""
  }

  /** The users a reminder round writes to: every row without cold readings. */
  function Recipients(users: seq<ReminderRow>): seq<int>
  {
    if |users| == 0 then []
    else (if users[0].coldExists then [] else [users[0].telegramId]) + Recipients(users[1..])
  }

  /** How many of the recipients' messages are delivered, given which sends succeed. */
  function Delivered(users: seq<ReminderRow>, delivers: int -> bool): nat
  {
    if |users| == 0 then 0
    else (if !users[0].coldExists && delivers(users[0].telegramId) then 1 else 0)
         + Delivered(users[1..], delivers)
  }

  /** _send_reminders: one message per row without cold readings, each send
    * on its own (a failure is logged and the round goes on), counting only
    * the sends that succeed. `delivers` says which sends Telegram accepts.
    * Returns the recipients written to, in order, and the count. */
  method SendReminders(users: seq<ReminderRow>, delivers: int -> bool)
    returns (attempted: seq<int>, sentCount: nat)
    ensures attempted == Recipients(users)
    ensures sentCount == Delivered(users, delivers)
    ensures sentCount <= |attempted|
  {
    attempted, sentCount := [], 0;
    if |users| == 0 {
      return;
    }
    var i := 0;
    while i < |users|
      invariant 0 <= i <= |users|
      invariant attempted + Recipients(users[i..]) == Recipients(users)
      invariant sentCount + Delivered(users[i..], delivers) == Delivered(users, delivers)
      invariant sentCount <= |attempted|
    {
      assert users[i..][1..] == users[i + 1..];
      var user := users[i];
      if !user.coldExists {
        attempted := attempted + [user.telegramId];
        if delivers(user.telegramId) {
          sentCount := sentCount + 1;
        }
      }
      i := i + 1;
    }
    assert users[i..] == [];
  }

  /** Rows from list_users_missing_month_meters all carry cold_exists == False,
    * so every one of them is written to. */
  lemma {:induction false} AllMissingRowsReminded(users: seq<ReminderRow>)
    requires forall i :: 0 <= i < |users| ==> !users[i].coldExists
    ensures |Recipients(users)| == |users|
    ensures forall i :: 0 <= i < |users| ==> Recipients(users)[i] == users[i].telegramId
  {
    if |users| > 0 {
      AllMissingRowsReminded(users[1..]);
    }
  }
}
