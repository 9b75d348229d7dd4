// The admin's ticket export: the custom date range typed as
// "DD.MM.YY-DD.MM.YY", the export file's name, the CSV table with its
// shortened work column and the XLSX table with its column widths.
module ExportTickets {
  import opened Wrappers
  import opened Text
  import opened Calendar
  import opened ExportQueries
  import MeterReminder
  import opened Models

  // ---------- datetime.strptime(part, "%d.%m.%y") ----------

  /** Exactly two ASCII digits, and their value. */
  function TwoDigits(s: string): (v: Option<nat>)
    ensures v.Some? ==> v.value < 100
  {
    if |s| == 2 && IsDigit(s[0]) && IsDigit(s[1]) then Some(DigitValue(s[0]) * 10 + DigitValue(s[1])) else None
  }

  /** `%d`: 3[01]|[12]\d|0[1-9]|[1-9]| [1-9]. */
  function DayField(s: string): (d: Option<nat>)
    ensures d.Some? ==> 1 <= d.value <= 31
  {
    if |s| == 1 && '1' <= s[0] <= '9' then Some(DigitValue(s[0]))
    else if |s| == 2 && s[0] == ' ' && '1' <= s[1] <= '9' then Some(DigitValue(s[1]))
    else match TwoDigits(s)
      case Some(v) => if 1 <= v <= 31 then Some(v) else None
      case None => None
  }

  /** `%m`: 1[0-2]|0[1-9]|[1-9]. */
  function MonthField(s: string): (m: Option<nat>)
    ensures m.Some? ==> 1 <= m.value <= 12
  {
    if |s| == 1 && '1' <= s[0] <= '9' then Some(DigitValue(s[0]))
    else match TwoDigits(s)
      case Some(v) => if 1 <= v <= 12 then Some(v) else None
      case None => None
  }

  /** `%y`: two digits; 00..68 are 2000..2068 and 69..99 are 1969..1999. */
  function YearField(s: string): (y: Option<int>)
    ensures y.Some? ==> 1969 <= y.value <= 2068
  {
    match TwoDigits(s)
      case Some(v) => Some(if v <= 68 then 2000 + v else 1900 + v)
      case None => None
  }

  /** The whole part must be consumed by the three fields and their two
    * dots, and the day must exist in that month (datetime raises otherwise). */
  function ParseShortDate(s: string): (r: Option<Date>)
    ensures r.Some? ==> ValidDate(r.value) && 1969 <= r.value.year <= 2068
  {
    var f := Split(s, '.');
    if |f| != 3 then None
    else match (DayField(f[0]), MonthField(f[1]), YearField(f[2]))
      case (Some(d), Some(m), Some(y)) => if d <= DaysInMonth(y, m) then Some(Date(y, m, d)) else None
      case _ => None
  }

  /** `if date_from > date_to: swap`. */
  function Ordered(a: Date, b: Date): (Date, Date)
  {
    if DateBefore(b, a) then (b, a) else (a, b)
  }

  /** The range from the pieces of `text.split("-")`: exactly two, each
    * stripped and parsed. */
  function RangeOfParts(parts: seq<string>): Option<(Date, Date)>
  {
    if |parts| != 2 then None
    else match (ParseShortDate(Strip(parts[0])), ParseShortDate(Strip(parts[1])))
      case (Some(a), Some(b)) => Some(Ordered(a, b))
      case _ => None
  }

  /** export_custom_dates' parse of the stripped message text; None where
    * the handler answers with the format reminder. */
  function ParseCustomRange(text: string): Option<(Date, Date)>
  {
    RangeOfParts(Split(Strip(text), '-'))
  }

  /** A range is accepted exactly when the text has two dash-separated parts
    * that both parse; it then holds the two dates, earlier one first. */
  lemma CustomRangeAccepted(text: string)
    ensures var parts := Split(Strip(text), '-');
      ParseCustomRange(text).Some? <==>
        |parts| == 2 && ParseShortDate(Strip(parts[0])).Some? && ParseShortDate(Strip(parts[1])).Some?
    ensures var parts := Split(Strip(text), '-');
      ParseCustomRange(text).Some? ==>
        var a, b := ParseShortDate(Strip(parts[0])).value, ParseShortDate(Strip(parts[1])).value;
        var (from, to) := ParseCustomRange(text).value;
        && ValidDate(from) && ValidDate(to) && DateAtMost(from, to)
        && ((from, to) == (a, b) || (from, to) == (b, a))
  {
  }

  /** Dates are totally ordered: two dates neither before the other are equal. */
  lemma DateTrichotomy(a: Date, b: Date)
    ensures DateBefore(a, b) || DateBefore(b, a) || a == b
    ensures !(DateBefore(a, b) && DateBefore(b, a))
  {
  }

  /** Writing the range backwards selects the same period. */
  lemma RangeIgnoresPartOrder(p: string, q: string)
    ensures RangeOfParts([p, q]) == RangeOfParts([q, p])
  {
    var a, b := ParseShortDate(Strip(p)), ParseShortDate(Strip(q));
    if a.Some? && b.Some? {
      DateTrichotomy(a.value, b.value);
    }
  }

  /** The date as a user would type it: DD.MM.YY. */
  function ShortDate(d: Date): string
    requires ValidDate(d)
  {
    Join([ZeroPad2(d.day), ZeroPad2(d.month), ZeroPad2(d.year % 100)], '.')
  }

  lemma TwoDigitsOfPad(n: nat)
    requires n < 100
    ensures TwoDigits(ZeroPad2(n)) == Some(n)
  {
    var z := ZeroPad2(n);
    ZeroPad2Digits(n);
    assert DigitsValue(z) == DigitsValue(z[..1]) * 10 + DigitValue(z[1]);
    assert DigitsValue(z[..1]) == DigitsValue(z[..0]) * 10 + DigitValue(z[0]);
  }

  lemma JoinThree(a: string, b: string, c: string, sep: char)
    ensures Join([a, b, c], sep) == a + [sep] + b + [sep] + c
  {
    assert [a, b, c][1..] == [b, c];
    assert [b, c][1..] == [c];
    assert Join([c], sep) == c;
    assert Join([b, c], sep) == b + [sep] + c;
    assert Join([a, b, c], sep) == a + [sep] + (b + [sep] + c);
  }

  /** Every character of a typed date is a digit or a dot. */
  lemma ShortDateChars(d: Date)
    requires ValidDate(d)
    ensures var s := ShortDate(d);
      |s| == 8 && forall i :: 0 <= i < |s| ==> IsDigit(s[i]) || s[i] == '.'
    ensures IsDigit(ShortDate(d)[0]) && IsDigit(ShortDate(d)[7])
  {
    var dd, mm, yy := ZeroPad2(d.day), ZeroPad2(d.month), ZeroPad2(d.year % 100);
    ZeroPad2Digits(d.day);
    ZeroPad2Digits(d.month);
    ZeroPad2Digits(d.year % 100);
    JoinThree(dd, mm, yy, '.');
    var s := ShortDate(d);
    assert s == dd + ['.'] + mm + ['.'] + yy;
    forall i | 0 <= i < |s| ensures IsDigit(s[i]) || s[i] == '.' {
      if i < 2 { assert s[i] == dd[i]; }
      else if i == 2 || i == 5 { }
      else if i < 5 { assert s[i] == mm[i - 3]; }
      else { assert s[i] == yy[i - 6]; }
    }
  }

  /** Splitting a typed date at its dots gives back the three padded fields. */
  lemma ShortDateFields(d: Date)
    requires ValidDate(d)
    ensures Split(ShortDate(d), '.') == [ZeroPad2(d.day), ZeroPad2(d.month), ZeroPad2(d.year % 100)]
  {
    var dd, mm, yy := ZeroPad2(d.day), ZeroPad2(d.month), ZeroPad2(d.year % 100);
    ZeroPad2Digits(d.day);
    ZeroPad2Digits(d.month);
    ZeroPad2Digits(d.year % 100);
    forall j | 0 <= j < 3 ensures '.' !in [dd, mm, yy][j] {
      var s := [dd, mm, yy][j];
      assert AllDigits(s);
      forall i | 0 <= i < |s| ensures s[i] != '.' { assert IsDigit(s[i]); }
    }
    SplitJoin([dd, mm, yy], '.');
  }

  /** Every date of the century the two-digit year covers reads back as itself. */
  lemma ShortDateRoundTrip(d: Date)
    requires ValidDate(d) && 1969 <= d.year <= 2068
    ensures ParseShortDate(ShortDate(d)) == Some(d)
  {
    ShortDateFields(d);
    TwoDigitsOfPad(d.day);
    TwoDigitsOfPad(d.month);
    TwoDigitsOfPad(d.year % 100);
    assert DayField(ZeroPad2(d.day)) == Some(d.day);
    assert MonthField(ZeroPad2(d.month)) == Some(d.month);
    assert YearField(ZeroPad2(d.year % 100)) == Some(d.year);
  }

  /** A typed date carries neither a dash nor surrounding spaces. */
  lemma ShortDateIsClean(d: Date)
    requires ValidDate(d)
    ensures '-' !in ShortDate(d)
    ensures Strip(ShortDate(d)) == ShortDate(d)
  {
    var s := ShortDate(d);
    ShortDateChars(d);
    forall i | 0 <= i < |s| ensures s[i] != '-' {}
    StripNoSpaceEnds(s);
  }

  /** "DD.MM.YY-DD.MM.YY" of any two dates of that century is accepted and
    * yields the pair in order. */
  lemma CustomRangeRoundTrip(a: Date, b: Date)
    requires ValidDate(a) && 1969 <= a.year <= 2068
    requires ValidDate(b) && 1969 <= b.year <= 2068
    ensures ParseCustomRange(ShortDate(a) + "-" + ShortDate(b)) == Some(Ordered(a, b))
  {
    var sa, sb := ShortDate(a), ShortDate(b);
    var text := sa + "-" + sb;
    ShortDateChars(a);
    ShortDateChars(b);
    ShortDateIsClean(a);
    ShortDateIsClean(b);
    StripNoSpaceEnds(text);
    assert Join([sa, sb], '-') == text;
    SplitJoin([sa, sb], '-');
    ShortDateRoundTrip(a);
    ShortDateRoundTrip(b);
  }

  // ---------- the file name ----------

  /** `month and year` on values the FSM storage holds (an int or nothing). */
  predicate IntTruthy(v: Option<int>)
  {
    v.Some? && v.value != 0
  }

  /** date.strftime('%d%m%y'). */
  function Ddmmyy(d: Date): string
  {
    Format02d(d.day) + Format02d(d.month) + ZeroPad2(d.year % 100)
  }

  /** The name before its extension: tickets_{year}_{MM} for a chosen month,
    * else tickets_{ddmmyy}_{ddmmyy} for a custom range, else
    * tickets_{period} with the period defaulting to "all". */
  function TicketsFileName(period: Option<string>, month: Option<int>, year: Option<int>,
                           from: Option<Date>, to: Option<Date>): string
  {
    if IntTruthy(month) && IntTruthy(year) then "tickets_" + IntToString(year.value) + "_" + Format02d(month.value)
    else if from.Some? && to.Some? then "tickets_" + Ddmmyy(from.value) + "_" + Ddmmyy(to.value)
    else "tickets_" + (if period.Some? then period.value else "all")
  }

  /** A chosen month decides the name whatever else is stored; otherwise a
    * complete range decides it whatever the period; only without either does
    * the period (by default "all") show. */
  lemma TicketsFileNamePrecedence(period: Option<string>, month: Option<int>, year: Option<int>,
                                  from: Option<Date>, to: Option<Date>,
                                  period': Option<string>, from': Option<Date>, to': Option<Date>)
    ensures IntTruthy(month) && IntTruthy(year) ==>
      TicketsFileName(period, month, year, from, to) == TicketsFileName(period', month, year, from', to')
    ensures !(IntTruthy(month) && IntTruthy(year)) && from.Some? && to.Some? ==>
      TicketsFileName(period, month, year, from, to) == TicketsFileName(period', month, year, from, to)
    ensures !(IntTruthy(month) && IntTruthy(year)) && (from.None? || to.None?) ==>
      TicketsFileName(period, month, year, from, to) == "tickets_" + (if period.Some? then period.value else "all")
  {
  }

  /** Names of chosen months are distinct for distinct months of positive years. */
  lemma MonthFileNameInjective(y1: nat, m1: nat, y2: nat, m2: nat)
    requires 1 <= m1 <= 12 && 1 <= m2 <= 12 && y1 > 0 && y2 > 0
    requires TicketsFileName(None, Some(m1), Some(y1), None, None) == TicketsFileName(None, Some(m2), Some(y2), None, None)
    ensures y1 == y2 && m1 == m2
  {
    var n1, n2 := TicketsFileName(None, Some(m1), Some(y1), None, None), TicketsFileName(None, Some(m2), Some(y2), None, None);
    ZeroPad2Digits(m1);
    ZeroPad2Digits(m2);
    var p1 := "tickets_" + NatToString(y1) + "_";
    var p2 := "tickets_" + NatToString(y2) + "_";
    assert n1 == p1 + ZeroPad2(m1) && n2 == p2 + ZeroPad2(m2);
    assert ZeroPad2(m1) == n1[|n1| - 2..] == n2[|n2| - 2..] == ZeroPad2(m2);
    assert p1 == n1[..|n1| - 2] == n2[..|n2| - 2] == p2;
    assert NatToString(y1) == p1[8..|p1| - 1] == p2[8..|p2| - 1] == NatToString(y2);
    NatToStringDigits(y1);
    NatToStringDigits(y2);
  }

  // ---------- the tables ----------

  const Header: seq<string> := ["Дата", "Номер заявки", "Адрес", "Телефон", "Вид работ", "Статус"]

  /** created_at.strftime('%d.%m.%Y %H:%M'). */
  function CreatedText(t: DateTime): string
  {
    Concat([Format02d(t.date.day), ".", Format02d(t.date.month), ".", IntToString(t.date.year), " ",
            Format02d(t.hour), ":", Format02d(t.minute)])
  }


  /** The CSV's work column: texts over 100 characters keep their first 100
    * and get "..." appended. */
  function WorkColumn(text: string): (w: string)
    ensures |text| <= 100 ==> w == text
    ensures |text| > 100 ==> |w| == 103 && w[..100] == text[..100] && w[100..] == "..."
  {
    if |text| > 100 then text[..100] + "..." else text
  }

  /** Shortening never makes a work column longer than 103 characters, always
    * keeps the text's start, and a shortened column stays as it is. */
  lemma WorkColumnShortens(text: string)
    ensures |WorkColumn(text)| <= 103
    ensures StartsWith(WorkColumn(text), text[..if |text| <= 100 then |text| else 100])
    ensures WorkColumn(WorkColumn(text)) == WorkColumn(text)
  {
    var w := WorkColumn(text);
    if |text| > 100 {
      assert WorkColumn(w) == w[..100] + "...";
      assert w == w[..100] + w[100..];
    }
  }

  function CsvRow(t: TicketRow): (row: seq<string>)
    ensures |row| == |Header|
  {
    [CreatedText(t.createdAt), NatToString(t.id), t.address, t.phone, WorkColumn(t.text), t.status]
  }

  /** The XLSX keeps the whole text. */
  function XlsxRow(t: TicketRow): (row: seq<string>)
    ensures |row| == |Header|
  {
    [CreatedText(t.createdAt), NatToString(t.id), t.address, t.phone, t.text, t.status]
  }

  /** _generate_tickets_csv's rows: the header, then one row per ticket in
    * the order given, every row as wide as the header. */
  method TicketsCsv(tickets: seq<TicketRow>) returns (table: seq<seq<string>>)
    ensures |table| == |tickets| + 1 && table[0] == Header
    ensures forall i :: 0 <= i < |tickets| ==> table[i + 1] == CsvRow(tickets[i])
    ensures forall i :: 0 <= i < |table| ==> |table[i]| == |Header|
    ensures forall i :: 0 <= i < |tickets| ==>
      (table[i + 1][0] == CreatedText(tickets[i].createdAt)
       && table[i + 1][1] == NatToString(tickets[i].id) && table[i + 1][4] == WorkColumn(tickets[i].text))
  {
    table := [Header];
    var i := 0;
    while i < |tickets|
      invariant 0 <= i <= |tickets|
      invariant |table| == i + 1 && table[0] == Header
      invariant forall k :: 0 <= k < i ==> table[k + 1] == CsvRow(tickets[k])
      invariant forall k :: 0 <= k < |table| ==> |table[k]| == |Header|
    {
      table := table + [CsvRow(tickets[i])];
      i := i + 1;
    }
  }

  /** The sheet: the header row, then one full row per ticket. */
  function XlsxTable(tickets: seq<TicketRow>): (table: seq<seq<string>>)
    ensures |table| == |tickets| + 1 && table[0] == Header
    ensures forall i :: 0 <= i < |tickets| ==> table[i + 1] == XlsxRow(tickets[i])
  {
    [Header] + seq(|tickets|, i requires 0 <= i < |tickets| => XlsxRow(tickets[i]))
  }

  /** Column `j` of a table whose rows all have it. */
  function ColumnOf(table: seq<seq<string>>, j: nat): (c: seq<string>)
    requires forall i :: 0 <= i < |table| ==> j < |table[i]|
    ensures |c| == |table|
  {
    seq(|table|, i requires 0 <= i < |table| => table[i][j])
  }

  function Max(a: int, b: int): int { if a >= b then a else b }

  /** The longest length among the cells, 0 for none. */
  function MaxLen(cells: seq<string>): nat
  {
    if |cells| == 0 then 0
    else Max(MaxLen(cells[..|cells| - 1]), |cells[|cells| - 1]|)
  }

  /** `min(max_length + 2, 50)`. */
  function Width(cells: seq<string>): nat
  {
    MeterReminder.Min(MaxLen(cells) + 2, 50)
  }

  /** MaxLen is the length of the longest cell. */
  lemma {:induction false} MaxLenIsLongest(cells: seq<string>)
    ensures forall c :: c in cells ==> |c| <= MaxLen(cells)
    ensures cells == [] ==> MaxLen(cells) == 0
    ensures cells != [] ==> exists c :: c in cells && |c| == MaxLen(cells)
  {
    if |cells| > 0 {
      var front := cells[..|cells| - 1];
      MaxLenIsLongest(front);
      assert cells == front + [cells[|cells| - 1]];
      if front != [] {
        var c :| c in front && |c| == MaxLen(front);
        assert c in cells;
      }
    }
  }

  /** A width is between 2 and 50; it is 50 exactly when some cell has 48
    * characters or more, and otherwise two more than the longest cell. */
  lemma WidthBounds(cells: seq<string>)
    ensures 2 <= Width(cells) <= 50
    ensures Width(cells) == 50 <==> exists c :: c in cells && |c| >= 48
    ensures Width(cells) < 50 ==> forall c :: c in cells ==> |c| + 2 <= Width(cells)
    ensures Width(cells) < 50 && cells != [] ==> exists c :: c in cells && |c| + 2 == Width(cells)
  {
    MaxLenIsLongest(cells);
  }

  lemma MaxLenStep(cells: seq<string>, i: nat)
    requires i < |cells|
    ensures MaxLen(cells[..i + 1]) == Max(MaxLen(cells[..i]), |cells[i]|)
  {
    assert cells[..i + 1][..i] == cells[..i];
  }

  /** The width loop over one column: max_length grows cell by cell. */
  method ColumnWidth(cells: seq<string>) returns (width: nat)
    ensures width == Width(cells)
  {
    var maxLength := 0;
    var i := 0;
    while i < |cells|
      invariant 0 <= i <= |cells|
      invariant maxLength == MaxLen(cells[..i])
    {
      MaxLenStep(cells, i);
      if |cells[i]| > maxLength {
        maxLength := |cells[i]|;
      }
      i := i + 1;
    }
    assert cells[..i] == cells;
    width := MeterReminder.Min(maxLength + 2, 50);
  }

  /** Every row of the table has `n` cells. */
  predicate Rectangular(table: seq<seq<string>>, n: nat)
  {
    forall i :: 0 <= i < |table| ==> |table[i]| == n
  }

  lemma XlsxTableRectangular(tickets: seq<TicketRow>)
    ensures Rectangular(XlsxTable(tickets), |Header|)
  {
  }

  lemma SheetIsTable(table: seq<seq<string>>, tickets: seq<TicketRow>)
    requires |table| == |tickets| + 1 && table[0] == Header
    requires forall k :: 0 <= k < |tickets| ==> table[k + 1] == XlsxRow(tickets[k])
    ensures table == XlsxTable(tickets)
  {
  }

  /** The rows ws.append adds: the header, then each ticket in order. */
  method XlsxSheet(tickets: seq<TicketRow>) returns (table: seq<seq<string>>)
    ensures |table| == |tickets| + 1 && table[0] == Header
    ensures forall k :: 0 <= k < |tickets| ==> table[k + 1] == XlsxRow(tickets[k])
  {
    table := [Header];
    var i := 0;
    while i < |tickets|
      invariant 0 <= i <= |tickets|
      invariant |table| == i + 1 && table[0] == Header
      invariant forall k :: 0 <= k < i ==> table[k + 1] == XlsxRow(tickets[k])
    {
      table := table + [XlsxRow(tickets[i])];
      i := i + 1;
    }
  }

  /** The width loop over `ws.columns`: one width per column, in order. */
  method ColumnWidths(table: seq<seq<string>>, n: nat) returns (widths: seq<nat>)
    requires Rectangular(table, n)
    ensures |widths| == n
    ensures forall j :: 0 <= j < n ==> widths[j] == Width(ColumnOf(table, j))
  {
    widths := [];
    var j := 0;
    while j < n
      invariant 0 <= j <= n
      invariant |widths| == j
      invariant forall k :: 0 <= k < j ==> widths[k] == Width(ColumnOf(table, k))
    {
      var w := ColumnWidth(ColumnOf(table, j));
      widths := widths + [w];
      j := j + 1;
    }
  }

  /** _generate_tickets_xlsx: the sheet and one width per column. */
  method TicketsXlsx(tickets: seq<TicketRow>) returns (table: seq<seq<string>>, widths: seq<nat>)
    ensures table == XlsxTable(tickets) && Rectangular(table, |Header|)
    ensures |widths| == |Header|
    ensures forall j :: 0 <= j < |widths| ==> widths[j] == Width(ColumnOf(table, j))
  {
    table := XlsxSheet(tickets);
    SheetIsTable(table, tickets);
    XlsxTableRectangular(tickets);
    widths := ColumnWidths(table, |Header|);
  }

  // ---------- the dialogue ----------

  datatype ExportStep = SelectPeriod | SelectMonth | EnterCustomDates | SelectFormat

  /** What one export produces: nothing for an empty selection, else the
    * file's name with its extension and the table written to it. */
  datatype ExportFile =
    | CsvFile(name: string, table: seq<seq<string>>)
    | XlsxFile(name: string, table: seq<seq<string>>, widths: seq<nat>)

  /** The stored `period` as get_tickets_for_export reads it: "all" when
    * none was stored, and a literal it does not know filters nothing. */
  function PeriodOf(period: Option<string>): (p: Period)
    ensures period.None? ==> p == All
    ensures period.Some? ==>
      && (p == Today <==> period.value == "today")
      && (p == Week <==> period.value == "week")
      && (p == Month <==> period.value == "month")
      && (p == Period.SelectMonth <==> period.value == "select_month")
      && (p == Custom <==> period.value == "custom")
  {
    if period.None? then All
    else match period.value
      case "today" => Today
      case "week" => Week
      case "month" => Month
      case "select_month" => Period.SelectMonth
      case "custom" => Custom
      case _ => All
  }

  /** The FSM storage of one admin's export dialogue. */
  class ExportSession {
    var step: Option<ExportStep>
    var period: Option<string>
    var month: Option<int>
    var year: Option<int>
    var dateFrom: Option<Date>
    var dateTo: Option<Date>

    constructor()
      ensures step == None && period == None && month == None && year == None
      ensures dateFrom == None && dateTo == None
    {
      step := None;
      period := None;
      month := None;
      year := None;
      dateFrom := None;
      dateTo := None;
    }

    /** export_custom_dates: an accepted range is stored, in order, and the
      * dialogue moves on to the format; a rejected one keeps everything. */
    method EnterDates(text: string) returns (accepted: bool)
      requires step == Some(EnterCustomDates)
      modifies this`step, this`dateFrom, this`dateTo
      ensures accepted <==> ParseCustomRange(text).Some?
      ensures accepted ==>
        && step == Some(SelectFormat)
        && dateFrom == Some(ParseCustomRange(text).value.0)
        && dateTo == Some(ParseCustomRange(text).value.1)
        && DateAtMost(dateFrom.value, dateTo.value)
      ensures !accepted ==> step == old(step) && dateFrom == old(dateFrom) && dateTo == old(dateTo)
    {
      CustomRangeAccepted(text);
      var r := ParseCustomRange(text);
      if r.None? {
        return false;
      }
      dateFrom := Some(r.value.0);
      dateTo := Some(r.value.1);
      step := Some(SelectFormat);
      return true;
    }

    /** export_generate_file with `rows` the joined ticket and user rows the
      * query reads, newest first, and `today` the current date: the stored
      * selection picks the tickets; none means no file; "csv" means the CSV,
      * anything else the XLSX; the dialogue's storage is cleared either
      * way. */
    method Generate(rows: seq<(Ticket, User)>, today: Date, format: string) returns (file: Option<ExportFile>)
      requires ValidRows(rows) && ValidDate(today)
      modifies this
      ensures var tickets := Exported(rows, PeriodOf(old(period)), today, old(month), old(year), old(dateFrom), old(dateTo));
        file.None? <==> tickets == []
      ensures var tickets := Exported(rows, PeriodOf(old(period)), today, old(month), old(year), old(dateFrom), old(dateTo));
        file.Some? ==>
        var name := TicketsFileName(old(period), old(month), old(year), old(dateFrom), old(dateTo));
        && (file.value.CsvFile? <==> format == "csv")
        && |file.value.table| == |tickets| + 1
        && (file.value.CsvFile? ==>
              && file.value.name == name + ".csv"
              && file.value.table[0] == Header
              && forall i :: 0 <= i < |tickets| ==> file.value.table[i + 1] == CsvRow(tickets[i]))
        && (file.value.XlsxFile? ==>
              && file.value.name == name + ".xlsx" && file.value.table == XlsxTable(tickets)
              && |file.value.widths| == |Header|
              && forall j :: 0 <= j < |Header| ==> file.value.widths[j] == Width(ColumnOf(file.value.table, j)))
      ensures step == None && period == None && month == None && year == None
      ensures dateFrom == None && dateTo == None
    {
      var tickets := TicketsForExport(rows, PeriodOf(period), today, month, year, dateFrom, dateTo);
      var name := TicketsFileName(period, month, year, dateFrom, dateTo);
      if tickets == [] {
        file := None;
      } else if format == "csv" {
        var table := TicketsCsv(tickets);
        file := Some(CsvFile(name + ".csv", table));
      } else {
        var table, widths := TicketsXlsx(tickets);
        file := Some(XlsxFile(name + ".xlsx", table, widths));
      }
      step, period, month, year, dateFrom, dateTo := None, None, None, None, None, None;
    }
  }
}
