// The export queries: which tickets a period selects, how each joined
// (ticket, user) row becomes an export row, and which meter readings make
// up the monthly cold-water export. The SQL is replaced by predicates over
// the joined rows, which arrive in the query's ORDER BY order.
module ExportQueries {
  import opened Wrappers
  import opened Text
  import opened Models
  import opened Calendar

  /** Python truthiness of a nullable text column. */
  predicate Truthy(s: Option<string>)
  {
    s.Some? && s.value != ""
  }

  /** sep.join(parts) for a string separator. */
  function JoinWith(parts: seq<string>, sep: string): string
  {
    if |parts| == 0 then ""
    else if |parts| == 1 then parts[0]
    else parts[0] + sep + JoinWith(parts[1..], sep)
  }

  /** address_parts: the street, "д. {house}" and "кв. {apartment}", each
    * only when present. */
  function AddressParts(street: Option<string>, house: Option<string>, apartment: Option<string>): (parts: seq<string>)
    ensures forall i :: 0 <= i < |parts| ==> parts[i] != ""
    ensures |parts| == 0 <==> !Truthy(street) && !Truthy(house) && !Truthy(apartment)
  {
    (if Truthy(street) then [street.value] else [])
    + (if Truthy(house) then ["д. " + house.value] else [])
    + (if Truthy(apartment) then ["кв. " + apartment.value] else [])
  }

  /** The export address: the parts joined with ", ", or "—" when there are none. */
  function AddressLine(street: Option<string>, house: Option<string>, apartment: Option<string>): string
  {
    var parts := AddressParts(street, house, apartment);
    if |parts| == 0 then "—" else JoinWith(parts, ", ")
  }

  /** The address never has an empty segment: a missing part takes its
    * separator with it. */
  lemma AddressLineCases(s: string, h: string, a: string)
    requires s != "" && h != "" && a != ""
    ensures AddressLine(None, None, None) == "—"
    ensures AddressLine(Some(s), Some(h), Some(a)) == s + ", д. " + h + ", кв. " + a
    ensures AddressLine(Some(s), None, Some(a)) == s + ", кв. " + a
    ensures AddressLine(Some(""), Some(h), None) == "д. " + h
    ensures AddressLine(None, Some(h), Some(a)) == "д. " + h + ", кв. " + a
  {
    AddressFull(s, h, a);
    AddressWithoutHouse(s, a);
    AddressWithoutStreet(h, a);
    assert AddressParts(Some(""), Some(h), None) == ["д. " + h];
  }

  lemma AddressFull(s: string, h: string, a: string)
    requires s != "" && h != "" && a != ""
    ensures AddressLine(Some(s), Some(h), Some(a)) == s + ", д. " + h + ", кв. " + a
  {
    var d, k := "д. " + h, "кв. " + a;
    assert AddressParts(Some(s), Some(h), Some(a)) == [s, d, k];
    JoinThree(s, d, k, ", ");
    assert ", " + d == ", д. " + h;
    assert ", " + k == ", кв. " + a;
  }

  lemma AddressWithoutHouse(s: string, a: string)
    requires s != "" && a != ""
    ensures AddressLine(Some(s), None, Some(a)) == s + ", кв. " + a
  {
    var k := "кв. " + a;
    assert AddressParts(Some(s), None, Some(a)) == [s, k];
    JoinTwo(s, k, ", ");
    assert ", " + k == ", кв. " + a;
  }

  lemma AddressWithoutStreet(h: string, a: string)
    requires h != "" && a != ""
    ensures AddressLine(None, Some(h), Some(a)) == "д. " + h + ", кв. " + a
  {
    var d, k := "д. " + h, "кв. " + a;
    assert AddressParts(None, Some(h), Some(a)) == [d, k];
    JoinTwo(d, k, ", ");
    assert ", " + k == ", кв. " + a;
  }

  lemma JoinTwo(x: string, y: string, sep: string)
    ensures JoinWith([x, y], sep) == x + sep + y
  {
    assert [x, y][1..] == [y];
  }

  lemma JoinThree(x: string, y: string, z: string, sep: string)
    ensures JoinWith([x, y, z], sep) == x + sep + (y + sep + z)
  {
    assert [x, y, z][1..] == [y, z];
    JoinTwo(y, z, sep);
  }

  /** `value or "—"`. */
  function OrDash(s: Option<string>): string
  {
    if Truthy(s) then s.value else "—"
  }

  // ---------- tickets ----------

  /** The `period` literal of get_tickets_for_export. */
  datatype Period = Today | Week | Month | All | SelectMonth | Custom

  /** The start of the current week, as a day ordinal: `today - weekday` days. */
  function WeekStart(today: Date): int
    requires ValidDate(today)
  {
    Ordinal(today) - Weekday(today)
  }

  /** The filter each period adds to the query. select_month filters only
    * when month and year are both truthy, custom only when both dates are
    * given; in every other case no filter is applied. */
  predicate InPeriod(p: Period, created: Date, today: Date, month: Option<int>, year: Option<int>,
                     from: Option<Date>, to: Option<Date>)
    requires ValidDate(created) && ValidDate(today)
  {
    match p
    case Today => created == today
    case Week => Ordinal(created) >= WeekStart(today)
    case Month => !DateBefore(created, FirstOfMonth(today))
    case SelectMonth =>
      if month.Some? && month.value != 0 && year.Some? && year.value != 0
      then created.month == month.value && created.year == year.value
      else true
    case Custom =>
      if from.Some? && to.Some? then DateAtMost(from.value, created) && DateAtMost(created, to.value)
      else true
    case All => true
  }

  /** The week starts on a Monday, and today is in its week and month. */
  lemma WeekStartsOnMonday(today: Date, monday: Date)
    requires ValidDate(today) && ValidDate(monday)
    requires Ordinal(monday) == WeekStart(today)
    ensures Weekday(monday) == 0
    ensures DateAtMost(monday, today)
    ensures InPeriod(Week, today, today, None, None, None, None)
    ensures InPeriod(Month, today, today, None, None, None, None)
  {
    var o := Ordinal(today);
    assert (o + 6) - (o + 6) % 7 == 7 * ((o + 6) / 7);
    OrdinalOrder(monday, today);
  }

  /** The custom range keeps both of its ends. */
  lemma CustomRangeInclusive(from: Date, to: Date, today: Date)
    requires ValidDate(from) && ValidDate(to) && ValidDate(today)
    requires DateAtMost(from, to)
    ensures InPeriod(Custom, from, today, None, None, Some(from), Some(to))
    ensures InPeriod(Custom, to, today, None, None, Some(from), Some(to))
  {
  }

  /** An incomplete select_month or custom request exports everything. */
  lemma IncompleteRequestsExportAll(created: Date, today: Date, year: Option<int>, from: Option<Date>)
    requires ValidDate(created) && ValidDate(today)
    ensures InPeriod(SelectMonth, created, today, None, year, None, None)
    ensures InPeriod(SelectMonth, created, today, Some(0), year, None, None)
    ensures InPeriod(Custom, created, today, None, None, from, None)
  {
  }

  /** One exported ticket. */
  datatype TicketRow = TicketRow(id: nat, createdAt: DateTime, address: string, phone: string,
                                 text: string, status: string, userName: string)

  /** The row a joined (ticket, user) pair becomes. */
  function RowOf(t: Ticket, u: User): TicketRow
  {
    TicketRow(t.id, t.createdAt, AddressLine(u.street, u.house, u.apartment), OrDash(u.phone),
              if t.text != "" then t.text else "—", Label(StatusValue(t.status)),
              if u.name != "" then u.name else "—")
  }

  /** The joined rows the database returns: valid creation dates. */
  predicate ValidRows(rows: seq<(Ticket, User)>)
  {
    forall x :: x in rows ==> ValidDate(x.0.createdAt.date)
  }

  /** The rows the period's filter lets through, in the query's order. */
  function Selected(rows: seq<(Ticket, User)>, p: Period, today: Date, month: Option<int>, year: Option<int>,
                    from: Option<Date>, to: Option<Date>): seq<(Ticket, User)>
    requires ValidRows(rows) && ValidDate(today)
  {
    if |rows| == 0 then []
    else
      var last := rows[|rows| - 1];
      var before := Selected(rows[..|rows| - 1], p, today, month, year, from, to);
      if InPeriod(p, last.0.createdAt.date, today, month, year, from, to) then before + [last] else before
  }

  function RowsOf(xs: seq<(Ticket, User)>): (r: seq<TicketRow>)
    ensures |r| == |xs|
    ensures forall i :: 0 <= i < |xs| ==> r[i] == RowOf(xs[i].0, xs[i].1)
  {
    seq(|xs|, i requires 0 <= i < |xs| => RowOf(xs[i].0, xs[i].1))
  }

  /** get_tickets_for_export's result: the selected rows, mapped. */
  function Exported(rows: seq<(Ticket, User)>, p: Period, today: Date, month: Option<int>, year: Option<int>,
                    from: Option<Date>, to: Option<Date>): seq<TicketRow>
    requires ValidRows(rows) && ValidDate(today)
  {
    RowsOf(Selected(rows, p, today, month, year, from, to))
  }

  /** A row is selected exactly when it is one of the joined rows and its
    * creation date is in the period. */
  lemma {:induction false} SelectedExactlyTheMatches(rows: seq<(Ticket, User)>, p: Period, today: Date,
      month: Option<int>, year: Option<int>, from: Option<Date>, to: Option<Date>)
    requires ValidRows(rows) && ValidDate(today)
    ensures forall x :: x in Selected(rows, p, today, month, year, from, to) <==>
      x in rows && InPeriod(p, x.0.createdAt.date, today, month, year, from, to)
    ensures |Selected(rows, p, today, month, year, from, to)| <= |rows|
  {
    if |rows| > 0 {
      var init := rows[..|rows| - 1];
      SelectedExactlyTheMatches(init, p, today, month, year, from, to);
      assert rows == init + [rows[|rows| - 1]];
    }
  }

  /** The joined rows in the query's order: newest first. */
  predicate NewestFirst(rows: seq<(Ticket, User)>)
  {
    forall i, j :: 0 <= i < j < |rows| ==> !Before(rows[i].0.createdAt, rows[j].0.createdAt)
  }

  /** A row no newer than every row before it may go at the end. */
  lemma AppendOlderKeepsOrder(before: seq<(Ticket, User)>, last: (Ticket, User))
    requires NewestFirst(before)
    requires forall x :: x in before ==> !Before(x.0.createdAt, last.0.createdAt)
    ensures NewestFirst(before + [last])
  {
    var out := before + [last];
    forall i, j | 0 <= i < j < |out| ensures !Before(out[i].0.createdAt, out[j].0.createdAt) {
      if j == |before| {
        assert out[i] in before;
      } else {
        assert out[i] == before[i] && out[j] == before[j];
      }
    }
  }

  /** Filtering keeps the newest-first order. */
  lemma {:induction false} SelectedKeepsOrder(rows: seq<(Ticket, User)>, p: Period, today: Date,
      month: Option<int>, year: Option<int>, from: Option<Date>, to: Option<Date>)
    requires ValidRows(rows) && ValidDate(today)
    requires NewestFirst(rows)
    ensures NewestFirst(Selected(rows, p, today, month, year, from, to))
  {
    if |rows| > 0 {
      var init := rows[..|rows| - 1];
      var last := rows[|rows| - 1];
      SelectedKeepsOrder(init, p, today, month, year, from, to);
      SelectedExactlyTheMatches(init, p, today, month, year, from, to);
      var before := Selected(init, p, today, month, year, from, to);
      forall x | x in before ensures !Before(x.0.createdAt, last.0.createdAt) {
        var k :| 0 <= k < |init| && init[k] == x;
        assert rows[k] == init[k];
      }
      AppendOlderKeepsOrder(before, last);
    }
  }

  /** The export rows are newest first whenever the joined rows are. */
  lemma ExportedNewestFirst(rows: seq<(Ticket, User)>, p: Period, today: Date,
      month: Option<int>, year: Option<int>, from: Option<Date>, to: Option<Date>)
    requires ValidRows(rows) && ValidDate(today)
    requires NewestFirst(rows)
    ensures var out := Exported(rows, p, today, month, year, from, to);
      forall i, j :: 0 <= i < j < |out| ==> !Before(out[i].createdAt, out[j].createdAt)
  {
    SelectedKeepsOrder(rows, p, today, month, year, from, to);
  }

  /** One more joined row adds its export row exactly when it matches. */
  lemma ExportStep(rows: seq<(Ticket, User)>, i: nat, p: Period, today: Date, month: Option<int>, year: Option<int>,
                   from: Option<Date>, to: Option<Date>)
    requires ValidRows(rows) && ValidDate(today) && i < |rows|
    ensures ValidRows(rows[..i]) && ValidRows(rows[..i + 1]) && ValidDate(rows[i].0.createdAt.date)
    ensures Exported(rows[..i + 1], p, today, month, year, from, to)
         == Exported(rows[..i], p, today, month, year, from, to)
            + (if InPeriod(p, rows[i].0.createdAt.date, today, month, year, from, to)
               then [RowOf(rows[i].0, rows[i].1)] else [])
  {
    ValidRowsPrefix(rows, i);
    ValidRowsPrefix(rows, i + 1);
    assert rows[i] in rows;
    var xs := rows[..i + 1];
    assert xs[..|xs| - 1] == rows[..i] && xs[|xs| - 1] == rows[i];
    var before := Selected(rows[..i], p, today, month, year, from, to);
    if InPeriod(p, rows[i].0.createdAt.date, today, month, year, from, to) {
      assert Selected(xs, p, today, month, year, from, to) == before + [rows[i]];
      RowsOfSnoc(before, rows[i]);
    } else {
      assert Selected(xs, p, today, month, year, from, to) == before;
    }
  }

  lemma ValidRowsPrefix(rows: seq<(Ticket, User)>, n: nat)
    requires ValidRows(rows) && n <= |rows|
    ensures ValidRows(rows[..n])
  {
    assert forall x :: x in rows[..n] ==> x in rows;
  }

  lemma RowsOfSnoc(xs: seq<(Ticket, User)>, x: (Ticket, User))
    ensures RowsOf(xs + [x]) == RowsOf(xs) + [RowOf(x.0, x.1)]
  {
  }

  /** The row-building loop of get_tickets_for_export. */
  method TicketsForExport(rows: seq<(Ticket, User)>, p: Period, today: Date, month: Option<int>, year: Option<int>,
                          from: Option<Date>, to: Option<Date>) returns (tickets: seq<TicketRow>)
    requires ValidRows(rows) && ValidDate(today)
    ensures tickets == Exported(rows, p, today, month, year, from, to)
  {
    tickets := [];
    var i := 0;
    assert ValidRows(rows[..0]);
    while i < |rows|
      invariant 0 <= i <= |rows|
      invariant ValidRows(rows[..i])
      invariant tickets == Exported(rows[..i], p, today, month, year, from, to)
    {
      ExportStep(rows, i, p, today, month, year, from, to);
      var (t, u) := rows[i];
      if InPeriod(p, t.createdAt.date, today, month, year, from, to) {
        tickets := tickets + [RowOf(t, u)];
      }
      i := i + 1;
    }
    assert rows[..i] == rows;
  }

  // ---------- cold water readings ----------

  /** One exported cold-water reading. */
  datatype ColdRow = ColdRow(id: nat, userName: string, address: string, phone: string, value: string,
                             readingDate: Date, createdAt: DateTime)

  /** get_cold_water_readings_for_export: month and year default to today's;
    * only "cold" readings of that month are kept, in the query's order. */
  function ColdReadings(rows: seq<(MeterReading, User)>, month: Option<int>, year: Option<int>, today: Date)
    : (out: seq<ColdRow>)
    ensures |out| <= |rows|
  {
    var m := if month.Some? then month.value else today.month;
    var y := if year.Some? then year.value else today.year;
    if |rows| == 0 then []
    else
      var (r, u) := rows[0];
      var rest := ColdReadings(rows[1..], month, year, today);
      if r.meterType == "cold" && r.readingDate.month == m && r.readingDate.year == y
      then [ColdRow(r.id, if u.name != "" then u.name else "—", AddressLine(u.street, u.house, u.apartment),
                    OrDash(u.phone), r.value, r.readingDate, r.createdAt)] + rest
      else rest
  }

  /** Every exported reading is a cold reading of the requested (or the
    * current) month, and every such reading is exported. */
  lemma {:induction false} ColdReadingsSelectMonth(rows: seq<(MeterReading, User)>, month: Option<int>,
                                                   year: Option<int>, today: Date)
    ensures var m := if month.Some? then month.value else today.month;
      var y := if year.Some? then year.value else today.year;
      var out := ColdReadings(rows, month, year, today);
      && (forall c :: c in out ==> c.readingDate.month == m && c.readingDate.year == y)
      && (forall i :: 0 <= i < |rows| && rows[i].0.meterType == "cold"
            && rows[i].0.readingDate.month == m && rows[i].0.readingDate.year == y
            ==> exists c :: c in out && c.id == rows[i].0.id && c.value == rows[i].0.value)
  {
    if |rows| > 0 {
      ColdReadingsSelectMonth(rows[1..], month, year, today);
      var out := ColdReadings(rows, month, year, today);
      var rest := ColdReadings(rows[1..], month, year, today);
      assert forall c :: c in rest ==> c in out;
      forall i | 0 <= i < |rows| && 0 < i
        ensures rows[i] == rows[1..][i - 1]
      {
      }
    }
  }

  /** A reading of any other meter type never reaches the export. */
  lemma {:induction false} HotReadingsExcluded(rows: seq<(MeterReading, User)>, month: Option<int>,
                                               year: Option<int>, today: Date)
    requires forall i :: 0 <= i < |rows| ==> rows[i].0.meterType != "cold"
    ensures ColdReadings(rows, month, year, today) == []
  {
    if |rows| > 0 {
      HotReadingsExcluded(rows[1..], month, year, today);
    }
  }
}
