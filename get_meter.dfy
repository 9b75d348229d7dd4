// The admin's meter-reading export: decoding the chosen month and year,
// the file's name, and the three writers (CSV, XLSX with its column widths,
// JSON with its dates turned into ISO strings).
module GetMeter {
  import opened Wrappers
  import opened Text
  import opened Calendar
  import opened Models
  import Meter
  import ExportTickets
  import MeterReminder

  // ---------- the callback's month and year ----------

  /** `callback_data.month if callback_data.month != 0 else None`. */
  function Chosen(v: int): (r: Option<int>)
    ensures r.None? <==> v == 0
    ensures r.Some? ==> r.value == v
  {
    if v != 0 then Some(v) else None
  }

  /** The name before its extension: meters_{type}_{year}_{MM} for a chosen
    * month and year, meters_{type}_{year} for a year alone, else
    * meters_{type}_{period}. */
  function MetersFileName(meterType: string, period: string, month: Option<int>, year: Option<int>): string
  {
    var stem := "meters_" + meterType + "_";
    if ExportTickets.IntTruthy(month) && ExportTickets.IntTruthy(year) then
      stem + IntToString(year.value) + "_" + Format02d(month.value)
    else if ExportTickets.IntTruthy(year) then stem + IntToString(year.value)
    else stem + period
  }

  /** From the raw callback numbers: a month shows only together with a
    * year; a year shows whenever it is non-zero; the period shows only
    * when the year is 0. */
  lemma MetersFileNameFromCallback(meterType: string, period: string, cbMonth: int, cbYear: int)
    ensures var name := MetersFileName(meterType, period, Chosen(cbMonth), Chosen(cbYear));
      var stem := "meters_" + meterType + "_";
      && (cbYear == 0 ==> name == stem + period)
      && (cbYear != 0 && cbMonth == 0 ==> name == stem + IntToString(cbYear))
      && (cbYear != 0 && cbMonth != 0 ==> name == stem + IntToString(cbYear) + "_" + Format02d(cbMonth))
  {
  }

  /** Different chosen months of the same type never share a name. */
  lemma MonthFileNameInjective(meterType: string, period: string, y1: nat, m1: nat, y2: nat, m2: nat)
    requires 1 <= m1 <= 12 && 1 <= m2 <= 12 && y1 > 0 && y2 > 0
    requires MetersFileName(meterType, period, Some(m1), Some(y1)) == MetersFileName(meterType, period, Some(m2), Some(y2))
    ensures y1 == y2 && m1 == m2
  {
    var n1, n2 := MetersFileName(meterType, period, Some(m1), Some(y1)), MetersFileName(meterType, period, Some(m2), Some(y2));
    ZeroPad2Digits(m1);
    ZeroPad2Digits(m2);
    var stem := "meters_" + meterType + "_";
    var p1 := stem + NatToString(y1) + "_";
    var p2 := stem + NatToString(y2) + "_";
    assert n1 == p1 + ZeroPad2(m1) && n2 == p2 + ZeroPad2(m2);
    assert ZeroPad2(m1) == n1[|n1| - 2..] == n2[|n2| - 2..] == ZeroPad2(m2);
    assert p1 == n1[..|n1| - 2] == n2[..|n2| - 2] == p2;
    assert NatToString(y1) == p1[|stem|..|p1| - 1] == p2[|stem|..|p2| - 1] == NatToString(y2);
    NatToStringDigits(y1);
    NatToStringDigits(y2);
  }

  // ---------- the rows ----------

  /** One row of get_all_meter_readings_by_type_and_period: the reading's
    * columns and its owner's name, phone and address columns. */
  datatype MeterRow = MeterRow(id: nat, meterNumber: Option<int>, value: string, readingDate: Date,
                               createdAt: DateTime, owner: User)

  /** A Python value as the writers see it. */
  datatype Value = Int(i: int) | Text(s: string) | Null | DateValue(d: Date) | DateTimeValue(t: DateTime)

  /** "%04d" of a year. */
  function Pad4(n: int): string
  {
    if n < 0 then IntToString(n)
    else if n < 10 then "000" + NatToString(n)
    else if n < 100 then "00" + NatToString(n)
    else if n < 1000 then "0" + NatToString(n)
    else NatToString(n)
  }

  /** date.isoformat() (and str(date)). */
  function IsoDate(d: Date): string
  {
    Concat([Pad4(d.year), "-", Format02d(d.month), "-", Format02d(d.day)])
  }

  /** datetime.isoformat(sep) without fractions of a second; str(datetime)
    * uses ' ' and isoformat() 'T'. */
  function IsoDateTime(t: DateTime, sep: char): string
  {
    Concat([IsoDate(t.date), [sep], Format02d(t.hour), ":", Format02d(t.minute), ":", Format02d(t.second)])
  }

  /** The query's row as a dict, in the order of its select list. */
  function RowDict(r: MeterRow): seq<(string, Value)>
  {
    [("id", Int(r.id)),
     ("meter_number", if r.meterNumber.Some? then Int(r.meterNumber.value) else Null),
     ("value", Text(r.value)),
     ("reading_date", DateValue(r.readingDate)),
     ("created_at", DateTimeValue(r.createdAt)),
     ("name", Text(r.owner.name)),
     ("phone", if r.owner.phone.Some? then Text(r.owner.phone.value) else Null),
     ("street", if r.owner.street.Some? then Text(r.owner.street.value) else Null),
     ("house", if r.owner.house.Some? then Text(r.owner.house.value) else Null),
     ("apartment", if r.owner.apartment.Some? then Text(r.owner.apartment.value) else Null)]
  }

  const Header: seq<string> := ["ID", "Пользователь", "Адрес", "Телефон", "Показания (м³)", "Дата", "Создано"]

  /** The number of columns of both the CSV and the sheet. */
  const Columns := 7

  /** csv.writer's text for a value: None is written as an empty field. */
  function CsvText(v: Value): string
  {
    match v
    case Int(i) => IntToString(i)
    case Text(s) => s
    case Null => ""
    case DateValue(d) => IsoDate(d)
    case DateTimeValue(t) => IsoDateTime(t, ' ')
  }

  function OptText(s: Option<string>): Value
  {
    if s.Some? then Text(s.value) else Null
  }

  /** "{street}, д. {house}", plus ", кв. {apartment}" when the apartment is
    * truthy: the same line as the reading preview's. */
  function Address(u: User): string
  {
    Meter.ReadingAddress(u)
  }

  /** generate_csv's row: seven fields, the address built as in the reading
    * preview. */
  function CsvRow(r: MeterRow): (row: seq<string>)
    ensures |row| == Columns
    ensures row[2] == Meter.ReadingAddress(r.owner)
    ensures row[3] == (if r.owner.phone.Some? then r.owner.phone.value else "")
  {
    [NatToString(r.id), r.owner.name, Address(r.owner), CsvText(OptText(r.owner.phone)), r.value,
     IsoDate(r.readingDate), IsoDateTime(r.createdAt, ' ')]
  }

  /** generate_csv: the header, then a row per reading in the query's order. */
  method MetersCsv(data: seq<MeterRow>) returns (table: seq<seq<string>>)
    ensures |table| == |data| + 1 && table[0] == Header
    ensures forall i :: 0 <= i < |data| ==> table[i + 1] == CsvRow(data[i])
  {
    table := [Header];
    var i := 0;
    while i < |data|
      invariant 0 <= i <= |data|
      invariant |table| == i + 1 && table[0] == Header
      invariant forall k :: 0 <= k < i ==> table[k + 1] == CsvRow(data[k])
    {
      table := table + [CsvRow(data[i])];
      i := i + 1;
    }
  }

  /** generate_xlsx's row: the id stays a number, a missing phone stays
    * None, the dates are str()'d. */
  function XlsxRow(r: MeterRow): (row: seq<Value>)
    ensures |row| == Columns
    ensures row[0] == Int(r.id) && row[3] == OptText(r.owner.phone)
  {
    [Int(r.id), Text(r.owner.name), Text(Address(r.owner)), OptText(r.owner.phone), Text(r.value),
     Text(IsoDate(r.readingDate)), Text(IsoDateTime(r.createdAt, ' '))]
  }

  function HeaderRow(): (row: seq<Value>)
    ensures |row| == Columns
    ensures row[0] == Text("ID")
  {
    seq(Columns, j requires 0 <= j < Columns => Text(Header[j]))
  }

  /** The sheet of a query result: the header row, then one row per
    * reading in the query's order. */
  predicate IsSheetOf(table: seq<seq<Value>>, data: seq<MeterRow>)
  {
    && |table| == |data| + 1 && table[0] == HeaderRow()
    && forall k :: 0 <= k < |data| ==> table[k + 1] == XlsxRow(data[k])
  }

  /** A query result has exactly one sheet. */
  lemma SheetIsUnique(t1: seq<seq<Value>>, t2: seq<seq<Value>>, data: seq<MeterRow>)
    requires IsSheetOf(t1, data) && IsSheetOf(t2, data)
    ensures t1 == t2
  {
    forall i | 0 <= i < |t1| ensures t1[i] == t2[i] {
      if i > 0 {
        assert t1[i] == XlsxRow(data[i - 1]);
      }
    }
  }

  predicate Rectangular(table: seq<seq<Value>>, n: nat)
  {
    forall i :: 0 <= i < |table| ==> |table[i]| == n
  }

  lemma SheetRectangular(table: seq<seq<Value>>, data: seq<MeterRow>)
    requires IsSheetOf(table, data)
    ensures Rectangular(table, Columns)
  {
    forall i | 0 <= i < |table| ensures |table[i]| == Columns {
      if i > 0 {
        assert table[i] == XlsxRow(data[i - 1]);
      }
    }
  }

  /** Column `j` of a table whose rows all have it (one of `ws.columns`). */
  function ColumnOf(table: seq<seq<Value>>, j: nat): (c: seq<Value>)
    requires forall i :: 0 <= i < |table| ==> j < |table[i]|
    ensures |c| == |table|
    ensures forall i :: 0 <= i < |table| ==> c[i] == table[i][j]
  {
    seq(|table|, i requires 0 <= i < |table| => table[i][j])
  }

  /** The texts among the cells, in order: `len(cell.value)` raises for
    * anything else and the error is swallowed, so only these can widen a
    * column. */
  function StrCells(cells: seq<Value>): (r: seq<string>)
    ensures |r| <= |cells|
  {
    if |cells| == 0 then []
    else
      var last := cells[|cells| - 1];
      StrCells(cells[..|cells| - 1]) + (if last.Text? then [last.s] else [])
  }

  lemma StrCellsStep(cells: seq<Value>, i: nat)
    requires i < |cells|
    ensures StrCells(cells[..i + 1]) == StrCells(cells[..i]) + (if cells[i].Text? then [cells[i].s] else [])
  {
    assert cells[..i + 1][..i] == cells[..i];
  }

  /** The width loop over one column, with its try/except. */
  method ColumnWidth(cells: seq<Value>) returns (width: nat)
    ensures width == ExportTickets.Width(StrCells(cells))
  {
    var maxLength := 0;
    var i := 0;
    while i < |cells|
      invariant 0 <= i <= |cells|
      invariant maxLength == ExportTickets.MaxLen(StrCells(cells[..i]))
    {
      StrCellsStep(cells, i);
      var texts := StrCells(cells[..i]);
      if cells[i].Text? {
        assert texts + [cells[i].s] == StrCells(cells[..i + 1]);
        ExportTickets.MaxLenStep(texts + [cells[i].s], |texts|);
        assert (texts + [cells[i].s])[..|texts|] == texts;
        assert (texts + [cells[i].s])[..|texts| + 1] == texts + [cells[i].s];
        if |cells[i].s| > maxLength {
          maxLength := |cells[i].s|;
        }
      } else {
        assert StrCells(cells[..i + 1]) == texts;
      }
      i := i + 1;
    }
    assert cells[..i] == cells;
    width := MeterReminder.Min(maxLength + 2, 50);
  }

  /** Only text cells count. */
  lemma {:induction false} StrCellsMembers(cells: seq<Value>)
    ensures forall s :: s in StrCells(cells) <==> Text(s) in cells
  {
    if |cells| > 0 {
      StrCellsMembers(cells[..|cells| - 1]);
      assert cells == cells[..|cells| - 1] + [cells[|cells| - 1]];
    }
  }

  /** Below its header the ID column holds only numbers. */
  lemma IdCellsAreNumbers(table: seq<seq<Value>>, data: seq<MeterRow>)
    requires IsSheetOf(table, data)
    ensures Rectangular(table, Columns)
    ensures var c := ColumnOf(table, 0);
      c[0] == Text("ID") && forall i :: 1 <= i < |c| ==> c[i] == Int(data[i - 1].id)
  {
    SheetRectangular(table, data);
    var c := ColumnOf(table, 0);
    forall i | 1 <= i < |c| ensures c[i] == Int(data[i - 1].id) {
      assert c[i] == table[i][0] == XlsxRow(data[i - 1])[0];
    }
    assert c[0] == HeaderRow()[0];
  }

  /** The ID column's width is that of "ID" alone whatever the ids are. */
  lemma IdColumnWidth(table: seq<seq<Value>>, data: seq<MeterRow>)
    requires IsSheetOf(table, data)
    ensures Rectangular(table, Columns)
    ensures ExportTickets.Width(StrCells(ColumnOf(table, 0))) == 4
  {
    IdCellsAreNumbers(table, data);
    NumbersUnderTextWidth(ColumnOf(table, 0), "ID");
  }

  /** A column whose only text is its header is as wide as the header. */
  lemma NumbersUnderTextWidth(c: seq<Value>, head: string)
    requires |c| > 0 && c[0] == Text(head) && |head| <= 48
    requires forall i :: 1 <= i < |c| ==> c[i].Int?
    ensures ExportTickets.Width(StrCells(c)) == |head| + 2
  {
    StrCellsMembers(c);
    var texts := StrCells(c);
    forall s | s in texts ensures s == head {
      var i :| 0 <= i < |c| && c[i] == Text(s);
    }
    assert head in texts;
    ExportTickets.MaxLenIsLongest(texts);
  }

  /** The rows ws.append adds: the header, then each reading in order. */
  method XlsxSheet(data: seq<MeterRow>) returns (table: seq<seq<Value>>)
    ensures IsSheetOf(table, data)
  {
    table := [HeaderRow()];
    var i := 0;
    while i < |data|
      invariant 0 <= i <= |data|
      invariant |table| == i + 1 && table[0] == HeaderRow()
      invariant forall k :: 0 <= k < i ==> table[k + 1] == XlsxRow(data[k])
    {
      table := table + [XlsxRow(data[i])];
      i := i + 1;
    }
  }

  /** The width loop over `ws.columns`: one width per column, in order. */
  method ColumnWidths(table: seq<seq<Value>>, n: nat) returns (widths: seq<nat>)
    requires Rectangular(table, n)
    ensures |widths| == n
    ensures forall j :: 0 <= j < n ==> widths[j] == ExportTickets.Width(StrCells(ColumnOf(table, j)))
  {
    widths := [];
    var j := 0;
    while j < n
      invariant 0 <= j <= n
      invariant |widths| == j
      invariant forall k :: 0 <= k < j ==> widths[k] == ExportTickets.Width(StrCells(ColumnOf(table, k)))
    {
      var w := ColumnWidth(ColumnOf(table, j));
      widths := widths + [w];
      j := j + 1;
    }
  }

  /** generate_xlsx: the sheet and the widths of its seven columns. */
  method MetersXlsx(data: seq<MeterRow>) returns (table: seq<seq<Value>>, widths: seq<nat>)
    ensures IsSheetOf(table, data) && Rectangular(table, Columns)
    ensures |widths| == Columns
    ensures forall j :: 0 <= j < Columns ==> widths[j] == ExportTickets.Width(StrCells(ColumnOf(table, j)))
  {
    table := XlsxSheet(data);
    SheetRectangular(table, data);
    widths := ColumnWidths(table, Columns);
  }

  // ---------- generate_json ----------

  /** A date or datetime becomes its isoformat(); everything else is kept. */
  function Iso(v: Value): Value
  {
    match v
    case DateValue(d) => Text(IsoDate(d))
    case DateTimeValue(t) => Text(IsoDateTime(t, 'T'))
    case _ => v
  }

  /** No date survives, everything else is untouched, and a second pass
    * changes nothing. */
  lemma IsoMeaning(v: Value)
    ensures !Iso(v).DateValue? && !Iso(v).DateTimeValue?
    ensures !v.DateValue? && !v.DateTimeValue? ==> Iso(v) == v
    ensures v.DateValue? ==> Iso(v) == Text(IsoDate(v.d))
    ensures Iso(Iso(v)) == Iso(v)
  {
  }

  /** generate_json's inner loop: json_row[key] reassigned in place. */
  method IsoRow(row: seq<(string, Value)>) returns (out: seq<(string, Value)>)
    ensures |out| == |row|
    ensures forall k :: 0 <= k < |row| ==> out[k] == (row[k].0, Iso(row[k].1))
  {
    out := row;
    var k := 0;
    while k < |out|
      invariant 0 <= k <= |out| && |out| == |row|
      invariant forall m :: 0 <= m < k ==> out[m] == (row[m].0, Iso(row[m].1))
      invariant forall m :: k <= m < |out| ==> out[m] == row[m]
    {
      var (key, value) := out[k];
      if value.DateValue? || value.DateTimeValue? {
        out := out[k := (key, Iso(value))];
      }
      k := k + 1;
    }
  }

  /** generate_json: every row copied with its dates converted. */
  method JsonRows(data: seq<seq<(string, Value)>>) returns (out: seq<seq<(string, Value)>>)
    ensures |out| == |data|
    ensures forall i :: 0 <= i < |data| ==> |out[i]| == |data[i]|
    ensures forall i, k :: 0 <= i < |data| && 0 <= k < |data[i]| ==> out[i][k] == (data[i][k].0, Iso(data[i][k].1))
  {
    out := [];
    var i := 0;
    while i < |data|
      invariant 0 <= i <= |data| && |out| == i
      invariant forall m :: 0 <= m < i ==> |out[m]| == |data[m]|
      invariant forall m, k :: 0 <= m < i && 0 <= k < |data[m]| ==> out[m][k] == (data[m][k].0, Iso(data[m][k].1))
    {
      var row := IsoRow(data[i]);
      out := out + [row];
      i := i + 1;
    }
  }

  // ---------- export_generate_file ----------

  datatype ExportStep = SelectType | SelectPeriod | SelectMonth | SelectFormat

  datatype MeterFile =
    | CsvFile(name: string, table: seq<seq<string>>)
    | XlsxFile(name: string, sheet: seq<seq<Value>>, widths: seq<nat>)
    | JsonFile(name: string, rows: seq<seq<(string, Value)>>)

  /** What the admin sees: no data, the file sent with its record count, or
    * the failure message. */
  datatype Outcome = NoData | Sent(file: MeterFile, records: nat) | Failed

  function RowDicts(data: seq<MeterRow>): (r: seq<seq<(string, Value)>>)
    ensures |r| == |data|
    ensures forall i :: 0 <= i < |data| ==> r[i] == RowDict(data[i])
  {
    seq(|data|, i requires 0 <= i < |data| => RowDict(data[i]))
  }

  class ExportDialog {
    var step: Option<ExportStep>

    constructor()
      ensures step == None
    {
      step := None;
    }

    /** The export callback, given the rows the query returned: nothing to
      * send without rows; "csv", "xlsx" or "json" produce that file, any
      * other format fails; the dialogue ends in every case. */
    method GenerateFile(meterType: string, period: string, format: string, cbMonth: int, cbYear: int,
                        data: seq<MeterRow>) returns (outcome: Outcome)
      modifies this`step
      ensures step == None
      ensures outcome.NoData? <==> data == []
      ensures outcome.Failed? <==> data != [] && format != "csv" && format != "xlsx" && format != "json"
      ensures outcome.Sent? ==>
        var name := MetersFileName(meterType, period, Chosen(cbMonth), Chosen(cbYear));
        && outcome.records == |data|
        && (format == "csv" ==> (outcome.file.CsvFile? && outcome.file.name == name + ".csv"
              && |outcome.file.table| == |data| + 1 && outcome.file.table[0] == Header
              && forall i :: 0 <= i < |data| ==> outcome.file.table[i + 1] == CsvRow(data[i])))
        && (format == "xlsx" ==> (outcome.file.XlsxFile? && outcome.file.name == name + ".xlsx"
              && IsSheetOf(outcome.file.sheet, data) && Rectangular(outcome.file.sheet, Columns)
              && |outcome.file.widths| == Columns
              && forall j :: 0 <= j < Columns ==>
                   outcome.file.widths[j] == ExportTickets.Width(StrCells(ColumnOf(outcome.file.sheet, j)))))
        && (format == "json" ==> (outcome.file.JsonFile? && outcome.file.name == name + ".json"
              && |outcome.file.rows| == |data|
              && (forall i :: 0 <= i < |data| ==> |outcome.file.rows[i]| == |RowDict(data[i])|)
              && forall i, k :: 0 <= i < |data| && 0 <= k < |RowDict(data[i])| ==>
                   outcome.file.rows[i][k] == (RowDict(data[i])[k].0, Iso(RowDict(data[i])[k].1))))
    {
      step := None;
      var month, year := Chosen(cbMonth), Chosen(cbYear);
      if data == [] {
        return NoData;
      }
      var name := MetersFileName(meterType, period, month, year);
      if format == "csv" {
        var table := MetersCsv(data);
        outcome := Sent(CsvFile(name + ".csv", table), |data|);
      } else if format == "xlsx" {
        var table, widths := MetersXlsx(data);
        outcome := Sent(XlsxFile(name + ".xlsx", table, widths), |data|);
      } else if format == "json" {
        var rows := JsonRows(RowDicts(data));
        outcome := Sent(JsonFile(name + ".json", rows), |data|);
      } else {
        outcome := Failed;
      }
    }
  }
}
