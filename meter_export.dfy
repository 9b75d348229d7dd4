// The monthly cold-water export task: when it runs (the configured day at
// the configured local time, by the same arithmetic as the reminder task)
// and what one run produces.
module MeterExport {
  import opened Wrappers
  import opened Text
  import opened Calendar
  import MeterReminder

  /** METER_EXPORT_DAY, METER_EXPORT_HOUR and METER_EXPORT_MINUTE at their defaults. */
  const ExportDay := 24
  const ExportHour := 10
  const ExportMinute := 0

  /** _next_export_dt: the same computation as the reminder's _next_run_dt,
    * with the export's day and time. */
  function NextExport(now: DateTime): Option<DateTime>
    requires ValidDateTime(now)
  {
    MeterReminder.NextRun(now, ExportDay, ExportHour, ExportMinute)
  }

  /** Before the calendar's last year the next export always exists, is
    * strictly later than now, lies in this month or the next, and is the
    * 24th at 10:00:00: no month is short enough for the clamp to move it. */
  lemma NextExportIsLater(now: DateTime)
    requires ValidDateTime(now) && now.date.year < 9999
    ensures NextExport(now).Some?
    ensures var r := NextExport(now).value;
      && Before(now, r)
      && ((r.date.year, r.date.month) == (now.date.year, now.date.month)
          || (r.date.year, r.date.month) == MeterReminder.NextMonth(now.date.year, now.date.month))
      && r.date.day == ExportDay && r.hour == ExportHour && r.minute == ExportMinute && r.second == 0
  {
    MeterReminder.NextRunIsEarliestLaterSlot(now, ExportDay, ExportHour, ExportMinute);
  }

  /** cold_water_{year}_{month:02d}. */
  function ExportFileName(year: nat, month: nat): string
  {
    "cold_water_" + NatToString(year) + "_" + ZeroPad2(month)
  }

  /** Different months never share a file name. */
  lemma ExportFileNameInjective(y1: nat, m1: nat, y2: nat, m2: nat)
    requires 1 <= m1 <= 12 && 1 <= m2 <= 12
    requires ExportFileName(y1, m1) == ExportFileName(y2, m2)
    ensures y1 == y2 && m1 == m2
  {
    var n1, n2 := ExportFileName(y1, m1), ExportFileName(y2, m2);
    ZeroPad2Digits(m1);
    ZeroPad2Digits(m2);
    var p1 := "cold_water_" + NatToString(y1) + "_";
    var p2 := "cold_water_" + NatToString(y2) + "_";
    assert n1 == p1 + ZeroPad2(m1) && n2 == p2 + ZeroPad2(m2);
    assert ZeroPad2(m1) == n1[|n1| - 2..] == n2[|n2| - 2..] == ZeroPad2(m2);
    assert p1 == n1[..|n1| - 2] == n2[..|n2| - 2] == p2;
    assert NatToString(y1) == p1[11..|p1| - 1] == p2[11..|p2| - 1] == NatToString(y2);
    NatToStringDigits(y1);
    NatToStringDigits(y2);
  }

  /** A Python function's parameters, by name, of which the first
    * `required` have no default. */
  datatype Signature = Signature(params: seq<string>, required: nat)

  /** send_email(to, subject, body, attachment_path=None). */
  const SendEmailSignature := Signature(["to", "subject", "body", "attachment_path"], 3)

  /** The keywords _send_meter_export passes to send_email. */
  const MailKeywords := ["to", "subject", "body", "attachments"]

  /** A call with only keyword arguments binds when every keyword names a
    * parameter and every parameter without a default is given; otherwise
    * Python raises TypeError before the body runs. */
  predicate Binds(sig: Signature, keywords: seq<string>)
  {
    && (forall k :: k in keywords ==> k in sig.params)
    && (forall i :: 0 <= i < sig.required && i < |sig.params| ==> sig.params[i] in keywords)
  }

  /** One run of _send_meter_export: nothing at all without readings;
    * otherwise the CSV and XLSX files written, the files handed to the
    * mailer, the temporary files unlinked afterwards, and whether the run
    * raised. */
  datatype ExportRun =
    | NothingToExport
    | Exported(files: seq<string>, mailed: seq<string>, removed: seq<string>, raised: bool)

  /** The run's steps in order against a mailer with signature `sendEmail`
    * that answers `answer` once it is entered: both files are written, the
    * mailer is called with the attachments [xlsx, csv], and then each file
    * is unlinked in turn (a failed unlink is only logged). A call that does
    * not bind raises out of the run, before the unlink loop. */
  function SendMeterExport(readings: nat, year: nat, month: nat, sendEmail: Signature, answer: bool): (run: ExportRun)
    requires 1 <= month <= 12
    ensures readings == 0 <==> run.NothingToExport?
  {
    if readings == 0 then NothingToExport
    else
      var name := ExportFileName(year, month);
      var csv, xlsx := name + ".csv", name + ".xlsx";
      if !Binds(sendEmail, MailKeywords) then Exported([csv, xlsx], [], [], true)
      else Exported([csv, xlsx], [xlsx, csv], [csv, xlsx], false)
  }

  /** A run that raises has unlinked nothing, and it raises exactly when the
    * mailer's signature does not take the call's keywords. */
  lemma RaisedRunLeavesFiles(readings: nat, year: nat, month: nat, sendEmail: Signature, answer: bool)
    requires 1 <= month <= 12
    ensures var run := SendMeterExport(readings, year, month, sendEmail, answer);
      run.Exported? ==> (run.raised <==> !Binds(sendEmail, MailKeywords))
    ensures var run := SendMeterExport(readings, year, month, sendEmail, answer);
      run.Exported? && run.raised ==> run.mailed == [] && run.removed == [] && |run.files| == 2
  {
  }

  /** send_email has no `attachments` parameter, so the call as written
    * never binds. */
  lemma AttachmentsKeywordUnknown()
    ensures "attachments" !in SendEmailSignature.params
    ensures !Binds(SendEmailSignature, MailKeywords)
  {
    assert "attachments" in MailKeywords;
  }

  /** As written every month with readings raises: no export reaches the
    * mailer, whatever it would have answered, and both files stay behind. */
  lemma ExportNeverMailed(readings: nat, year: nat, month: nat, answer: bool)
    requires 1 <= month <= 12 && readings > 0
    ensures var run := SendMeterExport(readings, year, month, SendEmailSignature, answer);
      && run.Exported? && run.raised
      && run.mailed == [] && run.removed == [] && |run.files| == 2
  {
    AttachmentsKeywordUnknown();
    RaisedRunLeavesFiles(readings, year, month, SendEmailSignature, answer);
  }

  /** The mailer as the call expects it: a list of attachments in place of
    * the single path. */
  const IntendedSignature := Signature(["to", "subject", "body", "attachments"], 3)

  /** With a mailer that takes the call's keywords, every file written is
    * mailed and then unlinked, whatever the mailer answers, and every file
    * carries the month's name. */
  lemma ExportMailsWhatItWrites(readings: nat, year: nat, month: nat, sendEmail: Signature, answer: bool)
    requires 1 <= month <= 12 && readings > 0
    requires Binds(sendEmail, MailKeywords)
    ensures var run := SendMeterExport(readings, year, month, sendEmail, answer);
      && run.Exported? && !run.raised
      && multiset(run.mailed) == multiset(run.files)
      && run.removed == run.files
      && forall f :: f in run.files ==> StartsWith(f, ExportFileName(year, month))
  {
    var name := ExportFileName(year, month);
    assert (name + ".csv")[..|name|] == name;
    assert (name + ".xlsx")[..|name|] == name;
  }

  /** The intended mailer takes the call as written. */
  lemma IntendedSignatureBinds()
    ensures Binds(IntendedSignature, MailKeywords)
  {
    assert IntendedSignature.params == MailKeywords;
  }
}
