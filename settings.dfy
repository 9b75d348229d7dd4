// Configuration parsing: channel identifiers from REQUIRED_CHANNELS, the
// comma-separated day list, and the scheduling defaults.
module Settings {
  import opened Wrappers
  import opened Text

  const DefaultRemindHour := 20
  const DefaultRemindMinute := 0
  const DefaultRemindStartDay := 24
  const DefaultExportDay := 24
  const DefaultExportHour := 10
  const DefaultExportMinute := 0

  /** A channel reference: an "@username" or a numeric chat id. */
  datatype Channel = Username(name: string) | ChatId(id: int)

  /** _coerce_channel: blank gives nothing; "@..." is kept; an integer
    * literal becomes a chat id; a bare name made of letters, digits and
    * underscores gets an "@" in front; anything else gives nothing. */
  function CoerceChannel(raw: string): Option<Channel>
  {
    var s := Strip(raw);
    if |s| == 0 then None
    else if s[0] == '@' then Some(Username(s))
    else if PyInt(s).Some? then Some(ChatId(PyInt(s).value))
    else if IsAlnumWord(RemoveChar(s, '_')) then Some(Username("@" + s))
    else None
  }

  /** str.isalnum(): non-empty, letters and digits only. */
  predicate IsAlnumWord(s: string)
  {
    |s| > 0 && forall i :: 0 <= i < |s| ==> IsAlnum(s[i])
  }

  /** The text form of a channel, as it would be written in the setting. */
  function ChannelText(c: Channel): string
  {
    match c
    case Username(n) => n
    case ChatId(id) => IntToString(id)
  }

  /** Coercion is idempotent: writing back what it produced and coercing
    * again gives the same channel. */
  lemma CoerceChannelIdempotent(raw: string)
    requires CoerceChannel(raw).Some?
    ensures CoerceChannel(ChannelText(CoerceChannel(raw).value)) == CoerceChannel(raw)
  {
    var s := Strip(raw);
    LStripShape(raw);
    RStripShape(LStrip(raw));
    match CoerceChannel(raw).value
    case Username(n) =>
      if s[0] == '@' {
        StripNoSpaceEnds(s);
      } else {
        assert n == "@" + s;
        assert n[|n| - 1] == s[|s| - 1];
        StripNoSpaceEnds(n);
      }
    case ChatId(id) =>
      PyIntOfIntToString(id);
      IntToStringShape(id);
      StripNoSpaceEnds(IntToString(id));
  }

  lemma IntToStringShape(n: int)
    ensures |IntToString(n)| > 0
    ensures IntToString(n)[0] != '@' && !IsSpace(IntToString(n)[0])
    ensures !IsSpace(IntToString(n)[|IntToString(n)| - 1])
  {
    var m: nat := if n < 0 then -n else n;
    NatToStringDigits(m);
    var d := NatToString(m);
    if n < 0 {
      assert IntToString(n) == "-" + d;
      assert IntToString(n)[|IntToString(n)| - 1] == d[|d| - 1];
    }
  }

  /** REQUIRED_CHANNELS: the coercible entries, in order. */
  function RequiredChannels(raw: seq<string>): seq<Channel>
  {
    if |raw| == 0 then []
    else
      var rest := RequiredChannels(raw[1..]);
      match CoerceChannel(raw[0])
      case Some(c) => [c] + rest
      case None => rest
  }

  /** A channel is required exactly when some configured entry coerces to it. */
  lemma {:induction false} RequiredChannelsMembers(raw: seq<string>, c: Channel)
    ensures c in RequiredChannels(raw) <==> exists i :: 0 <= i < |raw| && CoerceChannel(raw[i]) == Some(c)
  {
    if |raw| > 0 {
      RequiredChannelsMembers(raw[1..], c);
      if exists i :: 0 <= i < |raw[1..]| && CoerceChannel(raw[1..][i]) == Some(c) {
        var i :| 0 <= i < |raw[1..]| && CoerceChannel(raw[1..][i]) == Some(c);
        assert CoerceChannel(raw[i + 1]) == Some(c);
      }
      if exists i :: 0 <= i < |raw| && CoerceChannel(raw[i]) == Some(c) {
        var i :| 0 <= i < |raw| && CoerceChannel(raw[i]) == Some(c);
        if i > 0 { assert CoerceChannel(raw[1..][i - 1]) == Some(c); }
      }
    }
  }

  /** The values of the non-blank pieces, or ValueError from int(). */
  function DaysOfPieces(pieces: seq<string>): Result<seq<int>, string>
  {
    if |pieces| == 0 then Ok([])
    else
      var p := Strip(pieces[0]);
      var rest := DaysOfPieces(pieces[1..]);
      if |p| == 0 then rest
      else if PyInt(p).None? then Err("ValueError")
      else if rest.Err? then rest
      else Ok([PyInt(p).value] + rest.value)
  }

  /** _parse_days_csv: split on ",", strip each piece, skip blank ones and
    * read the rest as integers; a piece int() rejects raises ValueError. */
  method ParseDaysCsv(raw: string) returns (r: Result<seq<int>, string>)
    ensures r == DaysOfPieces(Split(raw, ','))
  {
    var pieces := Split(raw, ',');
    var out: seq<int> := [];
    var i := 0;
    assert pieces[0..] == pieces;
    assert Combine(out, DaysOfPieces(pieces)) == DaysOfPieces(pieces) by {
      var x := DaysOfPieces(pieces);
      if x.Ok? { assert out + x.value == x.value; }
    }
    while i < |pieces|
      invariant 0 <= i <= |pieces|
      invariant DaysOfPieces(pieces) == Combine(out, DaysOfPieces(pieces[i..]))
    {
      assert pieces[i..][1..] == pieces[i + 1..] && pieces[i..][0] == pieces[i];
      CombineStep(out, pieces[i..]);
      var p := Strip(pieces[i]);
      if |p| > 0 {
        var v := PyInt(p);
        if v.None? {
          return Err("ValueError");
        }
        out := out + [v.value];
      }
      i := i + 1;
    }
    assert pieces[i..] == [] && out + [] == out;
    r := Ok(out);
  }

  /** `done` followed by what the remaining pieces give. */
  function Combine(done: seq<int>, rest: Result<seq<int>, string>): Result<seq<int>, string>
  {
    if rest.Err? then rest else Ok(done + rest.value)
  }

  lemma CombineStep(out: seq<int>, ps: seq<string>)
    requires |ps| > 0
    ensures var p := Strip(ps[0]);
      && (|p| == 0 ==> Combine(out, DaysOfPieces(ps)) == Combine(out, DaysOfPieces(ps[1..])))
      && (|p| > 0 && PyInt(p).None? ==> Combine(out, DaysOfPieces(ps)) == Err("ValueError"))
      && (|p| > 0 && PyInt(p).Some? ==>
            Combine(out, DaysOfPieces(ps)) == Combine(out + [PyInt(p).value], DaysOfPieces(ps[1..])))
  {
    var p := Strip(ps[0]);
    var rest := DaysOfPieces(ps[1..]);
    if |p| > 0 && PyInt(p).Some? && rest.Ok? {
      assert out + ([PyInt(p).value] + rest.value) == (out + [PyInt(p).value]) + rest.value;
    }
  }

  /** Writing a list of days with "," and parsing it back gives the list. */
  lemma {:induction false} DaysCsvRoundTrip(days: seq<int>)
    requires |days| > 0
    ensures DaysOfPieces(Split(Join(Rendered(days), ','), ',')) == Ok(days)
  {
    RenderedHasNoComma(days);
    SplitJoin(Rendered(days), ',');
    RenderedDays(days);
  }

  function Rendered(days: seq<int>): (r: seq<string>)
    ensures |r| == |days|
  {
    if |days| == 0 then [] else [IntToString(days[0])] + Rendered(days[1..])
  }

  lemma {:induction false} RenderedHasNoComma(days: seq<int>)
    ensures forall j :: 0 <= j < |Rendered(days)| ==> ',' !in Rendered(days)[j]
  {
    if |days| > 0 {
      RenderedHasNoComma(days[1..]);
      IntToStringNoComma(days[0]);
      forall j | 0 <= j < |Rendered(days)| ensures ',' !in Rendered(days)[j] {
        if j > 0 { assert Rendered(days)[j] == Rendered(days[1..])[j - 1]; }
      }
    }
  }

  lemma IntToStringNoComma(n: int)
    ensures ',' !in IntToString(n)
  {
    var m: nat := if n < 0 then -n else n;
    NatToStringDigits(m);
    var d := NatToString(m);
    var s := IntToString(n);
    forall k | 0 <= k < |s| ensures s[k] != ',' {
      if n < 0 {
        assert s == "-" + d;
        if k > 0 { assert s[k] == d[k - 1]; }
      } else {
        assert s[k] == d[k];
      }
    }
  }

  lemma {:induction false} RenderedDays(days: seq<int>)
    ensures DaysOfPieces(Rendered(days)) == Ok(days)
  {
    if |days| > 0 {
      RenderedDays(days[1..]);
      var s := IntToString(days[0]);
      IntToStringShape(days[0]);
      StripNoSpaceEnds(s);
      PyIntOfIntToString(days[0]);
      var pieces := Rendered(days);
      assert pieces[0] == s && pieces[1..] == Rendered(days[1..]);
      assert Strip(pieces[0]) == s;
      assert DaysOfPieces(pieces) == Ok([days[0]] + days[1..]);
      assert [days[0]] + days[1..] == days;
    }
  }
}
