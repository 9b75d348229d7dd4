// String helpers with Python's semantics, restricted to ASCII and Cyrillic
// characters: whitespace and strip(), str.split(sep), str.split() for the
// first word, str.lower(), str.isdigit(), int() and the decimal rendering
// of integers.
module Text {
  import opened Wrappers

  /** Python's str.isspace() on the ASCII range (it includes \x1c..\x1f). */
  predicate IsSpace(c: char)
  {
    c == ' ' || c == '\t' || c == '\n' || c == '\r' || c == '\U{000B}' || c == '\U{000C}'
    || ('\U{001C}' <= c <= '\U{001F}')
  }

  predicate IsDigit(c: char) { '0' <= c <= '9' }

  predicate IsLatinLetter(c: char) { 'a' <= c <= 'z' || 'A' <= c <= 'Z' }

  /** Cyrillic letters а-я, А-Я, ё, Ё. */
  predicate IsCyrillicLetter(c: char)
  {
    'А' <= c <= 'я' || c == 'Ё' || c == 'ё'
  }

  predicate IsLetter(c: char) { IsLatinLetter(c) || IsCyrillicLetter(c) }

  /** str.isalnum() on one character. */
  predicate IsAlnum(c: char) { IsLetter(c) || IsDigit(c) }

  /** str.isdigit(): non-empty and every character a digit. */
  predicate AllDigits(s: string)
  {
    |s| > 0 && forall i :: 0 <= i < |s| ==> IsDigit(s[i])
  }

  function LStrip(s: string): string
  {
    if |s| > 0 && IsSpace(s[0]) then LStrip(s[1..]) else s
  }

  function RStrip(s: string): string
  {
    if |s| > 0 && IsSpace(s[|s| - 1]) then RStrip(s[..|s| - 1]) else s
  }

  /** str.strip() with no argument. */
  function Strip(s: string): string
  {
    RStrip(LStrip(s))
  }

  lemma {:induction false} LStripShape(s: string)
    ensures exists k :: 0 <= k <= |s| && LStrip(s) == s[k..]
                        && (forall i :: 0 <= i < k ==> IsSpace(s[i]))
    ensures LStrip(s) == [] || !IsSpace(LStrip(s)[0])
  {
    if |s| > 0 && IsSpace(s[0]) {
      LStripShape(s[1..]);
      var k :| 0 <= k <= |s[1..]| && LStrip(s[1..]) == s[1..][k..]
                && (forall i :: 0 <= i < k ==> IsSpace(s[1..][i]));
      assert LStrip(s) == s[k + 1..];
      assert forall i :: 0 <= i < k + 1 ==> IsSpace(s[i]) by {
        forall i | 0 <= i < k + 1 ensures IsSpace(s[i]) {
          if i > 0 { assert s[i] == s[1..][i - 1]; }
        }
      }
    } else {
      assert LStrip(s) == s[0..];
    }
  }

  lemma {:induction false} RStripShape(s: string)
    ensures exists k :: 0 <= k <= |s| && RStrip(s) == s[..k]
                        && (forall i :: k <= i < |s| ==> IsSpace(s[i]))
    ensures RStrip(s) == [] || !IsSpace(RStrip(s)[|RStrip(s)| - 1])
  {
    if |s| > 0 && IsSpace(s[|s| - 1]) {
      var p := s[..|s| - 1];
      RStripShape(p);
      var k :| 0 <= k <= |p| && RStrip(p) == p[..k]
                && (forall i :: k <= i < |p| ==> IsSpace(p[i]));
      assert RStrip(s) == s[..k];
      assert forall i :: k <= i < |s| ==> IsSpace(s[i]) by {
        forall i | k <= i < |s| ensures IsSpace(s[i]) {
          if i < |s| - 1 { assert s[i] == p[i]; }
        }
      }
    } else {
      assert RStrip(s) == s[..|s|];
    }
  }

  /** A string with no whitespace at either end is its own strip(). */
  lemma StripNoSpaceEnds(s: string)
    requires s == [] || (!IsSpace(s[0]) && !IsSpace(s[|s| - 1]))
    ensures Strip(s) == s
  {
  }

  /** str.split(sep): Python keeps empty pieces and always yields at least one. */
  function Split(s: string, sep: char): (r: seq<string>)
    ensures |r| >= 1
    decreases |s|
  {
    if |s| == 0 then [""]
    else if s[0] == sep then [""] + Split(s[1..], sep)
    else
      var t := Split(s[1..], sep);
      [[s[0]] + t[0]] + t[1..]
  }

  /** sep.join(parts). */
  function Join(parts: seq<string>, sep: char): string
  {
    if |parts| == 0 then ""
    else if |parts| == 1 then parts[0]
    else parts[0] + [sep] + Join(parts[1..], sep)
  }

  /** No piece of a split contains the separator. */
  lemma {:induction false} SplitPiecesFree(s: string, sep: char)
    ensures forall j :: 0 <= j < |Split(s, sep)| ==> sep !in Split(s, sep)[j]
    decreases |s|
  {
    if |s| > 0 {
      SplitPiecesFree(s[1..], sep);
    }
  }

  /** Joining the pieces of a split gives back the string. */
  lemma {:induction false} JoinSplit(s: string, sep: char)
    ensures Join(Split(s, sep), sep) == s
    decreases |s|
  {
    if |s| > 0 {
      JoinSplit(s[1..], sep);
      var t := Split(s[1..], sep);
      if s[0] != sep {
        if |t| > 1 {
          assert ([[s[0]] + t[0]] + t[1..])[1..] == t[1..];
        }
      }
    }
  }

  /** Splitting a join of separator-free pieces gives the pieces back. */
  lemma {:induction false} SplitJoin(parts: seq<string>, sep: char)
    requires |parts| >= 1
    requires forall j :: 0 <= j < |parts| ==> sep !in parts[j]
    ensures Split(Join(parts, sep), sep) == parts
    decreases |parts|, |parts[0]|
  {
    var p := parts[0];
    if |p| == 0 {
      if |parts| > 1 {
        SplitJoin(parts[1..], sep);
        assert Join(parts, sep) == [sep] + Join(parts[1..], sep);
        assert ([sep] + Join(parts[1..], sep))[1..] == Join(parts[1..], sep);
      }
    } else {
      var rest := [p[1..]] + parts[1..];
      assert rest[1..] == parts[1..];
      SplitJoin(rest, sep);
      var j := Join(rest, sep);
      if |parts| == 1 {
        assert Join(parts, sep) == p == [p[0]] + j;
      } else {
        assert Join(parts, sep) == p + [sep] + Join(parts[1..], sep);
        assert j == p[1..] + [sep] + Join(parts[1..], sep);
        assert Join(parts, sep) == [p[0]] + j;
      }
      assert p[0] != sep by { assert p[0] in p; }
      var whole := [p[0]] + j;
      assert whole[1..] == j;
      assert Split(whole, sep) == [[p[0]] + rest[0]] + rest[1..];
      assert [p[0]] + p[1..] == p;
    }
  }

  function DigitChar(d: nat): char
    requires d < 10
  {
    ('0' as int + d) as char
  }

  function DigitValue(c: char): nat
    requires IsDigit(c)
  {
    c as int - '0' as int
  }

  /** str(n) for a non-negative integer. */
  function NatToString(n: nat): string
  {
    if n < 10 then [DigitChar(n)] else NatToString(n / 10) + [DigitChar(n % 10)]
  }

  /** f"{n}" for any integer. */
  function IntToString(n: int): string
  {
    if n < 0 then "-" + NatToString(-n) else NatToString(n)
  }

  /** The value of a run of decimal digits (leading zeros allowed). */
  function DigitsValue(s: string): nat
    requires forall i :: 0 <= i < |s| ==> IsDigit(s[i])
  {
    if |s| == 0 then 0 else DigitsValue(s[..|s| - 1]) * 10 + DigitValue(s[|s| - 1])
  }

  lemma {:induction false} NatToStringDigits(n: nat)
    ensures AllDigits(NatToString(n))
    ensures DigitsValue(NatToString(n)) == n
  {
    if n >= 10 {
      NatToStringDigits(n / 10);
      var s := NatToString(n);
      assert s[..|s| - 1] == NatToString(n / 10);
    }
  }

  /** The characters of `s` that are digits, in order (re.sub(r"\D", "", s)). */
  function DigitsOf(s: string): (r: string)
    ensures forall i :: 0 <= i < |r| ==> IsDigit(r[i])
    ensures |r| <= |s|
  {
    if |s| == 0 then ""
    else if IsDigit(s[0]) then [s[0]] + DigitsOf(s[1..])
    else DigitsOf(s[1..])
  }

  /** A string made only of digits is its own digit filter. */
  lemma {:induction false} DigitsOfDigits(s: string)
    requires forall i :: 0 <= i < |s| ==> IsDigit(s[i])
    ensures DigitsOf(s) == s
  {
    if |s| > 0 { DigitsOfDigits(s[1..]); }
  }

  /** Digits grouped by single underscores, as int() accepts them: "1_000". */
  predicate UnderscoredDigits(s: string)
  {
    |s| > 0 && IsDigit(s[0]) && IsDigit(s[|s| - 1])
    && (forall i :: 0 <= i < |s| ==> IsDigit(s[i]) || s[i] == '_')
    && (forall i :: 0 <= i < |s| - 1 ==> !(s[i] == '_' && s[i + 1] == '_'))
  }

  function RemoveUnderscores(s: string): (r: string)
    ensures (forall i :: 0 <= i < |s| ==> IsDigit(s[i]) || s[i] == '_')
            ==> (forall i :: 0 <= i < |r| ==> IsDigit(r[i]))
  {
    if |s| == 0 then "" else if s[0] == '_' then RemoveUnderscores(s[1..])
    else [s[0]] + RemoveUnderscores(s[1..])
  }

  /** Python's int(s) on text: surrounding whitespace, an optional sign,
    * digits with single underscores between them; `None` is ValueError. */
  function PyInt(s: string): (r: Option<int>)
  {
    SignedDigits(Strip(s))
  }

  /** The part of int() after the whitespace is stripped. */
  function SignedDigits(t: string): Option<int>
  {
    if |t| == 0 then None
    else
      var negative := t[0] == '-';
      var body := if t[0] == '-' || t[0] == '+' then t[1..] else t;
      if !UnderscoredDigits(body) then None
      else
        var v: int := DigitsValue(RemoveUnderscores(body));
        Some(if negative then -v else v)
  }

  /** int(str(n)) == n. */
  lemma PyIntOfIntToString(n: int)
    ensures PyInt(IntToString(n)) == Some(n)
  {
    var m: nat := if n < 0 then -n else n;
    NatToStringDigits(m);
    PyIntOfSignedDigits(n < 0, NatToString(m));
    if n >= 0 {
      assert IntToString(n) == "" + NatToString(m);
    }
  }

  lemma PyIntOfSignedDigits(negative: bool, d: string)
    requires AllDigits(d)
    ensures PyInt((if negative then "-" else "") + d)
            == Some(if negative then -(DigitsValue(d) as int) else DigitsValue(d))
  {
    var s := (if negative then "-" else "") + d;
    assert s[|s| - 1] == d[|d| - 1];
    StripNoSpaceEnds(s);
    if negative {
      SignedDigitsOfNegative(d);
    } else {
      assert s == d;
      SignedDigitsOfDigits(d);
    }
  }

  lemma SignedDigitsOfDigits(d: string)
    requires AllDigits(d)
    ensures SignedDigits(d) == Some(DigitsValue(d) as int)
  {
    DigitsOfNoUnderscore(d);
    assert IsDigit(d[0]);
  }

  lemma SignedDigitsOfNegative(d: string)
    requires AllDigits(d)
    ensures SignedDigits("-" + d) == Some(-(DigitsValue(d) as int))
  {
    DigitsOfNoUnderscore(d);
    var s := "-" + d;
    assert s[0] == '-' && s[1..] == d;
    NegativeSignedDigits(s);
  }

  lemma NegativeSignedDigits(t: string)
    requires |t| > 0 && t[0] == '-' && UnderscoredDigits(t[1..])
    ensures SignedDigits(t) == Some(-(DigitsValue(RemoveUnderscores(t[1..])) as int))
  {
  }

  lemma {:induction false} DigitsOfNoUnderscore(s: string)
    requires AllDigits(s)
    ensures UnderscoredDigits(s)
    ensures RemoveUnderscores(s) == s
  {
    NoUnderscoreIdentity(s);
  }

  lemma {:induction false} NoUnderscoreIdentity(s: string)
    requires forall i :: 0 <= i < |s| ==> IsDigit(s[i])
    ensures RemoveUnderscores(s) == s
  {
    if |s| > 0 { NoUnderscoreIdentity(s[1..]); }
  }

  /** f"{n:02d}" for a non-negative number. */
  function ZeroPad2(n: nat): string
  {
    if n < 10 then "0" + NatToString(n) else NatToString(n)
  }

  /** "".join(parts). */
  function Concat(parts: seq<string>): string
  {
    if |parts| == 0 then "" else parts[0] + Concat(parts[1..])
  }

  /** f"{n:02d}" for any integer: the sign counts towards the width. */
  function Format02d(n: int): string
  {
    if n >= 0 then ZeroPad2(n) else IntToString(n)
  }

  /** Below 100 the padded form is exactly two digits worth `n`. */
  lemma ZeroPad2Digits(n: nat)
    requires n < 100
    ensures |ZeroPad2(n)| == 2
    ensures AllDigits(ZeroPad2(n)) && DigitsValue(ZeroPad2(n)) == n
  {
    var z := ZeroPad2(n);
    if n < 10 {
      assert z == ['0', DigitChar(n)];
      assert z[..1] == ['0'];
      assert DigitsValue(z[..1]) == DigitsValue([]) * 10 + 0;
    } else {
      assert NatToString(n / 10) == [DigitChar(n / 10)];
      assert z == [DigitChar(n / 10), DigitChar(n % 10)];
      NatToStringDigits(n);
    }
  }

  /** str.lower() on one ASCII or Cyrillic character. */
  function LowerChar(c: char): char
  {
    if 'A' <= c <= 'Z' then (c as int + 32) as char
    else if 'А' <= c <= 'Я' then (c as int + 32) as char
    else if c == 'Ё' then 'ё'
    else c
  }

  function Lower(s: string): (r: string)
    ensures |r| == |s|
    ensures forall i :: 0 <= i < |s| ==> r[i] == LowerChar(s[i])
  {
    if |s| == 0 then "" else [LowerChar(s[0])] + Lower(s[1..])
  }

  /** str.lstrip(c): drop every leading `c`. */
  function LStripChar(s: string, c: char): string
  {
    if |s| > 0 && s[0] == c then LStripChar(s[1..], c) else s
  }

  /** The run of non-space characters at the head of `s`. */
  function TakeWord(s: string): string
  {
    if |s| == 0 || IsSpace(s[0]) then "" else [s[0]] + TakeWord(s[1..])
  }

  /** str.split()[0]; `None` where Python raises IndexError (no word at all). */
  function FirstWord(s: string): Option<string>
  {
    var t := LStrip(s);
    if |t| == 0 then None else Some(TakeWord(t))
  }

  predicate StartsWith(s: string, prefix: string)
  {
    |prefix| <= |s| && s[..|prefix|] == prefix
  }

  /** s.replace(old, "") for a one-character `old`. */
  function RemoveChar(s: string, c: char): (r: string)
    ensures c !in r
  {
    if |s| == 0 then "" else if s[0] == c then RemoveChar(s[1..], c)
    else [s[0]] + RemoveChar(s[1..], c)
  }
}
