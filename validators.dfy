// Input validators of the registration dialogue: phone, house, apartment
// and street. The regular expressions' character classes are restricted to
// ASCII and Cyrillic; `\s` is the whitespace of `str.strip()`.
module Validators {
  import opened Text

  /** is_valid_phone: exactly 11 digits once every non-digit is dropped. */
  predicate IsValidPhone(text: string)
  {
    |DigitsOf(text)| == 11
  }

  /** The phone stored by registration and profile edits: '+' and the digits. */
  function NormalisedPhone(text: string): string
  {
    "+" + DigitsOf(text)
  }

  /** Normalising keeps the digits, so a valid phone stays valid and
    * normalising twice changes nothing. */
  lemma NormalisedPhoneKeepsDigits(text: string)
    ensures DigitsOf(NormalisedPhone(text)) == DigitsOf(text)
    ensures IsValidPhone(NormalisedPhone(text)) <==> IsValidPhone(text)
    ensures NormalisedPhone(NormalisedPhone(text)) == NormalisedPhone(text)
  {
    var d := DigitsOf(text);
    assert NormalisedPhone(text)[1..] == d;
    DigitsOfDigits(d);
  }

  // ---------- house ----------

  /** The length of the run of digits at the head of `s`. */
  function DigitRun(s: string): (n: nat)
    ensures n <= |s|
    ensures forall i :: 0 <= i < n ==> IsDigit(s[i])
    ensures n == |s| || !IsDigit(s[n])
  {
    if |s| == 0 || !IsDigit(s[0]) then 0 else 1 + DigitRun(s[1..])
  }

  /** `[a-zA-Zа-яА-Я]`: the Cyrillic ranges leave out Ё and ё. */
  predicate HouseLetter(c: char)
  {
    IsLatinLetter(c) || ('а' <= c <= 'я') || ('А' <= c <= 'Я')
  }

  predicate OptionalLetter(r: string)
  {
    r == "" || (|r| == 1 && HouseLetter(r[0]))
  }

  /** `\d{1,5}(?:[/-]\d{1,4})?[a-zA-Zа-яА-Я]?` matching all of `u`. A longer
    * digit run cannot match, since the next item is never a digit. */
  predicate HouseCore(u: string)
  {
    var n := DigitRun(u);
    && 1 <= n <= 5
    && var r := u[n..];
       || OptionalLetter(r)
       || (&& |r| >= 1 && (r[0] == '/' || r[0] == '-')
           && var m := DigitRun(r[1..]);
              1 <= m <= 4 && OptionalLetter(r[1 + m..]))
  }

  /** HOUSE_BAD_PREFIX_RE: after leading whitespace, "д" (which covers "д."
    * and "дом") or "кв" (which covers "кв." and "квартира"), ignoring case. */
  predicate BadHousePrefix(text: string)
  {
    var l := LStrip(text);
    || (|l| >= 1 && LowerChar(l[0]) == 'д')
    || (|l| >= 2 && LowerChar(l[0]) == 'к' && LowerChar(l[1]) == 'в')
  }

  /** is_valid_house. HOUSE_VALID_RE is `^\s*core\s*$`; since the core starts
    * with a digit and ends with a digit or a letter, that is the core
    * matching the stripped text. */
  predicate IsValidHouse(text: string)
  {
    !BadHousePrefix(text) && HouseCore(Strip(text))
  }

  /** The stripped text starts where the left-stripped text starts. */
  lemma StripHead(s: string)
    requires |Strip(s)| > 0
    ensures |LStrip(s)| > 0 && Strip(s)[0] == LStrip(s)[0]
  {
    RStripShape(LStrip(s));
  }

  /** The prefix check never decides: a text it refuses already fails the
    * shape, whose first non-space character must be a digit. */
  lemma BadPrefixNeverDecides(text: string)
    ensures IsValidHouse(text) <==> HouseCore(Strip(text))
  {
    if HouseCore(Strip(text)) {
      StripHead(text);
      assert IsDigit(LStrip(text)[0]);
    }
  }

  /** |str(n)| <= k exactly when n < 10^k. */
  function Pow10(k: nat): (p: nat)
    ensures p >= 1
  {
    if k == 0 then 1 else 10 * Pow10(k - 1)
  }

  lemma {:induction false} NatToStringLength(n: nat, k: nat)
    requires k >= 1
    ensures |NatToString(n)| <= k <==> n < Pow10(k)
    decreases n
  {
    if n >= 10 {
      if k == 1 {
        assert Pow10(1) == 10;
      } else {
        NatToStringLength(n / 10, k - 1);
        assert n / 10 < Pow10(k - 1) <==> n < Pow10(k);
      }
    } else {
      assert Pow10(k) == 10 * Pow10(k - 1);
    }
  }

  /** A digit string is its own digit run. */
  lemma {:induction false} DigitRunOfDigits(s: string)
    requires forall i :: 0 <= i < |s| ==> IsDigit(s[i])
    ensures DigitRun(s) == |s|
  {
    if |s| > 0 {
      DigitRunOfDigits(s[1..]);
    }
  }

  /** A plain house number is valid exactly when it has at most five digits. */
  lemma PlainHouseNumber(n: nat)
    ensures IsValidHouse(NatToString(n)) <==> n < 100000
  {
    var s := NatToString(n);
    NatToStringDigits(n);
    StripNoSpaceEnds(s);
    DigitRunOfDigits(s);
    NatToStringLength(n, 5);
    BadPrefixNeverDecides(s);
    assert s[|s|..] == "";
  }

  // ---------- apartment ----------

  /** is_valid_apartment: "-" or "—", or one to five digits, once stripped. */
  predicate IsValidApartment(text: string)
  {
    var t := Strip(text);
    t == "-" || t == "—" || (AllDigits(t) && |t| <= 5)
  }

  /** An apartment number is valid exactly when it has at most five digits;
    * "0" is one of them. */
  lemma ApartmentNumber(n: nat)
    ensures IsValidApartment(NatToString(n)) <==> n < 100000
  {
    var s := NatToString(n);
    NatToStringDigits(n);
    StripNoSpaceEnds(s);
    NatToStringLength(n, 5);
  }

  // ---------- street ----------

  /** `[\w\s\-\.\,\/]`. */
  predicate StreetChar(c: char)
  {
    IsAlnum(c) || c == '_' || IsSpace(c) || c == '-' || c == '.' || c == ',' || c == '/'
  }

  /** is_valid_street: at least two characters once stripped, at least one
    * letter, and nothing outside the street alphabet. */
  predicate IsValidStreet(text: string)
  {
    var t := Strip(text);
    && text != ""
    && |t| >= 2
    && (exists i :: 0 <= i < |t| && IsLetter(t[i]))
    && (forall i :: 0 <= i < |t| ==> StreetChar(t[i]))
  }

  /** Surrounding whitespace never changes the verdict. */
  lemma {:induction false} StripIdempotent(s: string)
    ensures Strip(Strip(s)) == Strip(s)
  {
    LStripShape(s);
    RStripShape(LStrip(s));
    var t := Strip(s);
    if t != [] {
      var l := LStrip(s);
      assert t[0] == l[0];
      StripNoSpaceEnds(t);
    }
  }

  lemma StreetIgnoresSurroundingSpace(text: string)
    ensures IsValidStreet(Strip(text)) <==> IsValidStreet(text)
  {
    StripIdempotent(text);
    if text == "" {
      assert Strip(text) == "";
    }
    if Strip(text) == "" {
      assert !IsValidStreet(text);
    }
  }

  /** A street made only of digits and punctuation is refused. */
  lemma StreetNeedsALetter(text: string)
    requires forall i :: 0 <= i < |Strip(text)| ==> !IsLetter(Strip(text)[i])
    ensures !IsValidStreet(text)
  {
  }
}
