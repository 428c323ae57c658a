/**
 * The wall-clock stamp in saved file names: `datetime.now().strftime("%Y%m%d_%H%M%S")`,
 * a 15-character string such as `20240317_091502`. `Parse` is its inverse
 * (what `strptime` with the same pattern does), used to show that distinct
 * seconds always give distinct stamps.
 */
module Timestamp {
  import opened Wrappers

  datatype DateTime = DateTime(year: nat, month: nat, day: nat, hour: nat, minute: nat, second: nat)

  predicate IsLeapYear(y: nat)
  {
    y % 4 == 0 && (y % 100 != 0 || y % 400 == 0)
  }

  function DaysInMonth(y: nat, m: nat): nat
    requires 1 <= m <= 12
  {
    if m == 2 then (if IsLeapYear(y) then 29 else 28)
    else if m == 4 || m == 6 || m == 9 || m == 11 then 30
    else 31
  }

  /** A calendar instant whose year has four digits. */
  predicate Valid(t: DateTime)
  {
    1000 <= t.year <= 9999 && 1 <= t.month <= 12 && 1 <= t.day <= DaysInMonth(t.year, t.month) &&
    t.hour < 24 && t.minute < 60 && t.second < 60
  }

  predicate IsDigit(c: char)
  {
    '0' <= c <= '9'
  }

  predicate AllDigits(s: string)
  {
    forall i :: 0 <= i < |s| ==> IsDigit(s[i])
  }

  function DigitChar(d: nat): (c: char)
    requires d < 10
    ensures IsDigit(c)
  {
    ('0' as int + d) as char
  }

  function DigitValue(c: char): (d: nat)
    requires IsDigit(c)
    ensures d < 10 && DigitChar(d) == c
  {
    c as int - '0' as int
  }

  function Pow10(k: nat): (p: nat)
    ensures p >= 1
  {
    if k == 0 then 1 else 10 * Pow10(k - 1)
  }

  /** `n` written with exactly `width` decimal digits, zero-padded on the left. */
  function Pad(n: nat, width: nat): (r: string)
    requires n < Pow10(width)
    ensures |r| == width && AllDigits(r)
  {
    if width == 0 then "" else Pad(n / 10, width - 1) + [DigitChar(n % 10)]
  }

  /** The value of a string of decimal digits. */
  function DecimalValue(s: string): (n: nat)
    requires AllDigits(s)
    ensures n < Pow10(|s|)
  {
    if |s| == 0 then 0 else DecimalValue(s[..|s| - 1]) * 10 + DigitValue(s[|s| - 1])
  }

  lemma {:induction false} DecimalOfPad(n: nat, width: nat)
    requires n < Pow10(width)
    ensures DecimalValue(Pad(n, width)) == n
  {
    if width > 0 {
      var r := Pad(n, width);
      assert r[..width - 1] == Pad(n / 10, width - 1);
      DecimalOfPad(n / 10, width - 1);
    }
  }

  lemma {:induction false} PadOfDecimal(s: string)
    requires AllDigits(s)
    ensures Pad(DecimalValue(s), |s|) == s
  {
    if |s| > 0 {
      var n := DecimalValue(s);
      var init := s[..|s| - 1];
      PadOfDecimal(init);
      assert n / 10 == DecimalValue(init) && n % 10 == DigitValue(s[|s| - 1]);
      assert s == init + [s[|s| - 1]];
    }
  }

  /** `%Y%m%d_%H%M%S`. */
  function Format(t: DateTime): (r: string)
    requires Valid(t)
    ensures |r| == 15 && r[8] == '_'
    ensures AllDigits(r[..8]) && AllDigits(r[9..])
  {
    var r := Pad(t.year, 4) + Pad(t.month, 2) + Pad(t.day, 2) + "_" + Pad(t.hour, 2) + Pad(t.minute, 2) + Pad(t.second, 2);
    assert r[..8] == Pad(t.year, 4) + Pad(t.month, 2) + Pad(t.day, 2);
    assert r[9..] == Pad(t.hour, 2) + Pad(t.minute, 2) + Pad(t.second, 2);
    r
  }

  /** The shape `Format` produces: eight digits, `_`, six digits. */
  predicate IsStampShape(s: string)
  {
    |s| == 15 && s[8] == '_' && AllDigits(s[..8]) && AllDigits(s[9..])
  }

  /** The six numeric fields of a stamp-shaped string, in the order `Format` writes them. */
  function Fields(s: string): DateTime
    requires IsStampShape(s)
  {
    assert AllDigits(s[..4]) && AllDigits(s[4..6]) && AllDigits(s[6..8]);
    assert AllDigits(s[9..11]) && AllDigits(s[11..13]) && AllDigits(s[13..]);
    DateTime(DecimalValue(s[..4]), DecimalValue(s[4..6]), DecimalValue(s[6..8]),
             DecimalValue(s[9..11]), DecimalValue(s[11..13]), DecimalValue(s[13..]))
  }

  /** The inverse of `Format`: a stamp-shaped string that names a valid instant. */
  function Parse(s: string): (r: Option<DateTime>)
    ensures r.Some? ==> Valid(r.value)
  {
    if IsStampShape(s) && Valid(Fields(s)) then Some(Fields(s)) else None
  }

  /** Parsing a formatted stamp recovers the instant. */
  lemma ParseFormat(t: DateTime)
    requires Valid(t)
    ensures Parse(Format(t)) == Some(t)
  {
    var s := Format(t);
    assert s[..4] == Pad(t.year, 4);
    assert s[4..6] == Pad(t.month, 2);
    assert s[6..8] == Pad(t.day, 2);
    assert s[9..11] == Pad(t.hour, 2);
    assert s[11..13] == Pad(t.minute, 2);
    assert s[13..] == Pad(t.second, 2);
    DecimalOfPad(t.year, 4);
    DecimalOfPad(t.month, 2);
    DecimalOfPad(t.day, 2);
    DecimalOfPad(t.hour, 2);
    DecimalOfPad(t.minute, 2);
    DecimalOfPad(t.second, 2);
  }

  /** Every stamp `Parse` accepts is the format of the instant it yields. */
  lemma FormatParse(s: string)
    requires Parse(s).Some?
    ensures Format(Parse(s).value) == s
  {
    var t := Fields(s);
    var y, mo, d, h, mi, se := s[..4], s[4..6], s[6..8], s[9..11], s[11..13], s[13..];
    assert AllDigits(y) && AllDigits(mo) && AllDigits(d);
    assert AllDigits(h) && AllDigits(mi) && AllDigits(se);
    PadOfDecimal(y);
    PadOfDecimal(mo);
    PadOfDecimal(d);
    PadOfDecimal(h);
    PadOfDecimal(mi);
    PadOfDecimal(se);
    assert Pad(t.year, 4) == y && Pad(t.month, 2) == mo && Pad(t.day, 2) == d;
    assert Pad(t.hour, 2) == h && Pad(t.minute, 2) == mi && Pad(t.second, 2) == se;
    assert s == y + mo + d + "_" + h + mi + se;
  }

  /** Two instants get the same stamp exactly when they fall in the same second. */
  lemma FormatInjective(t1: DateTime, t2: DateTime)
    requires Valid(t1) && Valid(t2)
    ensures Format(t1) == Format(t2) <==> t1 == t2
  {
    ParseFormat(t1);
    ParseFormat(t2);
  }
}
