/** A model of Go's time.Parse for the one layout the decoder uses,
    "2006-01-02T15-04-05": a four-digit year, two-digit month and day, a one-
    or two-digit hour ("15" is not zero-padded when parsing), two-digit minute
    and second, separated by the literal characters of the layout. Fields are
    range-checked and the day is checked against the month, as time.Parse
    does. Format is the matching time.Format and the two round-trip. */
module Timestamps {
  import opened Wrappers
  import opened StrConv

  const Layout: string := "2006-01-02T15-04-05"

  /** A UTC timestamp with second precision. */
  datatype TimeVal = TimeVal(year: int, month: int, day: int, hour: int, minute: int, second: int)

  predicate IsLeap(year: int)
  {
    year % 4 == 0 && (year % 100 != 0 || year % 400 == 0)
  }

  function DaysIn(month: int, year: int): int
  {
    if month == 2 then (if IsLeap(year) then 29 else 28)
    else if month == 4 || month == 6 || month == 9 || month == 11 then 30
    else 31
  }

  /** A timestamp the layout can express. */
  predicate Valid(t: TimeVal)
  {
    && 0 <= t.year <= 9999
    && 1 <= t.month <= 12
    && 1 <= t.day <= DaysIn(t.month, t.year)
    && 0 <= t.hour < 24
    && 0 <= t.minute < 60
    && 0 <= t.second < 60
  }

  /** `n` decimal digits of `s` starting at `i`. */
  function Digits(s: string, i: nat, n: nat): (r: Option<nat>)
    ensures r.Some? ==> i + n <= |s| && AllDigits(s[i..i + n]) && r.value == DigitsValue(s[i..i + n])
  {
    if i + n <= |s| && AllDigits(s[i..i + n]) then Some(DigitsValue(s[i..i + n])) else None
  }

  predicate CharAt(s: string, i: nat, c: char)
  {
    i < |s| && s[i] == c
  }

  /** time.Parse(Layout, s). The hour takes two digits when two are present
      and one otherwise; all other fields have a fixed width. */
  function Parse(s: string): (r: Option<TimeVal>)
    ensures r.Some? ==> Valid(r.value)
    ensures r.Some? ==> |s| == 18 || |s| == 19
  {
    var hl := if |s| > 12 && IsDigit(s[12]) then 2 else 1;
    var year :- Digits(s, 0, 4);
    var month :- Digits(s, 5, 2);
    var day :- Digits(s, 8, 2);
    var hour :- Digits(s, 11, hl);
    var minute :- Digits(s, 12 + hl, 2);
    var second :- Digits(s, 15 + hl, 2);
    var t := TimeVal(year, month, day, hour, minute, second);
    if CharAt(s, 4, '-') && CharAt(s, 7, '-') && CharAt(s, 10, 'T')
       && CharAt(s, 11 + hl, '-') && CharAt(s, 14 + hl, '-') && |s| == 17 + hl
       && Valid(t)
    then Some(t)
    else None
  }

  /** `n` rendered in exactly `w` decimal digits, zero-padded on the left. */
  function Pad(n: nat, w: nat): (s: string)
    ensures |s| == w && AllDigits(s)
    ensures n < Pow10Nat(w) ==> DigitsValue(s) == n
  {
    if w == 0 then ""
    else
      var s := Pad(n / 10, w - 1) + [DigitChar(n % 10)];
      assert s[..|s| - 1] == Pad(n / 10, w - 1);
      s
  }

  function Pow10Nat(w: nat): (r: nat)
    ensures r >= 1
  {
    if w == 0 then 1 else 10 * Pow10Nat(w - 1)
  }

  /** time.Format(Layout): every field zero-padded to its layout width. */
  function Format(t: TimeVal): (s: string)
    requires Valid(t)
    ensures |s| == |Layout|
  {
    Pad(t.year, 4) + "-" + Pad(t.month, 2) + "-" + Pad(t.day, 2) + "T"
    + Pad(t.hour, 2) + "-" + Pad(t.minute, 2) + "-" + Pad(t.second, 2)
  }

  /** The positions of the fields and separators in a string laid out as
      Layout is. */
  lemma LayoutSlices(a: string, b: string, c: string, d: string, e: string, f: string)
    requires |a| == 4 && |b| == 2 && |c| == 2 && |d| == 2 && |e| == 2 && |f| == 2
    ensures var s := a + "-" + b + "-" + c + "T" + d + "-" + e + "-" + f;
      && |s| == 19
      && s[0..4] == a && s[5..7] == b && s[8..10] == c
      && s[11..13] == d && s[14..16] == e && s[17..19] == f
      && s[4] == '-' && s[7] == '-' && s[10] == 'T' && s[13] == '-' && s[16] == '-'
  {
  }

  /** A field Format padded reads back as its value. */
  lemma DigitsOfPad(s: string, i: nat, n: nat, v: nat)
    requires i + n <= |s| && s[i..i + n] == Pad(v, n) && v < Pow10Nat(n)
    ensures Digits(s, i, n) == Some(v)
  {
  }

  /** Parse reads a 19-character string field by field. */
  lemma ParseFields(s: string, t: TimeVal)
    requires |s| == 19 && Valid(t) && IsDigit(s[12])
    requires Digits(s, 0, 4) == Some(t.year) && Digits(s, 5, 2) == Some(t.month) && Digits(s, 8, 2) == Some(t.day)
    requires Digits(s, 11, 2) == Some(t.hour) && Digits(s, 14, 2) == Some(t.minute) && Digits(s, 17, 2) == Some(t.second)
    requires s[4] == '-' && s[7] == '-' && s[10] == 'T' && s[13] == '-' && s[16] == '-'
    ensures Parse(s) == Some(t)
  {
  }

  /** Format writes each field where Parse reads it. */
  lemma FormatFields(t: TimeVal)
    requires Valid(t)
    ensures var s := Format(t);
      && |s| == 19 && IsDigit(s[12])
      && Digits(s, 0, 4) == Some(t.year) && Digits(s, 5, 2) == Some(t.month) && Digits(s, 8, 2) == Some(t.day)
      && Digits(s, 11, 2) == Some(t.hour) && Digits(s, 14, 2) == Some(t.minute) && Digits(s, 17, 2) == Some(t.second)
      && s[4] == '-' && s[7] == '-' && s[10] == 'T' && s[13] == '-' && s[16] == '-'
  {
    var s := Format(t);
    LayoutSlices(Pad(t.year, 4), Pad(t.month, 2), Pad(t.day, 2), Pad(t.hour, 2), Pad(t.minute, 2), Pad(t.second, 2));
    assert Pow10Nat(2) == 100 && Pow10Nat(4) == 10000;
    DigitsOfPad(s, 0, 4, t.year);
    DigitsOfPad(s, 5, 2, t.month);
    DigitsOfPad(s, 8, 2, t.day);
    DigitsOfPad(s, 11, 2, t.hour);
    DigitsOfPad(s, 14, 2, t.minute);
    DigitsOfPad(s, 17, 2, t.second);
    assert s[12] == s[11..13][1];
  }

  /** Parsing what Format writes gives the timestamp back. */
  lemma ParseFormat(t: TimeVal)
    requires Valid(t)
    ensures Parse(Format(t)) == Some(t)
  {
    FormatFields(t);
    ParseFields(Format(t), t);
  }
}
