/** Models of the two `strconv` parsers the decoder calls: Atoi for `page` and
    `pageSize`, and ParseFloat for unquoted filter literals. Itoa is the
    inverse of Atoi. Integers are unbounded here and floats are exact
    rationals (see README). */
module StrConv {
  import opened Wrappers
  import GoStrings

  predicate IsDigit(c: char)
  {
    '0' <= c <= '9'
  }

  predicate AllDigits(s: string)
  {
    forall k :: 0 <= k < |s| ==> IsDigit(s[k])
  }

  /** The value of a decimal digit (0 for any other character, which the
      parsers never pass). */
  function DigitValue(c: char): nat
  {
    if IsDigit(c) then c as int - '0' as int else 0
  }

  function DigitChar(d: nat): (c: char)
    requires d < 10
    ensures IsDigit(c) && DigitValue(c) == d
  {
    ('0' as int + d) as char
  }

  /** The value of a string of decimal digits, most significant first. */
  function DigitsValue(s: string): nat
  {
    if |s| == 0 then 0 else DigitsValue(s[..|s| - 1]) * 10 + DigitValue(s[|s| - 1])
  }

  /** The shortest decimal spelling of a natural number; reading it back
      gives the number. */
  function NatToDigits(n: nat): (s: string)
    ensures |s| >= 1 && AllDigits(s)
    ensures DigitsValue(s) == n
    ensures n > 0 ==> s[0] != '0'
  {
    if n < 10 then [DigitChar(n)]
    else
      var s := NatToDigits(n / 10) + [DigitChar(n % 10)];
      assert s[..|s| - 1] == NatToDigits(n / 10);
      s
  }

  /** strconv.Atoi: an optional sign followed by one or more decimal digits;
      anything else is a syntax error. */
  function Atoi(s: string): (r: Option<int>)
    ensures r.Some? ==> |s| >= 1 && AllDigits(if s[0] == '+' || s[0] == '-' then s[1..] else s)
    ensures r.Some? && r.value < 0 ==> s[0] == '-'
    ensures |s| >= 1 && AllDigits(s) ==> r == Some(DigitsValue(s))
  {
    if |s| >= 1 && (s[0] == '+' || s[0] == '-') then
      var ds := s[1..];
      if |ds| >= 1 && AllDigits(ds) then
        Some(if s[0] == '-' then -(DigitsValue(ds) as int) else DigitsValue(ds))
      else None
    else if |s| >= 1 && AllDigits(s) then Some(DigitsValue(s))
    else None
  }

  /** strconv.Itoa. */
  function Itoa(n: int): (s: string)
  {
    if n < 0 then "-" + NatToDigits(-n) else NatToDigits(n)
  }

  /** Atoi reads back what Itoa writes. */
  lemma AtoiItoa(n: int)
    ensures Atoi(Itoa(n)) == Some(n)
  {
    if n < 0 {
      assert Itoa(n)[1..] == NatToDigits(-n);
    }
  }

  /** A float64 value as ParseFloat can return it: finite values are kept as
      exact rationals, rounding to the nearest double is not modelled. */
  datatype NumVal = Finite(value: real) | Inf(negative: bool) | NaN

  /** m * 10^e, one factor of ten at a time. */
  function Scale(m: real, e: int): (r: real)
    ensures m > 0.0 ==> r > 0.0
    ensures m == 0.0 ==> r == 0.0
    decreases if e < 0 then -e else e
  {
    if e == 0 then m
    else if e > 0 then 10.0 * Scale(m, e - 1)
    else Scale(m, e + 1) / 10.0
  }

  function Lower(c: char): char
  {
    if 'A' <= c <= 'Z' then (c as int + 32) as char else c
  }

  /** ASCII case-insensitive equality, as used for "inf", "infinity" and
      "nan". */
  predicate EqualFold(s: string, word: string)
  {
    |s| == |word| && forall k :: 0 <= k < |s| ==> Lower(s[k]) == word[k]
  }

  /** Length of the longest prefix of `s` made of digits and dots. */
  function MantissaEnd(s: string): (n: nat)
    ensures n <= |s|
    ensures forall k :: 0 <= k < n ==> IsDigit(s[k]) || s[k] == '.'
    ensures n < |s| ==> !IsDigit(s[n]) && s[n] != '.'
  {
    if |s| == 0 || !(IsDigit(s[0]) || s[0] == '.') then 0 else 1 + MantissaEnd(s[1..])
  }

  /** The exponent part `[eE][+-]?digits` (or nothing) of a decimal float. */
  function Exponent(s: string): Option<int>
  {
    if |s| == 0 then Some(0)
    else if s[0] != 'e' && s[0] != 'E' then None
    else
      var t := s[1..];
      var neg := |t| >= 1 && t[0] == '-';
      var ds := if |t| >= 1 && (t[0] == '+' || t[0] == '-') then t[1..] else t;
      if |ds| >= 1 && AllDigits(ds) then Some(if neg then -(DigitsValue(ds) as int) else DigitsValue(ds)) else None
  }

  /** An unsigned decimal float: digits with at most one dot and at least one
      digit, then an optional exponent. */
  function Decimal(s: string): Option<real>
  {
    var n := MantissaEnd(s);
    var mant := s[..n];
    var dots := GoStrings.Count(mant, '.');
    if dots > 1 || dots == |mant| then None
    else
      var e :- Exponent(s[n..]);
      var dot := GoStrings.Index(mant, '.');
      var intPart := if dot == -1 then mant else mant[..dot];
      var frac := if dot == -1 then "" else mant[dot + 1..];
      Some(Scale(DigitsValue(intPart + frac) as real, e - |frac|))
  }

  /** strconv.ParseFloat(s, 64) for decimal input: an optional sign, then
      "inf" or "infinity" (any case), or a decimal float; "nan" (any case,
      unsigned) gives NaN. */
  function ParseFloat(s: string): (r: Option<NumVal>)
    ensures |s| == 0 ==> r == None
  {
    var neg := |s| >= 1 && s[0] == '-';
    var body := if |s| >= 1 && (s[0] == '+' || s[0] == '-') then s[1..] else s;
    if EqualFold(body, "inf") || EqualFold(body, "infinity") then Some(Inf(neg))
    else if EqualFold(s, "nan") then Some(NaN)
    else
      match Decimal(body)
      case Some(v) => Some(Finite(if neg then -v else v))
      case None => None
  }

  /** Only text holding a digit parses to a finite number. */
  lemma ParseFloatFiniteHasDigit(s: string)
    requires ParseFloat(s).Some? && ParseFloat(s).value.Finite?
    ensures exists k :: 0 <= k < |s| && IsDigit(s[k])
  {
    var j := if |s| >= 1 && (s[0] == '+' || s[0] == '-') then 1 else 0;
    assert Decimal(s[j..]).Some?;
    DecimalHasDigit(s[j..]);
    SuffixDigit(s, j);
  }

  lemma SuffixDigit(s: string, j: nat)
    requires j <= |s| && exists k :: 0 <= k < |s[j..]| && IsDigit(s[j..][k])
    ensures exists k :: 0 <= k < |s| && IsDigit(s[k])
  {
    var k :| 0 <= k < |s[j..]| && IsDigit(s[j..][k]);
    assert s[j + k] == s[j..][k];
  }

  lemma DecimalHasDigit(s: string)
    requires Decimal(s).Some?
    ensures exists k :: 0 <= k < |s| && IsDigit(s[k])
  {
    var n := MantissaEnd(s);
    var mant := s[..n];
    if forall k :: 0 <= k < n ==> mant[k] == '.' {
      assert GoStrings.Count(mant, '.') == |mant| by {
        AllDots(mant);
      }
    } else {
      var k :| 0 <= k < n && mant[k] != '.';
      assert IsDigit(s[k]);
    }
  }

  lemma {:induction false} AllDots(s: string)
    requires forall k :: 0 <= k < |s| ==> s[k] == '.'
    ensures GoStrings.Count(s, '.') == |s|
  {
    if |s| > 0 {
      AllDots(s[1..]);
    }
  }

  /** An integer literal ParseFloat accepts has the value Atoi gives it: the
      two parsers agree on their common language. */
  lemma ParseFloatOfInteger(s: string)
    requires Atoi(s).Some?
    ensures ParseFloat(s) == Some(Finite(Atoi(s).value as real))
  {
    var body := if s[0] == '+' || s[0] == '-' then s[1..] else s;
    assert AllDigits(body) && |body| >= 1;
    assert !EqualFold(body, "inf") && !EqualFold(body, "infinity") by {
      assert Lower(body[0]) == body[0];
    }
    assert !EqualFold(s, "nan") by {
      if |s| == 3 {
        assert IsDigit(s[2]);
        assert Lower(s[2]) == s[2];
      }
    }
    DecimalOfDigits(body);
  }

  lemma DecimalOfDigits(s: string)
    requires |s| >= 1 && AllDigits(s)
    ensures Decimal(s) == Some(DigitsValue(s) as real)
  {
    var n := MantissaEnd(s);
    assert n == |s|;
    assert s[..n] == s;
    assert '.' !in s;
    GoStrings.CountAbsent(s, '.');
    assert s[n..] == "";
    assert s + "" == s;
  }
}
