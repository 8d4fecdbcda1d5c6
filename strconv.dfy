/**
  Base-10 rendering and parsing of integers, as Go's `strconv.FormatInt(n, 10)`
  and `strconv.ParseInt(s, 10, 64)` do them. The form builders render 64-bit
  identifiers with FormatInt; the error messages render status codes the same way.
*/
module Strconv {
  import opened Base

  /** The range of Go's `int64`. */
  const MinInt64: int := -0x8000_0000_0000_0000
  const MaxInt64: int := 0x7fff_ffff_ffff_ffff
  type Int64 = n: int | MinInt64 <= n <= MaxInt64

  predicate IsDigit(c: char) {
    '0' <= c <= '9'
  }

  function DigitChar(d: nat): (c: char)
    requires d < 10
    ensures IsDigit(c) && (c as int) - ('0' as int) == d
  {
    ('0' as int + d) as char
  }

  function DigitValue(c: char): (d: nat)
    requires IsDigit(c)
    ensures d < 10 && DigitChar(d) == c
  {
    (c as int) - ('0' as int)
  }

  /** The decimal digits of `n`, most significant first, with no leading zero. */
  function Digits(n: nat): (s: string)
    ensures |s| > 0
    ensures forall i :: 0 <= i < |s| ==> IsDigit(s[i])
    ensures |s| > 1 ==> s[0] != '0'
  {
    if n < 10 then [DigitChar(n)] else Digits(n / 10) + [DigitChar(n % 10)]
  }

  /** `strconv.FormatInt(n, 10)`: a minus sign for negative numbers, then the digits. */
  function FormatInt(n: int): (s: string)
    ensures |s| > 0
    ensures s[0] == '-' <==> n < 0
    ensures forall i :: (if n < 0 then 1 else 0) <= i < |s| ==> IsDigit(s[i])
  {
    if n < 0 then "-" + Digits(-n) else Digits(n)
  }

  /** The value of a non-empty run of decimal digits (leading zeros allowed). */
  function ParseDigits(s: string): Option<nat>
  {
    if |s| == 0 || !IsDigit(s[|s| - 1]) then None
    else if |s| == 1 then Some(DigitValue(s[0]))
    else match ParseDigits(s[..|s| - 1])
      case None => None
      case Some(high) => Some(high * 10 + DigitValue(s[|s| - 1]))
  }

  /**
    `strconv.ParseInt(s, 10, 64)`: an optional sign, then digits; the result must
    fit in an `int64`. Every failure (syntax or range) is None.
  */
  function ParseInt(s: string): Option<int>
  {
    if |s| == 0 then None
    else
      var negative := s[0] == '-';
      var body := if s[0] == '-' || s[0] == '+' then s[1..] else s;
      match ParseDigits(body)
      case None => None
      case Some(m) =>
        var v := if negative then 0 - (m as int) else m as int;
        if MinInt64 <= v <= MaxInt64 then Some(v) else None
  }

  lemma {:induction false} ParseDigitsOfDigits(n: nat)
    ensures ParseDigits(Digits(n)) == Some(n)
  {
    if n >= 10 {
      var s := Digits(n);
      assert s[..|s| - 1] == Digits(n / 10);
      ParseDigitsOfDigits(n / 10);
    }
  }

  /** Parsing the rendering of any `int64` gives the number back. */
  lemma ParseFormatInt(n: Int64)
    ensures ParseInt(FormatInt(n)) == Some(n)
  {
    var s := FormatInt(n);
    if n < 0 {
      var m: nat := 0 - (n as int);
      assert s == "-" + Digits(m);
      assert s[1..] == Digits(m);
      ParseDigitsOfDigits(m);
      ParseSigned(s, m);
    } else {
      var m: nat := n;
      assert s == Digits(m);
      ParseDigitsOfDigits(m);
      ParseUnsigned(s, m);
    }
  }

  lemma ParseSigned(s: string, m: nat)
    requires |s| > 1 && s[0] == '-' && ParseDigits(s[1..]) == Some(m)
    requires MinInt64 <= 0 - (m as int)
    ensures ParseInt(s) == Some(0 - (m as int))
  {
  }

  lemma ParseUnsigned(s: string, m: nat)
    requires |s| > 0 && IsDigit(s[0]) && ParseDigits(s) == Some(m)
    requires m <= MaxInt64
    ensures ParseInt(s) == Some(m)
  {
  }

  /** Distinct numbers have distinct renderings. */
  lemma FormatIntInjective(a: Int64, b: Int64)
    requires FormatInt(a) == FormatInt(b)
    ensures a == b
  {
    ParseFormatInt(a);
    ParseFormatInt(b);
  }
}
