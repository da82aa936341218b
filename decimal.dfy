/**
 * Signed base-10 text of a Java `long`, as `Long.toString` produces it,
 * together with a reference reader of decimal text so that the text can be
 * shown to read back as the number it was made from.
 */
module Decimal {

  import opened Wrappers

  /** A Java `long`: a 64-bit two's-complement integer. */
  newtype Long = x: int | -0x8000_0000_0000_0000 <= x < 0x8000_0000_0000_0000

  predicate IsDigit(c: char) {
    '0' <= c <= '9'
  }

  predicate AllDigits(s: string) {
    forall i :: 0 <= i < |s| ==> IsDigit(s[i])
  }

  function DigitChar(d: nat): (c: char)
    requires d < 10
    ensures IsDigit(c) && c as int - '0' as int == d
  {
    ('0' as int + d) as char
  }

  function DigitValue(c: char): (d: nat)
    requires IsDigit(c)
    ensures d < 10 && DigitChar(d) == c
  {
    c as int - '0' as int
  }

  /** Digits without a redundant leading zero: "0" itself, or a first digit other than '0'. */
  predicate NoLeadingZero(s: string)
    requires |s| > 0
  {
    s[0] != '0' || |s| == 1
  }

  /** The decimal digits of `n`, most significant first. */
  function NatToDigits(n: nat): (s: string)
    ensures |s| > 0 && AllDigits(s) && NoLeadingZero(s)
    ensures s[0] == '0' <==> n == 0
  {
    if n < 10 then [DigitChar(n)] else NatToDigits(n / 10) + [DigitChar(n % 10)]
  }

  /** Long.toString: a '-' for negatives, then the digits of the magnitude. */
  function LongToDecimal(n: int): (s: string)
    ensures |s| > 0
    ensures s[0] == '-' <==> n < 0
    ensures n < 0 ==> |s| > 1 && AllDigits(s[1..]) && NoLeadingZero(s[1..]) && s[1] != '0'
    ensures n >= 0 ==> AllDigits(s) && NoLeadingZero(s)
  {
    if n < 0 then
      var d := NatToDigits(-n);
      assert ("-" + d)[1..] == d;
      "-" + d
    else NatToDigits(n)
  }

  /** The value of a run of decimal digits, most significant first. */
  function DigitsValue(s: string): nat
    requires AllDigits(s)
  {
    if s == [] then 0 else DigitsValue(s[..|s| - 1]) * 10 + DigitValue(s[|s| - 1])
  }

  /**
   * A reference reader of decimal text: an optional sign, then one or more
   * ASCII digits (leading zeros allowed); anything else is rejected. Unlike
   * Long.parseLong it takes no non-ASCII digits and has no 64-bit range check.
   */
  function ParseDecimal(s: string): Option<int> {
    if |s| >= 2 && s[0] == '-' && AllDigits(s[1..]) then Some(-(DigitsValue(s[1..]) as int))
    else if |s| >= 2 && s[0] == '+' && AllDigits(s[1..]) then Some(DigitsValue(s[1..]) as int)
    else if |s| >= 1 && AllDigits(s) then Some(DigitsValue(s) as int)
    else None
  }

  /** Text in the one form Long.toString writes: no '+', no leading zeros, no "-0". */
  predicate IsCanonicalDecimal(s: string) {
    if |s| > 0 && s[0] == '-' then
      |s| > 1 && AllDigits(s[1..]) && s[1] != '0'
    else
      |s| > 0 && AllDigits(s) && NoLeadingZero(s)
  }

  lemma {:induction false} DigitsRoundTrip(n: nat)
    ensures DigitsValue(NatToDigits(n)) == n
  {
    if n >= 10 {
      var s := NatToDigits(n);
      assert s[..|s| - 1] == NatToDigits(n / 10);
      DigitsRoundTrip(n / 10);
    }
  }

  lemma {:induction false} LeadingNonZeroPositive(s: string)
    requires |s| > 0 && AllDigits(s) && s[0] != '0'
    ensures DigitsValue(s) >= 1
  {
    if |s| > 1 {
      var p := s[..|s| - 1];
      assert p[0] == s[0];
      LeadingNonZeroPositive(p);
    }
  }

  lemma {:induction false} DigitsCanonical(s: string)
    requires |s| > 0 && AllDigits(s) && NoLeadingZero(s)
    ensures NatToDigits(DigitsValue(s)) == s
  {
    if |s| == 1 {
      assert s == [s[0]];
    } else {
      var p := s[..|s| - 1];
      assert p[0] == s[0];
      LeadingNonZeroPositive(p);
      DigitsCanonical(p);
      var v := DigitsValue(s);
      assert v / 10 == DigitsValue(p) && v % 10 == DigitValue(s[|s| - 1]);
      assert s == p + [s[|s| - 1]];
    }
  }

  /** The text Long.toString writes reads back as the number it came from. */
  lemma ParseLongToDecimal(n: Long)
    ensures ParseDecimal(LongToDecimal(n as int)) == Some(n as int)
  {
    var s := LongToDecimal(n as int);
    if n < 0 {
      assert s[1..] == NatToDigits(-(n as int));
      DigitsRoundTrip(-(n as int));
    } else {
      DigitsRoundTrip(n as int);
    }
  }

  /** LongToDecimal writes canonical text, and canonical text is written for exactly one number. */
  lemma CanonicalIsLongToDecimal(s: string, n: int)
    ensures IsCanonicalDecimal(LongToDecimal(n))
    ensures IsCanonicalDecimal(s) && ParseDecimal(s) == Some(n) ==> LongToDecimal(n) == s
  {
    if IsCanonicalDecimal(s) && ParseDecimal(s) == Some(n) {
      if s[0] == '-' {
        var d := s[1..];
        DigitsCanonical(d);
        LeadingNonZeroPositive(d);
        assert s == "-" + d;
      } else {
        DigitsCanonical(s);
      }
    }
  }
}
