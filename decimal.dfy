/**
  The decimal text that `Number.prototype.toString()` gives for an integer
  millisecond clock reading. Registration uses it to turn `Date.now()` into a
  device id, so two registrations get the same id exactly when they read the
  same millisecond.
 */
module Decimal {

  predicate IsDigit(c: char) {
    '0' <= c <= '9'
  }

  predicate AllDigits(s: string) {
    forall i :: 0 <= i < |s| ==> IsDigit(s[i])
  }

  function DigitChar(d: nat): (c: char)
    requires d < 10
    ensures IsDigit(c)
    ensures c as int - '0' as int == d
  {
    ('0' as int + d) as char
  }

  function DigitValue(c: char): (d: nat)
    requires IsDigit(c)
    ensures d < 10 && DigitChar(d) == c
  {
    c as int - '0' as int
  }

  /** Canonical decimal text of a natural number: no sign, no leading zero. */
  function Format(n: nat): (s: string)
    ensures |s| >= 1 && AllDigits(s)
    ensures s[0] == '0' <==> n == 0
    ensures n < 10 <==> |s| == 1
  {
    if n < 10 then [DigitChar(n)] else Format(n / 10) + [DigitChar(n % 10)]
  }

  /** Value of a string of decimal digits (the empty string reads as 0). */
  function Parse(s: string): (n: nat)
    requires AllDigits(s)
  {
    if s == [] then 0 else Parse(s[..|s| - 1]) * 10 + DigitValue(s[|s| - 1])
  }

  lemma {:induction false} ParseFormat(n: nat)
    ensures Parse(Format(n)) == n
  {
    if n >= 10 {
      var s := Format(n);
      assert s[..|s| - 1] == Format(n / 10);
      ParseFormat(n / 10);
    }
  }

  /**
    Text of an integer as `Number.prototype.toString()` prints it below
    10^21 in magnitude (beyond that JavaScript switches to exponent
    notation): a '-' before negative values. Every `Date.now()` reading,
    at most 8.64 * 10^15 in magnitude, lies in that range.
   */
  function FormatInt(n: int): (s: string)
    ensures |s| >= 1
    ensures n >= 0 <==> IsDigit(s[0])
    ensures n < 0 <==> s[0] == '-'
  {
    if n < 0 then "-" + Format(-n) else Format(n)
  }

  /** The text of an integer reads back as that integer. */
  lemma FormatIntValue(n: int)
    ensures n < 0 ==> FormatInt(n)[1..] == Format(-n) && Parse(FormatInt(n)[1..]) == -n
    ensures n >= 0 ==> FormatInt(n) == Format(n) && Parse(FormatInt(n)) == n
  {
    if n < 0 {
      var digits := Format(-n);
      assert FormatInt(n) == "-" + digits;
      assert ("-" + digits)[1..] == digits;
      ParseFormat(-n);
    } else {
      ParseFormat(n);
    }
  }

  lemma FormatIntInjective(a: int, b: int)
    ensures FormatInt(a) == FormatInt(b) <==> a == b
  {
    if FormatInt(a) == FormatInt(b) {
      if a < 0 {
        assert b < 0;
        assert Format(-a) == FormatInt(a)[1..] == FormatInt(b)[1..] == Format(-b);
        ParseFormat(-a);
        ParseFormat(-b);
      } else {
        ParseFormat(a);
        ParseFormat(b);
      }
    }
  }
}
