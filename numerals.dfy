/** Decimal rendering of non-negative integers, as Python's `str(n)` and
    `f"{n:,}"` (thousands separated by commas) produce it, and the reading
    that inverts it. */
module Numerals {
  import opened Wrappers

  predicate IsDigit(c: char)
  {
    '0' <= c <= '9'
  }

  function DigitChar(d: nat): (c: char)
    requires d < 10
    ensures IsDigit(c)
  {
    (d + '0' as int) as char
  }

  function DigitValue(c: char): nat
    requires IsDigit(c)
  {
    c as int - '0' as int
  }

  /** `str(n)` for `n >= 0`: no leading zeros, at least one digit. */
  function DecimalString(n: nat): (r: string)
    ensures |r| > 0
    ensures forall i :: 0 <= i < |r| ==> IsDigit(r[i])
    decreases n
  {
    if n < 10 then [DigitChar(n)] else DecimalString(n / 10) + [DigitChar(n % 10)]
  }

  /** `int(s)` for a string of decimal digits. */
  function ParseDecimal(s: string): nat
    requires forall i :: 0 <= i < |s| ==> IsDigit(s[i])
  {
    if s == [] then 0 else ParseDecimal(s[..|s| - 1]) * 10 + DigitValue(s[|s| - 1])
  }

  /** Reading back the rendering of `n` gives `n`. */
  lemma {:induction false} ParseDecimalString(n: nat)
    ensures ParseDecimal(DecimalString(n)) == n
    decreases n
  {
    var s := DecimalString(n);
    if n >= 10 {
      ParseDecimalString(n / 10);
      assert s[..|s| - 1] == DecimalString(n / 10);
    }
  }

  /** Distinct numbers have distinct renderings. */
  lemma DecimalStringInjective(m: nat, n: nat)
    requires DecimalString(m) == DecimalString(n)
    ensures m == n
  {
    ParseDecimalString(m);
    ParseDecimalString(n);
  }

  /** Inserts a comma before every group of three digits counted from the right. */
  function GroupThousands(digits: string): string
    decreases |digits|
  {
    if |digits| <= 3 then digits
    else GroupThousands(digits[..|digits| - 3]) + "," + digits[|digits| - 3..]
  }

  /** `f"{n:,}"` for `n >= 0`. */
  function Thousands(n: nat): string
  {
    GroupThousands(DecimalString(n))
  }

  function RemoveCommas(s: string): (r: string)
    ensures forall i :: 0 <= i < |r| ==> r[i] != ','
  {
    if s == [] then []
    else if s[|s| - 1] == ',' then RemoveCommas(s[..|s| - 1])
    else RemoveCommas(s[..|s| - 1]) + [s[|s| - 1]]
  }

  lemma {:induction false} RemoveCommasAppend(a: string, b: string)
    ensures RemoveCommas(a + b) == RemoveCommas(a) + RemoveCommas(b)
    decreases |b|
  {
    if b == [] {
      assert a + b == a;
    } else {
      RemoveCommasAppend(a, b[..|b| - 1]);
      assert (a + b)[..|a + b| - 1] == a + b[..|b| - 1];
    }
  }

  lemma {:induction false} RemoveCommasNone(s: string)
    requires forall i :: 0 <= i < |s| ==> s[i] != ','
    ensures RemoveCommas(s) == s
    decreases |s|
  {
    if s != [] {
      RemoveCommasNone(s[..|s| - 1]);
    }
  }

  /** The grouping only inserts commas: taking them out gives the digits back. */
  lemma {:induction false} GroupThousandsDigits(digits: string)
    requires forall i :: 0 <= i < |digits| ==> IsDigit(digits[i])
    ensures RemoveCommas(GroupThousands(digits)) == digits
    decreases |digits|
  {
    if |digits| <= 3 {
      RemoveCommasNone(digits);
    } else {
      var head, tail := digits[..|digits| - 3], digits[|digits| - 3..];
      GroupThousandsDigits(head);
      RemoveCommasAppend(GroupThousands(head) + ",", tail);
      RemoveCommasAppend(GroupThousands(head), ",");
      RemoveCommasNone(tail);
      assert RemoveCommas(",") == "";
      assert head + tail == digits;
    }
  }

  /** Thousands-separated output reads back as the number it renders. */
  lemma ThousandsRoundTrip(n: nat)
    ensures RemoveCommas(Thousands(n)) == DecimalString(n)
    ensures ParseDecimal(RemoveCommas(Thousands(n))) == n
  {
    GroupThousandsDigits(DecimalString(n));
    ParseDecimalString(n);
  }

  /** Reading back a number written with thousands separators: the digits
      once the commas are dropped, or `None` when anything else is left. */
  function ReadThousands(s: string): Option<nat>
  {
    var d := RemoveCommas(s);
    if d != [] && forall i :: 0 <= i < |d| ==> IsDigit(d[i]) then Some(ParseDecimal(d)) else None
  }

  /** `f"{n:,}"` reads back as `n`. */
  lemma ReadThousandsOf(n: nat)
    ensures ReadThousands(Thousands(n)) == Some(n)
  {
    ThousandsRoundTrip(n);
  }
}
