/** Python's `str(n)` for integers: base-10 digits, no leading zeros, a
    leading '-' for negative numbers; and its inverse. */
module Decimal {

  predicate IsDigit(ch: char) {
    '0' <= ch <= '9'
  }

  predicate AllDigits(s: string) {
    forall i :: 0 <= i < |s| ==> IsDigit(s[i])
  }

  function DigitChar(d: nat): (ch: char)
    requires d < 10
    ensures IsDigit(ch)
  {
    "0123456789"[d]
  }

  function DigitValue(ch: char): (d: nat)
    requires IsDigit(ch)
    ensures d < 10 && DigitChar(d) == ch
  {
    (ch as int - '0' as int) as nat
  }

  /** Base-10 digits of `n`, most significant first. */
  function NatToText(n: nat): (s: string)
    ensures |s| > 0
    ensures AllDigits(s)
    ensures |s| > 1 ==> s[0] != '0'
    ensures n > 0 ==> s[0] != '0'
  {
    if n < 10 then [DigitChar(n)] else NatToText(n / 10) + [DigitChar(n % 10)]
  }

  /** `str(n)`: it reads back as `n` and never contains '_'. */
  function IntToText(n: int): (s: string)
    ensures IsIntText(s)
    ensures TextToInt(s) == n
    ensures '_' !in s
  {
    if n < 0 then
      var d := NatToText(-n);
      var s := "-" + d;
      NatRoundTrip(-n);
      assert s[0] == '-' && s[1..] == d;
      assert forall i :: 1 <= i < |s| ==> s[i] == d[i - 1];
      s
    else
      var s := NatToText(n);
      NatRoundTrip(n);
      assert IsDigit(s[0]);
      s
  }

  /** Value of a string of digits. */
  function TextToNat(s: string): nat
    requires AllDigits(s)
  {
    if |s| == 0 then 0 else 10 * TextToNat(s[..|s| - 1]) + DigitValue(s[|s| - 1])
  }

  /** The strings `str(n)` produces for `n >= 0`: at least one digit, and no
      leading zero. */
  predicate IsNatText(d: string) {
    |d| > 0 && AllDigits(d) && (|d| > 1 ==> d[0] != '0')
  }

  /** The strings `str(n)` can produce: a canonical digit string, or '-' and a
      canonical digit string that is not "0". */
  predicate IsIntText(s: string) {
    if |s| > 0 && s[0] == '-' then IsNatText(s[1..]) && s[1] != '0' else IsNatText(s)
  }

  /** `int(s)` for the strings `str` produces. */
  function TextToInt(s: string): int
    requires IsIntText(s)
  {
    if s[0] == '-' then -(TextToNat(s[1..]) as int) else TextToNat(s)
  }

  lemma {:induction false} NatRoundTrip(n: nat)
    ensures TextToNat(NatToText(n)) == n
  {
    if n >= 10 {
      NatRoundTrip(n / 10);
      var s := NatToText(n);
      assert s[..|s| - 1] == NatToText(n / 10);
    }
  }

  /** A digit string that does not start with '0' has a positive value. */
  lemma {:induction false} LeadingDigitPositive(s: string)
    requires |s| > 0 && AllDigits(s) && s[0] != '0'
    ensures TextToNat(s) > 0
  {
    if |s| > 1 {
      var p := s[..|s| - 1];
      assert p[0] == s[0];
      LeadingDigitPositive(p);
    }
  }

  /** `str(n)` is the only canonical spelling of `n`. */
  lemma {:induction false} NatTextCanonical(s: string)
    requires IsNatText(s)
    ensures NatToText(TextToNat(s)) == s
  {
    var n := TextToNat(s);
    if |s| == 1 {
      assert TextToNat(s[..0]) == 0;
    } else {
      var p, c := s[..|s| - 1], s[|s| - 1];
      assert p[0] == s[0];
      LeadingDigitPositive(p);
      NatTextCanonical(p);
      assert n / 10 == TextToNat(p) && n % 10 == DigitValue(c);
      assert s == p + [c];
    }
  }

  /** Every text `int` reads back is exactly `str` of the value read. */
  lemma {:induction false} IntTextCanonical(s: string)
    requires IsIntText(s)
    ensures IntToText(TextToInt(s)) == s
  {
    if s[0] == '-' {
      var d := s[1..];
      NatTextCanonical(d);
      LeadingDigitPositive(d);
      var n := TextToInt(s);
      assert n == -(TextToNat(d) as int) < 0;
      assert -n == TextToNat(d);
      assert NatToText(-n) == d;
      assert s == "-" + d;
    } else {
      NatTextCanonical(s);
    }
  }
}
