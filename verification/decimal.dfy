/**
 * Decimal rendering of integers, as C# string interpolation (`$"{n}"`)
 * produces it for an `int`, together with the reading-back function that
 * makes the rendering checkable: every rendered number parses back to itself.
 */
module Decimal {

  predicate IsDigit(c: char) {
    '0' <= c <= '9'
  }

  predicate AllDigits(s: string) {
    forall i :: 0 <= i < |s| ==> IsDigit(s[i])
  }

  function DigitChar(d: nat): (c: char)
    requires d < 10
    ensures IsDigit(c)
  {
    ('0' as int + d) as char
  }

  function DigitValue(c: char): (d: nat)
    requires IsDigit(c)
    ensures d < 10
  {
    c as int - '0' as int
  }

  /** The decimal digits of `n`, most significant first, with no leading zero. */
  function NatToString(n: nat): (s: string)
    ensures |s| > 0 && AllDigits(s)
    ensures s[0] == '0' ==> n == 0
    decreases n
  {
    if n < 10 then [DigitChar(n)] else NatToString(n / 10) + [DigitChar(n % 10)]
  }

  /** The number a string of decimal digits denotes. */
  function DigitsValue(s: string): nat
    requires AllDigits(s)
  {
    if s == [] then 0 else DigitsValue(s[..|s| - 1]) * 10 + DigitValue(s[|s| - 1])
  }

  lemma {:induction false} NatToStringRoundTrip(n: nat)
    ensures DigitsValue(NatToString(n)) == n
    decreases n
  {
    if n >= 10 {
      var s := NatToString(n);
      NatToStringRoundTrip(n / 10);
      assert s[..|s| - 1] == NatToString(n / 10);
      assert DigitValue(s[|s| - 1]) == n % 10;
    }
  }

  /** Distinct numbers render differently. */
  lemma NatToStringInjective(a: nat, b: nat)
    ensures NatToString(a) == NatToString(b) ==> a == b
  {
    NatToStringRoundTrip(a);
    NatToStringRoundTrip(b);
  }

  /** The length of the run of decimal digits a string starts with. */
  function LeadingDigits(x: string): (n: nat)
    ensures n <= |x|
    ensures forall i :: 0 <= i < n ==> IsDigit(x[i])
    ensures n < |x| ==> !IsDigit(x[n])
  {
    if x == [] || !IsDigit(x[0]) then 0 else 1 + LeadingDigits(x[1..])
  }

  /** Digits followed by a text that starts with a non-digit: the digit run is exactly the digits. */
  lemma {:induction false} LeadingDigitsOf(s: string, suffix: string)
    requires AllDigits(s)
    requires |suffix| > 0 && !IsDigit(suffix[0])
    ensures LeadingDigits(s + suffix) == |s|
    decreases |s|
  {
    if s != [] {
      assert (s + suffix)[0] == s[0];
      assert (s + suffix)[1..] == s[1..] + suffix;
      LeadingDigitsOf(s[1..], suffix);
    } else {
      assert s + suffix == suffix;
    }
  }

  /** A rendered number followed by a fixed suffix still determines the number. */
  lemma NatToStringSuffixInjective(a: nat, b: nat, suffix: string)
    requires |suffix| > 0 && !IsDigit(suffix[0])
    ensures NatToString(a) + suffix == NatToString(b) + suffix ==> a == b
  {
    var sa, sb := NatToString(a), NatToString(b);
    if sa + suffix == sb + suffix {
      LeadingDigitsOf(sa, suffix);
      LeadingDigitsOf(sb, suffix);
      assert sa == (sa + suffix)[..|sa|];
      assert sb == (sb + suffix)[..|sb|];
      NatToStringInjective(a, b);
    }
  }
}
