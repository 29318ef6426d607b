/** `Integer#to_s` for the non-negative counters interpolated into the stub
    transport's messages: base-10 digits, most significant first, no leading
    zeros. */
module Decimal {

  function DigitChar(d: nat): (c: char)
    requires d < 10
    ensures '0' <= c <= '9'
    ensures DigitValue(c) == d
  {
    ('0' as int + d) as char
  }

  /** The number a decimal digit character stands for. */
  function DigitValue(c: char): int {
    c as int - '0' as int
  }

  /** The number a string of decimal digits denotes, most significant first. */
  function DigitsValue(s: string): int {
    if s == [] then 0 else 10 * DigitsValue(s[..|s| - 1]) + DigitValue(s[|s| - 1])
  }

  lemma DigitCharInjective(a: nat, b: nat)
    requires a < 10 && b < 10
    ensures DigitChar(a) == DigitChar(b) ==> a == b
  {
  }

  predicate IsDigit(c: char) {
    '0' <= c <= '9'
  }

  function NatToString(n: nat): (s: string)
    ensures |s| > 0
    ensures forall i :: 0 <= i < |s| ==> IsDigit(s[i])
    ensures n < 10 <==> |s| == 1
    ensures DigitsValue(s) == n
    ensures |s| > 1 ==> s[0] != '0'
  {
    if n < 10 then [DigitChar(n)] else NatToString(n / 10) + [DigitChar(n % 10)]
  }

  /** Distinct numbers print differently. */
  lemma {:induction false} NatToStringInjective(a: nat, b: nat)
    ensures NatToString(a) == NatToString(b) ==> a == b
  {
    if NatToString(a) == NatToString(b) {
      var s := NatToString(a);
      if a < 10 {
        DigitCharInjective(a, b);
      } else {
        assert b >= 10;
        DigitCharInjective(a % 10, b % 10);
        assert NatToString(a / 10) == s[..|s| - 1] == NatToString(b / 10);
        NatToStringInjective(a / 10, b / 10);
      }
    }
  }

  lemma CharAt(a: string, b: string, i: int)
    ensures 0 <= i < |a| ==> (a + b)[i] == a[i]
    ensures |a| <= i < |a| + |b| ==> (a + b)[i] == b[i - |a|]
  {
  }

  /** A number's digits followed by a non-digit can be recovered: two such
      strings are equal only if the numbers and the tails are. */
  lemma SplitDigits(a: nat, b: nat, x: string, y: string)
    requires |x| > 0 && |y| > 0 && !IsDigit(x[0]) && !IsDigit(y[0])
    requires NatToString(a) + x == NatToString(b) + y
    ensures a == b && x == y
  {
    var sa, sb := NatToString(a), NatToString(b);
    if |sa| < |sb| {
      CharAt(sa, x, |sa|);
      CharAt(sb, y, |sa|);
      assert false;
    } else if |sb| < |sa| {
      CharAt(sb, y, |sb|);
      CharAt(sa, x, |sb|);
      assert false;
    }
    assert sa == (sa + x)[..|sa|] == (sb + y)[..|sb|] == sb;
    assert x == (sa + x)[|sa|..] == (sb + y)[|sb|..] == y;
    NatToStringInjective(a, b);
  }
}
