/** Numbers in decimal, as printf writes them. */
module Decimal {
  const DIGITS := "0123456789"

  predicate IsDigit(c: char) { '0' <= c <= '9' }

  predicate AllDigits(s: string) { forall n :: 0 <= n < |s| ==> IsDigit(s[n]) }

  function DigitValue(c: char): (r: nat)
    requires IsDigit(c)
    ensures r < 10
  {
    c as int - '0' as int
  }

  /** printf's %u: no sign, no leading zeros. */
  function Digits(n: nat): (r: string)
    ensures r != [] && AllDigits(r)
  {
    if n < 10 then [DIGITS[n]] else Digits(n / 10) + [DIGITS[n % 10]]
  }

  /** What a string of digits stands for. */
  function Number(s: string): (r: nat)
    requires AllDigits(s)
  {
    if s == [] then 0 else 10 * Number(s[..|s|-1]) + DigitValue(s[|s|-1])
  }

  lemma {:induction false} NumberOfDigits(n: nat)
    ensures Number(Digits(n)) == n
  {
    if n >= 10 {
      NumberOfDigits(n / 10);
      assert Digits(n)[..|Digits(n)|-1] == Digits(n / 10);
    }
  }

  /** Different numbers are written differently. */
  lemma DigitsInjective(m: nat, n: nat)
    requires Digits(m) == Digits(n)
    ensures m == n
  {
    NumberOfDigits(m);
    NumberOfDigits(n);
  }

  /** Up to the first character that is no digit, text that starts with a number determines it. */
  lemma DigitsPrefix(m: nat, n: nat, s: string, t: string)
    requires Digits(m) + s == Digits(n) + t
    requires s == [] || !IsDigit(s[0])
    requires t == [] || !IsDigit(t[0])
    ensures m == n && s == t
  {
    var a, b := Digits(m), Digits(n);
    DigitsEnd(a, s, b, t);
    DigitsEnd(b, t, a, s);
    assert a == (a + s)[..|a|] && b == (b + t)[..|b|];
    assert s == (a + s)[|a|..] && t == (b + t)[|b|..];
    DigitsInjective(m, n);
  }

  lemma DigitsEnd(a: string, s: string, b: string, t: string)
    requires AllDigits(b) && a + s == b + t
    requires s == [] || !IsDigit(s[0])
    ensures |b| <= |a|
  {
    assert forall n :: 0 <= n < |b| ==> (b + t)[n] == b[n];
    assert |a| < |a + s| ==> (a + s)[|a|] == s[0];
  }
}
