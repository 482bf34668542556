/** Non-negative integers in decimal. */
module Decimal {

  function Digit(d: nat): char
    requires d < 10
  {
    "0123456789"[d]
  }

  predicate IsDigit(c: char) { '0' <= c <= '9' }

  function DigitValue(c: char): nat
    requires IsDigit(c)
  {
    (c - '0') as nat
  }

  function Dec(n: nat): (s: string)
    ensures s != "" && forall i :: 0 <= i < |s| ==> IsDigit(s[i])
  {
    if n < 10 then [Digit(n)] else Dec(n / 10) + [Digit(n % 10)]
  }

  /** The value of a string of digits; leading zeros do not matter. */
  function Undec(s: string): nat
    requires forall i :: 0 <= i < |s| ==> IsDigit(s[i])
  {
    if s == "" then 0 else 10 * Undec(s[..|s| - 1]) + DigitValue(s[|s| - 1])
  }

  lemma DigitBack(d: nat)
    requires d < 10
    ensures DigitValue(Digit(d)) == d
  {}

  lemma {:induction false} DecReadsBack(n: nat)
    ensures Undec(Dec(n)) == n
  {
    if n < 10 {
      DigitBack(n);
      assert [Digit(n)][..0] == "";
    } else {
      DecReadsBack(n / 10);
      DigitBack(n % 10);
      var s := Dec(n);
      assert s[..|s| - 1] == Dec(n / 10);
    }
  }

  /** Any integer, with a minus sign when negative. */
  function Signed(i: int): string { if i < 0 then "-" + Dec(-i) else Dec(i) }
}
