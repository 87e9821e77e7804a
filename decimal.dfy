/**
 * Rust's `{}` formatting of an unsigned integer: its decimal digits, most
 * significant first, with no sign and no leading zero.
 */
module Decimal {

  predicate IsDigits(s: string)
  {
    forall i :: 0 <= i < |s| ==> '0' <= s[i] <= '9'
  }

  function Digit(d: nat): (c: char)
    requires d < 10
    ensures '0' <= c <= '9' && c as int - '0' as int == d
  {
    (d + '0' as int) as char
  }

  /** The text `format!("{}", n)` produces for an unsigned `n`. */
  function Format(n: nat): (s: string)
    ensures 1 <= |s| && IsDigits(s)
    ensures |s| > 1 ==> s[0] != '0'
  {
    if n < 10 then [Digit(n)] else Format(n / 10) + [Digit(n % 10)]
  }

  /** The number a string of decimal digits denotes. */
  function Value(s: string): nat
    requires IsDigits(s)
  {
    if s == [] then 0 else Value(s[..|s| - 1]) * 10 + (s[|s| - 1] as int - '0' as int)
  }

  /** Formatting loses nothing: the digits read back as the number. */
  lemma {:induction false} FormatRoundTrip(n: nat)
    ensures Value(Format(n)) == n
  {
    var s := Format(n);
    if n >= 10 {
      FormatRoundTrip(n / 10);
      assert s[..|s| - 1] == Format(n / 10);
    }
  }

  /** Hence different numbers are formatted differently. */
  lemma FormatInjective(m: nat, n: nat)
    requires Format(m) == Format(n)
    ensures m == n
  {
    FormatRoundTrip(m);
    FormatRoundTrip(n);
  }
}
