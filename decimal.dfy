/** Decimal rendering of naturals, as JavaScript's `String(n)` does for safe integers. */
module Decimal {

  function Digit(d: nat): (c: char)
    requires d < 10
    ensures '0' <= c <= '9'
  {
    (48 + d) as char
  }

  function DigitValue(c: char): nat {
    if '0' <= c <= '9' then (c as int - 48) as nat else 0
  }

  predicate IsDigits(s: string) {
    forall i :: 0 <= i < |s| ==> '0' <= s[i] <= '9'
  }

  /** `String(n)`: most significant digit first, no leading zero. */
  function NatToString(n: nat): (s: string) {
    if n < 10 then [Digit(n)] else NatToString(n / 10) + [Digit(n % 10)]
  }

  /** Reads a string of digits back as a natural. */
  function ParseNat(s: string): nat {
    if s == [] then 0 else ParseNat(s[..|s| - 1]) * 10 + DigitValue(s[|s| - 1])
  }

  lemma {:induction false} ParseNatToString(n: nat)
    ensures ParseNat(NatToString(n)) == n
  {
    if n >= 10 {
      var s := NatToString(n / 10);
      assert (s + [Digit(n % 10)])[..|s|] == s;
      ParseNatToString(n / 10);
    }
  }

  /** `String(n)` is a non-empty string of digits with no leading zero. */
  lemma {:induction false} NatToStringDigits(n: nat)
    ensures var s := NatToString(n); |s| >= 1 && IsDigits(s) && (s[0] == '0' ==> n == 0)
  {
    if n >= 10 {
      NatToStringDigits(n / 10);
    }
  }

  /** Distinct naturals render as distinct strings. */
  lemma NatToStringInjective(m: nat, n: nat)
    ensures NatToString(m) == NatToString(n) ==> m == n
  {
    ParseNatToString(m);
    ParseNatToString(n);
  }
}
