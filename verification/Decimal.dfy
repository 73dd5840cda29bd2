/** Go's `int` (64 bits) with `strconv.Itoa` and `strconv.Atoi`, which the store uses for values and digests. */
module Decimal {
  import opened Messages

  const MIN_INT64 := -0x8000_0000_0000_0000
  const MAX_INT64 := 0x7fff_ffff_ffff_ffff

  predicate FitsInt64(x: int) {
    MIN_INT64 <= x <= MAX_INT64
  }

  /** Two's complement wrap-around. */
  function Wrap64(x: int): (w: int)
    ensures FitsInt64(w)
    ensures FitsInt64(x) ==> w == x
  {
    (x - MIN_INT64) % 0x1_0000_0000_0000_0000 + MIN_INT64
  }

  const DIGITS := "0123456789"

  predicate AllDigits(s: string) {
    forall i | 0 <= i < |s| :: '0' <= s[i] <= '9'
  }

  function Digits(n: nat): (s: string)
    ensures |s| > 0 && AllDigits(s)
  {
    if n < 10 then [DIGITS[n]] else Digits(n / 10) + [DIGITS[n % 10]]
  }

  function Itoa(x: int): string {
    if x < 0 then "-" + Digits(-x) else Digits(x)
  }

  function Magnitude(s: string): nat
    requires AllDigits(s)
  {
    if s == [] then 0
    else 10 * Magnitude(s[..|s| - 1]) + (s[|s| - 1] as int - '0' as int)
  }

  /** An optional sign, then at least one digit, then a value that fits. */
  function Atoi(s: string): Option<int> {
    var negative := s != [] && s[0] == '-';
    var digits := if s != [] && (s[0] == '-' || s[0] == '+') then s[1..] else s;
    if digits == [] || !AllDigits(digits) then None
    else
      var x: int := (if negative then -1 else 1) * Magnitude(digits);
      if FitsInt64(x) then Some(x) else None
  }

  lemma {:induction false} MagnitudeOfDigits(n: nat)
    ensures Magnitude(Digits(n)) == n
  {
    if n < 10 {
      assert Digits(n)[..0] == [];
    } else {
      MagnitudeOfDigits(n / 10);
      assert Digits(n)[..|Digits(n)| - 1] == Digits(n / 10);
    }
  }

  /** Every 64-bit value survives being printed and parsed, negatives and the minimum included. */
  lemma AtoiOfItoa(x: int)
    requires FitsInt64(x)
    ensures Atoi(Itoa(x)) == Some(x)
  {
    var n := if x < 0 then -x else x;
    MagnitudeOfDigits(n);
    var s := Digits(n);
    assert '0' <= s[0] <= '9';
    assert ("-" + s)[1..] == s;
  }
}
