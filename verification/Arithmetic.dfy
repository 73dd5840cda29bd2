/** Division by a variable, which the solver does not do by itself. */
module Arithmetic {

  lemma {:induction false} MultiplyIsMonotone(a: int, b: int, d: int)
    requires d > 0
    ensures a < b ==> a * d + d <= b * d
    decreases b - a
  {
    if a + 1 < b {
      MultiplyIsMonotone(a + 1, b, d);
    }
    assert (a + 1) * d == a * d + d;
  }

  lemma UniqueQuotient(q: int, r: int, q': int, r': int, d: int)
    requires q * d + r == q' * d + r' && 0 <= r < d && 0 <= r' < d
    ensures q == q' && r == r'
  {
    MultiplyIsMonotone(q, q', d);
    MultiplyIsMonotone(q', q, d);
  }

  lemma QuotientAndRemainder(k: int, d: int)
    requires d > 0
    ensures k == k / d * d + k % d && 0 <= k % d < d
  {
  }

  lemma DivisionIs(k: int, d: int, q: int, r: int)
    requires d > 0 && k == q * d + r && 0 <= r < d
    ensures k / d == q && k % d == r
  {
    QuotientAndRemainder(k, d);
    UniqueQuotient(k / d, k % d, q, r, d);
  }
}
