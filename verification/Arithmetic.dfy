/** Machine-word sizes, and division with a divisor that is not a constant. */
module Arithmetic {

  const TWO_16: nat := 0x1_0000
  const TWO_32: nat := 0x1_0000_0000
  const TWO_64: nat := 0x1_0000_0000_0000_0000

  function Quotient(n: nat, d: nat): nat
    requires d > 0
  {
    n / d
  }

  lemma Euclid(n: nat, d: nat)
    requires d > 0
    ensures Quotient(n, d) * d <= n < Quotient(n, d) * d + d
    ensures n % d == n - Quotient(n, d) * d
  {
    assert n == d * (n / d) + n % d;
  }

  lemma MulMonotone(x: nat, y: nat, k: nat)
    requires x <= y
    ensures x * k <= y * k
  {
  }

  /** A quotient reaches k exactly when the dividend reaches k times the divisor. */
  lemma QuotientAtLeast(n: nat, d: nat, k: nat)
    requires d > 0
    ensures Quotient(n, d) >= k <==> n >= k * d
  {
    Euclid(n, d);
    var q := Quotient(n, d);
    hide Quotient;
    if q >= k {
      MulMonotone(k, q, d);
    } else {
      MulMonotone(q + 1, k, d);
      assert (q + 1) * d == q * d + d;
    }
  }

  lemma QuotientIs(n: nat, d: nat, q: nat)
    requires d > 0 && q * d <= n < q * d + d
    ensures Quotient(n, d) == q
  {
    hide Quotient;
    QuotientAtLeast(n, d, q);
    QuotientAtLeast(n, d, q + 1);
    assert (q + 1) * d == q * d + d;
  }
}
