/** The few nonlinear facts the decimal and accounting proofs rest on, one multiplication at a time. */
module Arithmetic {

  lemma RealOfProduct(a: int, b: int)
    ensures (a * b) as real == a as real * b as real
  {
  }

  lemma ProductIsNat(a: nat, b: nat)
    ensures a * b >= 0
  {
  }

  lemma MulMonotone(a: int, b: int, p: nat)
    requires a <= b
    ensures a * p <= b * p
  {
  }

  lemma DistributeTen(x: int, p: int, n: int)
    ensures 10 * (x * p + n) == x * (10 * p) + 10 * n
  {
  }

  /** Division with remainder has one answer. */
  lemma {:induction false} QuotientsAgree(a: nat, r: nat, b: nat, t: nat, p: nat)
    requires r < p && t < p && a * p + r == b * p + t
    ensures a == b && r == t
  {
    if a < b {
      MulMonotone(a + 1, b, p);
    } else if b < a {
      MulMonotone(b + 1, a, p);
    }
  }

  lemma {:induction false} MultipleHasNoRemainder(n: nat, b: nat)
    requires b != 0
    ensures (n * b) % b == 0
  {
    var q, r := n * b / b, n * b % b;
    ProductIsNat(n, b);
    assert n * b == q * b + r;
    QuotientsAgree(n, 0, q, r, b);
  }

  lemma DivTimes(x: real, p: real)
    requires p != 0.0
    ensures x / p * p == x
  {
  }

  lemma DivUnique(x: real, p: real, q: real)
    requires p != 0.0 && q * p == x
    ensures x / p == q
  {
  }

  lemma MulAssociates(a: real, b: real, c: real)
    ensures (a * b) * c == a * (b * c)
  {
  }

  lemma TenthOfProduct(x: real, y: real)
    ensures (x / 10.0) * y == (x * y) / 10.0
    ensures y * (x / 10.0) == (y * x) / 10.0
  {
  }

  lemma CancelFactor(x: real, p: real, q: real)
    requires p > 0.0 && q > 0.0
    ensures p * q > 0.0 && (x * q) / (p * q) == x / p
  {
    DivTimes(x, p);
    MulAssociates(x / p, p, q);
    DivUnique(x * q, p * q, x / p);
  }
}
