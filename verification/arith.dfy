/** Facts about percentages and ratios shared by the scoring modules. */
module Arith {

  /** A percentage `r` of `k` out of `n` (with `r * n == 100 k`) lies in
      [0, 100], is 100 exactly when `k == n` and 0 exactly when `k == 0`. */
  lemma PercentBounds(k: real, n: real, r: real)
    requires 0.0 <= k <= n && n > 0.0
    requires r * n == k * 100.0
    ensures 0.0 <= r <= 100.0
    ensures r == 100.0 <==> k == n
    ensures r == 0.0 <==> k == 0.0
  {
    MulCompare(r, 100.0, n);
    MulCompare(r, 0.0, n);
    assert k * 100.0 <= n * 100.0;
    assert 100.0 * n == n * 100.0;
    assert 0.0 * n == 0.0;
    assert !(r * n < 0.0 * n);
    assert !(r < 0.0);
    assert !(100.0 * n < r * n);
    assert !(100.0 < r) by {
      MulCompare(100.0, r, n);
    }
  }

  /** Multiplying by a positive number keeps the order of two numbers. */
  lemma MulCompare(a: real, b: real, n: real)
    requires n > 0.0
    ensures a < b <==> a * n < b * n
    ensures a == b <==> a * n == b * n
  {
    if a < b {
      assert (b - a) * n > 0.0;
    } else if a > b {
      assert (a - b) * n > 0.0;
    }
  }

  /** `k / n` for a part `k` of a positive whole `n`: a share in [0, 1],
      0 for no part and 1 for the whole. */
  function Fraction(k: nat, n: nat): (q: real)
    requires k <= n && n > 0
    ensures 0.0 <= q <= 1.0
    ensures q * n as real == k as real
    ensures q == 0.0 <==> k == 0
    ensures q == 1.0 <==> k == n
  {
    var q := k as real / n as real;
    assert q * n as real == k as real;
    MulCompare(q, 1.0, n as real);
    MulCompare(q, 0.0, n as real);
    q
  }

  /** Brings the ratio `Fraction` keeps into scope at a call site. */
  lemma FractionSpec(k: nat, n: nat)
    requires k <= n && n > 0
    ensures 0.0 <= Fraction(k, n) <= 1.0
    ensures Fraction(k, n) * n as real == k as real
  {
  }

  /** Scaling a ratio scales what it multiplies out to. */
  lemma Scale(q: real, n: real, k: real, c: real)
    requires q * n == k
    ensures (q * c) * n == k * c
  {
    assert (q * c) * n == (q * n) * c;
  }

  /** A larger part has a larger share of the same whole. */
  lemma FractionMonotone(a: nat, b: nat, n: nat)
    requires a <= n && b <= n && n > 0
    ensures a <= b <==> Fraction(a, n) <= Fraction(b, n)
  {
    RatioOrder(Fraction(a, n), Fraction(b, n), a as real, b as real, n as real);
  }

  /** Two ratios of the same positive whole are ordered as their parts. */
  lemma RatioOrder(qa: real, qb: real, a: real, b: real, n: real)
    requires n > 0.0 && qa * n == a && qb * n == b
    ensures a <= b <==> qa <= qb
  {
    MulCompare(qb, qa, n);
  }
}
