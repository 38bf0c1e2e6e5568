/** Facts about real products and quotients that the ledger proofs call by name. */
module RealArith {

  lemma MulPositive(x: real, y: real)
    requires x > 0.0 && y > 0.0
    ensures x * y > 0.0
  {
  }

  lemma MulNonNegative(x: real, y: real)
    requires x >= 0.0 && y >= 0.0
    ensures x * y >= 0.0
  {
  }

  lemma MulMonotone(x: real, y: real, k: real)
    requires x <= y && k >= 0.0
    ensures x * k <= y * k
  {
  }

  lemma MulCancel(x: real, y: real, k: real)
    requires k > 0.0 && x * k <= y * k
    ensures x <= y
  {
  }

  lemma DivTimes(x: real, y: real)
    requires y != 0.0
    ensures (x / y) * y == x
  {
  }

  lemma DivPositive(x: real, y: real)
    requires x > 0.0 && y > 0.0
    ensures x / y > 0.0
  {
  }

  lemma DivNonNegative(x: real, y: real)
    requires x >= 0.0 && y > 0.0
    ensures x / y >= 0.0
  {
  }

  /** q is x / y as soon as q * y is x. */
  lemma DivUnique(x: real, y: real, q: real)
    requires y != 0.0 && q * y == x
    ensures x / y == q
  {
    assert x / y == q * (y / y);
  }

  lemma DivCancel(x: real, y: real, k: real)
    requires y > 0.0 && k > 0.0
    ensures y * k > 0.0 && (x * k) / (y * k) == x / y
  {
    MulPositive(y, k);
    var q := x / y;
    assert q * (y * k) == (q * y) * k == x * k;
    DivUnique(x * k, y * k, q);
  }

  lemma QuotientAtLeast(n: real, w: real, bound: real)
    requires w > 0.0 && bound * w <= n
    ensures n / w >= bound
  {
  }

  lemma QuotientAtMost(n: real, w: real, bound: real)
    requires w > 0.0 && bound * w >= n
    ensures n / w <= bound
  {
  }

  /** A weighted mean of two numbers lies on the same side of `bound` as both of them. */
  lemma WeightedMeanAbove(x: real, a: real, y: real, b: real, bound: real)
    requires a > 0.0 && b > 0.0 && x >= bound && y >= bound
    ensures (x * a + y * b) / (a + b) >= bound
  {
    MulMonotone(bound, x, a);
    MulMonotone(bound, y, b);
    assert bound * (a + b) == bound * a + bound * b;
    QuotientAtLeast(x * a + y * b, a + b, bound);
  }

  lemma WeightedMeanBelow(x: real, a: real, y: real, b: real, bound: real)
    requires a > 0.0 && b > 0.0 && x <= bound && y <= bound
    ensures (x * a + y * b) / (a + b) <= bound
  {
    MulMonotone(x, bound, a);
    MulMonotone(y, bound, b);
    assert bound * (a + b) == bound * a + bound * b;
    QuotientAtMost(x * a + y * b, a + b, bound);
  }
}
