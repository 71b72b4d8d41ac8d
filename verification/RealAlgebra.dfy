/** The few facts about products and quotients of reals that the models use. */
module RealAlgebra {

  lemma ProductNonnegative(a: real, b: real)
    requires a >= 0.0 && b >= 0.0
    ensures a * b >= 0.0
  {
  }

  lemma ProductPositive(a: real, b: real)
    requires a > 0.0 && b > 0.0
    ensures a * b > 0.0
  {
  }

  lemma ProductMonotone(a: real, b: real, c: real)
    requires a <= b && c >= 0.0
    ensures a * c <= b * c
  {
    ProductNonnegative(b - a, c);
    assert (b - a) * c == b * c - a * c;
  }

  /** Products with a positive factor compare as the other factors do. */
  lemma ProductCancel(a: real, b: real, c: real)
    requires c > 0.0
    ensures a * c < b * c <==> a < b
    ensures a * c <= b * c <==> a <= b
  {
    if a <= b { ProductMonotone(a, b, c); } else { ProductMonotone(b, a, c); }
    if a < b {
      ProductPositive(b - a, c);
      assert (b - a) * c == b * c - a * c;
    } else if b < a {
      ProductPositive(a - b, c);
      assert (a - b) * c == a * c - b * c;
    }
  }

  lemma QuotientTimes(a: real, b: real)
    requires b > 0.0
    ensures a / b * b == a
  {
  }

  lemma QuotientSign(a: real, b: real)
    requires b > 0.0
    ensures a / b > 0.0 <==> a > 0.0
    ensures a / b < 0.0 <==> a < 0.0
  {
    QuotientTimes(a, b);
    ProductCancel(0.0, a / b, b);
    ProductCancel(a / b, 0.0, b);
  }

  lemma QuotientAtMost(a: real, b: real, bound: real)
    requires b > 0.0
    ensures a / b <= bound <==> a <= bound * b
  {
    QuotientTimes(a, b);
    ProductCancel(a / b, bound, b);
  }

  lemma QuotientAtLeast(a: real, b: real, bound: real)
    requires b > 0.0
    ensures a / b >= bound <==> a >= bound * b
  {
    QuotientTimes(a, b);
    ProductCancel(bound, a / b, b);
  }

  lemma QuotientUnique(q: real, a: real, b: real)
    requires b > 0.0 && q * b == a
    ensures q == a / b
  {
    QuotientTimes(a, b);
    ProductCancel(q, a / b, b);
    ProductCancel(a / b, q, b);
  }
}
