/** Small facts of real arithmetic that the solver does not find unaided
    (products and quotients of variables). */
module RealArith {

  lemma MulLe(x: real, y: real, b: real)
    ensures b >= 0.0 && x <= y ==> x * b <= y * b
  {
  }

  lemma MulLt(x: real, y: real, b: real)
    ensures b > 0.0 && x < y ==> x * b < y * b
  {
  }

  /** A quotient of a non-negative numerator by a larger denominator is in [0, 1). */
  lemma DivInUnit(a: real, b: real)
    requires b > 0.0 && 0.0 <= a < b
    ensures 0.0 <= a / b < 1.0
  {
    var q := a / b;
    assert q * b == a;
    MulLe(1.0, q, b);
    assert 1.0 <= q ==> b <= q * b;
    MulLt(q, 0.0, b);
    assert q < 0.0 ==> q * b < 0.0 * b;
  }

  lemma DivPositive(a: real, b: real)
    requires a > 0.0 && b > 0.0
    ensures a / b > 0.0
  {
    var q := a / b;
    assert q * b == a;
    MulLe(q, 0.0, b);
    assert q <= 0.0 ==> q * b <= 0.0 * b;
  }

  /** A factor in [-1, 1] shrinks a non-negative magnitude. */
  lemma BoundedFactor(c: real, r: real)
    requires -1.0 <= c <= 1.0 && r >= 0.0
    ensures -r <= c * r <= r
  {
    assert (1.0 - c) * r >= 0.0;
    assert (1.0 + c) * r >= 0.0;
  }

  lemma SquareInUnit(f: real)
    requires 0.0 <= f <= 1.0
    ensures 0.0 <= f * f <= f
    ensures 0.0 < f < 1.0 ==> 0.0 < f * f < f
  {
    MulLe(f, 1.0, f);
    MulLt(f, 1.0, f);
    MulLt(0.0, f, f);
  }

  lemma CubeInUnit(q: real)
    requires 0.0 <= q <= 1.0
    ensures 0.0 <= q * q * q <= q
    ensures q > 0.0 ==> q * q * q > 0.0
  {
    SquareInUnit(q);
    MulLe(q * q, 1.0, q);
    MulLt(0.0, q * q, q);
  }

  /** A product kept as a function term: a fact stated about `Product(a, b)`
      stays usable where the solver would otherwise rewrite `a * a > 0` away. */
  function Product(a: real, b: real): real {
    a * b
  }

  lemma ProductPositive(a: real, b: real)
    requires a > 0.0 && b > 0.0
    ensures Product(a, b) > 0.0
  {
  }
}
