/**
 * Facts about products and quotients of reals that the proofs need by name.
 */
module Arithmetic {

  lemma MulPositive(a: real, b: real)
    requires a > 0.0 && b > 0.0
    ensures a * b > 0.0
  {
  }

  lemma MulNonNegative(a: real, b: real)
    requires a >= 0.0 && b >= 0.0
    ensures a * b >= 0.0
  {
  }

  lemma DivMul(a: real, b: real)
    requires b != 0.0
    ensures a / b * b == a
  {
  }

  lemma MulDiv(a: real, b: real)
    requires b != 0.0
    ensures a * b / b == a
  {
  }

  lemma DivPositive(a: real, b: real)
    requires a > 0.0 && b > 0.0
    ensures a / b > 0.0
  {
    DivMul(a, b);
  }

  lemma DivNonNegative(a: real, b: real)
    requires a >= 0.0 && b > 0.0
    ensures a / b >= 0.0
  {
    if a > 0.0 {
      DivPositive(a, b);
    }
  }

  /** A factor has the sign of its product with a positive number. */
  lemma SignOfFactor(k: real, x: real)
    requires k > 0.0 && x * k >= 0.0
    ensures x >= 0.0
  {
    MulDiv(x, k);
    DivNonNegative(x * k, k);
  }

  lemma ScaleUp(a: real, b: real, k: real)
    requires a <= b && k >= 0.0
    ensures a * k <= b * k
  {
    MulNonNegative(b - a, k);
    assert (b - a) * k == b * k - a * k;
  }

  lemma ScaleDown(a: real, b: real, k: real)
    requires a <= b && k > 0.0
    ensures a / k <= b / k
  {
    DivNonNegative(b - a, k);
    assert (b - a) / k == b / k - a / k;
  }

  lemma FloorMonotone(a: real, b: real)
    requires a <= b
    ensures a.Floor <= b.Floor
  {
  }
}
