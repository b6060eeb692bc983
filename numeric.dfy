/** Scalar helpers shared by the cost, the seed and the colour map: numpy's
    `abs`, `maximum` and `minimum` on one real. */
module Numeric {

  function Abs(x: real): (a: real)
    ensures a >= 0.0 && (a == x || a == -x)
  {
    if x < 0.0 then -x else x
  }

  function Max(a: real, b: real): (m: real)
    ensures m >= a && m >= b && (m == a || m == b)
  {
    if a < b then b else a
  }

  function Min(a: real, b: real): (m: real)
    ensures m <= a && m <= b && (m == a || m == b)
  {
    if a < b then a else b
  }

  /** |x * k| == |x| * k for a non-negative factor. */
  lemma AbsScale(x: real, k: real)
    requires k >= 0.0
    ensures Abs(x * k) == Abs(x) * k
  {
    if x < 0.0 {
      assert x * k <= 0.0;
      assert -(x * k) == (-x) * k;
    } else {
      assert x * k >= 0.0;
    }
  }

  /** A product with a positive factor has the sign of the other factor. */
  lemma FactorSign(x: real, w: real)
    requires w > 0.0
    ensures x * w > 0.0 ==> x > 0.0
    ensures x * w < 0.0 ==> x < 0.0
    ensures x * w == 0.0 ==> x == 0.0
  {
    if x > 0.0 {
      assert x * w > 0.0;
    } else if x < 0.0 {
      assert (-x) * w > 0.0;
    }
  }

  /** Sign and size of a quotient by a positive number. */
  lemma QuotientBounds(n: real, w: real)
    requires w > 0.0
    ensures n > w ==> n / w > 1.0
    ensures n <= w ==> n / w <= 1.0
    ensures n < 0.0 ==> n / w < 0.0
    ensures n >= 0.0 ==> n / w >= 0.0
    ensures n == w ==> n / w == 1.0
  {
    var q := n / w;
    assert q * w == n;
    assert (q - 1.0) * w == n - w;
    FactorSign(q, w);
    FactorSign(q - 1.0, w);
  }

  /** The product of two non-negative numbers is non-negative. */
  lemma MulNonNeg(x: real, y: real)
    requires x >= 0.0 && y >= 0.0
    ensures x * y >= 0.0
  {
  }

  lemma ProductInUnit(x: real, y: real)
    requires 0.0 <= x <= 1.0 && 0.0 <= y <= 1.0
    ensures 0.0 <= x * y <= 1.0
  {
    calc {
      0.0;
    <= { assert x * (y - 0.0) >= 0.0; }
      x * y;
    <= { assert x * (1.0 - y) >= 0.0; }
      x * 1.0;
    <=
      1.0;
    }
  }
}
