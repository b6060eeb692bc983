/** The convergence report printed after the solver returns: a reduced
    chi-squared within `1 +- 3 * sqrt(2 / nfev)` of 1 is reported as not
    distinguishable from a perfect fit. The square root is not computed:
    it is a parameter `s` with `s >= 0` and `s * s == 2 / nfev`. */
module Diagnostics {

  datatype Band = Band(lower: real, upper: real)

  /** `s` is the square root of `2 / nfev`. */
  predicate IsSigma(nfev: int, s: real)
  {
    nfev > 0 && s >= 0.0 && s * s == 2.0 / nfev as real
  }

  /** The printed 3-sigma band `[1 - 3s, 1 + 3s]`. */
  function SigmaBand(nfev: int, s: real): (b: Band)
    requires IsSigma(nfev, s)
    ensures b.upper - 1.0 == 1.0 - b.lower
    ensures b.lower <= 1.0 <= b.upper
  {
    Band(1.0 - s * 3.0, 1.0 + s * 3.0)
  }

  /** A reduced chi-squared inside the band: the fit is called uncertain. */
  predicate InBand(chi2: real, b: Band)
  {
    b.lower <= chi2 <= b.upper
  }

  lemma SquareStrict(a: real, b: real)
    requires a > b >= 0.0
    ensures a * a > b * b
  {
    calc {
      a * a;
    >  { assert (a - b) * a > 0.0; }
      b * a;
    >= { assert b * (a - b) >= 0.0; }
      b * b;
    }
  }

  /** Dividing both sides of `u * k <= v * k` by a positive `k`. */
  lemma CancelPositive(u: real, v: real, k: real)
    requires k > 0.0 && u * k <= v * k
    ensures u <= v
  {
    assert (v - u) * k >= 0.0;
    assert v - u == ((v - u) * k) / k;
  }

  /** Square roots are monotone on non-negative numbers. */
  lemma SqrtMonotone(s: real, t: real)
    requires s >= 0.0 && t >= 0.0 && s * s <= t * t
    ensures s <= t
  {
    if s > t {
      SquareStrict(s, t);
      assert false;
    }
  }

  /** `2 / n` shrinks as `n` grows. */
  lemma QuotientAntitone(n1: int, n2: int)
    requires 0 < n1 <= n2
    ensures 2.0 / n2 as real <= 2.0 / n1 as real
  {
    var r1, r2 := n1 as real, n2 as real;
    var x, y := 2.0 / r1, 2.0 / r2;
    calc {
      y * r1;
    <= { assert y * (r2 - r1) >= 0.0; }
      y * r2;
    ==
      2.0;
    ==
      x * r1;
    }
    CancelPositive(y, x, r1);
  }

  /** A perfect fit is always inside its own band. */
  lemma PerfectFitInBand(nfev: int, s: real)
    requires IsSigma(nfev, s)
    ensures InBand(1.0, SigmaBand(nfev, s))
  {
  }

  /** From two evaluations on the band is at most `[-2, 4]`, so a reduced
      chi-squared of 5 lies outside it. */
  lemma FiveOutsideBand(nfev: int, s: real)
    requires IsSigma(nfev, s) && nfev >= 2
    ensures SigmaBand(nfev, s).upper <= 4.0
    ensures !InBand(5.0, SigmaBand(nfev, s))
  {
    QuotientAntitone(2, nfev);
    SqrtMonotone(s, 1.0);
  }

  /** More evaluations never widen the band. */
  lemma BandNarrows(n1: int, s1: real, n2: int, s2: real)
    requires IsSigma(n1, s1) && IsSigma(n2, s2) && n1 <= n2
    ensures SigmaBand(n1, s1).lower <= SigmaBand(n2, s2).lower
    ensures SigmaBand(n2, s2).upper <= SigmaBand(n1, s1).upper
  {
    QuotientAntitone(n1, n2);
    SqrtMonotone(s2, s1);
  }

  /** After 50 function evaluations the band is [0.4, 1.6]. */
  lemma BandAtFifty()
    ensures IsSigma(50, 0.2)
    ensures SigmaBand(50, 0.2) == Band(0.4, 1.6)
    ensures InBand(1.0, SigmaBand(50, 0.2)) && !InBand(5.0, SigmaBand(50, 0.2))
  {
  }
}
