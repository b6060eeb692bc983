/** The optimizer's objective: the four metrics the runtime simulation
    returns for a candidate correction matrix are reduced to one reduced
    chi-squared value, with a plateau at 1.0 once the value is close
    enough to ideal. The simulation itself is an input here. */
module Cost {

  import opened Numeric

  /** The runtime simulation returns (opd_rms, strehl, spotsize_rms, mtf). */
  const MetricCount: nat := 4
  /** The Strehl ratio is the one metric where higher is better. */
  const StrehlIndex: nat := 1

  const ExpectedOpd: real := 0.01
  const ExpectedStrehl: real := 1.0
  const ExpectedSpotsizeRms: real := 0.003
  const ExpectedMtf: real := 1.0
  const ExpectedValues: seq<real> := [ExpectedOpd, ExpectedStrehl, ExpectedSpotsizeRms, ExpectedMtf]

  const SoftnessScale: real := 1.0
  const Rescaling: seq<real> := [SoftnessScale * 1.0, SoftnessScale * 1.0, SoftnessScale * 1.0, SoftnessScale * 1.0]

  /** The plateau test is numpy `allclose` with atol 0.1 and its default rtol 1e-5. */
  const AbsTolerance: real := 0.1
  const RelTolerance: real := 0.00001
  /** Means up to this bound fall on the plateau: 1 + atol + rtol * 1. */
  const PlateauBound: real := 1.10001

  /** numpy `allclose(a, b, atol)` for scalars: |a - b| <= atol + rtol * |b|. */
  predicate AllClose(a: real, b: real, atol: real)
  {
    Abs(a - b) <= atol + RelTolerance * Abs(b)
  }

  /** What the reduction needs to stay finite: four entries in each vector,
      no zero expected value, and a Strehl term that can be inverted. */
  predicate Admissible(raw: seq<real>, expected: seq<real>, weights: seq<real>)
  {
    |raw| == MetricCount && |expected| == MetricCount && |weights| == MetricCount &&
    (forall i :: 0 <= i < MetricCount ==> expected[i] != 0.0) &&
    raw[StrehlIndex] != 0.0 && weights[StrehlIndex] != 0.0
  }

  /** Metric `i` divided by its expected value and multiplied by its weight. */
  function Ratio(raw: seq<real>, expected: seq<real>, weights: seq<real>, i: nat): real
    requires Admissible(raw, expected, weights) && i < MetricCount
  {
    raw[i] / expected[i] * weights[i]
  }

  /** The normalised residual vector: every ratio, with the Strehl term inverted. */
  function Normalise(raw: seq<real>, expected: seq<real>, weights: seq<real>): (r: seq<real>)
    requires Admissible(raw, expected, weights)
    ensures |r| == MetricCount
    ensures forall i :: 0 <= i < MetricCount && i != StrehlIndex ==> r[i] == Ratio(raw, expected, weights, i)
    ensures r[StrehlIndex] * Ratio(raw, expected, weights, StrehlIndex) == 1.0
  {
    seq(MetricCount, i requires 0 <= i < MetricCount =>
      if i == StrehlIndex then 1.0 / Ratio(raw, expected, weights, i) else Ratio(raw, expected, weights, i))
  }

  /** Sum of the squares of the entries. */
  function SumSquares(r: seq<real>): (s: real)
    ensures s >= 0.0
  {
    if r == [] then 0.0 else SumSquares(r[..|r| - 1]) + r[|r| - 1] * r[|r| - 1]
  }

  /** `np.mean(np.square(r))`. */
  function MeanOfSquares(r: seq<real>): (m: real)
    requires |r| > 0
    ensures m >= 0.0
  {
    SumSquares(r) / |r| as real
  }

  /** The plateau rule: 1.0 when `max(mean, 1)` is allclose to 1, else the mean. */
  function Plateau(mean: real): (c: real)
    ensures c >= 1.0
    ensures c == 1.0 || c > PlateauBound
  {
    if AllClose(Max(mean, 1.0), 1.0, AbsTolerance) then 1.0 else mean
  }

  /** The scalar cost of one simulation result. */
  function Cost(raw: seq<real>, expected: seq<real>, weights: seq<real>): (c: real)
    requires Admissible(raw, expected, weights)
    ensures c >= 1.0
    ensures c == 1.0 || c > PlateauBound
  {
    Plateau(MeanOfSquares(Normalise(raw, expected, weights)))
  }

  /** The objective as the optimizer runs it: the residual vector is built
      in an array, its Strehl entry inverted in place, and the squares
      summed before the plateau test. */
  method Objective(raw: seq<real>, expected: seq<real>, weights: seq<real>) returns (cost: real)
    requires Admissible(raw, expected, weights)
    ensures cost == Cost(raw, expected, weights)
  {
    var out := new real[MetricCount];
    forall i | 0 <= i < MetricCount {
      out[i] := raw[i] / expected[i] * weights[i];
    }
    out[StrehlIndex] := 1.0 / out[StrehlIndex];
    ghost var r := Normalise(raw, expected, weights);
    forall i | 0 <= i < MetricCount
      ensures out[i] == r[i]
    {
    }
    assert out[..] == r;
    var sum := SquareSum(out);
    var mean := sum / MetricCount as real;
    if AllClose(Max(mean, 1.0), 1.0, AbsTolerance) {
      cost := 1.0;
    } else {
      cost := mean;
    }
  }

  /** The sum of the squares of an array's entries, accumulated left to right. */
  method SquareSum(a: array<real>) returns (sum: real)
    ensures sum == SumSquares(a[..])
  {
    sum := 0.0;
    for i := 0 to a.Length
      invariant sum == SumSquares(a[..i])
    {
      assert a[..i + 1][..i] == a[..i];
      sum := sum + a[i] * a[i];
    }
    assert a[..a.Length] == a[..];
  }

  /** The plateau test holds exactly for means up to 1 + atol + rtol. */
  lemma PlateauThreshold(mean: real)
    ensures AllClose(Max(mean, 1.0), 1.0, AbsTolerance) <==> mean <= PlateauBound
    ensures Plateau(mean) == 1.0 <==> mean <= PlateauBound
    ensures mean > PlateauBound ==> Plateau(mean) == mean
  {
  }

  /** The cost never decreases as the mean of squares grows. */
  lemma PlateauMonotone(m1: real, m2: real)
    requires m1 <= m2
    ensures Plateau(m1) <= Plateau(m2)
  {
    PlateauThreshold(m1);
    PlateauThreshold(m2);
  }

  /** A result that equals the expected values, with unit weights, has
      every residual equal to 1 and costs exactly 1. */
  lemma CostAtExpected(expected: seq<real>)
    requires |expected| == MetricCount && forall i :: 0 <= i < MetricCount ==> expected[i] != 0.0
    ensures Admissible(expected, expected, [1.0, 1.0, 1.0, 1.0])
    ensures Normalise(expected, expected, [1.0, 1.0, 1.0, 1.0]) == [1.0, 1.0, 1.0, 1.0]
    ensures MeanOfSquares(Normalise(expected, expected, [1.0, 1.0, 1.0, 1.0])) == 1.0
    ensures Cost(expected, expected, [1.0, 1.0, 1.0, 1.0]) == 1.0
  {
    var ones := [1.0, 1.0, 1.0, 1.0];
    var r := Normalise(expected, expected, ones);
    forall i | 0 <= i < MetricCount
      ensures r[i] == 1.0
    {
      assert Ratio(expected, expected, ones, i) == 1.0;
    }
    assert r == ones;
    assert ones[..1][..0] == [] && ones[..2][..1] == ones[..1];
    assert ones[..3][..2] == ones[..2] && ones[..3] == ones[..|ones| - 1];
    assert SumSquares(ones[..1]) == 1.0;
    assert SumSquares(ones[..2]) == 2.0;
    assert SumSquares(ones[..3]) == 3.0;
  }

  /** With the optimizer's own expected values and rescaling the ideal
      result costs exactly 1. */
  lemma CostAtConfiguredExpected()
    ensures Admissible(ExpectedValues, ExpectedValues, Rescaling)
    ensures Cost(ExpectedValues, ExpectedValues, Rescaling) == 1.0
  {
    assert Rescaling == [1.0, 1.0, 1.0, 1.0];
    CostAtExpected(ExpectedValues);
  }

  /** Flipping the sign of any entries leaves the sum of squares unchanged. */
  lemma {:induction false} SumSquaresSignInvariant(r: seq<real>, q: seq<real>)
    requires |r| == |q| && forall i :: 0 <= i < |r| ==> q[i] == r[i] || q[i] == -r[i]
    ensures SumSquares(q) == SumSquares(r)
  {
    if r != [] {
      SumSquaresSignInvariant(r[..|r| - 1], q[..|q| - 1]);
    }
  }

  /** Only magnitudes matter: the cost is the same for every choice of
      signs of the raw metrics. */
  lemma CostSignInvariant(raw: seq<real>, flipped: seq<real>, expected: seq<real>, weights: seq<real>)
    requires Admissible(raw, expected, weights)
    requires |flipped| == MetricCount
    requires forall i :: 0 <= i < MetricCount ==> flipped[i] == raw[i] || flipped[i] == -raw[i]
    ensures Admissible(flipped, expected, weights)
    ensures Cost(flipped, expected, weights) == Cost(raw, expected, weights)
  {
    var r := Normalise(raw, expected, weights);
    var q := Normalise(flipped, expected, weights);
    forall i | 0 <= i < MetricCount
      ensures q[i] == r[i] || q[i] == -r[i]
    {
      RatioSign(raw, flipped, expected, weights, i);
      if i == StrehlIndex && flipped[i] != raw[i] {
        NegateQuotient(1.0, Ratio(raw, expected, weights, i));
      }
    }
    SumSquaresSignInvariant(r, q);
  }

  lemma RatioSign(raw: seq<real>, flipped: seq<real>, expected: seq<real>, weights: seq<real>, i: nat)
    requires Admissible(raw, expected, weights) && Admissible(flipped, expected, weights) && i < MetricCount
    requires flipped[i] == raw[i] || flipped[i] == -raw[i]
    ensures flipped[i] == raw[i] ==> Ratio(flipped, expected, weights, i) == Ratio(raw, expected, weights, i)
    ensures flipped[i] != raw[i] ==> Ratio(flipped, expected, weights, i) == -Ratio(raw, expected, weights, i)
  {
    if flipped[i] != raw[i] {
      NegateQuotient(raw[i], expected[i]);
    }
  }

  lemma NegateQuotient(a: real, e: real)
    requires e != 0.0
    ensures (-a) / e == -(a / e)
  {
    var q := a / e;
    assert q * e == a;
    assert (-q) * e == -a;
  }

  /** Larger residuals (in magnitude) give a larger sum of squares. */
  lemma {:induction false} SumSquaresMonotone(r: seq<real>, q: seq<real>)
    requires |r| == |q| && forall i :: 0 <= i < |r| ==> Abs(r[i]) <= Abs(q[i])
    ensures SumSquares(r) <= SumSquares(q)
  {
    if r != [] {
      var n := |r| - 1;
      SumSquaresMonotone(r[..n], q[..n]);
      SquareMonotone(r[n], q[n]);
    }
  }

  lemma SquareMonotone(x: real, y: real)
    requires Abs(x) <= Abs(y)
    ensures x * x <= y * y
  {
    var a, b := Abs(x), Abs(y);
    assert x * x == a * a by {
      assert (-x) * (-x) == x * x;
    }
    assert y * y == b * b by {
      assert (-y) * (-y) == y * y;
    }
    calc {
      a * a;
    <= { MulNonNeg(a, b - a); }
      a * b;
    <= { MulNonNeg(b - a, b); }
      b * b;
    }
  }

  /** The cost grows with the normalised residuals: if every residual of
      one result is at most the matching residual of another in magnitude,
      its cost is at most the other's. */
  lemma CostMonotone(raw1: seq<real>, raw2: seq<real>, expected: seq<real>, weights: seq<real>)
    requires Admissible(raw1, expected, weights) && Admissible(raw2, expected, weights)
    requires forall i :: 0 <= i < MetricCount ==>
      Abs(Normalise(raw1, expected, weights)[i]) <= Abs(Normalise(raw2, expected, weights)[i])
    ensures MeanOfSquares(Normalise(raw1, expected, weights)) <= MeanOfSquares(Normalise(raw2, expected, weights))
    ensures Cost(raw1, expected, weights) <= Cost(raw2, expected, weights)
  {
    var r1 := Normalise(raw1, expected, weights);
    var r2 := Normalise(raw2, expected, weights);
    SumSquaresMonotone(r1, r2);
    PlateauMonotone(MeanOfSquares(r1), MeanOfSquares(r2));
  }

  /** Every squared entry at least `b` makes the sum at least `|r| * b`. */
  lemma {:induction false} SumSquaresLowerBound(r: seq<real>, b: real)
    requires forall i :: 0 <= i < |r| ==> r[i] * r[i] >= b
    ensures SumSquares(r) >= |r| as real * b
  {
    if r != [] {
      SumSquaresLowerBound(r[..|r| - 1], b);
    }
  }

  /** When every normalised residual squared exceeds the plateau bound the
      cost is the unclamped mean, which is strictly above 1. */
  lemma CostAbovePlateau(raw: seq<real>, expected: seq<real>, weights: seq<real>, b: real)
    requires Admissible(raw, expected, weights) && b > PlateauBound
    requires forall i :: 0 <= i < MetricCount ==>
      Normalise(raw, expected, weights)[i] * Normalise(raw, expected, weights)[i] >= b
    ensures MeanOfSquares(Normalise(raw, expected, weights)) >= b
    ensures Cost(raw, expected, weights) == MeanOfSquares(Normalise(raw, expected, weights)) > 1.0
  {
    var r := Normalise(raw, expected, weights);
    assert forall i :: 0 <= i < |r| ==> r[i] * r[i] >= b;
    SumSquaresLowerBound(r, b);
    var m := MeanOfSquares(r);
    assert m == SumSquares(r) / 4.0;
    PlateauThreshold(m);
  }
}
