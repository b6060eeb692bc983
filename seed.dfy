/** The start point of the optimization: the nominal correction matrix
    (4 rows of 18 coefficients) plus Gaussian noise scaled per column by
    the mean absolute value of that column, then transposed to the
    optimizer's 18 x 4 shape. The random draws are an input `z`; the
    script draws them with mean 0 and standard deviation 1e-4. */
module Perturbation {

  import opened Numeric
  import opened Matrix

  /** `matrix_shape`: 18 mirror segments with 4 coefficients each. */
  const Segments: nat := 18
  const Coefficients: nat := 4

  /** The hard-coded nominal correction matrix, one row per coefficient. */
  const NominalCorrection: seq<seq<real>> := [
      [0.414170806677252, 0.300243140031183, 0.439976576044261, 0.0152119184255706, -0.128208842154579, 0.478345378762405,
       0.0754076647493227, 0.651252356266327, 0.101404608428473, 0.0391465366416755, 0.548089404530392, 0.266178356301017,
       -0.360151894856671, 0.385371897751932, 0.300917231394459, -0.546668246684149, -0.238745289802985, -0.585858177909011],
      [0.139276147276064, -0.390138294249314, -0.411334159967717, 0.338255587537226, 0.350357337374621, -0.244629702055557,
       -0.188140054852467, -0.208542872352273, 0.252227970049943, 0.0246373453963109, 0.411647424007853, 0.210408685278169,
       0.472651076977497, -0.182166946273771, 0.0847186192633207, -0.390257631406097, -0.230116336295599, -0.0477925462370182],
      [-0.214891914341358, -0.0239202817325437, 0.326573979042765, 0.0709910754624060, -0.438971070807491, -0.309013559302602,
       0.327732173448263, -0.292396965620019, 0.176871093438419, -0.181895273849737, -0.352344222848263, -0.330232933973511,
       0.448108735396022, -0.366189014643874, 0.171462889478031, -0.0574700377971163, -0.106588493632423, 0.0846413033551107],
      [-4.77158933834332, -5.90414896183012, 6.46915662700510, 12.3803995282438, -7.83571389646577, 7.02863171336911,
       -7.60505047433170, 12.3089743294982, 7.55653924410722, -1.89433225241735, 5.72159670128435, -0.0411604369112084,
       7.72475667997612, -3.58727666297385, -10.6689141377548, 2.27478638187123, 10.2546957682035, -7.65585159583474]
    ]

  /** Sum of `|m[i][j]|` over the rows of `m`. */
  function ColumnAbsSum(m: seq<seq<real>>, j: nat): (s: real)
    requires forall i :: 0 <= i < |m| ==> j < |m[i]|
    ensures s >= 0.0
  {
    if m == [] then 0.0 else ColumnAbsSum(m[..|m| - 1], j) + Abs(m[|m| - 1][j])
  }

  /** `np.mean(np.abs(m), axis=0)`: the mean magnitude of each column. */
  function ColumnMeanAbs(m: seq<seq<real>>, rows: nat, cols: nat): (means: seq<real>)
    requires IsMatrix(m, rows, cols) && rows > 0
    ensures |means| == cols
    ensures forall j :: 0 <= j < cols ==> means[j] >= 0.0
  {
    seq(cols, j requires 0 <= j < cols => ColumnAbsSum(m, j) / rows as real)
  }

  /** No entry of a column is larger in magnitude than the column's sum. */
  lemma {:induction false} ColumnAbsSumBound(m: seq<seq<real>>, j: nat, i: nat)
    requires forall k :: 0 <= k < |m| ==> j < |m[k]|
    requires i < |m|
    ensures Abs(m[i][j]) <= ColumnAbsSum(m, j)
  {
    if i < |m| - 1 {
      ColumnAbsSumBound(m[..|m| - 1], j, i);
    }
  }

  /** A column is zero exactly when its mean magnitude is zero. */
  lemma {:induction false} ColumnAbsSumZero(m: seq<seq<real>>, j: nat)
    requires forall k :: 0 <= k < |m| ==> j < |m[k]|
    ensures ColumnAbsSum(m, j) == 0.0 <==> forall i :: 0 <= i < |m| ==> m[i][j] == 0.0
  {
    if m != [] {
      ColumnAbsSumZero(m[..|m| - 1], j);
      assert forall i :: 0 <= i < |m| - 1 ==> m[..|m| - 1][i] == m[i];
    }
  }

  /** The nominal matrix after `correction_mat += noise`, where
      `noise[i][j] == z[i][j] * means[j]`. */
  function Perturbed(m: seq<seq<real>>, z: seq<seq<real>>, rows: nat, cols: nat): (p: seq<seq<real>>)
    requires IsMatrix(m, rows, cols) && IsMatrix(z, rows, cols) && rows > 0
    ensures IsMatrix(p, rows, cols)
  {
    var means := ColumnMeanAbs(m, rows, cols);
    seq(rows, i requires 0 <= i < rows => seq(cols, j requires 0 <= j < cols => m[i][j] + z[i][j] * means[j]))
  }

  /** The start point handed to the optimizer: the perturbed matrix, transposed. */
  function SeedOf(m: seq<seq<real>>, z: seq<seq<real>>, rows: nat, cols: nat): (s: seq<seq<real>>)
    requires IsMatrix(m, rows, cols) && IsMatrix(z, rows, cols) && rows > 0
    ensures IsMatrix(s, cols, rows)
  {
    Transpose(Perturbed(m, z, rows, cols), rows, cols)
  }

  lemma PerturbedAt(m: seq<seq<real>>, z: seq<seq<real>>, rows: nat, cols: nat, i: nat, j: nat)
    requires IsMatrix(m, rows, cols) && IsMatrix(z, rows, cols) && rows > 0
    requires i < rows && j < cols
    ensures Perturbed(m, z, rows, cols)[i][j] == m[i][j] + z[i][j] * ColumnMeanAbs(m, rows, cols)[j]
  {
  }

  /** Entry `(j, i)` of the seed is nominal entry `(i, j)` moved by its
      draw times the column's mean magnitude. */
  lemma SeedAt(m: seq<seq<real>>, z: seq<seq<real>>, rows: nat, cols: nat, i: nat, j: nat)
    requires IsMatrix(m, rows, cols) && IsMatrix(z, rows, cols) && rows > 0
    requires i < rows && j < cols
    ensures SeedOf(m, z, rows, cols)[j][i] == m[i][j] + z[i][j] * ColumnMeanAbs(m, rows, cols)[j]
  {
  }

  /** The perturbation of each entry is its draw scaled by the mean
      magnitude of its column. */
  lemma SeedDeviation(m: seq<seq<real>>, z: seq<seq<real>>, rows: nat, cols: nat, i: nat, j: nat)
    requires IsMatrix(m, rows, cols) && IsMatrix(z, rows, cols) && rows > 0
    requires i < rows && j < cols
    ensures Abs(SeedOf(m, z, rows, cols)[j][i] - m[i][j]) == Abs(z[i][j]) * ColumnMeanAbs(m, rows, cols)[j]
  {
    SeedAt(m, z, rows, cols, i, j);
    AbsScale(z[i][j], ColumnMeanAbs(m, rows, cols)[j]);
  }

  /** The scale of a column's noise is at least each entry's magnitude
      over the row count, so columns of larger coefficients move more. */
  lemma MeanDominates(m: seq<seq<real>>, rows: nat, cols: nat, i: nat, j: nat)
    requires IsMatrix(m, rows, cols) && rows > 0 && i < rows && j < cols
    ensures ColumnMeanAbs(m, rows, cols)[j] * rows as real >= Abs(m[i][j])
  {
    var r := rows as real;
    var sum := ColumnAbsSum(m, j);
    MeanAt(m, rows, cols, j);
    ColumnAbsSumBound(m, j, i);
    assert (sum / r) * r == sum;
  }

  lemma MeanAt(m: seq<seq<real>>, rows: nat, cols: nat, j: nat)
    requires IsMatrix(m, rows, cols) && rows > 0 && j < cols
    ensures ColumnMeanAbs(m, rows, cols)[j] == ColumnAbsSum(m, j) / rows as real
  {
  }

  /** Zero draws leave the nominal matrix, merely transposed. */
  lemma SeedZeroNoise(m: seq<seq<real>>, z: seq<seq<real>>, rows: nat, cols: nat)
    requires IsMatrix(m, rows, cols) && IsMatrix(z, rows, cols) && rows > 0
    requires forall i, j :: 0 <= i < rows && 0 <= j < cols ==> z[i][j] == 0.0
    ensures SeedOf(m, z, rows, cols) == Transpose(m, rows, cols)
  {
    MatrixEq(SeedOf(m, z, rows, cols), Transpose(m, rows, cols), cols, rows);
  }

  /** The nominal matrix is 4 x 18, so its seed has the optimizer's shape
      18 x 4 and survives the solver's flatten / reshape round trip. */
  lemma NominalSeedShape(z: seq<seq<real>>)
    requires IsMatrix(z, Coefficients, Segments)
    ensures IsMatrix(NominalCorrection, Coefficients, Segments)
    ensures IsMatrix(SeedOf(NominalCorrection, z, Coefficients, Segments), Segments, Coefficients)
    ensures |Flatten(SeedOf(NominalCorrection, z, Coefficients, Segments))| == Segments * Coefficients
    ensures Reshape(Flatten(SeedOf(NominalCorrection, z, Coefficients, Segments)), Segments, Coefficients)
         == SeedOf(NominalCorrection, z, Coefficients, Segments)
  {
    ReshapeFlatten(SeedOf(NominalCorrection, z, Coefficients, Segments), Segments, Coefficients);
  }

  /** The column means of an array, one column at a time. */
  method ColumnMeans(a: array2<real>) returns (means: seq<real>)
    requires a.Length0 > 0
    ensures means == ColumnMeanAbs(ToRows(a), a.Length0, a.Length1)
  {
    ghost var m := ToRows(a);
    means := [];
    for j := 0 to a.Length1
      invariant means == ColumnMeanAbs(m, a.Length0, a.Length1)[..j]
    {
      var sum := 0.0;
      for i := 0 to a.Length0
        invariant sum == ColumnAbsSum(m[..i], j)
      {
        assert m[..i + 1][..i] == m[..i];
        sum := sum + Abs(a[i, j]);
      }
      assert m[..a.Length0] == m;
      means := means + [sum / a.Length0 as real];
    }
  }

  /** `correction_mat += noise` with `noise[i, j] == z[i, j] * means[j]`,
      where `means` are the column means of the matrix before the update. */
  method AddNoise(mat: array2<real>, z: array2<real>, means: seq<real>)
    requires z.Length0 == mat.Length0 && z.Length1 == mat.Length1 && |means| == mat.Length1
    modifies mat
    ensures forall i, j :: 0 <= i < mat.Length0 && 0 <= j < mat.Length1 ==>
      mat[i, j] == old(mat[i, j]) + old(z[i, j]) * means[j]
  {
    forall i, j | 0 <= i < mat.Length0 && 0 <= j < mat.Length1 {
      mat[i, j] := mat[i, j] + z[i, j] * means[j];
    }
  }

  /** A fresh array holding `a.T`. */
  method TransposeArray(a: array2<real>) returns (t: array2<real>)
    ensures fresh(t)
    ensures ToRows(t) == Transpose(ToRows(a), a.Length0, a.Length1)
  {
    t := new real[a.Length1, a.Length0];
    forall j, i | 0 <= j < a.Length1 && 0 <= i < a.Length0 {
      t[j, i] := a[i, j];
    }
    MatrixEq(ToRows(t), Transpose(ToRows(a), a.Length0, a.Length1), a.Length1, a.Length0);
  }

  /** A matrix whose entries are the perturbed entries is the perturbed matrix. */
  lemma PerturbedByEntries(n: seq<seq<real>>, m: seq<seq<real>>, z: seq<seq<real>>, rows: nat, cols: nat)
    requires IsMatrix(n, rows, cols) && IsMatrix(m, rows, cols) && IsMatrix(z, rows, cols) && rows > 0
    requires forall i, j :: 0 <= i < rows && 0 <= j < cols ==>
      n[i][j] == m[i][j] + z[i][j] * ColumnMeanAbs(m, rows, cols)[j]
    ensures n == Perturbed(m, z, rows, cols)
  {
    forall i, j | 0 <= i < rows && 0 <= j < cols
      ensures n[i][j] == Perturbed(m, z, rows, cols)[i][j]
    {
      PerturbedAt(m, z, rows, cols, i, j);
    }
    MatrixEq(n, Perturbed(m, z, rows, cols), rows, cols);
  }

  /** The seeding step of the script: add the scaled noise to the nominal
      matrix in place, then return its transpose. */
  method Seed(mat: array2<real>, z: array2<real>) returns (seed: array2<real>)
    requires mat.Length0 > 0 && z.Length0 == mat.Length0 && z.Length1 == mat.Length1
    modifies mat
    ensures fresh(seed)
    ensures ToRows(mat) == Perturbed(old(ToRows(mat)), old(ToRows(z)), mat.Length0, mat.Length1)
    ensures ToRows(seed) == SeedOf(old(ToRows(mat)), old(ToRows(z)), mat.Length0, mat.Length1)
  {
    ghost var m0, z0 := ToRows(mat), ToRows(z);
    var means := ColumnMeans(mat);
    AddNoise(mat, z, means);
    PerturbedByEntries(ToRows(mat), m0, z0, mat.Length0, mat.Length1);
    seed := TransposeArray(mat);
  }
}
