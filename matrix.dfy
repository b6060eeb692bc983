/** Row-major matrices as sequences of rows, the shape operations numpy
    performs on them (transpose, flatten, reshape), and the view of a
    two-dimensional array as such a matrix. */
module Matrix {

  /** `m` has `rows` rows of `cols` entries each. */
  predicate IsMatrix<T>(m: seq<seq<T>>, rows: nat, cols: nat)
  {
    |m| == rows && forall i :: 0 <= i < rows ==> |m[i]| == cols
  }

  /** The contents of a two-dimensional array, row by row. */
  ghost function ToRows<T>(a: array2<T>): (m: seq<seq<T>>)
    reads a
    ensures IsMatrix(m, a.Length0, a.Length1)
    ensures forall i, j :: 0 <= i < a.Length0 && 0 <= j < a.Length1 ==> m[i][j] == a[i, j]
  {
    seq(a.Length0, i reads a requires 0 <= i < a.Length0 =>
      seq(a.Length1, j reads a requires 0 <= j < a.Length1 => a[i, j]))
  }

  /** Two matrices of the same shape that agree entry by entry are equal. */
  lemma MatrixEq<T>(m: seq<seq<T>>, n: seq<seq<T>>, rows: nat, cols: nat)
    requires IsMatrix(m, rows, cols) && IsMatrix(n, rows, cols)
    requires forall i, j :: 0 <= i < rows && 0 <= j < cols ==> m[i][j] == n[i][j]
    ensures m == n
  {
    forall i | 0 <= i < rows
      ensures m[i] == n[i]
    {
      assert forall j :: 0 <= j < cols ==> m[i][j] == n[i][j];
    }
  }

  /** numpy's `.T` on a `rows` x `cols` matrix. */
  function Transpose<T>(m: seq<seq<T>>, rows: nat, cols: nat): (t: seq<seq<T>>)
    requires IsMatrix(m, rows, cols)
    ensures IsMatrix(t, cols, rows)
    ensures forall i, j :: 0 <= i < rows && 0 <= j < cols ==> t[j][i] == m[i][j]
  {
    seq(cols, j requires 0 <= j < cols => seq(rows, i requires 0 <= i < rows => m[i][j]))
  }

  /** Transposing twice gives the matrix back. */
  lemma TransposeTwice<T>(m: seq<seq<T>>, rows: nat, cols: nat)
    requires IsMatrix(m, rows, cols)
    ensures Transpose(Transpose(m, rows, cols), cols, rows) == m
  {
    var t := Transpose(m, rows, cols);
    MatrixEq(Transpose(t, cols, rows), m, rows, cols);
  }

  /** Row-major (C order) flattening, as the solver does with its start point. */
  function Flatten<T>(m: seq<seq<T>>): seq<T>
  {
    if m == [] then [] else m[0] + Flatten(m[1..])
  }

  /** Row `i` of a `rows` x `cols` matrix occupies `[i * cols, i * cols + cols)`
      of the flat vector, and that range lies inside it. */
  lemma RowBound(i: nat, rows: nat, cols: nat)
    requires i < rows
    ensures (i + 1) * cols == i * cols + cols
    ensures 0 <= i * cols <= (i + 1) * cols <= rows * cols
  {
    var k: nat := rows - i - 1;
    assert rows * cols == (i + 1) * cols + k * cols;
  }

  /** `reshape((rows, cols))` of a flat vector: row `i` is the slice
      `[i * cols, (i + 1) * cols)`. */
  function Reshape<T>(v: seq<T>, rows: nat, cols: nat): (m: seq<seq<T>>)
    requires |v| == rows * cols
    ensures IsMatrix(m, rows, cols)
  {
    seq(rows, i requires 0 <= i < rows => RowOf(v, rows, cols, i))
  }

  /** Row `i` of the reshaped vector. */
  function RowOf<T>(v: seq<T>, rows: nat, cols: nat, i: nat): (r: seq<T>)
    requires |v| == rows * cols && i < rows
    ensures |r| == cols
  {
    RowBound(i, rows, cols);
    v[i * cols..i * cols + cols]
  }

  lemma {:induction false} FlattenLength<T>(m: seq<seq<T>>, rows: nat, cols: nat)
    requires IsMatrix(m, rows, cols)
    ensures |Flatten(m)| == rows * cols
  {
    if rows > 0 {
      FlattenLength(m[1..], rows - 1, cols);
      assert rows * cols == cols + (rows - 1) * cols;
    }
  }

  /** Entry `(i, j)` sits at position `i * cols + j` of the flat vector. */
  lemma {:induction false} FlattenAt<T>(m: seq<seq<T>>, rows: nat, cols: nat, i: nat, j: nat)
    requires IsMatrix(m, rows, cols) && i < rows && j < cols
    ensures |Flatten(m)| == rows * cols
    ensures i * cols + j < rows * cols && Flatten(m)[i * cols + j] == m[i][j]
  {
    FlattenLength(m, rows, cols);
    RowBound(i, rows, cols);
    if i > 0 {
      FlattenAt(m[1..], rows - 1, cols, i - 1, j);
      RowBound(i - 1, rows, cols);
    }
  }

  /** Reshaping the flattened matrix restores it (objective and the final
      result both reshape the solver's flat vector). */
  lemma ReshapeFlatten<T>(m: seq<seq<T>>, rows: nat, cols: nat)
    requires IsMatrix(m, rows, cols)
    ensures |Flatten(m)| == rows * cols
    ensures Reshape(Flatten(m), rows, cols) == m
  {
    FlattenLength(m, rows, cols);
    var r := Reshape(Flatten(m), rows, cols);
    forall i, j | 0 <= i < rows && 0 <= j < cols
      ensures r[i][j] == m[i][j]
    {
      FlattenAt(m, rows, cols, i, j);
      RowBound(i, rows, cols);
    }
    MatrixEq(r, m, rows, cols);
  }

  lemma ReshapeTail<T>(v: seq<T>, rows: nat, cols: nat)
    requires rows > 0 && |v| == rows * cols
    ensures cols <= |v| && |v[cols..]| == (rows - 1) * cols
    ensures Reshape(v, rows, cols) == [v[..cols]] + Reshape(v[cols..], rows - 1, cols)
  {
    RowBound(0, rows, cols);
    var r := Reshape(v, rows, cols);
    var t := Reshape(v[cols..], rows - 1, cols);
    forall i | 0 <= i < rows - 1
      ensures r[i + 1] == t[i]
    {
      RowBound(i + 1, rows, cols);
      assert (i + 1) * cols == cols + i * cols;
      assert (i + 2) * cols == cols + (i + 1) * cols;
    }
    assert r == [v[..cols]] + t;
  }

  /** Flattening a reshaped vector gives the vector back. */
  lemma {:induction false} FlattenReshape<T>(v: seq<T>, rows: nat, cols: nat)
    requires |v| == rows * cols
    ensures Flatten(Reshape(v, rows, cols)) == v
  {
    if rows == 0 {
      assert v == [];
    } else {
      ReshapeTail(v, rows, cols);
      FlattenReshape(v[cols..], rows - 1, cols);
      assert v == v[..cols] + v[cols..];
    }
  }
}
