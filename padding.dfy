/** `padcplx`: a complex image is placed in the centre of a zero-filled
    image `pad` times larger along both axes. */
module Padding {

  import opened Matrix
  import opened Wrappers

  datatype Complex = Complex(re: real, im: real)

  const Zero: Complex := Complex(0.0, 0.0)

  /** Offset of the block along an axis of length `n`: `int(n * (pad - 1) / 2)`,
      which for `pad >= 1` is floor division. */
  function Offset(n: nat, pad: int): nat
    requires pad >= 1
  {
    n * (pad - 1) / 2
  }

  /** The block starting at the offset ends inside the padded axis. */
  lemma BlockInside(n: nat, pad: int)
    requires pad >= 1
    ensures Offset(n, pad) + n <= n * pad
  {
    var k: nat := pad - 1;
    assert n * pad == n * k + n;
    assert Offset(n, pad) <= n * k;
  }

  predicate InBlock(i: int, j: int, nx: nat, ny: nat, pad: int)
    requires pad >= 1
  {
    Offset(nx, pad) <= i < Offset(nx, pad) + nx && Offset(ny, pad) <= j < Offset(ny, pad) + ny
  }

  /** The padded image of an `nx` x `ny` image `c`. */
  function Padded(c: seq<seq<Complex>>, nx: nat, ny: nat, pad: int): (big: seq<seq<Complex>>)
    requires IsMatrix(c, nx, ny) && pad >= 1
    ensures IsMatrix(big, nx * pad, ny * pad)
  {
    var dx, dy := Offset(nx, pad), Offset(ny, pad);
    seq(nx * pad, i requires 0 <= i < nx * pad =>
      seq(ny * pad, j requires 0 <= j < ny * pad =>
        if InBlock(i, j, nx, ny, pad) then c[i - dx][j - dy] else Zero))
  }

  /** The block `[dx, dx + nx) x [dy, dy + ny)` of the padded image is `c`. */
  lemma PaddedBlock(c: seq<seq<Complex>>, nx: nat, ny: nat, pad: int, i: nat, j: nat)
    requires IsMatrix(c, nx, ny) && pad >= 1 && i < nx && j < ny
    ensures Offset(nx, pad) + i < nx * pad && Offset(ny, pad) + j < ny * pad
    ensures Padded(c, nx, ny, pad)[Offset(nx, pad) + i][Offset(ny, pad) + j] == c[i][j]
  {
    BlockInside(nx, pad);
    BlockInside(ny, pad);
    assert InBlock(Offset(nx, pad) + i, Offset(ny, pad) + j, nx, ny, pad);
  }

  /** Everything outside the block is zero. */
  lemma PaddedOutside(c: seq<seq<Complex>>, nx: nat, ny: nat, pad: int, i: nat, j: nat)
    requires IsMatrix(c, nx, ny) && pad >= 1 && i < nx * pad && j < ny * pad
    requires !InBlock(i, j, nx, ny, pad)
    ensures Padded(c, nx, ny, pad)[i][j] == Zero
  {
  }

  /** Padding by 1 is the identity. */
  lemma PadOne(c: seq<seq<Complex>>, nx: nat, ny: nat)
    requires IsMatrix(c, nx, ny)
    ensures Padded(c, nx, ny, 1) == c
  {
    assert Offset(nx, 1) == 0 && Offset(ny, 1) == 0;
    forall i, j | 0 <= i < nx && 0 <= j < ny
      ensures Padded(c, nx, ny, 1)[i][j] == c[i][j]
    {
      PaddedBlock(c, nx, ny, 1, i, j);
    }
    MatrixEq(Padded(c, nx, ny, 1), c, nx, ny);
  }

  /** A matrix that holds `c` in the block and zero elsewhere is the padded image. */
  lemma PaddedByEntries(n: seq<seq<Complex>>, c: seq<seq<Complex>>, nx: nat, ny: nat, pad: int)
    requires IsMatrix(c, nx, ny) && pad >= 1 && IsMatrix(n, nx * pad, ny * pad)
    requires forall i, j :: 0 <= i < nx * pad && 0 <= j < ny * pad ==>
      n[i][j] == if InBlock(i, j, nx, ny, pad) then c[i - Offset(nx, pad)][j - Offset(ny, pad)] else Zero
    ensures n == Padded(c, nx, ny, pad)
  {
    MatrixEq(n, Padded(c, nx, ny, pad), nx * pad, ny * pad);
  }

  /** `big[dx:dx + nx, dy:dy + ny] = c` for a block that fits. */
  method Place(big: array2<Complex>, c: array2<Complex>, dx: nat, dy: nat)
    requires big != c && dx + c.Length0 <= big.Length0 && dy + c.Length1 <= big.Length1
    modifies big
    ensures forall i, j :: 0 <= i < big.Length0 && 0 <= j < big.Length1 ==>
      big[i, j] == if dx <= i < dx + c.Length0 && dy <= j < dy + c.Length1 then c[i - dx, j - dy] else old(big[i, j])
  {
    forall i, j | dx <= i < dx + c.Length0 && dy <= j < dy + c.Length1 {
      big[i, j] := c[i - dx, j - dy];
    }
  }

  /** Whether numpy raises for `padcplx` on an `nx` x `ny` image. A negative
      shape is refused unless both sizes are 0; with `pad == 0` the `nx` x
      `ny` block must broadcast into the empty target, which it does only
      when neither size exceeds 1. */
  predicate PadRaises(nx: nat, ny: nat, pad: int)
  {
    (pad < 0 && (nx > 0 || ny > 0)) || (pad == 0 && (nx > 1 || ny > 1))
  }

  /** `padcplx(c, pad)`. A `pad` below 1 either raises, reported as `None`,
      or yields an empty array. */
  method PadCplx(c: array2<Complex>, pad: int) returns (big: Option<array2<Complex>>)
    ensures big.None? <==> PadRaises(c.Length0, c.Length1, pad)
    ensures big.Some? ==> fresh(big.value)
    ensures big.Some? ==> big.value.Length0 == c.Length0 * pad && big.value.Length1 == c.Length1 * pad
    ensures big.Some? && pad >= 1 ==> ToRows(big.value) == Padded(ToRows(c), c.Length0, c.Length1, pad)
  {
    var nx, ny := c.Length0, c.Length1;
    if PadRaises(nx, ny, pad) {
      return None;
    }
    if pad < 1 {
      assert nx * pad == 0 && ny * pad == 0;
      var empty := new Complex[0, 0];
      return Some(empty);
    }
    var bigC := new Complex[nx * pad, ny * pad]((i, j) => Zero);
    var dx := nx * (pad - 1) / 2;
    var dy := ny * (pad - 1) / 2;
    BlockInside(nx, pad);
    BlockInside(ny, pad);
    Place(bigC, c, dx, dy);
    PaddedByEntries(ToRows(bigC), ToRows(c), nx, ny, pad);
    return Some(bigC);
  }
}
