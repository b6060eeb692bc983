/** The centre crops of the two image displays: `displC` and `plotCAmpl`
    cut a `trim` x `trim` square out of an `nx` x `ny` image with numpy
    slicing. Offsets are computed with Python's true division followed by
    `int()`, and slices clamp out-of-range bounds, as numpy does. Both
    functions compute the column offset from `nx`, not `ny`. */
module Crop {

  import opened Matrix

  /** Python's `int(k / 2)`: the true quotient truncated toward zero. */
  function TruncHalf(k: int): (h: int)
    ensures k >= 0 ==> 2 * h <= k < 2 * h + 2
    ensures k < 0 ==> 2 * h - 2 < k <= 2 * h
  {
    if k >= 0 then k / 2 else -((-k) / 2)
  }

  /** One bound of a numpy slice on an axis of length `n`: a negative bound
      counts from the end, and the result is clamped into `[0, n]`. */
  function SliceBound(b: int, n: nat): (k: nat)
    ensures k <= n
    ensures 0 <= b <= n ==> k == b
    ensures b > n ==> k == n
    ensures -(n as int) <= b < 0 ==> k == n + b
    ensures b < -(n as int) ==> k == 0
  {
    if b < 0 then (if b + n < 0 then 0 else b + n) else if b > n then n else b
  }

  /** Length of the slice between two clamped bounds: empty when they cross. */
  function Extent(lo: nat, hi: nat): nat
  {
    if lo <= hi then hi - lo else 0
  }

  /** `m[r0:r1, c0:c1]` on a `rows` x `cols` matrix: both ranges are
      clamped, and the block starting at the lower bounds is copied. */
  function Slice2<T>(m: seq<seq<T>>, rows: nat, cols: nat, r0: int, r1: int, c0: int, c1: int): (s: seq<seq<T>>)
    requires IsMatrix(m, rows, cols)
    ensures IsMatrix(s, Extent(SliceBound(r0, rows), SliceBound(r1, rows)), Extent(SliceBound(c0, cols), SliceBound(c1, cols)))
  {
    var lo, cl := SliceBound(r0, rows), SliceBound(c0, cols);
    var h, w := Extent(lo, SliceBound(r1, rows)), Extent(cl, SliceBound(c1, cols));
    seq(h, i requires 0 <= i < h => seq(w, j requires 0 <= j < w => m[lo + i][cl + j]))
  }

  /** A slice whose bounds lie inside the matrix is the plain sub-block. */
  lemma Slice2InBounds<T>(m: seq<seq<T>>, rows: nat, cols: nat, r0: int, r1: int, c0: int, c1: int)
    requires IsMatrix(m, rows, cols)
    requires 0 <= r0 <= r1 <= rows && 0 <= c0 <= c1 <= cols
    ensures IsMatrix(Slice2(m, rows, cols, r0, r1, c0, c1), r1 - r0, c1 - c0)
    ensures forall i, j :: 0 <= i < r1 - r0 && 0 <= j < c1 - c0 ==>
      Slice2(m, rows, cols, r0, r1, c0, c1)[i][j] == m[r0 + i][c0 + j]
  {
  }

  /** A crop `s` that is the in-bounds `h` x `w` block at `(r0, c0)`. */
  lemma CropBlock<T>(img: seq<seq<T>>, nx: nat, ny: nat, r0: int, c0: int, h: int, w: int, s: seq<seq<T>>)
    requires IsMatrix(img, nx, ny) && 0 <= r0 && 0 <= h && r0 + h <= nx && 0 <= c0 && 0 <= w && c0 + w <= ny
    requires s == Slice2(img, nx, ny, r0, r0 + h, c0, c0 + w)
    ensures IsMatrix(s, h, w)
    ensures forall i, j :: 0 <= i < h && 0 <= j < w ==> s[i][j] == img[r0 + i][c0 + j]
  {
    Slice2InBounds(img, nx, ny, r0, r0 + h, c0, c0 + w);
  }

  /** `int((nx - trim) / 2)`, the offset of `plotCAmpl`. */
  function PlotOffset(n: int, trim: int): int
  {
    TruncHalf(n - trim)
  }

  /** `int((nx - trim) / 2 + 1)`, the offset of `displC`: the true quotient
      plus one is `(n - trim + 2) / 2`, truncated the same way. */
  function DisplayOffset(n: int, trim: int): int
  {
    TruncHalf(n - trim + 2)
  }

  /** When the square fits, both offsets are floor divisions, and the one
      of `displC` is one more than that of `plotCAmpl`. */
  lemma OffsetsWhenFitting(n: int, trim: int)
    requires trim <= n
    ensures PlotOffset(n, trim) == (n - trim) / 2
    ensures DisplayOffset(n, trim) == (n - trim) / 2 + 1 == PlotOffset(n, trim) + 1
  {
  }

  /** A trim that fits an axis puts the `plotCAmpl` square inside it, and
      a trim shorter than the axis the `displC` square too. */
  lemma OffsetsFit(n: int, trim: int)
    requires 0 < trim <= n
    ensures 0 <= PlotOffset(n, trim) && PlotOffset(n, trim) + trim <= n
    ensures trim < n ==> 0 <= DisplayOffset(n, trim) && DisplayOffset(n, trim) + trim <= n
  {
    OffsetsWhenFitting(n, trim);
  }

  /** Past the image both offsets truncate toward zero, not down: a trim
      one larger than the axis gives offset 0 for `plotCAmpl`, not -1. */
  lemma OffsetsPastImage(n: int)
    ensures PlotOffset(n, n + 1) == 0 && DisplayOffset(n, n + 1) == 0
    ensures PlotOffset(n, n + 3) == -1 && DisplayOffset(n, n + 3) == 0
  {
  }

  /** The crop of `plotCAmpl`, as written: both offsets from `nx`. Whatever
      the trim, the clamped slice is a block of at most `nx` rows and `ny`
      columns. */
  function PlotTrim<T>(img: seq<seq<T>>, nx: nat, ny: nat, trim: int): (r: seq<seq<T>>)
    requires IsMatrix(img, nx, ny)
    ensures |r| <= nx && forall i :: 0 <= i < |r| ==> |r[i]| <= ny && |r[i]| == |r[0]|
  {
    if trim > 0 then
      var dx := PlotOffset(nx, trim);
      var dy := PlotOffset(nx, trim);
      Slice2(img, nx, ny, dx, dx + trim, dy, dy + trim)
    else img
  }

  /** The crop of `displC`, as written: both offsets from `nx`. Whatever
      the trim, the clamped slice is a block of at most `nx` rows and `ny`
      columns. */
  function DisplayTrim<T>(img: seq<seq<T>>, nx: nat, ny: nat, trim: int): (r: seq<seq<T>>)
    requires IsMatrix(img, nx, ny)
    ensures |r| <= nx && forall i :: 0 <= i < |r| ==> |r[i]| <= ny && |r[i]| == |r[0]|
  {
    if trim > 0 then
      var dx := DisplayOffset(nx, trim);
      var dy := DisplayOffset(nx, trim);
      Slice2(img, nx, ny, dx, dx + trim, dy, dy + trim)
    else img
  }

  /** `plotCAmpl` with a trim that fits returns the `trim` x `trim` square
      at offset `(nx - trim) / 2` on both axes; the columns fit whenever
      that offset plus `trim` is at most `ny`, as in every square image. */
  lemma PlotTrimShape<T>(img: seq<seq<T>>, nx: nat, ny: nat, trim: int)
    requires IsMatrix(img, nx, ny) && 0 < trim <= nx && (nx - trim) / 2 + trim <= ny
    ensures IsMatrix(PlotTrim(img, nx, ny, trim), trim, trim)
    ensures forall i, j :: 0 <= i < trim && 0 <= j < trim ==>
      PlotTrim(img, nx, ny, trim)[i][j] == img[PlotOffset(nx, trim) + i][PlotOffset(nx, trim) + j]
  {
    OffsetsWhenFitting(nx, trim);
    var d := PlotOffset(nx, trim);
    CropBlock(img, nx, ny, d, d, trim, trim, PlotTrim(img, nx, ny, trim));
  }

  /** Without a positive trim neither display crops. */
  lemma NoTrim<T>(img: seq<seq<T>>, nx: nat, ny: nat, trim: int)
    requires IsMatrix(img, nx, ny) && trim <= 0
    ensures PlotTrim(img, nx, ny, trim) == img
    ensures DisplayTrim(img, nx, ny, trim) == img
  {
  }

  /** `displC` with `0 < trim < nx` returns the `trim` x `trim` square one
      pixel further along both axes than `plotCAmpl`'s. */
  lemma DisplayTrimShape<T>(img: seq<seq<T>>, nx: nat, ny: nat, trim: int)
    requires IsMatrix(img, nx, ny) && 0 < trim < nx && (nx - trim) / 2 + 1 + trim <= ny
    ensures IsMatrix(DisplayTrim(img, nx, ny, trim), trim, trim)
    ensures forall i, j :: 0 <= i < trim && 0 <= j < trim ==>
      DisplayTrim(img, nx, ny, trim)[i][j] == img[DisplayOffset(nx, trim) + i][DisplayOffset(nx, trim) + j]
  {
    OffsetsWhenFitting(nx, trim);
    var d := DisplayOffset(nx, trim);
    CropBlock(img, nx, ny, d, d, trim, trim, DisplayTrim(img, nx, ny, trim));
  }

  /** `displC` with `trim == nx` on a square image loses a row and a
      column: the slice starting at offset 1 is clamped at the border. */
  lemma DisplayTrimFullSize<T>(img: seq<seq<T>>, n: nat)
    requires IsMatrix(img, n, n) && n > 0
    ensures IsMatrix(DisplayTrim(img, n, n, n), n - 1, n - 1)
    ensures forall i, j :: 0 <= i < n - 1 && 0 <= j < n - 1 ==>
      DisplayTrim(img, n, n, n)[i][j] == img[i + 1][j + 1]
  {
    OffsetsWhenFitting(n, n);
    assert Slice2(img, n, n, 1, 1 + n, 1, 1 + n) == Slice2(img, n, n, 1, n, 1, n);
    Slice2InBounds(img, n, n, 1, n, 1, n);
  }

  /** On a non-square image the as-written crop is not square: a 10 x 4
      image cropped to 4 by `plotCAmpl` keeps one column, and cropped to 2
      by `displC` keeps none. */
  lemma TrimOffAxis<T>(img: seq<seq<T>>)
    requires IsMatrix(img, 10, 4)
    ensures IsMatrix(PlotTrim(img, 10, 4, 4), 4, 1)
    ensures IsMatrix(DisplayTrim(img, 10, 4, 2), 2, 0)
  {
    OffsetsWhenFitting(10, 4);
    OffsetsWhenFitting(10, 2);
    assert Slice2(img, 10, 4, 3, 7, 3, 7) == Slice2(img, 10, 4, 3, 7, 3, 4);
    Slice2InBounds(img, 10, 4, 3, 7, 3, 4);
    assert Slice2(img, 10, 4, 5, 7, 5, 7) == Slice2(img, 10, 4, 5, 7, 4, 4);
    Slice2InBounds(img, 10, 4, 5, 7, 4, 4);
  }

  /** The crop of `plotCAmpl` with the column offset taken from `ny`. */
  function PlotTrimCentred<T>(img: seq<seq<T>>, nx: nat, ny: nat, trim: int): seq<seq<T>>
    requires IsMatrix(img, nx, ny)
  {
    if trim > 0 then
      var dx := PlotOffset(nx, trim);
      var dy := PlotOffset(ny, trim);
      Slice2(img, nx, ny, dx, dx + trim, dy, dy + trim)
    else img
  }

  /** The crop of `displC` with the column offset taken from `ny`. */
  function DisplayTrimCentred<T>(img: seq<seq<T>>, nx: nat, ny: nat, trim: int): seq<seq<T>>
    requires IsMatrix(img, nx, ny)
  {
    if trim > 0 then
      var dx := DisplayOffset(nx, trim);
      var dy := DisplayOffset(ny, trim);
      Slice2(img, nx, ny, dx, dx + trim, dy, dy + trim)
    else img
  }

  /** With offsets from their own axes, every trim up to both sizes gives
      the centred `trim` x `trim` square. */
  lemma PlotTrimCentredShape<T>(img: seq<seq<T>>, nx: nat, ny: nat, trim: int)
    requires IsMatrix(img, nx, ny) && 0 < trim <= nx && trim <= ny
    ensures IsMatrix(PlotTrimCentred(img, nx, ny, trim), trim, trim)
    ensures forall i, j :: 0 <= i < trim && 0 <= j < trim ==>
      PlotTrimCentred(img, nx, ny, trim)[i][j] == img[PlotOffset(nx, trim) + i][PlotOffset(ny, trim) + j]
  {
    OffsetsFit(nx, trim);
    OffsetsFit(ny, trim);
    var dx, dy := PlotOffset(nx, trim), PlotOffset(ny, trim);
    CropBlock(img, nx, ny, dx, dy, trim, trim, PlotTrimCentred(img, nx, ny, trim));
  }

  lemma DisplayTrimCentredShape<T>(img: seq<seq<T>>, nx: nat, ny: nat, trim: int)
    requires IsMatrix(img, nx, ny) && 0 < trim < nx && trim < ny
    ensures IsMatrix(DisplayTrimCentred(img, nx, ny, trim), trim, trim)
    ensures forall i, j :: 0 <= i < trim && 0 <= j < trim ==>
      DisplayTrimCentred(img, nx, ny, trim)[i][j] == img[DisplayOffset(nx, trim) + i][DisplayOffset(ny, trim) + j]
  {
    OffsetsFit(nx, trim);
    OffsetsFit(ny, trim);
    var dx, dy := DisplayOffset(nx, trim), DisplayOffset(ny, trim);
    CropBlock(img, nx, ny, dx, dy, trim, trim, DisplayTrimCentred(img, nx, ny, trim));
  }

  /** On square images the corrected crops are the ones the source computes. */
  lemma CentredAgreesOnSquare<T>(img: seq<seq<T>>, n: nat, trim: int)
    requires IsMatrix(img, n, n)
    ensures PlotTrimCentred(img, n, n, trim) == PlotTrim(img, n, n, trim)
    ensures DisplayTrimCentred(img, n, n, trim) == DisplayTrim(img, n, n, trim)
  {
  }
}
