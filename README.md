# JWST mirror-segment calibration: a verified model of its core

The repository tunes the correction coefficients of the James Webb Space
Telescope's 18 primary-mirror segments (4 coefficients each) with scipy's
SLSQP solver, scoring every candidate with a MATLAB optics simulation,
and renders complex images with small numpy helpers. This Dafny project
models the self-contained arithmetic and array logic of that code over
`real` and `int`:

- `Cost` (cost.dfy): the `objective` reduction of the simulation's four
  metrics `(opd_rms, strehl, spotsize_rms, mtf)` to one reduced
  chi-squared value, including the inverted Strehl term and the
  `allclose` plateau at 1.0. The pure function `Cost.Cost` is the
  specification. The method `Cost.Objective` builds the residual vector in
  an array, inverts the Strehl entry in place, sums the squares with a
  loop, and is proved to agree with `Cost.Cost`.
- `Perturbation` (seed.dfy): the start point of the optimisation. The
  hard-coded 4 x 18 nominal matrix is perturbed in place by noise scaled
  by each column's mean magnitude, then transposed to 18 x 4. The
  Gaussian draws are a parameter.
- `Matrix` (matrix.dfy): row-major matrices, transpose, and the
  flatten / reshape round trip the solver relies on when it flattens `x0`
  and the code reshapes `theta` and `result.x` back to `matrix_shape`.
- `Diagnostics` (diagnostics.dfy): the printed 3-sigma band
  `1 +- 3 * sqrt(2 / nfev)`. The square root is a parameter `s` with
  `s >= 0` and `s * s == 2 / nfev`.
- `Padding` (padding.dfy): `padcplx`, which places a complex image in
  the centre of a zero image `pad` times larger.
- `Crop` (crop.dfy): the centre crops of `displC` and `plotCAmpl`, with
  Python's `int()` truncation and numpy's clamping slice semantics.
- `ColourMap` (colour.dfy): the amplitude normalisation (by peak, or by a
  range with over/under masks), the piecewise-linear red, green and blue
  factors of the phase, the RGB image, and the painting of masked pixels.
- `Numeric` (numeric.dfy) and `Wrappers` (wrappers.dfy): absolute value,
  min/max, small real-arithmetic lemmas, and `Option`.

Two facts about the code shape the model:

- The plateau test is numpy `allclose(max(mean, 1), 1, atol=0.1)`.
  numpy's `allclose` also applies its default relative tolerance `1e-5`,
  so the plateau reaches a mean of 1.10001.
- The 3-sigma band is only printed; the code returns no plausibility flag.

The phase of a pixel enters the colour map as `PhaseOf(deg)`, its
`np.angle` in degrees (in (-180, 180]) divided by 360 and shifted by 0.5.
This is the code's `np.angle(I) / (2 * PI) + 0.5` with the angle written
in degrees instead of radians.

## Model

| member | source | states |
|---|---|---|
| Cost.Normalise | src/jwst_optimizer.py:33-34 | The residual vector has four entries. Every entry except Strehl (index 1) is raw / expected * weight. The Strehl entry times its ratio is 1, so only Strehl is inverted. |
| Cost.Plateau | src/jwst_optimizer.py:37-39 | The plateau rule never returns less than 1. It returns either exactly 1.0 or a value above 1.10001. |
| Cost.Cost | src/jwst_optimizer.py:33-39 | The objective's value is at least 1. It is either exactly 1.0 or a mean of squares above 1.10001. |
| Cost.Objective | src/jwst_optimizer.py:33-39 | The in-place array computation (per-entry ratio, in-place inversion of `out[1]`, summed squares, mean, plateau test) returns exactly `Cost`. |
| Cost.SquareSum | src/jwst_optimizer.py:35 | The loop's accumulated sum of squares equals the sum of squares of the array's contents. |
| Cost.PlateauThreshold | src/jwst_optimizer.py:37-39 | `allclose(max(mean, 1), 1, atol=0.1)` holds iff mean <= 1.10001. That includes every mean below 1. The plateau returns 1.0 iff mean <= 1.10001, and returns the mean unchanged above that bound. |
| Cost.PlateauMonotone | src/jwst_optimizer.py:37-39 | The plateau rule is monotone non-decreasing in the mean. |
| Cost.CostMonotone | src/jwst_optimizer.py:33-39 | If every normalised residual of one result is at most the matching residual of another in magnitude, then its mean of squares and its cost are no larger. |
| Cost.SumSquaresMonotone | src/jwst_optimizer.py:35 | Entry-wise smaller magnitudes give a smaller or equal sum of squares. |
| Cost.CostAtExpected | src/jwst_optimizer.py:33-38 | A result equal to any non-zero expected vector, with unit weights, is admissible. Every residual is 1, including the inverted Strehl term. The mean of squares is 1 and the cost is exactly 1.0. |
| Cost.CostAtConfiguredExpected | src/jwst_optimizer.py:77-84 | With the script's own expected values (0.01, 1, 0.003, 1) and rescaling (softness 1), the ideal result costs exactly 1.0. |
| Cost.CostSignInvariant | src/jwst_optimizer.py:33-35 | Flipping the sign of any raw metrics keeps the result admissible and leaves the cost unchanged. |
| Cost.SumSquaresSignInvariant | src/jwst_optimizer.py:35 | The sum of squares is the same for every choice of entry signs. |
| Cost.CostAbovePlateau | src/jwst_optimizer.py:35-39 | If every squared residual is at least some b > 1.10001, the mean is at least b. The cost is then the unclamped mean, which is above 1. |
| Diagnostics.SigmaBand | src/jwst_optimizer.py:56-57 | The band `[1 - 3s, 1 + 3s]` is symmetric about 1 and contains 1, for every nfev > 0. |
| Diagnostics.PerfectFitInBand | src/jwst_optimizer.py:54-57 | A reduced chi-squared of exactly 1 always lies in the band. |
| Diagnostics.FiveOutsideBand | src/jwst_optimizer.py:54-57 | From two evaluations on, the band's upper end is at most 4, so a reduced chi-squared of 5 is outside it. |
| Diagnostics.BandNarrows | src/jwst_optimizer.py:56-57 | More function evaluations never widen the band: the lower end rises and the upper end falls. |
| Diagnostics.BandAtFifty | src/jwst_optimizer.py:56-57 | With 50 function evaluations, s = 0.2 and the band is exactly [0.4, 1.6]. It contains 1 but not 5. |
| Matrix.ReshapeFlatten | src/jwst_optimizer.py:29 | Reshaping the row-major flattening of an r x c matrix back to r x c gives the original matrix. |
| Matrix.FlattenReshape | src/jwst_optimizer.py:59 | Flattening a vector of length r * c after reshaping it to r x c gives the vector back. |
| Matrix.FlattenAt | src/jwst_optimizer.py:29 | Entry (i, j) of an r x c matrix sits at flat index i * c + j, inside the flat vector of length r * c. |
| Matrix.Transpose | src/jwst_optimizer.py:113 | `.T` of a rows x cols matrix is cols x rows, with entry (j, i) equal to entry (i, j) of the input. |
| Matrix.Reshape | src/jwst_optimizer.py:29 | Reshaping a vector of length rows * cols gives a rows x cols matrix; its entries are stated through the round trips `ReshapeFlatten` and `FlattenReshape`. |
| Matrix.FlattenLength | src/jwst_optimizer.py:48 | The row-major flattening the solver applies to `x0` has exactly rows * cols entries. |
| Matrix.TransposeTwice | src/jwst_optimizer.py:113 | Transposing twice gives the original matrix. |
| Perturbation.ColumnMeans | src/jwst_optimizer.py:109 | The nested loop returns `np.mean(np.abs(m), axis=0)`: for each column, the sum of its entries' magnitudes divided by the row count. |
| Perturbation.ColumnAbsSumZero | src/jwst_optimizer.py:109 | A column's magnitude sum is zero iff every entry in that column is zero. |
| Perturbation.AddNoise | src/jwst_optimizer.py:111 | After the in-place `correction_mat += noise`, each entry is its old value plus its draw times the column scale passed in; `Perturbation.Seed` supplies the column means of the matrix before the update. |
| Perturbation.TransposeArray | src/jwst_optimizer.py:113 | The fresh array holds `Transpose` of the input's contents. |
| Perturbation.Seed | src/jwst_optimizer.py:108-113 | After the in-place `correction_mat += noise`, the matrix is the nominal matrix plus `z[i][j]` times column j's mean magnitude. The fresh returned seed is its transpose. |
| Perturbation.SeedAt | src/jwst_optimizer.py:109-113 | Seed entry (j, i) is nominal entry (i, j) plus its draw times column j's mean magnitude. |
| Perturbation.SeedDeviation | src/jwst_optimizer.py:109-111 | Each seed entry moves from the nominal value by exactly the draw's magnitude times its column's mean magnitude. |
| Perturbation.MeanDominates | src/jwst_optimizer.py:109 | A column's noise scale times the row count is at least the magnitude of every entry in that column. |
| Perturbation.SeedZeroNoise | src/jwst_optimizer.py:108-113 | With all-zero draws the seed is exactly the transposed nominal matrix. |
| Perturbation.NominalSeedShape | src/jwst_optimizer.py:74-113 | The hard-coded nominal matrix is 4 x 18. Its seed has `matrix_shape` 18 x 4 with 72 flat entries and survives the flatten / reshape round trip. |
| Padding.PadCplx | src/static_plotters.py:142-154 | The result is absent exactly when numpy raises (`PadRaises`: a negative shape for a non-empty image, or `pad == 0` with a side longer than 1). Otherwise it is a fresh (nx * pad) x (ny * pad) array, which for pad >= 1 equals `Padded`: `c` in the block at the offsets, zero elsewhere. |
| Padding.Padded | src/static_plotters.py:145-153 | The padded image of an nx x ny image is (nx * pad) x (ny * pad). Its block and its zeros are stated by `PaddedBlock` and `PaddedOutside`. |
| Padding.Place | src/static_plotters.py:153 | After `big[dx:dx+nx, dy:dy+ny] = c` the block holds `c` shifted by the offsets, and every other entry is unchanged. |
| Padding.BlockInside | src/static_plotters.py:146-153 | For pad >= 1 the offset plus the image size fits in the padded size, on each axis. |
| Padding.PaddedBlock | src/static_plotters.py:150-153 | Entry (dx + i, dy + j) of the padded image is `c[i][j]`, and it lies inside the padded image. |
| Padding.PaddedOutside | src/static_plotters.py:148-153 | Every entry outside the block is zero. |
| Padding.PadOne | src/static_plotters.py:145-153 | Padding by 1 returns the input unchanged. |
| Crop.SliceBound | src/static_plotters.py:24 | A numpy slice bound is clamped into [0, n]. An in-range bound is kept, one past the end becomes n, a negative bound b >= -n becomes n + b, and one below -n becomes 0. |
| Crop.TruncHalf | src/static_plotters.py:81 | `int(k / 2)` truncates toward zero: for k >= 0 it rounds down, for k < 0 it rounds up. |
| Crop.Slice2InBounds | src/static_plotters.py:83 | A slice with in-range bounds is the (r1 - r0) x (c1 - c0) sub-block starting at (r0, c0). |
| Crop.OffsetsWhenFitting | src/static_plotters.py:22-23 | When trim <= n, the `plotCAmpl` offset is floor((n - trim) / 2) and the `displC` offset is one more. |
| Crop.OffsetsFit | src/static_plotters.py:81 | For 0 < trim <= n the `plotCAmpl` square lies inside the axis. For trim < n the `displC` square does too. |
| Crop.OffsetsPastImage | src/static_plotters.py:81 | For trims larger than the axis, `int()` truncates toward zero instead of rounding down. |
| Crop.PlotTrim | src/static_plotters.py:79-83 | Whatever the trim, the crop as written is a block of at most nx rows and ny columns, all rows of the same length. |
| Crop.DisplayTrim | src/static_plotters.py:20-24 | Whatever the trim, the crop as written is a block of at most nx rows and ny columns, all rows of the same length. |
| Crop.PlotTrimShape | src/static_plotters.py:79-83 | For 0 < trim <= nx, whenever the columns fit, `plotCAmpl`'s crop is the trim x trim square at offset floor((nx - trim) / 2) on both axes. |
| Crop.DisplayTrimShape | src/static_plotters.py:20-24 | For 0 < trim < nx, whenever the columns fit, `displC`'s crop is the trim x trim square at offset floor((nx - trim) / 2) + 1 on both axes. |
| Crop.DisplayTrimFullSize | src/static_plotters.py:20-24 | `displC` with trim equal to the size of a square image returns (n - 1) x (n - 1) entries, shifted by one pixel. |
| Crop.NoTrim | src/static_plotters.py:20 | A trim of 0 or less leaves the image unchanged, in both displays. |
| Crop.TrimOffAxis | src/static_plotters.py:79-83 | As written, a 10 x 4 image cropped to 4 by `plotCAmpl` is 4 x 1. Cropped to 2 by `displC` it is 2 x 0. |
| Crop.PlotTrimCentredShape | src/static_plotters.py:79-83 | With the column offset taken from ny, every 0 < trim <= min(nx, ny) gives the centred trim x trim square. |
| Crop.DisplayTrimCentredShape | src/static_plotters.py:20-24 | With the column offset taken from ny, every 0 < trim < min(nx, ny) gives the centred trim x trim square. |
| Crop.CentredAgreesOnSquare | src/static_plotters.py:79-83 | On square images the corrected crops equal the crops as written, in both displays. |
| ColourMap.Red | src/static_plotters.py:107-109 | The red factor lies in [0, 1] for every phase. |
| ColourMap.Green | src/static_plotters.py:112-114 | After values above 1 are reflected, the green factor lies in [0, 1] for every phase in [0, 1]. |
| ColourMap.Blue | src/static_plotters.py:117-118 | The blue factor lies in [0, 1] for every phase. |
| ColourMap.HueInUnitCube | src/static_plotters.py:107-118 | For a phase in [0, 1], all three colour factors are in [0, 1]. |
| ColourMap.ShadeInUnitCube | src/static_plotters.py:120-122 | Multiplying a displayable colour by an amplitude in [0, 1] keeps it displayable. |
| ColourMap.PixelInUnitCube | src/static_plotters.py:120-129 | Every final pixel (shaded hue, white or black) of an amplitude and a phase in [0, 1] has all channels in [0, 1]. |
| ColourMap.PhaseOf | src/static_plotters.py:101 | `angle / (2 * PI) + 0.5` maps every angle in (-180, 180] degrees into (0, 1], negative angles below 0.5 and positive ones above. |
| ColourMap.ColourWheel | src/static_plotters.py:101-122 | As the code paints at full amplitude, angle 0 is blue, 90 degrees green, 180 degrees red and -90 (270) degrees yellow. |
| ColourMap.TurnOf | src/static_plotters.py:63-67 | The angle as a fraction of a turn from 0 degrees lies in [0, 1), at most 0.5 for angles from 0 to 180 degrees and above 0.5 for negative ones. |
| ColourMap.DocumentedWheel | src/static_plotters.py:63-67 | With the phase counted in turns from 0 degrees, the wheel is the documented one: 0 red, 90 yellow, 180 blue, 270 green. |
| ColourMap.Opposite | src/static_plotters.py:101 | The opposite angle is in (-180, 180] and exactly half a turn away. |
| ColourMap.WheelRotated | src/static_plotters.py:63-67 | For every angle, the code's hue equals the documented wheel's hue at the opposite angle: the code's wheel is the documented one turned by 180 degrees. |
| ColourMap.Clamp01 | src/static_plotters.py:92-95 | The clamped amplitude lies in [0, 1]. It equals the scaled amplitude iff that value was already in [0, 1]; over-range values become 1 and under-range values 0. |
| ColourMap.RangePixel | src/static_plotters.py:91-95 | A pixel above the range is painted white and one below it black, whatever its phase. An amplitude above `hi` or below `lo` lands in the corresponding mask. |
| ColourMap.Peak | src/static_plotters.py:89 | `np.amax` of a non-empty array is an upper bound of every entry and is attained by some entry. |
| ColourMap.PeakNormalise | src/static_plotters.py:88-89 | The peak is positive, bounds every old entry and is attained by one. Each entry becomes its old value divided by the peak, at most 1, non-negative when it was; the attaining entry becomes exactly 1. |
| ColourMap.RangeNormalise | src/static_plotters.py:90-95 | Each entry becomes the clamped value of `(a - lo) / abs(hi - lo)`. The fresh masks mark exactly the entries whose scaled value was above 1 or below 0. |
| ColourMap.GreenChannel | src/static_plotters.py:112-114 | The ramp array, reflected in place where it exceeds 1, holds the green factor of every phase. |
| ColourMap.RedChannel | src/static_plotters.py:107-109 | The fresh array holds the red factor of every phase. |
| ColourMap.BlueChannel | src/static_plotters.py:117-118 | The fresh array holds the blue factor of every phase. |
| ColourMap.ShadeImage | src/static_plotters.py:104-122 | Each pixel of the fresh image is the amplitude times the three channel values. |
| ColourMap.ChannelImage | src/static_plotters.py:104-122 | Each pixel of the fresh image is the phase's hue shaded by the amplitude. |
| ColourMap.PaintMasks | src/static_plotters.py:127-129 | Under-range pixels become black, the remaining over-range pixels white, and all others are unchanged. |
| ColourMap.ColourImage | src/static_plotters.py:104-129 | Each pixel is black if under-range, white if over-range, and otherwise the hue shaded by the amplitude. |
| ColourMap.NormaliseAmplitude | src/static_plotters.py:88-95 | Without a range: no masks, and every entry divided by a positive peak that bounds and is attained by the old entries. With a range: each entry clamped after scaling, with fresh masks marking exactly the entries whose scaled value was above 1 or below 0. |
| ColourMap.ApplyGamma | src/static_plotters.py:98 | Every entry is replaced by the gamma curve of its old value. |
| ColourMap.PlotCAmpl | src/static_plotters.py:86-129 | Each entry of `ampl` ends as gamma of its normalised amplitude (divided by the attained peak, or clamped after range scaling). Each pixel is white if its scaled amplitude was above the range, black if below, and otherwise the hue of its phase shaded by that amplitude; every pixel lies in the unit RGB cube. |

## Left out

- The MATLAB engine (`start_matlab`, `addpath`, `JWST_sim_runtime`, `JWST_Simulation`, `quit`) is a foreign process. The four simulated metrics are an input of `Cost.Objective`.
- scipy's SLSQP `minimize` loop is a foreign solver. Only the flatten / reshape contract it relies on is modelled.
- `plot_psf`, all matplotlib drawing, and `FFT` / `IFFT` are display and numpy FFT code.
- `np.angle` and the gamma power are transcendental. The normalised phase and the gamma curve are parameters of `ColourMap.PlotCAmpl`.
- ColourMap.PlotCAmpl: the premise that `gamma` maps [0, 1] into [0, 1] stands for `GAMMA > 0`, under which `x ** (1 / GAMMA)` does so; `GAMMA <= 0` is not modelled.
- `ColourMap.PlotCAmpl` works on an already cropped image. The crop is modelled separately in `Crop`.
- The random draws of `rng.normal(0, 1e-4, ...)` are a parameter `z` of `Perturbation.Seed`. Their distribution is not modelled.
- The square root in the 3-sigma band is the parameter `s`.
- `print` and `input`, `live_plotting.py` (Qt GUI), `jwsp_optimizer.py` (an empty stub) and `read_data.py` (file parsing) are not part of this model.
- IEEE floating-point rounding, infinities and NaN are not modelled: all arithmetic is on `real`.
- Cost.Objective: requires non-zero expected values, a non-zero raw Strehl and a non-zero Strehl weight (`Cost.Admissible`), where numpy would produce inf or nan. The `theta.reshape` at its entry is covered by `Matrix.ReshapeFlatten`.
- ColourMap.PlotCAmpl: without a range it requires a positive amplitude, where numpy would divide by a zero peak. With a range it requires `lo != hi`.
- ColourMap.PeakNormalise: requires a positive entry, for the same reason.
- Padding.PadCplx: the `ValueError` numpy raises is reported as `None`. A non-integer `pad` is not modelled.
- Crop.PlotTrimShape and Crop.DisplayTrimShape: the column-fit precondition is stated with the as-written offset from `nx`. The general non-square case is covered by `Crop.TrimOffAxis` and the corrected crops.
- Perturbation.SeedDeviation: states the size of each entry's move. The bound relating the noise scale to the entries is stated separately, in `Perturbation.MeanDominates`.

## Findings

| source | as written | input that shows it | evidently intended | confidence | as-written member | corrected member |
|---|---|---|---|---|---|---|
| src/static_plotters.py:82 | `plotCAmpl` computes the column offset `dy` from `nx` | a 10 x 4 image with trim 4: offset 3 on both axes, so the crop keeps columns 3..3 and is 4 x 1 | `dy = int((ny - trim) / 2)`, a centred trim x trim square | high; not executed | Crop.TrimOffAxis | Crop.PlotTrimCentredShape |
| src/static_plotters.py:101 | `plotCAmpl` normalises the phase as `angle / (2 * PI) + 0.5`, which turns the colour wheel by half a turn | a pixel of phase angle 0 at full amplitude is painted blue (0, 0, 1), where the docstring at lines 66-67 puts red at 0 degrees | the phase counted in turns from 0 degrees (`TurnOf`), giving red, yellow, blue and green at 0, 90, 180 and 270 degrees | medium; not executed | ColourMap.WheelRotated | ColourMap.DocumentedWheel |
| src/static_plotters.py:23 | `displC` computes the column offset `dy` from `nx` | a 10 x 4 image with trim 2: offset 5 on both axes, past the 4 columns, so the crop is 2 x 0 | `dy = int((ny - trim) / 2 + 1)`, a trim x trim square | high; not executed | Crop.TrimOffAxis | Crop.DisplayTrimCentredShape |
