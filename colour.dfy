/** The colour rendering of `plotCAmpl`: amplitude becomes brightness and
    phase becomes hue. The amplitude is normalised by its peak or by a
    given range (with out-of-range masks), passed through the gamma curve,
    and multiplied into piecewise-linear red, green and blue factors of
    the normalised phase. `np.angle` and the gamma power are not computed
    here: the phase in [0, 1] and the gamma curve are inputs. */
module ColourMap {

  import opened Numeric
  import opened Matrix
  import opened Wrappers

  /** Red factor: `|p - 0.625| * 4 - 0.5`, clipped to [0, 1]. */
  function Red(p: real): (r: real)
    ensures 0.0 <= r <= 1.0
  {
    Min(Max(Abs(p - 0.625) * 4.0 - 0.5, 0.0), 1.0)
  }

  /** The green ramp `2 - |p - 0.5| * 4`, before values above 1 are reflected. */
  function GreenRamp(p: real): real
  {
    2.0 - Abs(p - 0.5) * 4.0
  }

  /** Green factor: the ramp with values above 1 reflected to `2 - g`. */
  function Green(p: real): (g: real)
    ensures 0.0 <= p <= 1.0 ==> 0.0 <= g <= 1.0
  {
    var ramp := GreenRamp(p);
    if ramp > 1.0 then 2.0 - ramp else ramp
  }

  /** Blue factor: `1 - |p - 0.5| * 4`, floored at 0. */
  function Blue(p: real): (b: real)
    ensures 0.0 <= b <= 1.0
  {
    Max(1.0 - Abs(p - 0.5) * 4.0, 0.0)
  }

  datatype Rgb = Rgb(r: real, g: real, b: real)

  const White: Rgb := Rgb(1.0, 1.0, 1.0)
  const Black: Rgb := Rgb(0.0, 0.0, 0.0)

  /** The hue of phase `p` at full amplitude. */
  function Hue(p: real): Rgb
  {
    Rgb(Red(p), Green(p), Blue(p))
  }

  /** A colour with every channel multiplied by the amplitude `a`. */
  function Shade(a: real, c: Rgb): Rgb
  {
    Rgb(a * c.r, a * c.g, a * c.b)
  }

  /** The final colour of one pixel with gamma-corrected amplitude `a` and
      phase `p`: under-range pixels are painted black, the remaining
      over-range pixels white, the rest the hue shaded by `a`. */
  function Pixel(a: real, p: real, over: bool, under: bool): Rgb
  {
    if under then Black
    else if over then White
    else Shade(a, Hue(p))
  }

  predicate InUnitCube(c: Rgb)
  {
    0.0 <= c.r <= 1.0 && 0.0 <= c.g <= 1.0 && 0.0 <= c.b <= 1.0
  }

  /** Every pixel of an amplitude in [0, 1] and a phase in [0, 1] is a
      displayable colour. */
  lemma PixelInUnitCube(a: real, p: real, over: bool, under: bool)
    requires 0.0 <= a <= 1.0 && 0.0 <= p <= 1.0
    ensures InUnitCube(Pixel(a, p, over, under))
  {
    if !under && !over {
      HueInUnitCube(p);
      ShadeInUnitCube(a, Hue(p));
    }
  }

  /** Every phase in [0, 1] has a displayable hue. */
  lemma HueInUnitCube(p: real)
    requires 0.0 <= p <= 1.0
    ensures InUnitCube(Hue(p))
  {
    var g := Green(p);
    assert 0.0 <= g <= 1.0;
  }

  /** Shading by an amplitude in [0, 1] keeps a colour displayable. */
  lemma ShadeInUnitCube(a: real, c: Rgb)
    requires 0.0 <= a <= 1.0 && InUnitCube(c)
    ensures InUnitCube(Shade(a, c))
  {
    ProductInUnit(a, c.r);
    ProductInUnit(a, c.g);
    ProductInUnit(a, c.b);
  }

  /** The normalised phase of a pixel whose phase angle is `deg` degrees.
      `np.angle` lies in (-180, 180] degrees, and `angle / (2 * PI) + 0.5`
      maps it onto (0, 1]. */
  function PhaseOf(deg: real): (p: real)
    requires -180.0 < deg <= 180.0
    ensures 0.0 < p <= 1.0
    ensures deg < 0.0 ==> p < 0.5
    ensures deg > 0.0 ==> p > 0.5
  {
    deg / 360.0 + 0.5
  }

  /** The wheel as the code paints it at full amplitude: angle 0 is blue,
      90 degrees green, 180 degrees red and -90 (that is 270) degrees yellow. */
  lemma ColourWheel()
    ensures Pixel(1.0, PhaseOf(0.0), false, false) == Rgb(0.0, 0.0, 1.0)
    ensures Pixel(1.0, PhaseOf(90.0), false, false) == Rgb(0.0, 1.0, 0.0)
    ensures Pixel(1.0, PhaseOf(180.0), false, false) == Rgb(1.0, 0.0, 0.0)
    ensures Pixel(1.0, PhaseOf(-90.0), false, false) == Rgb(1.0, 1.0, 0.0)
  {
  }

  /** The angle as a fraction of a full turn counted from 0 degrees: the
      normalisation under which the wheel is red, yellow, blue and green at
      0, 90, 180 and 270 degrees. */
  function TurnOf(deg: real): (p: real)
    requires -180.0 < deg <= 180.0
    ensures 0.0 <= p < 1.0
    ensures deg >= 0.0 ==> p <= 0.5
    ensures deg < 0.0 ==> p > 0.5
  {
    if deg < 0.0 then deg / 360.0 + 1.0 else deg / 360.0
  }

  /** With the phase counted in turns from 0 degrees the wheel is red,
      yellow, blue and green at 0, 90, 180 and 270 degrees. */
  lemma DocumentedWheel()
    ensures Pixel(1.0, TurnOf(0.0), false, false) == Rgb(1.0, 0.0, 0.0)
    ensures Pixel(1.0, TurnOf(90.0), false, false) == Rgb(1.0, 1.0, 0.0)
    ensures Pixel(1.0, TurnOf(180.0), false, false) == Rgb(0.0, 0.0, 1.0)
    ensures Pixel(1.0, TurnOf(-90.0), false, false) == Rgb(0.0, 1.0, 0.0)
  {
  }

  /** The angle half a turn away, in (-180, 180]. */
  function Opposite(deg: real): (o: real)
    requires -180.0 < deg <= 180.0
    ensures -180.0 < o <= 180.0
    ensures o - deg == 180.0 || deg - o == 180.0
  {
    if deg <= 0.0 then deg + 180.0 else deg - 180.0
  }

  /** The code's wheel is the turn-based wheel rotated by half a turn: every
      angle gets the hue that the turn-based wheel gives the opposite angle. */
  lemma WheelRotated(deg: real)
    requires -180.0 < deg <= 180.0
    ensures Hue(PhaseOf(deg)) == Hue(TurnOf(Opposite(deg)))
  {
    if deg == 180.0 {
      assert PhaseOf(deg) == 1.0 && TurnOf(Opposite(deg)) == 0.0;
      assert Hue(1.0) == Hue(0.0);
    } else {
      assert PhaseOf(deg) == TurnOf(Opposite(deg));
    }
  }

  /** `RANGE = (lo, hi)`: the amplitude range mapped onto [0, 1]. */
  datatype Range = Range(lo: real, hi: real)

  /** `(a - RANGE[0]) / abs(RANGE[1] - RANGE[0])`. */
  function Scaled(a: real, range: Range): real
    requires range.lo != range.hi
  {
    (a - range.lo) / Abs(range.hi - range.lo)
  }

  /** The effect of the two mask assignments on one scaled amplitude:
      entries marked over become 1, entries marked under become 0, and the
      rest keep their value. */
  function Clamp01(x: real): (c: real)
    ensures 0.0 <= c <= 1.0
    ensures c == x <==> 0.0 <= x <= 1.0
    ensures x > 1.0 ==> c == 1.0
    ensures x < 0.0 ==> c == 0.0
  {
    if x > 1.0 then 1.0 else if x < 0.0 then 0.0 else x
  }

  /** A range normalisation with masks: amplitudes above the range are
      painted white and those below black, whatever their phase. */
  lemma RangePixel(a: real, range: Range, g: real, p: real)
    requires range.lo != range.hi
    ensures Scaled(a, range) > 1.0 ==> Pixel(g, p, Scaled(a, range) > 1.0, Scaled(a, range) < 0.0) == White
    ensures Scaled(a, range) < 0.0 ==> Pixel(g, p, Scaled(a, range) > 1.0, Scaled(a, range) < 0.0) == Black
    ensures a > range.hi > range.lo ==> Scaled(a, range) > 1.0
    ensures a < range.lo ==> Scaled(a, range) < 0.0
  {
    QuotientBounds(a - range.lo, Abs(range.hi - range.lo));
  }

  /** `np.amax` of a non-empty array. */
  method Peak(a: array2<real>) returns (m: real)
    requires a.Length0 > 0 && a.Length1 > 0
    ensures forall i, j :: 0 <= i < a.Length0 && 0 <= j < a.Length1 ==> a[i, j] <= m
    ensures exists i, j :: 0 <= i < a.Length0 && 0 <= j < a.Length1 && a[i, j] == m
  {
    m := a[0, 0];
    for i := 0 to a.Length0
      invariant forall k, l :: 0 <= k < i && 0 <= l < a.Length1 ==> a[k, l] <= m
      invariant exists k, l :: 0 <= k < a.Length0 && 0 <= l < a.Length1 && a[k, l] == m
    {
      for j := 0 to a.Length1
        invariant forall k, l :: 0 <= k < i && 0 <= l < a.Length1 ==> a[k, l] <= m
        invariant forall l :: 0 <= l < j ==> a[i, l] <= m
        invariant exists k, l :: 0 <= k < a.Length0 && 0 <= l < a.Length1 && a[k, l] == m
      {
        if m < a[i, j] {
          m := a[i, j];
        }
      }
    }
  }

  /** `ampl = ampl / np.amax(ampl)` when no range is given. The peak must be
      positive: numpy would otherwise divide by zero. */
  method PeakNormalise(ampl: array2<real>) returns (peak: real)
    requires exists i, j :: 0 <= i < ampl.Length0 && 0 <= j < ampl.Length1 && ampl[i, j] > 0.0
    modifies ampl
    ensures peak > 0.0
    ensures forall i, j :: 0 <= i < ampl.Length0 && 0 <= j < ampl.Length1 ==>
      old(ampl[i, j]) <= peak && ampl[i, j] == old(ampl[i, j]) / peak && ampl[i, j] <= 1.0
    ensures forall i, j :: 0 <= i < ampl.Length0 && 0 <= j < ampl.Length1 && old(ampl[i, j]) >= 0.0 ==>
      0.0 <= ampl[i, j]
    ensures exists i, j :: 0 <= i < ampl.Length0 && 0 <= j < ampl.Length1 && old(ampl[i, j]) == peak && ampl[i, j] == 1.0
  {
    peak := Peak(ampl);
    ghost var k, l :| 0 <= k < ampl.Length0 && 0 <= l < ampl.Length1 && ampl[k, l] == peak;
    forall i, j | 0 <= i < ampl.Length0 && 0 <= j < ampl.Length1 {
      ampl[i, j] := ampl[i, j] / peak;
    }
    forall i, j | 0 <= i < ampl.Length0 && 0 <= j < ampl.Length1
      ensures ampl[i, j] <= 1.0 && (old(ampl[i, j]) >= 0.0 ==> 0.0 <= ampl[i, j])
    {
      QuotientBounds(old(ampl[i, j]), peak);
    }
    QuotientBounds(peak, peak);
    assert ampl[k, l] == 1.0;
  }

  /** `ampl` mapped through `RANGE`, the masks of entries above 1 and below
      0, and the clamping the masks perform. */
  method RangeNormalise(ampl: array2<real>, range: Range) returns (over: array2<bool>, under: array2<bool>)
    requires range.lo != range.hi
    modifies ampl
    ensures fresh(over) && fresh(under)
    ensures over.Length0 == under.Length0 == ampl.Length0 && over.Length1 == under.Length1 == ampl.Length1
    ensures forall i, j :: 0 <= i < ampl.Length0 && 0 <= j < ampl.Length1 ==>
      ampl[i, j] == Clamp01(Scaled(old(ampl[i, j]), range)) &&
      over[i, j] == (Scaled(old(ampl[i, j]), range) > 1.0) &&
      under[i, j] == (Scaled(old(ampl[i, j]), range) < 0.0)
  {
    var nx, ny := ampl.Length0, ampl.Length1;
    forall i, j | 0 <= i < nx && 0 <= j < ny {
      ampl[i, j] := (ampl[i, j] - range.lo) / Abs(range.hi - range.lo);
    }
    over := new bool[nx, ny];
    forall i, j | 0 <= i < nx && 0 <= j < ny {
      over[i, j] := ampl[i, j] > 1.0;
    }
    under := new bool[nx, ny];
    forall i, j | 0 <= i < nx && 0 <= j < ny {
      under[i, j] := ampl[i, j] < 0.0;
    }
    forall i, j | 0 <= i < nx && 0 <= j < ny && over[i, j] {
      ampl[i, j] := 1.0;
    }
    forall i, j | 0 <= i < nx && 0 <= j < ny && under[i, j] {
      ampl[i, j] := 0.0;
    }
  }

  /** The green channel array: the ramp, then its entries above 1 reflected in place. */
  method GreenChannel(phase: array2<real>) returns (grn: array2<real>)
    ensures fresh(grn) && grn.Length0 == phase.Length0 && grn.Length1 == phase.Length1
    ensures forall i, j :: 0 <= i < grn.Length0 && 0 <= j < grn.Length1 ==> grn[i, j] == Green(phase[i, j])
  {
    grn := new real[phase.Length0, phase.Length1];
    forall i, j | 0 <= i < grn.Length0 && 0 <= j < grn.Length1 {
      grn[i, j] := GreenRamp(phase[i, j]);
    }
    forall i, j | 0 <= i < grn.Length0 && 0 <= j < grn.Length1 && grn[i, j] > 1.0 {
      grn[i, j] := 2.0 - grn[i, j];
    }
  }

  datatype Masks = Masks(over: array2<bool>, under: array2<bool>)

  /** The masks, when given, cover the image. */
  predicate MasksFit(masks: Option<Masks>, nx: nat, ny: nat)
  {
    masks.Some? ==>
      masks.value.over.Length0 == masks.value.under.Length0 == nx &&
      masks.value.over.Length1 == masks.value.under.Length1 == ny
  }

  ghost function PixelAt(img: array3<real>, i: nat, j: nat): Rgb
    reads img
    requires i < img.Length0 && j < img.Length1 && img.Length2 == 3
  {
    Rgb(img[i, j, 0], img[i, j, 1], img[i, j, 2])
  }

  ghost function MaskAt(masks: Option<Masks>, i: nat, j: nat, over: bool): bool
    reads if masks.Some? then {masks.value.over, masks.value.under} else {}
    requires masks.Some? ==> i < masks.value.over.Length0 && j < masks.value.over.Length1
    requires masks.Some? ==> i < masks.value.under.Length0 && j < masks.value.under.Length1
  {
    masks.Some? && (if over then masks.value.over[i, j] else masks.value.under[i, j])
  }

  /** The red factor array, clipped below at 0 and above at 1. */
  method RedChannel(phase: array2<real>) returns (red: array2<real>)
    ensures fresh(red) && red.Length0 == phase.Length0 && red.Length1 == phase.Length1
    ensures forall i, j :: 0 <= i < red.Length0 && 0 <= j < red.Length1 ==> red[i, j] == Red(phase[i, j])
  {
    red := new real[phase.Length0, phase.Length1];
    forall i, j | 0 <= i < red.Length0 && 0 <= j < red.Length1 {
      red[i, j] := Min(Max(Abs(phase[i, j] - 0.625) * 4.0 - 0.5, 0.0), 1.0);
    }
  }

  /** The blue factor array, clipped below at 0. */
  method BlueChannel(phase: array2<real>) returns (blue: array2<real>)
    ensures fresh(blue) && blue.Length0 == phase.Length0 && blue.Length1 == phase.Length1
    ensures forall i, j :: 0 <= i < blue.Length0 && 0 <= j < blue.Length1 ==> blue[i, j] == Blue(phase[i, j])
  {
    blue := new real[phase.Length0, phase.Length1];
    forall i, j | 0 <= i < blue.Length0 && 0 <= j < blue.Length1 {
      blue[i, j] := Max(1.0 - Abs(phase[i, j] - 0.5) * 4.0, 0.0);
    }
  }

  /** `img[:, :, 0] = ampl * red`, `img[:, :, 1] = ampl * grn` and
      `img[:, :, 2] = ampl * blu` on a zero image. */
  method ShadeImage(ampl: array2<real>, red: array2<real>, grn: array2<real>, blue: array2<real>)
    returns (img: array3<real>)
    requires red.Length0 == grn.Length0 == blue.Length0 == ampl.Length0
    requires red.Length1 == grn.Length1 == blue.Length1 == ampl.Length1
    ensures fresh(img) && img.Length0 == ampl.Length0 && img.Length1 == ampl.Length1 && img.Length2 == 3
    ensures forall i, j :: 0 <= i < ampl.Length0 && 0 <= j < ampl.Length1 ==>
      PixelAt(img, i, j) == Shade(ampl[i, j], Rgb(red[i, j], grn[i, j], blue[i, j]))
  {
    img := new real[ampl.Length0, ampl.Length1, 3];
    forall i, j, k | 0 <= i < ampl.Length0 && 0 <= j < ampl.Length1 && 0 <= k < 3 {
      img[i, j, k] := ampl[i, j] * (if k == 0 then red[i, j] else if k == 1 then grn[i, j] else blue[i, j]);
    }
  }

  /** The three channels: amplitude times red, green and blue factors. */
  method ChannelImage(ampl: array2<real>, phase: array2<real>) returns (img: array3<real>)
    requires phase.Length0 == ampl.Length0 && phase.Length1 == ampl.Length1
    ensures fresh(img)
    ensures img.Length0 == ampl.Length0 && img.Length1 == ampl.Length1 && img.Length2 == 3
    ensures forall i, j :: 0 <= i < ampl.Length0 && 0 <= j < ampl.Length1 ==>
      PixelAt(img, i, j) == Pixel(ampl[i, j], phase[i, j], false, false)
  {
    var red := RedChannel(phase);
    var grn := GreenChannel(phase);
    var blue := BlueChannel(phase);
    img := ShadeImage(ampl, red, grn, blue);
    assert forall i, j :: 0 <= i < ampl.Length0 && 0 <= j < ampl.Length1 ==>
      Rgb(red[i, j], grn[i, j], blue[i, j]) == Hue(phase[i, j]);
  }

  /** `img[ampOVER, :] = (1, 1, 1)` followed by `img[ampUNDER, :] = (0, 0, 0)`. */
  method PaintMasks(img: array3<real>, over: array2<bool>, under: array2<bool>)
    requires img.Length2 == 3
    requires over.Length0 == under.Length0 == img.Length0 && over.Length1 == under.Length1 == img.Length1
    modifies img
    ensures forall i, j :: 0 <= i < img.Length0 && 0 <= j < img.Length1 ==>
      PixelAt(img, i, j) == (if under[i, j] then Black else if over[i, j] then White else old(PixelAt(img, i, j)))
  {
    forall i, j, k | 0 <= i < img.Length0 && 0 <= j < img.Length1 && 0 <= k < 3 && over[i, j] {
      img[i, j, k] := 1.0;
    }
    forall i, j, k | 0 <= i < img.Length0 && 0 <= j < img.Length1 && 0 <= k < 3 && under[i, j] {
      img[i, j, k] := 0.0;
    }
  }

  /** The RGB image: each channel is the amplitude times its factor, then
      the masked pixels are painted white and black. */
  method ColourImage(ampl: array2<real>, phase: array2<real>, masks: Option<Masks>) returns (img: array3<real>)
    requires phase.Length0 == ampl.Length0 && phase.Length1 == ampl.Length1
    requires MasksFit(masks, ampl.Length0, ampl.Length1)
    ensures fresh(img)
    ensures img.Length0 == ampl.Length0 && img.Length1 == ampl.Length1 && img.Length2 == 3
    ensures forall i, j :: 0 <= i < ampl.Length0 && 0 <= j < ampl.Length1 ==>
      PixelAt(img, i, j) == Pixel(ampl[i, j], phase[i, j], MaskAt(masks, i, j, true), MaskAt(masks, i, j, false))
  {
    img := ChannelImage(ampl, phase);
    if masks.Some? {
      PaintMasks(img, masks.value.over, masks.value.under);
    }
  }

  /** The amplitude after normalisation and before the gamma curve:
      clamped into the range when one is given, divided by the peak otherwise. */
  function Normalised(a: real, range: Option<Range>, peak: real): real
    requires range.Some? ==> range.value.lo != range.value.hi
    requires range.None? ==> peak > 0.0
  {
    if range.Some? then Clamp01(Scaled(a, range.value)) else a / peak
  }

  /** Whether amplitude `a` is marked over the range (never without one). */
  predicate Over(a: real, range: Option<Range>)
    requires range.Some? ==> range.value.lo != range.value.hi
  {
    range.Some? && Scaled(a, range.value) > 1.0
  }

  /** Whether amplitude `a` is marked under the range (never without one). */
  predicate Under(a: real, range: Option<Range>)
    requires range.Some? ==> range.value.lo != range.value.hi
  {
    range.Some? && Scaled(a, range.value) < 0.0
  }

  /** The `if RANGE is None ... else ...` step: normalise by the peak, or by
      the range with fresh over/under masks. `peak` is the maximum found
      when no range is given. */
  method NormaliseAmplitude(ampl: array2<real>, range: Option<Range>) returns (masks: Option<Masks>, ghost peak: real)
    requires range.Some? ==> range.value.lo != range.value.hi
    requires range.None? ==> exists i, j :: 0 <= i < ampl.Length0 && 0 <= j < ampl.Length1 && ampl[i, j] > 0.0
    modifies ampl
    ensures range.None? ==> masks.None? && peak > 0.0
    ensures range.None? ==> forall i, j :: 0 <= i < ampl.Length0 && 0 <= j < ampl.Length1 ==> old(ampl[i, j]) <= peak
    ensures range.None? ==> exists i, j :: 0 <= i < ampl.Length0 && 0 <= j < ampl.Length1 && old(ampl[i, j]) == peak
    ensures range.Some? ==> masks.Some? && fresh(masks.value.over) && fresh(masks.value.under)
    ensures MasksFit(masks, ampl.Length0, ampl.Length1)
    ensures forall i, j :: 0 <= i < ampl.Length0 && 0 <= j < ampl.Length1 ==>
      ampl[i, j] == Normalised(old(ampl[i, j]), range, peak) && ampl[i, j] <= 1.0 &&
      (old(ampl[i, j]) >= 0.0 ==> 0.0 <= ampl[i, j]) &&
      MaskAt(masks, i, j, true) == Over(old(ampl[i, j]), range) &&
      MaskAt(masks, i, j, false) == Under(old(ampl[i, j]), range)
  {
    if range.None? {
      peak := PeakNormalise(ampl);
      masks := None;
    } else {
      var over, under := RangeNormalise(ampl, range.value);
      masks := Some(Masks(over, under));
      peak := 1.0;
    }
  }

  /** `ampl = np.power(ampl, 1. / GAMMA)`, with the power as a parameter. */
  method ApplyGamma(ampl: array2<real>, gamma: real -> real)
    modifies ampl
    ensures forall i, j :: 0 <= i < ampl.Length0 && 0 <= j < ampl.Length1 ==> ampl[i, j] == gamma(old(ampl[i, j]))
  {
    forall i, j | 0 <= i < ampl.Length0 && 0 <= j < ampl.Length1 {
      ampl[i, j] := gamma(ampl[i, j]);
    }
  }

  /** `plotCAmpl` from the amplitude `|I|` and the normalised phase of the
      (already cropped) image, with the gamma curve as a parameter. Each
      pixel is the hue of its phase shaded by its normalised, gamma-corrected
      amplitude, except that pixels above the range are white and pixels
      below it black; every channel lies in [0, 1]. Without a range the
      amplitude needs a positive peak. */
  method PlotCAmpl(ampl: array2<real>, phase: array2<real>, range: Option<Range>, gamma: real -> real)
    returns (img: array3<real>, ghost peak: real)
    requires phase.Length0 == ampl.Length0 && phase.Length1 == ampl.Length1 && phase != ampl
    requires forall i, j :: 0 <= i < ampl.Length0 && 0 <= j < ampl.Length1 ==> ampl[i, j] >= 0.0
    requires forall i, j :: 0 <= i < phase.Length0 && 0 <= j < phase.Length1 ==> 0.0 <= phase[i, j] <= 1.0
    requires forall x :: 0.0 <= x <= 1.0 ==> 0.0 <= gamma(x) <= 1.0
    requires range.Some? ==> range.value.lo != range.value.hi
    requires range.None? ==> exists i, j :: 0 <= i < ampl.Length0 && 0 <= j < ampl.Length1 && ampl[i, j] > 0.0
    modifies ampl
    ensures range.None? ==> peak > 0.0
    ensures range.None? ==> forall i, j :: 0 <= i < ampl.Length0 && 0 <= j < ampl.Length1 ==> old(ampl[i, j]) <= peak
    ensures range.None? ==> exists i, j :: 0 <= i < ampl.Length0 && 0 <= j < ampl.Length1 && old(ampl[i, j]) == peak
    ensures forall i, j :: 0 <= i < ampl.Length0 && 0 <= j < ampl.Length1 ==>
      ampl[i, j] == gamma(Normalised(old(ampl[i, j]), range, peak))
    ensures fresh(img)
    ensures img.Length0 == ampl.Length0 && img.Length1 == ampl.Length1 && img.Length2 == 3
    ensures forall i, j :: 0 <= i < ampl.Length0 && 0 <= j < ampl.Length1 ==>
      PixelAt(img, i, j) == Pixel(ampl[i, j], phase[i, j], Over(old(ampl[i, j]), range), Under(old(ampl[i, j]), range))
    ensures forall i, j :: 0 <= i < ampl.Length0 && 0 <= j < ampl.Length1 ==> InUnitCube(PixelAt(img, i, j))
  {
    var masks;
    masks, peak := NormaliseAmplitude(ampl, range);
    ghost var normal := ToRows(ampl);
    ApplyGamma(ampl, gamma);
    img := ColourImage(ampl, phase, masks);
    forall i, j | 0 <= i < ampl.Length0 && 0 <= j < ampl.Length1
      ensures ampl[i, j] == gamma(Normalised(old(ampl[i, j]), range, peak))
      ensures PixelAt(img, i, j) == Pixel(ampl[i, j], phase[i, j], Over(old(ampl[i, j]), range), Under(old(ampl[i, j]), range))
      ensures InUnitCube(PixelAt(img, i, j))
    {
      var n := normal[i][j];
      assert n == Normalised(old(ampl[i, j]), range, peak) && 0.0 <= n <= 1.0;
      assert ampl[i, j] == gamma(n);
      PixelInUnitCube(ampl[i, j], phase[i, j], Over(old(ampl[i, j]), range), Under(old(ampl[i, j]), range));
    }
  }
}
