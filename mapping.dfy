/** The coordinate mapper: amplitude to pixel y, in the three conventions the scope view
    uses side by side, and grid division index to pixel position. */
module Mapping {
  import opened Shapes
  import opened RealArith

  /** `f32::clamp(v, lo, hi)` on values that are not NaN. */
  function Clamp(v: real, lo: real, hi: real): (c: real)
    requires lo <= hi
    ensures lo <= c <= hi
  {
    if v < lo then lo else if v > hi then hi else v
  }

  /** Clamping to the unit amplitude range `[-1, 1]`. */
  function Unit(v: real): (c: real)
    ensures -1.0 <= c <= 1.0
  {
    Clamp(v, -1.0, 1.0)
  }

  /** Clamping leaves values already in range alone, and is therefore idempotent. */
  lemma UnitInRange(v: real)
    ensures -1.0 <= v <= 1.0 ==> Unit(v) == v
    ensures Unit(Unit(v)) == Unit(v)
  {
  }

  /** Clamping is monotone. */
  lemma UnitMonotone(u: real, v: real)
    requires u <= v
    ensures Unit(u) <= Unit(v)
  {
  }

  /** The constant-line convention: `base_y ± c·h/2` with `base_y = y + h/2`, neither
      clamped nor inverted. The two levels are mirror images about the midline and lie
      `c·h` apart, whatever the size of `c`. */
  function ConstantLevels(b: Bounds, c: real): (ys: (real, real))
    ensures (ys.0 + ys.1) / 2.0 == b.y + b.h / 2.0
    ensures ys.0 - ys.1 == c * b.h
  {
    var offset := c * b.h / 2.0;
    var base := b.y + b.h / 2.0;
    (base + offset, base - offset)
  }

  /** The signal-line convention: `y + clamp(v)·h/2 + h/2`, clamped and not inverted.
      Whatever the value, the point lands inside the rectangle's vertical extent. */
  function SignalY(b: Bounds, v: real): (y: real)
    ensures b.h >= 0.0 ==> b.y <= y <= b.y + b.h
  {
    SignalLevelInside(b.y, b.h, Unit(v));
    SignalLevel(b.y, b.h, Unit(v))
  }

  /** The signal-line arithmetic on an already clamped value `c`. */
  function SignalLevel(y0: real, h: real, c: real): real
  {
    y0 + c * h / 2.0 + h / 2.0
  }

  /** The audio-line convention, the `y_loc` closure of `draw_audio`:
      `y − scale·clamp(v)·h/2 + h/2`, clamped, inverted and scaled. For a scale in
      [0, 1], whatever the value, the point lands inside the rectangle's vertical extent. */
  function AudioY(b: Bounds, scale: real, v: real): (y: real)
    ensures b.h >= 0.0 && 0.0 <= scale <= 1.0 ==> b.y <= y <= b.y + b.h
  {
    AudioLevelInside(b.y, b.h, scale, Unit(v));
    AudioLevel(b.y, b.h, scale, Unit(v))
  }

  /** The audio-line arithmetic on an already clamped value `c`. */
  function AudioLevel(y0: real, h: real, scale: real, c: real): real
  {
    y0 - scale * c * h / 2.0 + h / 2.0
  }

  lemma SignalLevelInside(y0: real, h: real, c: real)
    requires -1.0 <= c <= 1.0
    ensures h >= 0.0 ==> y0 <= SignalLevel(y0, h, c) <= y0 + h
  {
    if h >= 0.0 {
      UnitFactor(c, h);
    }
  }

  /** The signal-line y depends on the value only through its clamp. */
  lemma SignalYClamped(b: Bounds, v: real)
    ensures SignalY(b, v) == SignalY(b, Unit(v))
  {
    UnitInRange(v);
  }

  /** The signal-line y grows with the value (it is not inverted). */
  lemma SignalYMonotone(b: Bounds, u: real, v: real)
    requires b.h >= 0.0 && u <= v
    ensures SignalY(b, u) <= SignalY(b, v)
  {
    UnitMonotone(u, v);
    SignalLevelMonotone(b.y, b.h, Unit(u), Unit(v));
  }

  lemma SignalLevelMonotone(y0: real, h: real, cu: real, cv: real)
    requires h >= 0.0 && cu <= cv
    ensures SignalLevel(y0, h, cu) <= SignalLevel(y0, h, cv)
  {
    MulLe(cu, cv, h);
  }

  /** An audio-line point lies within `scale·h/2` of the midline. */
  lemma AudioYRange(b: Bounds, scale: real, v: real)
    requires b.h >= 0.0 && scale >= 0.0
    ensures b.y + b.h / 2.0 - scale * b.h / 2.0 <= AudioY(b, scale, v)
    ensures AudioY(b, scale, v) <= b.y + b.h / 2.0 + scale * b.h / 2.0
  {
    AudioLevelRange(b.y, b.h, scale, Unit(v));
  }

  lemma AudioLevelRange(y0: real, h: real, scale: real, c: real)
    requires h >= 0.0 && scale >= 0.0 && -1.0 <= c <= 1.0
    ensures y0 + h / 2.0 - scale * h / 2.0 <= AudioLevel(y0, h, scale, c)
    ensures AudioLevel(y0, h, scale, c) <= y0 + h / 2.0 + scale * h / 2.0
  {
    var k := scale * h;
    NonNegProduct(scale, h);
    UnitFactor(c, k);
    var m := scale * c * h;
    assert m == c * k;
    assert AudioLevel(y0, h, scale, c) == y0 - m / 2.0 + h / 2.0;
    assert scale * h / 2.0 == k / 2.0;
  }

  lemma AudioLevelInside(y0: real, h: real, scale: real, c: real)
    requires -1.0 <= c <= 1.0
    ensures h >= 0.0 && 0.0 <= scale <= 1.0 ==> y0 <= AudioLevel(y0, h, scale, c) <= y0 + h
  {
    if h >= 0.0 && 0.0 <= scale <= 1.0 {
      AudioLevelRange(y0, h, scale, c);
      var k := scale * h;
      MulLe(scale, 1.0, h);
      assert k <= h;
      assert scale * h / 2.0 == k / 2.0;
    }
  }

  /** The audio-line y depends on the value only through its clamp. */
  lemma AudioYClamped(b: Bounds, scale: real, v: real)
    ensures AudioY(b, scale, v) == AudioY(b, scale, Unit(v))
  {
    UnitInRange(v);
  }

  /** The audio-line y shrinks as the value grows (it is inverted). */
  lemma AudioYAntitone(b: Bounds, scale: real, u: real, v: real)
    requires b.h >= 0.0 && scale >= 0.0 && u <= v
    ensures AudioY(b, scale, v) <= AudioY(b, scale, u)
  {
    UnitMonotone(u, v);
    AudioLevelAntitone(b.y, b.h, scale, Unit(u), Unit(v));
  }

  lemma AudioLevelAntitone(y0: real, h: real, scale: real, cu: real, cv: real)
    requires h >= 0.0 && scale >= 0.0 && cu <= cv
    ensures AudioLevel(y0, h, scale, cv) <= AudioLevel(y0, h, scale, cu)
  {
    var k := scale * h;
    NonNegProduct(scale, h);
    MulLe(cu, cv, k);
    assert scale * cu * h == cu * k;
    assert scale * cv * h == cv * k;
  }

  /** The audio y's distance from the midline is proportional to the scale: a point of
      the 0.5 pass lies halfway between the midline and the same point of the 1.0 pass. */
  lemma AudioYHalfScale(b: Bounds, v: real)
    ensures AudioY(b, 0.5, v) - (b.y + b.h / 2.0) == (AudioY(b, 1.0, v) - (b.y + b.h / 2.0)) / 2.0
  {
  }

  /** Between two unclipped values the audio line spans `scale·(hi − lo)·h/2` pixels. */
  lemma AudioYSpan(b: Bounds, scale: real, lo: real, hi: real)
    requires -1.0 <= lo <= 1.0 && -1.0 <= hi <= 1.0
    ensures AudioY(b, scale, lo) - AudioY(b, scale, hi) == scale * (hi - lo) * b.h / 2.0
  {
  }

  /** Position of grid line `i` of `divs` along an axis starting at `start` of length
      `len`: `start + (i / divs)·len`. Lines `0` to `divs` lie on the axis' extent. */
  function GridPos(start: real, len: real, divs: nat, i: nat): (p: real)
    requires divs > 0
    ensures i <= divs && len >= 0.0 ==> start <= p <= start + len
  {
    GridFractionInside(len, divs, i);
    start + (i as real / divs as real) * len
  }

  /** The first grid line is at the start of the axis and the last at its end. */
  lemma GridPosEnds(start: real, len: real, divs: nat)
    requires divs > 0
    ensures GridPos(start, len, divs, 0) == start
    ensures GridPos(start, len, divs, divs) == start + len
  {
    assert divs as real / divs as real == 1.0;
  }

  lemma GridFractionInside(len: real, divs: nat, i: nat)
    requires divs > 0
    ensures i <= divs && len >= 0.0 ==> 0.0 <= (i as real / divs as real) * len <= len
  {
    if i <= divs && len >= 0.0 {
      var f := i as real / divs as real;
      Fraction(i as real, divs as real);
      UnitFactor(f, len);
    }
  }

  /** Consecutive grid lines are `len / divs` apart: the divisions are even. */
  lemma GridSpacing(start: real, len: real, divs: nat, i: nat)
    requires divs > 0
    ensures GridPos(start, len, divs, i + 1) - GridPos(start, len, divs, i) == len / divs as real
  {
    var d := divs as real;
    var f, g := i as real / d, (i + 1) as real / d;
    assert g - f == 1.0 / d;
    assert g * len - f * len == (g - f) * len;
  }
}
