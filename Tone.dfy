/**
 * Stage 3 of `processImage`: the brightness/contrast colour matrix. Only the
 * 4x5 coefficients are computed by the module; applying them is done by
 * `ColorMatrixColorFilter` while drawing, so the application below is the
 * matrix product that a colour matrix denotes, used to state what the
 * coefficients mean.
 */
module Tone {

  /** `1 + contrast / 100`: the slope applied around the mid-grey pivot. */
  function ContrastFactor(contrast: real): real
  {
    1.0 + contrast / 100.0
  }

  /** `brightness / 100 * 255`: the shift added to every colour channel. */
  function BrightnessOffset(brightness: real): real
  {
    brightness / 100.0 * 255.0
  }

  /** The stage runs only when one of the two settings is not zero. */
  predicate ToneActive(brightness: real, contrast: real)
  {
    brightness != 0.0 || contrast != 0.0
  }

  /**
   * The row-major 4x5 matrix passed to `ColorMatrix`: rows R, G, B, A;
   * columns R, G, B, A and a constant term.
   */
  function ColorMatrix(brightness: real, contrast: real): (m: seq<real>)
    ensures |m| == 20
  {
    var cf := ContrastFactor(contrast);
    var translate := (1.0 - cf) * 128.0;
    var offset := translate + BrightnessOffset(brightness);
    [ cf,  0.0, 0.0, 0.0, offset,
      0.0, cf,  0.0, 0.0, offset,
      0.0, 0.0, cf,  0.0, offset,
      0.0, 0.0, 0.0, 1.0, 0.0 ]
  }

  /** Row `row` of a 4x5 colour matrix applied to the colour (r, g, b, a). */
  function ApplyRow(m: seq<real>, row: nat, r: real, g: real, b: real, a: real): real
    requires |m| == 20 && row < 4
  {
    m[5 * row] * r + m[5 * row + 1] * g + m[5 * row + 2] * b + m[5 * row + 3] * a + m[5 * row + 4]
  }

  /**
   * The three colour rows are one and the same affine map of their own
   * channel (slope `1 + contrast/100`, constant `(1 - cf) * 128 + offset`),
   * and the alpha row is (0, 0, 0, 1, 0).
   */
  lemma MatrixShape(brightness: real, contrast: real)
    ensures var m := ColorMatrix(brightness, contrast);
      && m[0] == m[6] == m[12] == ContrastFactor(contrast)
      && m[4] == m[9] == m[14] == (1.0 - ContrastFactor(contrast)) * 128.0 + BrightnessOffset(brightness)
      && m[1] == m[2] == m[3] == m[5] == m[7] == m[8] == m[10] == m[11] == m[13] == 0.0
      && m[15..] == [0.0, 0.0, 0.0, 1.0, 0.0]
  {
  }

  /**
   * Before clamping, each colour channel becomes
   * `(v - 128) * contrastFactor + 128 + brightnessOffset` and depends on no
   * other channel, and alpha passes through.
   */
  lemma {:induction false} AffineAroundMidGrey(brightness: real, contrast: real, r: real, g: real, b: real, a: real)
    ensures var m, cf, off := ColorMatrix(brightness, contrast), ContrastFactor(contrast), BrightnessOffset(brightness);
      && ApplyRow(m, 0, r, g, b, a) == (r - 128.0) * cf + 128.0 + off
      && ApplyRow(m, 1, r, g, b, a) == (g - 128.0) * cf + 128.0 + off
      && ApplyRow(m, 2, r, g, b, a) == (b - 128.0) * cf + 128.0 + off
      && ApplyRow(m, 3, r, g, b, a) == a
  {
    var cf := ContrastFactor(contrast);
    assert r * cf + (1.0 - cf) * 128.0 == (r - 128.0) * cf + 128.0;
    assert g * cf + (1.0 - cf) * 128.0 == (g - 128.0) * cf + 128.0;
    assert b * cf + (1.0 - cf) * 128.0 == (b - 128.0) * cf + 128.0;
  }

  /** Mid-grey 128 is moved by the brightness offset alone, whatever the contrast. */
  lemma MidGreyShiftsByBrightness(brightness: real, contrast: real, a: real)
    ensures forall row :: 0 <= row < 3 ==>
      ApplyRow(ColorMatrix(brightness, contrast), row, 128.0, 128.0, 128.0, a) == 128.0 + BrightnessOffset(brightness)
  {
    AffineAroundMidGrey(brightness, contrast, 128.0, 128.0, 128.0, a);
  }

  /** The settings that make the stage inactive give the identity matrix, so skipping it changes nothing. */
  lemma {:induction false} InactiveMatrixIsIdentity(brightness: real, contrast: real, r: real, g: real, b: real, a: real)
    requires brightness == 0.0 && contrast == 0.0
    ensures var m := ColorMatrix(brightness, contrast);
      ApplyRow(m, 0, r, g, b, a) == r && ApplyRow(m, 1, r, g, b, a) == g &&
      ApplyRow(m, 2, r, g, b, a) == b && ApplyRow(m, 3, r, g, b, a) == a
  {
    var m := ColorMatrix(brightness, contrast);
    assert m[0] == m[6] == m[12] == m[18] == 1.0;
    assert m[1] == m[2] == m[3] == m[4] == 0.0;
    assert m[5] == m[7] == m[8] == m[9] == 0.0;
    assert m[10] == m[11] == m[13] == m[14] == 0.0;
    assert m[15] == m[16] == m[17] == m[19] == 0.0;
  }

  /**
   * More contrast moves every channel that is not mid-grey strictly further
   * from the (brightness-shifted) pivot, before clamping.
   */
  lemma {:induction false} ContrastSpreadsFromPivot(brightness: real, c1: real, c2: real, v: real)
    requires -100.0 <= c1 < c2 && v != 128.0
    ensures var pivot := 128.0 + BrightnessOffset(brightness);
      var out1 := ApplyRow(ColorMatrix(brightness, c1), 0, v, 0.0, 0.0, 0.0);
      var out2 := ApplyRow(ColorMatrix(brightness, c2), 0, v, 0.0, 0.0, 0.0);
      Abs(out1 - pivot) < Abs(out2 - pivot)
  {
    AffineAroundMidGrey(brightness, c1, v, 0.0, 0.0, 0.0);
    AffineAroundMidGrey(brightness, c2, v, 0.0, 0.0, 0.0);
    var pivot := 128.0 + BrightnessOffset(brightness);
    var d := v - 128.0;
    var f1, f2 := ContrastFactor(c1), ContrastFactor(c2);
    assert ApplyRow(ColorMatrix(brightness, c1), 0, v, 0.0, 0.0, 0.0) - pivot == d * f1;
    assert ApplyRow(ColorMatrix(brightness, c2), 0, v, 0.0, 0.0, 0.0) - pivot == d * f2;
    assert 0.0 <= f1 < f2;
    ScaleFurther(d, f1, f2);
  }

  lemma ScaleFurther(d: real, f1: real, f2: real)
    requires d != 0.0 && 0.0 <= f1 < f2
    ensures Abs(d * f1) < Abs(d * f2)
  {
    if d > 0.0 {
      assert d * f1 < d * f2;
    } else {
      var e := -d;
      assert e * f1 < e * f2;
      assert d * f1 == -(e * f1) && d * f2 == -(e * f2);
    }
  }

  function Abs(x: real): real
  {
    if x < 0.0 then -x else x
  }

  /**
   * With contrast 0, brightness +b followed by brightness -b restores every
   * colour channel (before clamping).
   */
  lemma BrightnessUndo(brightness: real, v: real)
    ensures var up := ApplyRow(ColorMatrix(brightness, 0.0), 0, v, 0.0, 0.0, 0.0);
      ApplyRow(ColorMatrix(-brightness, 0.0), 0, up, 0.0, 0.0, 0.0) == v
  {
    var up := ApplyRow(ColorMatrix(brightness, 0.0), 0, v, 0.0, 0.0, 0.0);
    AffineAroundMidGrey(brightness, 0.0, v, 0.0, 0.0, 0.0);
    AffineAroundMidGrey(-brightness, 0.0, up, 0.0, 0.0, 0.0);
  }
}
