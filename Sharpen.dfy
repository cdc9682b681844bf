/**
 * Stage 4 of `processImage`: the 3x3 sharpen convolution over the pixel
 * buffer. The kernel has zero corners, `-amount` on its four sides and
 * `1 + 4 * amount` in the centre. Every pixel off the one-pixel border gets,
 * per colour channel, the kernel-weighted sum of its neighbourhood in the
 * SOURCE buffer, truncated by `toInt()` and clamped to [0, 255]; its alpha and
 * every border pixel are copied from the source.
 */
module Sharpen {
  import opened KotlinNumbers
  import opened Argb
  import opened Images

  /** `sharpness / 100` */
  function Amount(sharpness: real): real
  {
    sharpness / 100.0
  }

  /** The stage runs only for a positive sharpness. */
  predicate SharpenActive(sharpness: real)
  {
    sharpness > 0.0
  }

  /** `floatArrayOf(0, side, 0, side, center, side, 0, side, 0)`, row-major. */
  function Kernel(sharpness: real): (k: seq<real>)
    ensures |k| == 9
  {
    var amount := Amount(sharpness);
    var center := 1.0 + 4.0 * amount;
    var side := -amount;
    [ 0.0,  side,   0.0,
      side, center, side,
      0.0,  side,   0.0 ]
  }

  /** The sum of the first `n` entries of `k`. */
  function PrefixSum(k: seq<real>, n: nat): real
    requires n <= |k|
  {
    if n == 0 then 0.0 else PrefixSum(k, n - 1) + k[n - 1]
  }

  /** Zero corners, `-amount` sides, `1 + 4 * amount` centre; the weights sum to 1. */
  lemma KernelShape(sharpness: real)
    ensures var k, amount := Kernel(sharpness), Amount(sharpness);
      && k[0] == k[2] == k[6] == k[8] == 0.0
      && k[1] == k[3] == k[5] == k[7] == -amount
      && k[4] == 1.0 + 4.0 * amount
      && PrefixSum(k, 9) == 1.0
  {
    var k, a := Kernel(sharpness), Amount(sharpness);
    assert PrefixSum(k, 1) == 0.0;
    assert PrefixSum(k, 2) == -a;
    assert PrefixSum(k, 3) == -a;
    assert PrefixSum(k, 4) == -2.0 * a;
    assert PrefixSum(k, 5) == 1.0 + 2.0 * a;
    assert PrefixSum(k, 6) == 1.0 + a;
    assert PrefixSum(k, 7) == 1.0 + a;
    assert PrefixSum(k, 8) == 1.0;
  }

  /** The three colour channels the kernel is applied to. */
  datatype Component = R | G | B

  /** One colour channel of a packed pixel. */
  function Sample(c: Component, p: Int32): Channel
  {
    match c
    case R => Red(p)
    case G => Green(p)
    case B => Blue(p)
  }

  /** The pixel is off the one-pixel border, so its whole 3x3 neighbourhood exists. */
  ghost predicate Interior(img: Image, x: int, y: int)
  {
    1 <= x < img.width - 1 && 1 <= y < img.height - 1
  }

  /**
   * The first `n` products of the accumulation `r += channel * k`, taken in
   * the loop order: `ky` from -1 to 1, and within it `kx` from -1 to 1; tap
   * `t` is at offset (t % 3 - 1, t / 3 - 1).
   */
  function Taps(img: Image, kernel: seq<real>, c: Component, x: int, y: int, n: nat): real
    requires img.Valid() && |kernel| == 9 && Interior(img, x, y) && n <= 9
  {
    if n == 0 then 0.0
    else
      var t := n - 1;
      Taps(img, kernel, c, x, y, t) + Weighted(Sample(c, Neighbour(img, x, y, t)), kernel[t])
  }

  /** Tap `t` of the 3x3 neighbourhood of (x, y): column offset t % 3 - 1, row offset t / 3 - 1. */
  function Neighbour(img: Image, x: int, y: int, t: int): Int32
    requires img.Valid() && Interior(img, x, y) && 0 <= t < 9
  {
    img.At(x + t % 3 - 1, y + t / 3 - 1)
  }

  /** `channel * k`: an 8-bit channel value times a kernel weight. */
  function Weighted(v: Channel, k: real): real
  {
    v as real * k
  }

  /** One step of the accumulation: the tap at offset (kx, ky) is added. */
  lemma TapStep(img: Image, kernel: seq<real>, c: Component, x: int, y: int, kx: int, ky: int)
    requires img.Valid() && |kernel| == 9 && Interior(img, x, y) && -1 <= kx <= 1 && -1 <= ky <= 1
    ensures Taps(img, kernel, c, x, y, 3 * (ky + 1) + (kx + 1) + 1)
         == Taps(img, kernel, c, x, y, 3 * (ky + 1) + (kx + 1)) + Weighted(Sample(c, img.At(x + kx, y + ky)), kernel[3 * (ky + 1) + (kx + 1)])
  {
    var t := 3 * (ky + 1) + (kx + 1);
    assert t % 3 == kx + 1 && t / 3 == ky + 1;
  }

  /** The full 3x3 weighted sum of one channel around (x, y). */
  function Convolve(img: Image, kernel: seq<real>, c: Component, x: int, y: int): real
    requires img.Valid() && |kernel| == 9 && Interior(img, x, y)
  {
    Taps(img, kernel, c, x, y, 9)
  }

  /** `v.toInt().coerceIn(0, 255)` */
  function ToChannel(v: real): Channel
  {
    CoerceIn(ToInt(v), 0, 255)
  }

  /** The value the loop stores for an interior pixel. */
  function SharpenedPixel(img: Image, kernel: seq<real>, x: int, y: int): Int32
    requires img.Valid() && |kernel| == 9 && Interior(img, x, y)
  {
    Pack(Alpha(img.At(x, y)),
         ToChannel(Convolve(img, kernel, R, x, y)),
         ToChannel(Convolve(img, kernel, G, x, y)),
         ToChannel(Convolve(img, kernel, B, x, y)))
  }

  /** Row 0, row height-1, column 0 or column width-1 of the flat index `k`. */
  predicate OnBorder(width: int, height: int, k: int)
    requires 0 < width
  {
    k % width == 0 || k / width == 0 || k % width == width - 1 || k / width == height - 1
  }

  /** The sharpened buffer, cell by flat index. */
  function SharpenedPixels(img: Image, kernel: seq<real>): (s: seq<Int32>)
    requires img.Valid() && |kernel| == 9
    ensures |s| == img.width * img.height
  {
    var width, height := img.width, img.height;
    seq(width * height, k requires 0 <= k < width * height =>
      RowCol(width, height, k);
      if OnBorder(width, height, k) then img.pixels[k] else SharpenedPixel(img, kernel, k % width, k / width))
  }

  /** The whole sharpened buffer as a function of the source alone. */
  function Sharpened(img: Image, kernel: seq<real>): (out: Image)
    requires img.Valid() && |kernel| == 9
    ensures out.Valid() && out.width == img.width && out.height == img.height
  {
    Image(img.width, img.height, SharpenedPixels(img, kernel))
  }

  /**
   * Border pixels are copied from the source; interior ones are recomputed
   * from the source neighbourhood, never from pixels already written.
   */
  lemma SharpenedAt(img: Image, kernel: seq<real>, x: int, y: int)
    requires img.Valid() && |kernel| == 9 && 0 <= x < img.width && 0 <= y < img.height
    ensures !Interior(img, x, y) ==> Sharpened(img, kernel).At(x, y) == img.At(x, y)
    ensures Interior(img, x, y) ==> Sharpened(img, kernel).At(x, y) == SharpenedPixel(img, kernel, x, y)
  {
    var k := y * img.width + x;
    Cell(img.width, img.height, x, y);
    Split(img.width, x, y);
    assert Sharpened(img, kernel).At(x, y) == SharpenedPixels(img, kernel)[k];
    if Interior(img, x, y) {
      assert !OnBorder(img.width, img.height, k);
    } else {
      assert OnBorder(img.width, img.height, k);
    }
  }

  /**
   * Each interior output pixel keeps its source alpha, and each of its colour
   * channels is the truncated 3x3 sum clamped to [0, 255], which is the same
   * as the clamped floor of that sum.
   */
  lemma InteriorChannels(img: Image, kernel: seq<real>, x: int, y: int)
    requires img.Valid() && |kernel| == 9 && Interior(img, x, y)
    ensures var p := Sharpened(img, kernel).At(x, y);
      && Alpha(p) == Alpha(img.At(x, y))
      && Red(p) == CoerceIn(ToInt(Convolve(img, kernel, R, x, y)), 0, 255) == CoerceIn(Convolve(img, kernel, R, x, y).Floor, 0, 255)
      && Green(p) == CoerceIn(ToInt(Convolve(img, kernel, G, x, y)), 0, 255) == CoerceIn(Convolve(img, kernel, G, x, y).Floor, 0, 255)
      && Blue(p) == CoerceIn(ToInt(Convolve(img, kernel, B, x, y)), 0, 255) == CoerceIn(Convolve(img, kernel, B, x, y).Floor, 0, 255)
  {
    var r, g, b := Convolve(img, kernel, R, x, y), Convolve(img, kernel, G, x, y), Convolve(img, kernel, B, x, y);
    SharpenedAt(img, kernel, x, y);
    assert Sharpened(img, kernel).At(x, y) == Pack(Alpha(img.At(x, y)), ToChannel(r), ToChannel(g), ToChannel(b));
    PackUnpack(Alpha(img.At(x, y)), ToChannel(r), ToChannel(g), ToChannel(b));
    ClampedToIntIsClampedFloor(r);
    ClampedToIntIsClampedFloor(g);
    ClampedToIntIsClampedFloor(b);
  }

  /** A bitmap narrower or shorter than 3 pixels is all border, so it comes out unchanged. */
  lemma SmallImageUnchanged(img: Image, kernel: seq<real>)
    requires img.Valid() && |kernel| == 9 && (img.width < 3 || img.height < 3)
    ensures Sharpened(img, kernel) == img
  {
    forall x, y | 0 <= x < img.width && 0 <= y < img.height
      ensures Sharpened(img, kernel).At(x, y) == img.At(x, y)
    {
      SharpenedAt(img, kernel, x, y);
    }
    Extensionality(Sharpened(img, kernel), img);
  }

  /** Every pixel has the colour of the top-left one (alpha may differ). */
  ghost predicate FlatColour(img: Image)
    requires img.Valid()
  {
    forall x, y, c :: 0 <= x < img.width && 0 <= y < img.height ==> Sample(c, img.At(x, y)) == Sample(c, img.At(0, 0))
  }

  /** Over a flat neighbourhood the partial sums are the colour times the partial kernel sums. */
  lemma {:induction false} FlatTaps(img: Image, kernel: seq<real>, c: Component, x: int, y: int, n: nat, v: Channel)
    requires img.Valid() && |kernel| == 9 && Interior(img, x, y) && n <= 9
    requires forall t :: 0 <= t < 9 ==> Sample(c, Neighbour(img, x, y, t)) == v
    ensures Taps(img, kernel, c, x, y, n) == Weighted(v, PrefixSum(kernel, n))
  {
    if n > 0 {
      FlatTaps(img, kernel, c, x, y, n - 1, v);
      WeightedAdds(v, PrefixSum(kernel, n - 1), kernel[n - 1]);
    }
  }

  /** Weighting distributes over a sum of weights. */
  lemma WeightedAdds(v: Channel, a: real, b: real)
    ensures Weighted(v, a) + Weighted(v, b) == Weighted(v, a + b)
  {
  }

  /** The kernel sums to 1, so sharpening leaves a flat-colour bitmap exactly as it was. */
  lemma FlatImageUnchanged(img: Image, sharpness: real)
    requires img.Valid() && FlatColour(img)
    ensures Sharpened(img, Kernel(sharpness)) == img
  {
    var kernel := Kernel(sharpness);
    forall x, y | 0 <= x < img.width && 0 <= y < img.height
      ensures Sharpened(img, kernel).At(x, y) == img.At(x, y)
    {
      SharpenedAt(img, kernel, x, y);
      if Interior(img, x, y) {
        FlatInterior(img, kernel, sharpness, x, y);
      }
    }
    Extensionality(Sharpened(img, kernel), img);
  }

  /**
   * Over a flat-colour bitmap each colour channel's 3x3 sum at an interior
   * pixel is that channel times the kernel's sum: a kernel summing to less
   * than 1 darkens.
   */
  lemma FlatInteriorScaled(img: Image, kernel: seq<real>, x: int, y: int)
    requires img.Valid() && FlatColour(img) && |kernel| == 9 && Interior(img, x, y)
    ensures forall c :: Convolve(img, kernel, c, x, y) == Sample(c, img.At(x, y)) as real * PrefixSum(kernel, 9)
  {
    var p := img.At(x, y);
    forall c
      ensures Convolve(img, kernel, c, x, y) == Sample(c, p) as real * PrefixSum(kernel, 9)
    {
      forall t | 0 <= t < 9
        ensures Sample(c, Neighbour(img, x, y, t)) == Sample(c, p)
      {
        assert Sample(c, Neighbour(img, x, y, t)) == Sample(c, img.At(0, 0));
      }
      FlatTaps(img, kernel, c, x, y, 9, Sample(c, p));
    }
  }

  /** One interior pixel of a flat-colour bitmap is left as it was. */
  lemma FlatInterior(img: Image, kernel: seq<real>, sharpness: real, x: int, y: int)
    requires img.Valid() && FlatColour(img) && kernel == Kernel(sharpness) && Interior(img, x, y)
    ensures SharpenedPixel(img, kernel, x, y) == img.At(x, y)
  {
    KernelShape(sharpness);
    FlatInteriorScaled(img, kernel, x, y);
    var p := img.At(x, y);
    assert ToChannel(Convolve(img, kernel, R, x, y)) == Red(p);
    assert ToChannel(Convolve(img, kernel, G, x, y)) == Green(p);
    assert ToChannel(Convolve(img, kernel, B, x, y)) == Blue(p);
    UnpackPack(p);
  }

  /**
   * The kernel the code builds at sharpness 1 once its entries are rounded to
   * `Float`: `amount` is 0.01f and `center` is 1.0f + 0.04f.
   */
  const FloatAmount1: real := 0.00999999977648258209228515625
  const FloatCenter1: real := 1.03999996185302734375
  const FloatKernel1: seq<real> :=
    [ 0.0,           -FloatAmount1, 0.0,
      -FloatAmount1, FloatCenter1,  -FloatAmount1,
      0.0,           -FloatAmount1, 0.0 ]

  /**
   * With the `Float` coefficients the weights sum to just under 1, so at
   * sharpness 1 a flat red channel of 5 comes out as 4, even before any
   * rounding of the sums.
   */
  lemma FloatKernelDarkensFlat(img: Image, x: int, y: int)
    requires img.Valid() && FlatColour(img) && Interior(img, x, y) && Red(img.At(x, y)) == 5
    ensures PrefixSum(FloatKernel1, 9) < 1.0
    ensures Red(SharpenedPixel(img, FloatKernel1, x, y)) == 4
  {
    var k := FloatKernel1;
    assert PrefixSum(k, 9) == FloatCenter1 - 4.0 * FloatAmount1 by {
      assert PrefixSum(k, 1) == 0.0;
      assert PrefixSum(k, 2) == -FloatAmount1;
      assert PrefixSum(k, 4) == -2.0 * FloatAmount1;
      assert PrefixSum(k, 5) == FloatCenter1 - 2.0 * FloatAmount1;
      assert PrefixSum(k, 6) == FloatCenter1 - 3.0 * FloatAmount1;
      assert PrefixSum(k, 8) == FloatCenter1 - 4.0 * FloatAmount1;
    }
    FlatInteriorScaled(img, k, x, y);
    var p := img.At(x, y);
    var r := Convolve(img, k, R, x, y);
    assert r == 5.0 * (FloatCenter1 - 4.0 * FloatAmount1);
    assert ToChannel(r) == 4;
    PackUnpack(Alpha(p), ToChannel(r), ToChannel(Convolve(img, k, G, x, y)), ToChannel(Convolve(img, k, B, x, y)));
  }

  /**
   * `r`, `g` and `b` after the two inner loops over the 3x3 neighbourhood of
   * (x, y): the kernel-weighted channel sums, read from `src` only.
   */
  method Accumulate(src: array<Int32>, ghost img: Image, width: int, kernel: seq<real>, x: int, y: int)
    returns (r: real, g: real, b: real)
    requires img.Valid() && width == img.width && src[..] == img.pixels
    requires |kernel| == 9 && Interior(img, x, y)
    ensures r == Convolve(img, kernel, R, x, y)
    ensures g == Convolve(img, kernel, G, x, y)
    ensures b == Convolve(img, kernel, B, x, y)
  {
    r, g, b := 0.0, 0.0, 0.0;
    var ky := -1;
    while ky <= 1
      invariant -1 <= ky <= 2
      invariant r == Taps(img, kernel, R, x, y, 3 * (ky + 1))
      invariant g == Taps(img, kernel, G, x, y, 3 * (ky + 1))
      invariant b == Taps(img, kernel, B, x, y, 3 * (ky + 1))
    {
      r, g, b := AccumulateRow(src, img, width, kernel, x, y, ky, r, g, b);
      ky := ky + 1;
    }
  }

  /** The `kx` loop for one kernel row `ky`: adds that row's three taps to each sum. */
  method AccumulateRow(src: array<Int32>, ghost img: Image, width: int, kernel: seq<real>, x: int, y: int, ky: int,
                       r0: real, g0: real, b0: real)
    returns (r: real, g: real, b: real)
    requires img.Valid() && width == img.width && src[..] == img.pixels
    requires |kernel| == 9 && Interior(img, x, y) && -1 <= ky <= 1
    requires r0 == Taps(img, kernel, R, x, y, 3 * (ky + 1))
    requires g0 == Taps(img, kernel, G, x, y, 3 * (ky + 1))
    requires b0 == Taps(img, kernel, B, x, y, 3 * (ky + 1))
    ensures r == Taps(img, kernel, R, x, y, 3 * (ky + 2))
    ensures g == Taps(img, kernel, G, x, y, 3 * (ky + 2))
    ensures b == Taps(img, kernel, B, x, y, 3 * (ky + 2))
  {
    r, g, b := r0, g0, b0;
    var kx := -1;
    while kx <= 1
      invariant -1 <= kx <= 2
      invariant r == Taps(img, kernel, R, x, y, 3 * (ky + 1) + (kx + 1))
      invariant g == Taps(img, kernel, G, x, y, 3 * (ky + 1) + (kx + 1))
      invariant b == Taps(img, kernel, B, x, y, 3 * (ky + 1) + (kx + 1))
    {
      Cell(width, img.height, x + kx, y + ky);
      var pixel := src[(y + ky) * width + (x + kx)];
      assert pixel == img.At(x + kx, y + ky);
      var k := kernel[(ky + 1) * 3 + (kx + 1)];
      TapStep(img, kernel, R, x, y, kx, ky);
      TapStep(img, kernel, G, x, y, kx, ky);
      TapStep(img, kernel, B, x, y, kx, ky);
      r := r + Weighted(Red(pixel), k);
      g := g + Weighted(Green(pixel), k);
      b := b + Weighted(Blue(pixel), k);
      kx := kx + 1;
    }
  }

  /**
   * `dstPixels` part-way through the double loop: the sharpened value in
   * every row above `y` and in the first `x` columns of row `y`, the copied
   * source value everywhere else.
   */
  ghost function Progress(img: Image, kernel: seq<real>, y: int, x: int): (s: seq<Int32>)
    requires img.Valid() && |kernel| == 9
    ensures |s| == |img.pixels|
  {
    var target := SharpenedPixels(img, kernel);
    seq(|img.pixels|, k requires 0 <= k < |img.pixels| =>
      if k / img.width < y || (k / img.width == y && k % img.width < x) then target[k] else img.pixels[k])
  }

  /** Before the loops, row 0 being border, the copy is already the progress at row 1. */
  lemma ProgressStart(img: Image, kernel: seq<real>)
    requires img.Valid() && |kernel| == 9
    ensures Progress(img, kernel, 1, 0) == img.pixels
  {
    var target := SharpenedPixels(img, kernel);
    forall k | 0 <= k < |img.pixels| && k / img.width < 1
      ensures target[k] == img.pixels[k]
    {
      RowCol(img.width, img.height, k);
    }
  }

  /** Column 0 of a row is border: starting the row at column 1 changes nothing. */
  lemma ProgressRowStart(img: Image, kernel: seq<real>, y: int)
    requires img.Valid() && |kernel| == 9
    ensures Progress(img, kernel, y, 1) == Progress(img, kernel, y, 0)
  {
    var target := SharpenedPixels(img, kernel);
    forall k | 0 <= k < |img.pixels| && k / img.width == y && k % img.width == 0
      ensures target[k] == img.pixels[k]
    {
      RowCol(img.width, img.height, k);
    }
  }

  /** Column width-1 is border too, so a finished row is the start of the next one. */
  lemma ProgressRowEnd(img: Image, kernel: seq<real>, y: int, x: int)
    requires img.Valid() && |kernel| == 9 && 1 <= x && img.width - 1 <= x
    ensures Progress(img, kernel, y, x) == Progress(img, kernel, y + 1, 0)
  {
    var target := SharpenedPixels(img, kernel);
    forall k | 0 <= k < |img.pixels| && k / img.width == y && x <= k % img.width
      ensures target[k] == img.pixels[k]
    {
      RowCol(img.width, img.height, k);
    }
  }

  /** Once the rows left are border rows, the progress is the whole sharpened buffer. */
  lemma ProgressEnd(img: Image, kernel: seq<real>, y: int)
    requires img.Valid() && |kernel| == 9 && 1 <= y && img.height - 1 <= y
    ensures Progress(img, kernel, y, 0) == SharpenedPixels(img, kernel)
  {
    var target := SharpenedPixels(img, kernel);
    forall k | 0 <= k < |img.pixels| && y <= k / img.width
      ensures target[k] == img.pixels[k]
    {
      RowCol(img.width, img.height, k);
    }
  }

  /** Writing the sharpened pixel (x, y) advances the progress by one column. */
  lemma {:induction false} ProgressStep(img: Image, kernel: seq<real>, y: int, x: int)
    requires img.Valid() && |kernel| == 9 && Interior(img, x, y)
    ensures 0 <= y * img.width + x < |img.pixels|
    ensures Progress(img, kernel, y, x)[y * img.width + x := SharpenedPixel(img, kernel, x, y)]
         == Progress(img, kernel, y, x + 1)
  {
    var width := img.width;
    var i := y * width + x;
    Cell(width, img.height, x, y);
    Split(width, x, y);
    var target := SharpenedPixels(img, kernel);
    assert !OnBorder(width, img.height, i);
    assert target[i] == SharpenedPixel(img, kernel, x, y);
    var before, after := Progress(img, kernel, y, x), Progress(img, kernel, y, x + 1);
    forall k | 0 <= k < |img.pixels| && k != i
      ensures before[k] == after[k]
    {
      RowCol(width, img.height, k);
      if k / width == y && k % width == x {
        assert false;
      }
    }
    assert before[i := target[i]] == after;
  }

  /**
   * One pass of the outer loop: row `y`'s columns 1..width-2 of `dst` get
   * their sharpened value; every other cell keeps what it had.
   */
  method SharpenRow(src: array<Int32>, dst: array<Int32>, ghost img: Image, width: int, kernel: seq<real>, y: int)
    requires img.Valid() && width == img.width && src != dst
    requires src[..] == img.pixels
    requires |kernel| == 9 && 1 <= y < img.height - 1
    requires dst[..] == Progress(img, kernel, y, 0)
    modifies dst
    ensures dst[..] == Progress(img, kernel, y + 1, 0)
  {
    ProgressRowStart(img, kernel, y);
    var x := 1;
    while x < width - 1
      invariant 1 <= x <= if width < 2 then 1 else width - 1
      invariant dst[..] == Progress(img, kernel, y, x)
    {
      var r, g, b := Accumulate(src, img, width, kernel, x, y);
      ProgressStep(img, kernel, y, x);
      Split(width, x, y);
      var a := Alpha(src[y * width + x]);
      assert a == Alpha(img.At(x, y));
      dst[y * width + x] := Pack(a, ToChannel(r), ToChannel(g), ToChannel(b));
      x := x + 1;
    }
    ProgressRowEnd(img, kernel, y, x);
  }

  /**
   * The sharpen stage: `srcPixels` and `dstPixels` start as copies of the
   * bitmap's pixels, the double loop over rows 1..height-2 and columns
   * 1..width-2 writes only `dstPixels`, and the result is `dstPixels`.
   */
  method SharpenStage(img: Image, sharpness: real) returns (out: Image)
    requires img.Valid()
    ensures out == Sharpened(img, Kernel(sharpness))
  {
    var kernel := Kernel(sharpness);
    var width, height := img.width, img.height;
    var srcPixels := new Int32[width * height](k requires 0 <= k < width * height => img.pixels[k]);
    var dstPixels := new Int32[width * height];
    forall k | 0 <= k < srcPixels.Length {
      dstPixels[k] := srcPixels[k];
    }
    assert srcPixels[..] == img.pixels;
    ProgressStart(img, kernel);
    var y := 1;
    while y < height - 1
      modifies dstPixels
      invariant 1 <= y <= if height < 2 then 1 else height - 1
      invariant dstPixels[..] == Progress(img, kernel, y, 0)
    {
      SharpenRow(srcPixels, dstPixels, img, width, kernel, y);
      y := y + 1;
    }
    ProgressEnd(img, kernel, y);
    out := Image(width, height, dstPixels[..]);
  }
}
