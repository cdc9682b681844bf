/**
 * Stage 5 of `processImage`, threshold branch: every pixel is replaced, in
 * place in the `pixels` array, by black or white according to its BT.601
 * luma (ITU-R Recommendation BT.601 weights 0.299, 0.587, 0.114), truncated by
 * `toInt()` and compared with `>= threshold`; its alpha is kept.
 */
module Threshold {
  import opened KotlinNumbers
  import opened Argb
  import opened Images

  /** The stage runs for a positive threshold (and then the grayscale branch does not). */
  predicate ThresholdActive(threshold: int)
  {
    threshold > 0
  }

  /** `0.299 * r + 0.587 * g + 0.114 * b` */
  function Luma(r: Channel, g: Channel, b: Channel): (y: real)
    ensures 0.0 <= y <= 255.0
  {
    0.299 * r as real + 0.587 * g as real + 0.114 * b as real
  }

  /** `(0.299 * r + 0.587 * g + 0.114 * b).toInt()`: the luma, floored, in [0, 255]. */
  function Gray(p: Int32): (gray: int)
    ensures 0 <= gray <= 255
    ensures gray as real <= Luma(Red(p), Green(p), Blue(p)) < gray as real + 1.0
  {
    ToInt(Luma(Red(p), Green(p), Blue(p)))
  }

  /** The value stored back into `pixels[i]`. */
  function BinarizedPixel(p: Int32, threshold: int): Int32
  {
    var bw := if Gray(p) >= threshold then 255 else 0;
    Pack(Alpha(p), bw, bw, bw)
  }

  /**
   * The stored pixel keeps the alpha, has equal red, green and blue, and is
   * white exactly when the truncated luma reaches the threshold, black otherwise.
   */
  lemma BinarizedPixelChannels(p: Int32, threshold: int)
    ensures var q := BinarizedPixel(p, threshold);
      && Alpha(q) == Alpha(p)
      && Red(q) == Green(q) == Blue(q)
      && (Red(q) == 255 <==> Gray(p) >= threshold)
      && (Red(q) == 0 <==> Gray(p) < threshold)
  {
    var bw := if Gray(p) >= threshold then 255 else 0;
    PackUnpack(Alpha(p), bw, bw, bw);
  }

  /** The whole buffer after the loop, pixel by pixel in index order. */
  function Binarized(pixels: seq<Int32>, threshold: int): (out: seq<Int32>)
    ensures |out| == |pixels|
  {
    if |pixels| == 0 then []
    else Binarized(pixels[..|pixels| - 1], threshold) + [BinarizedPixel(pixels[|pixels| - 1], threshold)]
  }

  /** Each pixel of the result depends on the pixel at the same index alone. */
  lemma {:induction false} BinarizedAt(pixels: seq<Int32>, threshold: int, i: int)
    requires 0 <= i < |pixels|
    ensures Binarized(pixels, threshold)[i] == BinarizedPixel(pixels[i], threshold)
  {
    var n := |pixels|;
    if i < n - 1 {
      BinarizedAt(pixels[..n - 1], threshold, i);
    }
  }

  /**
   * The threshold stage: `getPixels` into `pixels`, then `for (i in
   * pixels.indices)` overwrites `pixels[i]` from its own old value.
   */
  method ThresholdStage(img: Image, threshold: Int32) returns (out: Image)
    requires img.Valid()
    ensures out == Image(img.width, img.height, Binarized(img.pixels, threshold))
  {
    var pixels := new Int32[|img.pixels|](k requires 0 <= k < |img.pixels| => img.pixels[k]);
    for i := 0 to pixels.Length
      invariant forall k :: 0 <= k < i ==> pixels[k] == BinarizedPixel(img.pixels[k], threshold)
      invariant forall k :: i <= k < pixels.Length ==> pixels[k] == img.pixels[k]
    {
      var pixel := pixels[i];
      var a := Alpha(pixel);
      var r := Red(pixel);
      var g := Green(pixel);
      var b := Blue(pixel);
      var gray := ToInt(0.299 * r as real + 0.587 * g as real + 0.114 * b as real);
      assert gray == Gray(pixel);
      var bw := if gray >= threshold then 255 else 0;
      pixels[i] := Pack(a, bw, bw, bw);
    }
    forall k | 0 <= k < pixels.Length
      ensures pixels[k] == Binarized(img.pixels, threshold)[k]
    {
      BinarizedAt(img.pixels, threshold, k);
    }
    out := Image(img.width, img.height, pixels[..]);
  }

  /**
   * After the stage every pixel is pure black or pure white with its own
   * alpha, and it is white exactly when its truncated luma reaches the
   * threshold (so a luma equal to the threshold gives white).
   */
  lemma OnlyBlackAndWhite(pixels: seq<Int32>, threshold: int, i: int)
    requires 0 <= i < |pixels|
    ensures var q := Binarized(pixels, threshold)[i];
      && Alpha(q) == Alpha(pixels[i])
      && Red(q) == Green(q) == Blue(q)
      && (Red(q) == 255 || Red(q) == 0)
      && (Red(q) == 255 <==> Luma(Red(pixels[i]), Green(pixels[i]), Blue(pixels[i])) >= threshold as real)
  {
    var p := pixels[i];
    var y := Luma(Red(p), Green(p), Blue(p));
    BinarizedAt(pixels, threshold, i);
    BinarizedPixelChannels(p, threshold);
    if Gray(p) >= threshold {
      assert y >= threshold as real;
    } else {
      assert y < threshold as real;
    }
  }

  /** Thresholding a black-and-white result again, with the same threshold in [1, 255], changes nothing. */
  lemma {:induction false} Idempotent(pixels: seq<Int32>, threshold: int)
    requires 0 < threshold <= 255
    ensures Binarized(Binarized(pixels, threshold), threshold) == Binarized(pixels, threshold)
  {
    var once := Binarized(pixels, threshold);
    forall i | 0 <= i < |pixels|
      ensures Binarized(once, threshold)[i] == once[i]
    {
      BinarizedAt(once, threshold, i);
      BinarizedAt(pixels, threshold, i);
      var q := once[i];
      BinarizedPixelChannels(pixels[i], threshold);
      var bw := Red(q);
      assert Gray(q) == bw;
      UnpackPack(q);
    }
  }

  /** A threshold above 255 turns every pixel black. */
  lemma AboveRangeAllBlack(pixels: seq<Int32>, threshold: int, i: int)
    requires 255 < threshold && 0 <= i < |pixels|
    ensures Binarized(pixels, threshold)[i] == Pack(Alpha(pixels[i]), 0, 0, 0)
  {
    BinarizedAt(pixels, threshold, i);
  }

  /** The weights 0.299, 0.587 and 0.114 as the nearest `Double` values. */
  const DoubleWeightR: real := 0.298999999999999988009591334048309363424777984619140625
  const DoubleWeightG: real := 0.5869999999999999662492200513952411711215972900390625
  const DoubleWeightB: real := 0.11400000000000000410782519111307919956743717193603515625

  /** The luma with the `Double` weights, the products and the sum taken exactly. */
  function DoubleWeightLuma(r: Channel, g: Channel, b: Channel): (y: real)
    ensures 0.0 <= y
  {
    DoubleWeightR * r as real + DoubleWeightG * g as real + DoubleWeightB * b as real
  }

  /**
   * The colour (0, 72, 24) has luma exactly 45, so at threshold 45 it is white
   * here; with the `Double` weights its luma is just under 45, so the code
   * truncates it to 44 and the pixel comes out black.
   */
  lemma DoubleWeightsMissBoundary(alpha: Channel)
    ensures var p := Pack(alpha, 0, 72, 24);
      && Luma(Red(p), Green(p), Blue(p)) == 45.0
      && Red(BinarizedPixel(p, 45)) == 255
      && Trunc(DoubleWeightLuma(Red(p), Green(p), Blue(p))) == 44
  {
    var p := Pack(alpha, 0, 72, 24);
    PackUnpack(alpha, 0, 72, 24);
    assert Luma(0, 72, 24) == 45.0;
    assert DoubleWeightLuma(0, 72, 24) < 45.0;
    BinarizedPixelChannels(p, 45);
  }
}
