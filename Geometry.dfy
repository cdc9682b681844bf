/**
 * Stages 1 and 2 of `processImage`: the crop rectangle computed from the
 * fractional crop options, the crop itself as a sub-rectangle copy, and the
 * normalised rotation angle handed to `Matrix.postRotate`.
 */
module Geometry {
  import opened KotlinNumbers
  import opened Images

  /** A pixel rectangle: top-left corner (x, y), width w, height h. */
  datatype Rect = Rect(x: int, y: int, w: int, h: int)

  /** The rectangle lies inside a `width` x `height` bitmap and is not empty. */
  ghost predicate Inside(r: Rect, width: int, height: int)
  {
    0 <= r.x && 0 <= r.y && 0 < r.w && 0 < r.h && r.x + r.w <= width && r.y + r.h <= height
  }

  /** The crop stage is considered at all only for these fractional options. */
  predicate CropRequested(cropX: real, cropY: real, cropWidth: real, cropHeight: real)
  {
    cropX >= 0.0 && cropY >= 0.0 && cropWidth > 0.0 && cropHeight > 0.0
  }

  /**
   * The rectangle handed to `Bitmap.createBitmap(bitmap, x, y, w, h)`, or None
   * when the crop is skipped: fractions times the bitmap size, truncated by
   * `toInt()`, the origin raised to 0 and the size lowered to what is left of
   * the bitmap.
   */
  function CropRect(cropX: real, cropY: real, cropWidth: real, cropHeight: real, width: Int32, height: Int32): (r: Option<Rect>)
    requires 0 < width && 0 < height
    ensures r.Some? ==> Inside(r.value, width, height)
  {
    if !CropRequested(cropX, cropY, cropWidth, cropHeight) then None
    else
      NonNegativeScale(cropX, width);
      NonNegativeScale(cropY, height);
      var x := CoerceAtLeast(ToInt(cropX * width as real), 0);
      var y := CoerceAtLeast(ToInt(cropY * height as real), 0);
      var w := CoerceAtMost(ToInt(cropWidth * width as real), width - x);
      var h := CoerceAtMost(ToInt(cropHeight * height as real), height - y);
      if w > 0 && h > 0 then Some(Rect(x, y, w, h)) else None
  }

  /**
   * The crop happens exactly when the options ask for it, the truncated
   * origin lies inside the bitmap and the truncated size is positive; the
   * origin is then the truncated product and the size the truncated product
   * or what is left of the bitmap past the origin, whichever is smaller.
   */
  lemma CropRectSpec(cropX: real, cropY: real, cropWidth: real, cropHeight: real, width: Int32, height: Int32)
    requires 0 < width && 0 < height
    ensures var r := CropRect(cropX, cropY, cropWidth, cropHeight, width, height);
      && (r.Some? <==>
            CropRequested(cropX, cropY, cropWidth, cropHeight)
            && ToInt(cropX * width as real) < width && ToInt(cropY * height as real) < height
            && 0 < ToInt(cropWidth * width as real) && 0 < ToInt(cropHeight * height as real))
      && (r.Some? ==>
            && r.value.x == ToInt(cropX * width as real)
            && r.value.y == ToInt(cropY * height as real)
            && r.value.w == Min(ToInt(cropWidth * width as real), width - r.value.x)
            && r.value.h == Min(ToInt(cropHeight * height as real), height - r.value.y))
  {
    if CropRequested(cropX, cropY, cropWidth, cropHeight) {
      NonNegativeScale(cropX, width);
      NonNegativeScale(cropY, height);
    }
  }

  /** `v.coerceAtLeast(lo)` */
  function CoerceAtLeast(v: int, lo: int): (r: int)
    ensures lo <= r && (lo <= v ==> r == v)
    ensures v < lo ==> r == lo
  {
    if v < lo then lo else v
  }

  /** `v.coerceAtMost(hi)` */
  function CoerceAtMost(v: int, hi: int): (r: int)
    ensures r <= hi && (v <= hi ==> r == v)
    ensures hi < v ==> r == hi
  {
    if hi < v then hi else v
  }

  /** The smaller of two integers. */
  function Min(a: int, b: int): int
  {
    if a <= b then a else b
  }

  /** The -1.0 defaults of the crop options leave the bitmap uncropped. */
  lemma DefaultCropDisabled(width: Int32, height: Int32)
    requires 0 < width && 0 < height
    ensures CropRect(-1.0, -1.0, -1.0, -1.0, width, height) == None
  {
  }

  /**
   * A crop request that lies within the unit square needs no clamping: the
   * rectangle is exactly the truncated products.
   */
  lemma {:induction false} FractionalCropUnclamped(cropX: real, cropY: real, cropWidth: real, cropHeight: real, width: Int32, height: Int32)
    requires 0 < width && 0 < height
    requires CropRequested(cropX, cropY, cropWidth, cropHeight)
    requires cropX + cropWidth <= 1.0 && cropY + cropHeight <= 1.0
    requires 0 < Trunc(cropWidth * width as real) && 0 < Trunc(cropHeight * height as real)
    ensures CropRect(cropX, cropY, cropWidth, cropHeight, width, height)
         == Some(Rect(Trunc(cropX * width as real), Trunc(cropY * height as real),
                      Trunc(cropWidth * width as real), Trunc(cropHeight * height as real)))
  {
    TruncSumBelow(cropX, cropWidth, width);
    TruncSumBelow(cropY, cropHeight, height);
  }

  /** trunc(a n) + trunc(b n) <= n when a, b >= 0 and a + b <= 1. */
  lemma TruncSumBelow(a: real, b: real, n: Int32)
    requires 0.0 <= a && 0.0 <= b && a + b <= 1.0 && 0 < n
    ensures Trunc(a * n as real) + Trunc(b * n as real) <= n
    ensures Trunc(a * n as real) <= n && Trunc(b * n as real) <= n
  {
    NonNegativeScale(a, n);
    NonNegativeScale(b, n);
    ScaleAtMost(a + b, n);
    Distribute(a, b, n);
    TruncOfSumBelow(a * n as real, b * n as real, n);
  }

  /** Truncating two non-negative reals whose sum is at most m gives integers summing to at most m. */
  lemma TruncOfSumBelow(x: real, y: real, m: int)
    requires 0.0 <= x && 0.0 <= y && x + y <= m as real
    ensures Trunc(x) + Trunc(y) <= m && Trunc(x) <= m && Trunc(y) <= m
  {
  }

  /** Scaling distributes over a sum of fractions. */
  lemma Distribute(a: real, b: real, n: int)
    ensures a * n as real + b * n as real == (a + b) * n as real
  {
  }

  /** At most the whole of a positive size. */
  lemma ScaleAtMost(c: real, n: int)
    requires c <= 1.0 && 0 < n
    ensures c * n as real <= n as real
  {
    assert (1.0 - c) * n as real >= 0.0;
  }

  /** A non-negative fraction of a positive size is non-negative. */
  lemma NonNegativeScale(a: real, n: int)
    requires 0.0 <= a && 0 < n
    ensures 0.0 <= a * n as real
  {
  }

  /** `Bitmap.createBitmap(bitmap, x, y, w, h)`: a copy of the sub-rectangle. */
  function Crop(img: Image, r: Rect): (out: Image)
    requires img.Valid() && Inside(r, img.width, img.height)
    ensures out.Valid() && out.width == r.w && out.height == r.h
  {
    Image(r.w, r.h, seq(r.w * r.h, k requires 0 <= k < r.w * r.h =>
      RowCol(r.w, r.h, k);
      img.At(r.x + k % r.w, r.y + k / r.w)))
  }

  /** Pixel (i, j) of the crop is pixel (x + i, y + j) of the source. */
  lemma CropAt(img: Image, r: Rect, i: int, j: int)
    requires img.Valid() && Inside(r, img.width, img.height) && 0 <= i < r.w && 0 <= j < r.h
    ensures Crop(img, r).At(i, j) == img.At(r.x + i, r.y + j)
  {
    Cell(r.w, r.h, i, j);
    Split(r.w, i, j);
  }

  /** Cropping to the whole bitmap copies it unchanged. */
  lemma CropWhole(img: Image)
    requires img.Valid()
    ensures Crop(img, Rect(0, 0, img.width, img.height)) == img
  {
    var whole := Rect(0, 0, img.width, img.height);
    forall i, j | 0 <= i < img.width && 0 <= j < img.height
      ensures Crop(img, whole).At(i, j) == img.At(i, j)
    {
      CropAt(img, whole, i, j);
    }
    Extensionality(Crop(img, whole), img);
  }

  /** A crop of a crop is one crop whose origin is the sum of the two origins. */
  lemma CropOfCrop(img: Image, outer: Rect, inner: Rect)
    requires img.Valid() && Inside(outer, img.width, img.height) && Inside(inner, outer.w, outer.h)
    ensures Inside(Rect(outer.x + inner.x, outer.y + inner.y, inner.w, inner.h), img.width, img.height)
    ensures Crop(Crop(img, outer), inner) == Crop(img, Rect(outer.x + inner.x, outer.y + inner.y, inner.w, inner.h))
  {
    var combined := Rect(outer.x + inner.x, outer.y + inner.y, inner.w, inner.h);
    forall i, j | 0 <= i < inner.w && 0 <= j < inner.h
      ensures Crop(Crop(img, outer), inner).At(i, j) == Crop(img, combined).At(i, j)
    {
      CropAt(Crop(img, outer), inner, i, j);
      CropAt(img, outer, inner.x + i, inner.y + j);
      CropAt(img, combined, i, j);
    }
    Extensionality(Crop(Crop(img, outer), inner), Crop(img, combined));
  }

  /**
   * `rotation.toInt() % 360`: the angle passed to `Matrix.postRotate`. It keeps
   * the sign of the requested angle, stays strictly between -360 and 360, is
   * congruent to the truncated request, and is 0 exactly for multiples of 360.
   */
  function RotationDegrees(rotation: real): (r: int)
    ensures -360 < r < 360
    ensures (ToInt(rotation) - r) % 360 == 0
    ensures r == 0 <==> ToInt(rotation) % 360 == 0
    ensures 0 < r ==> 0 < ToInt(rotation)
    ensures r < 0 ==> ToInt(rotation) < 0
  {
    Rem360(ToInt(rotation))
  }

  /** The rotation stage runs when the normalised angle is not 0. */
  predicate RotationActive(rotation: real)
  {
    RotationDegrees(rotation) != 0
  }

  /** Worked cases: negative angles keep their sign, whole turns are dropped. */
  lemma RotationExamples()
    ensures RotationDegrees(-90.0) == -90
    ensures RotationDegrees(450.0) == 90
    ensures RotationDegrees(-720.0) == 0
    ensures RotationDegrees(359.9) == 359
    ensures RotationDegrees(-450.5) == -90
  {
  }

  /** Any whole number of turns, in either direction, skips the rotation stage. */
  lemma WholeTurnsSkipRotation(turns: int)
    requires IntMin <= turns * 360 <= IntMax
    ensures !RotationActive((turns * 360) as real)
  {
    assert Trunc((turns * 360) as real) == turns * 360;
  }
}
