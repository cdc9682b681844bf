/**
 * The body of `processImage` between decoding and saving: the local
 * `bitmap` is replaced stage by stage, in the fixed order crop, rotate,
 * brightness/contrast, sharpen, then threshold or grayscale.
 *
 * Rotation resampling, drawing through a `ColorMatrixColorFilter` and the
 * `setSaturation(0)` grayscale filter run inside the Android framework; they
 * are parameters here (`Framework`), given only the parameters the module
 * computes for them. Crop, sharpen and threshold are modelled in full.
 */
module Pipeline {
  import opened KotlinNumbers
  import opened Argb
  import opened Images
  import opened Geometry
  import opened Tone
  import Sharpen
  import Threshold
  import Options

  /** The framework operations the stages hand the bitmap to. */
  datatype Framework = Framework(
    rotate: (Image, int) -> Image,
    colorFilter: (Image, seq<real>) -> Image,
    desaturate: Image -> Image)

  /**
   * What the framework guarantees: a rotated bitmap is a bitmap, and drawing
   * through a filter into a copy keeps the size.
   */
  ghost predicate Sound(fw: Framework)
  {
    && (forall img: Image, degrees: int :: img.Valid() ==> fw.rotate(img, degrees).Valid())
    && (forall img: Image, m: seq<real> :: img.Valid() ==>
          fw.colorFilter(img, m).Valid() && fw.colorFilter(img, m).width == img.width && fw.colorFilter(img, m).height == img.height)
    && (forall img: Image :: img.Valid() ==>
          fw.desaturate(img).Valid() && fw.desaturate(img).width == img.width && fw.desaturate(img).height == img.height)
  }

  /** A decoded bitmap: valid, with `Int` dimensions. */
  ghost predicate Decoded(img: Image)
  {
    img.Valid() && img.width <= IntMax && img.height <= IntMax
  }

  /** Stage 1: crop when the options ask for a non-empty rectangle. */
  function CropStage(img: Image, s: Options.Settings): (out: Image)
    requires Decoded(img)
    ensures out.Valid() && out.width <= img.width && out.height <= img.height
  {
    match CropRect(s.cropX, s.cropY, s.cropWidth, s.cropHeight, img.width, img.height)
    case Some(r) => Crop(img, r)
    case None => img
  }

  /** Stage 2: rotate by the normalised angle unless it is 0. */
  function RotateStage(img: Image, s: Options.Settings, fw: Framework): (out: Image)
    requires img.Valid() && Sound(fw)
    ensures out.Valid()
  {
    if RotationActive(s.rotation) then fw.rotate(img, RotationDegrees(s.rotation)) else img
  }

  /** Stage 3: draw through the brightness/contrast matrix unless both are 0. */
  function ToneStage(img: Image, s: Options.Settings, fw: Framework): (out: Image)
    requires img.Valid() && Sound(fw)
    ensures out.Valid() && out.width == img.width && out.height == img.height
  {
    if ToneActive(s.brightness, s.contrast) then fw.colorFilter(img, ColorMatrix(s.brightness, s.contrast)) else img
  }

  /** Stage 4: sharpen when the sharpness is positive. */
  function SharpenStep(img: Image, s: Options.Settings): (out: Image)
    requires img.Valid()
    ensures out.Valid() && out.width == img.width && out.height == img.height
  {
    if Sharpen.SharpenActive(s.sharpness) then Sharpen.Sharpened(img, Sharpen.Kernel(s.sharpness)) else img
  }

  /** Stage 5: threshold when it is positive, otherwise grayscale when asked. */
  function FinalStage(img: Image, s: Options.Settings, fw: Framework): (out: Image)
    requires img.Valid() && Sound(fw)
    ensures out.Valid() && out.width == img.width && out.height == img.height
  {
    if Threshold.ThresholdActive(s.threshold) then Image(img.width, img.height, Threshold.Binarized(img.pixels, s.threshold))
    else if s.grayscale then fw.desaturate(img)
    else img
  }

  /** The bitmap handed to `saveBitmap`. */
  function Processed(img: Image, s: Options.Settings, fw: Framework): (out: Image)
    requires Decoded(img) && Sound(fw)
    ensures out.Valid()
  {
    FinalStage(SharpenStep(ToneStage(RotateStage(CropStage(img, s), s, fw), s, fw), s), s, fw)
  }

  /**
   * The stages as the module runs them: `bitmap` is reassigned after each
   * one, the sharpen and threshold stages working on pixel arrays.
   */
  method ProcessBitmap(img: Image, s: Options.Settings, fw: Framework) returns (bitmap: Image)
    requires Decoded(img) && Sound(fw)
    ensures bitmap == Processed(img, s, fw)
  {
    bitmap := ReshapeBitmap(img, s, fw);
    bitmap := FilterBitmap(bitmap, s, fw);
  }

  /** Stages 1 to 3: crop, rotate and the colour matrix. */
  method ReshapeBitmap(img: Image, s: Options.Settings, fw: Framework) returns (bitmap: Image)
    requires Decoded(img) && Sound(fw)
    ensures bitmap == ToneStage(RotateStage(CropStage(img, s), s, fw), s, fw)
  {
    bitmap := img;
    var rect := CropRect(s.cropX, s.cropY, s.cropWidth, s.cropHeight, img.width, img.height);
    if rect.Some? {
      bitmap := Crop(bitmap, rect.value);
    }
    ghost var cropped := bitmap;
    assert cropped == CropStage(img, s);
    var rotationInt := RotationDegrees(s.rotation);
    if rotationInt != 0 {
      bitmap := fw.rotate(bitmap, rotationInt);
    }
    assert bitmap == RotateStage(cropped, s, fw);
    if s.brightness != 0.0 || s.contrast != 0.0 {
      bitmap := fw.colorFilter(bitmap, ColorMatrix(s.brightness, s.contrast));
    }
  }

  /** Stages 4 and 5: sharpen, then threshold or grayscale. */
  method FilterBitmap(img: Image, s: Options.Settings, fw: Framework) returns (bitmap: Image)
    requires img.Valid() && Sound(fw)
    ensures bitmap == FinalStage(SharpenStep(img, s), s, fw)
  {
    bitmap := img;
    if s.sharpness > 0.0 {
      bitmap := Sharpen.SharpenStage(bitmap, s.sharpness);
    }
    ghost var sharpened := bitmap;
    assert sharpened == SharpenStep(img, s);
    if s.threshold > 0 {
      bitmap := Threshold.ThresholdStage(bitmap, s.threshold);
    } else if s.grayscale {
      bitmap := fw.desaturate(bitmap);
    }
  }

  /** The image before stage 5: cropped, rotated, toned and sharpened. */
  function BeforeFinal(img: Image, s: Options.Settings, fw: Framework): (out: Image)
    requires Decoded(img) && Sound(fw)
    ensures out.Valid() && Processed(img, s, fw) == FinalStage(out, s, fw)
  {
    SharpenStep(ToneStage(RotateStage(CropStage(img, s), s, fw), s, fw), s)
  }

  /** Options holding nothing but `imageUrl` save the decoded bitmap unchanged. */
  lemma DefaultsKeepImage(img: Image, url: string, fw: Framework)
    requires Decoded(img) && Sound(fw)
    ensures var r := Options.ParseSettings(map["imageUrl" := Options.Text(url)]);
      r.Success? && Processed(img, r.value, fw) == img
  {
    Options.OnlyImageUrl(url);
    DefaultCropDisabled(img.width, img.height);
    assert ToInt(0.0) == 0;
  }

  /**
   * A positive threshold takes precedence over grayscale: the grayscale flag
   * then makes no difference to the output.
   */
  lemma ThresholdOverridesGrayscale(img: Image, s: Options.Settings, fw: Framework)
    requires Decoded(img) && Sound(fw) && s.threshold > 0
    ensures Processed(img, s, fw) == Processed(img, s.(grayscale := !s.grayscale), fw)
  {
    var t := s.(grayscale := !s.grayscale);
    assert BeforeFinal(img, s, fw) == BeforeFinal(img, t, fw);
  }

  /**
   * With a positive threshold every saved pixel is pure black or pure white
   * with the alpha it had before stage 5, white exactly when the luma of the
   * pixel before stage 5 reaches the threshold.
   */
  lemma ThresholdedOutput(img: Image, s: Options.Settings, fw: Framework, i: int)
    requires Decoded(img) && Sound(fw) && s.threshold > 0
    requires 0 <= i < |Processed(img, s, fw).pixels|
    ensures var before, q := BeforeFinal(img, s, fw).pixels[i], Processed(img, s, fw).pixels[i];
      && Alpha(q) == Alpha(before)
      && Red(q) == Green(q) == Blue(q)
      && (Red(q) == 0 || Red(q) == 255)
      && (Red(q) == 255 <==> Threshold.Luma(Red(before), Green(before), Blue(before)) >= s.threshold as real)
  {
    var pre := BeforeFinal(img, s, fw);
    assert Processed(img, s, fw).pixels == Threshold.Binarized(pre.pixels, s.threshold);
    Threshold.OnlyBlackAndWhite(pre.pixels, s.threshold, i);
  }

  /**
   * Without rotation the saved bitmap has the size of the crop rectangle when
   * there is one, and the decoded size otherwise: the later stages keep the
   * size.
   */
  lemma SizeWithoutRotation(img: Image, s: Options.Settings, fw: Framework)
    requires Decoded(img) && Sound(fw) && !RotationActive(s.rotation)
    ensures var out := Processed(img, s, fw);
      match CropRect(s.cropX, s.cropY, s.cropWidth, s.cropHeight, img.width, img.height)
      case Some(r) => out.width == r.w && out.height == r.h
      case None => out.width == img.width && out.height == img.height
  {
  }
}
