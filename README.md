# neuroscan `processImage`: a verified model of the pixel pipeline

This project models the Android side of `processImage` in
react-native-neuroscan. The method reads a `ReadableMap` of options and
decodes the image the `imageUrl` option names. It then replaces the local
`bitmap` stage by stage, in a fixed order:

1. crop to a rectangle given as fractions of the size;
2. rotate by a whole number of degrees;
3. brightness/contrast through a 4x5 colour matrix;
4. a 3x3 sharpen convolution;
5. either black-and-white thresholding or grayscale.

Finally it saves the result as JPEG or PNG.

Modules:

- `KotlinNumbers` covers the Kotlin numeric conversions the code relies on:
  - `Int` as a signed 32-bit range;
  - `Double.toInt()` as truncation with saturation;
  - `%` as the truncated remainder;
  - `coerceIn` as a clamp.
- `Argb` covers packed ARGB_8888 pixels:
  - unpacking with `shr`/`and 0xFF`;
  - packing with `shl`/`or`, wrapping into the sign bit.
- `Images` defines a bitmap as a width, a height and its row-major pixel buffer.
- `Options` covers reading the options, with their defaults and the first
  failing key, and the `file://` prefix stripped before loading.
- `Saving` covers the extension and codec that `saveBitmap` picks and the URL
  it returns.
- `Geometry` covers the crop rectangle, the crop as a sub-rectangle copy, and
  the normalised rotation angle.
- `Tone` covers the brightness/contrast matrix coefficients and what they mean.
- `Sharpen` has two parts:
  - the sharpen kernel, plus the convolution as a function of the source buffer;
  - the imperative double loop over `srcPixels`/`dstPixels`, proved equal to it.
- `Threshold` has two parts:
  - the luma-threshold rule;
  - the in-place loop over `pixels`, proved equal to it.
- `Pipeline` covers the order of the stages, and which stage runs for which
  settings. Rotation, colour-filter drawing and desaturation are left to the
  Android framework. Here they are function parameters (`Framework`), and we
  assume only that they keep a bitmap valid and, for the filters, keep its
  size.

Kotlin `Double`/`Float` arithmetic is modelled with exact reals.

## Model

| member | source | states |
|---|---|---|
| KotlinNumbers.Trunc | android/src/main/java/com/neuroscan/NeuroscanModule.kt:113-116 | truncation toward zero: the result is the floor for non-negative input and the ceiling for negative input |
| KotlinNumbers.ToInt | android/src/main/java/com/neuroscan/NeuroscanModule.kt:97 | `toInt()` is the truncation when it fits in `Int`, and otherwise saturates at `Int.MIN_VALUE`/`Int.MAX_VALUE` |
| KotlinNumbers.CoerceIn | android/src/main/java/com/neuroscan/NeuroscanModule.kt:189-191 | the clamp lies in [lo, hi], keeps values already inside, and maps values below or above to the nearest bound |
| KotlinNumbers.Rem360 | android/src/main/java/com/neuroscan/NeuroscanModule.kt:125 | `% 360` keeps the sign of the dividend, has magnitude below 360, and is congruent to the dividend |
| KotlinNumbers.ClampedToIntIsClampedFloor | android/src/main/java/com/neuroscan/NeuroscanModule.kt:189-191 | after clamping to [0, 255], truncation (with saturation) and floor give the same channel |
| Argb.WrapInt32 | android/src/main/java/com/neuroscan/NeuroscanModule.kt:188 | reinterpreting a 32-bit pattern as `Int` gives a value congruent to it modulo 2^32 |
| Argb.Alpha | android/src/main/java/com/neuroscan/NeuroscanModule.kt:187 | `(p shr 24) and 0xFF`; its meaning is given by Argb.PackUnpack and Argb.UnpackPack |
| Argb.Red | android/src/main/java/com/neuroscan/NeuroscanModule.kt:182 | `(p shr 16) and 0xFF`; its meaning is given by Argb.PackUnpack and Argb.UnpackPack |
| Argb.Green | android/src/main/java/com/neuroscan/NeuroscanModule.kt:183 | `(p shr 8) and 0xFF`; its meaning is given by Argb.PackUnpack and Argb.UnpackPack |
| Argb.Blue | android/src/main/java/com/neuroscan/NeuroscanModule.kt:184 | `p and 0xFF`; its meaning is given by Argb.PackUnpack and Argb.UnpackPack |
| Argb.Pack | android/src/main/java/com/neuroscan/NeuroscanModule.kt:188-191 | `(a shl 24) or (r shl 16) or (g shl 8) or b`; Argb.PackUnpack and Argb.UnpackPack prove it inverse to the four unpacking functions |
| Argb.PackUnpack | android/src/main/java/com/neuroscan/NeuroscanModule.kt:187-191 | unpacking `(a shl 24) or (r shl 16) or (g shl 8) or b` gives back a, r, g and b, including when alpha sets the sign bit |
| Argb.UnpackPack | android/src/main/java/com/neuroscan/NeuroscanModule.kt:205-212 | every `Int` pixel is the packing of its own four unpacked channels |
| Images.Extensionality | android/src/main/java/com/neuroscan/NeuroscanModule.kt:169-170 | two bitmaps of the same size that agree at every (x, y) of the row-major buffer are equal |
| Options.GetBoolean | android/src/main/java/com/neuroscan/NeuroscanModule.kt:88 | `getBoolean` succeeds exactly on a boolean value and returns that value |
| Options.GetDouble | android/src/main/java/com/neuroscan/NeuroscanModule.kt:89-97 | `getDouble` succeeds exactly on a number and returns that number |
| Options.GetString | android/src/main/java/com/neuroscan/NeuroscanModule.kt:86 | `getString` returns null for a missing key or a null value, and the string for a string; it fails on any other value |
| Options.BooleanOr | android/src/main/java/com/neuroscan/NeuroscanModule.kt:88 | succeeds iff the key is missing or holds a boolean, giving that boolean or the default; a failure names the key |
| Options.DoubleOr | android/src/main/java/com/neuroscan/NeuroscanModule.kt:89-96 | succeeds iff the key is missing or holds a number, giving that number or the default; a failure names the key |
| Options.IntOr | android/src/main/java/com/neuroscan/NeuroscanModule.kt:97-99 | a missing key gives the default; a present number gives its `toInt()`; a present non-number fails |
| Options.StringOr | android/src/main/java/com/neuroscan/NeuroscanModule.kt:98 | a string value is used as is; a missing key or a null value gives the default |
| Options.ParseSettings | android/src/main/java/com/neuroscan/NeuroscanModule.kt:86-99 | reading the options succeeds exactly when `imageUrl` is a string, every boolean and number key that is present has its type, and `outputFormat` is a string or null |
| Options.ValuesOrDefaults | android/src/main/java/com/neuroscan/NeuroscanModule.kt:86-99 | every setting is the given value, or `toInt()` of it for threshold and quality, or its default: false, 0, -1 for crop, 0, "jpeg", 90 |
| Options.NumberRead | android/src/main/java/com/neuroscan/NeuroscanModule.kt:89-99 | in well-typed options each numeric key reads as its number or its default |
| Options.OnlyImageUrl | android/src/main/java/com/neuroscan/NeuroscanModule.kt:86-99 | options holding only `imageUrl` give exactly the default settings |
| Options.MissingImageUrlFails | android/src/main/java/com/neuroscan/NeuroscanModule.kt:86-87 | a missing or null `imageUrl` is the error, whatever else the options hold |
| Options.NullFormatIsJpeg | android/src/main/java/com/neuroscan/NeuroscanModule.kt:98 | an explicit null `outputFormat` falls back to "jpeg" |
| Options.OtherKeysIgnored | android/src/main/java/com/neuroscan/NeuroscanModule.kt:86-99 | adding a key that is never read does not change the outcome |
| Options.FilePath | android/src/main/java/com/neuroscan/NeuroscanModule.kt:102 | `removePrefix("file://")` drops the scheme when present and otherwise leaves the URL unchanged |
| Saving.Locator | android/src/main/java/com/neuroscan/NeuroscanModule.kt:277 | the returned URL starts with `file://` |
| Saving.FilePathOfLocator | android/src/main/java/com/neuroscan/NeuroscanModule.kt:102 | a saved image's URL, passed back in as `imageUrl`, names the same file |
| Options.PlainPathKept | android/src/main/java/com/neuroscan/NeuroscanModule.kt:102 | an absolute path without a scheme is used as it is |
| Saving.Extension | android/src/main/java/com/neuroscan/NeuroscanModule.kt:269 | the extension is "png" exactly for the format "png", and "jpg" otherwise |
| Saving.CompressFormatFor | android/src/main/java/com/neuroscan/NeuroscanModule.kt:273 | PNG compression is chosen exactly for the format "png" |
| Saving.ExtensionMatchesCodec | android/src/main/java/com/neuroscan/NeuroscanModule.kt:269-273 | extension and codec always agree; "jpeg", "PNG" and "webp" all give a JPEG with extension jpg |
| Geometry.CropRect | android/src/main/java/com/neuroscan/NeuroscanModule.kt:112-117 | any rectangle produced is non-empty and lies inside the bitmap |
| Geometry.CropRequested | android/src/main/java/com/neuroscan/NeuroscanModule.kt:112 | the guard of the crop stage; Geometry.CropRectSpec and Geometry.DefaultCropDisabled relate it to the rectangle |
| Geometry.CropRectSpec | android/src/main/java/com/neuroscan/NeuroscanModule.kt:112-117 | the crop runs iff all of these hold: it is requested, both truncated origins are inside the bitmap, and both truncated sizes are positive. The origin is then the truncated product, and the size is the smaller of the truncated product and what is left of the bitmap past the origin |
| Geometry.CoerceAtLeast | android/src/main/java/com/neuroscan/NeuroscanModule.kt:113-114 | `coerceAtLeast` keeps a value that is already at least the bound and turns a value below it into the bound |
| Geometry.CoerceAtMost | android/src/main/java/com/neuroscan/NeuroscanModule.kt:115-116 | `coerceAtMost` keeps a value that is already at most the bound and turns a value above it into the bound |
| Geometry.DefaultCropDisabled | android/src/main/java/com/neuroscan/NeuroscanModule.kt:93-96 | the -1.0 defaults never crop |
| Geometry.FractionalCropUnclamped | android/src/main/java/com/neuroscan/NeuroscanModule.kt:112-117 | for a crop request inside the unit square, the rectangle is exactly the truncated products |
| Geometry.TruncSumBelow | android/src/main/java/com/neuroscan/NeuroscanModule.kt:113-116 | for fractions summing to at most 1, the truncated origin plus the truncated size fits in the dimension |
| Geometry.Crop | android/src/main/java/com/neuroscan/NeuroscanModule.kt:118 | `createBitmap(bitmap, x, y, w, h)` gives a valid w x h bitmap |
| Geometry.CropAt | android/src/main/java/com/neuroscan/NeuroscanModule.kt:118 | pixel (i, j) of the crop is pixel (x + i, y + j) of the source |
| Geometry.CropWhole | android/src/main/java/com/neuroscan/NeuroscanModule.kt:118 | cropping to the whole bitmap gives the same bitmap |
| Geometry.CropOfCrop | android/src/main/java/com/neuroscan/NeuroscanModule.kt:118 | a crop of a crop is a single crop with the offsets added |
| Geometry.RotationDegrees | android/src/main/java/com/neuroscan/NeuroscanModule.kt:125 | the angle lies in (-360, 360), is congruent to the truncated request, is 0 exactly for multiples of 360, and keeps the sign of the request |
| Geometry.RotationActive | android/src/main/java/com/neuroscan/NeuroscanModule.kt:126 | the rotation stage runs iff the normalised angle is not 0; Geometry.WholeTurnsSkipRotation gives whole turns as inactive |
| Geometry.RotationExamples | android/src/main/java/com/neuroscan/NeuroscanModule.kt:125 | -90 stays -90, 450 becomes 90, -720 becomes 0, 359.9 becomes 359, and -450.5 becomes -90 |
| Geometry.WholeTurnsSkipRotation | android/src/main/java/com/neuroscan/NeuroscanModule.kt:125-126 | any whole number of turns, in either direction, skips the rotation stage |
| Tone.ColorMatrix | android/src/main/java/com/neuroscan/NeuroscanModule.kt:140-145 | the colour matrix has 4 x 5 = 20 coefficients |
| Tone.ContrastFactor | android/src/main/java/com/neuroscan/NeuroscanModule.kt:136 | `1 + contrast / 100`; Tone.AffineAroundMidGrey and Tone.ContrastSpreadsFromPivot give its meaning as the slope around mid-grey |
| Tone.BrightnessOffset | android/src/main/java/com/neuroscan/NeuroscanModule.kt:137 | `brightness / 100 * 255`; Tone.MidGreyShiftsByBrightness and Tone.BrightnessUndo give its meaning as the shift of every channel |
| Tone.ToneActive | android/src/main/java/com/neuroscan/NeuroscanModule.kt:135 | the stage runs iff brightness or contrast is not 0; Tone.InactiveMatrixIsIdentity shows the skipped case is the identity |
| Tone.MatrixShape | android/src/main/java/com/neuroscan/NeuroscanModule.kt:136-145 | the R, G and B rows share the diagonal `1 + contrast/100` and the offset `(1 - cf) * 128 + brightness/100 * 255`; every off-diagonal entry is 0; the alpha row is (0, 0, 0, 1, 0) |
| Tone.AffineAroundMidGrey | android/src/main/java/com/neuroscan/NeuroscanModule.kt:136-145 | each colour channel becomes `(v - 128) * cf + 128 + offset` from its own value alone, and alpha passes through |
| Tone.MidGreyShiftsByBrightness | android/src/main/java/com/neuroscan/NeuroscanModule.kt:136-145 | mid-grey 128 maps to `128 + brightnessOffset` whatever the contrast |
| Tone.InactiveMatrixIsIdentity | android/src/main/java/com/neuroscan/NeuroscanModule.kt:135 | brightness 0 and contrast 0 give the identity, so skipping the stage loses nothing |
| Tone.ContrastSpreadsFromPivot | android/src/main/java/com/neuroscan/NeuroscanModule.kt:136-143 | from contrast -100 up, more contrast moves every non-mid-grey channel strictly further from the pivot |
| Tone.BrightnessUndo | android/src/main/java/com/neuroscan/NeuroscanModule.kt:137-143 | at contrast 0, brightness +b followed by -b restores every channel |
| Sharpen.Kernel | android/src/main/java/com/neuroscan/NeuroscanModule.kt:161-165 | the kernel has nine entries |
| Sharpen.Amount | android/src/main/java/com/neuroscan/NeuroscanModule.kt:158 | `sharpness / 100`; Sharpen.KernelShape gives its meaning as the weight of the four side taps and a quarter of the centre's excess over 1 |
| Sharpen.KernelShape | android/src/main/java/com/neuroscan/NeuroscanModule.kt:158-165 | the corners are 0, the four sides are `-amount`, the centre is `1 + 4 * amount`, and the entries sum to 1 |
| Sharpen.SharpenActive | android/src/main/java/com/neuroscan/NeuroscanModule.kt:157 | the stage runs only for a positive sharpness; Pipeline.SharpenStep uses it as the guard |
| Sharpen.Taps | android/src/main/java/com/neuroscan/NeuroscanModule.kt:178-185 | the accumulated `r`/`g`/`b` after the first n loop steps; Sharpen.TapStep and Sharpen.AccumulateRow tie it to the loop |
| Sharpen.Neighbour | android/src/main/java/com/neuroscan/NeuroscanModule.kt:180-181 | tap t is the source pixel at offset (t % 3 - 1, t / 3 - 1); Sharpen.TapStep ties it to `srcPixels[(y + ky) * width + (x + kx)]` with t = (ky + 1) * 3 + (kx + 1) |
| Sharpen.Sample | android/src/main/java/com/neuroscan/NeuroscanModule.kt:182-184 | the red, green or blue channel read with `shr`/`and 0xFF`; Sharpen.FlatTaps and Sharpen.InteriorChannels give its meaning |
| Sharpen.Weighted | android/src/main/java/com/neuroscan/NeuroscanModule.kt:182-184 | `channel * k`; Sharpen.FlatTaps and Sharpen.InteriorChannels give its meaning |
| Sharpen.Convolve | android/src/main/java/com/neuroscan/NeuroscanModule.kt:177-186 | the full 3x3 weighted sum of one channel; Sharpen.Accumulate proves the loops compute it, Sharpen.FlatInteriorScaled gives it on a flat neighbourhood |
| Sharpen.ToChannel | android/src/main/java/com/neuroscan/NeuroscanModule.kt:189-191 | `v.toInt().coerceIn(0, 255)`; KotlinNumbers.ClampedToIntIsClampedFloor shows it is the clamped floor |
| Sharpen.SharpenedPixel | android/src/main/java/com/neuroscan/NeuroscanModule.kt:187-191 | the value stored for an interior pixel; Sharpen.InteriorChannels states its alpha and channels |
| Sharpen.TapStep | android/src/main/java/com/neuroscan/NeuroscanModule.kt:178-184 | loop step (kx, ky) adds the tap at offset (kx, ky) times kernel entry `(ky + 1) * 3 + (kx + 1)` |
| Sharpen.SharpenedPixels | android/src/main/java/com/neuroscan/NeuroscanModule.kt:169-173 | the output buffer has one pixel per cell |
| Sharpen.Sharpened | android/src/main/java/com/neuroscan/NeuroscanModule.kt:167-194 | the sharpened bitmap is valid and the same size as the source |
| Sharpen.SharpenedAt | android/src/main/java/com/neuroscan/NeuroscanModule.kt:173-192 | border pixels equal their source pixels; interior pixels are computed from the source neighbourhood only |
| Sharpen.InteriorChannels | android/src/main/java/com/neuroscan/NeuroscanModule.kt:182-191 | each interior pixel keeps its source alpha; each colour channel is `toInt()` of the 3x3 weighted sum clamped to [0, 255], which equals the clamped floor |
| Sharpen.SmallImageUnchanged | android/src/main/java/com/neuroscan/NeuroscanModule.kt:173-176 | a bitmap narrower or shorter than 3 pixels comes out unchanged |
| Sharpen.FlatTaps | android/src/main/java/com/neuroscan/NeuroscanModule.kt:178-185 | over a flat neighbourhood, the partial sums are the colour times the partial kernel sums |
| Sharpen.FlatInterior | android/src/main/java/com/neuroscan/NeuroscanModule.kt:175-191 | for any sharpness, with the exact kernel, an interior pixel of a single-colour bitmap is unchanged |
| Sharpen.FlatInteriorScaled | android/src/main/java/com/neuroscan/NeuroscanModule.kt:175-186 | on a flat-colour bitmap each interior channel's 3x3 sum is that channel times the kernel's sum |
| Sharpen.FloatKernelDarkensFlat | android/src/main/java/com/neuroscan/NeuroscanModule.kt:158-165 | with the kernel entries rounded to `Float` at sharpness 1, the weights sum to less than 1 and a flat red channel of 5 comes out as 4 |
| Sharpen.FlatImageUnchanged | android/src/main/java/com/neuroscan/NeuroscanModule.kt:157-194 | since the exact kernel sums to 1, sharpening leaves a single-colour bitmap unchanged |
| Sharpen.Accumulate | android/src/main/java/com/neuroscan/NeuroscanModule.kt:177-186 | after the `ky`/`kx` loops, r, g and b are the full 3x3 kernel-weighted sums of the source channels |
| Sharpen.AccumulateRow | android/src/main/java/com/neuroscan/NeuroscanModule.kt:179-185 | the `kx` loop adds one kernel row's three taps to each sum |
| Sharpen.Progress | android/src/main/java/com/neuroscan/NeuroscanModule.kt:175-193 | `dstPixels` part-way through the loops keeps its length |
| Sharpen.ProgressStart | android/src/main/java/com/neuroscan/NeuroscanModule.kt:171-175 | the `arraycopy` already holds every result pixel of row 0 |
| Sharpen.ProgressRowStart | android/src/main/java/com/neuroscan/NeuroscanModule.kt:176 | starting a row at column 1 skips only a border pixel |
| Sharpen.ProgressRowEnd | android/src/main/java/com/neuroscan/NeuroscanModule.kt:176 | stopping at column width-2 leaves only a border pixel, so the row is finished |
| Sharpen.ProgressEnd | android/src/main/java/com/neuroscan/NeuroscanModule.kt:175 | stopping at row height-2 leaves only border rows, so the buffer is the sharpened one |
| Sharpen.ProgressStep | android/src/main/java/com/neuroscan/NeuroscanModule.kt:188-191 | the store to `dstPixels[y * width + x]` advances the progress by exactly one pixel |
| Sharpen.SharpenRow | android/src/main/java/com/neuroscan/NeuroscanModule.kt:176-192 | one pass of the `x` loop sharpens row y and changes nothing else |
| Sharpen.SharpenStage | android/src/main/java/com/neuroscan/NeuroscanModule.kt:157-194 | the imperative double loop over `srcPixels`/`dstPixels` produces exactly the sharpened bitmap |
| Threshold.Luma | android/src/main/java/com/neuroscan/NeuroscanModule.kt:210 | the BT.601 luma of 8-bit channels lies in [0, 255] |
| Threshold.Gray | android/src/main/java/com/neuroscan/NeuroscanModule.kt:210 | the truncated luma lies in [0, 255] and is the floor of the luma |
| Threshold.ThresholdActive | android/src/main/java/com/neuroscan/NeuroscanModule.kt:198 | the threshold branch runs for a positive threshold; Pipeline.ThresholdOverridesGrayscale shows it takes precedence |
| Threshold.BinarizedPixel | android/src/main/java/com/neuroscan/NeuroscanModule.kt:205-212 | the value stored into `pixels[i]`; Threshold.BinarizedPixelChannels states its alpha and its black or white channels |
| Threshold.BinarizedPixelChannels | android/src/main/java/com/neuroscan/NeuroscanModule.kt:206-212 | the stored pixel keeps alpha and has R = G = B, with 255 iff gray >= threshold and 0 iff gray < threshold |
| Threshold.Binarized | android/src/main/java/com/neuroscan/NeuroscanModule.kt:204-213 | the binarised buffer has the length of the source buffer |
| Threshold.BinarizedAt | android/src/main/java/com/neuroscan/NeuroscanModule.kt:204-213 | output pixel i depends on source pixel i alone |
| Threshold.ThresholdStage | android/src/main/java/com/neuroscan/NeuroscanModule.kt:198-214 | the in-place loop over `pixels` gives the binarised buffer, with the size unchanged |
| Threshold.OnlyBlackAndWhite | android/src/main/java/com/neuroscan/NeuroscanModule.kt:204-213 | every output pixel is pure black or pure white with its source alpha; it is white iff the exact luma is >= the threshold |
| Threshold.Idempotent | android/src/main/java/com/neuroscan/NeuroscanModule.kt:198-214 | for a threshold in [1, 255], thresholding again with the same threshold changes nothing |
| Threshold.AboveRangeAllBlack | android/src/main/java/com/neuroscan/NeuroscanModule.kt:210-212 | a threshold above 255 makes every pixel black with its own alpha |
| Threshold.DoubleWeightLuma | android/src/main/java/com/neuroscan/NeuroscanModule.kt:210 | the luma with the `Double` values of the three weights is never negative |
| Threshold.DoubleWeightsMissBoundary | android/src/main/java/com/neuroscan/NeuroscanModule.kt:210-211 | (0, 72, 24) has luma exactly 45 and is white at threshold 45 in this model, but its luma with the `Double` weights truncates to 44 |
| Pipeline.CropStage | android/src/main/java/com/neuroscan/NeuroscanModule.kt:111-122 | stage 1 gives a valid bitmap no larger than the decoded one |
| Pipeline.RotateStage | android/src/main/java/com/neuroscan/NeuroscanModule.kt:124-132 | stage 2 gives a valid bitmap |
| Pipeline.ToneStage | android/src/main/java/com/neuroscan/NeuroscanModule.kt:134-154 | stage 3 keeps the size |
| Pipeline.SharpenStep | android/src/main/java/com/neuroscan/NeuroscanModule.kt:156-195 | stage 4 keeps the size |
| Pipeline.FinalStage | android/src/main/java/com/neuroscan/NeuroscanModule.kt:197-225 | stage 5 keeps the size |
| Pipeline.Processed | android/src/main/java/com/neuroscan/NeuroscanModule.kt:109-225 | the bitmap handed to `saveBitmap` is valid |
| Pipeline.BeforeFinal | android/src/main/java/com/neuroscan/NeuroscanModule.kt:109-195 | the output of stages 1 to 4 is valid, and stage 5 applied to it gives the saved bitmap |
| Pipeline.ProcessBitmap | android/src/main/java/com/neuroscan/NeuroscanModule.kt:106-225 | reassigning `bitmap` through the five stages gives the composition of the stage functions |
| Pipeline.ReshapeBitmap | android/src/main/java/com/neuroscan/NeuroscanModule.kt:111-154 | crop, rotation and colour matrix, as the code runs them, give the composed stages 1 to 3 |
| Pipeline.FilterBitmap | android/src/main/java/com/neuroscan/NeuroscanModule.kt:156-225 | sharpen, then threshold or grayscale, as the code runs them, give the composed stages 4 and 5 |
| Pipeline.DefaultsKeepImage | android/src/main/java/com/neuroscan/NeuroscanModule.kt:86-225 | options holding only `imageUrl` save the decoded bitmap unchanged |
| Pipeline.ThresholdOverridesGrayscale | android/src/main/java/com/neuroscan/NeuroscanModule.kt:198-215 | with a positive threshold the grayscale flag makes no difference |
| Pipeline.ThresholdedOutput | android/src/main/java/com/neuroscan/NeuroscanModule.kt:198-214 | with a positive threshold, every saved pixel is black or white and keeps its alpha from before stage 5; it is white iff that pixel's exact luma reaches the threshold |
| Pipeline.SizeWithoutRotation | android/src/main/java/com/neuroscan/NeuroscanModule.kt:111-225 | without rotation, the saved bitmap has the crop rectangle's size when there is one, and the decoded size otherwise |

## Left out

- Decoding, encoding and files are I/O with platform codecs. This covers `BitmapFactory.decodeFile`, `Bitmap.compress`, the temporary directory and `cleanupTempFiles`. The decoded bitmap is an input, and the saved bitmap is the output.
- Rotation resampling, `ColorMatrixColorFilter` drawing and `setSaturation(0)` grayscale are Android framework code. They are parameters (`Pipeline.Framework`). The model computes only the parameters passed to them: the angle and the matrix. It assumes only that they keep the bitmap valid and the filters keep the size.
- `Bitmap.createBitmap` for the crop is modelled as a plain sub-rectangle copy.
- Floating point is modelled with exact reals: `Double`, the `Float` accumulation in the sharpen loop, the `toFloat()` narrowing of the rotation and of the matrix coefficients, and the luma products. IEEE rounding can move a truncated value across an integer boundary, and the model does not capture that. Reals also have no NaN or infinities, which a caller can pass through `getDouble`: a NaN `brightness` or `contrast` makes the test at :135 true and draws through a NaN matrix, a NaN `rotation`, `threshold` or `quality` becomes 0 through `toInt()`, and an infinite crop fraction saturates to `Int.MAX_VALUE` before the clamp; none of these inputs is modelled.
- `width * height` in `IntArray(width * height)` is taken as exact. A bitmap large enough to overflow `Int` cannot be allocated anyway.
- Exception messages, the promise, the coroutine scope, `scanDocument`, the activity-result listener, the iOS implementation, the TypeScript bridge and the example app are not part of this model. A failed read is reported only by the key that failed; the code turns every failure into `PROCESS_FAILED`.
- The `quality` value is read but only passed to `compress`, so its range is not modelled.
- Sharpen.FlatInterior and Sharpen.FlatImageUnchanged hold for the exact kernel only. The code rounds `amount` and `center` to `Float`. At sharpness 1 the kernel then sums to 0.99999996, and a flat channel of 5 comes out as 4 (Sharpen.FloatKernelDarkensFlat). So the running program can darken a flat bitmap by one level.
- Threshold.OnlyBlackAndWhite compares the exact luma. The code computes it in `Double`. The colour (0, 72, 24) has luma exactly 45.0, but the code truncates its `Double` luma to 44, so at threshold 45 it turns black, not white (Threshold.DoubleWeightsMissBoundary).
- Pipeline.ThresholdedOutput inherits the exact-luma comparison of Threshold.OnlyBlackAndWhite. It also takes the buffer that stage 4 writes with `setPixels` to be exactly what stage 5 reads with `getPixels`.
- Stages 4 and 5 take `Image.pixels` as exactly what `setPixels` stored (:194, :202). Android keeps ARGB_8888 bitmaps premultiplied and may convert colour spaces, so the round trip is exact only for opaque sRGB pixels. This affects Pipeline.FilterBitmap and Pipeline.ThresholdedOutput.
- The crop products (NeuroscanModule.kt:113-116) and the sharpened channels (:189-191) are truncated with `toInt()`, not rounded, and the model truncates too.
