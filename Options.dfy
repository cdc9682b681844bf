/**
 * How `processImage` reads its `options` map (a React Native `ReadableMap`)
 * into the settings of the pipeline, and the path it loads the image from.
 *
 * A `ReadableMap` is a finite map from keys to dynamically typed values.
 * `getBoolean`/`getDouble` on a value of another type (or on `null`) throw,
 * `getString` yields `null` for a missing key or a `null` value and throws
 * on another type; any exception ends `processImage` with `PROCESS_FAILED`,
 * modelled by `Failure(key)` naming the first key that could not be read.
 */
module Options {
  import opened KotlinNumbers

  datatype OptionValue = Null | Boolean(b: bool) | Number(x: real) | Text(s: string)

  type ReadableMap = map<string, OptionValue>

  datatype Result<T> = Success(value: T) | Failure(key: string)
  {
    predicate IsFailure()
    {
      Failure?
    }

    function PropagateFailure<U>(): Result<U>
      requires Failure?
    {
      Failure(key)
    }

    function Extract(): T
      requires Success?
    {
      value
    }
  }

  /** The values `processImage` reads from `options` (rotation still as given, before normalisation). */
  datatype Settings = Settings(
    imageUrl: string,
    grayscale: bool,
    contrast: real,
    brightness: real,
    sharpness: real,
    rotation: real,
    cropX: real,
    cropY: real,
    cropWidth: real,
    cropHeight: real,
    threshold: Int32,
    outputFormat: string,
    quality: Int32)

  const BooleanKeys: set<string> := {"grayscale"}
  const NumberKeys: set<string> :=
    {"contrast", "brightness", "sharpness", "rotation", "cropX", "cropY", "cropWidth", "cropHeight", "threshold", "quality"}

  /** `options.getBoolean(key)` */
  function GetBoolean(options: ReadableMap, key: string): (r: Result<bool>)
    requires key in options
    ensures r.Success? <==> options[key].Boolean?
    ensures r.Success? ==> r.value == options[key].b
  {
    match options[key]
    case Boolean(b) => Success(b)
    case _ => Failure(key)
  }

  /** `options.getDouble(key)` */
  function GetDouble(options: ReadableMap, key: string): (r: Result<real>)
    requires key in options
    ensures r.Success? <==> options[key].Number?
    ensures r.Success? ==> r.value == options[key].x
  {
    match options[key]
    case Number(x) => Success(x)
    case _ => Failure(key)
  }

  /** `options.getString(key)`: `null` for a missing key or a `null` value. */
  function GetString(options: ReadableMap, key: string): (r: Result<Option<string>>)
    ensures r.Success? <==> key !in options || options[key].Null? || options[key].Text?
    ensures r.Success? && r.value.Some? <==> key in options && options[key].Text?
    ensures r.Success? && r.value.Some? ==> r.value.value == options[key].s
  {
    if key !in options then Success(None)
    else match options[key]
      case Null => Success(None)
      case Text(s) => Success(Some(s))
      case _ => Failure(key)
  }

  /** `if (options.hasKey(key)) options.getBoolean(key) else default` */
  function BooleanOr(options: ReadableMap, key: string, default: bool): (r: Result<bool>)
    ensures r.Success? <==> key !in options || options[key].Boolean?
    ensures r.Success? ==> r.value == if key in options then options[key].b else default
    ensures r.Failure? ==> r.key == key
  {
    if key in options then GetBoolean(options, key) else Success(default)
  }

  /** `if (options.hasKey(key)) options.getDouble(key) else default` */
  function DoubleOr(options: ReadableMap, key: string, default: real): (r: Result<real>)
    ensures r.Success? <==> key !in options || options[key].Number?
    ensures r.Success? ==> r.value == if key in options then options[key].x else default
    ensures r.Failure? ==> r.key == key
  {
    if key in options then GetDouble(options, key) else Success(default)
  }

  /** `if (options.hasKey(key)) options.getDouble(key).toInt() else default` */
  function IntOr(options: ReadableMap, key: string, default: Int32): (r: Result<Int32>)
    ensures key !in options ==> r == Success(default)
    ensures key in options ==> r.Success? == GetDouble(options, key).Success?
    ensures key in options && r.Success? ==> r.value == ToInt(options[key].x)
  {
    if key in options then
      var d :- GetDouble(options, key);
      Success(ToInt(d))
    else
      Success(default)
  }

  /** `if (options.hasKey(key)) options.getString(key) ?: default else default` */
  function StringOr(options: ReadableMap, key: string, default: string): (r: Result<string>)
    ensures r.Success? == GetString(options, key).Success?
    ensures r.Success? ==> r.value == if key in options && options[key].Text? then options[key].s else default
  {
    var s :- GetString(options, key);
    Success(if s.Some? then s.value else default)
  }

  /** Every key the options are read with holds a value of the type it is read as. */
  ghost predicate WellTyped(options: ReadableMap)
  {
    && "imageUrl" in options && options["imageUrl"].Text?
    && (forall key :: key in BooleanKeys && key in options ==> options[key].Boolean?)
    && (forall key :: key in NumberKeys && key in options ==> options[key].Number?)
    && ("outputFormat" in options ==> options["outputFormat"].Text? || options["outputFormat"].Null?)
  }

  /** Lines reading `options`, in their order: the first unreadable key is the one reported. */
  function ParseSettings(options: ReadableMap): (r: Result<Settings>)
    ensures r.Success? <==> WellTyped(options)
  {
    var url :- GetString(options, "imageUrl");
    if url.None? then Failure("imageUrl") else
    var grayscale :- BooleanOr(options, "grayscale", false);
    var contrast :- DoubleOr(options, "contrast", 0.0);
    var brightness :- DoubleOr(options, "brightness", 0.0);
    var sharpness :- DoubleOr(options, "sharpness", 0.0);
    var rotation :- DoubleOr(options, "rotation", 0.0);
    var cropX :- DoubleOr(options, "cropX", -1.0);
    var cropY :- DoubleOr(options, "cropY", -1.0);
    var cropWidth :- DoubleOr(options, "cropWidth", -1.0);
    var cropHeight :- DoubleOr(options, "cropHeight", -1.0);
    var threshold :- IntOr(options, "threshold", 0);
    var outputFormat :- StringOr(options, "outputFormat", "jpeg");
    var quality :- IntOr(options, "quality", 90);
    Success(Settings(url.value, grayscale, contrast, brightness, sharpness, rotation,
                     cropX, cropY, cropWidth, cropHeight, threshold, outputFormat, quality))
  }

  /** The value read for a numeric key present in well-typed options, or the default. */
  ghost function NumberOr(options: ReadableMap, key: string, default: real): real
  {
    if key in options && options[key].Number? then options[key].x else default
  }

  /** Keys that are given are read as given (numbers as `toInt()` where the code converts); missing keys get their defaults. */
  lemma {:induction false} ValuesOrDefaults(options: ReadableMap)
    requires WellTyped(options)
    ensures var s := ParseSettings(options).value;
      && s.imageUrl == options["imageUrl"].s
      && s.grayscale == ("grayscale" in options && options["grayscale"].b)
      && s.contrast == NumberOr(options, "contrast", 0.0)
      && s.brightness == NumberOr(options, "brightness", 0.0)
      && s.sharpness == NumberOr(options, "sharpness", 0.0)
      && s.rotation == NumberOr(options, "rotation", 0.0)
      && s.cropX == NumberOr(options, "cropX", -1.0)
      && s.cropY == NumberOr(options, "cropY", -1.0)
      && s.cropWidth == NumberOr(options, "cropWidth", -1.0)
      && s.cropHeight == NumberOr(options, "cropHeight", -1.0)
      && s.threshold == (if "threshold" in options then ToInt(options["threshold"].x) else 0)
      && s.outputFormat == (if "outputFormat" in options && options["outputFormat"].Text? then options["outputFormat"].s else "jpeg")
      && s.quality == (if "quality" in options then ToInt(options["quality"].x) else 90)
  {
    assert "grayscale" in BooleanKeys;
    assert BooleanOr(options, "grayscale", false) == Success("grayscale" in options && options["grayscale"].b);
    NumberRead(options, "contrast", 0.0);
    NumberRead(options, "brightness", 0.0);
    NumberRead(options, "sharpness", 0.0);
    NumberRead(options, "rotation", 0.0);
    NumberRead(options, "cropX", -1.0);
    NumberRead(options, "cropY", -1.0);
    NumberRead(options, "cropWidth", -1.0);
    NumberRead(options, "cropHeight", -1.0);
    NumberRead(options, "threshold", 0.0);
    NumberRead(options, "quality", 0.0);
  }

  /** A numeric key of well-typed options reads as its number, or as the default when missing. */
  lemma NumberRead(options: ReadableMap, key: string, default: real)
    requires WellTyped(options) && key in NumberKeys
    ensures DoubleOr(options, key, default) == Success(NumberOr(options, key, default))
    ensures key in options ==> options[key].Number? && IntOr(options, key, 0).Success?
  {
  }

  /** With only `imageUrl` given, every other setting takes its default and crop stays at -1. */
  lemma OnlyImageUrl(url: string)
    ensures ParseSettings(map["imageUrl" := Text(url)])
         == Success(Settings(url, false, 0.0, 0.0, 0.0, 0.0, -1.0, -1.0, -1.0, -1.0, 0, "jpeg", 90))
  {
  }

  /** A missing or `null` `imageUrl` fails before any other key is read. */
  lemma MissingImageUrlFails(options: ReadableMap)
    requires "imageUrl" !in options || options["imageUrl"].Null?
    ensures ParseSettings(options) == Failure("imageUrl")
  {
  }

  /** An explicit `null` output format falls back to "jpeg", as a missing one does. */
  lemma NullFormatIsJpeg(options: ReadableMap)
    requires WellTyped(options) && "outputFormat" in options && options["outputFormat"].Null?
    ensures ParseSettings(options).value.outputFormat == "jpeg"
  {
    ValuesOrDefaults(options);
  }

  /** Keys that `processImage` never reads do not affect the settings. */
  lemma {:induction false} OtherKeysIgnored(options: ReadableMap, key: string, v: OptionValue)
    requires key !in BooleanKeys && key !in NumberKeys && key != "imageUrl" && key != "outputFormat"
    ensures ParseSettings(options[key := v]) == ParseSettings(options)
  {
    var extended := options[key := v];
    assert GetString(extended, "imageUrl") == GetString(options, "imageUrl");
    assert BooleanOr(extended, "grayscale", false) == BooleanOr(options, "grayscale", false);
    assert DoubleOr(extended, "contrast", 0.0) == DoubleOr(options, "contrast", 0.0);
    assert DoubleOr(extended, "brightness", 0.0) == DoubleOr(options, "brightness", 0.0);
    assert DoubleOr(extended, "sharpness", 0.0) == DoubleOr(options, "sharpness", 0.0);
    assert DoubleOr(extended, "rotation", 0.0) == DoubleOr(options, "rotation", 0.0);
    assert DoubleOr(extended, "cropX", -1.0) == DoubleOr(options, "cropX", -1.0);
    assert DoubleOr(extended, "cropY", -1.0) == DoubleOr(options, "cropY", -1.0);
    assert DoubleOr(extended, "cropWidth", -1.0) == DoubleOr(options, "cropWidth", -1.0);
    assert DoubleOr(extended, "cropHeight", -1.0) == DoubleOr(options, "cropHeight", -1.0);
    assert IntOr(extended, "threshold", 0) == IntOr(options, "threshold", 0);
    assert StringOr(extended, "outputFormat", "jpeg") == StringOr(options, "outputFormat", "jpeg");
    assert IntOr(extended, "quality", 90) == IntOr(options, "quality", 90);
  }

  /** `removePrefix("file://")` on the image URL. */
  function FilePath(url: string): (path: string)
    ensures "file://" <= url ==> url == "file://" + path
    ensures !("file://" <= url) ==> path == url
  {
    if "file://" <= url then url[|"file://"|..] else url
  }

  /** A plain path without the scheme is used as it is. */
  lemma PlainPathKept(path: string)
    requires |path| > 0 && path[0] == '/'
    ensures FilePath(path) == path
  {
  }
}
