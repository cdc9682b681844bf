/**
 * The handful of Kotlin/JVM numeric conversions that `processImage` relies on,
 * written out over Dafny's unbounded `int` and exact `real`.
 *
 *  - `Double.toInt()` truncates toward zero and saturates at the `Int` range;
 *  - `Int % Int` is the truncated remainder (its sign is the dividend's);
 *  - `coerceIn` / `coerceAtLeast` / `coerceAtMost` clamp.
 */
module KotlinNumbers {

  /** A Kotlin nullable value `T?`. */
  datatype Option<T> = None | Some(value: T)

  /** Kotlin's `Int`: a signed two's-complement 32-bit integer. */
  type Int32 = x: int | -0x8000_0000 <= x < 0x8000_0000

  const IntMin: Int32 := -0x8000_0000
  const IntMax: Int32 := 0x7fff_ffff

  /** Truncation toward zero of an exact real. */
  function Trunc(x: real): (r: int)
    ensures 0.0 <= x ==> 0 <= r && r as real <= x < r as real + 1.0
    ensures x < 0.0 ==> r <= 0 && r as real - 1.0 < x <= r as real
  {
    if 0.0 <= x then x.Floor else -((-x).Floor)
  }

  /** `v.coerceIn(lo, hi)`. */
  function CoerceIn(v: int, lo: int, hi: int): (r: int)
    requires lo <= hi
    ensures lo <= r <= hi
    ensures lo <= v <= hi ==> r == v
    ensures v < lo ==> r == lo
    ensures hi < v ==> r == hi
  {
    if v < lo then lo else if hi < v then hi else v
  }

  /** `Double.toInt()` (and `Float.toInt()`): truncate, then saturate at the `Int` range. */
  function ToInt(x: real): (r: Int32)
    ensures IntMin <= Trunc(x) <= IntMax ==> r == Trunc(x)
    ensures Trunc(x) < IntMin ==> r == IntMin
    ensures IntMax < Trunc(x) ==> r == IntMax
  {
    CoerceIn(Trunc(x), IntMin, IntMax)
  }

  /** Kotlin's `a % 360` on `Int`: the truncated remainder, with the sign of `a`. */
  function Rem360(a: int): (r: int)
    ensures 0 <= a ==> 0 <= r < 360
    ensures a < 0 ==> -360 < r <= 0
    ensures (a - r) % 360 == 0
  {
    if 0 <= a then a % 360 else -((-a) % 360)
  }

  /**
   * Clamped to [0, 255], `toInt()` (truncation with saturation) and floor
   * give the same channel value: they differ only below 0 or far above 255.
   */
  lemma ClampedToIntIsClampedFloor(x: real)
    ensures CoerceIn(ToInt(x), 0, 255) == CoerceIn(x.Floor, 0, 255)
  {
  }
}
