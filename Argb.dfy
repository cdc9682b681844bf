/**
 * Packed ARGB_8888 colours as the Android `IntArray` pixel buffers hold them:
 * one Kotlin `Int` per pixel, alpha in bits 24..31, red in 16..23, green in
 * 8..15 and blue in 0..7.
 *
 * Unpacking is `(p shr k) and 0xFF`: an arithmetic shift is a floor division
 * by 2^k, and masking a two's-complement value with 0xFF is its (never
 * negative) remainder modulo 256, which are exactly Dafny's `/` and `%`.
 * Packing is `(a shl 24) or (r shl 16) or (g shl 8) or b`: the four fields are
 * disjoint, so the `or` is their sum, and `a shl 24` wraps into the sign bit.
 */
module Argb {
  import opened KotlinNumbers

  /** An 8-bit colour channel. */
  type Channel = c: int | 0 <= c < 256

  /** Reinterpret an unsigned 32-bit bit pattern as a Kotlin `Int`. */
  function WrapInt32(u: int): (p: Int32)
    requires 0 <= u < 0x1_0000_0000
    ensures (p - u) % 0x1_0000_0000 == 0
  {
    if u < 0x8000_0000 then u else u - 0x1_0000_0000
  }

  /** `(p shr 24) and 0xFF` */
  function Alpha(p: Int32): (c: Channel)
  {
    (p / 0x100_0000) % 256
  }

  /** `(p shr 16) and 0xFF` */
  function Red(p: Int32): (c: Channel)
  {
    (p / 0x1_0000) % 256
  }

  /** `(p shr 8) and 0xFF` */
  function Green(p: Int32): (c: Channel)
  {
    (p / 0x100) % 256
  }

  /** `p and 0xFF` */
  function Blue(p: Int32): (c: Channel)
  {
    p % 256
  }

  /** `(a shl 24) or (r shl 16) or (g shl 8) or b` for channels in [0, 255]. */
  function Pack(a: Channel, r: Channel, g: Channel, b: Channel): Int32
  {
    WrapInt32(a * 0x100_0000 + r * 0x1_0000 + g * 0x100 + b)
  }

  /** Unpacking a packed colour gives back each of its four channels. */
  lemma PackUnpack(a: Channel, r: Channel, g: Channel, b: Channel)
    ensures var p := Pack(a, r, g, b);
      Alpha(p) == a && Red(p) == r && Green(p) == g && Blue(p) == b
  {
    var p := Pack(a, r, g, b);
    assert p / 0x100 == a * 0x1_0000 + r * 0x100 + g || p / 0x100 == a * 0x1_0000 + r * 0x100 + g - 0x100_0000;
    assert p / 0x1_0000 == a * 0x100 + r || p / 0x1_0000 == a * 0x100 + r - 0x1_0000;
    assert p / 0x100_0000 == a || p / 0x100_0000 == a - 0x100;
  }

  /** Every pixel is the packing of its own four channels. */
  lemma UnpackPack(p: Int32)
    ensures Pack(Alpha(p), Red(p), Green(p), Blue(p)) == p
  {
    var q1 := p / 0x100;
    var q2 := q1 / 0x100;
    var q3 := q2 / 0x100;
    assert p / 0x1_0000 == q2;
    assert p / 0x100_0000 == q3;
    assert p == q1 * 0x100 + Blue(p);
    assert q1 == q2 * 0x100 + Green(p);
    assert q2 == q3 * 0x100 + Red(p);
    assert q3 == Alpha(p) || q3 == Alpha(p) - 0x100;
  }
}
