/**
 * The in-memory bitmap the pipeline passes from stage to stage: its size and
 * the row-major `IntArray` of packed ARGB pixels that `Bitmap.getPixels`
 * fills (stride = width, top-left origin).
 */
module Images {
  import opened KotlinNumbers

  datatype Image = Image(width: int, height: int, pixels: seq<Int32>)
  {
    /** A decoded Android bitmap has positive dimensions and one pixel per cell. */
    ghost predicate Valid()
    {
      0 < width && 0 < height && |pixels| == width * height
    }

    /** The pixel in column `x`, row `y`: `pixels[y * width + x]`. */
    function At(x: int, y: int): (p: Int32)
      requires Valid() && 0 <= x < width && 0 <= y < height
    {
      Cell(width, height, x, y);
      pixels[y * width + x]
    }
  }

  /** Two bitmaps of one size that agree at every cell are the same bitmap. */
  lemma {:induction false} Extensionality(a: Image, b: Image)
    requires a.Valid() && b.Valid() && a.width == b.width && a.height == b.height
    requires forall x, y :: 0 <= x < a.width && 0 <= y < a.height ==> a.At(x, y) == b.At(x, y)
    ensures a == b
  {
    forall k | 0 <= k < |a.pixels|
      ensures a.pixels[k] == b.pixels[k]
    {
      var x, y := k % a.width, k / a.width;
      assert k == y * a.width + x;
      if y >= a.height {
        MulAtLeastBy(a.height, y, a.width);
        assert false;
      }
      assert a.At(x, y) == b.At(x, y);
    }
  }

  /** Multiplying by a positive width keeps the order of the factors. */
  lemma MulAtLeastBy(h: int, y: int, width: int)
    requires 0 <= h <= y && 0 < width
    ensures h * width <= y * width
  {
  }

  /** Row-major addressing stays inside a `width * height` buffer. */
  lemma Cell(width: int, height: int, x: int, y: int)
    requires 0 <= x < width && 0 <= y < height
    ensures 0 <= y * width + x < width * height
  {
    assert y * width + x < (y + 1) * width;
    assert (y + 1) * width <= height * width;
  }

  /** Every index of a `width * height` buffer has a row and a column inside it. */
  lemma RowCol(width: int, height: int, k: int)
    requires 0 < width && 0 <= k < width * height
    ensures 0 <= k / width < height && 0 <= k % width < width
    ensures k == (k / width) * width + k % width
  {
    if k / width >= height {
      MulAtLeastBy(height, k / width, width);
      assert false;
    }
  }

  /** A row-major index splits back into its column and row. */
  lemma Split(width: int, x: int, y: int)
    requires 0 <= x < width && 0 <= y
    ensures (y * width + x) / width == y && (y * width + x) % width == x
  {
    var n := y * width + x;
    var q, m := n / width, n % width;
    assert (q - y) * width == x - m;
    if q > y {
      MulAtLeastBy(1, q - y, width);
      assert false;
    } else if q < y {
      MulAtLeastBy(1, y - q, width);
      assert false;
    }
  }
}
