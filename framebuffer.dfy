/** The pixel buffer the library hands to applications: a flat slice of
    bytes read four at a time as RGBA pixels, row after row. */
module FrameBuffer {

  /** One RGBA8 pixel. */
  datatype Rgba = Rgba(r: bv8, g: bv8, b: bv8, a: bv8)

  /** The number of whole pixels a byte buffer of length `len` holds. */
  function PixelCount(len: nat): nat
  {
    len / 4
  }

  /** The pixel stored at pixel index `i`. */
  function PixelAt(bytes: seq<bv8>, i: nat): Rgba
    requires i < PixelCount(|bytes|)
  {
    Rgba(bytes[4 * i], bytes[4 * i + 1], bytes[4 * i + 2], bytes[4 * i + 3])
  }

  /** The pixel index of column `x` on row `y` of a frame `width` pixels wide. */
  function PixelIndex(width: nat, x: nat, y: nat): nat
  {
    width * y + x
  }

  /** On a row of `width` pixels, column `x` of row `y` is the only pixel
      with that index: the index gives the row and column back. */
  lemma PixelIndexInverse(width: nat, x: nat, y: nat)
    requires x < width
    ensures PixelIndex(width, x, y) / width == y
    ensures PixelIndex(width, x, y) % width == x
  {
    var i := PixelIndex(width, x, y);
    assert i == y * width + x;
    LemmaDivModUnique(i, width, y, x);
  }

  /** Quotient and remainder are determined by `i == q * d + r` with `r < d`. */
  lemma LemmaDivModUnique(i: nat, d: nat, q: nat, r: nat)
    requires r < d && i == q * d + r
    ensures i / d == q && i % d == r
  {
    var q', r' := i / d, i % d;
    assert i == q' * d + r';
    if q' < q {
      MulMonotone(q' + 1, q, d);
      assert false;
    } else if q' > q {
      MulMonotone(q + 1, q', d);
      assert false;
    }
  }

  /** Multiplication by a natural number is monotone. */
  lemma MulMonotone(a: nat, b: nat, d: nat)
    requires a <= b
    ensures a * d <= b * d
  {
  }

  /** `put_pixel`: writes `color` into the pixel at column `x`, row `y`,
      and leaves every other byte as it was. An index outside the buffer
      makes the slice access panic, so callers must stay inside it. */
  method PutPixel(frame: array<bv8>, width: nat, x: nat, y: nat, color: Rgba)
    requires PixelIndex(width, x, y) < PixelCount(frame.Length)
    modifies frame
    ensures PixelAt(frame[..], PixelIndex(width, x, y)) == color
    ensures forall j :: 0 <= j < frame.Length && j / 4 != PixelIndex(width, x, y) ==>
      frame[j] == old(frame[j])
  {
    var idx := width * y + x;
    frame[4 * idx] := color.r;
    frame[4 * idx + 1] := color.g;
    frame[4 * idx + 2] := color.b;
    frame[4 * idx + 3] := color.a;
  }
}
