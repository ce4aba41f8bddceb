// `Image<DataType>` (include/vkdl/graphics/image.h) and `ColorImage`
// (src/image.cpp): a row-major pixel buffer with its width, height and
// format. The buffer is a nullable array, so two images can share one, as
// `createMask` makes them do.
module Image {
  import opened Wrappers
  import opened Vk
  import opened Color

  const TWO_32: int := 0x1_0000_0000

  /** `width * height` of two `uint32_t` dimensions: a 32-bit product, so
      taken modulo 2^32. Every buffer the images allocate and the loop of
      `createMask` use it. */
  function Product32(w: nat, h: nat): (n: nat)
    ensures n <= w * h && n < TWO_32
    ensures w * h < TWO_32 ==> n == w * h
    ensures w == 0x1_0000 && h == 0x1_0000 ==> n == 0
  {
    (w * h) % TWO_32
  }

  /** `memcpy(dst + dstStart, src + srcStart, n)` on distinct buffers. */
  method CopyRange<T>(src: array<T>, srcStart: nat, dst: array<T>, dstStart: nat, n: nat)
    requires src != dst
    requires srcStart + n <= src.Length && dstStart + n <= dst.Length
    modifies dst
    ensures dst[..] == old(dst[..dstStart]) + src[srcStart..srcStart + n] + old(dst[dstStart + n..])
  {
    ghost var d := dst[..];
    var i := 0;
    while i < n
      invariant 0 <= i <= n && src[..] == old(src[..])
      invariant dst[..] == d[..dstStart] + src[..][srcStart..srcStart + i] + d[dstStart + i..]
    {
      SpliceStep(d, src[..], dstStart, srcStart, i, dst[..]);
      dst[dstStart + i] := src[srcStart + i];
      i := i + 1;
    }
  }

  /** Writing the next source element extends the copied range by one. */
  lemma SpliceStep<T>(d: seq<T>, s: seq<T>, ds: nat, ss: nat, i: nat, cur: seq<T>)
    requires ds + i < |d| && ss + i < |s|
    requires cur == d[..ds] + s[ss..ss + i] + d[ds + i..]
    ensures cur[ds + i := s[ss + i]] == d[..ds] + s[ss..ss + i + 1] + d[ds + i + 1..]
  {
    assert s[ss..ss + i + 1] == s[ss..ss + i] + [s[ss + i]];
    assert d[ds + i..] == [d[ds + i]] + d[ds + i + 1..];
  }

  /** k * a <= k * b when a <= b, for natural numbers. */
  lemma MulMono(k: nat, a: nat, b: nat)
    requires a <= b
    ensures k * a <= k * b
  {
    assert k * b == k * a + k * (b - a);
  }

  /** Row-major addressing maps [0, w) x [0, h) one-to-one into [0, w * h). */
  lemma {:induction false} RowMajor(w: nat, h: nat, x1: nat, y1: nat, x2: nat, y2: nat)
    requires x1 < w && x2 < w && y1 < h && y2 < h
    ensures w * y1 + x1 < w * h
    ensures w * y1 + x1 == w * y2 + x2 ==> x1 == x2 && y1 == y2
  {
    MulMono(w, y1 + 1, h);
    if y1 < y2 {
      MulMono(w, y1 + 1, y2);
    } else if y2 < y1 {
      MulMono(w, y2 + 1, y1);
    }
  }

  class Image<T(0)> {
    var pixels: array?<T>
    var format: Format
    var width: nat
    var height: nat

    /** The number of pixels the dimensions describe. */
    function Count(): nat
      reads this
    {
      width * height
    }

    /** The buffer holds at least the pixels the dimensions describe. */
    predicate Covers()
      reads this
    {
      Count() == 0 || (pixels != null && Count() <= pixels.Length)
    }

    /** The pixels the dimensions describe, in row-major order. */
    function Contents(): seq<T>
      reads this, pixels
      requires Covers()
    {
      if Count() == 0 then [] else pixels[..Count()]
    }

    /** `empty()`: there is no buffer. */
    predicate Empty()
      reads this
    {
      pixels == null
    }

    /** The default constructor: no buffer, zero size, default format. */
    constructor ()
      ensures pixels == null && format == Undefined && width == 0 && height == 0
      ensures Empty()
    {
      pixels := null;
      format := Undefined;
      width := 0;
      height := 0;
    }

    /** The copy constructor: a fresh buffer with the same dimensions, format
        and pixels. */
    constructor Copy(rhs: Image<T>)
      requires rhs.Covers()
      ensures fresh(pixels) && pixels != rhs.pixels
      ensures width == rhs.width && height == rhs.height && format == rhs.format
      ensures Covers() && pixels.Length == Count() && Contents() == rhs.Contents()
    {
      var n := rhs.width * rhs.height;
      var a := new T[n];
      if n > 0 {
        CopyRange(rhs.pixels, 0, a, 0, n);
        assert a[..] == rhs.pixels[..n];
      }
      pixels := a;
      format := rhs.format;
      width := rhs.width;
      height := rhs.height;
    }

    /** The move constructor: takes over the buffer and leaves the source
        empty, with zero dimensions and the default format. */
    constructor Move(rhs: Image<T>)
      modifies rhs
      ensures pixels == old(rhs.pixels) && format == old(rhs.format)
      ensures width == old(rhs.width) && height == old(rhs.height)
      ensures rhs.pixels == null && rhs.format == Undefined && rhs.width == 0 && rhs.height == 0
      ensures rhs.Empty()
    {
      pixels := rhs.pixels;
      format := rhs.format;
      width := rhs.width;
      height := rhs.height;
      new;
      rhs.pixels := null;
      rhs.format := Undefined;
      rhs.width := 0;
      rhs.height := 0;
    }

    /** `Image(width, height, format)`: a fresh buffer of `Product32`
        pixels whose values the model leaves unspecified; it covers the
        dimensions exactly when their product fits in 32 bits. */
    constructor Sized(w: nat, h: nat, fmt: Format)
      ensures fresh(pixels) && pixels.Length == Product32(w, h)
      ensures width == w && height == h && format == fmt
      ensures Covers() <==> w * h < TWO_32
    {
      pixels := new T[Product32(w, h)];
      format := fmt;
      width := w;
      height := h;
    }

    /** `Image(value, width, height, format)`: `Product32` copies of
        `value`, covering the dimensions exactly when their product fits in
        32 bits. */
    constructor Filled(value: T, w: nat, h: nat, fmt: Format)
      ensures fresh(pixels) && pixels.Length == Product32(w, h)
      ensures width == w && height == h && format == fmt
      ensures Covers() <==> w * h < TWO_32
      ensures forall i :: 0 <= i < pixels.Length ==> pixels[i] == value
    {
      pixels := new T[Product32(w, h)](_ => value);
      format := fmt;
      width := w;
      height := h;
    }

    /** `Image(pixels, width, height, format)`: wraps a buffer without
        copying it. */
    constructor Wrap(px: array?<T>, w: nat, h: nat, fmt: Format)
      ensures pixels == px && width == w && height == h && format == fmt
    {
      pixels := px;
      format := fmt;
      width := w;
      height := h;
    }

    /** `create`: a fresh buffer of `Product32` copies of `value`. The
        dimensions and the format are left as they were. */
    method Create(value: T, w: nat, h: nat, fmt: Format)
      modifies this
      ensures fresh(pixels) && pixels.Length == Product32(w, h)
      ensures forall i :: 0 <= i < pixels.Length ==> pixels[i] == value
      ensures width == old(width) && height == old(height) && format == old(format)
    {
      pixels := new T[Product32(w, h)](_ => value);
    }

    /** `loadFromMemory`: adopts the buffer and the dimensions given. */
    method LoadFromMemory(px: array?<T>, w: nat, h: nat, fmt: Format)
      modifies this
      ensures pixels == px && width == w && height == h && format == fmt
    {
      pixels := px;
      format := fmt;
      width := w;
      height := h;
    }

    /** `clear`: frees the buffer and resets dimensions and format. */
    method Clear()
      modifies this
      ensures pixels == null && width == 0 && height == 0 && format == Undefined
      ensures Empty()
    {
      format := Undefined;
      width := 0;
      height := 0;
      pixels := null;
    }

    /** `release`: like `clear`, but hands the buffer to the caller instead
        of freeing it. */
    method Release() returns (buffer: array?<T>)
      modifies this
      ensures buffer == old(pixels)
      ensures pixels == null && width == 0 && height == 0 && format == Undefined
      ensures Empty()
    {
      format := Undefined;
      width := 0;
      height := 0;
      buffer := pixels;
      pixels := null;
    }

    /** `at(x, y)`: the pixel in row y, column x. */
    function At(x: nat, y: nat): T
      reads this, pixels
      requires pixels != null && width * y + x < pixels.Length
    {
      pixels[width * y + x]
    }

    /** Within the image, `at` reads pixel x of row y of the row-major
        contents, and distinct positions are distinct pixels. */
    lemma AtIsRowMajor(x: nat, y: nat, x2: nat, y2: nat)
      requires Covers() && x < width && y < height && x2 < width && y2 < height
      ensures pixels != null && width * y + x < Count()
      ensures At(x, y) == Contents()[width * y + x]
      ensures (x, y) != (x2, y2) ==> width * y + x != width * y2 + x2
    {
      RowMajor(width, height, x, y, x2, y2);
    }
  }

  /** `ColorImage(width, height)`: an RGBA8 image of unspecified pixels. */
  method NewColorImage(w: nat, h: nat) returns (img: Image<Color>)
    ensures fresh(img) && fresh(img.pixels) && img.pixels.Length == Product32(w, h)
    ensures img.width == w && img.height == h && img.format == R8G8B8A8Unorm
    ensures img.Covers() <==> w * h < TWO_32
  {
    img := new Image.Sized(w, h, R8G8B8A8Unorm);
  }

  /** `ColorImage(value, width, height)`: an RGBA8 image filled with
      `value`. */
  method NewFilledColorImage(value: Color, w: nat, h: nat) returns (img: Image<Color>)
    ensures fresh(img) && fresh(img.pixels) && img.pixels.Length == Product32(w, h)
    ensures img.width == w && img.height == h && img.format == R8G8B8A8Unorm
    ensures img.Covers() <==> w * h < TWO_32
    ensures forall i :: 0 <= i < img.pixels.Length ==> img.pixels[i] == value
    ensures img.Covers() ==> forall i :: 0 <= i < img.Count() ==> img.Contents()[i] == value
  {
    img := new Image.Filled(value, w, h, R8G8B8A8Unorm);
  }

  /** `ColorImage(pixels, width, height)`: wraps an RGBA8 buffer. */
  method WrapColorImage(px: array?<Color>, w: nat, h: nat) returns (img: Image<Color>)
    ensures fresh(img) && img.pixels == px
    ensures img.width == w && img.height == h && img.format == R8G8B8A8Unorm
  {
    img := new Image.Wrap(px, w, h, R8G8B8A8Unorm);
  }

  /** The two guards of `blit`. The check macro raises when its condition
      holds, so `blit` fails when offset.x + size.x (as a 32-bit sum) is
      below the width or below the height. */
  predicate BlitFails(w: nat, h: nat, ox: nat, sx: nat)
  {
    (ox + sx) % TWO_32 < w || (ox + sx) % TWO_32 < h
  }

  /** The rows `blit` reads lie inside the source buffer, and their start
      indices and the new image's size fit in 32 bits. Outside this, `blit`
      touches memory that is not a pixel of either image. */
  predicate BlitReadable(img: Image<Color>, ox: nat, oy: nat, sx: nat, sy: nat)
    reads img
  {
    sx * sy < TWO_32 &&
    (sx == 0 || sy == 0 ||
     (img.pixels != null && oy + sy <= TWO_32 &&
      img.width * (oy + sy - 1) + ox < TWO_32 &&
      img.width * (oy + sy - 1) + ox + sx <= img.pixels.Length))
  }

  /** The fault of a `blit` that reads or writes outside the two buffers. */
  const OutOfBoundsPixel: string := "pixel access outside the image buffer"

  /** As written, neither guard of `blit` looks at offset.y + size.y: a
      1 x 1 image lets a 1 x 2 blit at the origin through, and its second
      row lies past the buffer. */
  lemma BlitPastBottom(img: Image<Color>)
    requires img.width == 1 && img.height == 1 && img.pixels != null && img.pixels.Length == 1
    ensures !BlitFails(img.width, img.height, 0, 1)
    ensures !BlitReadable(img, 0, 0, 1, 2)
  {
  }

  /** The bounds check `blit` evidently means to make: the size.x x size.y
      region at the offset lies inside the width x height image. */
  predicate BlitFits(w: nat, h: nat, ox: nat, oy: nat, sx: nat, sy: nat)
  {
    ox + sx <= w && oy + sy <= h
  }

  /** A region that fits a 32-bit image whose buffer covers its pixels can
      be copied: every row it reads lies inside the buffer. */
  lemma BlitFitsReadable(img: Image<Color>, ox: nat, oy: nat, sx: nat, sy: nat)
    requires img.Covers() && img.Count() < TWO_32
    requires BlitFits(img.width, img.height, ox, oy, sx, sy)
    ensures BlitReadable(img, ox, oy, sx, sy)
  {
    MulMono(sx, sy, img.height);
    assert sx * img.height <= img.width * img.height;
    if sx > 0 && sy > 0 {
      MulMono(img.width, oy + sy, img.height);
      assert img.width * (oy + sy - 1) + img.width == img.width * (oy + sy);
    }
  }

  /** Row y of a row-major buffer of rows w wide, from column x, n long. */
  function Row<T>(s: seq<T>, w: nat, y: nat, x: nat, n: nat): seq<T>
    requires w * y + x + n <= |s|
  {
    s[w * y + x .. w * y + x + n]
  }

  /** Row r of `dst` (rows sx wide) is the sx pixels of `src` (rows w wide)
      that start at column ox of row oy + r. */
  ghost predicate RowCopied<T>(src: seq<T>, w: nat, ox: nat, oy: nat, dst: seq<T>, sx: nat, r: nat)
  {
    sx * r + sx <= |dst| && w * (oy + r) + ox + sx <= |src| &&
    Row(dst, sx, r, 0, sx) == Row(src, w, oy + r, ox, sx)
  }

  /** A copied row stays copied when only pixels past it change. */
  lemma RowCopiedKept<T>(src: seq<T>, w: nat, ox: nat, oy: nat, before: seq<T>, after: seq<T>, sx: nat, q: nat, k: nat)
    requires RowCopied(src, w, ox, oy, before, sx, q)
    requires |after| == |before| && sx * q + sx <= k <= |before| && after[..k] == before[..k]
    ensures RowCopied(src, w, ox, oy, after, sx, q)
  {
    assert Row(after, sx, q, 0, sx) == after[..k][sx * q .. sx * q + sx];
    assert Row(before, sx, q, 0, sx) == before[..k][sx * q .. sx * q + sx];
  }

  /** The row loop of `blit`: row r of `dst` from row oy + r of `src`. */
  method CopyRows<T>(src: array<T>, w: nat, ox: nat, oy: nat, dst: array<T>, sx: nat, sy: nat)
    requires src != dst && dst.Length == sx * sy
    requires sy > 0 ==> w * (oy + sy - 1) + ox + sx <= src.Length
    modifies dst
    ensures forall r :: 0 <= r < sy ==> RowCopied(src[..], w, ox, oy, dst[..], sx, r)
  {
    ghost var s := src[..];
    var r := 0;
    while r < sy
      invariant 0 <= r <= sy && src[..] == s
      invariant forall q :: 0 <= q < r ==> RowCopied(s, w, ox, oy, dst[..], sx, q)
    {
      RowBounds(w, ox, oy, sx, sy, r);
      ghost var before := dst[..];
      CopyRange(src, w * (oy + r) + ox, dst, sx * r, sx);
      RowsStep(s, w, ox, oy, before, dst[..], sx, r, sx * r, w * (oy + r) + ox);
      r := r + 1;
    }
  }

  /** Row r of the copy lies inside both buffers. */
  lemma RowBounds(w: nat, ox: nat, oy: nat, sx: nat, sy: nat, r: nat)
    requires r < sy
    ensures sx * r + sx <= sx * sy
    ensures w * (oy + r) + ox + sx <= w * (oy + sy - 1) + ox + sx
  {
    MulMono(sx, r + 1, sy);
    MulMono(w, oy + r, oy + sy - 1);
  }

  /** Copying row r (to k = sx * r, from start) keeps rows 0 .. r - 1
      copied and copies row r. */
  lemma RowsStep<T>(s: seq<T>, w: nat, ox: nat, oy: nat, before: seq<T>, after: seq<T>, sx: nat, r: nat, k: nat, start: nat)
    requires k == sx * r && start == w * (oy + r) + ox
    requires start + sx <= |s| && k + sx <= |before|
    requires forall q :: 0 <= q < r ==> RowCopied(s, w, ox, oy, before, sx, q)
    requires after == before[..k] + s[start..start + sx] + before[k + sx..]
    ensures forall q :: 0 <= q < r + 1 ==> RowCopied(s, w, ox, oy, after, sx, q)
  {
    assert after[..k] == before[..k];
    assert after[k..k + sx] == s[start..start + sx];
    assert RowCopied(s, w, ox, oy, after, sx, r);
    forall q | 0 <= q < r
      ensures RowCopied(s, w, ox, oy, after, sx, q)
    {
      MulMono(sx, q + 1, r);
      assert sx * (q + 1) == sx * q + sx;
      RowCopiedKept(s, w, ox, oy, before, after, sx, q, k);
    }
  }

  /** `blit(offset, size)`: a new size.x x size.y image whose row r is the
      size.x pixels that start at (offset.x, offset.y + r) in the source.
      Past the two guards, a region outside the buffers is a fault. */
  method Blit(img: Image<Color>, ox: nat, oy: nat, sx: nat, sy: nat) returns (res: Result<Image<Color>>)
    requires ox < TWO_32 && oy < TWO_32 && sx < TWO_32 && sy < TWO_32
    ensures BlitFails(img.width, img.height, ox, sx) ==> res == Err("error")
    ensures !BlitFails(img.width, img.height, ox, sx) && !BlitReadable(img, ox, oy, sx, sy) ==>
      res == Err(OutOfBoundsPixel)
    ensures res.Ok? <==> !BlitFails(img.width, img.height, ox, sx) && BlitReadable(img, ox, oy, sx, sy)
    ensures res.Ok? ==> fresh(res.value) && fresh(res.value.pixels)
    ensures res.Ok? ==> (res.value.width == sx && res.value.height == sy &&
      res.value.format == R8G8B8A8Unorm && res.value.pixels.Length == sx * sy)
    ensures res.Ok? && sx > 0 && sy > 0 ==> img.pixels != null && forall r :: 0 <= r < sy ==>
      RowCopied(img.pixels[..], img.width, ox, oy, res.value.pixels[..], sx, r)
  {
    if (ox + sx) % TWO_32 < img.width {
      return Err("error");
    }
    if (ox + sx) % TWO_32 < img.height {
      return Err("error");
    }
    if !BlitReadable(img, ox, oy, sx, sy) {
      return Err(OutOfBoundsPixel);
    }
    var out := NewColorImage(sx, sy);
    if sx > 0 && sy > 0 {
      CopyRows(img.pixels, img.width, ox, oy, out.pixels, sx, sy);
    }
    res := Ok(out);
  }

  /** `createMask(from, to)`: an image that wraps the source's own buffer,
      with every pixel equal to `from` among the first `Product32` replaced
      by `to`; the source sees the change too. */
  method CreateMask(img: Image<Color>, from: Color, to: Color) returns (mask: Image<Color>)
    requires img.pixels == null ==> Product32(img.width, img.height) == 0
    requires img.pixels != null ==> Product32(img.width, img.height) <= img.pixels.Length
    modifies img.pixels
    ensures fresh(mask) && mask.pixels == img.pixels
    ensures mask.width == img.width && mask.height == img.height && mask.format == R8G8B8A8Unorm
    ensures img.pixels != null ==> forall i :: 0 <= i < img.pixels.Length ==>
      img.pixels[i] == (if i < Product32(img.width, img.height) && old(img.pixels[i]) == from then to else old(img.pixels[i]))
  {
    mask := WrapColorImage(img.pixels, img.width, img.height);
    var n := Product32(img.width, img.height);
    if n == 0 {
      return;
    }
    var px := img.pixels;
    var i := 0;
    while i < n
      modifies px
      invariant 0 <= i <= n
      invariant forall j :: 0 <= j < px.Length ==>
        px[j] == (if j < i && old(px[j]) == from then to else old(px[j]))
    {
      if Eq(px[i], from) {
        px[i] := to;
      }
      i := i + 1;
    }
  }

  /** A 65536 x 65536 colour image wraps to an empty buffer, and
      `createMask` walks that buffer without fault: the mask has the
      image's dimensions and no pixel. */
  method MaskOfWrappedImage(from: Color, to: Color) returns (mask: Image<Color>)
    ensures mask.width == 0x1_0000 && mask.height == 0x1_0000
    ensures mask.pixels != null && mask.pixels.Length == 0 && !mask.Covers()
  {
    var img := NewColorImage(0x1_0000, 0x1_0000);
    mask := CreateMask(img, from, to);
  }
}
