// `Font` (include/vkdl/graphics/font.h, src/font.cpp): a glyph cache per
// character size and a shelf packer that places glyph bitmaps in one atlas
// texture per size. FreeType is outside the model: what it answers for a
// character (its pixel size, load results, metrics and rendered bitmap) is a
// `FaceAnswer` parameter, and what the packer writes into a page's texture
// is the page's upload trace.
module Font {
  import opened Wrappers
  import opened Color
  import opened Image
  import opened Glyph
  import Rect
  import opened WindowEvent

  /** TEXTURE_MAXIMUM_SIZE: a page texture never grows past this side. */
  const TextureMaximumSize: nat := 8192
  /** The side of a new page's square texture. */
  const PageSize: nat := 128
  /** The top of the first row of a new page, below the white square. */
  const FirstRow: nat := 3
  /** The transparent border around every glyph bitmap in the atlas. */
  const Padding: nat := 2

  // ---------------------------------------------------------------------
  // Glyph keys

  /** `combine(outline_thickness, bold, index)`: the thickness's float bits
      in the high word, bold in bit 31 and the glyph index in the low bits. */
  function Combine(thicknessBits: bv32, bold: bool, index: bv32): bv64
  {
    ((thicknessBits as bv64) << 32) | ((if bold then 1 else 0) as bv64 << 31) | (index as bv64)
  }

  /** For glyph indices below 2^31 the key keeps all three parts apart:
      the thickness bits, the bold flag and the index can be read back. */
  lemma CombineFields(t: bv32, bold: bool, index: bv32)
    requires index < 0x8000_0000
    ensures (Combine(t, bold, index) >> 32) as bv32 == t
    ensures (Combine(t, bold, index) & 0x8000_0000 != 0) == bold
    ensures (Combine(t, bold, index) & 0x7FFF_FFFF) as bv32 == index
  {
  }

  /** Two keys of indices below 2^31 are equal only when thickness, bold
      and index all are. */
  lemma CombineInjective(t1: bv32, b1: bool, i1: bv32, t2: bv32, b2: bool, i2: bv32)
    requires i1 < 0x8000_0000 && i2 < 0x8000_0000
    ensures Combine(t1, b1, i1) == Combine(t2, b2, i2) <==> t1 == t2 && b1 == b2 && i1 == i2
  {
    if Combine(t1, b1, i1) == Combine(t2, b2, i2) {
      CombineFields(t1, b1, i1);
      CombineFields(t2, b2, i2);
    }
  }

  /** Bit 31 of the index is the bold bit: a bold glyph of index i shares
      its key with the regular glyph of index i + 2^31. */
  lemma BoldCollision(t: bv32, index: bv32)
    requires index < 0x8000_0000
    ensures Combine(t, true, index) == Combine(t, false, index | 0x8000_0000)
  {
  }

  /** `outline_thickness == 0` on the float whose bits are given: true for
      +0 and -0, which give different keys. */
  predicate ThicknessZero(bits: bv32)
  {
    bits == 0 || bits == 0x8000_0000
  }

  // ---------------------------------------------------------------------
  // The shelf packer

  /** `Font::Row`: a shelf of the atlas, filled from the left. */
  datatype Row = Row(width: nat, top: nat, height: nat)

  /** A rectangle handed out by the packer, in texels. */
  datatype Area = Area(x: nat, y: nat, w: nat, h: nat)

  /** The height of a new row: 10% taller than the glyph, rounded down. */
  function RowHeight(sy: nat): nat
  {
    sy + sy / 10
  }

  /** The row tests of `findGlyphRect`: 0.7 <= size.y / height <= 1, and
      the glyph fits in the width left in the row. For heights up to the
      maximum texture size the float test 0.7f is exactly the ratio 7/10,
      and the unsigned free width extent.x - row.width does not wrap while
      rows stay within the texture. */
  predicate Fits(row: Row, size: UVec2, extentX: nat)
  {
    0 < row.height && 7 * row.height <= 10 * size.y && size.y <= row.height &&
    row.width + size.x <= extentX
  }

  /** The first row passing the tests, as the row loop finds it. */
  function FirstFit(rows: seq<Row>, size: UVec2, extentX: nat): (r: Option<nat>)
    ensures r.Some? ==> r.value < |rows| && Fits(rows[r.value], size, extentX)
    ensures r.Some? ==> forall j :: 0 <= j < r.value ==> !Fits(rows[j], size, extentX)
    ensures r.None? ==> forall j :: 0 <= j < |rows| ==> !Fits(rows[j], size, extentX)
  {
    if |rows| == 0 then None
    else if Fits(rows[0], size, extentX) then Some(0)
    else match FirstFit(rows[1..], size, extentX)
      case None => None
      case Some(i) => Some(i + 1)
  }

  /** The rows that are first to fit are the rows `FirstFit` finds. */
  lemma FirstFitUnique(rows: seq<Row>, size: UVec2, extentX: nat, f: Option<nat>)
    requires f.None? ==> forall j :: 0 <= j < |rows| ==> !Fits(rows[j], size, extentX)
    requires f.Some? ==> f.value < |rows| && Fits(rows[f.value], size, extentX)
    requires f.Some? ==> forall j :: 0 <= j < f.value ==> !Fits(rows[j], size, extentX)
    ensures f == FirstFit(rows, size, extentX)
  {
  }

  /** The doubling loop of `findGlyphRect` for a new row ending at `need`:
      the extent it stops at, and whether the row and the glyph then fit
      (false when another doubling would pass the maximum size). */
  function Grow(extent: UVec2, need: nat, sx: nat): (r: (UVec2, bool))
    requires 0 < extent.x
    ensures r.0.x >= extent.x && r.0.y >= extent.y
    ensures r.1 ==> need < r.0.y && sx < r.0.x
    ensures !r.1 ==> 2 * r.0.x > TextureMaximumSize || 2 * r.0.y > TextureMaximumSize
    ensures r.0 != extent ==> r.0.x <= TextureMaximumSize && r.0.y <= TextureMaximumSize
    ensures extent.x == extent.y ==> r.0.x == r.0.y
    decreases TextureMaximumSize - extent.x
  {
    if need >= extent.y || sx >= extent.x then
      if 2 * extent.x <= TextureMaximumSize && 2 * extent.y <= TextureMaximumSize then
        Grow(UVec2(2 * extent.x, 2 * extent.y), need, sx)
      else
        (extent, false)
    else
      (extent, true)
  }

  /** When the new row and the glyph already fit, the texture keeps its
      size. */
  lemma GrowNotNeeded(extent: UVec2, need: nat, sx: nat)
    requires 0 < extent.x && need < extent.y && sx < extent.x
    ensures Grow(extent, need, sx) == (extent, true)
  {
  }

  /** A new row is itself a row the glyph passes the tests for. */
  lemma NewRowFits(nextRow: nat, size: UVec2, extentX: nat)
    requires 0 < size.y && size.x < extentX
    ensures Fits(Row(0, nextRow, RowHeight(size.y)), size, extentX)
  {
  }

  /** Where `findGlyphRect` leaves a page: the rectangle (or the error), the
      rows, the next row top and the texture extent. */
  datatype Placement = Placement(result: Result<Rect.Rect>, rows: seq<Row>, nextRow: nat, extent: UVec2)

  /** The row `findGlyphRect` uses: the first to fit, or a new last one. */
  function PlaceRow(rows: seq<Row>, size: UVec2, extentX: nat): nat
  {
    match FirstFit(rows, size, extentX)
    case Some(i) => i
    case None => |rows|
  }

  const FullMessage: string := "Failed to add a new character to the font: the maximum texture size has been reached"

  /** `findGlyphRect(page, size)` on a page's rows, next row and extent. */
  function Place(rows: seq<Row>, nextRow: nat, extent: UVec2, size: UVec2): Placement
    requires 0 < extent.x
  {
    match FirstFit(rows, size, extent.x)
    case Some(i) =>
      Placement(Ok(Rect.Rect(rows[i].width, rows[i].top, size.x, size.y)),
                rows[i := rows[i].(width := rows[i].width + size.x)], nextRow, extent)
    case None =>
      var h := RowHeight(size.y);
      var g := Grow(extent, nextRow + h, size.x);
      if !g.1 then Placement(Err(FullMessage), rows, nextRow, g.0)
      else Placement(Ok(Rect.Rect(0, nextRow, size.x, size.y)), rows + [Row(size.x, nextRow, h)], nextRow + h, g.0)
  }

  /** `Place` when row i is the first to fit. */
  lemma PlaceFound(rows: seq<Row>, nextRow: nat, extent: UVec2, size: UVec2, i: nat)
    requires 0 < extent.x && FirstFit(rows, size, extent.x) == Some(i)
    ensures Place(rows, nextRow, extent, size) ==
      Placement(Ok(Rect.Rect(rows[i].width, rows[i].top, size.x, size.y)),
                rows[i := rows[i].(width := rows[i].width + size.x)], nextRow, extent)
  {
  }

  /** `Place` when no row fits. */
  lemma PlaceNotFound(rows: seq<Row>, nextRow: nat, extent: UVec2, size: UVec2)
    requires 0 < extent.x && FirstFit(rows, size, extent.x) == None
    ensures var g := Grow(extent, nextRow + RowHeight(size.y), size.x);
      Place(rows, nextRow, extent, size) ==
        if !g.1 then Placement(Err(FullMessage), rows, nextRow, g.0)
        else Placement(Ok(Rect.Rect(0, nextRow, size.x, size.y)), rows + [Row(size.x, nextRow, RowHeight(size.y))],
                       nextRow + RowHeight(size.y), g.0)
  {
  }

  /** Two areas share no texel. */
  predicate Apart(a: Area, b: Area)
  {
    a.x + a.w <= b.x || b.x + b.w <= a.x || a.y + a.h <= b.y || b.y + b.h <= a.y
  }

  /** An area lies in the filled part of a row. */
  predicate InRow(a: Area, r: Row)
  {
    a.x + a.w <= r.width && r.top <= a.y && a.y + a.h <= r.top + r.height
  }

  /** The rows lie one under another between the white square and the next
      row top, within the texture; every area handed out lies in the filled
      part of its row, and no two areas overlap. */
  predicate Packing(rows: seq<Row>, nextRow: nat, extent: UVec2, areas: seq<Area>, owner: seq<nat>)
  {
    0 < extent.x <= TextureMaximumSize && 0 < extent.y <= TextureMaximumSize &&
    FirstRow <= nextRow < extent.y &&
    (forall i :: 0 <= i < |rows| ==>
       0 < rows[i].height && FirstRow <= rows[i].top && rows[i].top + rows[i].height <= nextRow &&
       rows[i].width <= extent.x) &&
    (forall i, j :: 0 <= i < j < |rows| ==> rows[i].top + rows[i].height <= rows[j].top) &&
    |owner| == |areas| &&
    (forall k :: 0 <= k < |areas| ==> owner[k] < |rows| && InRow(areas[k], rows[owner[k]])) &&
    (forall k, l :: 0 <= k < l < |areas| ==> Apart(areas[k], areas[l]))
  }

  /** The area a returned rectangle covers. */
  function AreaOf(r: Rect.Rect): Area
    requires 0 <= r.left && 0 <= r.top && 0 <= r.width && 0 <= r.height
  {
    Area(r.left, r.top, r.width, r.height)
  }

  /** Handing out the left end of the free part of a fitting row keeps the
      packing. */
  lemma {:induction false} PlaceInRow(rows: seq<Row>, nextRow: nat, extent: UVec2, areas: seq<Area>, owner: seq<nat>,
                                      i: nat, size: UVec2)
    requires Packing(rows, nextRow, extent, areas, owner)
    requires i < |rows| && Fits(rows[i], size, extent.x)
    ensures Packing(rows[i := rows[i].(width := rows[i].width + size.x)], nextRow, extent,
                    areas + [Area(rows[i].width, rows[i].top, size.x, size.y)], owner + [i])
  {
    var a := Area(rows[i].width, rows[i].top, size.x, size.y);
    var rows' := rows[i := rows[i].(width := rows[i].width + size.x)];
    var areas' := areas + [a];
    var owner' := owner + [i];
    forall k | 0 <= k < |areas'|
      ensures owner'[k] < |rows'| && InRow(areas'[k], rows'[owner'[k]])
    {
      if k < |areas| {
        assert InRow(areas[k], rows[owner[k]]);
      }
    }
    forall k, l | 0 <= k < l < |areas'|
      ensures Apart(areas'[k], areas'[l])
    {
      if l == |areas| {
        var j := owner[k];
        assert InRow(areas[k], rows[j]);
        if j < i {
          assert rows[j].top + rows[j].height <= rows[i].top;
        } else if i < j {
          assert rows[i].top + rows[i].height <= rows[j].top;
        }
      }
    }
  }

  /** Opening a row at the next row top, inside the texture, keeps the
      packing. */
  lemma OpenRow(rows: seq<Row>, nextRow: nat, extent: UVec2, areas: seq<Area>, owner: seq<nat>, h: nat)
    requires Packing(rows, nextRow, extent, areas, owner)
    requires 0 < h && nextRow + h < extent.y
    ensures Packing(rows + [Row(0, nextRow, h)], nextRow + h, extent, areas, owner)
  {
    var rows' := rows + [Row(0, nextRow, h)];
    forall i | 0 <= i < |rows|
      ensures rows'[i] == rows[i] && rows'[i].top + rows'[i].height <= nextRow
    {
    }
    forall k | 0 <= k < |areas|
      ensures owner[k] < |rows'| && InRow(areas[k], rows'[owner[k]])
    {
      assert rows'[owner[k]] == rows[owner[k]];
    }
  }

  /** A larger texture, within the maximum, keeps the packing. */
  lemma Widen(rows: seq<Row>, nextRow: nat, extent: UVec2, areas: seq<Area>, owner: seq<nat>, bigger: UVec2)
    requires Packing(rows, nextRow, extent, areas, owner)
    requires extent.x <= bigger.x <= TextureMaximumSize && extent.y <= bigger.y <= TextureMaximumSize
    ensures Packing(rows, nextRow, bigger, areas, owner)
  {
  }

  /** Opening a row for a glyph and handing out its left end keeps the
      packing. */
  lemma {:induction false} PlaceNewRow(rows: seq<Row>, nextRow: nat, extent: UVec2, areas: seq<Area>, owner: seq<nat>,
                                       size: UVec2)
    requires Packing(rows, nextRow, extent, areas, owner) && 0 < size.y
    requires nextRow + RowHeight(size.y) < extent.y && size.x < extent.x
    ensures Packing(rows + [Row(size.x, nextRow, RowHeight(size.y))], nextRow + RowHeight(size.y), extent,
                    areas + [Area(0, nextRow, size.x, size.y)], owner + [|rows|])
  {
    var h := RowHeight(size.y);
    OpenRow(rows, nextRow, extent, areas, owner, h);
    NewRowFits(nextRow, size, extent.x);
    var rows' := rows + [Row(0, nextRow, h)];
    PlaceInRow(rows', nextRow + h, extent, areas, owner, |rows|, size);
    assert rows'[|rows| := rows'[|rows|].(width := size.x)] == rows + [Row(size.x, nextRow, h)];
  }

  /** `findGlyphRect` keeps the packing: the rectangle it returns becomes a
      new area that overlaps none handed out before, in the row it used. */
  lemma PlaceKeeps(rows: seq<Row>, nextRow: nat, extent: UVec2, areas: seq<Area>, owner: seq<nat>, size: UVec2)
    requires Packing(rows, nextRow, extent, areas, owner) && 0 < size.x && 0 < size.y
    ensures var p := Place(rows, nextRow, extent, size);
      p.result.Ok? ==>
        0 <= p.result.value.left && 0 <= p.result.value.top &&
        p.result.value.width == size.x && p.result.value.height == size.y &&
        Packing(p.rows, p.nextRow, p.extent, areas + [AreaOf(p.result.value)], owner + [PlaceRow(rows, size, extent.x)])
    ensures var p := Place(rows, nextRow, extent, size);
      p.result.Err? ==> Packing(p.rows, p.nextRow, p.extent, areas, owner)
  {
    var p := Place(rows, nextRow, extent, size);
    match FirstFit(rows, size, extent.x)
    case Some(i) =>
      assert p.rows == rows[i := rows[i].(width := rows[i].width + size.x)];
      assert p.result == Ok(Rect.Rect(rows[i].width, rows[i].top, size.x, size.y));
      PlaceInRow(rows, nextRow, extent, areas, owner, i, size);
    case None =>
      var g := Grow(extent, nextRow + RowHeight(size.y), size.x);
      Widen(rows, nextRow, extent, areas, owner, g.0);
      if g.1 {
        assert p.result == Ok(Rect.Rect(0, nextRow, size.x, size.y));
        assert p.rows == rows + [Row(size.x, nextRow, RowHeight(size.y))];
        PlaceNewRow(rows, nextRow, g.0, areas, owner, size);
      } else {
        assert p == Placement(Err(FullMessage), rows, nextRow, g.0);
      }
  }

  /** Every area lies inside the texture and below the white square of
      texels (0..1, 0..1) a page starts with. */
  lemma AreasInside(rows: seq<Row>, nextRow: nat, extent: UVec2, areas: seq<Area>, owner: seq<nat>, k: nat)
    requires Packing(rows, nextRow, extent, areas, owner) && k < |areas|
    ensures areas[k].x + areas[k].w <= extent.x && areas[k].y + areas[k].h <= extent.y
    ensures FirstRow <= areas[k].y
  {
    assert InRow(areas[k], rows[owner[k]]);
  }

  /** What a page writes into its texture: the whole starting image, or a
      rectangle of RGBA bytes. */
  datatype Upload = WholeImage(texels: seq<Color>) | Region(dest: UVec2, size: UVec2, bytes: seq<u8>)

  /** `Colors::White` and `Colors::Transparent` as texels: all ones and
      all zero (`TexelColors`). */
  const WhiteTexel: Color := Color(255, 255, 255, 255)
  const TransparentTexel: Color := Color(0, 0, 0, 0)

  /** The texel constants are the colours of the two words. */
  lemma TexelColors()
    ensures WhiteTexel == FromColors(White) && TransparentTexel == FromColors(Transparent)
  {
    WhiteIsAllOnes();
    TransparentAndAquaCyan();
  }

  /** Texel k of a side x side image is `on` at (0, 0), (1, 0), (0, 1) and
      (1, 1), index y * side + x, and `off` elsewhere. */
  predicate CornerTexel(s: seq<Color>, k: nat, side: nat, on: Color, off: Color)
    requires k < |s|
  {
    s[k] == if k == 0 || k == 1 || k == side || k == side + 1 then on else off
  }

  /** s is a side x side image of `off` texels with an `on` 2 x 2 square at
      the origin. */
  predicate CornerSquare(s: seq<Color>, side: nat, on: Color, off: Color)
  {
    |s| == side * side && forall k :: 0 <= k < |s| ==> CornerTexel(s, k, side, on, off)
  }

  /** Writing the four corner texels into a blank image gives the corner
      square. */
  lemma CornerWrites(blank: seq<Color>, side: nat, on: Color, off: Color)
    requires 2 <= side && |blank| == side * side
    requires forall k :: 0 <= k < |blank| ==> blank[k] == off
    ensures CornerSquare(blank[0 := on][side := on][1 := on][side + 1 := on], side, on, off)
  {
    assert side + 1 < side * side;
  }

  /** The four writes of the page constructor, `at(x, y)` being index
      side * y + x of a side x side image. */
  method WriteCorner(pixels: array<Color>, side: nat, on: Color)
    requires 2 <= side && pixels.Length == side * side
    modifies pixels
    ensures pixels[..] == old(pixels[..])[0 := on][side := on][1 := on][side + 1 := on]
  {
    assert side + 1 < side * side by {
      MulMono(side, 2, side);
    }
    pixels[side * 0 + 0] := on;
    pixels[side * 1 + 0] := on;
    pixels[side * 0 + 1] := on;
    pixels[side * 1 + 1] := on;
  }

  /** The image a page starts with: a side x side image filled with `off`,
      and `on` written at (0, 0), (0, 1), (1, 0) and (1, 1). */
  method CornerImage(side: nat, on: Color, off: Color) returns (texels: seq<Color>)
    requires 2 <= side && side * side < TWO_32
    ensures CornerSquare(texels, side, on, off)
  {
    var image := NewFilledColorImage(off, side, side);
    var pixels := image.pixels;
    ghost var blank := pixels[..];
    assert forall k :: 0 <= k < |blank| ==> blank[k] == off by {
      assert blank == image.Contents();
    }
    WriteCorner(pixels, image.width, on);
    CornerWrites(blank, side, on, off);
    texels := pixels[..];
  }

  /** `Font::Page`: the glyph table, the atlas texture (its extent and the
      uploads into it), the next row top and the rows. The areas handed out
      so far and their rows are ghost. */
  class Page {
    var glyphs: map<nat, Glyph>
    var extent: UVec2
    var uploads: seq<Upload>
    var nextRow: nat
    var rows: seq<Row>
    ghost var areas: seq<Area>
    ghost var owner: seq<nat>

    ghost predicate Valid()
      reads this`rows, this`nextRow, this`extent, this`areas, this`owner
    {
      Packing(rows, nextRow, extent, areas, owner)
    }

    /** `Page(smooth)`: a 128 x 128 transparent image with a white 2 x 2
        square at the origin becomes the texture (created at the image's
        extent), there are no rows, and the first row top is 3. The flag is
        not used. */
    constructor (smooth: bool)
      ensures Valid()
      ensures glyphs == map[] && extent == UVec2(PageSize, PageSize) && nextRow == FirstRow
      ensures rows == [] && areas == [] && owner == []
      ensures |uploads| == 1 && uploads[0].WholeImage?
      ensures CornerSquare(uploads[0].texels, PageSize, WhiteTexel, TransparentTexel)
    {
      var texels := CornerImage(PageSize, WhiteTexel, TransparentTexel);
      glyphs := map[];
      extent := UVec2(PageSize, PageSize);
      nextRow := FirstRow;
      rows := [];
      areas := [];
      owner := [];
      uploads := [WholeImage(texels)];
    }

    /** The row loop of `findGlyphRect`: it stops at the first row that
        passes the tests. (Its best-ratio test never rejects a row: the
        best ratio is 0 until a row is chosen, and then the loop ends.) */
    method SearchRows(size: UVec2) returns (found: Option<nat>)
      ensures found == FirstFit(rows, size, extent.x)
    {
      found := None;
      var i := 0;
      while i < |rows| && found.None?
        invariant 0 <= i <= |rows|
        invariant found.None? ==> forall j :: 0 <= j < i ==> !Fits(rows[j], size, extent.x)
        invariant found.Some? ==> found.value + 1 == i && Fits(rows[found.value], size, extent.x)
        invariant found.Some? ==> forall j :: 0 <= j < found.value ==> !Fits(rows[j], size, extent.x)
      {
        if Fits(rows[i], size, extent.x) {
          found := Some(i);
        }
        i := i + 1;
      }
      FirstFitUnique(rows, size, extent.x, found);
    }

    /** The doubling loop of `findGlyphRect`: double the texture while the
        row ending at `need` or the glyph width `sx` does not fit, and stop
        with false when the maximum size would be passed. */
    method GrowTexture(need: nat, sx: nat) returns (ok: bool)
      requires 0 < extent.x
      modifies this`extent
      ensures (extent, ok) == Grow(old(extent), need, sx)
    {
      while need >= extent.y || sx >= extent.x
        invariant 0 < extent.x
        invariant Grow(extent, need, sx) == Grow(old(extent), need, sx)
        decreases TextureMaximumSize - extent.x
      {
        if 2 * extent.x <= TextureMaximumSize && 2 * extent.y <= TextureMaximumSize {
          extent := UVec2(2 * extent.x, 2 * extent.y);
        } else {
          return false;
        }
      }
      return true;
    }

    /** Hands out the left end of the free part of fitting row i and
        widens the row by the glyph. */
    method UseRow(i: nat, size: UVec2) returns (r: Result<Rect.Rect>)
      requires Valid() && i < |rows| && Fits(rows[i], size, extent.x)
      modifies this`rows, this`areas, this`owner
      ensures Valid()
      ensures r == Ok(Rect.Rect(old(rows)[i].width, old(rows)[i].top, size.x, size.y))
      ensures rows == old(rows)[i := old(rows)[i].(width := old(rows)[i].width + size.x)]
      ensures areas == old(areas) + [Area(old(rows)[i].width, old(rows)[i].top, size.x, size.y)]
    {
      PlaceInRow(rows, nextRow, extent, areas, owner, i, size);
      var row := rows[i];
      r := Ok(Rect.Rect(row.width, row.top, size.x, size.y));
      rows := rows[i := row.(width := row.width + size.x)];
      areas := areas + [Area(row.width, row.top, size.x, size.y)];
      owner := owner + [i];
    }

    /** The doubling loop for a new row for a glyph of `size`, keeping the
        packing. */
    method GrowForRow(size: UVec2) returns (ok: bool)
      requires Valid()
      modifies this`extent
      ensures Valid()
      ensures (extent, ok) == Grow(old(extent), nextRow + RowHeight(size.y), size.x)
    {
      ghost var before := extent;
      ok := GrowTexture(nextRow + RowHeight(size.y), size.x);
      Widen(rows, nextRow, before, areas, owner, extent);
    }

    /** Opens a row 10% taller than the glyph at the next row top, in a
        texture already large enough, and uses its left end. */
    method UseNewRow(size: UVec2) returns (r: Result<Rect.Rect>)
      requires Valid() && 0 < size.y
      requires nextRow + RowHeight(size.y) < extent.y && size.x < extent.x
      modifies this`rows, this`nextRow, this`areas, this`owner
      ensures Valid()
      ensures r == Ok(Rect.Rect(0, old(nextRow), size.x, size.y))
      ensures rows == old(rows) + [Row(size.x, old(nextRow), RowHeight(size.y))]
      ensures nextRow == old(nextRow) + RowHeight(size.y)
      ensures areas == old(areas) + [Area(0, old(nextRow), size.x, size.y)]
    {
      PlaceNewRow(rows, nextRow, extent, areas, owner, size);
      var h := RowHeight(size.y);
      var n := |rows|;
      rows := rows + [Row(0, nextRow, h)];
      var row := rows[n];
      r := Ok(Rect.Rect(row.width, row.top, size.x, size.y));
      rows := rows[n := row.(width := row.width + size.x)];
      nextRow := nextRow + h;
      areas := areas + [Area(row.width, row.top, size.x, size.y)];
      owner := owner + [n];
    }

    /** `findGlyphRect(page, size)`: the pure `Place`, and the area handed
        out recorded, which by `PlaceKeeps` overlaps no earlier one. */
    method FindGlyphRect(size: UVec2) returns (r: Result<Rect.Rect>)
      requires Valid() && 0 < size.x && 0 < size.y
      modifies this`rows, this`nextRow, this`extent, this`areas, this`owner
      ensures Valid()
      ensures Place(old(rows), old(nextRow), old(extent), size) == Placement(r, rows, nextRow, extent)
      ensures r.Ok? ==> 0 <= r.value.left && 0 <= r.value.top && r.value.width == size.x && r.value.height == size.y
      ensures r.Ok? ==> areas == old(areas) + [AreaOf(r.value)]
      ensures r.Err? ==> areas == old(areas)
    {
      ghost var p := Place(rows, nextRow, extent, size);
      var found := SearchRows(size);
      if found.Some? {
        PlaceFound(rows, nextRow, extent, size, found.value);
        r := UseRow(found.value, size);
        assert Placement(r, rows, nextRow, extent) == p;
        return;
      }
      PlaceNotFound(rows, nextRow, extent, size);
      var ok := GrowForRow(size);
      if !ok {
        r := Err(FullMessage);
        assert Placement(r, rows, nextRow, extent) == p;
        return;
      }
      r := UseNewRow(size);
      assert Placement(r, rows, nextRow, extent) == p;
    }

    /** The nonempty-bitmap branch of `loadGlyph` on this page: pack the
        bitmap's padded size, take the glyph's texture rectangle and
        bounds, fill the pixel buffer and upload it over the padded area.
        A full page raises before anything is rendered. */
    method PackGlyph(ft: FaceAnswer, bold: bool) returns (r: Result<Glyph>, buf: seq<u8>)
      requires Valid() && Readable(ft.bitmap) && Nonempty(ft.bitmap)
      modifies this`rows, this`nextRow, this`extent, this`areas, this`owner, this`uploads
      ensures Valid()
      ensures r.Err? ==> r == Err(FullMessage) && areas == old(areas) && uploads == old(uploads)
      ensures r.Ok? ==> Packed(ft, bold, r.value, buf, areas, uploads)
      ensures r.Ok? ==> areas == old(areas) + [areas[|areas| - 1]] && uploads == old(uploads) + [uploads[|uploads| - 1]]
    {
      var b := ft.bitmap;
      var padded := UVec2(b.width + 2 * Padding, |b.lines| + 2 * Padding);
      var rect := FindGlyphRect(padded);
      if rect.Err? {
        r, buf := Err(rect.message), [];
        return;
      }
      var glyph := Metrics(ft, bold).(
        textureRect := Rect.Rect(rect.value.left + Padding, rect.value.top + Padding,
                                 rect.value.width - 2 * Padding, rect.value.height - 2 * Padding),
        bounds := FloatRect(ft.left as real, (-ft.top) as real, b.width as real, |b.lines| as real));
      buf := FillGlyphBuffer(b);
      var dest := UVec2(glyph.textureRect.left - Padding, glyph.textureRect.top - Padding);
      var updateSize := UVec2(glyph.textureRect.width + 2 * Padding, glyph.textureRect.height + 2 * Padding);
      uploads := uploads + [Region(dest, updateSize, buf)];
      r := Ok(glyph);
    }
  }

  // ---------------------------------------------------------------------
  // The glyph pixel buffer

  /** A rendered FreeType bitmap, row by row: row y holds the bytes that
      start at buffer + y * pitch. A mono bitmap holds eight pixels per
      byte, the first in the most significant bit. */
  datatype Bitmap = Bitmap(width: nat, mono: bool, lines: seq<seq<u8>>)

  /** Every row holds the bytes its pixels are read from. */
  predicate Readable(b: Bitmap)
  {
    forall y :: 0 <= y < |b.lines| ==> (if b.mono then (b.width + 7) / 8 else b.width) <= |b.lines[y]|
  }

  /** `byte & (1 << (7 - k))` is nonzero. */
  predicate MonoBit(byte: u8, k: nat)
    requires k < 8
  {
    (byte as bv8) & ((1 as bv8) << (7 - k)) != 0
  }

  /** The coverage of pixel (x, y) of the bitmap: 255 or 0 from its bit
      for a mono bitmap, its byte otherwise. */
  function Alpha(b: Bitmap, x: nat, y: nat): u8
    requires Readable(b) && x < b.width && y < |b.lines|
  {
    if b.mono then (if MonoBit(b.lines[y][x / 8], x % 8) then 255 else 0)
    else b.lines[y][x]
  }

  /** Mono pixels are read most significant bit first: pixel 8j is the top
      bit of byte j, pixel 8j + 7 its bottom bit. */
  lemma MonoMsbFirst(b: Bitmap, j: nat, y: nat)
    requires Readable(b) && b.mono && y < |b.lines| && 8 * j + 7 < b.width
    ensures Alpha(b, 8 * j, y) == if b.lines[y][j] >= 128 then 255 else 0
    ensures Alpha(b, 8 * j + 7, y) == if b.lines[y][j] % 2 == 1 then 255 else 0
  {
    var v := b.lines[y][j];
    assert (8 * j) / 8 == j && (8 * j) % 8 == 0;
    assert (8 * j + 7) / 8 == j && (8 * j + 7) % 8 == 7;
    assert MonoBit(v, 0) <==> v >= 128 by {
      assert (v as bv8) & 0x80 != 0 <==> v >= 128;
    }
    assert MonoBit(v, 7) <==> v % 2 == 1 by {
      assert (v as bv8) & 1 != 0 <==> v % 2 == 1;
    }
  }

  /** The side lengths of the padded glyph image. */
  function PaddedWidth(b: Bitmap): nat { b.width + 2 * Padding }
  function PaddedHeight(b: Bitmap): nat { |b.lines| + 2 * Padding }

  /** Byte c of an untouched texel: white and transparent. */
  function BlankByte(c: nat): u8
  {
    if c < 3 then 255 else 0
  }

  /** Byte c of texel (x, y) of the padded glyph image: white, with the
      bitmap's coverage as alpha inside the padding and 0 on it. */
  function GlyphByte(b: Bitmap, x: nat, y: nat, c: nat): u8
    requires Readable(b)
  {
    if c < 3 then 255
    else if Padding <= x < b.width + Padding && Padding <= y < |b.lines| + Padding then Alpha(b, x - Padding, y - Padding)
    else 0
  }

  /** `index = x + y * size.x`: the texel's place in row-major order. */
  function Index(w: nat, x: nat, y: nat): nat
  {
    x + y * w
  }

  /** Byte c of texel i of a buffer of 4-byte texels, or -1 past its end. */
  function Flat(buf: seq<u8>, i: nat, c: nat): int
  {
    if 4 * i + c < |buf| then buf[4 * i + c] else -1
  }

  /** Byte c of texel (x, y) of a buffer of w-texel rows, or -1. */
  function TexelByte(buf: seq<u8>, w: nat, x: nat, y: nat, c: nat): int
  {
    Flat(buf, Index(w, x, y), c)
  }

  /** buf holds the padded glyph image of b: 4 bytes per texel, rows of
      PaddedWidth texels, PaddedHeight rows. */
  ghost predicate GlyphBuffer(buf: seq<u8>, b: Bitmap)
    requires Readable(b)
  {
    var w := PaddedWidth(b);
    var h := PaddedHeight(b);
    |buf| == 4 * (w * h) &&
    forall x: nat, y: nat, c: nat :: x < w && y < h && c < 4 ==> TexelByte(buf, w, x, y, c) == GlyphByte(b, x, y, c)
  }

  /** The interior loops have written texels (x', y') with y' < y, or
      y' == y and x' < x. */
  ghost predicate Written(b: Bitmap, x: nat, y: nat, px: nat, py: nat)
  {
    py < y || (py == y && px < x)
  }

  /** The buffer after the interior loops reached texel (x, y): written
      texels are final, the others blank. */
  ghost predicate Staged(buf: seq<u8>, b: Bitmap, x: nat, y: nat)
    requires Readable(b)
  {
    var w := PaddedWidth(b);
    var h := PaddedHeight(b);
    |buf| == 4 * (w * h) &&
    forall px: nat, py: nat, c: nat :: px < w && py < h && c < 4 ==>
      TexelByte(buf, w, px, py, c) == if Written(b, x, y, px, py) then GlyphByte(b, px, py, c) else BlankByte(c)
  }

  /** After the fill loop every texel is blank: the interior loops start. */
  lemma Blanked(buf: seq<u8>, b: Bitmap)
    requires Readable(b) && |buf| == 4 * (PaddedWidth(b) * PaddedHeight(b))
    requires forall i: nat, c: nat :: i < PaddedWidth(b) * PaddedHeight(b) && c < 4 ==> Flat(buf, i, c) == BlankByte(c)
    ensures Staged(buf, b, Padding, Padding)
  {
    var w := PaddedWidth(b);
    var h := PaddedHeight(b);
    forall px: nat, py: nat, c: nat | px < w && py < h && c < 4
      ensures TexelByte(buf, w, px, py, c) == if Written(b, Padding, Padding, px, py) then GlyphByte(b, px, py, c) else BlankByte(c)
    {
      RowMajor(w, h, px, py, 0, 0);
    }
  }

  /** Writing the alpha byte of texel (x, y) changes no byte of another
      texel and no other byte of that one. */
  lemma WriteAlpha(buf: seq<u8>, w: nat, h: nat, x: nat, y: nat, v: u8, px: nat, py: nat, c: nat)
    requires x < w && y < h && px < w && py < h && c < 4 && |buf| == 4 * (w * h)
    ensures 4 * Index(w, x, y) + 3 < |buf|
    ensures TexelByte(buf[4 * Index(w, x, y) + 3 := v], w, px, py, c) ==
      if px == x && py == y && c == 3 then v as int else TexelByte(buf, w, px, py, c)
  {
    RowMajor(w, h, px, py, x, y);
    RowMajor(w, h, x, y, x, y);
    if px != x || py != y {
      assert Index(w, px, py) != Index(w, x, y);
    }
  }

  /** Writing the alpha of interior texel (x, y) moves the stage on by one
      texel. */
  lemma StepTexel(buf: seq<u8>, b: Bitmap, x: nat, y: nat)
    requires Readable(b) && Staged(buf, b, x, y)
    requires Padding <= x < b.width + Padding && Padding <= y < |b.lines| + Padding
    ensures 4 * Index(PaddedWidth(b), x, y) + 3 < |buf|
    ensures Staged(buf[4 * Index(PaddedWidth(b), x, y) + 3 := Alpha(b, x - Padding, y - Padding)], b, x + 1, y)
  {
    var w := PaddedWidth(b);
    var h := PaddedHeight(b);
    var v := Alpha(b, x - Padding, y - Padding);
    WriteAlpha(buf, w, h, x, y, v, x, y, 0);
    var buf' := buf[4 * Index(w, x, y) + 3 := v];
    forall px: nat, py: nat, c: nat | px < w && py < h && c < 4
      ensures TexelByte(buf', w, px, py, c) == if Written(b, x + 1, y, px, py) then GlyphByte(b, px, py, c) else BlankByte(c)
    {
      WriteAlpha(buf, w, h, x, y, v, px, py, c);
    }
  }

  /** The end of an interior row is the start of the next one: the texels
      in between are padding. */
  lemma NextRow(buf: seq<u8>, b: Bitmap, y: nat)
    requires Readable(b) && Staged(buf, b, b.width + Padding, y)
    ensures Staged(buf, b, Padding, y + 1)
  {
  }

  /** Past the last interior row the buffer is the padded glyph image. */
  lemma Finished(buf: seq<u8>, b: Bitmap)
    requires Readable(b) && Staged(buf, b, Padding, |b.lines| + Padding)
    ensures GlyphBuffer(buf, b)
  {
  }

  /** The pixel-buffer part of `loadGlyph`: resize the buffer to the padded
      size, fill it with white transparent texels, then copy the bitmap's
      coverage into the alpha of the interior texels, row by row. (The
      code has one loop nest per pixel mode; here the mode is checked per
      texel.) */
  method FillGlyphBuffer(b: Bitmap) returns (buf: seq<u8>)
    requires Readable(b) && 0 < b.width && 0 < |b.lines|
    ensures GlyphBuffer(buf, b)
  {
    var w := b.width + 2 * Padding;
    var h := |b.lines| + 2 * Padding;
    buf := seq(4 * (w * h), _ => 0);
    var n := 0;
    while n < w * h
      invariant 0 <= n <= w * h && |buf| == 4 * (w * h)
      invariant forall i: nat, c: nat :: i < n && c < 4 ==> Flat(buf, i, c) == BlankByte(c)
    {
      ghost var before := buf;
      buf := buf[4 * n := 255][4 * n + 1 := 255][4 * n + 2 := 255][4 * n + 3 := 0];
      forall i: nat, c: nat | i < n + 1 && c < 4
        ensures Flat(buf, i, c) == BlankByte(c)
      {
        if i < n {
          assert Flat(before, i, c) == BlankByte(c);
        } else {
          assert c == 0 || c == 1 || c == 2 || c == 3;
        }
      }
      n := n + 1;
    }
    Blanked(buf, b);
    var y := Padding;
    while y < h - Padding
      invariant Padding <= y <= h - Padding
      invariant Staged(buf, b, Padding, y)
    {
      var x := Padding;
      while x < w - Padding
        invariant Padding <= x <= w - Padding
        invariant Staged(buf, b, x, y)
      {
        var index := x + y * w;
        StepTexel(buf, b, x, y);
        buf := buf[index * 4 + 3 := Alpha(b, x - Padding, y - Padding)];
        x := x + 1;
      }
      NextRow(buf, b, y);
      y := y + 1;
    }
    Finished(buf, b);
  }

  // ---------------------------------------------------------------------
  // The font

  /** `FT_Err_Ok` and `FT_Err_Invalid_Pixel_Size`. */
  const FtOk: int := 0
  const FtInvalidPixelSize: int := 0x17

  /** The decimal digit d as a character. */
  function DigitChar(d: nat): char
    requires d < 10
  {
    (48 + d) as char
  }

  /** The number a string of decimal digits spells. */
  function DigitsValue(s: string): nat
    requires forall i :: 0 <= i < |s| ==> '0' <= s[i] <= '9'
  {
    if |s| == 0 then 0 else 10 * DigitsValue(s[..|s| - 1]) + (s[|s| - 1] as int - 48)
  }

  /** `std::to_string` of a natural number: its decimal digits, most
      significant first, with a leading zero only for zero itself. */
  function Decimal(n: nat): (r: string)
    ensures |r| >= 1 && forall i :: 0 <= i < |r| ==> '0' <= r[i] <= '9'
    ensures n > 0 ==> r[0] != '0'
  {
    if n < 10 then [DigitChar(n)] else Decimal(n / 10) + [DigitChar(n % 10)]
  }

  /** The digits `Decimal` prints spell the number back. */
  lemma {:induction false} DecimalRoundTrip(n: nat)
    ensures DigitsValue(Decimal(n)) == n
  {
    if n >= 10 {
      var r := Decimal(n);
      assert r[..|r| - 1] == Decimal(n / 10);
      DecimalRoundTrip(n / 10);
    }
  }

  /** The message of the size check, naming the size asked for. */
  function SizeMessage(size: nat): string
  {
    "Failed to set bitmap font size to " + Decimal(size)
  }
  const OutlineMessage: string := "Failed to outline glyph (no fallback available)"

  /** What FreeType answers while one glyph is loaded: the face's current
      pixel size, the results of `FT_Set_Pixel_Sizes`, `FT_Load_Char` and
      `FT_Get_Glyph`, whether the glyph is an outline, the rendered glyph's
      advance (16.16 fixed point), the face glyph's hinting deltas, the
      bitmap's offsets, and the bitmap itself (emboldened or stroked as
      asked). */
  datatype FaceAnswer = FaceAnswer(
    ppem: nat,
    setResult: int,
    loadResult: int,
    getResult: int,
    outline: bool,
    advanceX: int,
    lsbDelta: int,
    rsbDelta: int,
    left: int,
    top: int,
    bitmap: Bitmap)

  /** `setCurrentSize(size)` when the face is at pixel size `current` and
      `FT_Set_Pixel_Sizes` would answer `result`. The check macro raises
      when its condition holds, so a resize raises unless FreeType reports
      an invalid pixel size, and then the answer is false. */
  function SetCurrentSize(current: nat, size: nat, result: int): (r: Result<bool>)
    ensures r == Ok(true) <==> current == size
    ensures r == Ok(false) <==> current != size && result == FtInvalidPixelSize
    ensures r.Err? <==> current != size && result != FtInvalidPixelSize
  {
    if current != size then
      if result != FtInvalidPixelSize then Err(SizeMessage(size)) else Ok(result == FtOk)
    else Ok(true)
  }

  /** The ways `loadGlyph` ends before it renders: without a face, or when
      the size cannot be set or FreeType cannot load the glyph, it returns
      the empty glyph; a size change raises; a bitmap (not outline) glyph
      raises when the outline thickness is zero, the check macro raising
      when its condition holds. None: rendering goes on. */
  function EarlyExit(hasFace: bool, size: nat, thickness: bv32, ft: FaceAnswer): (r: Option<Result<Glyph>>)
    ensures !hasFace ==> r == Some(Ok(EmptyGlyph))
    ensures r.None? <==> hasFace && ft.ppem == size && ft.loadResult == 0 && ft.getResult == 0 &&
                         (ft.outline || !ThicknessZero(thickness))
    ensures hasFace && ft.ppem == size && ft.loadResult == 0 && ft.getResult == 0 && !ft.outline && ThicknessZero(thickness) ==>
              r == Some(Err(OutlineMessage))
  {
    if !hasFace then Some(Ok(EmptyGlyph))
    else match SetCurrentSize(ft.ppem, size, ft.setResult)
      case Err(e) => Some(Err(e))
      case Ok(sized) =>
        if !sized || ft.loadResult != FtOk || ft.getResult != FtOk then Some(Ok(EmptyGlyph))
        else if !ft.outline && ThicknessZero(thickness) then Some(Err(OutlineMessage))
        else None
  }

  /** The metrics `loadGlyph` sets for every rendered glyph: the advance is
      the integer part of the 16.16 advance (an arithmetic shift, so the
      floor), plus one pixel when bold, and the deltas are the face
      glyph's. */
  function Metrics(ft: FaceAnswer, bold: bool): (g: Glyph)
    ensures g.advance == (ft.advanceX / 65536) as real + (if bold then 1.0 else 0.0)
    ensures g.lsbDelta == ft.lsbDelta && g.rsbDelta == ft.rsbDelta
    ensures g.bounds == EmptyGlyph.bounds && g.textureRect == EmptyGlyph.textureRect
  {
    var g := EmptyGlyph.(advance := (ft.advanceX / 65536) as real, lsbDelta := ft.lsbDelta, rsbDelta := ft.rsbDelta);
    if bold then g.(advance := g.advance + 1.0) else g
  }

  /** The bitmap has pixels: `loadGlyph` packs it. */
  predicate Nonempty(b: Bitmap)
  {
    0 < b.width && 0 < |b.lines|
  }

  /** The glyph of a packed bitmap placed in area a: the metrics, the
      bitmap's bounds (left, -top, width, rows), and the area shrunk by the
      padding on every side. */
  function Placed(ft: FaceAnswer, bold: bool, a: Area): Glyph
  {
    Metrics(ft, bold).(
      bounds := FloatRect(ft.left as real, (-ft.top) as real, ft.bitmap.width as real, |ft.bitmap.lines| as real),
      textureRect := Rect.Rect(a.x + Padding, a.y + Padding, a.w - 2 * Padding, a.h - 2 * Padding))
  }

  /** The texture rectangle of a placed glyph is exactly the bitmap's size,
      and its padded area lies inside the page texture, below the white
      square, apart from every other glyph's area. */
  lemma PlacedInPage(rows: seq<Row>, nextRow: nat, extent: UVec2, areas: seq<Area>, owner: seq<nat>,
                     ft: FaceAnswer, bold: bool)
    requires Packing(rows, nextRow, extent, areas, owner) && 0 < |areas|
    requires areas[|areas| - 1].w == ft.bitmap.width + 2 * Padding && areas[|areas| - 1].h == |ft.bitmap.lines| + 2 * Padding
    ensures var t := Placed(ft, bold, areas[|areas| - 1]).textureRect;
      t.width == ft.bitmap.width && t.height == |ft.bitmap.lines| &&
      Padding <= t.left && t.left + t.width + Padding <= extent.x &&
      FirstRow + Padding <= t.top && t.top + t.height + Padding <= extent.y
    ensures forall k :: 0 <= k < |areas| - 1 ==> Apart(areas[k], areas[|areas| - 1])
  {
    AreasInside(rows, nextRow, extent, areas, owner, |areas| - 1);
  }

  /** What a packed glyph leaves behind, given the page's areas and
      uploads after it: the newest area holds the padded bitmap, the glyph
      is placed in it, the buffer is the padded glyph image, and the newest
      upload writes that buffer over the area. */
  ghost predicate Packed(ft: FaceAnswer, bold: bool, g: Glyph, buf: seq<u8>, areas: seq<Area>, uploads: seq<Upload>)
  {
    Readable(ft.bitmap) && 0 < |areas| && 0 < |uploads| &&
    var a := areas[|areas| - 1];
    g == Placed(ft, bold, a) &&
    a.w == PaddedWidth(ft.bitmap) && a.h == PaddedHeight(ft.bitmap) &&
    GlyphBuffer(buf, ft.bitmap) &&
    uploads[|uploads| - 1] == Region(UVec2(a.x, a.y), UVec2(a.w, a.h), buf)
  }

  /** `loadGlyph` ends without packing: an early exit or an empty bitmap. */
  predicate Unpacked(hasFace: bool, size: nat, thickness: bv32, ft: FaceAnswer)
  {
    EarlyExit(hasFace, size, thickness, ft).Some? || !Nonempty(ft.bitmap)
  }

  /** What `loadGlyph` returns when it does not pack. */
  function UnpackedResult(hasFace: bool, size: nat, thickness: bv32, ft: FaceAnswer, bold: bool): Result<Glyph>
    requires Unpacked(hasFace, size, thickness, ft)
  {
    match EarlyExit(hasFace, size, thickness, ft)
    case Some(e) => e
    case None => Ok(Metrics(ft, bold))
  }

  /** `getGlyph`'s key: `FT_Get_Char_Index` is 0 without a face. The
      glyph table is keyed by the key's numeric value. */
  function GlyphKey(hasFace: bool, thickness: bv32, bold: bool, charIndex: bv32): nat
  {
    Combine(thickness, bold, if hasFace then charIndex else 0) as nat
  }

  /** The table holds g under key. */
  predicate Cached(t: map<nat, Glyph>, key: nat, g: Glyph)
  {
    key in t && t[key] == g
  }

  /** The table only gained entries. */
  predicate Grown(t: map<nat, Glyph>, t': map<nat, Glyph>)
  {
    forall k :: k in t ==> k in t' && t'[k] == t[k]
  }

  /** Inserting under a new key caches the glyph and keeps every entry. */
  lemma InsertGrows(t: map<nat, Glyph>, key: nat, g: Glyph)
    requires key !in t
    ensures Cached(t[key := g], key, g) && Grown(t, t[key := g])
  {
  }

  lemma GrownRefl(t: map<nat, Glyph>)
    ensures Grown(t, t)
  {
  }

  /** `getKerning`'s value from the two glyphs' hinting deltas and
      FreeType's kerning: the kerning itself for a face that does not
      scale, and otherwise (second.lsb - first.rsb + kerning) / 64 rounded
      to the nearest integer, halves up. */
  function KerningValue(firstRsb: int, secondLsb: int, kx: int, scalable: bool): (r: real)
    ensures !scalable ==> r == kx as real
    ensures scalable ==> r == r.Floor as real
    ensures scalable ==> 64 * r.Floor <= secondLsb - firstRsb + kx + 32 < 64 * r.Floor + 64
  {
    if !scalable then kx as real
    else
      var q := (secondLsb - firstRsb + kx + 32) / 64;
      assert 64 * q <= secondLsb - firstRsb + kx + 32 < 64 * q + 64;
      q as real
  }

  /** For a scalable face, one more pixel of kerning (64 units) moves the
      value up by exactly one, and more kerning never lowers it. */
  lemma KerningSteps(firstRsb: int, secondLsb: int, kx: int, ky: int)
    requires kx <= ky
    ensures KerningValue(firstRsb, secondLsb, kx + 64, true) == KerningValue(firstRsb, secondLsb, kx, true) + 1.0
    ensures KerningValue(firstRsb, secondLsb, kx, true) <= KerningValue(firstRsb, secondLsb, ky, true)
  {
    var a := KerningValue(firstRsb, secondLsb, kx, true).Floor;
    var b := KerningValue(firstRsb, secondLsb, kx + 64, true).Floor;
    var c := KerningValue(firstRsb, secondLsb, ky, true).Floor;
    assert 64 * a < 64 * c + 64;
    assert 64 * (a + 1) <= 64 * b + 64 && 64 * b < 64 * (a + 1) + 64;
  }

  /** `Font`: the FreeType handles (present or not), the smoothing flag,
      one page per character size, and the pixel buffer glyphs are
      rendered into. Distinct sizes have distinct pages, and every page
      keeps its packing invariant. */
  class Font {
    var hasFace: bool
    var smooth: bool
    var pages: map<nat, Page>
    var pixelBuffer: seq<u8>

    ghost predicate Valid()
      reads this, pages.Values
    {
      (forall s :: s in pages ==> pages[s].Valid()) &&
      (forall s, t :: s in pages && t in pages && s != t ==> pages[s] != pages[t])
    }

    /** `Font()`: no handles, not smooth, no pages. */
    constructor ()
      ensures Valid() && !hasFace && !smooth && pages == map[] && pixelBuffer == []
    {
      hasFace := false;
      smooth := false;
      pages := map[];
      pixelBuffer := [];
    }

    /** `cleanup()`: drop the handles, the pages and the pixel buffer. */
    method Cleanup()
      modifies this
      ensures Valid() && !hasFace && pages == map[] && pixelBuffer == [] && smooth == old(smooth)
    {
      hasFace := false;
      pages := map[];
      pixelBuffer := [];
    }

    /** `loadPage(size)`: the page of that size, created on first use
        (`try_emplace`), so there is never more than one per size. */
    method LoadPage(size: nat) returns (p: Page)
      requires Valid()
      modifies this`pages
      ensures Valid() && size in pages && p == pages[size]
      ensures size in old(pages) ==> pages == old(pages)
      ensures size !in old(pages) ==> fresh(p) && pages == old(pages)[size := p]
      ensures size !in old(pages) ==> p.glyphs == map[] && p.rows == [] && p.nextRow == FirstRow &&
                                      p.extent == UVec2(PageSize, PageSize) && p.areas == [] && |p.uploads| == 1
    {
      if size in pages {
        p := pages[size];
      } else {
        p := new Page(smooth);
        pages := pages[size := p];
      }
    }

    /** The nonempty-bitmap branch of `loadGlyph` once the size's page is
        loaded: `PackGlyph` on it, whose buffer becomes the pixel buffer. */
    method PackAt(size: nat, bold: bool, ft: FaceAnswer) returns (r: Result<Glyph>)
      requires Valid() && Readable(ft.bitmap) && Nonempty(ft.bitmap) && size in pages
      modifies this`pixelBuffer, pages[size]
      ensures Valid() && pages[size].glyphs == old(pages[size].glyphs)
      ensures r.Err? ==> r == Err(FullMessage) && pixelBuffer == old(pixelBuffer)
      ensures r.Ok? ==> Packed(ft, bold, r.value, pixelBuffer, pages[size].areas, pages[size].uploads)
    {
      var page := pages[size];
      var buf;
      r, buf := page.PackGlyph(ft, bold);
      if r.Ok? {
        pixelBuffer := buf;
      }
    }

    /** `loadGlyph(code_point, size, bold, thickness)`, FreeType answering
        ft: the early exits of `EarlyExit`; then the metrics, and for a
        nonempty bitmap `PackAt` on the size's page. */
    method LoadGlyph(size: nat, bold: bool, thickness: bv32, ft: FaceAnswer) returns (r: Result<Glyph>)
      requires Valid() && Readable(ft.bitmap)
      modifies this`pages, this`pixelBuffer, if size in pages then {pages[size]} else {}
      ensures Valid()
      ensures Unpacked(hasFace, size, thickness, ft) ==>
        r == UnpackedResult(hasFace, size, thickness, ft, bold) && pages == old(pages) && pixelBuffer == old(pixelBuffer) &&
        (size in old(pages) ==> unchanged(old(pages)[size]))
      ensures !Unpacked(hasFace, size, thickness, ft) ==>
        size in pages &&
        (size in old(pages) ==> pages == old(pages) && pages[size].glyphs == old(pages[size].glyphs)) &&
        (size !in old(pages) ==> fresh(pages[size]) && pages == old(pages)[size := pages[size]] && pages[size].glyphs == map[])
      ensures !Unpacked(hasFace, size, thickness, ft) && r.Err? ==> r == Err(FullMessage) && pixelBuffer == old(pixelBuffer)
      ensures !Unpacked(hasFace, size, thickness, ft) && r.Ok? ==>
        Packed(ft, bold, r.value, pixelBuffer, pages[size].areas, pages[size].uploads)
    {
      var early := EarlyExit(hasFace, size, thickness, ft);
      if early.Some? {
        r := early.value;
        return;
      }
      if !Nonempty(ft.bitmap) {
        r := Ok(Metrics(ft, bold));
        return;
      }
      var page := LoadPage(size);
      r := PackAt(size, bold, ft);
    }

    /** The cache miss of `getGlyph`, the size's page loaded: load the
        glyph and, unless loading raised, insert it under the key. */
    method CacheMiss(size: nat, bold: bool, thickness: bv32, key: nat, ft: FaceAnswer) returns (r: Result<Glyph>)
      requires Valid() && Readable(ft.bitmap) && size in pages && key !in pages[size].glyphs
      modifies this`pages, this`pixelBuffer, pages[size]
      ensures Valid() && pages == old(pages)
      ensures pages[size].glyphs == if r.Ok? then old(pages[size].glyphs)[key := r.value] else old(pages[size].glyphs)
      ensures Unpacked(hasFace, size, thickness, ft) ==>
        r == UnpackedResult(hasFace, size, thickness, ft, bold) && pixelBuffer == old(pixelBuffer)
      ensures !Unpacked(hasFace, size, thickness, ft) ==>
        (r.Err? ==> r == Err(FullMessage) && pixelBuffer == old(pixelBuffer)) &&
        (r.Ok? ==> Packed(ft, bold, r.value, pixelBuffer, pages[size].areas, pages[size].uploads))
      ensures r.Ok? ==> Cached(pages[size].glyphs, key, r.value)
      ensures Grown(old(pages[size].glyphs), pages[size].glyphs)
    {
      var page := pages[size];
      r := LoadGlyph(size, bold, thickness, ft);
      if r.Ok? {
        InsertGrows(page.glyphs, key, r.value);
        page.glyphs := page.glyphs[key := r.value];
      } else {
        GrownRefl(page.glyphs);
      }
    }

    /** `getGlyph(code_point, size, bold, thickness)`, `FT_Get_Char_Index`
        answering charIndex and `loadGlyph` meeting ft: the size's page is
        loaded first; a glyph cached under the key is returned with nothing
        else changed, and otherwise `CacheMiss`. */
    method GetGlyph(size: nat, bold: bool, thickness: bv32, charIndex: bv32, ft: FaceAnswer) returns (r: Result<Glyph>)
      requires Valid() && Readable(ft.bitmap)
      modifies this`pages, this`pixelBuffer, if size in pages then {pages[size]} else {}
      ensures Valid() && size in pages
      ensures size in old(pages) ==> pages == old(pages)
      ensures size !in old(pages) ==> fresh(pages[size]) && pages == old(pages)[size := pages[size]]
      ensures var key := GlyphKey(hasFace, thickness, bold, charIndex);
        var table := if size in old(pages) then old(pages[size].glyphs) else map[];
        key in table ==> r == Ok(table[key]) && pixelBuffer == old(pixelBuffer) && unchanged(pages[size])
      ensures var key := GlyphKey(hasFace, thickness, bold, charIndex);
        var table := if size in old(pages) then old(pages[size].glyphs) else map[];
        key !in table ==> pages[size].glyphs == if r.Ok? then table[key := r.value] else table
      ensures var key := GlyphKey(hasFace, thickness, bold, charIndex);
        var table := if size in old(pages) then old(pages[size].glyphs) else map[];
        key !in table && Unpacked(hasFace, size, thickness, ft) ==> r == UnpackedResult(hasFace, size, thickness, ft, bold)
      ensures var key := GlyphKey(hasFace, thickness, bold, charIndex);
        var table := if size in old(pages) then old(pages[size].glyphs) else map[];
        key !in table && !Unpacked(hasFace, size, thickness, ft) ==>
          (r.Err? ==> r == Err(FullMessage)) &&
          (r.Ok? ==> Packed(ft, bold, r.value, pixelBuffer, pages[size].areas, pages[size].uploads))
      ensures r.Ok? ==> Cached(pages[size].glyphs, GlyphKey(hasFace, thickness, bold, charIndex), r.value)
      ensures size in old(pages) ==> Grown(old(pages[size].glyphs), pages[size].glyphs)
    {
      var page := LoadPage(size);
      var key := GlyphKey(hasFace, thickness, bold, charIndex);
      if key in page.glyphs {
        r := Ok(page.glyphs[key]);
        return;
      }
      r := CacheMiss(size, bold, thickness, key, ft);
    }

    /** The second half of `PairKerning`, the first glyph cached: look
        the second glyph up and combine the deltas. */
    method KerningWith(size: nat, bold: bool, first: Glyph, index1: bv32, index2: bv32, ft2: FaceAnswer,
                       hasKerning: bool, kx: int, scalable: bool) returns (r: Result<real>)
      requires Valid() && Readable(ft2.bitmap) && size in pages
      requires Cached(pages[size].glyphs, GlyphKey(hasFace, 0, bold, index1), first)
      modifies this`pages, this`pixelBuffer, pages[size]
      ensures Valid() && pages == old(pages)
      ensures r.Ok? ==>
        var t := pages[size].glyphs;
        var k1 := GlyphKey(hasFace, 0, bold, index1);
        var k2 := GlyphKey(hasFace, 0, bold, index2);
        k1 in t && k2 in t &&
        r.value == KerningValue(t[k1].rsbDelta, t[k2].lsbDelta, if hasKerning then kx else 0, scalable)
    {
      ghost var t1 := pages[size].glyphs;
      var g2 := GetGlyph(size, bold, 0, index2, ft2);
      if g2.Err? {
        return Err(g2.message);
      }
      assert Grown(t1, pages[size].glyphs);
      var k := if hasKerning then kx else 0;
      r := Ok(KerningValue(first.rsbDelta, g2.value.lsbDelta, k, scalable));
    }

    /** The kerning of two glyphs once the size is set: look both glyphs
        up (outline thickness 0), then combine their deltas with FreeType's
        kerning, which is 0 when the face has none. */
    method PairKerning(size: nat, bold: bool, index1: bv32, index2: bv32, ft1: FaceAnswer, ft2: FaceAnswer,
                       hasKerning: bool, kx: int, scalable: bool) returns (r: Result<real>)
      requires Valid() && Readable(ft1.bitmap) && Readable(ft2.bitmap)
      modifies this`pages, this`pixelBuffer, if size in pages then {pages[size]} else {}
      ensures Valid() && size in pages
      ensures size in old(pages) ==> pages == old(pages)
      ensures size !in old(pages) ==> fresh(pages[size]) && pages == old(pages)[size := pages[size]]
      ensures r.Ok? ==>
        var t := pages[size].glyphs;
        var k1 := GlyphKey(hasFace, 0, bold, index1);
        var k2 := GlyphKey(hasFace, 0, bold, index2);
        k1 in t && k2 in t &&
        r.value == KerningValue(t[k1].rsbDelta, t[k2].lsbDelta, if hasKerning then kx else 0, scalable)
    {
      var g1 := GetGlyph(size, bold, 0, index1, ft1);
      if g1.Err? {
        return Err(g1.message);
      }
      r := KerningWith(size, bold, g1.value, index1, index2, ft2, hasKerning, kx, scalable);
    }

    /** `getKerning(first, second, size, bold)`: 0 when either code point
        is 0 or there is no face; otherwise setting the size (the face at
        pixel size ppem, `FT_Set_Pixel_Sizes` answering setResult) may
        raise, gives 0 when it fails, and else `PairKerning`. */
    method GetKerning(first: nat, second: nat, size: nat, bold: bool, ppem: nat, setResult: int,
                      index1: bv32, index2: bv32, ft1: FaceAnswer, ft2: FaceAnswer,
                      hasKerning: bool, kx: int, scalable: bool) returns (r: Result<real>)
      requires Valid() && Readable(ft1.bitmap) && Readable(ft2.bitmap)
      modifies this`pages, this`pixelBuffer, if size in pages then {pages[size]} else {}
      ensures Valid()
      ensures first == 0 || second == 0 || !hasFace || SetCurrentSize(ppem, size, setResult) != Ok(true) ==>
        pages == old(pages) && pixelBuffer == old(pixelBuffer) && (size in old(pages) ==> unchanged(old(pages)[size]))
      ensures first == 0 || second == 0 || !hasFace ==> r == Ok(0.0)
      ensures first != 0 && second != 0 && hasFace ==>
        (SetCurrentSize(ppem, size, setResult).Err? ==> r == Err(SizeMessage(size))) &&
        (SetCurrentSize(ppem, size, setResult) == Ok(false) ==> r == Ok(0.0))
      ensures r.Ok? && first != 0 && second != 0 && hasFace && SetCurrentSize(ppem, size, setResult) == Ok(true) ==>
        size in pages &&
        var t := pages[size].glyphs;
        var k1 := GlyphKey(true, 0, bold, index1);
        var k2 := GlyphKey(true, 0, bold, index2);
        k1 in t && k2 in t &&
        r.value == KerningValue(t[k1].rsbDelta, t[k2].lsbDelta, if hasKerning then kx else 0, scalable)
    {
      if first == 0 || second == 0 {
        return Ok(0.0);
      }
      if !hasFace {
        return Ok(0.0);
      }
      var sized := SetCurrentSize(ppem, size, setResult);
      if sized.Err? {
        return Err(sized.message);
      }
      if !sized.value {
        return Ok(0.0);
      }
      r := PairKerning(size, bold, index1, index2, ft1, ft2, hasKerning, kx, scalable);
    }
  }
}
