// The Win32 mouse cursor (src/platforms/windows_cursor_impl.h): a cursor
// handle that is either a shared system cursor or one built from RGBA
// pixels, and the process-wide pair of "last cursor set" and "cursor
// visible" that every call handing a cursor to the OS consults.
//
// Handles are numbers, 0 being NULL. What the OS returns (the arrow cursor
// loaded at start-up, the colour bitmap, its pixel memory, the icon) is a
// parameter; the cursors handed to the OS's `SetCursor` and the handles
// given to `DestroyCursor` are recorded.
module Cursor {
  import opened Wrappers
  import opened Color
  import opened Gpu
  import opened WindowEvent

  /** `Cursor::Type`. The enumeration is unscoped, so `Unlisted` stands for
      a value outside it. */
  datatype CursorType =
    | Arrow | ArrowWait | Wait | Text | Hand | SizeHorizontal | SizeVertical
    | SizeTopLeftBottomRight | SizeBottomLeftTopRight | SizeLeft | SizeRight
    | SizeTop | SizeBottom | SizeTopLeft | SizeBottomRight | SizeBottomLeft
    | SizeTopRight | SizeAll | Cross | Help | NotAllowed
    | Unlisted(code: int)

  /** The system cursor shapes (`IDC_*`) the cursor types are loaded as. */
  datatype Shape =
    | IdcArrow | IdcAppStarting | IdcWait | IdcIBeam | IdcHand | IdcSizeWE | IdcSizeNS
    | IdcSizeNWSE | IdcSizeNESW | IdcSizeAll | IdcCross | IdcHelp | IdcNo

  /** The `switch` of `loadFromSystem`; `None` for the default branch. */
  function SystemShape(t: CursorType): Option<Shape>
  {
    match t
    case Arrow => Some(IdcArrow)
    case ArrowWait => Some(IdcAppStarting)
    case Wait => Some(IdcWait)
    case Text => Some(IdcIBeam)
    case Hand => Some(IdcHand)
    case SizeHorizontal => Some(IdcSizeWE)
    case SizeVertical => Some(IdcSizeNS)
    case SizeTopLeftBottomRight => Some(IdcSizeNWSE)
    case SizeBottomLeftTopRight => Some(IdcSizeNESW)
    case SizeLeft => Some(IdcSizeWE)
    case SizeRight => Some(IdcSizeWE)
    case SizeTop => Some(IdcSizeNS)
    case SizeBottom => Some(IdcSizeNS)
    case SizeTopLeft => Some(IdcSizeNWSE)
    case SizeBottomRight => Some(IdcSizeNWSE)
    case SizeBottomLeft => Some(IdcSizeNESW)
    case SizeTopRight => Some(IdcSizeNESW)
    case SizeAll => Some(IdcSizeAll)
    case Cross => Some(IdcCross)
    case Help => Some(IdcHelp)
    case NotAllowed => Some(IdcNo)
    case Unlisted(_) => None
  }

  /** Every listed type has a shape and only unlisted values lack one; the
      one-sided variants share the shape of their two-sided cursor. */
  lemma SystemShapeMapping(t: CursorType)
    ensures SystemShape(t).None? <==> t.Unlisted?
    ensures SystemShape(t) == Some(IdcSizeWE) <==> t in {SizeHorizontal, SizeLeft, SizeRight}
    ensures SystemShape(t) == Some(IdcSizeNS) <==> t in {SizeVertical, SizeTop, SizeBottom}
    ensures SystemShape(t) == Some(IdcSizeNWSE) <==> t in {SizeTopLeftBottomRight, SizeTopLeft, SizeBottomRight}
    ensures SystemShape(t) == Some(IdcSizeNESW) <==> t in {SizeBottomLeftTopRight, SizeBottomLeft, SizeTopRight}
  {
  }

  /** The other shapes each belong to exactly one type. */
  lemma SystemShapeSingle(t: CursorType, u: CursorType)
    requires SystemShape(t) == SystemShape(u) && SystemShape(t).Some?
    requires SystemShape(t).value !in {IdcSizeWE, IdcSizeNS, IdcSizeNWSE, IdcSizeNESW}
    ensures t == u
  {
  }

  /** One pixel of the colour bitmap: alpha in the top byte, then red,
      green and blue (`(a << 24) | (r << 16) | (g << 8) | b`). The four
      shifted bytes do not overlap, so the or is a sum. */
  function PackPixel(r: u8, g: u8, b: u8, a: u8): u32
  {
    a * 0x100_0000 + r * 0x1_0000 + g * 0x100 + b
  }

  /** The bytes of a packed pixel in RGBA order. */
  function UnpackPixel(w: u32): seq<int>
  {
    [(w / 0x1_0000) % 0x100, (w / 0x100) % 0x100, w % 0x100, w / 0x100_0000]
  }

  /** Packing keeps every byte where it can be read back. */
  lemma PixelRoundTrip(r: u8, g: u8, b: u8, a: u8)
    ensures UnpackPixel(PackPixel(r, g, b, a)) == [r, g, b, a]
  {
    var w := PackPixel(r, g, b, a);
    DivMod16(w, a * 0x100 + r, g * 0x100 + b);
    DivMod8(a * 0x100 + r, a, r);
    DivMod8(w, a * 0x1_0000 + r * 0x100 + g, b);
    DivMod8(a * 0x1_0000 + r * 0x100 + g, a * 0x100 + r, g);
    DivMod24(w, a, r * 0x1_0000 + g * 0x100 + b);
  }

  /** Division with remainder by 2^8, 2^16 and 2^24 is unique. */
  lemma DivMod8(w: int, q: int, m: int)
    requires 0 <= m < 0x100 && w == q * 0x100 + m
    ensures w / 0x100 == q && w % 0x100 == m
  {
  }

  lemma DivMod16(w: int, q: int, m: int)
    requires 0 <= m < 0x1_0000 && w == q * 0x1_0000 + m
    ensures w / 0x1_0000 == q && w % 0x1_0000 == m
  {
  }

  lemma DivMod24(w: int, q: int, m: int)
    requires 0 <= m < 0x100_0000 && w == q * 0x100_0000 + m
    ensures w / 0x100_0000 == q && w % 0x100_0000 == m
  {
  }

  /** The words for the first n RGBA quadruples of pixels, in order. */
  function PackPixels(pixels: seq<u8>, n: nat): (r: seq<u32>)
    requires 4 * n <= |pixels|
    ensures |r| == n
  {
    seq(n, i requires 0 <= i < n => PackPixel(pixels[4 * i], pixels[4 * i + 1], pixels[4 * i + 2], pixels[4 * i + 3]))
  }

  /** Word i of the bitmap holds exactly quadruple i of the pixels. */
  lemma PackPixelsRoundTrip(pixels: seq<u8>, n: nat, i: nat)
    requires 4 * n <= |pixels| && i < n
    ensures UnpackPixel(PackPixels(pixels, n)[i]) == pixels[4 * i .. 4 * i + 4]
  {
    PixelRoundTrip(pixels[4 * i], pixels[4 * i + 1], pixels[4 * i + 2], pixels[4 * i + 3]);
  }

  /** The loop bound of `loadFromPixels`: `size.x * size.y`, a product of
      two 32-bit components and so taken modulo 2^32. */
  function PixelCount(size: UVec2): (n: nat)
    ensures n < 0x1_0000_0000
    ensures size.x * size.y < 0x1_0000_0000 ==> n == size.x * size.y
    ensures size.x == 0x1_0000 && size.y == 0x1_0000 ==> n == 0
  {
    (size.x * size.y) % 0x1_0000_0000
  }

  /** The fault of writing a pixel through the NULL bitmap memory. */
  const NullPixelWrite: string := "write through NULL bitmap memory"

  /** The copy loop of `loadFromPixels` on bitmap memory that exists: n
      words written from the front of it. Under the inverted check the
      loop is only reached with NULL memory (see `LoadFromPixels`). */
  method WritePixels(pixels: seq<u8>, n: nat, bits: array<u32>)
    requires 4 * n <= |pixels| && n <= bits.Length
    modifies bits
    ensures bits[..n] == PackPixels(pixels, n)
    ensures bits[n..] == old(bits[n..])
  {
    var offset := 0;
    var remaining := n;
    while remaining > 0
      invariant offset + remaining == n
      invariant bits[..offset] == PackPixels(pixels, n)[..offset]
      invariant bits[n..] == old(bits[n..])
    {
      bits[offset] := PackPixel(pixels[4 * offset], pixels[4 * offset + 1], pixels[4 * offset + 2], pixels[4 * offset + 3]);
      offset := offset + 1;
      remaining := remaining - 1;
    }
  }

  /** `CursorImpl`: a cursor handle and whether it is a system cursor. */
  class CursorImpl {
    var isSystemCursor: bool
    var cursor: Handle

    /** Not a system cursor, no handle. */
    constructor ()
      ensures !isSystemCursor && cursor == 0 && !Valid()
    {
      isSystemCursor := false;
      cursor := 0;
    }

    /** `valid()`. */
    predicate Valid()
      reads this
    {
      cursor != 0
    }

    /** `loadFromPixels(pixels, size, hotspot)`, the OS having answered
        with the colour bitmap color, its pixel memory bits and the icon;
        the memory is NULL exactly when the bitmap was not created. The
        check after the bitmap is made fires when the bitmap exists, so the
        copy loop only runs when the memory is NULL: for any nonzero 32-bit
        pixel count its first write goes through the NULL pointer, and only
        a cursor of no pixels gets as far as the icon. */
    method LoadFromPixels(pixels: seq<u8>, size: UVec2, color: Handle, bits: array?<u32>, icon: Handle)
        returns (r: Result<()>)
      requires (color == 0) == (bits == null)
      modifies this
      ensures color != 0 ==> r == Err("Failed to create cursor color bitmap")
      ensures color == 0 && PixelCount(size) != 0 ==> r == Err(NullPixelWrite)
      ensures r.Ok? <==> color == 0 && PixelCount(size) == 0
      ensures r.Err? ==> cursor == old(cursor) && isSystemCursor == old(isSystemCursor)
      ensures r.Ok? ==> cursor == icon && !isSystemCursor
    {
      if color != 0 {
        return Err("Failed to create cursor color bitmap");
      }
      if PixelCount(size) > 0 {
        return Err(NullPixelWrite);
      }
      cursor := icon;
      isSystemCursor := false;
      r := Ok(());
    }

    /** `loadFromSystem(type)`, the OS handing back loaded for the shape:
        the shape asked for, and the cursor now a system cursor; an
        error for a type outside the enumeration. */
    method LoadFromSystem(t: CursorType, loaded: Handle) returns (r: Result<Shape>)
      modifies this
      ensures r.Err? <==> t.Unlisted?
      ensures r.Err? ==> cursor == old(cursor) && isSystemCursor == old(isSystemCursor)
      ensures r.Ok? ==> Some(r.value) == SystemShape(t) && cursor == loaded && isSystemCursor
    {
      var shape := SystemShape(t);
      if shape.None? {
        return Err("unsupported system cursor");
      }
      cursor := loaded;
      isSystemCursor := true;
      r := Ok(shape.value);
    }

    /** `destroy()`: a cursor this object made is handed to
        `DestroyCursor` and forgotten; a system cursor is shared and kept. */
    method Destroy() returns (destroyed: Option<Handle>)
      modifies this
      ensures isSystemCursor == old(isSystemCursor)
      ensures old(cursor) != 0 && !isSystemCursor ==> destroyed == Some(old(cursor)) && cursor == 0
      ensures !(old(cursor) != 0 && !isSystemCursor) ==> destroyed == None && cursor == old(cursor)
    {
      destroyed := None;
      if cursor != 0 && !isSystemCursor {
        destroyed := Some(cursor);
        cursor := 0;
      }
    }
  }

  /** The static members of `CursorImpl`, and the cursors handed to the OS's
      `SetCursor` in order. */
  class CursorGlobals {
    var lastCursor: Handle
    var cursorVisible: bool
    var shown: seq<Handle>

    /** The static initialisers: the system arrow, visible. */
    constructor (arrow: Handle)
      ensures lastCursor == arrow && cursorVisible && shown == []
    {
      lastCursor := arrow;
      cursorVisible := true;
      shown := [];
    }

    /** What the OS is told to show: the last cursor set while the cursor
        is visible, NULL while it is hidden. */
    function Displayed(): (h: Handle)
      reads this
      ensures cursorVisible ==> h == lastCursor
      ensures !cursorVisible ==> h == 0
    {
      if cursorVisible then lastCursor else 0
    }

    /** `setVisible(visible)`. */
    method SetVisible(visible: bool)
      modifies this
      ensures cursorVisible == visible && lastCursor == old(lastCursor)
      ensures shown == old(shown) + [Displayed()]
    {
      cursorVisible := visible;
      shown := shown + [Displayed()];
    }

    /** `setCursor(cursor)`: remembered first, then shown if visible. */
    method SetCursor(c: CursorImpl)
      modifies this
      ensures lastCursor == c.cursor && cursorVisible == old(cursorVisible)
      ensures shown == old(shown) + [Displayed()]
    {
      lastCursor := c.cursor;
      shown := shown + [Displayed()];
    }

    /** `updateCursor()`, sent on `WM_SETCURSOR` over the client area. */
    method UpdateCursor()
      modifies this
      ensures lastCursor == old(lastCursor) && cursorVisible == old(cursorVisible)
      ensures shown == old(shown) + [Displayed()]
    {
      shown := shown + [Displayed()];
    }
  }
}
