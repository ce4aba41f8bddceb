// The Win32 platform window (src/platforms/windows_platform_window_impl.h):
// the UTF-16 decoder of section 2.2 of RFC 2781 that `WM_CHAR` uses, the
// translation of the window style into Win32 style bits, the unpacking of
// mouse coordinates from a message's lParam, and the state updates the
// window procedure makes for the messages that carry bookkeeping.
//
// The OS queries a handler makes (`GetWindowRect`, `GetClientRect`) are
// parameters of the handler; the calls that only talk back to the OS
// (mouse capture, leave tracking) are left out.
module Win32Window {
  import opened Flags
  import WindowStyle
  import opened WindowEvent
  import opened WindowBase

  // ---------------------------------------------------------------------
  // UTF-16 decoding (section 2.2 of RFC 2781)

  /** A UTF-16 code unit (`uint16_t`). */
  type Unit = x: int | 0 <= x < 0x1_0000

  predicate IsHigh(u: int) { 0xD800 <= u <= 0xDBFF }
  predicate IsLow(u: int) { 0xDC00 <= u <= 0xDFFF }

  /** The default `replacement` of `decode`. */
  const Replacement: int := 0

  /** `decode(running, end, output)`: the code point read at the front of
      s and the number of units the read position moves on. */
  function Decode(s: seq<Unit>): (r: (int, nat))
    requires |s| > 0
    ensures 1 <= r.1 <= 2 && r.1 <= |s|
  {
    var first: int := s[0];
    if IsHigh(first) then
      if 1 < |s| then
        var second: int := s[1];
        if IsLow(second) then ((first - 0xD800) * 1024 + (second - 0xDC00) + 0x1_0000, 2)
        else (Replacement, 2)
      else
        (Replacement, |s|)
    else
      (first, 1)
  }

  /** The code points `to_utf32` writes for the units of s: one per
      `decode` step, until the end. */
  function Utf32Of(s: seq<Unit>): seq<int>
    decreases |s|
  {
    if |s| == 0 then [] else [Decode(s).0] + Utf32Of(s[Decode(s).1..])
  }

  /** `to_utf32(running, end, output)`: its loop, writing the code points
      into a fresh output sequence. */
  method ToUtf32(units: seq<Unit>) returns (out: seq<int>)
    ensures out == Utf32Of(units)
  {
    var running := 0;
    out := [];
    while running < |units|
      invariant 0 <= running <= |units|
      invariant out + Utf32Of(units[running..]) == Utf32Of(units)
      decreases |units| - running
    {
      var (codepoint, n) := Decode(units[running..]);
      assert units[running..][n..] == units[running + n..];
      out := out + [codepoint];
      running := running + n;
    }
  }

  /** A unit that is not a high surrogate, lone low surrogates included,
      is passed through and consumes one unit. */
  lemma DecodePassThrough(s: seq<Unit>)
    requires |s| > 0 && !IsHigh(s[0])
    ensures Decode(s) == (s[0], 1)
  {
  }

  /** A high surrogate followed by a low one consumes both and yields a
      supplementary code point, and the pair is determined by it. */
  lemma DecodePair(s: seq<Unit>)
    requires |s| > 1 && IsHigh(s[0]) && IsLow(s[1])
    ensures Decode(s).1 == 2
    ensures 0x1_0000 <= Decode(s).0 <= 0x10_FFFF
    ensures s[0] == 0xD800 + (Decode(s).0 - 0x1_0000) / 1024
    ensures s[1] == 0xDC00 + (Decode(s).0 - 0x1_0000) % 1024
  {
  }

  /** A high surrogate followed by anything but a low one consumes both
      units; a high surrogate at the end consumes the rest. Both give the
      replacement. */
  lemma DecodeReplacement(s: seq<Unit>)
    requires |s| > 0 && IsHigh(s[0]) && (|s| == 1 || !IsLow(s[1]))
    ensures Decode(s) == (Replacement, if |s| == 1 then 1 else 2)
  {
  }

  /** The Unicode scalar values: code points that are not surrogates. */
  predicate IsScalar(c: int) { 0 <= c <= 0x10_FFFF && !(0xD800 <= c <= 0xDFFF) }

  /** The UTF-16 encoding of a scalar value (section 2.1 of RFC 2781). */
  function Encode(c: int): (r: seq<Unit>)
    requires IsScalar(c)
    ensures |r| == (if c < 0x1_0000 then 1 else 2)
  {
    if c < 0x1_0000 then [c]
    else [0xD800 + (c - 0x1_0000) / 1024, 0xDC00 + (c - 0x1_0000) % 1024]
  }

  function EncodeAll(cs: seq<int>): seq<Unit>
    requires forall i :: 0 <= i < |cs| ==> IsScalar(cs[i])
  {
    if |cs| == 0 then [] else Encode(cs[0]) + EncodeAll(cs[1..])
  }

  /** Decoding the front of an encoded scalar gives that scalar and moves
      past exactly its units, whatever follows. */
  lemma DecodeEncode(c: int, rest: seq<Unit>)
    requires IsScalar(c)
    ensures Decode(Encode(c) + rest) == (c, |Encode(c)|)
  {
    var s := Encode(c) + rest;
    assert s[0] == Encode(c)[0];
    if c >= 0x1_0000 {
      assert s[1] == Encode(c)[1];
    }
  }

  /** `to_utf32` inverts UTF-16 encoding: the decoded code points of an
      encoded sequence of scalars are those scalars. */
  lemma {:induction false} Utf32OfEncodeAll(cs: seq<int>)
    requires forall i :: 0 <= i < |cs| ==> IsScalar(cs[i])
    ensures Utf32Of(EncodeAll(cs)) == cs
  {
    if |cs| > 0 {
      var s := EncodeAll(cs);
      DecodeEncode(cs[0], EncodeAll(cs[1..]));
      assert s[Decode(s).1..] == EncodeAll(cs[1..]);
      Utf32OfEncodeAll(cs[1..]);
    }
  }

  /** Each step writes one code point and consumes one or two units, so n
      units give between n/2 and n code points. */
  lemma {:induction false} Utf32Length(s: seq<Unit>)
    ensures |Utf32Of(s)| <= |s| <= 2 * |Utf32Of(s)|
    decreases |s|
  {
    if |s| > 0 {
      Utf32Length(s[Decode(s).1..]);
    }
  }

  // ---------------------------------------------------------------------
  // The WM_CHAR surrogate combination

  /** What `to_utf32` writes, starting at `&character`, for the stored
      surrogate and the low surrogate that has just arrived, as written:
      the destination is the single 32-bit `character`. */
  function CharAsWritten(stored: Unit, ch: Unit): seq<int>
  {
    Utf32Of([stored, ch])
  }

  /** A low surrogate with no high surrogate stored (the store is 0 before
      the first one and after every pair) makes `to_utf32` write two code
      points into the one-slot `character`, and the text event then
      carries 0 instead of the unit. */
  lemma LoneLowSurrogateOverflows()
    ensures CharAsWritten(0, 0xDC00) == [0, 0xDC00]
    ensures |CharAsWritten(0, 0xDC00)| == 2
  {
    var s: seq<Unit> := [0, 0xDC00];
    assert s[1..] == [0xDC00];
    assert s[1..][1..] == [];
  }

  /** The character a low surrogate ch yields: combined with the stored
      unit when that is a high surrogate, otherwise the unit itself, as
      `decode` passes a lone low surrogate through. */
  function CombineChar(stored: Unit, ch: Unit): (r: int)
    requires IsLow(ch)
    ensures IsHigh(stored) ==> 0x1_0000 <= r <= 0x10_FFFF
    ensures !IsHigh(stored) ==> r == ch
  {
    if IsHigh(stored) then Decode([stored, ch]).0 else ch
  }

  /** Where the code as written writes a single code point, which is
      exactly when a high surrogate is stored, it is the combined one; in
      the other case the combined character is the second of the two the
      code writes. A surrogate pair of a supplementary scalar combines back
      to it. */
  lemma CombineCharAgrees(stored: Unit, ch: Unit)
    requires IsLow(ch)
    ensures IsHigh(stored) <==> |CharAsWritten(stored, ch)| == 1
    ensures IsHigh(stored) ==> CharAsWritten(stored, ch) == [CombineChar(stored, ch)]
    ensures !IsHigh(stored) ==> CharAsWritten(stored, ch) == [stored, CombineChar(stored, ch)]
  {
    var s: seq<Unit> := [stored, ch];
    if IsHigh(stored) {
      assert Decode(s).1 == 2;
      assert s[2..] == [];
      assert Utf32Of(s) == [Decode(s).0];
    } else {
      assert Decode(s) == (stored as int, 1);
      assert s[1..] == [ch];
      assert Decode(s[1..]) == (ch as int, 1);
      assert s[1..][1..] == [];
      assert Utf32Of(s[1..]) == [ch as int];
    }
  }

  lemma CombineEncoded(c: int)
    requires IsScalar(c) && c >= 0x1_0000
    ensures IsHigh(Encode(c)[0]) && IsLow(Encode(c)[1])
    ensures CombineChar(Encode(c)[0], Encode(c)[1]) == c
  {
    DecodeEncode(c, []);
    assert Encode(c) + [] == [Encode(c)[0], Encode(c)[1]];
  }

  // ---------------------------------------------------------------------
  // Window styles

  const ClipSiblings: bv32 := 0x0400_0000
  const ClipChildren: bv32 := 0x0200_0000
  const Popup: bv32 := 0x8000_0000
  const ThickFrame: bv32 := 0x0004_0000
  const Caption: bv32 := 0x00C0_0000
  const MinimizeBox: bv32 := 0x0002_0000
  const MaximizeBox: bv32 := 0x0001_0000
  const SysMenu: bv32 := 0x0008_0000
  const ExAppWindow: bv32 := 0x0004_0000
  const ExTopMost: bv32 := 0x0000_0008

  const BaseStyle: bv32 := ClipSiblings | ClipChildren | Popup

  function Has(style: Flags, bit: bv32): bool
  {
    ToBool(And(style, FromBit(bit)))
  }

  /** `create_style`. */
  function CreateStyle(style: Flags): bv32
  {
    var s0 := BaseStyle;
    var s1 := if Has(style, WindowStyle.Resizable) then s0 | ThickFrame else s0;
    var s2 := if Has(style, WindowStyle.Minimize) then s1 | Caption | MinimizeBox else s1;
    var s3 := if Has(style, WindowStyle.Maximize) then s2 | Caption | MaximizeBox else s2;
    if Has(style, WindowStyle.Close) then s3 | Caption | SysMenu else s3
  }

  /** The base bits are always set; the frame, the boxes and the system
      menu each follow their flag, the caption is there exactly when one
      of the title-bar flags is, and no other bit is ever set. */
  lemma CreateStyleBits(style: Flags)
    ensures CreateStyle(style) & BaseStyle == BaseStyle
    ensures (CreateStyle(style) & ThickFrame != 0) <==> style.mask & WindowStyle.Resizable != 0
    ensures (CreateStyle(style) & MinimizeBox != 0) <==> style.mask & WindowStyle.Minimize != 0
    ensures (CreateStyle(style) & MaximizeBox != 0) <==> style.mask & WindowStyle.Maximize != 0
    ensures (CreateStyle(style) & SysMenu != 0) <==> style.mask & WindowStyle.Close != 0
    ensures (CreateStyle(style) & Caption == Caption) <==> style.mask & WindowStyle.Titlebar != 0
    ensures (CreateStyle(style) & Caption == 0) <==> style.mask & WindowStyle.Titlebar == 0
    ensures CreateStyle(style) & !(BaseStyle | ThickFrame | Caption | MinimizeBox | MaximizeBox | SysMenu) == 0
  {
  }

  /** `create_ex_style`. */
  function CreateExStyle(style: Flags): bv32
  {
    if Has(style, WindowStyle.TopMost) then ExAppWindow | ExTopMost else ExAppWindow
  }

  /** Always an application window, topmost exactly for `TopMost`. */
  lemma CreateExStyleBits(style: Flags)
    ensures CreateExStyle(style) & ExAppWindow == ExAppWindow
    ensures (CreateExStyle(style) & ExTopMost != 0) <==> style.mask & WindowStyle.TopMost != 0
    ensures CreateExStyle(style) & !(ExAppWindow | ExTopMost) == 0
  {
  }

  // ---------------------------------------------------------------------
  // Message parameters

  /** A message parameter (`WPARAM`/`LPARAM`) as its 64-bit pattern. */
  type Word64 = x: int | 0 <= x < 0x1_0000_0000_0000_0000

  /** `(short)`: a 16-bit pattern read as two's complement. */
  function SignedShort(w: int): (r: int)
    requires 0 <= w < 0x1_0000
    ensures -0x8000 <= r < 0x8000 && r % 0x1_0000 == w
  {
    if w >= 0x8000 then w - 0x1_0000 else w
  }

  /** `GET_X_LPARAM`: the signed low word. */
  function XParam(lp: Word64): int
  {
    SignedShort(lp % 0x1_0000)
  }

  /** `GET_Y_LPARAM`: the signed high word of the low 32 bits. */
  function YParam(lp: Word64): int
  {
    SignedShort((lp / 0x1_0000) % 0x1_0000)
  }

  /** The lParam a window message carries for a point with 16-bit signed
      coordinates (`MAKELPARAM`). */
  function PackPoint(x: int, y: int): Word64
    requires -0x8000 <= x < 0x8000 && -0x8000 <= y < 0x8000
  {
    (y % 0x1_0000) * 0x1_0000 + x % 0x1_0000
  }

  /** The coordinates come back unchanged, and they are 16-bit values. */
  lemma PointRoundTrip(x: int, y: int)
    requires -0x8000 <= x < 0x8000 && -0x8000 <= y < 0x8000
    ensures XParam(PackPoint(x, y)) == x && YParam(PackPoint(x, y)) == y
  {
    var lp := PackPoint(x, y);
    assert lp % 0x1_0000 == x % 0x1_0000;
    assert lp / 0x1_0000 == y % 0x1_0000;
  }

  lemma ParamRange(lp: Word64)
    ensures -0x8000 <= XParam(lp) < 0x8000 && -0x8000 <= YParam(lp) < 0x8000
  {
  }

  /** Bit 30 of a `WM_CHAR` lParam: the key was already down. */
  function Repeated(lp: Word64): bool
  {
    (lp / 0x4000_0000) % 2 == 1
  }

  /** `static_cast<uint32_t>(wParam)`. */
  function LowDword(wp: Word64): (r: int)
    ensures 0 <= r < 0x1_0000_0000 && (r - wp) % 0x1_0000_0000 == 0
  {
    wp % 0x1_0000_0000
  }

  // ---------------------------------------------------------------------
  // The window procedure

  /** A client rectangle as `GetClientRect` reports it. */
  datatype ClientRect = ClientRect(left: int, top: int, right: int, bottom: int)

  /** The `WM_MOUSEMOVE` test: inside, edges included. */
  predicate Inside(p: IVec2, area: ClientRect)
  {
    !(p.x < area.left || p.x > area.right || p.y < area.top || p.y > area.bottom)
  }

  function Minus(a: IVec2, b: IVec2): IVec2
  {
    IVec2(a.x - b.x, a.y - b.y)
  }

  /** What a `WM_MOUSEMOVE` to pos sends, the pointer having been inside
      or not before, and prev being the position of the last move. */
  function MouseMoveEvents(wasInside: bool, pos: IVec2, area: ClientRect, prev: IVec2): seq<WindowEvent>
  {
    var inside := Inside(pos, area);
    var from := if inside && !wasInside then pos else prev;
    (if wasInside && !inside then [Plain(MouseLeft)]
     else if inside && !wasInside then [Plain(MouseEntered)]
     else []) +
    [WindowEvent(MouseMoved, MouseMoveData(pos, Minus(pos, from)))]
  }

  /** A move always ends in one `MouseMoved` at the new position, whose
      delta leads there from the last position, or is zero on entering; it
      is preceded by `MouseEntered` exactly when the pointer comes in and
      by `MouseLeft` exactly when it goes out, and by nothing else. */
  lemma MouseMoveShape(wasInside: bool, pos: IVec2, area: ClientRect, prev: IVec2)
    ensures var es := MouseMoveEvents(wasInside, pos, area, prev);
      1 <= |es| <= 2 && es[|es| - 1].kind == MouseMoved && es[|es| - 1].data.pos == pos &&
      (|es| == 2 <==> wasInside != Inside(pos, area)) &&
      (|es| == 2 ==> es[0].kind == (if wasInside then MouseLeft else MouseEntered)) &&
      (Inside(pos, area) && !wasInside ==> es[|es| - 1].data.delta == IVec2(0, 0)) &&
      (!(Inside(pos, area) && !wasInside) ==>
        IVec2(prev.x + es[|es| - 1].data.delta.x, prev.y + es[|es| - 1].data.delta.y) == pos)
  {
  }

  /** The `wParam` values of `WM_SIZE`. */
  const SizeRestored: Word64 := 0
  const SizeMinimized: Word64 := 1
  const SizeMaximized: Word64 := 2

  /** The fields `PlatformWindowImpl` adds to the shared window state. */
  datatype Tracking = Tracking(surrogate: Unit, enterSizeMove: bool, isMouseInside: bool,
                               isResizing: bool, isMoving: bool, keyRepeatEnabled: bool)

  class PlatformWindowImpl {
    /** The shared state of `PlatformWindowBase`. */
    const base: PlatformWindowBase
    var surrogate: Unit
    var enterSizeMove: bool
    var isMouseInside: bool
    var isResizing: bool
    var isMoving: bool
    var keyRepeatEnabled: bool

    function State(): Tracking
      reads this
    {
      Tracking(surrogate, enterSizeMove, isMouseInside, isResizing, isMoving, keyRepeatEnabled)
    }

    /** No surrogate stored, not in a size/move loop, the pointer outside,
        and key repeat enabled. */
    constructor ()
      ensures fresh(base) && base.events == [] && base.mousePrev == IVec2(0, 0)
      ensures base.size == UVec2(0, 0) && base.frameBufferSize == UVec2(0, 0)
      ensures base.updateSwapchain && !base.minimized && !base.maximized && !base.focussed
      ensures State() == Tracking(0, false, false, false, false, true)
    {
      base := new PlatformWindowBase();
      surrogate := 0;
      enterSizeMove := false;
      isMouseInside := false;
      isResizing := false;
      isMoving := false;
      keyRepeatEnabled := true;
    }

    /** `WM_DESTROY`, which falls through into `WM_CLOSE`. */
    method OnDestroy()
      modifies base`events, base`notified
      ensures base.events == old(base.events) + [Plain(Destroy), Plain(Close)]
    {
      base.SendEventMsg(Plain(Destroy));
      OnClose();
    }

    /** `WM_CLOSE`. */
    method OnClose()
      modifies base`events, base`notified
      ensures base.events == old(base.events) + [Plain(Close)]
    {
      base.SendEventMsg(Plain(Close));
    }

    /** `WM_SIZE`, with size and fbSize the window and client sizes the
        OS reports. */
    method OnSize(wParam: Word64, size: UVec2, fbSize: UVec2)
      modifies this`isResizing, base`events, base`notified, base`minimized, base`maximized,
               base`size, base`frameBufferSize, base`updateSwapchain
      ensures isResizing == (old(isResizing) || enterSizeMove)
      ensures wParam == SizeMinimized ==> base.minimized && !base.maximized
      ensures wParam == SizeMaximized ==> !base.minimized && base.maximized
      ensures wParam == SizeRestored ==> !base.minimized && !base.maximized
      ensures wParam > SizeMaximized ==>
        base.minimized == old(base.minimized) && base.maximized == old(base.maximized)
      ensures var changed := old(base.size) != size || old(base.frameBufferSize) != fbSize;
        base.size == size && base.frameBufferSize == fbSize &&
        base.updateSwapchain == (old(base.updateSwapchain) || changed) &&
        base.events == old(base.events) +
          (if enterSizeMove && !old(isResizing) then [Plain(EnterResize)] else []) +
          (if changed && wParam != SizeMinimized then [WindowEvent(Resize, ResizeData(size, fbSize))] else [])
    {
      if enterSizeMove && !isResizing {
        base.SendEventMsg(Plain(EnterResize));
        isResizing := true;
      }
      if wParam == SizeMinimized {
        base.minimized := true;
        base.maximized := false;
      } else if wParam == SizeMaximized {
        base.minimized := false;
        base.maximized := true;
      } else if wParam == SizeRestored {
        base.minimized := false;
        base.maximized := false;
      }
      if base.size != size || base.frameBufferSize != fbSize {
        base.size := size;
        base.frameBufferSize := fbSize;
        base.updateSwapchain := true;
        if wParam != SizeMinimized {
          base.SendEventMsg(WindowEvent(Resize, ResizeData(base.size, base.frameBufferSize)));
        }
      }
    }

    /** `WM_MOVE`: entering a move while in the size/move loop, then the
        new position. */
    method OnMove(lParam: Word64)
      modifies this`isMoving, base`events, base`notified, base`position
      ensures base.position == IVec2(XParam(lParam), YParam(lParam))
      ensures isMoving == (old(isMoving) || enterSizeMove)
      ensures base.events == old(base.events) +
        (if enterSizeMove && !old(isMoving) then [Plain(EnterMove)] else []) +
        [WindowEvent(Move, MoveData(base.position))]
    {
      if enterSizeMove && !isMoving {
        base.SendEventMsg(Plain(EnterMove));
        isMoving := true;
      }
      base.position := IVec2(XParam(lParam), YParam(lParam));
      base.SendEventMsg(WindowEvent(Move, MoveData(base.position)));
    }

    /** `WM_ENTERSIZEMOVE`. */
    method OnEnterSizeMove()
      modifies this`enterSizeMove
      ensures enterSizeMove
    {
      enterSizeMove := true;
    }

    /** `WM_EXITSIZEMOVE`: closes a resize, asking for a new swapchain, and
        a move that were opened in the loop. */
    method OnExitSizeMove()
      modifies this`enterSizeMove, this`isResizing, this`isMoving, base`events, base`notified, base`updateSwapchain
      ensures !enterSizeMove && !isResizing && !isMoving
      ensures base.updateSwapchain == (old(base.updateSwapchain) || old(isResizing))
      ensures base.events == old(base.events) +
        (if old(isResizing) then [Plain(ExitResize)] else []) +
        (if old(isMoving) then [Plain(ExitMove)] else [])
    {
      enterSizeMove := false;
      if isResizing {
        base.SendEventMsg(Plain(ExitResize));
        base.updateSwapchain := true;
        isResizing := false;
      }
      if isMoving {
        base.SendEventMsg(Plain(ExitMove));
        isMoving := false;
      }
    }

    /** `WM_CHAR` for the character wParam, with the lone-low-surrogate
        case taken as `CombineChar` states it. */
    method OnChar(wParam: Word64, lParam: Word64)
      modifies this`surrogate, base`events, base`notified
      ensures var ch := LowDword(wParam);
        if !keyRepeatEnabled && Repeated(lParam) then
          surrogate == old(surrogate) && base.events == old(base.events)
        else if IsHigh(ch) then
          surrogate == ch && base.events == old(base.events)
        else if IsLow(ch) then
          surrogate == 0 &&
          base.events == old(base.events) + [WindowEvent(TextEntered, TextData(CombineChar(old(surrogate), ch)))]
        else
          surrogate == old(surrogate) &&
          base.events == old(base.events) + [WindowEvent(TextEntered, TextData(ch))]
    {
      if keyRepeatEnabled || !Repeated(lParam) {
        var character := LowDword(wParam);
        if IsHigh(character) {
          surrogate := character;
        } else {
          if IsLow(character) {
            character := CombineChar(surrogate, character);
            surrogate := 0;
          }
          base.SendEventMsg(WindowEvent(TextEntered, TextData(character)));
        }
      }
    }

    /** `WM_MOUSELEAVE`. */
    method OnMouseLeave()
      modifies this`isMouseInside, base`events, base`notified
      ensures !isMouseInside
      ensures base.events == old(base.events) + (if old(isMouseInside) then [Plain(MouseLeft)] else [])
    {
      if isMouseInside {
        isMouseInside := false;
        base.SendEventMsg(Plain(MouseLeft));
      }
    }

    /** `WM_MOUSEMOVE` with the position in lParam and the client
        rectangle the OS reports. */
    method OnMouseMove(lParam: Word64, area: ClientRect)
      modifies this`isMouseInside, base`events, base`notified, base`mousePrev
      ensures var pos := IVec2(XParam(lParam), YParam(lParam));
        isMouseInside == Inside(pos, area) && base.mousePrev == pos &&
        base.events == old(base.events) + MouseMoveEvents(old(isMouseInside), pos, area, old(base.mousePrev))
    {
      var pos := IVec2(XParam(lParam), YParam(lParam));
      if !Inside(pos, area) {
        if isMouseInside {
          isMouseInside := false;
          base.SendEventMsg(Plain(MouseLeft));
        }
      } else {
        if !isMouseInside {
          isMouseInside := true;
          base.mousePrev := pos;
          base.SendEventMsg(Plain(MouseEntered));
        }
      }
      base.SendEventMsg(WindowEvent(MouseMoved, MouseMoveData(pos, Minus(pos, base.mousePrev))));
      base.mousePrev := pos;
    }

    /** `WM_SETFOCUS`. */
    method OnSetFocus()
      modifies base`events, base`notified, base`focussed
      ensures base.focussed && base.events == old(base.events) + [Plain(Focussed)]
    {
      base.SendEventMsg(Plain(Focussed));
      base.focussed := true;
    }

    /** `WM_KILLFOCUS`. */
    method OnKillFocus()
      modifies base`events, base`notified, base`focussed
      ensures !base.focussed && base.events == old(base.events) + [Plain(LostFocus)]
    {
      base.SendEventMsg(Plain(LostFocus));
      base.focussed := false;
    }
  }
}
