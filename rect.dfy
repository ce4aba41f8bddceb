// `RectBase<T>` (include/vkdl/math/rect.h) for its two integer instances,
// `irect` (32-bit signed) and `urect` (32-bit unsigned). The `float`
// instance and `area`, which returns a float, are not modelled.
module Rect {
  /** Which integer type a rectangle is instantiated with. */
  datatype Kind = Signed | Unsigned

  const TWO_32: int := 0x1_0000_0000
  const TWO_31: int := 0x8000_0000

  /** The values of the instance's type. */
  predicate InType(k: Kind, x: int)
  {
    match k
    case Signed => -TWO_31 <= x < TWO_31
    case Unsigned => 0 <= x < TWO_32
  }

  datatype Vec2 = Vec2(x: int, y: int)
  datatype Rect = Rect(left: int, top: int, width: int, height: int)

  predicate ValidVec(k: Kind, v: Vec2) { InType(k, v.x) && InType(k, v.y) }

  predicate Valid(k: Kind, r: Rect)
  {
    InType(k, r.left) && InType(k, r.top) && InType(k, r.width) && InType(k, r.height)
  }

  /** `static_cast` to the instance's type: reduction modulo 2^32 into its
      range (two's complement for the signed type). */
  function Cast(k: Kind, x: int): (y: int)
    ensures InType(k, y)
    ensures (y - x) % TWO_32 == 0
  {
    match k
    case Unsigned => x % TWO_32
    case Signed => if x % TWO_32 < TWO_31 then x % TWO_32 else x % TWO_32 - TWO_32
  }

  /** Integer division by 2 as C++ does it, truncating toward zero. */
  function Half(x: int): (h: int)
    ensures x >= 0 ==> 2 * h <= x < 2 * h + 2
    ensures x < 0 ==> 2 * h - 2 < x <= 2 * h
  {
    if x >= 0 then x / 2 else -((-x) / 2)
  }

  /** The sum of two values of the instance's type: unsigned addition wraps;
      signed overflow is undefined, so callers must avoid it. */
  predicate AddDefined(k: Kind, a: int, b: int) { k.Unsigned? || InType(Signed, a + b) }

  function Add(k: Kind, a: int, b: int): (s: int)
    requires AddDefined(k, a, b)
    ensures InType(k, a) && InType(k, b) ==> InType(k, s)
    ensures (s - (a + b)) % TWO_32 == 0
  {
    match k
    case Unsigned => (a + b) % TWO_32
    case Signed => a + b
  }

  function GetPosition(r: Rect): (p: Vec2)
    ensures p.x == r.left && p.y == r.top
  {
    Vec2(r.left, r.top)
  }

  function GetSize(r: Rect): (s: Vec2)
    ensures s.x == r.width && s.y == r.height
  {
    Vec2(r.width, r.height)
  }

  /** The rectangle after `setPosition(pos)`. */
  function WithPosition(r: Rect, pos: Vec2): Rect { r.(left := pos.x, top := pos.y) }

  /** The rectangle after `setSize(size)`. */
  function WithSize(r: Rect, size: Vec2): Rect { r.(width := size.x, height := size.y) }

  /** The (position, size) constructor. */
  function FromPositionSize(pos: Vec2, size: Vec2): (r: Rect)
    ensures GetPosition(r) == pos && GetSize(r) == size
  {
    Rect(pos.x, pos.y, size.x, size.y)
  }

  /** The converting constructor from another instance: each field cast on
      its own. */
  function Convert(k: Kind, r: Rect): (c: Rect)
    ensures Valid(k, c)
    ensures (c.left - r.left) % TWO_32 == 0 && (c.top - r.top) % TWO_32 == 0
    ensures (c.width - r.width) % TWO_32 == 0 && (c.height - r.height) % TWO_32 == 0
  {
    Rect(Cast(k, r.left), Cast(k, r.top), Cast(k, r.width), Cast(k, r.height))
  }

  /** `center()`: position plus half the size, halved toward zero. */
  function Center(k: Kind, r: Rect): (c: Vec2)
    requires AddDefined(k, r.left, Half(r.width)) && AddDefined(k, r.top, Half(r.height))
  {
    Vec2(Add(k, r.left, Half(r.width)), Add(k, r.top, Half(r.height)))
  }

  /** `contain(pos)`: inclusive on all four edges. The far edges are computed
      in the instance's arithmetic. */
  predicate Contain(k: Kind, r: Rect, pos: Vec2)
    requires AddDefined(k, r.left, r.width) && AddDefined(k, r.top, r.height)
  {
    r.left <= pos.x && pos.x <= Add(k, r.left, r.width) &&
    r.top <= pos.y && pos.y <= Add(k, r.top, r.height)
  }

  /** Setters and getters round-trip, and each setter leaves the other pair
      alone. */
  lemma AccessorsRoundTrip(r: Rect, v: Vec2)
    ensures GetPosition(WithPosition(r, v)) == v && GetSize(WithPosition(r, v)) == GetSize(r)
    ensures GetSize(WithSize(r, v)) == v && GetPosition(WithSize(r, v)) == GetPosition(r)
    ensures WithPosition(r, GetPosition(r)) == r && WithSize(r, GetSize(r)) == r
  {
  }

  /** When the far edges do not wrap, `contain` is the closed box
      [left, left + width] x [top, top + height]. */
  lemma ContainIsClosedBox(k: Kind, r: Rect, pos: Vec2)
    requires Valid(k, r) && AddDefined(k, r.left, r.width) && AddDefined(k, r.top, r.height)
    requires r.left + r.width < TWO_32 && r.top + r.height < TWO_32
    ensures Contain(k, r, pos) <==>
      r.left <= pos.x <= r.left + r.width && r.top <= pos.y <= r.top + r.height
  {
  }

  /** For an unsigned rectangle whose right edge wraps past 2^32, no point
      with x >= left is contained. */
  lemma WrappedRectContainsNothing(r: Rect, pos: Vec2)
    requires Valid(Unsigned, r) && r.left + r.width >= TWO_32 && r.width < TWO_32
    requires r.left <= pos.x
    ensures !Contain(Unsigned, r, pos)
  {
  }

  /** The centre lies within the closed box for a rectangle of non-negative
      size, and within one unit of the exact midpoint. */
  lemma CenterInside(k: Kind, r: Rect)
    requires Valid(k, r) && r.width >= 0 && r.height >= 0
    requires r.left + r.width < TWO_31 && r.top + r.height < TWO_31
    ensures AddDefined(k, r.left, Half(r.width)) && AddDefined(k, r.top, Half(r.height))
    ensures AddDefined(k, r.left, r.width) && AddDefined(k, r.top, r.height)
    ensures Contain(k, r, Center(k, r))
    ensures 2 * Center(k, r).x <= 2 * r.left + r.width < 2 * Center(k, r).x + 2
  {
  }

  /** Casting a signed value to unsigned and back gives it back; casting a
      value to a type that holds it leaves it alone. */
  lemma CastRoundTrip(x: int)
    requires InType(Signed, x)
    ensures Cast(Signed, Cast(Unsigned, x)) == x
    ensures InType(Unsigned, x) ==> Cast(Unsigned, x) == x
    ensures Cast(Signed, x) == x
  {
    if x >= 0 {
      assert x % TWO_32 == x;
    } else {
      assert x % TWO_32 == x + TWO_32;
      assert (x + TWO_32) % TWO_32 == x + TWO_32;
    }
  }

  /** A signed-to-unsigned-to-signed conversion gives the rectangle back. */
  lemma ConvertRoundTrip(r: Rect)
    requires Valid(Signed, r)
    ensures Convert(Signed, Convert(Unsigned, r)) == r
    ensures Valid(Unsigned, r) ==> Convert(Unsigned, r) == r
  {
    CastRoundTrip(r.left);
    CastRoundTrip(r.top);
    CastRoundTrip(r.width);
    CastRoundTrip(r.height);
  }

  /** A rectangle variable, for the two setters that update it in place. */
  class RectVar {
    var value: Rect

    constructor(init: Rect)
      ensures value == init
    {
      value := init;
    }

    method SetPosition(pos: Vec2)
      modifies this
      ensures value == WithPosition(old(value), pos)
    {
      value := value.(left := pos.x, top := pos.y);
    }

    method SetSize(size: Vec2)
      modifies this
      ensures value == WithSize(old(value), size)
    {
      value := value.(width := size.x, height := size.y);
    }
  }
}
