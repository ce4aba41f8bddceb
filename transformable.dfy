// `Transformable2D` (include/vkdl/graphics/transformable_2d.h): position,
// origin, scale, rotation and two shears, and a cached transform that is
// rebuilt from them the first time it is asked for after a change.
// Angles (`radian`) and vectors are floats, kept as exact reals.
module Transformable {
  import opened Transform

  /** The transform the six parameters describe:
      translate(position), shear, rotate, scale, translate(origin), each
      applied after the one before. */
  function Compose(position: Vec2f, shearX: real, shearY: real, rotation: real, scale: Vec2f, origin: Vec2f): (r: Transform2D)
  {
    Then(Then(Then(Then(Then(Identity, Translate(position)), Shear(shearX, shearY)), Rotate(rotation)), Scale(scale)), Translate(origin))
  }

  /** The composed transform is made of exactly five operations in the
      order translate, shear, rotate, scale, translate, and it determines
      each of the six parameters. */
  lemma ComposeOrder(position: Vec2f, shearX: real, shearY: real, rotation: real, scale: Vec2f, origin: Vec2f)
    ensures Compose(position, shearX, shearY, rotation, scale, origin).ops ==
      [Translate(position), Shear(shearX, shearY), Rotate(rotation), Scale(scale), Translate(origin)]
  {
  }

  /** Two parameter sets record the same operation sequence only when they
      are equal. Their float matrices can still coincide (any `scale(0, 0)`
      collapses the rest), which the term does not capture. */
  lemma ComposeInjective(p1: Vec2f, sx1: real, sy1: real, r1: real, s1: Vec2f, o1: Vec2f,
                         p2: Vec2f, sx2: real, sy2: real, r2: real, s2: Vec2f, o2: Vec2f)
    requires Compose(p1, sx1, sy1, r1, s1, o1) == Compose(p2, sx2, sy2, r2, s2, o2)
    ensures p1 == p2 && sx1 == sx2 && sy1 == sy2 && r1 == r2 && s1 == s2 && o1 == o2
  {
    ComposeOrder(p1, sx1, sy1, r1, s1, o1);
    ComposeOrder(p2, sx2, sy2, r2, s2, o2);
    assert Compose(p1, sx1, sy1, r1, s1, o1).ops[0] == Translate(p1);
    assert Compose(p1, sx1, sy1, r1, s1, o1).ops[1] == Shear(sx1, sy1);
    assert Compose(p1, sx1, sy1, r1, s1, o1).ops[2] == Rotate(r1);
    assert Compose(p1, sx1, sy1, r1, s1, o1).ops[3] == Scale(s1);
    assert Compose(p1, sx1, sy1, r1, s1, o1).ops[4] == Translate(o1);
  }

  /** The six parameters of a `Transformable2D`. */
  datatype Params = Params(position: Vec2f, origin: Vec2f, scale: Vec2f,
                           rotation: real, shearX: real, shearY: real)

  const Zero: Vec2f := Vec2f(0.0, 0.0)
  const One: Vec2f := Vec2f(1.0, 1.0)

  class Transformable2D {
    var position: Vec2f
    var origin: Vec2f
    var scale: Vec2f
    var rotation: real
    var shearX: real
    var shearY: real
    var mat: Transform2D
    var updated: bool

    /** The transform of the current parameters. */
    function Current(): Transform2D
      reads this
    {
      Compose(position, shearX, shearY, rotation, scale, origin)
    }

    function Parameters(): Params
      reads this
    {
      Params(position, origin, scale, rotation, shearX, shearY)
    }

    /** All six parameters still have the values the constructor gives. */
    predicate AtRest()
      reads this
    {
      position == Zero && origin == Zero && scale == One &&
      rotation == 0.0 && shearX == 0.0 && shearY == 0.0
    }

    /** A cache marked as up to date holds the current transform, or the
        identity the constructor stores, which is the matrix of the default
        parameters. */
    ghost predicate Consistent()
      reads this
    {
      updated ==> mat == Current() || (mat == Identity && AtRest())
    }

    /** Zero position, origin, rotation and shears, unit scale, the identity
        cached and marked up to date. */
    constructor ()
      ensures AtRest() && mat == Identity && updated
      ensures Consistent()
    {
      position := Zero;
      origin := Zero;
      scale := One;
      rotation := 0.0;
      shearX := 0.0;
      shearY := 0.0;
      mat := Identity;
      updated := true;
    }

    method SetOrigin(v: Vec2f)
      modifies this
      ensures origin == v && !updated && Consistent()
      ensures position == old(position) && scale == old(scale) && rotation == old(rotation)
      ensures shearX == old(shearX) && shearY == old(shearY) && mat == old(mat)
    {
      origin := v;
      updated := false;
    }

    method SetPosition(v: Vec2f)
      modifies this
      ensures position == v && !updated && Consistent()
      ensures origin == old(origin) && scale == old(scale) && rotation == old(rotation)
      ensures shearX == old(shearX) && shearY == old(shearY) && mat == old(mat)
    {
      position := v;
      updated := false;
    }

    method SetScale(v: Vec2f)
      modifies this
      ensures scale == v && !updated && Consistent()
      ensures position == old(position) && origin == old(origin) && rotation == old(rotation)
      ensures shearX == old(shearX) && shearY == old(shearY) && mat == old(mat)
    {
      scale := v;
      updated := false;
    }

    method SetRotation(v: real)
      modifies this
      ensures rotation == v && !updated && Consistent()
      ensures position == old(position) && origin == old(origin) && scale == old(scale)
      ensures shearX == old(shearX) && shearY == old(shearY) && mat == old(mat)
    {
      rotation := v;
      updated := false;
    }

    method SetShearX(v: real)
      modifies this
      ensures shearX == v && !updated && Consistent()
      ensures position == old(position) && origin == old(origin) && scale == old(scale)
      ensures rotation == old(rotation) && shearY == old(shearY) && mat == old(mat)
    {
      shearX := v;
      updated := false;
    }

    method SetShearY(v: real)
      modifies this
      ensures shearY == v && !updated && Consistent()
      ensures position == old(position) && origin == old(origin) && scale == old(scale)
      ensures rotation == old(rotation) && shearX == old(shearX) && mat == old(mat)
    {
      shearY := v;
      updated := false;
    }

    /** `move(dx, dy)` and `move(delta)`: the delta added to the position. */
    method Move(delta: Vec2f)
      modifies this
      ensures position == Vec2f(old(position.x) + delta.x, old(position.y) + delta.y)
      ensures !updated && Consistent()
      ensures origin == old(origin) && scale == old(scale) && rotation == old(rotation)
      ensures shearX == old(shearX) && shearY == old(shearY) && mat == old(mat)
    {
      position := Vec2f(position.x + delta.x, position.y + delta.y);
      updated := false;
    }

    /** `rotate(rad)`: the angle added to the rotation. */
    method Rotate(rad: real)
      modifies this
      ensures rotation == old(rotation) + rad
      ensures !updated && Consistent()
      ensures position == old(position) && origin == old(origin) && scale == old(scale)
      ensures shearX == old(shearX) && shearY == old(shearY) && mat == old(mat)
    {
      rotation := rotation + rad;
      updated := false;
    }

    /** `getTransform()`: rebuilds the cache from the parameters when it is
        stale, then returns it. The parameters never change, and the
        result is the transform of the current parameters (or the
        identity of an untouched object). */
    method GetTransform() returns (t: Transform2D)
      requires Consistent()
      modifies this
      ensures t == (if old(updated) then old(mat) else old(Current()))
      ensures t == Current() || (t == Identity && AtRest())
      ensures mat == t && updated && Consistent()
      ensures Parameters() == old(Parameters())
    {
      if !updated {
        mat := Compose(position, shearX, shearY, rotation, scale, origin);
        updated := true;
      }
      t := mat;
    }
  }
}
