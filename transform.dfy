// `Transform2D` (include/vkdl/math/transform_2d.h) as a term: the sequence
// of elementary transformations it was built from, each right-multiplied
// onto the one before. The matrix arithmetic itself is floating point and
// is not modelled, so two terms with equal matrices may still differ.
module Transform {
  /** Two-component float vectors (`vec2`), kept as exact reals. */
  datatype Vec2f = Vec2f(x: real, y: real)

  datatype Op =
    | Translate(offset: Vec2f)
    | Shear(sx: real, sy: real)
    | Rotate(angle: real)
    | Scale(factor: Vec2f)
      // `scale(n / w, n / h)`, kept unevaluated: w or h may be 0, where the
      // float division gives an infinity
    | ScaleInverse(numerator: real, width: nat, height: nat)

  datatype Transform2D = Transform2D(ops: seq<Op>)

  /** `Transform2D()` and `Transform2D::identity()`. */
  const Identity: Transform2D := Transform2D([])

  /** `t.translate(v)`, `t.shear(x, y)`, `t.rotate(a)`, `t.scale(v)`: the
      operation applied after the ones already in `t`. */
  function Then(t: Transform2D, op: Op): (r: Transform2D)
    ensures |r.ops| == |t.ops| + 1 && r.ops[..|t.ops|] == t.ops && r.ops[|t.ops|] == op
  {
    Transform2D(t.ops + [op])
  }

  /** `a * b`. */
  function Mul(a: Transform2D, b: Transform2D): (r: Transform2D)
    ensures |r.ops| == |a.ops| + |b.ops|
  {
    Transform2D(a.ops + b.ops)
  }

  /** On the recorded operation sequences, the identity is a unit on both
      sides and products associate (the float matrix products need not). */
  lemma MulLaws(a: Transform2D, b: Transform2D, c: Transform2D)
    ensures Mul(Identity, a) == a && Mul(a, Identity) == a
    ensures Mul(Mul(a, b), c) == Mul(a, Mul(b, c))
  {
    assert a.ops + [] == a.ops;
    assert (a.ops + b.ops) + c.ops == a.ops + (b.ops + c.ops);
  }
}
