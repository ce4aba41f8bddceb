// `DrawList2D` (src/drawlist_2d.cpp): a batching engine for 2D geometry.
// Emitters append vertices and absolute indices and book their counts on
// the last draw command; the texture, clip-rectangle and transform stacks
// open a new command (or reuse an empty one); `draw` replays the commands
// through the render-state cache.
//
// Vertex positions that the source computes with floating-point functions
// (line normals, circle-fan angles, glyph placement) are not modelled: such
// vertices keep only their colour.
module DrawList {
  import opened Wrappers
  import opened Uuid
  import opened Vk
  import opened Transform
  import opened Color
  import opened Gpu
  import opened RenderStates
  import Rect
  import opened Glyph

  const TWO_32: int := 0x1_0000_0000

  /** `Vertex2D`, or a vertex whose position and uv come from floating-point
      computations the model leaves out. */
  datatype Vertex2D = Vertex2D(pos: Vec2f, uv: Vec2f, col: Color) | Opaque(col: Color)

  /** The uv of a vertex built from a position and a colour. */
  const CenterUv: Vec2f := Vec2f(0.5, 0.5)

  function Colored(pos: Vec2f, col: Color): Vertex2D { Vertex2D(pos, CenterUv, col) }

  function Add(a: Vec2f, b: Vec2f): Vec2f { Vec2f(a.x + b.x, a.y + b.y) }

  /** `DrawCommand2D`: the texture (null when untextured), clip rectangle,
      transform and the vertex and index ranges of one draw call. */
  datatype DrawCommand2D = DrawCommand2D(
    texture: Option<TextureId>,
    clipRect: Rect2D,
    transform: Transform2D,
    vertexOffset: nat,
    vertexCount: nat,
    indexOffset: nat,
    indexCount: nat)

  const DefaultCommand: DrawCommand2D := DrawCommand2D(None, ZeroRect, Identity, 0, 0, 0, 0)

  /** The fields of a `DrawList2D` that its operations change. */
  datatype DrawState = DrawState(
    commands: seq<DrawCommand2D>,
    vertices: seq<Vertex2D>,
    indices: seq<nat>,
    textureStack: seq<TextureId>,
    clipRectStack: seq<Rect2D>,
    transformStack: seq<Transform2D>,
    updateBuffer: bool)

  function Last(s: DrawState): DrawCommand2D
    requires |s.commands| > 0
  {
    s.commands[|s.commands| - 1]
  }

  // ------------------------------------------------------------ invariant

  /** The commands' index ranges tile [0, n) in order. */
  ghost predicate Tiles(cmds: seq<DrawCommand2D>, n: nat)
  {
    |cmds| > 0 && cmds[0].indexOffset == 0 &&
    (forall i :: 0 <= i < |cmds| - 1 ==> cmds[i + 1].indexOffset == cmds[i].indexOffset + cmds[i].indexCount) &&
    cmds[|cmds| - 1].indexOffset + cmds[|cmds| - 1].indexCount == n
  }

  /** Every element of xs is below n. */
  predicate AllBelow(xs: seq<nat>, n: nat)
  {
    forall i :: 0 <= i < |xs| ==> xs[i] < n
  }

  /** No command has a clip rectangle. */
  ghost predicate Unclipped(cmds: seq<DrawCommand2D>)
  {
    forall i :: 0 <= i < |cmds| ==> cmds[i].clipRect == ZeroRect
  }

  /** No command counts more than n vertices. */
  ghost predicate CountsWithin(cmds: seq<DrawCommand2D>, n: nat)
  {
    forall i :: 0 <= i < |cmds| ==> cmds[i].vertexCount <= n
  }

  /** What every public operation keeps: there is always a command, the
      index ranges tile the index list, every index names an existing
      vertex, no command has a clip rectangle, and the sizes fit the 32-bit
      offsets they are stored in (so no command's vertex count exceeds the
      vertex list). */
  ghost predicate ValidState(s: DrawState)
  {
    Tiles(s.commands, |s.indices|) &&
    |s.vertices| < TWO_32 && |s.indices| < TWO_32 &&
    AllBelow(s.indices, |s.vertices|) && Unclipped(s.commands) && CountsWithin(s.commands, |s.vertices|)
  }

  /** The commands with the last one replaced by c. */
  function WithLast(cmds: seq<DrawCommand2D>, c: DrawCommand2D): (r: seq<DrawCommand2D>)
    requires |cmds| > 0
    ensures |r| == |cmds| && r[|r| - 1] == c
  {
    cmds[..|cmds| - 1] + [c]
  }

  /** Replacing the last command by one over the same start keeps the
      tiling, now up to the new command's end. */
  lemma TilesWithLast(cmds: seq<DrawCommand2D>, c: DrawCommand2D, n: nat, n': nat)
    requires Tiles(cmds, n)
    requires c.indexOffset == cmds[|cmds| - 1].indexOffset && c.indexOffset + c.indexCount == n'
    ensures Tiles(WithLast(cmds, c), n')
  {
    var r := WithLast(cmds, c);
    forall i | 0 <= i < |r| - 1
      ensures r[i + 1].indexOffset == r[i].indexOffset + r[i].indexCount
    {
      assert r[i] == cmds[i];
      assert r[i + 1].indexOffset == cmds[i + 1].indexOffset;
    }
  }

  /** Appending an empty command at the end keeps the tiling. */
  lemma TilesAppend(cmds: seq<DrawCommand2D>, c: DrawCommand2D, n: nat)
    requires Tiles(cmds, n) && c.indexOffset == n && c.indexCount == 0
    ensures Tiles(cmds + [c], n)
  {
    var r := cmds + [c];
    forall i | 0 <= i < |r| - 1
      ensures r[i + 1].indexOffset == r[i].indexOffset + r[i].indexCount
    {
      assert r[i] == cmds[i];
    }
  }

  /** Replacing the last command by an unclipped one within m' vertices. */
  lemma CommandsWithLast(cmds: seq<DrawCommand2D>, c: DrawCommand2D, m: nat, m': nat)
    requires |cmds| > 0 && Unclipped(cmds) && CountsWithin(cmds, m) && m <= m'
    requires c.clipRect == ZeroRect && c.vertexCount <= m'
    ensures Unclipped(WithLast(cmds, c)) && CountsWithin(WithLast(cmds, c), m')
  {
    var r := WithLast(cmds, c);
    forall i | 0 <= i < |r| - 1
      ensures r[i] == cmds[i]
    {
    }
  }

  /** Appending an unclipped command within m vertices. */
  lemma CommandsAppend(cmds: seq<DrawCommand2D>, c: DrawCommand2D, m: nat)
    requires Unclipped(cmds) && CountsWithin(cmds, m)
    requires c.clipRect == ZeroRect && c.vertexCount <= m
    ensures Unclipped(cmds + [c]) && CountsWithin(cmds + [c], m)
  {
  }

  /** Bounds survive concatenation. */
  lemma AllBelowAppend(a: seq<nat>, b: seq<nat>, n: nat, n': nat)
    requires AllBelow(a, n) && n <= n' && AllBelow(b, n')
    ensures AllBelow(a + b, n')
  {
  }

  /** The sizes stay within 32 bits after nv more vertices and ni more
      indices. */
  predicate Room(s: DrawState, nv: nat, ni: nat)
  {
    |s.vertices| + nv < TWO_32 && |s.indices| + ni < TWO_32
  }

  // ------------------------------------------------------------ emitting

  /** `reservePrimitives(nv, ni)`: the counts are added (as 32-bit values)
      to the last command, the upload flag is set, and the vertex count
      before the call is returned. */
  function Reserve(s: DrawState, nv: nat, ni: nat): (r: (DrawState, nat))
    requires |s.commands| > 0
    ensures |r.0.commands| == |s.commands|
  {
    var c := Last(s);
    var c' := c.(vertexCount := (c.vertexCount + nv) % TWO_32, indexCount := (c.indexCount + ni) % TWO_32);
    (s.(commands := WithLast(s.commands, c'), updateBuffer := true), |s.vertices| % TWO_32)
  }

  /** The 32-bit indices base + o for the offsets o. */
  function Shift(base: nat, offs: seq<nat>): (r: seq<nat>)
    ensures |r| == |offs|
  {
    seq(|offs|, i requires 0 <= i < |offs| => (base + offs[i]) % TWO_32)
  }



  /** An emitter: reserve nv vertices and |offs| indices, then append the
      vertices and the indices base + o. */
  function Emit(s: DrawState, nv: nat, verts: seq<Vertex2D>, offs: seq<nat>): (r: DrawState)
    requires |s.commands| > 0
    ensures |r.commands| == |s.commands|
  {
    var (s1, base) := Reserve(s, nv, |offs|);
    s1.(vertices := s1.vertices + verts, indices := s1.indices + Shift(base, offs))
  }

  /** The index patterns of the emitters. */
  const TriangleOffsets: seq<nat> := [0, 1, 2]
  const QuadOffsets: seq<nat> := [0, 1, 2, 2, 3, 0]
  const LineOffsets: seq<nat> := [0, 2, 1, 1, 2, 3]
  const ImageOffsets: seq<nat> := [0, 1, 2, 0, 2, 3]
  const StripOffsets: seq<nat> := [0, 1, 2, 2, 1, 3]

  /** Below 32 bits, the shifted offsets are plain sums. */
  lemma ShiftExact(base: nat, offs: seq<nat>, k: nat)
    requires AllBelow(offs, k) && base + k <= TWO_32
    ensures AllBelow(Shift(base, offs), base + k)
    ensures forall i :: 0 <= i < |offs| ==> Shift(base, offs)[i] == base + offs[i]
  {
  }



  /** The last command after an emitter, in a valid list with room: its
      counts grow by exactly nv and |offs|. */
  lemma EmitLastExact(s: DrawState, nv: nat, verts: seq<Vertex2D>, offs: seq<nat>)
    requires ValidState(s) && Room(s, |verts|, |offs|) && nv <= |verts|
    ensures Emit(s, nv, verts, offs).commands ==
      WithLast(s.commands, Last(s).(vertexCount := Last(s).vertexCount + nv, indexCount := Last(s).indexCount + |offs|))
  {
    assert Last(s).indexOffset + Last(s).indexCount == |s.indices|;
    assert Last(s).vertexCount <= |s.vertices|;
  }

  /** An emitter appends exactly its vertices and the indices
      |vertices| + o (in a valid list with room, no 32-bit wrap-around
      happens), adds the reserved counts to the last command only, sets the
      upload flag and leaves the stacks alone. */
  lemma EmitShape(s: DrawState, nv: nat, verts: seq<Vertex2D>, offs: seq<nat>)
    requires ValidState(s) && Room(s, |verts|, |offs|) && AllBelow(offs, |verts|)
    requires nv <= |verts|
    ensures var r := Emit(s, nv, verts, offs);
      r.updateBuffer && r.vertices == s.vertices + verts &&
      |r.indices| == |s.indices| + |offs| && r.indices[..|s.indices|] == s.indices &&
      (forall i :: 0 <= i < |offs| ==> r.indices[|s.indices| + i] == |s.vertices| + offs[i]) &&
      r.commands[..|s.commands| - 1] == s.commands[..|s.commands| - 1] &&
      Last(r) == Last(s).(vertexCount := Last(s).vertexCount + nv, indexCount := Last(s).indexCount + |offs|) &&
      r.textureStack == s.textureStack && r.clipRectStack == s.clipRectStack &&
      r.transformStack == s.transformStack
  {
    var r := Emit(s, nv, verts, offs);
    EmitLastExact(s, nv, verts, offs);
    ShiftExact(|s.vertices|, offs, |verts|);
    assert r.indices == s.indices + Shift(|s.vertices|, offs);
    assert r.commands[..|s.commands| - 1] == s.commands[..|s.commands| - 1];
  }

  /** An emitter whose offsets name the vertices it appends, and which
      reserves no more vertices than it appends, keeps the invariant. */
  lemma EmitPreserves(s: DrawState, nv: nat, verts: seq<Vertex2D>, offs: seq<nat>)
    requires ValidState(s) && Room(s, |verts|, |offs|) && AllBelow(offs, |verts|)
    requires nv <= |verts|
    ensures ValidState(Emit(s, nv, verts, offs))
  {
    var c := Last(s).(vertexCount := Last(s).vertexCount + nv, indexCount := Last(s).indexCount + |offs|);
    EmitLastExact(s, nv, verts, offs);
    assert Last(s).clipRect == ZeroRect;
    TilesWithLast(s.commands, c, |s.indices|, |s.indices| + |offs|);
    CommandsWithLast(s.commands, c, |s.vertices|, |s.vertices| + |verts|);
    ShiftExact(|s.vertices|, offs, |verts|);
    AllBelowAppend(s.indices, Shift(|s.vertices|, offs), |s.vertices|, |s.vertices| + |verts|);
  }

  // ------------------------------------------------------------- commands

  /** `newCommand()`: the last command is reused when it has no indices,
      otherwise a default command is appended; either way it gets the
      texture-stack top (or none), the transform-stack top (or the
      identity) and the current sizes as offsets. The clip rectangle and
      the counts of a reused command are left as they were. */
  function NewCommandState(s: DrawState): (r: DrawState)
    requires |s.commands| > 0
    ensures |r.commands| > 0
  {
    var last := Last(s);
    var base := if last.indexCount != 0 then DefaultCommand else last;
    var cmd := base.(
      texture := if |s.textureStack| == 0 then None else Some(s.textureStack[|s.textureStack| - 1]),
      transform := if |s.transformStack| == 0 then Identity else s.transformStack[|s.transformStack| - 1],
      vertexOffset := |s.vertices| % TWO_32,
      indexOffset := |s.indices| % TWO_32);
    s.(commands := if last.indexCount != 0 then s.commands + [cmd] else WithLast(s.commands, cmd))
  }

  /** `newCommand` appends exactly when the last command has indices, keeps
      the commands before the last, and leaves a last command with no
      indices, the stack tops, the current sizes as offsets and (when the
      invariant holds) no clip rectangle. */
  lemma NewCommandShape(s: DrawState)
    requires ValidState(s)
    ensures var r := NewCommandState(s);
      |r.commands| == (if Last(s).indexCount != 0 then |s.commands| + 1 else |s.commands|) &&
      r.commands[..|s.commands| - 1] == s.commands[..|s.commands| - 1] &&
      Last(r).indexCount == 0 && Last(r).indexOffset == |s.indices| &&
      Last(r).vertexOffset == |s.vertices| && Last(r).clipRect == ZeroRect &&
      Last(r).texture == (if |s.textureStack| == 0 then None else Some(s.textureStack[|s.textureStack| - 1])) &&
      Last(r).transform == (if |s.transformStack| == 0 then Identity else s.transformStack[|s.transformStack| - 1]) &&
      r.vertices == s.vertices && r.indices == s.indices && r.updateBuffer == s.updateBuffer &&
      r.textureStack == s.textureStack && r.clipRectStack == s.clipRectStack &&
      r.transformStack == s.transformStack
  {
    var r := NewCommandState(s);
    var n := |s.commands|;
    assert Last(s).clipRect == ZeroRect;
    if Last(s).indexCount != 0 {
      assert r.commands[..n - 1] == s.commands[..n - 1];
    } else {
      assert r.commands[..n - 1] == s.commands[..n - 1];
    }
  }

  /** `newCommand` keeps the invariant. */
  lemma NewCommandPreserves(s: DrawState)
    requires ValidState(s)
    ensures ValidState(NewCommandState(s))
  {
    var r := NewCommandState(s);
    var last := Last(s);
    assert last.clipRect == ZeroRect && last.vertexCount <= |s.vertices|;
    var cmd := r.commands[|r.commands| - 1];
    if last.indexCount != 0 {
      assert r.commands == s.commands + [cmd];
      TilesAppend(s.commands, cmd, |s.indices|);
      CommandsAppend(s.commands, cmd, |s.vertices|);
    } else {
      assert last.indexOffset == |s.indices|;
      assert r.commands == WithLast(s.commands, cmd);
      TilesWithLast(s.commands, cmd, |s.indices|, |s.indices|);
      CommandsWithLast(s.commands, cmd, |s.vertices|, |s.vertices|);
    }
  }

  /** `pushTexture(t)`: opens a command unless the last one already uses
      `t`. */
  function PushTextureState(s: DrawState, t: TextureId): (r: DrawState)
    requires |s.commands| > 0
    ensures |r.commands| > 0 && r.textureStack == s.textureStack + [t]
    ensures r.vertices == s.vertices && r.indices == s.indices
  {
    var newCmd := !(|s.commands| > 0 && Last(s).texture == Some(t));
    var s1 := s.(textureStack := s.textureStack + [t]);
    if newCmd then NewCommandState(s1) else s1
  }

  /** `popTexture()`: opens a command unless the last one uses the texture
      just popped. Popping an empty stack is undefined. */
  function PopTextureState(s: DrawState): (r: DrawState)
    requires |s.commands| > 0 && |s.textureStack| > 0
    ensures |r.commands| > 0
  {
    var t := s.textureStack[|s.textureStack| - 1];
    var s1 := s.(textureStack := s.textureStack[..|s.textureStack| - 1]);
    if |s1.commands| > 0 && Last(s1).texture == Some(t) then s1 else NewCommandState(s1)
  }

  /** A `vk::Rect2D` whose fields lie in their 32-bit types. */
  predicate RectInRange(r: Rect2D)
  {
    Rect.InType(Rect.Signed, r.offset.x) && Rect.InType(Rect.Signed, r.offset.y) &&
    Rect.InType(Rect.Unsigned, r.extent.width) && Rect.InType(Rect.Unsigned, r.extent.height)
  }

  /** The local `Rect` of `pushClipRect`: the edges as 32-bit signed values,
      the far ones computed as offset + extent and converted back. */
  function MinX(r: Rect2D): int { r.offset.x }
  function MinY(r: Rect2D): int { r.offset.y }
  function MaxX(r: Rect2D): int { Rect.Cast(Rect.Signed, r.offset.x + r.extent.width) }
  function MaxY(r: Rect2D): int { Rect.Cast(Rect.Signed, r.offset.y + r.extent.height) }

  function Max(a: int, b: int): int { if a < b then b else a }
  function Min(a: int, b: int): int { if b < a then b else a }

  /** The new extents of an intersecting push, max - min, are computed in
      32-bit signed arithmetic; an overflow there is undefined. */
  predicate IntersectDefined(rect: Rect2D, curr: Rect2D)
  {
    Rect.InType(Rect.Signed, Min(MaxX(rect), MaxX(curr)) - Max(MinX(rect), MinX(curr))) &&
    Rect.InType(Rect.Signed, Min(MaxY(rect), MaxY(curr)) - Max(MinY(rect), MinY(curr)))
  }

  /** The rectangle an intersecting `pushClipRect(rect, true)` pushes. */
  function Intersect(rect: Rect2D, curr: Rect2D): Rect2D
    requires IntersectDefined(rect, curr)
  {
    var xMin := Max(MinX(rect), MinX(curr));
    var yMin := Max(MinY(rect), MinY(curr));
    var xMax := Min(MaxX(rect), MaxX(curr));
    var yMax := Min(MaxY(rect), MaxY(curr));
    Rect2D(Offset2D(xMin, yMin), Extent2D(Rect.Cast(Rect.Unsigned, xMax - xMin), Rect.Cast(Rect.Unsigned, yMax - yMin)))
  }

  /** Casting a value its type already holds leaves it alone. */
  lemma CastKeeps(k: Rect.Kind, x: int)
    requires Rect.InType(k, x)
    ensures Rect.Cast(k, x) == x
  {
    assert x % TWO_32 == (if x >= 0 then x else x + TWO_32);
  }

  /** When no far edge wraps, the pushed rectangle starts at the larger near
      edges; when in addition the rectangles overlap, it ends at the smaller
      far edges: it is the intersection of the two. */
  lemma IntersectIsOverlap(rect: Rect2D, curr: Rect2D)
    requires Rect.InType(Rect.Signed, rect.offset.x + rect.extent.width)
    requires Rect.InType(Rect.Signed, rect.offset.y + rect.extent.height)
    requires Rect.InType(Rect.Signed, curr.offset.x + curr.extent.width)
    requires Rect.InType(Rect.Signed, curr.offset.y + curr.extent.height)
    requires IntersectDefined(rect, curr)
    ensures var r := Intersect(rect, curr);
      r.offset.x == Max(rect.offset.x, curr.offset.x) &&
      r.offset.y == Max(rect.offset.y, curr.offset.y)
    ensures var r := Intersect(rect, curr);
      Max(rect.offset.x, curr.offset.x) <= Min(rect.offset.x + rect.extent.width, curr.offset.x + curr.extent.width) ==>
      r.offset.x + r.extent.width == Min(rect.offset.x + rect.extent.width, curr.offset.x + curr.extent.width)
    ensures var r := Intersect(rect, curr);
      Max(rect.offset.y, curr.offset.y) <= Min(rect.offset.y + rect.extent.height, curr.offset.y + curr.extent.height) ==>
      r.offset.y + r.extent.height == Min(rect.offset.y + rect.extent.height, curr.offset.y + curr.extent.height)
  {
    IntersectX(rect, curr);
    IntersectY(rect, curr);
  }

  /** The x-axis half of `IntersectIsOverlap`. */
  lemma IntersectX(rect: Rect2D, curr: Rect2D)
    requires Rect.InType(Rect.Signed, rect.offset.x + rect.extent.width)
    requires Rect.InType(Rect.Signed, curr.offset.x + curr.extent.width)
    requires IntersectDefined(rect, curr)
    ensures var r := Intersect(rect, curr);
      r.offset.x == Max(rect.offset.x, curr.offset.x) &&
      (Max(rect.offset.x, curr.offset.x) <= Min(rect.offset.x + rect.extent.width, curr.offset.x + curr.extent.width) ==>
       r.offset.x + r.extent.width == Min(rect.offset.x + rect.extent.width, curr.offset.x + curr.extent.width))
  {
    CastKeeps(Rect.Signed, rect.offset.x + rect.extent.width);
    CastKeeps(Rect.Signed, curr.offset.x + curr.extent.width);
    AxisSpan(MinX(rect), MaxX(rect), MinX(curr), MaxX(curr));
  }

  /** The y-axis half of `IntersectIsOverlap`. */
  lemma IntersectY(rect: Rect2D, curr: Rect2D)
    requires Rect.InType(Rect.Signed, rect.offset.y + rect.extent.height)
    requires Rect.InType(Rect.Signed, curr.offset.y + curr.extent.height)
    requires IntersectDefined(rect, curr)
    ensures var r := Intersect(rect, curr);
      r.offset.y == Max(rect.offset.y, curr.offset.y) &&
      (Max(rect.offset.y, curr.offset.y) <= Min(rect.offset.y + rect.extent.height, curr.offset.y + curr.extent.height) ==>
       r.offset.y + r.extent.height == Min(rect.offset.y + rect.extent.height, curr.offset.y + curr.extent.height))
  {
    CastKeeps(Rect.Signed, rect.offset.y + rect.extent.height);
    CastKeeps(Rect.Signed, curr.offset.y + curr.extent.height);
    AxisSpan(MinY(rect), MaxY(rect), MinY(curr), MaxY(curr));
  }

  /** One axis: two ranges that overlap give an unsigned length reaching
      the smaller far edge. */
  lemma AxisSpan(lo1: int, hi1: int, lo2: int, hi2: int)
    requires Rect.InType(Rect.Signed, Min(hi1, hi2) - Max(lo1, lo2))
    ensures Max(lo1, lo2) <= Min(hi1, hi2) ==>
      Max(lo1, lo2) + Rect.Cast(Rect.Unsigned, Min(hi1, hi2) - Max(lo1, lo2)) == Min(hi1, hi2)
  {
    var d := Min(hi1, hi2) - Max(lo1, lo2);
    if d >= 0 { CastKeeps(Rect.Unsigned, d); }
  }

  /** `pushClipRect(rect, intersect)`; intersecting with an empty stack is
      undefined. */
  function PushClipRectState(s: DrawState, rect: Rect2D, intersect: bool): (r: DrawState)
    requires |s.commands| > 0
    requires intersect ==> (|s.clipRectStack| > 0 &&
      IntersectDefined(rect, s.clipRectStack[|s.clipRectStack| - 1]))
    ensures |r.commands| > 0
  {
    var pushed := if intersect then Intersect(rect, s.clipRectStack[|s.clipRectStack| - 1]) else rect;
    NewCommandState(s.(clipRectStack := s.clipRectStack + [pushed]))
  }

  /** `pushClipRectFullScreen()`: pushes the default rectangle. */
  function PushClipRectFullScreenState(s: DrawState): (r: DrawState)
    requires |s.commands| > 0
    ensures |r.commands| > 0
  {
    NewCommandState(s.(clipRectStack := s.clipRectStack + [ZeroRect]))
  }

  function PopClipRectState(s: DrawState): (r: DrawState)
    requires |s.commands| > 0 && |s.clipRectStack| > 0
    ensures |r.commands| > 0
  {
    NewCommandState(s.(clipRectStack := s.clipRectStack[..|s.clipRectStack| - 1]))
  }

  function PushTransformState(s: DrawState, t: Transform2D): (r: DrawState)
    requires |s.commands| > 0
    ensures |r.commands| > 0
  {
    NewCommandState(s.(transformStack := s.transformStack + [t]))
  }

  function PopTransformState(s: DrawState): (r: DrawState)
    requires |s.commands| > 0 && |s.transformStack| > 0
    ensures |r.commands| > 0
  {
    NewCommandState(s.(transformStack := s.transformStack[..|s.transformStack| - 1]))
  }

  /** `clear()` and the state the constructor leaves, but for the flag. */
  function Cleared(): DrawState
  {
    DrawState([DefaultCommand], [], [], [], [], [], true)
  }

  /** The texture rule: pushing the texture the last command already uses
      opens no command, and neither does popping the texture the last
      command uses; pushing any other texture leaves a last command that
      uses it. So one textured image after another with the same texture
      lands in the same command. */
  lemma TextureDedup(s: DrawState, t: TextureId)
    requires ValidState(s)
    ensures Last(s).texture == Some(t) ==> PushTextureState(s, t).commands == s.commands
    ensures Last(PushTextureState(s, t)).texture == Some(t)
    ensures ValidState(PushTextureState(s, t))
    ensures Last(PushTextureState(s, t)).texture == Some(t) ==> PopTextureState(PushTextureState(s, t)).commands == PushTextureState(s, t).commands
  {
    if Last(s).texture != Some(t) {
      NewCommandPreserves(s.(textureStack := s.textureStack + [t]));
    }
  }

  /** Every clip-rectangle push or pop keeps the invariant. */
  lemma ClipOpsPreserve(s: DrawState, rect: Rect2D, intersect: bool)
    requires ValidState(s)
    requires intersect ==> (|s.clipRectStack| > 0 &&
      IntersectDefined(rect, s.clipRectStack[|s.clipRectStack| - 1]))
    ensures ValidState(PushClipRectState(s, rect, intersect))
    ensures ValidState(PushClipRectFullScreenState(s))
    ensures |s.clipRectStack| > 0 ==> ValidState(PopClipRectState(s))
  {
    var pushed := if intersect then Intersect(rect, s.clipRectStack[|s.clipRectStack| - 1]) else rect;
    NewCommandPreserves(s.(clipRectStack := s.clipRectStack + [pushed]));
    NewCommandPreserves(s.(clipRectStack := s.clipRectStack + [ZeroRect]));
    if |s.clipRectStack| > 0 {
      NewCommandPreserves(s.(clipRectStack := s.clipRectStack[..|s.clipRectStack| - 1]));
    }
  }

  /** So do the transform push and pop, and a texture pop. */
  lemma TransformOpsPreserve(s: DrawState, t: Transform2D)
    requires ValidState(s)
    ensures ValidState(PushTransformState(s, t))
    ensures |s.transformStack| > 0 ==> ValidState(PopTransformState(s))
    ensures |s.textureStack| > 0 ==> ValidState(PopTextureState(s))
  {
    NewCommandPreserves(s.(transformStack := s.transformStack + [t]));
    if |s.transformStack| > 0 {
      NewCommandPreserves(s.(transformStack := s.transformStack[..|s.transformStack| - 1]));
    }
    if |s.textureStack| > 0 {
      NewCommandPreserves(s.(textureStack := s.textureStack[..|s.textureStack| - 1]));
    }
  }

  /** The cleared list has one default command and satisfies the
      invariant. */
  lemma ClearedIsValid()
    ensures ValidState(Cleared()) && Cleared().commands == [DefaultCommand]
    ensures Cleared().updateBuffer && |Cleared().vertices| == 0 && |Cleared().indices| == 0
  {
  }

  // ------------------------------------------------------ emitter shapes

  /** The corners `addFilledRect` emits: pos, pos + (w, 0), pos + size,
      pos + (0, h). */
  function RectCorners(pos: Vec2f, size: Vec2f, col: Color): seq<Vertex2D>
  {
    [Colored(pos, col), Colored(Add(pos, Vec2f(size.x, 0.0)), col),
     Colored(Add(pos, size), col), Colored(Add(pos, Vec2f(0.0, size.y)), col)]
  }

  function Abs(r: real): real { if r < 0.0 then -r else r }

  /** The corners `addDot` emits: a square of side |r| centred on p. */
  function DotCorners(p: Vec2f, r: real, col: Color): seq<Vertex2D>
  {
    var h := 0.5 * Abs(r);
    [Colored(Add(p, Vec2f(-h, -h)), col), Colored(Add(p, Vec2f(h, -h)), col),
     Colored(Add(p, Vec2f(h, h)), col), Colored(Add(p, Vec2f(-h, h)), col)]
  }

  /** The corners `addImage` emits, with uv0 and uv1 spread over them. */
  function ImageCorners(pos: Vec2f, size: Vec2f, uv0: Vec2f, uv1: Vec2f, col: Color): seq<Vertex2D>
  {
    [Vertex2D(pos, uv0, col),
     Vertex2D(Vec2f(pos.x + size.x, pos.y), Vec2f(uv1.x, uv0.y), col),
     Vertex2D(Vec2f(pos.x + size.x, pos.y + size.y), uv1, col),
     Vertex2D(Vec2f(pos.x, pos.y + size.y), Vec2f(uv0.x, uv1.y), col)]
  }

  /** The corners `addGlyphQuad` emits: the glyph's bounds and atlas
      rectangle grown by one pixel, sheared by the italic factor. */
  function GlyphCorners(pos: Vec2f, col: Color, g: Glyph, italicShear: real): seq<Vertex2D>
  {
    var p1 := Vec2f(g.bounds.left - 1.0, g.bounds.top - 1.0);
    var p2 := Vec2f(g.bounds.left + g.bounds.width + 1.0, g.bounds.top + g.bounds.height + 1.0);
    var t := g.textureRect;
    var uv1 := Vec2f(t.left as real - 1.0, t.top as real - 1.0);
    var uv2 := Vec2f((t.left + t.width) as real + 1.0, (t.top + t.height) as real + 1.0);
    [Vertex2D(Add(pos, Vec2f(p1.x - italicShear * p1.y, p1.y)), uv1, col),
     Vertex2D(Add(pos, Vec2f(p2.x - italicShear * p1.y, p1.y)), Vec2f(uv2.x, uv1.y), col),
     Vertex2D(Add(pos, Vec2f(p1.x - italicShear * p2.y, p2.y)), Vec2f(uv1.x, uv2.y), col),
     Vertex2D(Add(pos, Vec2f(p2.x - italicShear * p2.y, p2.y)), uv2, col)]
  }

  /** The corners `addTextLine` emits: a bar from x = 0 to the line length
      whose top and height are rounded to whole pixels, grown by the
      outline thickness. */
  function LineCorners(lineLength: real, lineTop: real, col: Color, offset: real, thickness: real,
                       outline: real): seq<Vertex2D>
  {
    var top := (lineTop + offset - thickness / 2.0 + 0.5).Floor as real;
    var bottom := top + (thickness + 0.5).Floor as real;
    [Colored(Vec2f(-outline, top - outline), col), Colored(Vec2f(lineLength + outline, top - outline), col),
     Colored(Vec2f(-outline, bottom + outline), col), Colored(Vec2f(lineLength + outline, bottom + outline), col)]
  }

  /** Four vertices whose positions come from floating-point work. */
  function OpaqueQuad(col: Color): seq<Vertex2D>
  {
    [Opaque(col), Opaque(col), Opaque(col), Opaque(col)]
  }

  /** The vertices of `addFilledCircleFan`: the centre, then seg + 1 points
      on the arc. */
  function FanVertices(pos: Vec2f, col: Color, seg: nat): (r: seq<Vertex2D>)
    ensures |r| == seg + 2 && r[0] == Colored(pos, col)
    ensures forall i :: 1 <= i < |r| ==> r[i] == Opaque(col)
  {
    [Colored(pos, col)] + seq(seg + 1, _ => Opaque(col))
  }

  /** The index offsets of a fan of seg segments: the triangles
      (0, i, i + 1) for i = 1 .. seg. */
  function FanOffsets(seg: nat): (r: seq<nat>)
    ensures |r| == 3 * seg
  {
    if seg == 0 then [] else FanOffsets(seg - 1) + [0, seg, seg + 1]
  }

  /** Triangle k of a fan is (0, k + 1, k + 2), so every offset names one of
      the seg + 2 vertices the fan appends, although it reserves only
      seg + 1. */
  lemma {:induction false} FanOffsetsShape(seg: nat)
    ensures forall k :: 0 <= k < seg ==>
      FanOffsets(seg)[3 * k] == 0 && FanOffsets(seg)[3 * k + 1] == k + 1 && FanOffsets(seg)[3 * k + 2] == k + 2
    ensures AllBelow(FanOffsets(seg), seg + 2)
  {
    if seg > 0 {
      FanOffsetsShape(seg - 1);
      var p := FanOffsets(seg - 1);
      assert FanOffsets(seg) == p + [0, seg, seg + 1];
      forall k | 0 <= k < seg
        ensures FanOffsets(seg)[3 * k] == 0 && FanOffsets(seg)[3 * k + 1] == k + 1 && FanOffsets(seg)[3 * k + 2] == k + 2
      {
        if k < seg - 1 {
          assert FanOffsets(seg)[3 * k] == p[3 * k];
          assert FanOffsets(seg)[3 * k + 1] == p[3 * k + 1];
          assert FanOffsets(seg)[3 * k + 2] == p[3 * k + 2];
        }
      }
      forall i | 0 <= i < |FanOffsets(seg)|
        ensures FanOffsets(seg)[i] < seg + 2
      {
        if i < |p| { assert FanOffsets(seg)[i] == p[i]; }
      }
    }
  }

  /** n glyph or text-line quads, each with opaque vertices of colour col:
      4 vertices and 6 indices each, appended after the existing ones. */
  function EmitQuads(s: DrawState, n: nat, col: Color): (r: DrawState)
    requires |s.commands| > 0
    ensures |r.commands| == |s.commands| && r.textureStack == s.textureStack
  {
    if n == 0 then s
    else Emit(EmitQuads(s, n - 1, col), 4, OpaqueQuad(col), StripOffsets)
  }

  /** n quads add 4n vertices and 6n indices. */
  lemma {:induction false} EmitQuadsSizes(s: DrawState, n: nat, col: Color)
    requires |s.commands| > 0
    ensures |EmitQuads(s, n, col).vertices| == |s.vertices| + 4 * n
    ensures |EmitQuads(s, n, col).indices| == |s.indices| + 6 * n
  {
    if n > 0 {
      EmitQuadsSizes(s, n - 1, col);
    }
  }

  /** n quads append 4n opaque vertices and 6n indices, keep the commands
      before the last and the stacks, and set the upload flag when n > 0. */
  lemma {:induction false} EmitQuadsShape(s: DrawState, n: nat, col: Color)
    requires |s.commands| > 0
    ensures var r := EmitQuads(s, n, col);
      s.commands[..|s.commands| - 1] <= r.commands &&
      |r.vertices| == |s.vertices| + 4 * n && s.vertices <= r.vertices &&
      (forall i :: |s.vertices| <= i < |r.vertices| ==> r.vertices[i] == Opaque(col)) &&
      |r.indices| == |s.indices| + 6 * n && s.indices <= r.indices &&
      r.textureStack == s.textureStack && r.clipRectStack == s.clipRectStack &&
      r.transformStack == s.transformStack && r.updateBuffer == (s.updateBuffer || n > 0)
  {
    if n > 0 {
      EmitQuadsShape(s, n - 1, col);
      var p := EmitQuads(s, n - 1, col);
      assert WithLast(p.commands, Last(p))[..|s.commands| - 1] == p.commands[..|s.commands| - 1];
    }
  }

  // ---------------------------------------------------------------- text

  /** A byte of the text; `addText` walks the string byte by byte. */
  type Byte = b: int | 0 <= b < 256

  const CR: Byte := 13
  const LF: Byte := 10
  const Space: Byte := 32
  const Tab: Byte := 9

  predicate IsBlank(c: Byte) { c == Space || c == LF || c == Tab }

  /** The previous character `addText` has seen after a prefix: the last
      byte that is not a carriage return, or 0. */
  function PrevChar(text: seq<Byte>): int
  {
    if |text| == 0 then 0
    else if text[|text| - 1] == CR then PrevChar(text[..|text| - 1])
    else text[|text| - 1]
  }

  /** The quads one byte adds: none for a carriage return; an underline
      and a strike-through line (as enabled) at the first of a run of line
      feeds; a glyph quad unless the byte is blank. */
  function StepQuads(c: Byte, prev: int, underline: bool, strike: bool): nat
  {
    if c == CR then 0
    else
      (if c == LF && prev != LF then (if underline then 1 else 0) + (if strike then 1 else 0) else 0) +
      (if IsBlank(c) then 0 else 1)
  }

  /** The quads the loop of `addText` emits for a prefix of the text. */
  function LoopQuads(text: seq<Byte>, underline: bool, strike: bool): nat
  {
    if |text| == 0 then 0
    else (LoopQuads(text[..|text| - 1], underline, strike) +
      StepQuads(text[|text| - 1], PrevChar(text[..|text| - 1]), underline, strike))
  }

  /** All quads of a non-empty `addText`: the loop's, and the closing
      underline and strike-through lines when the pen ended right of the
      origin (a floating-point outcome, given here as penPastOrigin). */
  function TextQuads(text: seq<Byte>, underline: bool, strike: bool, penPastOrigin: bool): nat
  {
    LoopQuads(text, underline, strike) + ClosingQuads(underline, strike, penPastOrigin)
  }

  /** The quads of the closing underline and strike-through lines. */
  function ClosingQuads(underline: bool, strike: bool, penPastOrigin: bool): nat
  {
    (if underline && penPastOrigin then 1 else 0) + (if strike && penPastOrigin then 1 else 0)
  }

  /** The state after the loop of `addText` over a prefix of the text: the
      quads of each byte in turn. */
  function TextLoop(s: DrawState, text: seq<Byte>, fill: Color, underline: bool, strike: bool): (r: DrawState)
    requires |s.commands| > 0
    ensures |r.commands| == |s.commands| && r.textureStack == s.textureStack
  {
    if |text| == 0 then s
    else
      var init := text[..|text| - 1];
      EmitQuads(TextLoop(s, init, fill, underline, strike),
                StepQuads(text[|text| - 1], PrevChar(init), underline, strike), fill)
  }

  /** `addText(pos, text, style)` with the font texture for the style's
      size: the texture is pushed; an empty text stops there, leaving it on
      the stack; otherwise the loop's quads and the closing lines are
      emitted and the texture popped. */
  function TextState(s: DrawState, text: seq<Byte>, font: TextureId, fill: Color,
                     underline: bool, strike: bool, penPastOrigin: bool): (r: DrawState)
    requires |s.commands| > 0
    ensures |r.commands| > 0
  {
    var pushed := PushTextureState(s, font);
    if |text| == 0 then pushed
    else PopTextureState(EmitQuads(TextLoop(pushed, text, fill, underline, strike),
                                   ClosingQuads(underline, strike, penPastOrigin), fill))
  }

  /** The loop adds four vertices and six indices per counted quad. */
  lemma {:induction false} TextLoopSizes(s: DrawState, text: seq<Byte>, fill: Color, underline: bool, strike: bool)
    requires |s.commands| > 0
    ensures |TextLoop(s, text, fill, underline, strike).vertices| == |s.vertices| + 4 * LoopQuads(text, underline, strike)
    ensures |TextLoop(s, text, fill, underline, strike).indices| == |s.indices| + 6 * LoopQuads(text, underline, strike)
  {
    if |text| > 0 {
      var init := text[..|text| - 1];
      TextLoopSizes(s, init, fill, underline, strike);
      EmitQuadsSizes(TextLoop(s, init, fill, underline, strike),
                     StepQuads(text[|text| - 1], PrevChar(init), underline, strike), fill);
    }
  }

  /** One pass of the loop of `addText`: byte i fits in the room left, and
      extends the state and the previous character by one byte. */
  lemma TextLoopStep(s: DrawState, text: seq<Byte>, i: nat, fill: Color, underline: bool, strike: bool, closing: nat)
    requires i < |text| && |s.commands| > 0
    requires Room(s, 4 * (LoopQuads(text, underline, strike) + closing), 6 * (LoopQuads(text, underline, strike) + closing))
    ensures var n := StepQuads(text[i], PrevChar(text[..i]), underline, strike);
      Room(TextLoop(s, text[..i], fill, underline, strike), 4 * n, 6 * n) &&
      TextLoop(s, text[..i + 1], fill, underline, strike) == EmitQuads(TextLoop(s, text[..i], fill, underline, strike), n, fill)
    ensures PrevChar(text[..i + 1]) == if text[i] == CR then PrevChar(text[..i]) else text[i]
  {
    assert text[..i + 1][..i] == text[..i];
    LoopQuadsPrefix(text, i + 1, underline, strike);
    TextLoopSizes(s, text[..i], fill, underline, strike);
  }

  /** A prefix of the text emits no more quads than the whole. */
  lemma {:induction false} LoopQuadsPrefix(text: seq<Byte>, i: nat, underline: bool, strike: bool)
    requires i <= |text|
    ensures LoopQuads(text[..i], underline, strike) <= LoopQuads(text, underline, strike)
    decreases |text|
  {
    if i < |text| {
      var init := text[..|text| - 1];
      assert init[..i] == text[..i];
      LoopQuadsPrefix(init, i, underline, strike);
    } else {
      assert text[..i] == text;
    }
  }

  /** Without blanks, carriage returns and decorations, every byte is a
      glyph quad: a character of several UTF-8 bytes gives several quads. */
  lemma {:induction false} PlainTextQuadPerByte(text: seq<Byte>, underline: bool, strike: bool)
    requires forall i :: 0 <= i < |text| ==> !IsBlank(text[i]) && text[i] != CR
    ensures LoopQuads(text, underline, strike) == |text|
  {
    if |text| > 0 {
      PlainTextQuadPerByte(text[..|text| - 1], underline, strike);
    }
  }

  /** Carriage returns change nothing: a text with an extra carriage
      return emits the same quads. */
  lemma {:induction false} CarriageReturnIgnored(a: seq<Byte>, b: seq<Byte>, underline: bool, strike: bool)
    ensures LoopQuads(a + [CR] + b, underline, strike) == LoopQuads(a + b, underline, strike)
    ensures PrevChar(a + [CR] + b) == PrevChar(a + b)
    decreases |b|
  {
    if |b| == 0 {
      assert a + [CR] + b == a + [CR] && (a + [CR])[..|a|] == a && a + b == a;
    } else {
      var b' := b[..|b| - 1];
      CarriageReturnIgnored(a, b', underline, strike);
      assert (a + [CR] + b)[..|a + [CR] + b| - 1] == a + [CR] + b';
      assert (a + b)[..|a + b| - 1] == a + b';
    }
  }

  /** A run of line feeds draws its underline once, at its first feed. */
  lemma LineFeedRunUnderlinedOnce(k: nat)
    requires k > 0
    ensures LoopQuads(seq(k, _ => LF), true, false) == 1
  {
    if k > 1 {
      var t := seq(k, _ => LF);
      assert t[..k - 1] == seq(k - 1, _ => LF);
      LineFeedRunUnderlinedOnce(k - 1);
      assert PrevChar(t[..k - 1]) == LF;
    } else {
      assert seq(1, _ => LF)[..0] == [];
    }
  }

  // ----------------------------------------------------------------- draw

  /** The pipeline `draw` selects for a command. */
  function PipelineFor(c: DrawCommand2D): UUID
  {
    if c.texture.Some? then BuiltinPipeline0 else BuiltinPipeline1
  }

  /** The scissor `draw` selects for a command: the whole framebuffer when
      the command's clip rectangle is the default one. */
  function ScissorFor(c: DrawCommand2D, fb: Extent2D): Rect2D
  {
    if c.clipRect == ZeroRect then FullRect(fb) else c.clipRect
  }

  /** The texture events of a command: bind its texture and push its
      size, when it has one. */
  function TextureEvents(c: DrawCommand2D): seq<Event>
  {
    if c.texture.Some? then [BindTexture(c.texture.value), PushTextureSize(c.texture.value)] else []
  }

  /** The states once a command's pipeline and scissor are selected. */
  function SelectStates(c: DrawCommand2D, fb: Extent2D, s: States): States
  {
    var s1 := s.(pipeline := UpdateCell(s.pipeline, PipelineFor(c)));
    s1.(scissor := UpdateCell(s1.scissor, ScissorFor(c, fb)))
  }

  /** One command of `draw`: select its pipeline (and bind its texture and
      push its size), select its scissor, push its transform, bind the
      states and draw its index range. */
  function Step(c: DrawCommand2D, fb: Extent2D, s: States, options: RenderOptions): (seq<Event>, States)
  {
    var bound := BindStates(SelectStates(c, fb, s), fb, options);
    (TextureEvents(c) + [Event.PushTransform(Mul(BaseTransform(fb), c.transform))] + bound.0 +
     [DrawIndexed(c.indexCount, c.indexOffset)], bound.1)
  }

  /** The commands of `draw`'s loop, in order. */
  function Replay(cmds: seq<DrawCommand2D>, fb: Extent2D, s: States, options: RenderOptions): (seq<Event>, States)
  {
    if |cmds| == 0 then ([], s)
    else
      var r := Replay(cmds[..|cmds| - 1], fb, s, options);
      var st := Step(cmds[|cmds| - 1], fb, r.1, options);
      (r.0 + st.0, st.1)
  }

  /** One more command extends the replay by that command's step: a trace
      that holds the replay of the first i commands, followed by the events
      of command i, holds the replay of the first i + 1. */
  lemma ReplayExtend(t0: seq<Event>, t1: seq<Event>, t2: seq<Event>, s1: States, s2: States,
                     cmds: seq<DrawCommand2D>, i: nat, fb: Extent2D, s0: States, options: RenderOptions)
    requires i < |cmds|
    requires |t1| >= |t0| && t1[..|t0|] == t0 && (t1[|t0|..], s1) == Replay(cmds[..i], fb, s0, options)
    requires |t2| >= |t1| && t2[..|t1|] == t1 && (t2[|t1|..], s2) == Step(cmds[i], fb, s1, options)
    ensures |t2| >= |t0| && t2[..|t0|] == t0
    ensures (t2[|t0|..], s2) == Replay(cmds[..i + 1], fb, s0, options)
  {
    assert cmds[..i + 1][..i] == cmds[..i];
    assert t2[|t0|..] == t1[|t0|..] + t2[|t1|..];
  }

  /** Whether `draw` does anything: it returns at once when the first
      command has no indices. */
  predicate Draws(d: DrawState)
  {
    |d.commands| > 0 && d.commands[0].indexCount != 0
  }

  /** `draw(target, states, options)`: the events it records, the states it
      leaves and the new upload flag. */
  function DrawEvents(d: DrawState, fb: Extent2D, s: States, options: RenderOptions): (seq<Event>, States, bool)
  {
    if !Draws(d) then ([], s, d.updateBuffer)
    else
      var s0 := s.(renderpass := UpdateCell(s.renderpass, BuiltinRenderPass0));
      var (e, t) := Replay(d.commands, fb, s0, options);
      (DrawHead(d.updateBuffer, |d.vertices|, |d.indices|) + e, t, false)
  }

  /** What `draw` records before its loop: the upload when the geometry
      changed, then the vertex and index buffer bindings. */
  function DrawHead(upload: bool, vertexCount: nat, indexCount: nat): (r: seq<Event>)
    ensures |r| == if upload then 3 else 2
    ensures r[|r| - 2..] == [BindVertexBuffer, BindIndexBuffer]
    ensures upload <==> UploadGeometry(vertexCount, indexCount) in r
  {
    (if upload then [UploadGeometry(vertexCount, indexCount)] else []) + [BindVertexBuffer, BindIndexBuffer]
  }

  /** The draw calls among a list of events. */
  function DrawCalls(events: seq<Event>): (r: seq<(nat, nat)>)
    ensures |r| <= |events|
  {
    if |events| == 0 then []
    else (DrawCalls(events[..|events| - 1]) +
      (match events[|events| - 1]
       case DrawIndexed(n, first) => [(n, first)]
       case _ => []))
  }

  lemma DrawCallsAppend(a: seq<Event>, b: seq<Event>)
    ensures DrawCalls(a + b) == DrawCalls(a) + DrawCalls(b)
    decreases |b|
  {
    if |b| == 0 {
      assert a + b == a;
    } else {
      DrawCallsAppend(a, b[..|b| - 1]);
      assert (a + b)[..|a + b| - 1] == a + b[..|b| - 1];
    }
  }

  /** `bind` records no draw call. */
  lemma BindDrawsNothing(s: States, fb: Extent2D, options: RenderOptions)
    ensures DrawCalls(BindStates(s, fb, options).0) == []
  {
    var cmds := BindStates(s, fb, options).0;
    BindOrder(s, fb, options);
    assert forall i :: 0 <= i < |cmds| ==> !cmds[i].DrawIndexed?;
    NoDrawIndexedNoCalls(cmds);
  }

  lemma {:induction false} NoDrawIndexedNoCalls(events: seq<Event>)
    requires forall i :: 0 <= i < |events| ==> !events[i].DrawIndexed?
    ensures DrawCalls(events) == []
  {
    if |events| > 0 {
      NoDrawIndexedNoCalls(events[..|events| - 1]);
    }
  }

  /** One command of `draw` makes exactly one draw call, for its index
      range. */
  lemma StepDrawCalls(c: DrawCommand2D, fb: Extent2D, s: States, options: RenderOptions)
    ensures DrawCalls(Step(c, fb, s, options).0) == [(c.indexCount, c.indexOffset)]
  {
    var s2 := SelectStates(c, fb, s);
    BindDrawsNothing(s2, fb, options);
    TextureHeadDrawsNothing(c, fb);
    CallsOfStepShape(TextureEvents(c) + [Event.PushTransform(Mul(BaseTransform(fb), c.transform))],
      BindStates(s2, fb, options).0, c.indexCount, c.indexOffset);
  }

  /** The texture binding and the transform before a command's binds are no
      draw calls. */
  lemma TextureHeadDrawsNothing(c: DrawCommand2D, fb: Extent2D)
    ensures DrawCalls(TextureEvents(c) + [Event.PushTransform(Mul(BaseTransform(fb), c.transform))]) == []
  {
    var head := TextureEvents(c) + [Event.PushTransform(Mul(BaseTransform(fb), c.transform))];
    assert forall i :: 0 <= i < |head| ==> !head[i].DrawIndexed?;
    NoDrawIndexedNoCalls(head);
  }

  /** Events without draw calls, then one indexed draw. */
  lemma CallsOfStepShape(head: seq<Event>, bind: seq<Event>, n: nat, first: nat)
    requires DrawCalls(head) == [] && DrawCalls(bind) == []
    ensures DrawCalls(head + bind + [DrawIndexed(n, first)]) == [(n, first)]
  {
    DrawCallsAppend(head, bind);
    DrawCallsAppend(head + bind, [DrawIndexed(n, first)]);
    assert DrawCalls([DrawIndexed(n, first)]) == DrawCalls([]) + [(n, first)];
  }

  /** Each command's index range, in order. */
  function IndexRanges(cmds: seq<DrawCommand2D>): (r: seq<(nat, nat)>)
    ensures |r| == |cmds|
  {
    if |cmds| == 0 then []
    else IndexRanges(cmds[..|cmds| - 1]) + [(cmds[|cmds| - 1].indexCount, cmds[|cmds| - 1].indexOffset)]
  }

  /** The i-th range is the i-th command's index count and offset. */
  lemma {:induction false} IndexRangesAt(cmds: seq<DrawCommand2D>, i: nat)
    requires i < |cmds|
    ensures IndexRanges(cmds)[i] == (cmds[i].indexCount, cmds[i].indexOffset)
  {
    if i < |cmds| - 1 {
      IndexRangesAt(cmds[..|cmds| - 1], i);
    }
  }

  /** Events for some commands followed by one command's events make the
      draw calls of all of them. */
  lemma CallsSnoc(e: seq<Event>, e2: seq<Event>, cmds: seq<DrawCommand2D>)
    requires |cmds| > 0
    requires DrawCalls(e) == IndexRanges(cmds[..|cmds| - 1])
    requires DrawCalls(e2) == [(cmds[|cmds| - 1].indexCount, cmds[|cmds| - 1].indexOffset)]
    ensures DrawCalls(e + e2) == IndexRanges(cmds)
  {
    DrawCallsAppend(e, e2);
  }

  /** The draw calls of `draw`'s loop are, in order, one per command, each
      drawing the command's index count from its index offset. */
  lemma {:induction false} ReplayDrawCalls(cmds: seq<DrawCommand2D>, fb: Extent2D, s: States, options: RenderOptions)
    ensures DrawCalls(Replay(cmds, fb, s, options).0) == IndexRanges(cmds)
  {
    if |cmds| > 0 {
      var c := cmds[|cmds| - 1];
      var init := cmds[..|cmds| - 1];
      ReplayDrawCalls(init, fb, s, options);
      var r := Replay(init, fb, s, options);
      var st := Step(c, fb, r.1, options);
      StepDrawCalls(c, fb, r.1, options);
      CallsSnoc(r.0, st.0, cmds);
    }
  }

  /** What `draw` records: nothing when the first command is empty;
      otherwise an upload first exactly when the flag was set. The flag is
      then clear, so a second `draw` uploads nothing. */
  lemma DrawTrace(d: DrawState, fb: Extent2D, s: States, options: RenderOptions)
    ensures !Draws(d) ==> DrawEvents(d, fb, s, options) == ([], s, d.updateBuffer)
    ensures Draws(d) ==> !DrawEvents(d, fb, s, options).2
    ensures var e := DrawEvents(d, fb, s, options).0;
      Draws(d) ==>
        (|e| > 0 && e[0].UploadGeometry? <==> d.updateBuffer) &&
        (d.updateBuffer ==> e[0] == UploadGeometry(|d.vertices|, |d.indices|))
    ensures var e := DrawEvents(d, fb, s, options).0;
      Draws(d) && d.updateBuffer ==> e[1] == BindVertexBuffer && e[2] == BindIndexBuffer
    ensures var e := DrawEvents(d, fb, s, options).0;
      Draws(d) && !d.updateBuffer ==> e[0] == BindVertexBuffer && e[1] == BindIndexBuffer
  {
  }

  /** After the upload and the buffer bindings, `draw` makes one draw call
      per command, in order, for its index range. */
  lemma DrawCallsInOrder(d: DrawState, fb: Extent2D, s: States, options: RenderOptions)
    requires Draws(d)
    ensures DrawCalls(DrawEvents(d, fb, s, options).0) == IndexRanges(d.commands)
  {
    var head := DrawHead(d.updateBuffer, |d.vertices|, |d.indices|);
    var s0 := s.(renderpass := UpdateCell(s.renderpass, BuiltinRenderPass0));
    var e := Replay(d.commands, fb, s0, options).0;
    ReplayDrawCalls(d.commands, fb, s0, options);
    HeadDrawsNothing(d.updateBuffer, |d.vertices|, |d.indices|);
    DrawCallsAppend(head, e);
  }

  /** The upload and the buffer bindings are no draw calls. */
  lemma HeadDrawsNothing(upload: bool, vertexCount: nat, indexCount: nat)
    ensures DrawCalls(DrawHead(upload, vertexCount, indexCount)) == []
  {
    var head := DrawHead(upload, vertexCount, indexCount);
    assert forall i :: 0 <= i < |head| ==> !head[i].DrawIndexed?;
    NoDrawIndexedNoCalls(head);
  }

  /** Per command, the pipeline cell holds pipeline 0 exactly when the
      command is textured (pipeline 1 otherwise) when `bind` runs, and the
      scissor cell holds the framebuffer rectangle for a command with the
      default clip rectangle, unless the options override it. */
  lemma StepSelects(c: DrawCommand2D, fb: Extent2D, s: States, options: RenderOptions)
    ensures var t := Step(c, fb, s, options).1;
      t.pipeline.value == (if c.texture.Some? then BuiltinPipeline0 else BuiltinPipeline1) &&
      t.pipeline.updated && t.renderpass == CheckCell(s.renderpass).0
    ensures var t := Step(c, fb, s, options).1;
      c.clipRect == ZeroRect && options.scissor.None? ==> t.scissor.value == FullRect(fb)
    ensures var e := Step(c, fb, s, options).0;
      c.texture.Some? ==> e[0] == BindTexture(c.texture.value) && e[1] == PushTextureSize(c.texture.value)
  {
  }

  /** The scissors `bind` sets, when no option overrides the scissor,
      are the values of the scissor cell. */
  function Scissors(events: seq<Event>): seq<Rect2D>
  {
    if |events| == 0 then []
    else (Scissors(events[..|events| - 1]) +
      (match events[|events| - 1]
       case SetScissor(r) => [r]
       case _ => []))
  }

  lemma ScissorsAppend(a: seq<Event>, b: seq<Event>)
    ensures Scissors(a + b) == Scissors(a) + Scissors(b)
    decreases |b|
  {
    if |b| == 0 {
      assert a + b == a;
    } else {
      ScissorsAppend(a, b[..|b| - 1]);
      assert (a + b)[..|a + b| - 1] == a + b[..|b| - 1];
    }
  }

  lemma {:induction false} NoSetScissorNoScissors(events: seq<Event>)
    requires forall i :: 0 <= i < |events| ==> !events[i].SetScissor?
    ensures Scissors(events) == []
  {
    if |events| > 0 {
      NoSetScissorNoScissors(events[..|events| - 1]);
    }
  }

  /** One command sets the scissor at most once, to the one it selected,
      unless an option overrides it. */
  lemma StepScissor(c: DrawCommand2D, fb: Extent2D, s: States, options: RenderOptions)
    requires options.scissor.None?
    ensures forall r :: r in Scissors(Step(c, fb, s, options).0) ==> r == ScissorFor(c, fb)
  {
    var s2 := SelectStates(c, fb, s);
    BindScissors(s2, fb, options);
    TextureHeadNoScissors(c, fb);
    ScissorsOpt(true, DrawIndexed(c.indexCount, c.indexOffset));
    ScissorsOfStepShape(TextureEvents(c) + [Event.PushTransform(Mul(BaseTransform(fb), c.transform))],
      BindStates(s2, fb, options).0, [DrawIndexed(c.indexCount, c.indexOffset)]);
  }

  /** The texture binding and the transform set no scissor. */
  lemma TextureHeadNoScissors(c: DrawCommand2D, fb: Extent2D)
    ensures Scissors(TextureEvents(c) + [Event.PushTransform(Mul(BaseTransform(fb), c.transform))]) == []
  {
    var head := TextureEvents(c) + [Event.PushTransform(Mul(BaseTransform(fb), c.transform))];
    assert forall i :: 0 <= i < |head| ==> !head[i].SetScissor?;
    NoSetScissorNoScissors(head);
  }

  /** Events around the binds that set no scissor leave the binds' ones. */
  lemma ScissorsOfStepShape(head: seq<Event>, bind: seq<Event>, tail: seq<Event>)
    requires Scissors(head) == [] && Scissors(tail) == []
    ensures Scissors(head + bind + tail) == Scissors(bind)
  {
    ScissorsAppend(head, bind);
    ScissorsAppend(head + bind, tail);
  }

  /** `bind` without a scissor option sets the stored scissor when it is
      pending, and no other. */
  lemma BindScissors(s: States, fb: Extent2D, options: RenderOptions)
    requires options.scissor.None?
    ensures Scissors(BindStates(s, fb, options).0) == if s.scissor.updated then [] else [s.scissor.value]
  {
    var rp := CheckCell(s.renderpass);
    var pl := CheckCell(s.pipeline);
    var vp := CheckCellWith(s.viewport, options.viewport);
    var sc := CheckCellWith(s.scissor, options.scissor);
    var a := if rp.1 then [BeginRenderPass(rp.0.value, FullRect(fb))] else [];
    var b := if pl.1 then [BindPipeline(pl.0.value)] else [];
    var c := if vp.1 then [SetViewport(vp.0.value)] else [];
    var d := if sc.1 then [SetScissor(sc.0.value)] else [];
    ScissorsOpt(rp.1, BeginRenderPass(rp.0.value, FullRect(fb)));
    ScissorsOpt(pl.1, BindPipeline(pl.0.value));
    ScissorsOpt(vp.1, SetViewport(vp.0.value));
    ScissorsOpt(sc.1, SetScissor(sc.0.value));
    ScissorsAppend(a, b);
    ScissorsAppend(a + b, c);
    ScissorsAppend(a + b + c, d);
  }

  /** A list of at most one event. */
  lemma ScissorsOpt(b: bool, e: Event)
    ensures Scissors(if b then [e] else []) == if b && e.SetScissor? then [e.scissor] else []
  {
    if b {
      assert [e][..0] == [];
    }
  }

  /** Since no command of a valid list has a clip rectangle, every scissor
      `draw`'s loop sets is the whole framebuffer (without a scissor
      option). */
  lemma {:induction false} ReplayFullScissor(cmds: seq<DrawCommand2D>, fb: Extent2D, s: States, options: RenderOptions)
    requires forall i :: 0 <= i < |cmds| ==> cmds[i].clipRect == ZeroRect
    requires options.scissor.None?
    ensures forall r :: r in Scissors(Replay(cmds, fb, s, options).0) ==> r == FullRect(fb)
  {
    if |cmds| > 0 {
      var c := cmds[|cmds| - 1];
      ReplayFullScissor(cmds[..|cmds| - 1], fb, s, options);
      var (e, t) := Replay(cmds[..|cmds| - 1], fb, s, options);
      StepScissor(c, fb, t, options);
      ScissorsAppend(e, Step(c, fb, t, options).0);
    }
  }

  /** Shifting a concatenation shifts its parts. */
  lemma ShiftAppend(base: nat, a: seq<nat>, b: seq<nat>)
    ensures Shift(base, a + b) == Shift(base, a) + Shift(base, b)
  {
  }



  // ---------------------------------------------------------- the object

  /** `M_PI` of util/radian.h. */
  const Pi: real := 3.14159265358979323846

  /** `to_radian`: an angle in degrees in radians, the conversion of
      radian.h's `_deg` (the rounding to `float` is not modelled). */
  function ToRadian(degrees: real): real { degrees * Pi / 180.0 }

  /** The centres of the four corner fans of `addFilledRoundRect`, from the
      top-left corner clockwise. */
  function CornerCentres(pos: Vec2f, size: Vec2f, r0: real, r1: real, r2: real, r3: real): (r: seq<Vec2f>)
    ensures |r| == 4
  {
    [Add(pos, Vec2f(r0, r0)), Add(pos, Vec2f(size.x - r1, r1)),
     Vec2f(pos.x + size.x - r2, pos.y + size.y - r2), Add(pos, Vec2f(r3, size.y - r3))]
  }

  /** The positions and sizes of the four edge rectangles (top, right,
      bottom, left) and the centre rectangle of `addFilledRoundRect`. */
  function EdgeRects(pos: Vec2f, size: Vec2f, r0: real, r1: real, r2: real, r3: real): (r: seq<(Vec2f, Vec2f)>)
    ensures |r| == 5
  {
    [(Add(pos, Vec2f(r0, 0.0)), Vec2f(size.x - r0 - r1, r0)),
     (Add(pos, Vec2f(size.x - r1, r1)), Vec2f(r1, size.y - r1 - r2)),
     (Add(pos, Vec2f(r3, size.y - r2)), Vec2f(size.x - r2 - r3, r2)),
     (Add(pos, Vec2f(0.0, r0)), Vec2f(r3, size.y - r0 - r3)),
     (Add(pos, Vec2f(r3, r0)), Vec2f(size.x - (r1 + r3), size.y - (r0 + r2)))]
  }

  /** The four corner fans of `addFilledRoundRect`. */
  function RoundRectFans(s: DrawState, c: seq<Vec2f>, col: Color, seg: nat): (r: DrawState)
    requires |s.commands| > 0 && |c| == 4
    ensures |r.commands| == |s.commands|
  {
    Emit(Emit(Emit(Emit(s,
      seg + 1, FanVertices(c[0], col, seg), FanOffsets(seg)),
      seg + 1, FanVertices(c[1], col, seg), FanOffsets(seg)),
      seg + 1, FanVertices(c[2], col, seg), FanOffsets(seg)),
      seg + 1, FanVertices(c[3], col, seg), FanOffsets(seg))
  }

  /** The four edge rectangles and the centre rectangle. */
  function RoundRectEdges(s: DrawState, e: seq<(Vec2f, Vec2f)>, col: Color): (r: DrawState)
    requires |s.commands| > 0 && |e| == 5
    ensures |r.commands| == |s.commands|
  {
    Emit(Emit(Emit(Emit(Emit(s,
      4, RectCorners(e[0].0, e[0].1, col), QuadOffsets),
      4, RectCorners(e[1].0, e[1].1, col), QuadOffsets),
      4, RectCorners(e[2].0, e[2].1, col), QuadOffsets),
      4, RectCorners(e[3].0, e[3].1, col), QuadOffsets),
      4, RectCorners(e[4].0, e[4].1, col), QuadOffsets)
  }

  /** The state after `addFilledRoundRect`: four corner fans, then the four
      edge rectangles and the centre rectangle. */
  function RoundRect(s: DrawState, pos: Vec2f, size: Vec2f, r0: real, r1: real, r2: real, r3: real,
                     col: Color, seg: nat): (r: DrawState)
    requires |s.commands| > 0
    ensures |r.commands| == |s.commands|
  {
    RoundRectEdges(RoundRectFans(s, CornerCentres(pos, size, r0, r1, r2, r3), col, seg),
                   EdgeRects(pos, size, r0, r1, r2, r3), col)
  }

  /** The first loop of `addFilledCircleFan`: the centre, then the seg + 1
      arc points. */
  method FanPoints(pos: Vec2f, col: Color, seg: nat) returns (fan: seq<Vertex2D>)
    ensures fan == FanVertices(pos, col, seg)
  {
    fan := [Colored(pos, col)];
    var i := 0;
    while i <= seg
      invariant 0 <= i <= seg + 1
      invariant fan == [Colored(pos, col)] + seq(i, _ => Opaque(col))
    {
      fan := fan + [Opaque(col)];
      i := i + 1;
    }
  }

  /** The second loop of `addFilledCircleFan`: the triangles (idx, idx + i,
      idx + i + 1) for i = 1 .. seg, as 32-bit indices. */
  method FanTriangles(idx: nat, seg: nat) returns (tris: seq<nat>)
    ensures tris == Shift(idx, FanOffsets(seg))
  {
    tris := [];
    var k := 1;
    while k <= seg
      invariant 1 <= k <= seg + 1
      invariant tris == Shift(idx, FanOffsets(k - 1))
    {
      ShiftAppend(idx, FanOffsets(k - 1), [0, k, k + 1]);
      tris := tris + [idx % TWO_32, (idx + k) % TWO_32, (idx + k + 1) % TWO_32];
      k := k + 1;
    }
  }

  /** The first part of a pass of the loop of `draw`: the pipeline, the
      texture and the scissor of the command c. */
  method SelectCommand(device: Device, fb: Extent2D, states: RenderStates, c: DrawCommand2D)
    requires states.Valid()
    modifies device, states.pipeline, states.scissor
    ensures device.trace == old(device.trace) + TextureEvents(c)
    ensures states.Snapshot() == SelectStates(c, fb, old(states.Snapshot()))
    ensures device.nextHandle == old(device.nextHandle)
  {
    if c.texture.Some? {
      states.UpdatePipelineUUID(BuiltinPipeline0);
      device.Record(BindTexture(c.texture.value));
      device.Record(PushTextureSize(c.texture.value));
    } else {
      states.UpdatePipelineUUID(BuiltinPipeline1);
    }
    if c.clipRect == ZeroRect {
      states.UpdateScissor(FullRect(fb));
    } else {
      states.UpdateScissor(c.clipRect);
    }
  }

  /** One pass of the loop of `draw`, for the command c. */
  method DrawCommand(device: Device, fb: Extent2D, states: RenderStates, options: RenderOptions, c: DrawCommand2D)
    requires states.Valid()
    modifies device, states.renderpass, states.pipeline, states.viewport, states.scissor
    ensures |device.trace| >= |old(device.trace)| && device.trace[..|old(device.trace)|] == old(device.trace)
    ensures (device.trace[|old(device.trace)|..], states.Snapshot()) == Step(c, fb, old(states.Snapshot()), options)
    ensures device.nextHandle == old(device.nextHandle)
  {
    ghost var t0 := device.trace;
    ghost var s := states.Snapshot();
    SelectCommand(device, fb, states, c);
    ghost var s2 := states.Snapshot();
    device.Record(Event.PushTransform(Mul(BaseTransform(fb), c.transform)));
    ghost var t1 := device.trace;
    states.Bind(device, fb, options);
    ghost var t2 := device.trace;
    ghost var s3 := states.Snapshot();
    device.Record(DrawIndexed(c.indexCount, c.indexOffset));
    StepSplit(c, fb, s, options, t0, t1, t2, device.trace, s3);
  }

  /** The texture events, the transform, the binds and the draw call make
      one command's events. */
  lemma StepSplit(c: DrawCommand2D, fb: Extent2D, s: States, options: RenderOptions,
                  t0: seq<Event>, t1: seq<Event>, t2: seq<Event>, t3: seq<Event>, s3: States)
    requires t1 == t0 + TextureEvents(c) + [Event.PushTransform(Mul(BaseTransform(fb), c.transform))]
    requires |t2| >= |t1| && t2[..|t1|] == t1
    requires (t2[|t1|..], s3) == BindStates(SelectStates(c, fb, s), fb, options)
    requires t3 == t2 + [DrawIndexed(c.indexCount, c.indexOffset)]
    ensures |t3| >= |t0| && t3[..|t0|] == t0
    ensures (t3[|t0|..], s3) == Step(c, fb, s, options)
  {
    assert t3[|t0|..] == t1[|t0|..] + t2[|t1|..] + [DrawIndexed(c.indexCount, c.indexOffset)];
    assert t1[|t0|..] == TextureEvents(c) + [Event.PushTransform(Mul(BaseTransform(fb), c.transform))];
  }

  /** The start of `draw`: the upload when flagged, the built-in render
      pass selected, the geometry buffers bound. */
  method DrawPrologue(device: Device, states: RenderStates, upload: bool, vertexCount: nat, indexCount: nat)
    requires states.Valid()
    modifies device, states.renderpass
    ensures device.trace == old(device.trace) + DrawHead(upload, vertexCount, indexCount)
    ensures states.Snapshot() == old(states.Snapshot()).(renderpass := UpdateCell(old(states.renderpass.State()), BuiltinRenderPass0))
    ensures device.nextHandle == old(device.nextHandle)
  {
    if upload {
      device.Record(UploadGeometry(vertexCount, indexCount));
    }
    states.UpdateRenderPassUUID(BuiltinRenderPass0);
    device.Record(BindVertexBuffer);
    device.Record(BindIndexBuffer);
  }

  /** The loop of `draw`: each command in turn. */
  method DrawCommands(device: Device, fb: Extent2D, states: RenderStates, options: RenderOptions, cmds: seq<DrawCommand2D>)
    requires states.Valid()
    modifies device, states.renderpass, states.pipeline, states.viewport, states.scissor
    ensures |device.trace| >= |old(device.trace)| && device.trace[..|old(device.trace)|] == old(device.trace)
    ensures (device.trace[|old(device.trace)|..], states.Snapshot()) == Replay(cmds, fb, old(states.Snapshot()), options)
    ensures device.nextHandle == old(device.nextHandle)
  {
    ghost var t0 := device.trace;
    ghost var s0 := states.Snapshot();
    var i := 0;
    assert device.trace[|t0|..] == [] && cmds[..0] == [];
    while i < |cmds|
      invariant 0 <= i <= |cmds|
      invariant |device.trace| >= |t0| && device.trace[..|t0|] == t0
      invariant (device.trace[|t0|..], states.Snapshot()) == Replay(cmds[..i], fb, s0, options)
      invariant device.nextHandle == old(device.nextHandle)
    {
      ghost var t1 := device.trace;
      ghost var s1 := states.Snapshot();
      DrawCommand(device, fb, states, options, cmds[i]);
      ReplayExtend(t0, t1, device.trace, s1, states.Snapshot(), cmds, i, fb, s0, options);
      i := i + 1;
    }
    assert cmds[..i] == cmds;
  }

  /** The prologue's events followed by the loop's make `draw`'s. */
  lemma DrawSplit(d: DrawState, fb: Extent2D, s: States, options: RenderOptions,
                  t0: seq<Event>, t1: seq<Event>, t2: seq<Event>, s2: States)
    requires Draws(d)
    requires t1 == t0 + DrawHead(d.updateBuffer, |d.vertices|, |d.indices|)
    requires |t2| >= |t1| && t2[..|t1|] == t1
    requires (t2[|t1|..], s2) == Replay(d.commands, fb, s.(renderpass := UpdateCell(s.renderpass, BuiltinRenderPass0)), options)
    ensures |t2| >= |t0| && t2[..|t0|] == t0
    ensures (t2[|t0|..], s2, false) == DrawEvents(d, fb, s, options)
  {
    assert t2[|t0|..] == t1[|t0|..] + t2[|t1|..];
  }

  /** `DrawList2D`. */
  class DrawList2D {
    var commands: seq<DrawCommand2D>
    var vertices: seq<Vertex2D>
    var indices: seq<nat>
    var textureStack: seq<TextureId>
    var clipRectStack: seq<Rect2D>
    var transformStack: seq<Transform2D>
    var updateBuffer: bool

    function State(): DrawState
      reads this
    {
      DrawState(commands, vertices, indices, textureStack, clipRectStack, transformStack, updateBuffer)
    }

    ghost predicate Valid()
      reads this
    {
      ValidState(State())
    }

    /** Registers the two built-in pipelines it draws with and starts with
        one default command and nothing to upload. */
    constructor (device: Device)
      modifies device
      ensures Valid() && State() == Cleared().(updateBuffer := false)
      ensures device.trace == old(device.trace) +
        [RegisterBuiltinPipeline(BuiltinPipeline0), RegisterBuiltinPipeline(BuiltinPipeline1)]
      ensures device.nextHandle == old(device.nextHandle)
    {
      vertices := [];
      indices := [];
      textureStack := [];
      clipRectStack := [];
      transformStack := [];
      updateBuffer := false;
      commands := [DefaultCommand];
      new;
      device.Record(RegisterBuiltinPipeline(BuiltinPipeline0));
      device.Record(RegisterBuiltinPipeline(BuiltinPipeline1));
    }

    method ReservePrimitives(nv: nat, ni: nat) returns (idx: nat)
      requires |commands| > 0
      modifies this
      ensures (State(), idx) == Reserve(old(State()), nv, ni)
    {
      var c := commands[|commands| - 1];
      commands := commands[..|commands| - 1] +
        [c.(vertexCount := (c.vertexCount + nv) % TWO_32, indexCount := (c.indexCount + ni) % TWO_32)];
      updateBuffer := true;
      idx := |vertices| % TWO_32;
    }

    method AddRawTriangle(v0: Vertex2D, v1: Vertex2D, v2: Vertex2D)
      requires Valid() && Room(State(), 3, 3)
      modifies this
      ensures State() == Emit(old(State()), 3, [v0, v1, v2], TriangleOffsets) && Valid()
    {
      ghost var s := State();
      var idx := ReservePrimitives(3, 3);
      vertices := vertices + [v0, v1, v2];
      indices := indices + [(idx + 0) % TWO_32, (idx + 1) % TWO_32, (idx + 2) % TWO_32];
      EmitPreserves(s, 3, [v0, v1, v2], TriangleOffsets);
    }

    method AddRawQuad(v0: Vertex2D, v1: Vertex2D, v2: Vertex2D, v3: Vertex2D)
      requires Valid() && Room(State(), 4, 6)
      modifies this
      ensures State() == Emit(old(State()), 4, [v0, v1, v2, v3], QuadOffsets) && Valid()
    {
      ghost var s := State();
      var idx := ReservePrimitives(4, 6);
      vertices := vertices + [v0, v1, v2, v3];
      indices := indices + [(idx + 0) % TWO_32, (idx + 1) % TWO_32, (idx + 2) % TWO_32,
                            (idx + 2) % TWO_32, (idx + 3) % TWO_32, (idx + 0) % TWO_32];
      EmitPreserves(s, 4, [v0, v1, v2, v3], QuadOffsets);
    }

    method AddDot(p: Vec2f, r: real, col: Color)
      requires Valid() && Room(State(), 4, 6)
      modifies this
      ensures State() == Emit(old(State()), 4, DotCorners(p, r, col), QuadOffsets) && Valid()
    {
      ghost var s := State();
      var h := 0.5 * Abs(r);
      var idx := ReservePrimitives(4, 6);
      vertices := vertices + [Colored(Add(p, Vec2f(-h, -h)), col), Colored(Add(p, Vec2f(h, -h)), col),
                              Colored(Add(p, Vec2f(h, h)), col), Colored(Add(p, Vec2f(-h, h)), col)];
      indices := indices + [(idx + 0) % TWO_32, (idx + 1) % TWO_32, (idx + 2) % TWO_32,
                            (idx + 2) % TWO_32, (idx + 3) % TWO_32, (idx + 0) % TWO_32];
      EmitPreserves(s, 4, DotCorners(p, r, col), QuadOffsets);
    }

    /** The corners lie along the line's normal; they are computed with a
        square root and are not modelled. */
    method AddLine(p0: Vec2f, p1: Vec2f, width: real, col: Color)
      requires Valid() && Room(State(), 4, 6)
      modifies this
      ensures State() == Emit(old(State()), 4, OpaqueQuad(col), LineOffsets) && Valid()
    {
      ghost var s := State();
      var idx := ReservePrimitives(4, 6);
      vertices := vertices + [Opaque(col), Opaque(col), Opaque(col), Opaque(col)];
      indices := indices + [(idx + 0) % TWO_32, (idx + 2) % TWO_32, (idx + 1) % TWO_32,
                            (idx + 1) % TWO_32, (idx + 2) % TWO_32, (idx + 3) % TWO_32];
      EmitPreserves(s, 4, OpaqueQuad(col), LineOffsets);
    }

    method AddFilledTriangle(p0: Vec2f, p1: Vec2f, p2: Vec2f, col: Color)
      requires Valid() && Room(State(), 3, 3)
      modifies this
      ensures State() == Emit(old(State()), 3, [Colored(p0, col), Colored(p1, col), Colored(p2, col)], TriangleOffsets)
      ensures Valid()
    {
      ghost var s := State();
      var idx := ReservePrimitives(3, 3);
      vertices := vertices + [Colored(p0, col), Colored(p1, col), Colored(p2, col)];
      indices := indices + [(idx + 0) % TWO_32, (idx + 1) % TWO_32, (idx + 2) % TWO_32];
      EmitPreserves(s, 3, [Colored(p0, col), Colored(p1, col), Colored(p2, col)], TriangleOffsets);
    }

    /** The arc points are computed with sines and cosines and are not
        modelled; the centre is exact. */
    method AddFilledCircleFan(pos: Vec2f, radius: real, thetaMin: real, thetaMax: real, col: Color, seg: nat)
      requires Valid() && Room(State(), seg + 2, 3 * seg)
      modifies this
      ensures State() == Emit(old(State()), seg + 1, FanVertices(pos, col, seg), FanOffsets(seg)) && Valid()
    {
      ghost var s := State();
      var idx := ReservePrimitives(seg + 1, 3 * seg);
      ghost var reserved := State();
      assert |FanOffsets(seg)| == 3 * seg;
      assert (reserved, idx) == Reserve(s, seg + 1, |FanOffsets(seg)|);
      var fan := FanPoints(pos, col, seg);
      vertices := vertices + fan;
      var tris := FanTriangles(idx, seg);
      indices := indices + tris;
      assert State() == reserved.(vertices := reserved.vertices + fan, indices := reserved.indices + tris);
      FanOffsetsShape(seg);
      EmitPreserves(s, seg + 1, FanVertices(pos, col, seg), FanOffsets(seg));
    }

    method AddQuad(p0: Vec2f, p1: Vec2f, p2: Vec2f, p3: Vec2f, col: Color)
      requires Valid() && Room(State(), 4, 6)
      modifies this
      ensures State() == Emit(old(State()), 4, [Colored(p0, col), Colored(p1, col), Colored(p2, col), Colored(p3, col)], QuadOffsets)
      ensures Valid()
    {
      ghost var s := State();
      var idx := ReservePrimitives(4, 6);
      vertices := vertices + [Colored(p0, col), Colored(p1, col), Colored(p2, col), Colored(p3, col)];
      indices := indices + [(idx + 0) % TWO_32, (idx + 1) % TWO_32, (idx + 2) % TWO_32,
                            (idx + 2) % TWO_32, (idx + 3) % TWO_32, (idx + 0) % TWO_32];
      EmitPreserves(s, 4, [Colored(p0, col), Colored(p1, col), Colored(p2, col), Colored(p3, col)], QuadOffsets);
    }

    method AddFilledRect(pos: Vec2f, size: Vec2f, col: Color)
      requires Valid() && Room(State(), 4, 6)
      modifies this
      ensures State() == Emit(old(State()), 4, RectCorners(pos, size, col), QuadOffsets) && Valid()
    {
      ghost var s := State();
      var idx := ReservePrimitives(4, 6);
      vertices := vertices + [Colored(pos, col), Colored(Add(pos, Vec2f(size.x, 0.0)), col),
                              Colored(Add(pos, size), col), Colored(Add(pos, Vec2f(0.0, size.y)), col)];
      indices := indices + [(idx + 0) % TWO_32, (idx + 1) % TWO_32, (idx + 2) % TWO_32,
                            (idx + 2) % TWO_32, (idx + 3) % TWO_32, (idx + 0) % TWO_32];
      EmitPreserves(s, 4, RectCorners(pos, size, col), QuadOffsets);
    }
  
    method AddFilledRoundRect(pos: Vec2f, size: Vec2f, r0: real, r1: real, r2: real, r3: real, col: Color, seg: nat)
      requires Valid() && Room(State(), 4 * (seg + 2) + 20, 12 * seg + 30)
      modifies this
      ensures State() == RoundRect(old(State()), pos, size, r0, r1, r2, r3, col, seg) && Valid()
    {
      AddRoundRectCorners(CornerCentres(pos, size, r0, r1, r2, r3), r0, r1, r2, r3, col, seg);
      AddRoundRectSides(EdgeRects(pos, size, r0, r1, r2, r3), col);
    }

    /** The first half of `addFilledRoundRect`: the corner fans around the
        centres c with radii r0 .. r3. */
    method AddRoundRectCorners(c: seq<Vec2f>, r0: real, r1: real, r2: real, r3: real, col: Color, seg: nat)
      requires |c| == 4
      requires Valid() && Room(State(), 4 * (seg + 2) + 20, 12 * seg + 30)
      modifies this
      ensures State() == RoundRectFans(old(State()), c, col, seg) && Valid()
      ensures Room(State(), 20, 30)
    {
      AddFilledCircleFan(c[0], r0, ToRadian(180.0), ToRadian(270.0), col, seg);
      AddFilledCircleFan(c[1], r1, ToRadian(270.0), ToRadian(360.0), col, seg);
      AddFilledCircleFan(c[2], r2, ToRadian(0.0), ToRadian(90.0), col, seg);
      AddFilledCircleFan(c[3], r3, ToRadian(90.0), ToRadian(180.0), col, seg);
    }

    /** The second half of `addFilledRoundRect`: the rectangles e. */
    method AddRoundRectSides(e: seq<(Vec2f, Vec2f)>, col: Color)
      requires |e| == 5
      requires Valid() && Room(State(), 20, 30)
      modifies this
      ensures State() == RoundRectEdges(old(State()), e, col) && Valid()
    {
      AddFilledRect(e[0].0, e[0].1, col);
      AddFilledRect(e[1].0, e[1].1, col);
      AddFilledRect(e[2].0, e[2].1, col);
      AddFilledRect(e[3].0, e[3].1, col);
      AddFilledRect(e[4].0, e[4].1, col);
    }

    /** `addImage(texture, ...)`: the image drawn with the texture pushed. */
    method AddTexturedImage(texture: TextureId, pos: Vec2f, size: Vec2f, uv0: Vec2f, uv1: Vec2f, col: Color)
      requires Valid() && Room(State(), 4, 6)
      modifies this
      ensures State() == PopTextureState(Emit(PushTextureState(old(State()), texture), 4,
        ImageCorners(pos, size, uv0, uv1, col), ImageOffsets))
      ensures Valid()
    {
      PushTexture(texture);
      AddImage(pos, size, uv0, uv1, col);
      PopTexture();
    }

    method AddImage(pos: Vec2f, size: Vec2f, uv0: Vec2f, uv1: Vec2f, col: Color)
      requires Valid() && Room(State(), 4, 6)
      modifies this
      ensures State() == Emit(old(State()), 4, ImageCorners(pos, size, uv0, uv1, col), ImageOffsets) && Valid()
      ensures textureStack == old(textureStack)
    {
      ghost var s := State();
      var idx := ReservePrimitives(4, 6);
      vertices := vertices + [Vertex2D(pos, uv0, col),
                              Vertex2D(Vec2f(pos.x + size.x, pos.y), Vec2f(uv1.x, uv0.y), col),
                              Vertex2D(Vec2f(pos.x + size.x, pos.y + size.y), uv1, col),
                              Vertex2D(Vec2f(pos.x, pos.y + size.y), Vec2f(uv0.x, uv1.y), col)];
      indices := indices + [(idx + 0) % TWO_32, (idx + 1) % TWO_32, (idx + 2) % TWO_32,
                            (idx + 0) % TWO_32, (idx + 2) % TWO_32, (idx + 3) % TWO_32];
      EmitPreserves(s, 4, ImageCorners(pos, size, uv0, uv1, col), ImageOffsets);
    }

    method AddImageQuad(p0: Vec2f, p1: Vec2f, p2: Vec2f, p3: Vec2f,
                        uv0: Vec2f, uv1: Vec2f, uv2: Vec2f, uv3: Vec2f, col: Color)
      requires Valid() && Room(State(), 4, 6)
      modifies this
      ensures State() == Emit(old(State()), 4,
        [Vertex2D(p0, uv0, col), Vertex2D(p1, uv1, col), Vertex2D(p2, uv2, col), Vertex2D(p3, uv3, col)], ImageOffsets)
      ensures Valid()
    {
      ghost var s := State();
      var idx := ReservePrimitives(4, 6);
      vertices := vertices + [Vertex2D(p0, uv0, col), Vertex2D(p1, uv1, col), Vertex2D(p2, uv2, col), Vertex2D(p3, uv3, col)];
      indices := indices + [(idx + 0) % TWO_32, (idx + 1) % TWO_32, (idx + 2) % TWO_32,
                            (idx + 0) % TWO_32, (idx + 2) % TWO_32, (idx + 3) % TWO_32];
      EmitPreserves(s, 4, [Vertex2D(p0, uv0, col), Vertex2D(p1, uv1, col), Vertex2D(p2, uv2, col), Vertex2D(p3, uv3, col)], ImageOffsets);
    }

    method AddGlyphQuad(pos: Vec2f, col: Color, glyph: Glyph, italicShear: real)
      requires Valid() && Room(State(), 4, 6)
      modifies this
      ensures State() == Emit(old(State()), 4, GlyphCorners(pos, col, glyph, italicShear), StripOffsets) && Valid()
    {
      ghost var s := State();
      var corners := GlyphCorners(pos, col, glyph, italicShear);
      var idx := ReservePrimitives(4, 6);
      vertices := vertices + corners;
      indices := indices + [(idx + 0) % TWO_32, (idx + 1) % TWO_32, (idx + 2) % TWO_32,
                            (idx + 2) % TWO_32, (idx + 1) % TWO_32, (idx + 3) % TWO_32];
      EmitPreserves(s, 4, corners, StripOffsets);
    }

    method AddTextLine(lineLength: real, lineTop: real, col: Color, offset: real, thickness: real, outline: real)
      requires Valid() && Room(State(), 4, 6)
      modifies this
      ensures State() == Emit(old(State()), 4, LineCorners(lineLength, lineTop, col, offset, thickness, outline), StripOffsets)
      ensures Valid()
    {
      ghost var s := State();
      var corners := LineCorners(lineLength, lineTop, col, offset, thickness, outline);
      var idx := ReservePrimitives(4, 6);
      vertices := vertices + corners;
      indices := indices + [(idx + 0) % TWO_32, (idx + 1) % TWO_32, (idx + 2) % TWO_32,
                            (idx + 2) % TWO_32, (idx + 1) % TWO_32, (idx + 3) % TWO_32];
      EmitPreserves(s, 4, corners, StripOffsets);
    }

    /** A glyph or line quad of `addText`: its corners are moved afterwards
        by an alignment computed in floating point, so only its colour and
        its strip of indices are kept. */
    method AddAlignedQuad(col: Color)
      requires Valid() && Room(State(), 4, 6)
      modifies this
      ensures State() == Emit(old(State()), 4, OpaqueQuad(col), StripOffsets) && Valid()
      ensures |vertices| == |old(vertices)| + 4 && |indices| == |old(indices)| + 6
    {
      ghost var s := State();
      var idx := ReservePrimitives(4, 6);
      vertices := vertices + OpaqueQuad(col);
      indices := indices + [(idx + 0) % TWO_32, (idx + 1) % TWO_32, (idx + 2) % TWO_32,
                            (idx + 2) % TWO_32, (idx + 1) % TWO_32, (idx + 3) % TWO_32];
      EmitPreserves(s, 4, OpaqueQuad(col), StripOffsets);
    }

    /** `addText(pos, text, style)`: font is the style font's texture for the
        character size, and penPastOrigin whether the pen ends right of the
        origin (the float test `x > 0`). */
    method AddText(text: seq<Byte>, font: TextureId, fill: Color, underline: bool, strike: bool, penPastOrigin: bool)
      requires Valid() && Room(State(), 4 * TextQuads(text, underline, strike, penPastOrigin),
                                       6 * TextQuads(text, underline, strike, penPastOrigin))
      modifies this
      ensures State() == TextState(old(State()), text, font, fill, underline, strike, penPastOrigin) && Valid()
    {
      PushTexture(font);
      if |text| == 0 {
        return;
      }
      ghost var s1 := State();
      AddTextLoop(text, fill, underline, strike, ClosingQuads(underline, strike, penPastOrigin));
      AddClosingLines(fill, underline, strike, penPastOrigin);
      ghost var emitted := State();
      assert emitted == EmitQuads(TextLoop(s1, text, fill, underline, strike),
                                  ClosingQuads(underline, strike, penPastOrigin), fill);
      PopTexture();
      assert State() == PopTextureState(emitted);
    }

    /** The loop of `addText`, with room for `closing` more quads after it. */
    method AddTextLoop(text: seq<Byte>, fill: Color, underline: bool, strike: bool, closing: nat)
      requires Valid() && Room(State(), 4 * (LoopQuads(text, underline, strike) + closing),
                                       6 * (LoopQuads(text, underline, strike) + closing))
      modifies this
      ensures State() == TextLoop(old(State()), text, fill, underline, strike) && Valid()
      ensures Room(State(), 4 * closing, 6 * closing)
    {
      ghost var s1 := State();
      var prev: int := 0;
      var i := 0;
      while i < |text|
        invariant 0 <= i <= |text| && prev == PrevChar(text[..i])
        invariant State() == TextLoop(s1, text[..i], fill, underline, strike) && Valid()
      {
        TextLoopStep(s1, text, i, fill, underline, strike, closing);
        prev := AddCharQuads(text[i], prev, fill, underline, strike);
        i := i + 1;
      }
      assert text[..i] == text;
      TextLoopSizes(s1, text, fill, underline, strike);
    }

    /** The closing underline and strike-through lines of `addText`. */
    method AddClosingLines(fill: Color, underline: bool, strike: bool, penPastOrigin: bool)
      requires Valid() && Room(State(), 4 * ClosingQuads(underline, strike, penPastOrigin),
                                       6 * ClosingQuads(underline, strike, penPastOrigin))
      modifies this
      ensures State() == EmitQuads(old(State()), ClosingQuads(underline, strike, penPastOrigin), fill) && Valid()
    {
      ghost var s := State();
      ghost var m := 0;
      if underline && penPastOrigin {
        AddAlignedQuad(fill);
        m := m + 1;
        assert State() == EmitQuads(s, m, fill);
      }
      if strike && penPastOrigin {
        AddAlignedQuad(fill);
        m := m + 1;
        assert State() == EmitQuads(s, m, fill);
      }
    }

    /** One pass of the loop of `addText`, for the byte c after prev: the
        quads it adds, and the new previous character. */
    method AddCharQuads(c: Byte, prev: int, fill: Color, underline: bool, strike: bool) returns (next: int)
      requires Valid() && Room(State(), 4 * StepQuads(c, prev, underline, strike), 6 * StepQuads(c, prev, underline, strike))
      modifies this
      ensures State() == EmitQuads(old(State()), StepQuads(c, prev, underline, strike), fill) && Valid()
      ensures next == if c == CR then prev else c
    {
      next := prev;
      if c == CR {
        return;
      }
      ghost var s := State();
      ghost var q := 0;
      if underline && (c == LF && prev != LF) {
        AddAlignedQuad(fill);
        q := q + 1;
        assert State() == EmitQuads(s, q, fill);
      }
      if strike && (c == LF && prev != LF) {
        AddAlignedQuad(fill);
        q := q + 1;
        assert State() == EmitQuads(s, q, fill);
      }
      next := c;
      if !IsBlank(c) {
        AddAlignedQuad(fill);
        q := q + 1;
        assert State() == EmitQuads(s, q, fill);
      }
    }

    /** `draw(target, states, options)`: fb is the target's framebuffer
        size and device records the target's command buffer. */
    method Draw(device: Device, fb: Extent2D, states: RenderStates, options: RenderOptions)
      requires states.Valid()
      modifies this`updateBuffer, device, states.renderpass, states.pipeline, states.viewport, states.scissor
      ensures |device.trace| >= |old(device.trace)| && device.trace[..|old(device.trace)|] == old(device.trace)
      ensures (device.trace[|old(device.trace)|..], states.Snapshot(), updateBuffer) ==
        DrawEvents(old(State()), fb, old(states.Snapshot()), options)
      ensures device.nextHandle == old(device.nextHandle)
    {
      if |commands| == 0 || commands[0].indexCount == 0 {
        assert device.trace[|device.trace|..] == [];
        return;
      }
      ghost var t0 := device.trace;
      ghost var s := states.Snapshot();
      ghost var d := State();
      var upload := updateBuffer;
      updateBuffer := false;
      DrawPrologue(device, states, upload, |vertices|, |indices|);
      ghost var t1 := device.trace;
      DrawCommands(device, fb, states, options, commands);
      DrawSplit(d, fb, s, options, t0, t1, device.trace, states.Snapshot());
    }

    // ------------------------------------------------------- the stacks

    method PushTexture(texture: TextureId)
      requires Valid()
      modifies this
      ensures State() == PushTextureState(old(State()), texture) && Valid()
    {
      ghost var s := State();
      var newCmd := true;
      if |commands| > 0 && commands[|commands| - 1].texture == Some(texture) {
        newCmd := false;
      }
      textureStack := textureStack + [texture];
      if newCmd {
        NewCommand();
      }
      TextureDedup(s, texture);
    }

    method PopTexture()
      requires Valid() && |textureStack| > 0
      modifies this
      ensures State() == PopTextureState(old(State())) && Valid()
    {
      ghost var s := State();
      var texture := textureStack[|textureStack| - 1];
      textureStack := textureStack[..|textureStack| - 1];
      TransformOpsPreserve(s, Identity);
      if |commands| > 0 && commands[|commands| - 1].texture == Some(texture) {
        return;
      }
      NewCommand();
    }

    method PushClipRectFullScreen()
      requires Valid()
      modifies this
      ensures State() == PushClipRectFullScreenState(old(State())) && Valid()
    {
      ClipOpsPreserve(State(), ZeroRect, false);
      clipRectStack := clipRectStack + [ZeroRect];
      NewCommand();
    }

    method PushClipRect(rect: Rect2D, intersect: bool)
      requires Valid()
      requires intersect ==> (|clipRectStack| > 0 &&
        IntersectDefined(rect, clipRectStack[|clipRectStack| - 1]))
      modifies this
      ensures State() == PushClipRectState(old(State()), rect, intersect) && Valid()
    {
      var pushed := rect;
      if intersect {
        pushed := Intersect(rect, clipRectStack[|clipRectStack| - 1]);
      }
      clipRectStack := clipRectStack + [pushed];
      NewCommandPreserves(State());
      NewCommand();
    }

    /** `pushClipRect(x, y, width, height, intersect)`. */
    method PushClipRectAt(x: int, y: int, width: nat, height: nat, intersect: bool)
      requires Valid()
      requires intersect ==> (|clipRectStack| > 0 &&
        IntersectDefined(Rect2D(Offset2D(x, y), Extent2D(width, height)), clipRectStack[|clipRectStack| - 1]))
      modifies this
      ensures State() == PushClipRectState(old(State()), Rect2D(Offset2D(x, y), Extent2D(width, height)), intersect)
      ensures Valid()
    {
      PushClipRect(Rect2D(Offset2D(x, y), Extent2D(width, height)), intersect);
    }

    method PopClipRect()
      requires Valid() && |clipRectStack| > 0
      modifies this
      ensures State() == PopClipRectState(old(State())) && Valid()
    {
      ClipOpsPreserve(State(), ZeroRect, false);
      clipRectStack := clipRectStack[..|clipRectStack| - 1];
      NewCommand();
    }

    method PushTransform(transform: Transform2D)
      requires Valid()
      modifies this
      ensures State() == PushTransformState(old(State()), transform) && Valid()
    {
      TransformOpsPreserve(State(), transform);
      transformStack := transformStack + [transform];
      NewCommand();
    }

    method PopTransform()
      requires Valid() && |transformStack| > 0
      modifies this
      ensures State() == PopTransformState(old(State())) && Valid()
    {
      TransformOpsPreserve(State(), Identity);
      transformStack := transformStack[..|transformStack| - 1];
      NewCommand();
    }

    method Clear()
      modifies this
      ensures State() == Cleared() && Valid()
    {
      commands := [];
      vertices := [];
      indices := [];
      textureStack := [];
      clipRectStack := [];
      transformStack := [];
      updateBuffer := true;
      commands := commands + [DefaultCommand];
    }

    method NewCommand()
      requires |commands| > 0
      modifies this
      ensures State() == NewCommandState(old(State()))
    {
      var last := commands[|commands| - 1];
      var cmd := if last.indexCount != 0 then DefaultCommand else last;
      cmd := cmd.(
        texture := if |textureStack| == 0 then None else Some(textureStack[|textureStack| - 1]),
        transform := if |transformStack| == 0 then Identity else transformStack[|transformStack| - 1],
        vertexOffset := |vertices| % TWO_32,
        indexOffset := |indices| % TWO_32);
      if last.indexCount != 0 {
        commands := commands + [cmd];
      } else {
        commands := commands[..|commands| - 1] + [cmd];
      }
    }
  }
}
