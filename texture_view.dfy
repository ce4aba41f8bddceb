// `TextureView` (src/texture_view.cpp): a textured rectangle with its own
// `Transformable2D`. `draw` selects the built-in render pass and the third
// built-in pipeline, binds the texture, pushes the transform, the colour
// and the rectangle's corners as push constants, selects a full-framebuffer
// scissor, binds the render states and draws six vertices.
//
// The texture coordinates (offset and size divided by the texture's float
// extent) are floating point and are not pushed in the model.
module TextureView {
  import opened Wrappers
  import opened Vk
  import opened Transform
  import opened Color
  import opened Gpu
  import opened RenderStates
  import opened Transformable

  /** The transform `TextureView::draw` starts from,
      `Transform2D().translate(-1, -1).scale(1 / fb.x, 1 / fb.y)`. Unlike
      the draw list's (which scales by 2 / fb), it maps the framebuffer to
      [-1, 0] on each axis. */
  function ViewBase(fb: Extent2D): Transform2D
  {
    Then(Then(Identity, Translate(Vec2f(-1.0, -1.0))), ScaleInverse(1.0, fb.width, fb.height))
  }

  /** The four corners pushed as the rectangle's vertices. */
  function Corners(size: Vec2f): (r: seq<Vec2f>)
    ensures |r| == 4
  {
    [Vec2f(0.0, 0.0), Vec2f(size.x, 0.0), Vec2f(size.x, size.y), Vec2f(0.0, size.y)]
  }

  /** The states once `draw` has requested its render pass, pipeline and
      scissor. */
  function ViewStates(fb: Extent2D, s: States): States
  {
    var s1 := s.(renderpass := UpdateCell(s.renderpass, BuiltinRenderPass0));
    var s2 := s1.(pipeline := UpdateCell(s1.pipeline, BuiltinPipeline2));
    s2.(scissor := UpdateCell(s2.scissor, FullRect(fb)))
  }

  /** `draw(target, states, options)` for a view with the given texture,
      size and colour, whose `getTransform()` is m: the commands recorded
      and the render states left. */
  function ViewDraw(texture: Option<TextureId>, size: Vec2f, color: Color, m: Transform2D,
                    fb: Extent2D, s: States, options: RenderOptions): (seq<Event>, States)
  {
    if texture.None? then ([], s)
    else
      var bound := BindStates(ViewStates(fb, s), fb, options);
      ([BindTexture(texture.value), PushTextureView(Mul(ViewBase(fb), m), color, Corners(size))] +
       bound.0 + [DrawVertices(6)], bound.1)
  }

  /** `bind` records no draw. */
  lemma BindDrawsNoVertices(s: States, fb: Extent2D, options: RenderOptions)
    ensures forall i :: 0 <= i < |BindStates(s, fb, options).0| ==> !BindStates(s, fb, options).0[i].DrawVertices?
  {
  }

  /** A drawn view binds its texture, pushes its transform, colour and the
      corners (0, 0), (w, 0), (w, h), (0, h) of its size, and ends with its
      one draw, of six vertices; no other command draws. */
  lemma ViewDrawShape(texture: Option<TextureId>, size: Vec2f, color: Color, m: Transform2D,
                      fb: Extent2D, s: States, options: RenderOptions)
    requires texture.Some?
    ensures var e := ViewDraw(texture, size, color, m, fb, s, options).0;
      |e| >= 3 && e[0] == BindTexture(texture.value) &&
      e[1] == PushTextureView(Mul(ViewBase(fb), m), color,
        [Vec2f(0.0, 0.0), Vec2f(size.x, 0.0), Vec2f(size.x, size.y), Vec2f(0.0, size.y)]) &&
      e[|e| - 1] == DrawVertices(6) &&
      forall i :: 0 <= i < |e| - 1 ==> !e[i].DrawVertices?
  {
    var bound := BindStates(ViewStates(fb, s), fb, options);
    BindDrawsNoVertices(ViewStates(fb, s), fb, options);
    var e := ViewDraw(texture, size, color, m, fb, s, options).0;
    assert e == [BindTexture(texture.value), PushTextureView(Mul(ViewBase(fb), m), color, Corners(size))] +
      bound.0 + [DrawVertices(6)];
    forall i | 2 <= i < |e| - 1
      ensures !e[i].DrawVertices?
    {
      assert e[i] == bound.0[i - 2];
    }
  }

  /** After a drawn view the render pass is built-in pass 0, the pipeline
      built-in pipeline 2 and the scissor the whole framebuffer (or the
      option's), the first two applied (the last two too unless an option
      equal to the stored value left them pending). Pass 0 is begun, and pipeline 2 bound, exactly
      when it was not already the applied one. */
  lemma ViewDrawStates(texture: Option<TextureId>, size: Vec2f, color: Color, m: Transform2D,
                       fb: Extent2D, s: States, options: RenderOptions)
    requires texture.Some?
    ensures var t := ViewDraw(texture, size, color, m, fb, s, options).1;
      t.renderpass.value == BuiltinRenderPass0 && t.pipeline.value == BuiltinPipeline2 &&
      t.scissor.value == (if options.scissor.Some? then options.scissor.value else FullRect(fb)) &&
      t.renderpass.updated && t.pipeline.updated &&
      (options.viewport.None? ==> t.viewport.updated) && (options.scissor.None? ==> t.scissor.updated)
    ensures var e := ViewDraw(texture, size, color, m, fb, s, options).0;
      BeginRenderPass(BuiltinRenderPass0, FullRect(fb)) in e <==>
        (s.renderpass.value != BuiltinRenderPass0 || !s.renderpass.updated)
    ensures var e := ViewDraw(texture, size, color, m, fb, s, options).0;
      BindPipeline(BuiltinPipeline2) in e <==>
        (s.pipeline.value != BuiltinPipeline2 || !s.pipeline.updated)
  {
    var s2 := ViewStates(fb, s);
    var bound := BindStates(s2, fb, options);
    BindOrder(s2, fb, options);
    var e := ViewDraw(texture, size, color, m, fb, s, options).0;
    var head := [BindTexture(texture.value), PushTextureView(Mul(ViewBase(fb), m), color, Corners(size))];
    assert e == head + bound.0 + [DrawVertices(6)];
    var begin := BeginRenderPass(BuiltinRenderPass0, FullRect(fb));
    assert begin in bound.0 <==> !s2.renderpass.updated;
    assert begin in e <==> begin in bound.0;
    var bindPl := BindPipeline(BuiltinPipeline2);
    assert bindPl in bound.0 <==> !s2.pipeline.updated;
    assert bindPl in e <==> bindPl in bound.0;
  }

  class TextureView {
    var texture: Option<TextureId>
    var offset: Vec2f
    var size: Vec2f
    var filledColor: Color
    /** The `Transformable2D` base of the view. */
    const transformable: Transformable2D

    /** `TextureView()`: no texture, zero offset and size, white, and the
        third built-in pipeline registered. */
    constructor (device: Device)
      modifies device
      ensures texture.None? && offset == Zero && size == Zero && filledColor == FromColors(White)
      ensures fresh(transformable) && transformable.AtRest() && transformable.Consistent()
      ensures device.trace == old(device.trace) + [RegisterBuiltinPipeline(BuiltinPipeline2)]
      ensures device.nextHandle == old(device.nextHandle)
    {
      texture := None;
      offset := Zero;
      size := Zero;
      filledColor := FromColors(White);
      transformable := new Transformable2D();
      new;
      device.Record(RegisterBuiltinPipeline(BuiltinPipeline2));
    }

    /** `TextureView(texture, offset, size)`: that texture and rectangle,
        white, and the third built-in pipeline registered. */
    constructor Of(device: Device, t: TextureId, o: Vec2f, sz: Vec2f)
      modifies device
      ensures texture == Some(t) && offset == o && size == sz && filledColor == FromColors(White)
      ensures fresh(transformable) && transformable.AtRest() && transformable.Consistent()
      ensures device.trace == old(device.trace) + [RegisterBuiltinPipeline(BuiltinPipeline2)]
      ensures device.nextHandle == old(device.nextHandle)
    {
      texture := Some(t);
      offset := o;
      size := sz;
      filledColor := FromColors(White);
      transformable := new Transformable2D();
      new;
      device.Record(RegisterBuiltinPipeline(BuiltinPipeline2));
    }

    /** `empty()`: the view has no texture. */
    function Empty(): (r: bool)
      reads this
      ensures r <==> texture == None
    {
      texture.None?
    }

    /** `draw(target, states, options)`: nothing without a texture;
        otherwise the commands of `ViewDraw` for the transformable's
        current transform, which `getTransform` caches. */
    method Draw(device: Device, fb: Extent2D, states: RenderStates, options: RenderOptions)
      requires states.Valid() && transformable.Consistent()
      modifies device, states.renderpass, states.pipeline, states.viewport, states.scissor, transformable
      ensures |device.trace| >= |old(device.trace)| && device.trace[..|old(device.trace)|] == old(device.trace)
      ensures old(texture).None? ==>
        device.trace == old(device.trace) && states.Snapshot() == old(states.Snapshot()) &&
        transformable.updated == old(transformable.updated) && transformable.mat == old(transformable.mat)
      ensures var m := if old(transformable.updated) then old(transformable.mat) else old(transformable.Current());
        (device.trace[|old(device.trace)|..], states.Snapshot()) ==
          ViewDraw(texture, size, filledColor, m, fb, old(states.Snapshot()), options)
      ensures transformable.Consistent() && device.nextHandle == old(device.nextHandle)
      ensures transformable.Parameters() == old(transformable.Parameters())
    {
      if texture.None? {
        assert device.trace[|device.trace|..] == [];
        return;
      }
      DrawTextured(device, fb, states, options);
    }

    /** `draw` once the view has a texture. */
    method DrawTextured(device: Device, fb: Extent2D, states: RenderStates, options: RenderOptions)
      requires texture.Some? && states.Valid() && transformable.Consistent()
      modifies device, states.renderpass, states.pipeline, states.viewport, states.scissor, transformable
      ensures |device.trace| >= |old(device.trace)| && device.trace[..|old(device.trace)|] == old(device.trace)
      ensures var m := if old(transformable.updated) then old(transformable.mat) else old(transformable.Current());
        (device.trace[|old(device.trace)|..], states.Snapshot()) ==
          ViewDraw(texture, size, filledColor, m, fb, old(states.Snapshot()), options)
      ensures transformable.Consistent() && device.nextHandle == old(device.nextHandle)
      ensures transformable.Parameters() == old(transformable.Parameters())
    {
      // `getTransform` reads and writes only the transformable, so taking
      // it before the first command leaves every command as it was.
      var m := transformable.GetTransform();
      RecordView(device, fb, states, options, m);
    }

    /** The commands of a textured `draw` whose transform is m. */
    method RecordView(device: Device, fb: Extent2D, states: RenderStates, options: RenderOptions, m: Transform2D)
      requires texture.Some? && states.Valid()
      modifies device, states.renderpass, states.pipeline, states.viewport, states.scissor
      ensures |device.trace| >= |old(device.trace)| && device.trace[..|old(device.trace)|] == old(device.trace)
      ensures (device.trace[|old(device.trace)|..], states.Snapshot()) ==
        ViewDraw(texture, size, filledColor, m, fb, old(states.Snapshot()), options)
      ensures device.nextHandle == old(device.nextHandle)
    {
      ghost var t0 := device.trace;
      ghost var s := states.Snapshot();
      states.UpdateRenderPassUUID(BuiltinRenderPass0);
      states.UpdatePipelineUUID(BuiltinPipeline2);
      device.Record(BindTexture(texture.value));
      device.Record(PushTextureView(Mul(ViewBase(fb), m), filledColor, Corners(size)));
      states.UpdateScissor(FullRect(fb));
      ghost var t1 := device.trace;
      ghost var s2 := states.Snapshot();
      assert s2 == ViewStates(fb, s);
      states.Bind(device, fb, options);
      ghost var t2 := device.trace;
      ghost var s3 := states.Snapshot();
      device.Record(DrawVertices(6));
      ViewSplit(texture, size, filledColor, m, fb, s, options, t0, t1, t2, device.trace, s3);
    }
  }

  /** The texture binding and the push constants, the binds and the draw
      make `draw`'s commands. */
  lemma ViewSplit(texture: Option<TextureId>, size: Vec2f, color: Color, m: Transform2D,
                  fb: Extent2D, s: States, options: RenderOptions,
                  t0: seq<Event>, t1: seq<Event>, t2: seq<Event>, t3: seq<Event>, s3: States)
    requires texture.Some?
    requires t1 == t0 + [BindTexture(texture.value), PushTextureView(Mul(ViewBase(fb), m), color, Corners(size))]
    requires |t2| >= |t1| && t2[..|t1|] == t1
    requires (t2[|t1|..], s3) == BindStates(ViewStates(fb, s), fb, options)
    requires t3 == t2 + [DrawVertices(6)]
    ensures |t3| >= |t0| && t3[..|t0|] == t0
    ensures (t3[|t0|..], s3) == ViewDraw(texture, size, color, m, fb, s, options)
  {
    assert t3[|t0|..] == t1[|t0|..] + t2[|t1|..] + [DrawVertices(6)];
  }
}
