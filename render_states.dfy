// The render-state cache: `Updatable<T>` (include/vkdl/core/render_states.h),
// a value with a one-shot "already applied" flag, and `RenderStates`
// (src/render_states.cpp), four such cells that `bind` turns into the
// begin-render-pass / bind-pipeline / set-viewport / set-scissor commands
// that are still pending, in that order.
module RenderStates {
  import opened Wrappers
  import opened Uuid
  import opened Vk
  import opened Transform
  import opened Gpu

  // ------------------------------------------------------------ Updatable

  /** The state of an `Updatable<T>`: `updated` is true once the value has
      been applied. */
  datatype Cell<T> = Cell(value: T, updated: bool)

  /** `check_and_update()`: whether the value was pending, and the cell with
      the flag set. */
  function CheckCell<T>(c: Cell<T>): (Cell<T>, bool)
  {
    (c.(updated := true), !c.updated)
  }

  /** `check_and_update(opt)`. */
  function CheckCellWith<T(==)>(c: Cell<T>, opt: Option<T>): (Cell<T>, bool)
  {
    if opt.Some? then
      if c.value == opt.value then (c, false) else CheckCell(ResetCell(opt.value))
    else CheckCell(c)
  }

  /** `update_value(v)`. */
  function UpdateCell<T(==)>(c: Cell<T>, v: T): Cell<T>
  {
    if c.value != v then ResetCell(v) else c
  }

  /** `reset(v)`. */
  function ResetCell<T>(v: T): Cell<T>
  {
    Cell(v, false)
  }

  /** `check_and_update()` reports a pending value exactly once: it returns
      true iff the flag was clear, leaves the flag set and the value alone,
      so an immediate second call returns false. */
  lemma CheckOnce<T>(c: Cell<T>)
    ensures CheckCell(c).1 <==> !c.updated
    ensures CheckCell(c).0.updated && CheckCell(c).0.value == c.value
    ensures !CheckCell(CheckCell(c).0).1
  {
  }

  /** `check_and_update(opt)`: with no value it is `check_and_update()`;
      with the stored value it returns false and changes nothing, even when
      the cell is pending; with another value it stores it and returns
      true. */
  lemma CheckWithCases<T>(c: Cell<T>, v: T)
    ensures CheckCellWith(c, None) == CheckCell(c)
    ensures CheckCellWith(c, Some(c.value)) == (c, false)
    ensures v != c.value ==> CheckCellWith(c, Some(v)) == (Cell(v, true), true)
  {
  }

  /** `update_value(v)` stores a different value and marks it pending, and
      is a no-op for the stored value; updating twice with the same value is
      updating once. */
  lemma UpdateValueCases<T>(c: Cell<T>, v: T)
    ensures v != c.value ==> UpdateCell(c, v) == Cell(v, false)
    ensures UpdateCell(c, c.value) == c
    ensures UpdateCell(UpdateCell(c, v), v) == UpdateCell(c, v)
  {
  }

  /** After `reset(v)` the next `check_and_update()` reports it. */
  lemma ResetIsPending<T>(v: T)
    ensures CheckCell(ResetCell(v)) == (Cell(v, true), true)
  {
  }

  class Updatable<T(==)> {
    var value: T
    var updated: bool

    function State(): Cell<T>
      reads this
    {
      Cell(value, updated)
    }

    /** A cell as a default-initialised member leaves it: the value is
        default-constructed and the flag is indeterminate, so both are
        parameters here. */
    constructor (v: T, u: bool)
      ensures State() == Cell(v, u)
    {
      value := v;
      updated := u;
    }

    method CheckAndUpdate() returns (pending: bool)
      modifies this
      ensures (State(), pending) == CheckCell(old(State()))
    {
      pending := !updated;
      updated := true;
    }

    method CheckAndUpdateWith(opt: Option<T>) returns (pending: bool)
      modifies this
      ensures (State(), pending) == CheckCellWith(old(State()), opt)
    {
      if opt.Some? {
        if value == opt.value {
          return false;
        }
        Reset(opt.value);
      }
      pending := CheckAndUpdate();
    }

    method UpdateValue(v: T)
      modifies this
      ensures State() == UpdateCell(old(State()), v)
    {
      if value != v {
        Reset(v);
      }
    }

    method Reset(v: T)
      modifies this
      ensures State() == ResetCell(v)
    {
      value := v;
      updated := false;
    }
  }

  // --------------------------------------------------------- RenderStates

  /** `RenderOptions`: optional transform, viewport and scissor overrides;
      the default options have none of them. */
  datatype RenderOptions = RenderOptions(
    transform: Option<Transform2D>,
    viewport: Option<Viewport>,
    scissor: Option<Rect2D>,
    lazyRendering: bool)

  const DefaultOptions: RenderOptions := RenderOptions(None, None, None, false)

  /** The four cells of a `RenderStates`. */
  datatype States = States(
    renderpass: Cell<UUID>,
    pipeline: Cell<UUID>,
    viewport: Cell<Viewport>,
    scissor: Cell<Rect2D>)

  /** The viewport `reset` installs for a framebuffer. */
  function FullViewport(fb: Extent2D): Viewport
  {
    Viewport(0.0, 0.0, fb.width as real, fb.height as real, 0.0, 0.0)
  }

  /** `reset(target)`. */
  function ResetStates(fb: Extent2D): States
  {
    States(ResetCell(Default()), ResetCell(Default()), ResetCell(FullViewport(fb)), ResetCell(FullRect(fb)))
  }

  /** `bind(target, options)`: the commands it records and the cells it
      leaves. */
  function BindStates(s: States, fb: Extent2D, options: RenderOptions): (seq<Event>, States)
  {
    var (rp, beginPass) := CheckCell(s.renderpass);
    var (pl, bindPipeline) := CheckCell(s.pipeline);
    var (vp, setViewport) := CheckCellWith(s.viewport, options.viewport);
    var (sc, setScissor) := CheckCellWith(s.scissor, options.scissor);
    ((if beginPass then [BeginRenderPass(rp.value, FullRect(fb))] else []) +
     (if bindPipeline then [BindPipeline(pl.value)] else []) +
     (if setViewport then [SetViewport(vp.value)] else []) +
     (if setScissor then [SetScissor(sc.value)] else []),
     States(rp, pl, vp, sc))
  }

  /** Every cell is applied after `bind`. */
  predicate AllApplied(s: States)
  {
    s.renderpass.updated && s.pipeline.updated && s.viewport.updated && s.scissor.updated
  }

  /** `reset` stores the empty ids, the full-framebuffer viewport and
      scissor and leaves all four cells pending, so the first `bind` after
      it records all four commands, in order, for those values. */
  lemma FirstBindAfterReset(fb: Extent2D)
    ensures var s := ResetStates(fb);
      Empty(s.renderpass.value) && Empty(s.pipeline.value) &&
      s.viewport.value == Viewport(0.0, 0.0, fb.width as real, fb.height as real, 0.0, 0.0) &&
      s.scissor.value == Rect2D(Offset2D(0, 0), fb)
    ensures BindStates(ResetStates(fb), fb, DefaultOptions).0 ==
      [BeginRenderPass(Default(), Rect2D(Offset2D(0, 0), fb)), BindPipeline(Default()),
       SetViewport(FullViewport(fb)), SetScissor(Rect2D(Offset2D(0, 0), fb))]
  {
  }

  /** A `bind` without options applies every cell and changes no value, and
      repeating a `bind` with the same options records nothing and changes
      nothing. */
  lemma SecondBindIsSilent(s: States, fb: Extent2D, options: RenderOptions)
    ensures var t := BindStates(s, fb, DefaultOptions).1;
      AllApplied(t) &&
      t.renderpass.value == s.renderpass.value && t.pipeline.value == s.pipeline.value &&
      t.viewport.value == s.viewport.value && t.scissor.value == s.scissor.value
    ensures var t := BindStates(s, fb, options).1;
      BindStates(t, fb, options) == ([], t)
    ensures var t := BindStates(s, fb, DefaultOptions).1;
      BindStates(t, fb, DefaultOptions) == ([], t)
  {
  }

  /** The four commands appear in the fixed order, and each one exactly
      when its cell was pending (or, for viewport and scissor, when the
      option supplies a value other than the stored one). */
  lemma BindOrder(s: States, fb: Extent2D, options: RenderOptions)
    ensures var cmds := BindStates(s, fb, options).0;
      |cmds| <= 4 &&
      (forall i, j :: 0 <= i < j < |cmds| ==> Rank(cmds[i]) < Rank(cmds[j]))
    ensures var cmds := BindStates(s, fb, options).0;
      (exists i :: 0 <= i < |cmds| && cmds[i] == BeginRenderPass(s.renderpass.value, FullRect(fb))) <==>
        !s.renderpass.updated
    ensures var cmds := BindStates(s, fb, options).0;
      (exists i :: 0 <= i < |cmds| && cmds[i] == BindPipeline(s.pipeline.value)) <==>
        !s.pipeline.updated
    ensures var cmds := BindStates(s, fb, options).0;
      (exists i :: 0 <= i < |cmds| && cmds[i].SetViewport?) <==>
        if options.viewport.Some? then options.viewport.value != s.viewport.value else !s.viewport.updated
    ensures var cmds := BindStates(s, fb, options).0;
      (exists i :: 0 <= i < |cmds| && cmds[i].SetScissor?) <==>
        if options.scissor.Some? then options.scissor.value != s.scissor.value else !s.scissor.updated
  {
    var cmds := BindStates(s, fb, options).0;
    if !s.renderpass.updated {
      assert cmds[0] == BeginRenderPass(s.renderpass.value, FullRect(fb));
    }
    if !s.pipeline.updated {
      var k := if s.renderpass.updated then 0 else 1;
      assert cmds[k] == BindPipeline(s.pipeline.value);
    }
    var vBefore := (if s.renderpass.updated then 0 else 1) + (if s.pipeline.updated then 0 else 1);
    if CheckCellWith(s.viewport, options.viewport).1 {
      assert cmds[vBefore].SetViewport?;
    }
    var sBefore := vBefore + (if CheckCellWith(s.viewport, options.viewport).1 then 1 else 0);
    if CheckCellWith(s.scissor, options.scissor).1 {
      assert cmds[sBefore].SetScissor?;
    }
  }

  /** The position of a state command in `bind`'s fixed order. */
  function Rank(e: Event): nat
  {
    match e
    case BeginRenderPass(_, _) => 0
    case BindPipeline(_) => 1
    case SetViewport(_) => 2
    case SetScissor(_) => 3
    case _ => 4
  }

  class RenderStates {
    const renderpass: Updatable<UUID>
    const pipeline: Updatable<UUID>
    const viewport: Updatable<Viewport>
    const scissor: Updatable<Rect2D>

    /** The four cells are distinct objects. */
    ghost predicate Valid()
    {
      renderpass != pipeline
    }

    function Snapshot(): States
      reads renderpass, pipeline, viewport, scissor
    {
      States(renderpass.State(), pipeline.State(), viewport.State(), scissor.State())
    }

    /** A default-initialised `RenderStates`: default values and
        indeterminate flags, given as parameters. */
    constructor (rpUpdated: bool, plUpdated: bool, vpUpdated: bool, scUpdated: bool)
      ensures Valid()
      ensures Snapshot() == States(Cell(Default(), rpUpdated), Cell(Default(), plUpdated),
        Cell(Viewport(0.0, 0.0, 0.0, 0.0, 0.0, 0.0), vpUpdated), Cell(ZeroRect, scUpdated))
      ensures fresh(renderpass) && fresh(pipeline) && fresh(viewport) && fresh(scissor)
    {
      renderpass := new Updatable(Default(), rpUpdated);
      pipeline := new Updatable(Default(), plUpdated);
      viewport := new Updatable(Viewport(0.0, 0.0, 0.0, 0.0, 0.0, 0.0), vpUpdated);
      scissor := new Updatable(ZeroRect, scUpdated);
    }

    method UpdateRenderPassUUID(id: UUID)
      requires Valid()
      modifies renderpass
      ensures Snapshot() == old(Snapshot()).(renderpass := UpdateCell(old(renderpass.State()), id))
    {
      renderpass.UpdateValue(id);
    }

    method UpdatePipelineUUID(id: UUID)
      requires Valid()
      modifies pipeline
      ensures Snapshot() == old(Snapshot()).(pipeline := UpdateCell(old(pipeline.State()), id))
    {
      pipeline.UpdateValue(id);
    }

    method UpdateViewport(v: Viewport)
      modifies viewport
      ensures Snapshot() == old(Snapshot()).(viewport := UpdateCell(old(viewport.State()), v))
    {
      viewport.UpdateValue(v);
    }

    method UpdateScissor(r: Rect2D)
      modifies scissor
      ensures Snapshot() == old(Snapshot()).(scissor := UpdateCell(old(scissor.State()), r))
    {
      scissor.UpdateValue(r);
    }

    method Reset(fb: Extent2D)
      requires Valid()
      modifies renderpass, pipeline, viewport, scissor
      ensures Snapshot() == ResetStates(fb)
    {
      renderpass.Reset(Default());
      pipeline.Reset(Default());
      viewport.Reset(FullViewport(fb));
      scissor.Reset(FullRect(fb));
    }

    method Bind(device: Device, fb: Extent2D, options: RenderOptions)
      requires Valid()
      modifies device, renderpass, pipeline, viewport, scissor
      ensures |device.trace| >= |old(device.trace)|
      ensures (device.trace[|old(device.trace)|..], Snapshot()) == BindStates(old(Snapshot()), fb, options)
      ensures device.trace[..|old(device.trace)|] == old(device.trace)
      ensures device.nextHandle == old(device.nextHandle)
    {
      ghost var s := Snapshot();
      ghost var t0 := device.trace;
      BindRenderPass(device, fb);
      ghost var t1 := device.trace;
      BindPipeline(device);
      ghost var t2 := device.trace;
      BindViewport(device, options.viewport);
      ghost var t3 := device.trace;
      BindScissor(device, options.scissor);
      assert device.trace[|t0|..] == t1[|t0|..] + t2[|t1|..] + t3[|t2|..] + device.trace[|t3|..];
    }

    // The four steps of `bind`, one cell each.

    method BindRenderPass(device: Device, fb: Extent2D)
      requires Valid()
      modifies device, renderpass
      ensures var (c, pending) := CheckCell(old(renderpass.State()));
        renderpass.State() == c &&
        device.trace == old(device.trace) + (if pending then [BeginRenderPass(c.value, FullRect(fb))] else [])
      ensures device.nextHandle == old(device.nextHandle)
    {
      var pending := renderpass.CheckAndUpdate();
      if pending {
        device.Record(BeginRenderPass(renderpass.value, FullRect(fb)));
      }
    }

    method BindPipeline(device: Device)
      requires Valid()
      modifies device, pipeline
      ensures var (c, pending) := CheckCell(old(pipeline.State()));
        pipeline.State() == c &&
        device.trace == old(device.trace) + (if pending then [Event.BindPipeline(c.value)] else [])
      ensures device.nextHandle == old(device.nextHandle)
    {
      var pending := pipeline.CheckAndUpdate();
      if pending {
        device.Record(Event.BindPipeline(pipeline.value));
      }
    }

    method BindViewport(device: Device, opt: Option<Viewport>)
      modifies device, viewport
      ensures var (c, pending) := CheckCellWith(old(viewport.State()), opt);
        viewport.State() == c &&
        device.trace == old(device.trace) + (if pending then [SetViewport(c.value)] else [])
      ensures device.nextHandle == old(device.nextHandle)
    {
      var pending := viewport.CheckAndUpdateWith(opt);
      if pending {
        device.Record(SetViewport(viewport.value));
      }
    }

    method BindScissor(device: Device, opt: Option<Rect2D>)
      modifies device, scissor
      ensures var (c, pending) := CheckCellWith(old(scissor.State()), opt);
        scissor.State() == c &&
        device.trace == old(device.trace) + (if pending then [SetScissor(c.value)] else [])
      ensures device.nextHandle == old(device.nextHandle)
    {
      var pending := scissor.CheckAndUpdateWith(opt);
      if pending {
        device.Record(SetScissor(scissor.value));
      }
    }
  }
}
