// `PlatformWindow::render`, `display` and `clear`
// (src/platforms/platform_window.cpp): the frame loop on top of the
// shared window state. `render` begins a frame the first time it is called
// after a `display`, and `display` submits the frame, presents it and moves
// the semaphore ring on by one.
//
// `render` hands its drawable the current frame's render states; the
// drawable's own `draw` is virtual and is modelled where each drawable is
// (the draw list and the texture view), so `Render` returns those states.
module PlatformWindow {
  import opened Vk
  import opened Gpu
  import opened Color
  import opened RenderStates
  import opened WindowBase

  /** The framebuffer size as the extent the render states are reset to. */
  function FrameExtent(w: PlatformWindowBase): Extent2D
    reads w
  {
    Extent2D(w.frameBufferSize.x, w.frameBufferSize.y)
  }

  /** What the frame-begin sequence records after the acquisition: begin
      the frame's command buffer, then wait for and reset its fence. */
  function BeginFrameEvents(f: WindowFrame): seq<Event>
  {
    [BeginCommandBuffer(f.cmdBuffer), WaitFence(f.fence), ResetFence(f.fence)]
  }

  /** What `display` records: end the render pass and the command buffer,
      submit it waiting on the acquisition and signalling completion and
      the fence, and present the image once rendering is complete. */
  function DisplayEvents(f: WindowFrame, pair: FrameSemaphore, image: nat): (r: seq<Event>)
    ensures |r| == 4
  {
    [EndRenderPass, EndCommandBuffer(f.cmdBuffer),
     Submit(f.cmdBuffer, pair.imageAcquired, pair.renderComplete, f.fence),
     Present(pair.renderComplete, image)]
  }

  /** The command buffer `display` submits is the one the frame-begin
      sequence began; it is ended before it is submitted, and the
      presentation waits for the very semaphore the submission signals. */
  lemma FrameProtocol(f: WindowFrame, pair: FrameSemaphore, image: nat)
    ensures BeginFrameEvents(f)[0].cmd == DisplayEvents(f, pair, image)[2].cmd
    ensures DisplayEvents(f, pair, image)[1] == EndCommandBuffer(DisplayEvents(f, pair, image)[2].cmd)
    ensures DisplayEvents(f, pair, image)[3].wait == DisplayEvents(f, pair, image)[2].signal
    ensures BeginFrameEvents(f)[1].fence == DisplayEvents(f, pair, image)[2].fence
  {
  }

  /** The ring step of `display`. */
  function Step(i: nat, n: nat): (r: nat)
    requires n > 0
    ensures r < n
  {
    (i + 1) % n
  }

  /** The ring index after k displays. */
  function Advance(i: nat, n: nat, k: nat): (r: nat)
    requires n > 0
  {
    if k == 0 then i else Step(Advance(i, n, k - 1), n)
  }

  lemma ModBelow(x: int, n: int)
    requires 0 <= x < n
    ensures x % n == x
  {
  }

  lemma ModShift(x: int, n: int)
    requires 0 < n <= x < 2 * n
    ensures x % n == x - n
  {
  }

  /** Within one round the ring index only counts up, wrapping once. */
  lemma {:induction false} AdvanceInRound(i: nat, n: nat, k: nat)
    requires n > 0 && i < n && k <= n
    ensures Advance(i, n, k) == if i + k < n then i + k else i + k - n
  {
    if k > 0 {
      AdvanceInRound(i, n, k - 1);
      var v := Advance(i, n, k - 1);
      if v + 1 < n {
        ModBelow(v + 1, n);
      } else {
        ModShift(v + 1, n);
      }
    }
  }

  /** k displays within a round from ring position i < n reach position
      (i + k) mod n. */
  lemma AdvanceIsSum(i: nat, n: nat, k: nat)
    requires n > 0 && i < n && k <= n
    ensures Advance(i, n, k) == (i + k) % n
  {
    AdvanceInRound(i, n, k);
    if i + k < n {
      ModBelow(i + k, n);
    } else {
      ModShift(i + k, n);
    }
  }

  /** After |semaphores| displays the ring is back where it started, and
      before that it never is: every pair is used once per round. */
  lemma RingRound(i: nat, n: nat, k: nat)
    requires n > 0 && i < n && 0 < k <= n
    ensures Advance(i, n, k) == i <==> k == n
  {
    AdvanceInRound(i, n, k);
  }

  /** The rest of `render`'s frame-begin sequence, on the acquired frame f:
      its command buffer begun, its fence waited for and reset, and its
      render states reset to the framebuffer extent fb. */
  method StartFrame(device: Device, f: WindowFrame, fb: Extent2D)
    requires f.states.Valid()
    modifies device, f.states.renderpass, f.states.pipeline, f.states.viewport, f.states.scissor
    ensures device.trace == old(device.trace) + BeginFrameEvents(f)
    ensures f.states.Snapshot() == ResetStates(fb)
    ensures device.nextHandle == old(device.nextHandle)
  {
    device.Record(BeginCommandBuffer(f.cmdBuffer));
    device.Record(WaitFence(f.fence));
    device.Record(ResetFence(f.fence));
    f.states.Reset(fb);
  }

  /** A trace t1 extending t0, then extended by e: the old prefix, the
      middle part and the last event before e are where they were. */
  lemma TraceTail(t0: seq<Event>, t1: seq<Event>, t2: seq<Event>, e: seq<Event>)
    requires |t0| < |t1| && t1[..|t0|] == t0 && t2 == t1 + e
    ensures t2[..|t0|] == t0 && t2[|t1|..] == e && t2[|t0|..|t1|] == t1[|t0|..]
    ensures t2[|t1| - 1] == t1[|t1| - 1]
  {
  }

  class PlatformWindow {
    /** The platform implementation, whose shared part holds the state. */
    const impl: PlatformWindowBase

    constructor ()
      ensures fresh(impl) && impl.frames == [] && impl.semaphores == [] && !impl.renderBegin
      ensures impl.updateSwapchain && impl.Valid()
    {
      impl := new PlatformWindowBase();
    }

    /** `render(drawable, options)`, the driver answering the acquisitions
        with results: outside a frame, acquire an image, begin its command
        buffer, wait for and reset its fence, reset its render states to the
        framebuffer and mark the frame begun; inside a frame, nothing. In
        both cases the current frame's render states are handed to the
        drawable. */
    method Render(device: Device, caps: SurfaceCapabilities, images: seq<Handle>, graphicsFamily: nat,
                  indeterminate: bool, results: seq<AcquireResult>) returns (states: RenderStates)
      requires impl.Valid() && ExtentDefined(caps)
      requires impl.renderBegin ==> impl.frameIdx < |impl.frames|
      requires !impl.renderBegin ==>
        (exists i :: 0 <= i < |results| && !Retry(results[i])) &&
        (forall i :: 0 <= i < |results| ==> results[i].image < |images|) &&
        ((impl.updateSwapchain || FirstDone(results) > 0) ==> !ZeroExtent(caps)) &&
        (!impl.updateSwapchain ==> |impl.frames| == |images| && |impl.semaphores| > 0)
      modifies impl, device, impl.Cells()
      ensures impl.Valid() && impl.renderBegin && impl.frameIdx < |impl.frames|
      ensures states == impl.frames[impl.frameIdx].states
      ensures old(impl.renderBegin) ==> unchanged(impl) && unchanged(device) && unchanged(StatesCells(states))
      ensures !old(impl.renderBegin) ==>
        var n := |device.trace| - 3;
        |old(device.trace)| < n && device.trace[..|old(device.trace)|] == old(device.trace) &&
        device.trace[n - 1] == AcquireImage(impl.semaphores[impl.semaphoreIdx].imageAcquired) &&
        device.trace[n..] == BeginFrameEvents(impl.frames[impl.frameIdx]) &&
        Acquires(device.trace[|old(device.trace)|..n]) == FirstDone(results) + 1 &&
        impl.frameIdx == results[FirstDone(results)].image &&
        states.Snapshot() == ResetStates(FrameExtent(impl)) &&
        impl.Settings() == old(impl.Settings()).(renderBegin := true)
    {
      if !impl.renderBegin {
        BeginFrame(device, caps, images, graphicsFamily, indeterminate, results);
      }
      states := impl.frames[impl.frameIdx].states;
    }

    /** The frame-begin sequence of `render`. */
    method BeginFrame(device: Device, caps: SurfaceCapabilities, images: seq<Handle>, graphicsFamily: nat,
                      indeterminate: bool, results: seq<AcquireResult>)
      requires impl.Valid() && ExtentDefined(caps)
      requires exists i :: 0 <= i < |results| && !Retry(results[i])
      requires forall i :: 0 <= i < |results| ==> results[i].image < |images|
      requires (impl.updateSwapchain || FirstDone(results) > 0) ==> !ZeroExtent(caps)
      requires !impl.updateSwapchain ==> |impl.frames| == |images| && |impl.semaphores| > 0
      modifies impl, device, impl.Cells()
      ensures impl.Valid() && impl.renderBegin && impl.frameIdx < |impl.frames|
      ensures var n := |device.trace| - 3;
        |old(device.trace)| < n && device.trace[..|old(device.trace)|] == old(device.trace) &&
        device.trace[n - 1] == AcquireImage(impl.semaphores[impl.semaphoreIdx].imageAcquired) &&
        device.trace[n..] == BeginFrameEvents(impl.frames[impl.frameIdx]) &&
        Acquires(device.trace[|old(device.trace)|..n]) == FirstDone(results) + 1
      ensures impl.frameIdx == results[FirstDone(results)].image
      ensures impl.frames[impl.frameIdx].states.Snapshot() == ResetStates(FrameExtent(impl))
      ensures impl.Settings() == old(impl.Settings()).(renderBegin := true)
    {
      ghost var t0 := device.trace;
      impl.AcquireSwapchainImage(device, caps, images, graphicsFamily, indeterminate, results);
      ghost var t1 := device.trace;
      var f := impl.frames[impl.frameIdx];
      CellsOfHas(impl.frames, impl.frameIdx);
      StartFrame(device, f, FrameExtent(impl));
      impl.renderBegin := true;
      TraceTail(t0, t1, device.trace, BeginFrameEvents(f));
    }

    /** `display()`: the commands of `DisplayEvents` for the current frame
        and semaphore pair, then the ring moves on by one and the frame is
        over. */
    method Display(device: Device)
      requires impl.Valid() && impl.frameIdx < |impl.frames| && |impl.semaphores| > 0
      modifies impl`semaphoreIdx, impl`renderBegin, device
      ensures device.trace == old(device.trace) +
        DisplayEvents(impl.frames[impl.frameIdx], impl.semaphores[old(impl.semaphoreIdx)], impl.frameIdx)
      ensures impl.semaphoreIdx == Step(old(impl.semaphoreIdx), |impl.semaphores|) && !impl.renderBegin
      ensures impl.Valid() && device.nextHandle == old(device.nextHandle)
    {
      var f := impl.frames[impl.frameIdx];
      var pair := impl.semaphores[impl.semaphoreIdx];
      device.Record(EndRenderPass);
      device.Record(EndCommandBuffer(f.cmdBuffer));
      device.Record(Submit(f.cmdBuffer, pair.imageAcquired, pair.renderComplete, f.fence));
      device.Record(Present(pair.renderComplete, impl.frameIdx));
      impl.semaphoreIdx := (impl.semaphoreIdx + 1) % |impl.semaphores|;
      impl.renderBegin := false;
    }

    /** `clear(color)`: its body is commented out, so it records nothing
        and changes nothing. */
    method Clear(device: Device, color: Color)
      ensures device.trace == old(device.trace) && impl.renderBegin == old(impl.renderBegin)
    {
    }
  }
}
