// `PlatformWindowBase` (src/platforms/platform_window_base.h): the part of
// a window every platform shares. It owns the swapchain, one frame (image
// view, framebuffer, command pool and buffer, fence and render states) per
// swapchain image and one pair of semaphores per frame, and it queues the
// window's events.
//
// The driver's answers (surface capabilities, the swapchain's images, the
// result and image index of each acquire, queue-family support) are
// parameters; every call into the driver is an event of the device trace.
module WindowBase {
  import opened Vk
  import opened Gpu
  import opened RenderStates
  import opened WindowEvent

  const UInt32Max: nat := 0xFFFF_FFFF

  /** `VkPresentModeKHR`, by its numeric value. */
  type PresentMode = nat

  const Fifo: PresentMode := 2

  /** The fields of `VkSurfaceCapabilitiesKHR` the window reads. */
  datatype SurfaceCapabilities = SurfaceCapabilities(
    minImageCount: nat, maxImageCount: nat,
    currentExtent: Extent2D, minImageExtent: Extent2D, maxImageExtent: Extent2D)

  /** A value-initialised `VkSurfaceCapabilitiesKHR`. */
  const NoCapabilities: SurfaceCapabilities :=
    SurfaceCapabilities(0, 0, Extent2D(0, 0), Extent2D(0, 0), Extent2D(0, 0))

  /** `get_swapchain_image_count`: one more than the minimum (a 32-bit
      sum), lowered to the maximum when there is a maximum below it. */
  function ImageCount(caps: SurfaceCapabilities): (r: nat)
    ensures 0 < caps.maxImageCount ==> r <= caps.maxImageCount
  {
    var count := (caps.minImageCount + 1) % 0x1_0000_0000;
    if 0 < caps.maxImageCount && caps.maxImageCount < count then caps.maxImageCount else count
  }

  /** For capabilities a driver can report (a maximum of 0, meaning none,
      or one at least the minimum) the count lies between the two, and it
      is one more than the minimum exactly when the maximum leaves room. */
  lemma ImageCountInRange(caps: SurfaceCapabilities)
    requires caps.minImageCount < UInt32Max
    requires caps.maxImageCount == 0 || caps.minImageCount <= caps.maxImageCount
    ensures caps.minImageCount <= ImageCount(caps)
    ensures caps.maxImageCount == 0 || ImageCount(caps) <= caps.maxImageCount
    ensures ImageCount(caps) == caps.minImageCount + 1 <==>
      (caps.maxImageCount == 0 || caps.minImageCount < caps.maxImageCount)
  {
  }

  /** `std::clamp(v, lo, hi)`, which needs lo <= hi: the point of [lo, hi]
      nearest to v. */
  function Clamp(v: nat, lo: nat, hi: nat): (r: nat)
    requires lo <= hi
    ensures lo <= r <= hi
    ensures lo <= v <= hi ==> r == v
    ensures forall x :: lo <= x <= hi ==> Dist(r, v) <= Dist(x, v)
  {
    if v < lo then lo else if hi < v then hi else v
  }

  function Dist(a: nat, b: nat): nat
  {
    if a < b then b - a else a - b
  }

  /** The driver leaves the extent to the window (`currentExtent.width` is
      UINT32_MAX), and the bounds `std::clamp` needs are then ordered. */
  predicate ExtentDefined(caps: SurfaceCapabilities)
  {
    caps.currentExtent.width == UInt32Max ==>
      caps.minImageExtent.width <= caps.maxImageExtent.width &&
      caps.minImageExtent.height <= caps.maxImageExtent.height
  }

  /** `get_swapchain_extent`: the current extent, or, when the driver
      leaves it open, the window size clamped per axis into the allowed
      range. */
  function SwapchainExtent(caps: SurfaceCapabilities, size: UVec2): (r: Extent2D)
    requires ExtentDefined(caps)
  {
    if caps.currentExtent.width != UInt32Max then caps.currentExtent
    else
      Extent2D(Clamp(size.x, caps.minImageExtent.width, caps.maxImageExtent.width),
               Clamp(size.y, caps.minImageExtent.height, caps.maxImageExtent.height))
  }

  /** The swapchain extent is the driver's when it gives one; otherwise it
      lies in the allowed range and equals the window size whenever the
      size does. */
  lemma SwapchainExtentRule(caps: SurfaceCapabilities, size: UVec2)
    requires ExtentDefined(caps)
    ensures caps.currentExtent.width != UInt32Max ==> SwapchainExtent(caps, size) == caps.currentExtent
    ensures caps.currentExtent.width == UInt32Max ==>
      var r := SwapchainExtent(caps, size);
      caps.minImageExtent.width <= r.width <= caps.maxImageExtent.width &&
      caps.minImageExtent.height <= r.height <= caps.maxImageExtent.height &&
      ((caps.minImageExtent.width <= size.x <= caps.maxImageExtent.width &&
        caps.minImageExtent.height <= size.y <= caps.maxImageExtent.height) ==> r == Extent2D(size.x, size.y))
  {
  }

  /** `std::find` over the present modes: the first position holding m,
      or the length when there is none. */
  function Find(modes: seq<PresentMode>, m: PresentMode): (i: nat)
    ensures i <= |modes|
    ensures i < |modes| ==> modes[i] == m
    ensures forall j :: 0 <= j < i ==> modes[j] != m
  {
    if |modes| == 0 then 0
    else if modes[0] == m then 0
    else
      var k := Find(modes[1..], m);
      assert forall j :: 1 <= j < 1 + k ==> modes[j] == modes[1..][j - 1];
      1 + k
  }

  /** A surface has no size to present to. */
  predicate ZeroExtent(caps: SurfaceCapabilities)
  {
    caps.currentExtent.width == 0 || caps.currentExtent.height == 0
  }

  /** One `WindowFrame`: the swapchain image it draws to and the objects
      created for it. */
  datatype WindowFrame = WindowFrame(image: Handle, imageView: Handle, frameBuffer: Handle,
                                     cmdPool: Handle, cmdBuffer: Handle, fence: Handle,
                                     states: RenderStates)

  datatype FrameSemaphore = FrameSemaphore(imageAcquired: Handle, renderComplete: Handle)

  /** The objects a frame owns, in creation order (the image belongs to the
      swapchain). */
  function FrameHandles(f: WindowFrame): (r: seq<Handle>)
    ensures |r| == 5
  {
    [f.imageView, f.cmdPool, f.frameBuffer, f.cmdBuffer, f.fence]
  }

  /** The four cells of a frame's render states. */
  function StatesCells(s: RenderStates): set<object>
  {
    {s.renderpass as object, s.pipeline as object, s.viewport as object, s.scissor as object}
  }

  ghost function CellsOf(fs: seq<WindowFrame>): set<object>
  {
    if |fs| == 0 then {} else CellsOf(fs[..|fs| - 1]) + StatesCells(fs[|fs| - 1].states)
  }

  lemma {:induction false} CellsOfHas(fs: seq<WindowFrame>, i: nat)
    requires i < |fs|
    ensures StatesCells(fs[i].states) <= CellsOf(fs)
  {
    if i < |fs| - 1 {
      assert fs[..|fs| - 1][i] == fs[i];
      CellsOfHas(fs[..|fs| - 1], i);
    }
  }

  /** The frames built for the given images, their objects taking
      consecutive handles from h, five per frame. */
  predicate FramesFor(fs: seq<WindowFrame>, images: seq<Handle>, h: nat)
  {
    |fs| == |images| &&
    forall i :: 0 <= i < |fs| ==> fs[i].image == images[i] && FrameHandles(fs[i]) == HandleRun(h + 5 * i)
  }

  /** Semaphore pairs taking consecutive handles from h, two per pair. */
  predicate PairsFrom(ss: seq<FrameSemaphore>, h: nat)
  {
    forall i :: 0 <= i < |ss| ==> ss[i] == FrameSemaphore(h + 2 * i, h + 2 * i + 1)
  }

  ghost predicate StatesValid(fs: seq<WindowFrame>)
  {
    forall i :: 0 <= i < |fs| ==> fs[i].states.Valid()
  }

  /** Every frame's render-state cells were allocated by the current call. */
  twostate predicate FreshCells(new fs: seq<WindowFrame>)
  {
    forall i :: 0 <= i < |fs| ==> fresh(StatesCells(fs[i].states))
  }

  /** `destroy_window_frame`'s calls for one frame. */
  function FrameTeardown(f: WindowFrame): (r: seq<Event>)
  {
    [Destroyed(f.imageView), Destroyed(f.frameBuffer), FreeCommandBuffer(f.cmdPool, f.cmdBuffer),
     Destroyed(f.cmdPool), Destroyed(f.fence)]
  }

  function FramesTeardown(fs: seq<WindowFrame>): (r: seq<Event>)
    ensures |r| == 5 * |fs|
  {
    if |fs| == 0 then [] else FramesTeardown(fs[..|fs| - 1]) + FrameTeardown(fs[|fs| - 1])
  }

  function SemaphoresTeardown(ss: seq<FrameSemaphore>): (r: seq<Event>)
    ensures |r| == 2 * |ss|
  {
    if |ss| == 0 then []
    else SemaphoresTeardown(ss[..|ss| - 1]) + [Destroyed(ss[|ss| - 1].imageAcquired), Destroyed(ss[|ss| - 1].renderComplete)]
  }

  /** Every object a frame owns is released by the teardown of a list
      holding it: nothing leaks. */
  lemma {:induction false} TeardownReleasesFrame(fs: seq<WindowFrame>, i: nat)
    requires i < |fs|
    ensures forall h :: h in FrameHandles(fs[i]) && h != fs[i].cmdBuffer ==> Destroyed(h) in FramesTeardown(fs)
    ensures FreeCommandBuffer(fs[i].cmdPool, fs[i].cmdBuffer) in FramesTeardown(fs)
  {
    if i < |fs| - 1 {
      assert fs[..|fs| - 1][i] == fs[i];
      TeardownReleasesFrame(fs[..|fs| - 1], i);
    }
  }

  lemma {:induction false} TeardownReleasesSemaphores(ss: seq<FrameSemaphore>, i: nat)
    requires i < |ss|
    ensures Destroyed(ss[i].imageAcquired) in SemaphoresTeardown(ss)
    ensures Destroyed(ss[i].renderComplete) in SemaphoresTeardown(ss)
  {
    if i < |ss| - 1 {
      assert ss[..|ss| - 1][i] == ss[i];
      TeardownReleasesSemaphores(ss[..|ss| - 1], i);
    }
  }

  /** The creation events of n consecutive handles from h. */
  function CreatedRun(h: nat, n: nat): (r: seq<Event>)
    ensures |r| == n
  {
    if n == 0 then [] else CreatedRun(h, n - 1) + [Created(h + n - 1)]
  }

  lemma {:induction false} CreatedRunAt(h: nat, n: nat, i: nat)
    requires i < n
    ensures CreatedRun(h, n)[i] == Created(h + i)
  {
    if i < n - 1 {
      CreatedRunAt(h, n - 1, i);
    }
  }

  /** The first half of `recreate_swapchain`: wait for the device, then
      release the frames and the semaphores. */
  function TeardownEvents(fs: seq<WindowFrame>, ss: seq<FrameSemaphore>): seq<Event>
  {
    [WaitIdle] + FramesTeardown(fs) + SemaphoresTeardown(ss)
  }

  /** What `recreate_swapchain` asks of the driver: the teardown, then
      the new swapchain. */
  function RecreateEvents(fs: seq<WindowFrame>, ss: seq<FrameSemaphore>, caps: SurfaceCapabilities,
                          size: UVec2, mode: PresentMode, concurrent: bool, oldSwapchain: Handle,
                          h: nat, n: nat): seq<Event>
    requires ExtentDefined(caps)
  {
    TeardownEvents(fs, ss) + Creation(caps, size, mode, concurrent, oldSwapchain, h, n)
  }

  /** The swapchain's creation, taking handle h, and the old one's release. */
  function SwapchainHead(caps: SurfaceCapabilities, size: UVec2, mode: PresentMode, concurrent: bool,
                         oldSwapchain: Handle, h: nat): seq<Event>
    requires ExtentDefined(caps)
  {
    [CreateSwapchain(ImageCount(caps), SwapchainExtent(caps, size), mode, concurrent, oldSwapchain),
     Created(h), Destroyed(oldSwapchain)]
  }

  /** Unless the surface has no size: the swapchain (replacing the old
      one), n frames and n semaphore pairs, taking handles from h on. */
  function Creation(caps: SurfaceCapabilities, size: UVec2, mode: PresentMode, concurrent: bool,
                    oldSwapchain: Handle, h: nat, n: nat): seq<Event>
    requires ExtentDefined(caps)
  {
    if ZeroExtent(caps) then []
    else SwapchainHead(caps, size, mode, concurrent, oldSwapchain, h) + CreatedRun(h + 1, 5 * n) +
         CreatedRun(h + 1 + 5 * n, 2 * n)
  }

  /** The number of waits for the device to go idle, one per recreation. */
  function WaitIdles(t: seq<Event>): nat
  {
    if |t| == 0 then 0 else WaitIdles(t[..|t| - 1]) + (if t[|t| - 1].WaitIdle? then 1 else 0)
  }

  /** The number of image acquisitions. */
  function Acquires(t: seq<Event>): nat
  {
    if |t| == 0 then 0 else Acquires(t[..|t| - 1]) + (if t[|t| - 1].AcquireImage? then 1 else 0)
  }

  lemma {:induction false} CountsAppend(a: seq<Event>, b: seq<Event>)
    ensures WaitIdles(a + b) == WaitIdles(a) + WaitIdles(b)
    ensures Acquires(a + b) == Acquires(a) + Acquires(b)
  {
    if |b| > 0 {
      assert (a + b)[..|a + b| - 1] == a + b[..|b| - 1];
      CountsAppend(a, b[..|b| - 1]);
    } else {
      assert a + b == a;
    }
  }

  /** A trace with neither waits nor acquisitions. */
  predicate Quiet(t: seq<Event>)
  {
    forall i :: 0 <= i < |t| ==> !t[i].WaitIdle? && !t[i].AcquireImage?
  }

  lemma {:induction false} QuietCounts(t: seq<Event>)
    requires Quiet(t)
    ensures WaitIdles(t) == 0 && Acquires(t) == 0
  {
    if |t| > 0 {
      QuietCounts(t[..|t| - 1]);
    }
  }

  lemma {:induction false} QuietFrames(fs: seq<WindowFrame>)
    ensures Quiet(FramesTeardown(fs))
  {
    if |fs| > 0 {
      QuietFrames(fs[..|fs| - 1]);
    }
  }

  lemma {:induction false} QuietSemaphores(ss: seq<FrameSemaphore>)
    ensures Quiet(SemaphoresTeardown(ss))
  {
    if |ss| > 0 {
      QuietSemaphores(ss[..|ss| - 1]);
    }
  }

  lemma {:induction false} QuietCreated(h: nat, n: nat)
    ensures Quiet(CreatedRun(h, n))
  {
    if n > 0 {
      QuietCreated(h, n - 1);
    }
  }

  lemma CreationCounts(caps: SurfaceCapabilities, size: UVec2, mode: PresentMode, concurrent: bool,
                        oldSwapchain: Handle, h: nat, n: nat)
    requires ExtentDefined(caps)
    ensures WaitIdles(Creation(caps, size, mode, concurrent, oldSwapchain, h, n)) == 0
    ensures Acquires(Creation(caps, size, mode, concurrent, oldSwapchain, h, n)) == 0
  {
    if !ZeroExtent(caps) {
      var head := SwapchainHead(caps, size, mode, concurrent, oldSwapchain, h);
      var frames := CreatedRun(h + 1, 5 * n);
      var pairs := CreatedRun(h + 1 + 5 * n, 2 * n);
      QuietCounts(head);
      QuietCreated(h + 1, 5 * n);
      QuietCounts(frames);
      QuietCreated(h + 1 + 5 * n, 2 * n);
      QuietCounts(pairs);
      CountsAppend(head, frames);
      CountsAppend(head + frames, pairs);
    }
  }

  /** The teardown waits for the device once and acquires nothing. */
  lemma TeardownCounts(fs: seq<WindowFrame>, ss: seq<FrameSemaphore>)
    ensures WaitIdles(TeardownEvents(fs, ss)) == 1 && Acquires(TeardownEvents(fs, ss)) == 0
  {
    var down := FramesTeardown(fs);
    var sems := SemaphoresTeardown(ss);
    QuietFrames(fs);
    QuietCounts(down);
    QuietSemaphores(ss);
    QuietCounts(sems);
    assert WaitIdles([WaitIdle]) == WaitIdles([]) + 1;
    CountsAppend([WaitIdle], down);
    CountsAppend([WaitIdle] + down, sems);
  }

  /** A recreation waits for the device once and acquires nothing. */
  lemma RecreateCounts(fs: seq<WindowFrame>, ss: seq<FrameSemaphore>, caps: SurfaceCapabilities,
                       size: UVec2, mode: PresentMode, concurrent: bool, oldSwapchain: Handle,
                       h: nat, n: nat)
    requires ExtentDefined(caps)
    ensures WaitIdles(RecreateEvents(fs, ss, caps, size, mode, concurrent, oldSwapchain, h, n)) == 1
    ensures Acquires(RecreateEvents(fs, ss, caps, size, mode, concurrent, oldSwapchain, h, n)) == 0
  {
    TeardownCounts(fs, ss);
    CreationCounts(caps, size, mode, concurrent, oldSwapchain, h, n);
    CountsAppend(TeardownEvents(fs, ss), Creation(caps, size, mode, concurrent, oldSwapchain, h, n));
  }

  /** The result of one `acquireNextImageKHR`: its code and the image
      index it wrote. */
  datatype AcquireCode = Success | Timeout | NotReady | Suboptimal | OutOfDate | Failed(code: int)
  datatype AcquireResult = AcquireResult(code: AcquireCode, image: nat)

  /** The results after which `acquireSwapchainImage` recreates the
      swapchain and tries again. */
  predicate Retry(r: AcquireResult)
  {
    r.code == Suboptimal || r.code == OutOfDate
  }

  /** The position of the first result that ends the acquire loop. */
  function FirstDone(results: seq<AcquireResult>): (k: nat)
    requires exists i :: 0 <= i < |results| && !Retry(results[i])
    ensures k < |results| && !Retry(results[k])
    ensures forall j :: 0 <= j < k ==> Retry(results[j])
  {
    if !Retry(results[0]) then 0
    else
      assert exists i :: 0 <= i < |results[1..]| && !Retry(results[1..][i]) by {
        var i :| 0 <= i < |results| && !Retry(results[i]);
        assert results[1..][i - 1] == results[i];
      }
      var k := FirstDone(results[1..]);
      assert forall j :: 1 <= j < 1 + k ==> results[j] == results[1..][j - 1];
      1 + k
  }

  /** The fields the swapchain code leaves alone. */
  datatype WindowSettings = WindowSettings(
    position: IVec2, size: UVec2, frameBufferSize: UVec2,
    minimized: bool, maximized: bool, focussed: bool, closed: bool,
    surface: Handle, presentQueueFamily: nat, presentModes: seq<PresentMode>, presentMode: PresentMode,
    events: seq<WindowEvent>, mousePrev: IVec2, renderBegin: bool)

  class PlatformWindowBase {
    var position: IVec2
    var size: UVec2
    var frameBufferSize: UVec2
    var minimized: bool
    var maximized: bool
    var focussed: bool
    var closed: bool
    var surface: Handle
    var swapchain: Handle
    var presentQueueFamily: nat
    var capabilities: SurfaceCapabilities
    var presentModes: seq<PresentMode>
    var presentMode: PresentMode
    var frames: seq<WindowFrame>
    var semaphores: seq<FrameSemaphore>
    /** The FIFO queue of events not yet polled. */
    var events: seq<WindowEvent>
    /** The events handed to the window's `OnEventRecieved` delegate, in
        the order it was invoked; what its handlers do is not modelled. */
    var notified: seq<WindowEvent>
    var frameIdx: nat
    var semaphoreIdx: nat
    var mousePrev: IVec2
    var updateSwapchain: bool
    var renderBegin: bool

    function Settings(): WindowSettings
      reads this
    {
      WindowSettings(position, size, frameBufferSize, minimized, maximized, focussed, closed,
                     surface, presentQueueFamily, presentModes, presentMode, events, mousePrev, renderBegin)
    }

    /** One semaphore pair per frame, the ring index inside the ring, and
        each frame's render states well formed. */
    ghost predicate Valid()
      reads this
    {
      |semaphores| == |frames| &&
      (|semaphores| > 0 ==> semaphoreIdx < |semaphores|) &&
      StatesValid(frames)
    }

    /** The render-state cells of all frames. */
    ghost function Cells(): set<object>
      reads this
    {
      CellsOf(frames)
    }

    /** `PlatformWindowBase()`: no swapchain, frames or events, FIFO
        presentation, and a swapchain to be made before the first frame. */
    constructor ()
      ensures position == IVec2(0, 0) && size == UVec2(0, 0) && frameBufferSize == UVec2(0, 0)
      ensures !minimized && !maximized && !focussed && !closed
      ensures surface == 0 && swapchain == 0 && presentQueueFamily == UInt32Max
      ensures capabilities == NoCapabilities && presentModes == [] && presentMode == Fifo
      ensures frames == [] && semaphores == [] && events == [] && notified == []
      ensures frameIdx == 0 && semaphoreIdx == 0 && mousePrev == IVec2(0, 0)
      ensures updateSwapchain && !renderBegin
      ensures Valid()
    {
      position := IVec2(0, 0);
      size := UVec2(0, 0);
      frameBufferSize := UVec2(0, 0);
      minimized := false;
      maximized := false;
      focussed := false;
      closed := false;
      surface := 0;
      swapchain := 0;
      presentQueueFamily := UInt32Max;
      capabilities := NoCapabilities;
      presentModes := [];
      presentMode := Fifo;
      frames := [];
      semaphores := [];
      events := [];
      notified := [];
      frameIdx := 0;
      semaphoreIdx := 0;
      mousePrev := IVec2(0, 0);
      updateSwapchain := true;
      renderBegin := false;
    }

    /** `sendEventMsg`: the `OnEventRecieved` delegate is invoked with the
        event, and then the event joins the back of the queue. */
    method SendEventMsg(e: WindowEvent)
      modifies this`notified, this`events
      ensures notified == old(notified) + [e]
      ensures events == old(events) + [e]
    {
      notified := notified + [e];
      events := events + [e];
    }

    /** `checkPresentModeCompability`. */
    function CheckPresentModeCompatibility(mode: PresentMode): (r: bool)
      reads this
      ensures r <==> mode in presentModes
    {
      Find(presentModes, mode) != |presentModes|
    }

    /** `destroy_window_frame`: releases every frame's objects, in order,
        and empties the list. */
    method DestroyWindowFrame(device: Device)
      modifies this, device
      ensures frames == [] && device.trace == old(device.trace) + FramesTeardown(old(frames))
      ensures device.nextHandle == old(device.nextHandle)
      ensures Settings() == old(Settings()) && semaphores == old(semaphores)
      ensures swapchain == old(swapchain) && capabilities == old(capabilities)
      ensures frameIdx == old(frameIdx) && semaphoreIdx == old(semaphoreIdx)
      ensures updateSwapchain == old(updateSwapchain)
    {
      var i := 0;
      while i < |frames|
        modifies device
        invariant 0 <= i <= |frames|
        invariant device.trace == old(device.trace) + FramesTeardown(frames[..i])
        invariant device.nextHandle == old(device.nextHandle)
      {
        var f := frames[i];
        device.Record(Destroyed(f.imageView));
        device.Record(Destroyed(f.frameBuffer));
        device.Record(FreeCommandBuffer(f.cmdPool, f.cmdBuffer));
        device.Record(Destroyed(f.cmdPool));
        device.Record(Destroyed(f.fence));
        assert frames[..i + 1][..i] == frames[..i];
        i := i + 1;
      }
      assert frames[..i] == frames;
      frames := [];
    }

    /** `destroy_frame_semaphores`: releases both semaphores of every pair
        and empties the list. */
    method DestroyFrameSemaphores(device: Device)
      modifies this, device
      ensures semaphores == [] && device.trace == old(device.trace) + SemaphoresTeardown(old(semaphores))
      ensures device.nextHandle == old(device.nextHandle)
      ensures Settings() == old(Settings()) && frames == old(frames)
      ensures swapchain == old(swapchain) && capabilities == old(capabilities)
      ensures frameIdx == old(frameIdx) && semaphoreIdx == old(semaphoreIdx)
      ensures updateSwapchain == old(updateSwapchain)
    {
      var i := 0;
      while i < |semaphores|
        modifies device
        invariant 0 <= i <= |semaphores|
        invariant device.trace == old(device.trace) + SemaphoresTeardown(semaphores[..i])
        invariant device.nextHandle == old(device.nextHandle)
      {
        device.Record(Destroyed(semaphores[i].imageAcquired));
        device.Record(Destroyed(semaphores[i].renderComplete));
        assert semaphores[..i + 1][..i] == semaphores[..i];
        i := i + 1;
      }
      assert semaphores[..i] == semaphores;
      semaphores := [];
    }

    /** `create_window_frame`: one frame per swapchain image, its five
        objects taking the next five handles, and fresh render states whose
        flags are whatever a default-initialised `RenderStates` holds. */
    method CreateWindowFrame(device: Device, images: seq<Handle>, indeterminate: bool)
      modifies this, device
      ensures |frames| >= |old(frames)| && frames[..|old(frames)|] == old(frames)
      ensures FramesFor(frames[|old(frames)|..], images, old(device.nextHandle))
      ensures StatesValid(frames[|old(frames)|..]) && FreshCells(frames[|old(frames)|..])
      ensures device.nextHandle == old(device.nextHandle) + 5 * |images|
      ensures device.trace == old(device.trace) + CreatedRun(old(device.nextHandle), 5 * |images|)
      ensures Settings() == old(Settings()) && semaphores == old(semaphores)
      ensures swapchain == old(swapchain) && capabilities == old(capabilities)
      ensures frameIdx == old(frameIdx) && semaphoreIdx == old(semaphoreIdx)
      ensures updateSwapchain == old(updateSwapchain)
    {
      var built := NewFrames(device, images, indeterminate);
      frames := frames + built;
      assert frames[|old(frames)|..] == built;
    }

    /** `create_frame_semaphores`: one pair of fresh semaphores per frame,
        and the ring restarts at its first pair. */
    method CreateFrameSemaphores(device: Device)
      modifies this, device
      ensures |semaphores| == |old(semaphores)| + |frames| && semaphores[..|old(semaphores)|] == old(semaphores)
      ensures PairsFrom(semaphores[|old(semaphores)|..], old(device.nextHandle))
      ensures semaphoreIdx == 0
      ensures device.nextHandle == old(device.nextHandle) + 2 * |frames|
      ensures device.trace == old(device.trace) + CreatedRun(old(device.nextHandle), 2 * |frames|)
      ensures Settings() == old(Settings()) && frames == old(frames)
      ensures swapchain == old(swapchain) && capabilities == old(capabilities)
      ensures frameIdx == old(frameIdx) && updateSwapchain == old(updateSwapchain)
    {
      var pairs := NewPairs(device, |frames|);
      semaphores := semaphores + pairs;
      assert semaphores[|old(semaphores)|..] == pairs;
      semaphoreIdx := 0;
    }

    /** `recreate_swapchain`: waits for the device, releases the frames
        and semaphores and takes the new capabilities. A surface with no
        size stops there, both lists empty and the swapchain (and its
        update flag) as they were. Otherwise it creates the swapchain from
        the image-count and extent rules, sharing its images between queues
        when graphics and presentation use different families, releases the
        old one, builds a frame per image and a semaphore pair per frame,
        and marks the swapchain up to date. */
    method RecreateSwapchain(device: Device, caps: SurfaceCapabilities, images: seq<Handle>,
                             graphicsFamily: nat, indeterminate: bool)
      requires ExtentDefined(caps)
      modifies this, device
      ensures device.trace == old(device.trace) +
        RecreateEvents(old(frames), old(semaphores), caps, size, presentMode,
                       graphicsFamily != presentQueueFamily, old(swapchain), old(device.nextHandle), |images|)
      ensures capabilities == caps && Settings() == old(Settings()) && frameIdx == old(frameIdx)
      ensures Valid()
      ensures ZeroExtent(caps) ==>
        frames == [] && semaphores == [] && swapchain == old(swapchain) &&
        updateSwapchain == old(updateSwapchain) && semaphoreIdx == old(semaphoreIdx) &&
        device.nextHandle == old(device.nextHandle)
      ensures !ZeroExtent(caps) ==> Rebuilt(old(device.nextHandle), images) && FreshCells(frames)
    {
      ghost var t0 := device.trace;
      ghost var h := device.nextHandle;
      ghost var fs, ss, sc := frames, semaphores, swapchain;
      var concurrent := graphicsFamily != presentQueueFamily;
      Teardown(device);
      capabilities := caps;
      ghost var t1 := device.trace;
      if !ZeroExtent(caps) {
        Build(device, images, concurrent, indeterminate);
      }
      TailSplit(t0, TeardownEvents(fs, ss), t1, Creation(caps, size, presentMode, concurrent, sc, h, |images|), device.trace);
    }

    /** The state a non-empty recreation leaves, its objects numbered from h
        on: the swapchain, then five per frame, then two per semaphore
        pair, the ring at its first pair and the swapchain up to date. */
    predicate Rebuilt(h: nat, images: seq<Handle>)
      reads this
    {
      swapchain == h && !updateSwapchain && semaphoreIdx == 0 &&
      FramesFor(frames, images, h + 1) &&
      |semaphores| == |images| && PairsFrom(semaphores, h + 1 + 5 * |images|)
    }

    /** The first half of `recreate_swapchain`: wait for the device and
        release the frames and semaphores. */
    method Teardown(device: Device)
      modifies this, device
      ensures device.trace == old(device.trace) + TeardownEvents(old(frames), old(semaphores))
      ensures frames == [] && semaphores == [] && device.nextHandle == old(device.nextHandle)
      ensures Settings() == old(Settings()) && swapchain == old(swapchain) && capabilities == old(capabilities)
      ensures frameIdx == old(frameIdx) && semaphoreIdx == old(semaphoreIdx)
      ensures updateSwapchain == old(updateSwapchain)
    {
      ghost var t0 := device.trace;
      device.Record(WaitIdle);
      ghost var t1 := device.trace;
      DestroyWindowFrame(device);
      ghost var t2 := device.trace;
      DestroyFrameSemaphores(device);
      assert device.trace == t0 + [WaitIdle] + FramesTeardown(old(frames)) + SemaphoresTeardown(old(semaphores));
    }

    /** The second half of `recreate_swapchain` for a surface with a size:
        the swapchain, its frames and semaphores. */
    method Build(device: Device, images: seq<Handle>, concurrent: bool, indeterminate: bool)
      requires frames == [] && semaphores == [] && ExtentDefined(capabilities) && !ZeroExtent(capabilities)
      modifies this, device
      ensures device.trace == old(device.trace) +
        Creation(old(capabilities), old(size), old(presentMode), concurrent, old(swapchain), old(device.nextHandle), |images|)
      ensures Rebuilt(old(device.nextHandle), images) && FreshCells(frames) && Valid()
      ensures Settings() == old(Settings()) && capabilities == old(capabilities) && frameIdx == old(frameIdx)
    {
      ghost var t0 := device.trace;
      ghost var h := device.nextHandle;
      ghost var head := SwapchainHead(capabilities, size, presentMode, concurrent, swapchain, h);
      MakeSwapchain(device, concurrent);
      ghost var t1 := device.trace;
      CreateWindowFrame(device, images, indeterminate);
      assert frames[0..] == frames;
      ghost var t2 := device.trace;
      CreateFrameSemaphores(device);
      assert semaphores[0..] == semaphores;
      updateSwapchain := false;
      BuildSplit(t0, t1, t2, device.trace, head,
                 CreatedRun(h + 1, 5 * |images|), CreatedRun(h + 1 + 5 * |images|, 2 * |images|));
    }

    /** The swapchain itself: created from the image-count and extent
        rules, replacing the old one, which is then released. */
    method MakeSwapchain(device: Device, concurrent: bool)
      requires ExtentDefined(capabilities)
      modifies this`swapchain, device
      ensures device.trace == old(device.trace) +
        SwapchainHead(capabilities, size, presentMode, concurrent, old(swapchain), old(device.nextHandle))
      ensures swapchain == old(device.nextHandle) && device.nextHandle == old(device.nextHandle) + 1
    {
      var oldSwapchain := swapchain;
      device.Record(CreateSwapchain(ImageCount(capabilities), SwapchainExtent(capabilities, size),
                                    presentMode, concurrent, oldSwapchain));
      swapchain := device.NewHandle();
      device.Record(Destroyed(oldSwapchain));
    }

    /** One `acquireNextImageKHR` on the current semaphore pair, the driver
        writing `image` to the frame index. */
    method AcquireOnce(device: Device, image: nat)
      requires semaphoreIdx < |semaphores|
      modifies this`frameIdx, device
      ensures device.trace == old(device.trace) + [AcquireImage(semaphores[semaphoreIdx].imageAcquired)]
      ensures frameIdx == image && device.nextHandle == old(device.nextHandle)
    {
      device.Record(AcquireImage(semaphores[semaphoreIdx].imageAcquired));
      frameIdx := image;
    }

    /** A recreation followed by one acquisition: one wait for the device,
        one acquisition, and a complete ring of fresh frames. */
    method Reacquire(device: Device, caps: SurfaceCapabilities, images: seq<Handle>,
                     graphicsFamily: nat, indeterminate: bool, image: nat)
      requires ExtentDefined(caps) && !ZeroExtent(caps) && image < |images|
      modifies this, device
      ensures Valid() && !updateSwapchain && |frames| == |images| && |semaphores| > 0
      ensures frameIdx == image
      ensures |device.trace| > |old(device.trace)| && device.trace[..|old(device.trace)|] == old(device.trace)
      ensures device.trace[|device.trace| - 1] == AcquireImage(semaphores[semaphoreIdx].imageAcquired)
      ensures WaitIdles(device.trace[|old(device.trace)|..]) == 1
      ensures Acquires(device.trace[|old(device.trace)|..]) == 1
      ensures Settings() == old(Settings()) && FreshCells(frames)
    {
      ghost var t0 := device.trace;
      ghost var fs, ss, sc, h := frames, semaphores, swapchain, device.nextHandle;
      RecreateSwapchain(device, caps, images, graphicsFamily, indeterminate);
      ghost var r := RecreateEvents(fs, ss, caps, size, presentMode, graphicsFamily != presentQueueFamily, sc, h, |images|);
      RecreateCounts(fs, ss, caps, size, presentMode, graphicsFamily != presentQueueFamily, sc, h, |images|);
      AcquireOnce(device, image);
      AcquireStep(t0, r, device.trace, AcquireImage(semaphores[semaphoreIdx].imageAcquired));
    }

    /** `acquireSwapchainImage`, the driver answering the i-th acquisition
        with results[i]: the swapchain is recreated first when it is marked
        out of date, and again after every suboptimal or out-of-date
        result; the first other result ends the loop, with its image as the
        current frame. */
    method AcquireSwapchainImage(device: Device, caps: SurfaceCapabilities, images: seq<Handle>,
                                 graphicsFamily: nat, indeterminate: bool, results: seq<AcquireResult>)
      requires Valid() && ExtentDefined(caps)
      requires exists i :: 0 <= i < |results| && !Retry(results[i])
      requires forall i :: 0 <= i < |results| ==> results[i].image < |images|
      requires (updateSwapchain || FirstDone(results) > 0) ==> !ZeroExtent(caps)
      requires !updateSwapchain ==> |frames| == |images| && |semaphores| > 0
      modifies this, device
      ensures Valid() && !updateSwapchain && |frames| == |images| && |semaphores| > 0
      ensures frameIdx == results[FirstDone(results)].image && frameIdx < |frames|
      ensures |device.trace| > |old(device.trace)| && device.trace[..|old(device.trace)|] == old(device.trace)
      ensures device.trace[|device.trace| - 1] == AcquireImage(semaphores[semaphoreIdx].imageAcquired)
      ensures Acquires(device.trace[|old(device.trace)|..]) == FirstDone(results) + 1
      ensures WaitIdles(device.trace[|old(device.trace)|..]) ==
        FirstDone(results) + (if old(updateSwapchain) then 1 else 0)
      ensures Settings() == old(Settings())
      ensures !old(updateSwapchain) && FirstDone(results) == 0 ==>
        frames == old(frames) && semaphores == old(semaphores) &&
        swapchain == old(swapchain) && semaphoreIdx == old(semaphoreIdx)
      ensures frames == old(frames) || FreshCells(frames)
    {
      ghost var t0 := device.trace;
      if updateSwapchain {
        Reacquire(device, caps, images, graphicsFamily, indeterminate, results[0].image);
      } else {
        AcquireOnce(device, results[0].image);
        OneAcquire(t0, device.trace);
      }
      ghost var t1 := device.trace;
      RetryAcquire(device, caps, images, graphicsFamily, indeterminate, results);
      SliceCounts(t0, t1, device.trace);
    }

    /** The loop of `acquireSwapchainImage`, after its first acquisition
        (which got results[0]): while the last result asks for it, recreate
        the swapchain and acquire again, once per retried result. */
    method RetryAcquire(device: Device, caps: SurfaceCapabilities, images: seq<Handle>,
                        graphicsFamily: nat, indeterminate: bool, results: seq<AcquireResult>)
      requires Valid() && ExtentDefined(caps)
      requires !updateSwapchain && |frames| == |images| && |semaphores| > 0
      requires exists i :: 0 <= i < |results| && !Retry(results[i])
      requires forall i :: 0 <= i < |results| ==> results[i].image < |images|
      requires FirstDone(results) > 0 ==> !ZeroExtent(caps)
      requires frameIdx == results[0].image
      requires |device.trace| > 0 && device.trace[|device.trace| - 1] == AcquireImage(semaphores[semaphoreIdx].imageAcquired)
      modifies this, device
      ensures Valid() && !updateSwapchain && |frames| == |images| && |semaphores| > 0
      ensures frameIdx == results[FirstDone(results)].image
      ensures |device.trace| >= |old(device.trace)| && device.trace[..|old(device.trace)|] == old(device.trace)
      ensures device.trace[|device.trace| - 1] == AcquireImage(semaphores[semaphoreIdx].imageAcquired)
      ensures Acquires(device.trace[|old(device.trace)|..]) == FirstDone(results)
      ensures WaitIdles(device.trace[|old(device.trace)|..]) == FirstDone(results)
      ensures Settings() == old(Settings())
      ensures FirstDone(results) == 0 ==>
        frames == old(frames) && semaphores == old(semaphores) &&
        swapchain == old(swapchain) && semaphoreIdx == old(semaphoreIdx)
      ensures frames == old(frames) || FreshCells(frames)
    {
      ghost var t0 := device.trace;
      ghost var done := FirstDone(results);
      var k := 0;
      assert device.trace[|t0|..] == [];
      while Retry(results[k])
        invariant k <= done && 0 <= k < |results|
        invariant Valid() && !updateSwapchain && |frames| == |images| && |semaphores| > 0
        invariant frameIdx == results[k].image
        invariant |device.trace| >= |t0| && device.trace[..|t0|] == t0 && |device.trace| > 0
        invariant device.trace[|device.trace| - 1] == AcquireImage(semaphores[semaphoreIdx].imageAcquired)
        invariant Acquires(device.trace[|t0|..]) == k && WaitIdles(device.trace[|t0|..]) == k
        invariant Settings() == old(Settings())
        invariant k == 0 ==>
          frames == old(frames) && semaphores == old(semaphores) &&
          swapchain == old(swapchain) && semaphoreIdx == old(semaphoreIdx)
        invariant frames == old(frames) || FreshCells(frames)
        decreases done - k
      {
        ghost var t1 := device.trace;
        k := k + 1;
        Reacquire(device, caps, images, graphicsFamily, indeterminate, results[k].image);
        SliceCounts(t0, t1, device.trace);
      }
    }
  }

  /** The loop of `create_window_frame`: per image, five new objects and
      fresh render states. */
  method NewFrames(device: Device, images: seq<Handle>, indeterminate: bool) returns (built: seq<WindowFrame>)
    modifies device
    ensures FramesFor(built, images, old(device.nextHandle))
    ensures StatesValid(built) && FreshCells(built)
    ensures device.nextHandle == old(device.nextHandle) + 5 * |images|
    ensures device.trace == old(device.trace) + CreatedRun(old(device.nextHandle), 5 * |images|)
  {
    ghost var base := device.nextHandle;
    built := [];
    var i := 0;
    while i < |images|
      invariant 0 <= i <= |images|
      invariant FramesFor(built, images[..i], base)
      invariant StatesValid(built) && FreshCells(built)
      invariant device.nextHandle == base + 5 * i
      invariant device.trace == old(device.trace) + CreatedRun(base, 5 * i)
    {
      ghost var t := device.trace;
      var f := NewFrame(device, images[i], indeterminate);
      CreatedFive(old(device.trace), t, device.trace, base, 5 * i);
      assert images[..i + 1] == images[..i] + [images[i]];
      built := built + [f];
      i := i + 1;
    }
    assert images[..i] == images;
  }

  /** One iteration of `create_window_frame`: the image view, command
      pool, framebuffer, command buffer and fence, and the render states. */
  method NewFrame(device: Device, image: Handle, indeterminate: bool) returns (f: WindowFrame)
    modifies device
    ensures f.image == image && FrameHandles(f) == HandleRun(old(device.nextHandle))
    ensures f.states.Valid() && fresh(StatesCells(f.states))
    ensures device.nextHandle == old(device.nextHandle) + 5
    ensures var h := old(device.nextHandle);
      device.trace == old(device.trace) + [Created(h), Created(h + 1), Created(h + 2), Created(h + 3), Created(h + 4)]
  {
    var view := device.NewHandle();
    var pool := device.NewHandle();
    var framebuffer := device.NewHandle();
    var cmd := device.NewHandle();
    var fence := device.NewHandle();
    var states := new RenderStates(indeterminate, indeterminate, indeterminate, indeterminate);
    f := WindowFrame(image, view, framebuffer, pool, cmd, fence, states);
  }

  /** The loop of `create_frame_semaphores`: n pairs of new semaphores. */
  method NewPairs(device: Device, n: nat) returns (pairs: seq<FrameSemaphore>)
    modifies device
    ensures |pairs| == n && PairsFrom(pairs, old(device.nextHandle))
    ensures device.nextHandle == old(device.nextHandle) + 2 * n
    ensures device.trace == old(device.trace) + CreatedRun(old(device.nextHandle), 2 * n)
  {
    ghost var base := device.nextHandle;
    pairs := [];
    var i := 0;
    while i < n
      invariant 0 <= i <= n && |pairs| == i && PairsFrom(pairs, base)
      invariant device.nextHandle == base + 2 * i
      invariant device.trace == old(device.trace) + CreatedRun(base, 2 * i)
    {
      var acquired := device.NewHandle();
      var complete := device.NewHandle();
      assert CreatedRun(base, 2 * i + 2) == CreatedRun(base, 2 * i + 1) + [Created(base + 2 * i + 1)];
      pairs := pairs + [FrameSemaphore(acquired, complete)];
      i := i + 1;
    }
  }

  /** A trace extended by a teardown and then a creation is extended by
      the whole recreation. */
  lemma TailSplit(t0: seq<Event>, a: seq<Event>, t1: seq<Event>, b: seq<Event>, t2: seq<Event>)
    requires t1 == t0 + a && t2 == t1 + b
    ensures t2 == t0 + (a + b)
  {
  }

  /** The swapchain, the frames' objects and the semaphores make
      the creation. */
  lemma BuildSplit(t0: seq<Event>, t1: seq<Event>, t2: seq<Event>, t3: seq<Event>,
                   head: seq<Event>, fr: seq<Event>, pr: seq<Event>)
    requires t1 == t0 + head && t2 == t1 + fr && t3 == t2 + pr
    ensures t3 == t0 + (head + fr + pr)
  {
  }

  /** A first acquisition without a recreation counts one acquisition and
      no wait. */
  lemma OneAcquire(t0: seq<Event>, t1: seq<Event>)
    requires |t1| == |t0| + 1 && t1[..|t0|] == t0 && t1[|t0|].AcquireImage?
    ensures Acquires(t1[|t0|..]) == 1 && WaitIdles(t1[|t0|..]) == 0
  {
    assert t1[|t0|..] == [t1[|t0|]];
    assert t1[|t0|..][..0] == [];
  }

  /** A recreation and an acquisition add their counts to the trace's. */
  lemma AcquireStep(t0: seq<Event>, r: seq<Event>, t1: seq<Event>, e: Event)
    requires t1 == t0 + r + [e] && e.AcquireImage?
    ensures |t1| > |t0| && t1[..|t0|] == t0
    ensures WaitIdles(t1[|t0|..]) == WaitIdles(r)
    ensures Acquires(t1[|t0|..]) == Acquires(r) + 1
  {
    assert t1[|t0|..] == r + [e];
    CountsAppend(r, [e]);
    assert Acquires([e]) == Acquires([]) + 1;
    assert WaitIdles([e]) == WaitIdles([]);
  }

  /** Counts over a trace extended twice add up. */
  lemma SliceCounts(t0: seq<Event>, t1: seq<Event>, t2: seq<Event>)
    requires |t0| <= |t1| <= |t2| && t1[..|t0|] == t0 && t2[..|t1|] == t1
    ensures t2[..|t0|] == t0
    ensures WaitIdles(t2[|t0|..]) == WaitIdles(t1[|t0|..]) + WaitIdles(t2[|t1|..])
    ensures Acquires(t2[|t0|..]) == Acquires(t1[|t0|..]) + Acquires(t2[|t1|..])
  {
    assert t2[|t0|..] == t1[|t0|..] + t2[|t1|..];
    CountsAppend(t1[|t0|..], t2[|t1|..]);
  }

  /** Five consecutive handles from h. */
  function HandleRun(h: nat): (r: seq<Handle>)
    ensures |r| == 5
  {
    [h, h + 1, h + 2, h + 3, h + 4]
  }

  /** Five more creations extend a run by five. */
  lemma CreatedFive(t0: seq<Event>, t: seq<Event>, t5: seq<Event>, base: nat, k: nat)
    requires t == t0 + CreatedRun(base, k)
    requires t5 == t + [Created(base + k), Created(base + k + 1), Created(base + k + 2),
                        Created(base + k + 3), Created(base + k + 4)]
    ensures t5 == t0 + CreatedRun(base, k + 5)
  {
    assert CreatedRun(base, k + 5) == CreatedRun(base, k + 4) + [Created(base + k + 4)];
    assert CreatedRun(base, k + 4) == CreatedRun(base, k + 3) + [Created(base + k + 3)];
    assert CreatedRun(base, k + 3) == CreatedRun(base, k + 2) + [Created(base + k + 2)];
    assert CreatedRun(base, k + 2) == CreatedRun(base, k + 1) + [Created(base + k + 1)];
  }
}
