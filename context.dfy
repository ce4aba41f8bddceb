// `ContextCreator` and `Context` (src/context.cpp): the process-wide Vulkan
// context. The creator collects layers and extensions; the context checks
// that it is the only one, creates the instance, installs the debug-report
// callback, chooses a physical device, creates the logical device with one
// queue per queue family, and keeps the registries of render passes and
// pipelines by id. It also answers the memory questions buffers and
// textures ask (`alignMemorySize`, `findMemoryType`) and chooses the
// barrier for an image layout transition.
//
// What the driver reports (the available layers, the physical devices with
// their properties) is passed in; the objects it creates are not modelled
// beyond the information VKDL passes to it.
module Context {
  import opened Wrappers
  import opened Uuid

  // ---------------------------------------------------------------------
  // Memory sizes and memory types

  /** `size - 1` on a 64-bit unsigned `VkDeviceSize`: 0 wraps to the
      largest value. */
  function Pred64(size: u64): u64
  {
    if size == 0 then TWO_64 - 1 else size - 1
  }

  /** `alignMemorySize(size)`: `((size - 1) / align + 1) * align` in 64-bit
      unsigned arithmetic, `align` being the chosen device's
      `nonCoherentAtomSize`. Below the top of the 64-bit range it rounds a
      positive size up to a multiple of the alignment that is less than one
      alignment above the size. */
  function AlignMemorySize(size: u64, align: u64): (r: u64)
    requires align != 0
    ensures size >= 1 && size + align <= TWO_64 ==> r % align == 0 && size <= r < size + align
  {
    var q := (Pred64(size) / align + 1) % TWO_64;
    var r := (q * align) % TWO_64;
    if size >= 1 && size + align <= TWO_64 then
      AlignExact(size, align, q, r);
      r
    else
      r
  }

  lemma DivBounds(n: nat, a: nat)
    requires a > 0
    ensures (n / a) * a <= n < (n / a) * a + a
  {
  }

  /** Without wrap-around the arithmetic is the plain rounding up. */
  lemma AlignExact(size: u64, align: u64, q: int, r: int)
    requires size >= 1 && align != 0 && size + align <= TWO_64
    requires q == (Pred64(size) / align + 1) % TWO_64 && r == (q * align) % TWO_64
    ensures q == (size - 1) / align + 1
    ensures r == q * align && r % align == 0 && size <= r < size + align
  {
    var n := size - 1;
    DivBounds(n, align);
    MulMono(1, align, n / align + 1);
    assert q == n / align + 1;
    assert q * align == (n / align) * align + align;
    MulMod(q, align);
  }

  /** No smaller multiple of the alignment lies at or above the size:
      `alignMemorySize` rounds up to the least one. */
  lemma AlignIsLeast(size: u64, align: u64, m: nat)
    requires size >= 1 && align != 0 && size + align <= TWO_64
    requires m % align == 0 && m >= size
    ensures AlignMemorySize(size, align) <= m
  {
    var n := size - 1;
    var q := (Pred64(size) / align + 1) % TWO_64;
    AlignExact(size, align, q, (q * align) % TWO_64);
    var k := m / align;
    DivBounds(m, align);
    assert m == k * align;
    if k < q {
      MulMono(k, n / align, align);
      DivBounds(n, align);
      assert false;
    }
    MulMono(q, k, align);
  }

  /** The remainder of a division is unique. */
  lemma ModUnique(y: int, k: int, m: int, a: int)
    requires a > 0 && 0 <= m < a && y == k * a + m
    ensures y % a == m
  {
    var d := y / a;
    assert y == d * a + y % a;
    var t := k - d;
    assert t * a == y % a - m;
    MulSign(t, a);
  }

  lemma MulSign(t: int, a: int)
    requires a > 0
    ensures t >= 1 ==> t * a >= a
    ensures t <= -1 ==> t * a <= -a
  {
  }

  lemma MulMod(q: nat, a: nat)
    requires a > 0
    ensures (q * a) % a == 0
  {
    ModUnique(q * a, q, 0, a);
  }

  lemma MulMono(x: nat, y: nat, a: nat)
    requires x <= y
    ensures x * a <= y * a
  {
  }

  /** A size of 0 wraps: with an alignment that divides 2^64 (every power
      of two does) it is "rounded up" to 0. */
  lemma AlignZeroWraps(align: u64)
    requires align != 0 && TWO_64 % align == 0
    ensures AlignMemorySize(0, align) == 0
  {
    var c := TWO_64 / align;
    DivBounds(TWO_64, align);
    assert c * align == TWO_64;
    assert (TWO_64 - 1) / align == c - 1 by {
      DivBounds(TWO_64 - 1, align);
      var d := (TWO_64 - 1) / align;
      if d < c - 1 {
        MulMono(d + 1, c - 1, align);
        assert false;
      }
      if d > c - 1 {
        MulMono(c, d, align);
        assert false;
      }
    }
    if c < TWO_64 {
      assert AlignMemorySize(0, align) == (c * align) % TWO_64;
    }
  }

  /** `VkMemoryPropertyFlags` and `findMemoryType`'s filter: 32-bit masks. */
  type Mask = bv32

  /** Memory type i passes the filter and has every requested property. */
  predicate Suitable(filter: Mask, props: Mask, types: seq<Mask>, i: nat)
    requires i < |types| && i < 32
  {
    filter & (1 << i) != 0 && types[i] & props == props
  }

  /** The index `findMemoryType` looks for: the first suitable one. */
  predicate FirstSuitable(filter: Mask, props: Mask, types: seq<Mask>, i: nat)
    requires |types| <= 32
  {
    i < |types| && Suitable(filter, props, types, i) &&
    forall j :: 0 <= j < i ==> !Suitable(filter, props, types, j)
  }

  const MemoryTypeMessage := "failed to find suitable memory type"

  /** `findMemoryType(filter, props)` over the memory types of the chosen
      device (at most `VK_MAX_MEMORY_TYPES` = 32): the lowest index whose
      bit is set in the filter and whose property flags include all of
      `props`, or an error when there is none. */
  method FindMemoryType(filter: Mask, props: Mask, types: seq<Mask>) returns (r: Result<nat>)
    requires |types| <= 32
    ensures r.Ok? ==> FirstSuitable(filter, props, types, r.value)
    ensures r.Err? <==> forall j :: 0 <= j < |types| ==> !Suitable(filter, props, types, j)
    ensures r.Err? ==> r.message == MemoryTypeMessage
  {
    var i := 0;
    while i < |types|
      invariant 0 <= i <= |types|
      invariant forall j :: 0 <= j < i ==> !Suitable(filter, props, types, j)
    {
      if filter & (1 << i) != 0 && types[i] & props == props {
        return Ok(i);
      }
      i := i + 1;
    }
    return Err(MemoryTypeMessage);
  }

  /** There is at most one first suitable type. */
  lemma FirstSuitableUnique(filter: Mask, props: Mask, types: seq<Mask>, i: nat, j: nat)
    requires |types| <= 32
    requires FirstSuitable(filter, props, types, i) && FirstSuitable(filter, props, types, j)
    ensures i == j
  {
  }

  // ---------------------------------------------------------------------
  // Image layout transitions

  /** `VkImageLayout` values the transitions use. */
  type Layout = nat
  const LayoutUndefined: Layout := 0
  const LayoutShaderReadOnly: Layout := 5
  const LayoutTransferSrc: Layout := 6
  const LayoutTransferDst: Layout := 7

  /** `VkAccessFlagBits` and `VkPipelineStageFlagBits` the transitions use. */
  const AccessNone: Mask := 0
  const AccessShaderRead: Mask := 0x20
  const AccessTransferRead: Mask := 0x800
  const AccessTransferWrite: Mask := 0x1000
  const StageTopOfPipe: Mask := 0x1
  const StageFragmentShader: Mask := 0x80
  const StageTransfer: Mask := 0x1000

  /** The image memory barrier `transitionImageLayout` records, with its
      source and destination stages. Every barrier covers the colour
      aspect of mip level 0 and array layer 0 and ignores queue families. */
  datatype Barrier = Barrier(oldLayout: Layout, newLayout: Layout,
                             srcAccess: Mask, dstAccess: Mask,
                             srcStage: Mask, dstStage: Mask)

  const TransitionMessage := "unsupported layout transition"

  /** The five transitions `transitionImageLayout` supports. */
  predicate Supported(from: Layout, to: Layout)
  {
    (from == LayoutUndefined && to in {LayoutTransferDst, LayoutTransferSrc, LayoutShaderReadOnly}) ||
    (from in {LayoutTransferDst, LayoutTransferSrc} && to == LayoutShaderReadOnly)
  }

  /** What an access is waited for at, or made available from: transfer
      accesses at the transfer stage, shader reads at the fragment shader,
      no access at the top of the pipe. */
  function StageOf(access: Mask): Mask
  {
    if access == AccessShaderRead then StageFragmentShader
    else if access == AccessNone then StageTopOfPipe
    else StageTransfer
  }

  /** The access that the work done in a layout performs. */
  function AccessOf(layout: Layout): Mask
  {
    if layout == LayoutTransferDst then AccessTransferWrite
    else if layout == LayoutTransferSrc then AccessTransferRead
    else if layout == LayoutShaderReadOnly then AccessShaderRead
    else AccessNone
  }

  /** `transitionImageLayout(cmd, image, format, from, to)`: the barrier it
      records for one of the five supported pairs, or an error for any
      other pair. */
  function TransitionImageLayout(from: Layout, to: Layout): (r: Result<Barrier>)
    ensures r.Ok? <==> Supported(from, to)
    ensures r.Err? ==> r.message == TransitionMessage
    ensures r.Ok? ==> r.value.oldLayout == from && r.value.newLayout == to
  {
    if from == LayoutUndefined && to == LayoutTransferDst then
      Ok(Barrier(from, to, AccessNone, AccessTransferWrite, StageTopOfPipe, StageTransfer))
    else if from == LayoutUndefined && to == LayoutTransferSrc then
      Ok(Barrier(from, to, AccessNone, AccessTransferRead, StageTopOfPipe, StageTransfer))
    else if from == LayoutTransferDst && to == LayoutShaderReadOnly then
      Ok(Barrier(from, to, AccessTransferWrite, AccessShaderRead, StageTransfer, StageFragmentShader))
    else if from == LayoutUndefined && to == LayoutShaderReadOnly then
      Ok(Barrier(from, to, AccessNone, AccessShaderRead, StageTopOfPipe, StageFragmentShader))
    else if from == LayoutTransferSrc && to == LayoutShaderReadOnly then
      Ok(Barrier(from, to, AccessTransferRead, AccessShaderRead, StageTransfer, StageFragmentShader))
    else
      Err(TransitionMessage)
  }

  /** Every supported barrier waits for the access of the old layout and
      makes the access of the new layout wait, each at its own stage. */
  lemma TransitionBarrierRule(from: Layout, to: Layout)
    requires Supported(from, to)
    ensures var b := TransitionImageLayout(from, to).value;
      b.srcAccess == AccessOf(from) && b.dstAccess == AccessOf(to) &&
      b.srcStage == StageOf(b.srcAccess) && b.dstStage == StageOf(b.dstAccess)
  {
  }

  /** Two supported transitions in a row chain: the second barrier waits
      for exactly the access and stage the first one made available. */
  lemma TransitionsChain(a: Layout, b: Layout, c: Layout)
    requires Supported(a, b) && Supported(b, c)
    ensures TransitionImageLayout(b, c).value.srcAccess == TransitionImageLayout(a, b).value.dstAccess
    ensures TransitionImageLayout(b, c).value.srcStage == TransitionImageLayout(a, b).value.dstStage
    ensures a == LayoutUndefined && c == LayoutShaderReadOnly
  {
  }

  /** Every supported path ends in the shader-read layout after at most
      two transitions: there is none out of it and none back into the
      undefined layout. */
  lemma TransitionsEnd(from: Layout, to: Layout)
    ensures !Supported(LayoutShaderReadOnly, to)
    ensures !Supported(from, LayoutUndefined)
  {
  }

  // ---------------------------------------------------------------------
  // The debug-report callback

  /** `VkDebugReportFlagBitsEXT`. */
  const DebugInformation: Mask := 0x1
  const DebugWarning: Mask := 0x2
  const DebugPerformanceWarning: Mask := 0x4
  const DebugError: Mask := 0x8
  const DebugDebug: Mask := 0x10
  const AllDebugFlags: Mask := 0x1F

  /** The report flags `setDebugCallback(level)` asks for: error from
      level 1, warning from 2, performance warning from 3, debug from 4 and
      information from 5. */
  function DebugFlags(level: nat): Mask
  {
    (if level >= 1 then DebugError else 0) |
    (if level >= 2 then DebugWarning else 0) |
    (if level >= 3 then DebugPerformanceWarning else 0) |
    (if level >= 4 then DebugDebug else 0) |
    (if level >= 5 then DebugInformation else 0)
  }

  /** A higher level reports everything a lower one does; from level 5 on
      every kind is reported, and level 0 asks for nothing. */
  lemma DebugFlagsCumulative(low: nat, high: nat)
    requires low <= high
    ensures DebugFlags(low) & DebugFlags(high) == DebugFlags(low)
    ensures high >= 5 ==> DebugFlags(high) == AllDebugFlags
    ensures DebugFlags(0) == 0
  {
  }

  /** Levels 1 to 5 ask for 1 to 5 kinds of report respectively, so they
      are all different. */
  lemma DebugFlagsDistinct(a: nat, b: nat)
    requires a < b <= 5
    ensures DebugFlags(a) != DebugFlags(b)
  {
  }

  /** `setDebugCallback(level)` on a new context: a callback asking for
      `DebugFlags(level)` for a positive level, none for level 0. */
  function DebugCallbackFor(level: nat): Option<Mask>
  {
    if level > 0 then Some(DebugFlags(level)) else None
  }

  /** `get_message_type_str(flags)`: the tag the callback prints. */
  function MessageTypeName(flags: Mask): string
  {
    if flags == DebugInformation then "[Information]"
    else if flags == DebugWarning then "[Warning]"
    else if flags == DebugPerformanceWarning then "[PerformanceWarning]"
    else if flags == DebugError then "[Error]"
    else if flags == DebugDebug then "[Debug]"
    else "[Unknown]"
  }

  /** Only a single known flag has a tag of its own; no flags, or several
      at once, print "[Unknown]". */
  lemma MessageTypeKnown(flags: Mask)
    ensures MessageTypeName(flags) != "[Unknown]" <==>
      flags in {DebugInformation, DebugWarning, DebugPerformanceWarning, DebugError, DebugDebug}
  {
  }

  // ---------------------------------------------------------------------
  // Physical devices and queues

  /** `VkPhysicalDeviceType`. */
  type DeviceType = nat
  const DeviceTypeOther: DeviceType := 0
  const DeviceTypeIntegratedGpu: DeviceType := 1
  const DeviceTypeDiscreteGpu: DeviceType := 2
  const DeviceTypeVirtualGpu: DeviceType := 3
  const DeviceTypeCpu: DeviceType := 4

  /** What VKDL reads of a physical device: its type, its
      `nonCoherentAtomSize`, the property flags of its memory types and
      the flags of its queue families. */
  datatype PhysicalDevice = PhysicalDevice(deviceType: DeviceType, nonCoherentAtomSize: u64,
                                           memoryTypes: seq<Mask>, queueFamilies: seq<Mask>)

  /** The device `selectPhysicalDevice` chooses: the first of the preferred
      type, or else the first one. */
  function PreferredDevice(devices: seq<PhysicalDevice>, preferred: DeviceType): (r: nat)
    requires |devices| > 0
    ensures r < |devices|
  {
    FirstOfType(devices, preferred, 0)
  }

  /** The first index from `from` on whose device has the preferred type,
      or 0 when there is none. */
  function FirstOfType(devices: seq<PhysicalDevice>, preferred: DeviceType, from: nat): (r: nat)
    requires |devices| > 0 && from <= |devices|
    ensures r < |devices|
    decreases |devices| - from
  {
    if from == |devices| then 0
    else if devices[from].deviceType == preferred then from
    else FirstOfType(devices, preferred, from + 1)
  }

  lemma {:induction false} FirstOfTypeSpec(devices: seq<PhysicalDevice>, preferred: DeviceType, from: nat)
    requires |devices| > 0 && from <= |devices|
    requires forall j :: 0 <= j < from ==> devices[j].deviceType != preferred
    ensures var r := FirstOfType(devices, preferred, from);
      (devices[r].deviceType == preferred && forall j :: 0 <= j < r ==> devices[j].deviceType != preferred) ||
      (r == 0 && forall j :: 0 <= j < |devices| ==> devices[j].deviceType != preferred)
    decreases |devices| - from
  {
    if from < |devices| && devices[from].deviceType != preferred {
      FirstOfTypeSpec(devices, preferred, from + 1);
    }
  }

  /** The chosen device is the first of the preferred type when there is
      one, and the first device when there is none. */
  lemma PreferredDeviceSpec(devices: seq<PhysicalDevice>, preferred: DeviceType)
    requires |devices| > 0
    ensures var r := PreferredDevice(devices, preferred);
      (exists j :: 0 <= j < |devices| && devices[j].deviceType == preferred) ==>
        devices[r].deviceType == preferred && forall j :: 0 <= j < r ==> devices[j].deviceType != preferred
    ensures (forall j :: 0 <= j < |devices| ==> devices[j].deviceType != preferred) ==>
      PreferredDevice(devices, preferred) == 0
  {
    FirstOfTypeSpec(devices, preferred, 0);
  }

  /** `selectPhysicalDevice(preferred)`'s choice among the reported
      devices. */
  method SelectPhysicalDevice(preferred: DeviceType, devices: seq<PhysicalDevice>) returns (i: nat)
    requires |devices| > 0
    ensures i == PreferredDevice(devices, preferred)
  {
    i := 0;
    while i < |devices| && devices[i].deviceType != preferred
      invariant 0 <= i <= |devices|
      invariant FirstOfType(devices, preferred, i) == PreferredDevice(devices, preferred)
    {
      i := i + 1;
    }
    if i == |devices| {
      i := 0;
    }
  }

  /** `VK_QUEUE_GRAPHICS_BIT`. */
  const QueueGraphics: Mask := 0x1

  /** `(uint32_t)-1`, the graphics family index before one is found. */
  const NoQueueFamily: nat := 0xFFFF_FFFF

  /** The last queue family with the graphics bit, if any. */
  function LastGraphics(families: seq<Mask>): (r: Option<nat>)
    ensures r.None? <==> forall j :: 0 <= j < |families| ==> families[j] & QueueGraphics == 0
    ensures r.Some? ==> r.value < |families| && families[r.value] & QueueGraphics != 0
    ensures r.Some? ==> forall j :: r.value < j < |families| ==> families[j] & QueueGraphics == 0
  {
    if |families| == 0 then None
    else if families[|families| - 1] & QueueGraphics != 0 then Some(|families| - 1)
    else LastGraphics(families[..|families| - 1])
  }

  /** The graphics-family field after the family loop. */
  function FamilyIndex(o: Option<nat>): nat
  {
    if o.Some? then o.value else NoQueueFamily
  }

  lemma LastGraphicsSnoc(families: seq<Mask>, i: nat)
    requires i < |families|
    ensures LastGraphics(families[..i + 1]) ==
      if families[i] & QueueGraphics != 0 then Some(i) else LastGraphics(families[..i])
  {
    assert families[..i + 1][..i] == families[..i];
  }

  /** One `VkDeviceQueueCreateInfo`: a family, a queue count and the
      queue priority (1.0). */
  datatype QueueRequest = QueueRequest(family: nat, count: nat, priority: real)

  /** `VkDescriptorPoolCreateInfo` of `createDescriptorPool`: the
      free-descriptor-set flag, at most 100 sets, and room for 100 combined
      image samplers. */
  datatype DescriptorPoolInfo = DescriptorPoolInfo(freeDescriptorSet: bool, maxSets: nat,
                                                   combinedImageSamplers: nat)

  const VkdlDescriptorPool := DescriptorPoolInfo(true, 100, 100)

  const LayerValidation := "VK_LAYER_KHRONOS_validation"
  const ExtDebugReport := "VK_EXT_debug_report"
  const ExtPlatformSurface := "VK_KHR_win32_surface"
  const ExtSurface := "VK_KHR_surface"
  const ExtSwapchain := "VK_KHR_swapchain"

  const DebugLevelMessage := "Maximum debug level is 5"
  const LayerMessage := "VK_LAYER_KHRONOS_validation not supported"
  const SingletonMessage := "VKDL Context already exists"

  /** `check_layer_support(name)`: whether the instance reports a layer of
      that name. */
  method CheckLayerSupport(available: seq<string>, name: string) returns (b: bool)
    ensures b <==> name in available
  {
    var i := 0;
    while i < |available|
      invariant 0 <= i <= |available|
      invariant name !in available[..i]
    {
      if available[i] == name {
        return true;
      }
      i := i + 1;
    }
    assert available[..i] == available;
    return false;
  }

  /** The family loop of `createDevice`: the index of the last family with
      the graphics bit (or `(uint32_t)-1`), and one request for one queue
      of priority 1.0 in each family, in family order. */
  method ScanQueueFamilies(families: seq<Mask>) returns (graphics: nat, requests: seq<QueueRequest>)
    ensures graphics == FamilyIndex(LastGraphics(families))
    ensures |requests| == |families|
    ensures forall k :: 0 <= k < |requests| ==> requests[k] == QueueRequest(k, 1, 1.0)
  {
    graphics := NoQueueFamily;
    requests := [];
    var i := 0;
    while i < |families|
      invariant 0 <= i <= |families|
      invariant graphics == FamilyIndex(LastGraphics(families[..i]))
      invariant |requests| == i
      invariant forall k :: 0 <= k < i ==> requests[k] == QueueRequest(k, 1, 1.0)
    {
      LastGraphicsSnoc(families, i);
      if families[i] & QueueGraphics != 0 {
        graphics := i;
      }
      requests := requests + [QueueRequest(i, 1, 1.0)];
      i := i + 1;
    }
    assert families[..i] == families;
  }

  /** One request for one queue in every family, in family order; and one
      queue per family, every one of them taken from the graphics family. */
  ghost predicate QueueLayout(families: seq<Mask>, graphics: nat, requests: seq<QueueRequest>, queues: seq<nat>)
  {
    |requests| == |families| &&
    (forall i :: 0 <= i < |requests| ==> requests[i] == QueueRequest(i, 1, 1.0)) &&
    |queues| == |families| &&
    (forall i :: 0 <= i < |queues| ==> queues[i] == graphics)
  }

  /** The queue loop of `createDevice`: n times queue 0 of the given
      family. */
  method FetchQueues(n: nat, family: nat) returns (queues: seq<nat>)
    ensures |queues| == n && forall k :: 0 <= k < n ==> queues[k] == family
  {
    queues := [];
    var j := 0;
    while j < n
      invariant 0 <= j <= n && |queues| == j
      invariant forall k :: 0 <= k < j ==> queues[k] == family
    {
      queues := queues + [family];
      j := j + 1;
    }
  }

  /** `vk::ApplicationInfo`; default-constructed it is all zero and null. */
  datatype ApplicationInfo = ApplicationInfo(applicationName: string, applicationVersion: nat,
                                             engineName: string, engineVersion: nat, apiVersion: nat)

  const DefaultApplicationInfo := ApplicationInfo("", 0, "", 0, 0)

  /** The static `Context::context_inst`: whether a context is alive. */
  class InstanceSlot {
    var occupied: bool

    constructor ()
      ensures !occupied
    {
      occupied := false;
    }
  }

  /** The settings a creator hands to the context it creates. */
  datatype CreatorSettings = CreatorSettings(appInfo: ApplicationInfo, layers: seq<string>,
                                             extensions: seq<string>, deviceExtensions: seq<string>,
                                             physicalDeviceType: DeviceType, debugLevel: nat)

  class ContextCreator {
    var appInfo: ApplicationInfo
    var layers: seq<string>
    var extensions: seq<string>
    var deviceExtensions: seq<string>
    var physicalDeviceType: DeviceType
    var debugLevel: nat

    function Settings(): CreatorSettings
      reads this
    {
      CreatorSettings(appInfo, layers, extensions, deviceExtensions, physicalDeviceType, debugLevel)
    }

    /** `enableDebug` fails for every level below 6 and sets the level
        only after that check, so a creator's level is 0 or at least 6. */
    ghost predicate Valid()
      reads this
    {
      debugLevel == 0 || debugLevel >= 6
    }

    /** The default creator: a discrete GPU, debug level 0, no layers or
        extensions. */
    constructor ()
      ensures Valid()
      ensures appInfo == DefaultApplicationInfo && physicalDeviceType == DeviceTypeDiscreteGpu
      ensures debugLevel == 0 && layers == [] && extensions == [] && deviceExtensions == []
    {
      appInfo := DefaultApplicationInfo;
      layers := [];
      extensions := [];
      deviceExtensions := [];
      physicalDeviceType := DeviceTypeDiscreteGpu;
      debugLevel := 0;
    }

    method SetApplicationInfo(info: ApplicationInfo)
      modifies this`appInfo
      ensures appInfo == info
    {
      appInfo := info;
    }

    method AddLayer(name: string)
      modifies this`layers
      ensures layers == old(layers) + [name]
    {
      layers := layers + [name];
    }

    method AddExtension(name: string)
      modifies this`extensions
      ensures extensions == old(extensions) + [name]
    {
      extensions := extensions + [name];
    }

    method AddDeviceExtension(name: string)
      modifies this`deviceExtensions
      ensures deviceExtensions == old(deviceExtensions) + [name]
    {
      deviceExtensions := deviceExtensions + [name];
    }

    method SetPhysicalDeviceType(t: DeviceType)
      modifies this`physicalDeviceType
      ensures physicalDeviceType == t
    {
      physicalDeviceType := t;
    }

    /** `enableDebug(level)`, the instance reporting the layers
        `available`. The check macro throws when its condition holds, so
        every level below 6 is refused with "Maximum debug level is 5" and
        nothing changes. A higher level is stored; then, unless the
        validation layer is available (an error that keeps the new level),
        the validation layer and the debug-report extension are added. */
    method EnableDebug(level: nat, available: seq<string>) returns (r: Result<()>)
      requires Valid()
      modifies this`debugLevel, this`layers, this`extensions
      ensures Valid()
      ensures level < 6 ==> r == Err(DebugLevelMessage) && unchanged(this)
      ensures level >= 6 ==> debugLevel == level
      ensures level >= 6 && LayerValidation !in available ==>
        r == Err(LayerMessage) && layers == old(layers) && extensions == old(extensions)
      ensures level >= 6 && LayerValidation in available ==>
        r == Ok(()) && layers == old(layers) + [LayerValidation] && extensions == old(extensions) + [ExtDebugReport]
    {
      if level < 6 {
        return Err(DebugLevelMessage);
      }
      debugLevel := level;
      var supported := CheckLayerSupport(available, LayerValidation);
      if !supported {
        return Err(LayerMessage);
      }
      layers := layers + [LayerValidation];
      extensions := extensions + [ExtDebugReport];
      r := Ok(());
    }

    /** `create()`: adds the platform surface and surface extensions and
        the swapchain device extension (before the context checks anything,
        so also when it fails), then constructs the context. */
    method Create(slot: InstanceSlot, devices: seq<PhysicalDevice>) returns (r: Result<Context>)
      requires Valid() && |devices| > 0
      modifies this`extensions, this`deviceExtensions, slot
      ensures Valid() && slot.occupied
      ensures extensions == old(extensions) + [ExtPlatformSurface, ExtSurface]
      ensures deviceExtensions == old(deviceExtensions) + [ExtSwapchain]
      ensures old(slot.occupied) <==> r.Err?
      ensures r.Err? ==> r.message == SingletonMessage
      ensures r.Ok? ==> fresh(r.value) && r.value.Created(Settings(), devices)
      ensures r.Ok? ==> r.value.debugCallback.None? || r.value.debugCallback == Some(AllDebugFlags)
    {
      extensions := extensions + [ExtPlatformSurface, ExtSurface];
      deviceExtensions := deviceExtensions + [ExtSwapchain];
      r := NewContext(Settings(), slot, devices);
      if r.Ok? && debugLevel > 0 {
        DebugFlagsCumulative(6, debugLevel);
      }
    }
  }

  /** `Context(creator)`: refused with "VKDL Context already exists" while
      another context is alive; otherwise the slot is taken, then the
      debug callback, the physical device, the logical device and its
      queues, the descriptor pool and the command pool are set up in that
      order. */
  method NewContext(creator: CreatorSettings, slot: InstanceSlot, devices: seq<PhysicalDevice>)
    returns (r: Result<Context>)
    requires |devices| > 0
    modifies slot
    ensures slot.occupied
    ensures old(slot.occupied) <==> r.Err?
    ensures r.Err? ==> r.message == SingletonMessage
    ensures r.Ok? ==> fresh(r.value) && r.value.Created(creator, devices)
  {
    if slot.occupied {
      return Err(SingletonMessage);
    }
    slot.occupied := true;
    var c := new Context(creator, devices);
    r := Ok(c);
  }

  /** The standard `map::insert`: a key already present keeps its value. */
  function Insert<V>(m: map<UUID, V>, k: UUID, v: V): (r: map<UUID, V>)
    ensures k in r && r[k] == (if k in m then m[k] else v)
    ensures r.Keys == m.Keys + {k}
    ensures forall k' :: k' in m && k' != k ==> r[k'] == m[k']
  {
    if k in m then m else m[k := v]
  }

  /** Inserting under a key that is present changes nothing, so a second
      registration under the same id is ignored. */
  lemma InsertKeeps<V>(m: map<UUID, V>, k: UUID, v: V, w: V)
    ensures Insert(Insert(m, k, v), k, w) == Insert(m, k, v)
    ensures k in m ==> Insert(m, k, v) == m
  {
  }

  /** `m[k]` of `std::unordered_map::operator[]`: an absent key is first
      inserted with a default-constructed value, here an empty pointer. */
  function Subscript<V>(m: map<UUID, Option<V>>, k: UUID): (r: map<UUID, Option<V>>)
    ensures k in r && r.Keys == m.Keys + {k}
    ensures k in m ==> r == m
    ensures k !in m ==> r[k] == None && forall k' :: k' in m ==> r[k'] == m[k']
  {
    if k in m then m else m[k := None]
  }

  /** The fault of dereferencing an empty `shared_ptr`. */
  const NullDereference: string := "dereference of an empty shared_ptr"

  /** `*p` for a `shared_ptr` p: its object, or the fault when it is
      empty. */
  function Deref<V>(p: Option<V>): (r: Result<V>)
    ensures p.Some? <==> r.Ok?
    ensures p.Some? ==> r.value == p.value
    ensures p.None? ==> r == Err(NullDereference)
  {
    if p.Some? then Ok(p.value) else Err(NullDereference)
  }

  /** A lookup after registrations answers with the first object
      registered under the id, however many follow. */
  lemma LookupAfterRegister<V>(m: map<UUID, Option<V>>, id: UUID, first: V, later: V)
    requires id !in m
    ensures var m' := Insert(Insert(m, id, Some(first)), id, Some(later));
      Deref(Subscript(m', id)[id]) == Ok(first) && Subscript(m', id) == m'
  {
  }

  /** A lookup of an id not yet registered leaves it registered with an
      empty pointer, so a later registration under it is ignored and every
      lookup after that faults. */
  lemma LookupBeforeRegister<V>(m: map<UUID, Option<V>>, id: UUID, v: V)
    requires id !in m
    ensures Deref(Subscript(m, id)[id]) == Err(NullDereference)
    ensures var m' := Insert(Subscript(m, id), id, Some(v));
      m' == Subscript(m, id) && Deref(Subscript(m', id)[id]) == Err(NullDereference)
  {
  }

  class Context {
    /** What the instance was created with. */
    const instanceLayers: seq<string>
    const instanceExtensions: seq<string>
    /** The installed debug-report callback, by its flags; `None` is the
        null callback. */
    var debugCallback: Option<Mask>
    var physicalDevice: PhysicalDevice
    var graphicsQueueFamily: nat
    /** The queues requested when the logical device was created, and the
        device extensions it was created with. */
    var queueRequests: seq<QueueRequest>
    var deviceExtensions: seq<string>
    /** The queue family of each entry of `queues`. */
    var queues: seq<nat>
    var descriptorPool: Option<DescriptorPoolInfo>
    /** The family of the command pool, which resets its buffers. */
    var commandPoolFamily: Option<nat>
    /** The registries, each id mapped to the object registered under it. */
    var pipelines: map<UUID, Option<nat>>
    var renderPasses: map<UUID, Option<nat>>

    /** The state after construction from `creator` on the reported
        devices. */
    ghost predicate Created(creator: CreatorSettings, devices: seq<PhysicalDevice>)
      requires |devices| > 0
      reads this
    {
      var pd := devices[PreferredDevice(devices, creator.physicalDeviceType)];
      var families := pd.queueFamilies;
      instanceLayers == creator.layers && instanceExtensions == creator.extensions &&
      debugCallback == DebugCallbackFor(creator.debugLevel) &&
      physicalDevice == pd &&
      graphicsQueueFamily == FamilyIndex(LastGraphics(families)) &&
      DeviceQueues(families) &&
      deviceExtensions == creator.deviceExtensions &&
      descriptorPool == Some(VkdlDescriptorPool) &&
      commandPoolFamily == Some(graphicsQueueFamily) &&
      pipelines == map[] && renderPasses == map[]
    }

    ghost predicate DeviceQueues(families: seq<Mask>)
      reads this
    {
      QueueLayout(families, graphicsQueueFamily, queueRequests, queues)
    }

    /** The steps of `Context(creator)` after the singleton check, in
        their order: the instance with the creator's layers and extensions,
        `setDebugCallback`, `selectPhysicalDevice`, `createDevice` (the
        graphics family, one queue request per family, then one queue per
        family fetched from the graphics family), `createDescriptorPool`
        and `createCommandPool` on the graphics family. Both registries
        start empty. */
    constructor (creator: CreatorSettings, devices: seq<PhysicalDevice>)
      requires |devices| > 0
      ensures Created(creator, devices)
    {
      instanceLayers := creator.layers;
      instanceExtensions := creator.extensions;
      debugCallback := DebugCallbackFor(creator.debugLevel);
      var chosen := SelectPhysicalDevice(creator.physicalDeviceType, devices);
      var pd := devices[chosen];
      physicalDevice := pd;
      var graphics, requests := ScanQueueFamilies(pd.queueFamilies);
      graphicsQueueFamily := graphics;
      queueRequests := requests;
      deviceExtensions := creator.deviceExtensions;
      var fetched := FetchQueues(|pd.queueFamilies|, graphics);
      queues := fetched;
      descriptorPool := Some(VkdlDescriptorPool);
      commandPoolFamily := Some(graphics);
      pipelines := map[];
      renderPasses := map[];
    }

    /** `~Context()`: the slot is free again. */
    method Destroy(slot: InstanceSlot)
      modifies slot
      ensures !slot.occupied
    {
      slot.occupied := false;
    }

    predicate HasPipeline(id: UUID)
      reads this
    {
      id in pipelines
    }

    predicate HasRenderPass(id: UUID)
      reads this
    {
      id in renderPasses
    }

    /** `registerPipeline(id, pipeline)`: an id already registered keeps
        its pipeline. */
    method RegisterPipeline(id: UUID, pipeline: nat)
      modifies this`pipelines
      ensures pipelines == Insert(old(pipelines), id, Some(pipeline))
      ensures HasPipeline(id)
    {
      pipelines := Insert(pipelines, id, Some(pipeline));
    }

    /** `registerRenderPass(id, renderPass)`: an id already registered
        keeps its render pass. */
    method RegisterRenderPass(id: UUID, renderPass: nat)
      modifies this`renderPasses
      ensures renderPasses == Insert(old(renderPasses), id, Some(renderPass))
      ensures HasRenderPass(id)
    {
      renderPasses := Insert(renderPasses, id, Some(renderPass));
    }

    /** `getPipeline(id)`: `pipelines[id]` registers an unknown id with an
        empty pointer, and the pointer is then dereferenced. */
    method GetPipeline(id: UUID) returns (r: Result<nat>)
      modifies this`pipelines
      ensures pipelines == Subscript(old(pipelines), id) && HasPipeline(id)
      ensures r == Deref(pipelines[id])
      ensures id in old(pipelines) && old(pipelines)[id].Some? ==> r == Ok(old(pipelines)[id].value)
      ensures id !in old(pipelines) ==> r == Err(NullDereference)
    {
      pipelines := Subscript(pipelines, id);
      r := Deref(pipelines[id]);
    }

    /** `getRenderpass(id)`: as `getPipeline`, on the render passes. */
    method GetRenderPass(id: UUID) returns (r: Result<nat>)
      modifies this`renderPasses
      ensures renderPasses == Subscript(old(renderPasses), id) && HasRenderPass(id)
      ensures r == Deref(renderPasses[id])
      ensures id in old(renderPasses) && old(renderPasses)[id].Some? ==> r == Ok(old(renderPasses)[id].value)
      ensures id !in old(renderPasses) ==> r == Err(NullDereference)
    {
      renderPasses := Subscript(renderPasses, id);
      r := Deref(renderPasses[id]);
    }
  }
}
