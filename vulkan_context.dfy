/** The graphics context: physical-device and queue-family selection, the
    descriptor pool sized for the UI, the window surface check, and the
    validation-message filter. */
module Context {
  import opened Vk
  import opened CallTrace

  /** `uint32_t(-1)`: the queue family index before one is found. */
  const QUEUE_FAMILY_UNSET: uint32 := 0xFFFF_FFFF

  /** Message numbers the validation callback silences in debug builds. */
  const DEBUG_BUILD_WARNING_ID: int32 := 648835635
  const SPECIAL_USE_EXTENSION_ID: int32 := 767975156

  /** The validation callback's answer for a message: VK_FALSE for the two
      known-noisy messages in a debug build, VK_TRUE for everything else. */
  function DebugMessengerVerdict(messageIdNumber: int32, debugBuild: bool): (r: Bool32)
    ensures r == VK_FALSE || r == VK_TRUE
    ensures r == VK_FALSE <==>
              debugBuild && (messageIdNumber == DEBUG_BUILD_WARNING_ID || messageIdNumber == SPECIAL_USE_EXTENSION_ID)
  {
    if debugBuild && messageIdNumber == DEBUG_BUILD_WARNING_ID then VK_FALSE
    else if debugBuild && messageIdNumber == SPECIAL_USE_EXTENSION_ID then VK_FALSE
    else VK_TRUE
  }

  // ---------------------------------------------------------------------
  // Physical device selection

  predicate IsDiscrete(d: PhysicalDevice) {
    d.deviceType == DiscreteGpu
  }

  /** Index of the first discrete GPU at or after `from`, or `|devices|`. */
  function FirstDiscrete(devices: seq<PhysicalDevice>, from: nat): (k: nat)
    requires from <= |devices|
    ensures from <= k <= |devices|
    decreases |devices| - from
  {
    if from == |devices| then from
    else if IsDiscrete(devices[from]) then from
    else FirstDiscrete(devices, from + 1)
  }

  /** The device the context settles on. */
  function PreferredDevice(devices: seq<PhysicalDevice>): (k: nat)
    requires |devices| > 0
    ensures k < |devices|
  {
    var k := FirstDiscrete(devices, 0);
    if k < |devices| then k else 0
  }

  lemma {:induction false} FirstDiscreteIsFirst(devices: seq<PhysicalDevice>, from: nat)
    requires from <= |devices|
    ensures var k := FirstDiscrete(devices, from);
      from <= k <= |devices| &&
      (k < |devices| ==> IsDiscrete(devices[k])) &&
      (forall j :: from <= j < k ==> !IsDiscrete(devices[j]))
    decreases |devices| - from
  {
    if from < |devices| && !IsDiscrete(devices[from]) {
      FirstDiscreteIsFirst(devices, from + 1);
    }
  }

  /** The preferred device is the first discrete GPU when there is one, and
      the first enumerated device otherwise. */
  lemma PreferredDeviceIsFirstDiscrete(devices: seq<PhysicalDevice>)
    requires |devices| > 0
    ensures PreferredDevice(devices) < |devices|
    ensures (exists j :: 0 <= j < |devices| && IsDiscrete(devices[j])) ==>
              IsDiscrete(devices[PreferredDevice(devices)]) &&
              forall j :: 0 <= j < PreferredDevice(devices) ==> !IsDiscrete(devices[j])
    ensures (forall j :: 0 <= j < |devices| ==> !IsDiscrete(devices[j])) ==> PreferredDevice(devices) == 0
  {
    FirstDiscreteIsFirst(devices, 0);
  }

  /** The device loop of the constructor: start from the front, take the
      first discrete GPU and stop. */
  method SelectPhysicalDevice(devices: seq<PhysicalDevice>) returns (selected: nat)
    requires |devices| > 0
    ensures selected == PreferredDevice(devices)
  {
    selected := 0;
    var i := 0;
    while i < |devices|
      invariant 0 <= i <= |devices|
      invariant FirstDiscrete(devices, 0) == FirstDiscrete(devices, i)
      invariant selected == 0
    {
      if IsDiscrete(devices[i]) {
        selected := i;
        break;
      }
      i := i + 1;
    }
  }

  // ---------------------------------------------------------------------
  // Queue family selection

  predicate HasGraphics(q: QueueFamilyProperties) {
    q.queueFlags & VK_QUEUE_GRAPHICS_BIT != 0
  }

  /** Index of the first graphics-capable family at or after `from`, or `|queues|`. */
  function FirstGraphics(queues: seq<QueueFamilyProperties>, from: nat): (k: nat)
    requires from <= |queues|
    ensures from <= k <= |queues|
    decreases |queues| - from
  {
    if from == |queues| then from
    else if HasGraphics(queues[from]) then from
    else FirstGraphics(queues, from + 1)
  }

  /** The queue family index the context ends up with. The family count is a
      uint32 in Vulkan, so every index fits and differs from the sentinel. */
  function GraphicsQueueFamily(queues: seq<QueueFamilyProperties>): (r: uint32)
    requires |queues| <= 0xFFFF_FFFF
    ensures r == QUEUE_FAMILY_UNSET || (r as int) < |queues|
  {
    var k := FirstGraphics(queues, 0);
    if k < |queues| then k as uint32 else QUEUE_FAMILY_UNSET
  }

  lemma {:induction false} FirstGraphicsIsFirst(queues: seq<QueueFamilyProperties>, from: nat)
    requires from <= |queues|
    ensures var k := FirstGraphics(queues, from);
      from <= k <= |queues| &&
      (k < |queues| ==> HasGraphics(queues[k])) &&
      (forall j :: from <= j < k ==> !HasGraphics(queues[j]))
    decreases |queues| - from
  {
    if from < |queues| && !HasGraphics(queues[from]) {
      FirstGraphicsIsFirst(queues, from + 1);
    }
  }

  /** The chosen family is the smallest index with the graphics bit; the
      index stays at the sentinel exactly when no family has it. */
  lemma GraphicsQueueFamilyIsFirst(queues: seq<QueueFamilyProperties>)
    requires |queues| <= 0xFFFF_FFFF
    ensures GraphicsQueueFamily(queues) == QUEUE_FAMILY_UNSET <==>
              forall j :: 0 <= j < |queues| ==> !HasGraphics(queues[j])
    ensures GraphicsQueueFamily(queues) != QUEUE_FAMILY_UNSET ==>
              var k := GraphicsQueueFamily(queues) as int;
              k < |queues| && HasGraphics(queues[k]) &&
              forall j :: 0 <= j < k ==> !HasGraphics(queues[j])
  {
    FirstGraphicsIsFirst(queues, 0);
  }

  /** The queue loop of the constructor: scan the families from index 0 and
      keep the first with the graphics bit. */
  method FindGraphicsQueueFamily(queues: seq<QueueFamilyProperties>) returns (index: uint32)
    requires |queues| <= 0xFFFF_FFFF
    ensures index == GraphicsQueueFamily(queues)
  {
    index := QUEUE_FAMILY_UNSET;
    var i := 0;
    while i < |queues|
      invariant 0 <= i <= |queues|
      invariant FirstGraphics(queues, 0) == FirstGraphics(queues, i)
      invariant index == QUEUE_FAMILY_UNSET
    {
      if HasGraphics(queues[i]) {
        index := i as uint32;
        break;
      }
      i := i + 1;
    }
  }

  // ---------------------------------------------------------------------
  // Descriptor pool, surface formats, present modes

  function TotalDescriptors(sizes: seq<DescriptorPoolSize>): (n: nat) {
    if sizes == [] then 0 else sizes[0].descriptorCount as nat + TotalDescriptors(sizes[1..])
  }

  /** Vulkan's numbering of the descriptor types (VkDescriptorType). */
  function DescriptorTypeCode(t: DescriptorType): (code: nat)
    ensures code <= 10
  {
    match t
    case Sampler => 0
    case CombinedImageSampler => 1
    case SampledImage => 2
    case StorageImage => 3
    case UniformTexelBuffer => 4
    case StorageTexelBuffer => 5
    case UniformBuffer => 6
    case StorageBuffer => 7
    case UniformBufferDynamic => 8
    case StorageBufferDynamic => 9
    case InputAttachment => 10
  }

  /** The entries are listed in strictly increasing order of type code. */
  predicate StrictlyIncreasingTypes(sizes: seq<DescriptorPoolSize>) {
    forall i :: 0 <= i < |sizes| - 1 ==>
      DescriptorTypeCode(sizes[i].descriptorType) < DescriptorTypeCode(sizes[i + 1].descriptorType)
  }

  const UI_POOL_SIZES: seq<DescriptorPoolSize> := [
    DescriptorPoolSize(Sampler, 1000),
    DescriptorPoolSize(CombinedImageSampler, 1000),
    DescriptorPoolSize(SampledImage, 1000),
    DescriptorPoolSize(StorageImage, 1000),
    DescriptorPoolSize(UniformTexelBuffer, 1000),
    DescriptorPoolSize(UniformBuffer, 1000),
    DescriptorPoolSize(StorageBuffer, 1000),
    DescriptorPoolSize(UniformBufferDynamic, 1000),
    DescriptorPoolSize(StorageBufferDynamic, 1000),
    DescriptorPoolSize(InputAttachment, 1000)]

  /** The pool the UI allocates its descriptors from: at most 10000 sets,
      individual sets freeable, ten entries. */
  function UiDescriptorPool(): (info: DescriptorPoolCreateInfo)
    ensures info.flags == VK_DESCRIPTOR_POOL_CREATE_FREE_DESCRIPTOR_SET_BIT
    ensures info.maxSets == 10000
    ensures |info.poolSizes| == 10
  {
    DescriptorPoolCreateInfo(VK_DESCRIPTOR_POOL_CREATE_FREE_DESCRIPTOR_SET_BIT, 10000, UI_POOL_SIZES)
  }

  /** Every entry is for 1000 descriptors, and the entries together hold as
      many descriptors as the pool has sets. */
  lemma UiDescriptorPoolCounts()
    ensures forall i :: 0 <= i < |UiDescriptorPool().poolSizes| ==>
              UiDescriptorPool().poolSizes[i].descriptorCount == 1000
    ensures TotalDescriptors(UiDescriptorPool().poolSizes) == UiDescriptorPool().maxSets as nat
  {
    var sizes := UI_POOL_SIZES;
    assert forall i :: 0 <= i < |sizes| ==> sizes[i].descriptorCount == 1000;
    TotalOfUniform(sizes, 1000);
  }

  /** Entries that all hold `count` descriptors hold `count` times their number together. */
  lemma {:induction false} TotalOfUniform(sizes: seq<DescriptorPoolSize>, count: uint32)
    requires forall i :: 0 <= i < |sizes| ==> sizes[i].descriptorCount == count
    ensures TotalDescriptors(sizes) == |sizes| * count as nat
  {
    if sizes != [] {
      var rest := sizes[1..];
      assert forall i :: 0 <= i < |rest| ==> rest[i] == sizes[i + 1];
      TotalOfUniform(rest, count);
    }
  }

  /** Entries in strictly increasing type order have pairwise-distinct types. */
  lemma {:induction false} IncreasingTypesAreDistinct(sizes: seq<DescriptorPoolSize>)
    requires StrictlyIncreasingTypes(sizes)
    ensures forall i, j :: 0 <= i < j < |sizes| ==> sizes[i].descriptorType != sizes[j].descriptorType
  {
    if |sizes| > 1 {
      var rest := sizes[1..];
      assert StrictlyIncreasingTypes(rest) by {
        forall i | 0 <= i < |rest| - 1
          ensures DescriptorTypeCode(rest[i].descriptorType) < DescriptorTypeCode(rest[i + 1].descriptorType)
        {
          assert rest[i] == sizes[i + 1] && rest[i + 1] == sizes[i + 2];
        }
      }
      IncreasingTypesAreDistinct(rest);
      LeastTypeFirst(sizes);
      forall i, j | 0 <= i < j < |sizes| ensures sizes[i].descriptorType != sizes[j].descriptorType {
        if i > 0 {
          assert sizes[i] == rest[i - 1] && sizes[j] == rest[j - 1];
        }
      }
    }
  }

  /** In strictly increasing order, the first entry's type code is below every later one's. */
  lemma {:induction false} LeastTypeFirst(sizes: seq<DescriptorPoolSize>)
    requires StrictlyIncreasingTypes(sizes)
    ensures forall j :: 0 < j < |sizes| ==>
              DescriptorTypeCode(sizes[0].descriptorType) < DescriptorTypeCode(sizes[j].descriptorType)
  {
    if |sizes| > 2 {
      var front := sizes[..|sizes| - 1];
      assert StrictlyIncreasingTypes(front) by {
        forall i | 0 <= i < |front| - 1
          ensures DescriptorTypeCode(front[i].descriptorType) < DescriptorTypeCode(front[i + 1].descriptorType)
        {
          assert front[i] == sizes[i] && front[i + 1] == sizes[i + 1];
        }
      }
      LeastTypeFirst(front);
      forall j | 0 < j < |sizes|
        ensures DescriptorTypeCode(sizes[0].descriptorType) < DescriptorTypeCode(sizes[j].descriptorType)
      {
        if j < |sizes| - 1 {
          assert front[j] == sizes[j] && front[0] == sizes[0];
        } else {
          assert front[j - 1] == sizes[j - 1] && front[0] == sizes[0];
        }
      }
    }
  }

  /** The pool's entries are in increasing order of type code, so their
      types are pairwise distinct. */
  lemma UiDescriptorPoolDistinct()
    ensures StrictlyIncreasingTypes(UiDescriptorPool().poolSizes)
    ensures forall i, j :: 0 <= i < j < |UiDescriptorPool().poolSizes| ==>
              UiDescriptorPool().poolSizes[i].descriptorType != UiDescriptorPool().poolSizes[j].descriptorType
  {
    IncreasingTypesAreDistinct(UiDescriptorPool().poolSizes);
  }

  /** Whether some entry of `sizes` is for descriptors of type `t`. */
  predicate Provides(sizes: seq<DescriptorPoolSize>, t: DescriptorType) {
    exists i :: 0 <= i < |sizes| && sizes[i].descriptorType == t
  }

  /** The pool has room for every descriptor type except storage texel buffers. */
  lemma UiDescriptorPoolTypes()
    ensures forall t :: Provides(UiDescriptorPool().poolSizes, t) <==> t != StorageTexelBuffer
  {
    var sizes := UI_POOL_SIZES;
    forall t ensures Provides(sizes, t) <==> t != StorageTexelBuffer {
      var code := DescriptorTypeCode(t);
      if t != StorageTexelBuffer {
        var i := if code < 5 then code else code - 1;
        assert sizes[i].descriptorType == t;
      }
    }
  }

  /** Surface formats requested of the UI library's selector, best first,
      all in the sRGB non-linear colour space. */
  const REQUEST_SURFACE_IMAGE_FORMATS: seq<Format> :=
    [VK_FORMAT_B8G8R8A8_UNORM, VK_FORMAT_R8G8B8A8_UNORM, VK_FORMAT_B8G8R8_UNORM, VK_FORMAT_R8G8B8_UNORM]
  const REQUEST_SURFACE_COLOR_SPACE: ColorSpace := VK_COLOR_SPACE_SRGB_NONLINEAR_KHR

  /** Present modes requested of the UI library's selector. Without an
      unlimited frame rate only FIFO is asked for; with it, MAILBOX and
      IMMEDIATE come first. FIFO, the one mode every device supports, is
      always the last resort. */
  function RequestedPresentModes(unlimitedFrameRate: bool): (modes: seq<PresentMode>)
    ensures |modes| > 0 && modes[|modes| - 1] == VK_PRESENT_MODE_FIFO_KHR
    ensures unlimitedFrameRate <==> |modes| > 1
    ensures unlimitedFrameRate ==> modes[0] == VK_PRESENT_MODE_MAILBOX_KHR
  {
    if unlimitedFrameRate then [VK_PRESENT_MODE_MAILBOX_KHR, VK_PRESENT_MODE_IMMEDIATE_KHR, VK_PRESENT_MODE_FIFO_KHR]
    else [VK_PRESENT_MODE_FIFO_KHR]
  }

  // ---------------------------------------------------------------------
  // The context object

  /** The UI library's per-window record, as far as the demo reads or writes it. */
  datatype WindowData = WindowData(
    surface: nat,
    surfaceFormat: SurfaceFormat,
    presentMode: PresentMode,
    imageCount: uint32,
    frameIndex: uint32,
    semaphoreIndex: uint32)

  /** The UI library's window constructor marks the present mode unset with
      `~0`, which as a signed 32-bit enum is -1. */
  const PRESENT_MODE_UNSET: PresentMode := -1

  /** The record as the UI library's constructor leaves it: all zero, present mode unset. */
  const DEFAULT_WINDOW_DATA: WindowData :=
    WindowData(0, SurfaceFormat(0, 0), PRESENT_MODE_UNSET, 0, 0, 0)

  /** A device whose queue-family count fits Vulkan's uint32 count. */
  predicate WellFormedDevice(d: PhysicalDevice) {
    |d.queueFamilies| <= 0xFFFF_FFFF
  }

  class VulkanContext {
    var physicalDevice: PhysicalDevice
    var queueFamilyIndex: uint32
    var descriptorPool: DescriptorPoolCreateInfo
    var mainWindowData: WindowData
    var minImageCount: uint32
    var swapChainRebuild: bool
    /** The frame loop's calls so far. */
    ghost var calls: Trace

    /** The rebuild flag agrees with the calls made, and those calls keep the
        frame loop's discipline. */
    ghost predicate Consistent()
      reads this
    {
      swapChainRebuild == Pending(calls) && TraceOk(calls)
    }

    /** A context whose window has a swapchain: what the frame loop needs. */
    ghost predicate Ready()
      reads this
    {
      Consistent() && mainWindowData.imageCount > 0
    }

    /** Picks the device and queue family and sizes the descriptor pool.
        `devices` is what instance enumeration returned. */
    constructor (devices: seq<PhysicalDevice>)
      requires |devices| > 0
      requires forall i :: 0 <= i < |devices| ==> WellFormedDevice(devices[i])
      ensures physicalDevice == devices[PreferredDevice(devices)] && WellFormedDevice(physicalDevice)
      ensures queueFamilyIndex == GraphicsQueueFamily(physicalDevice.queueFamilies)
      ensures descriptorPool == UiDescriptorPool()
      ensures mainWindowData == DEFAULT_WINDOW_DATA
      ensures minImageCount == 2 && !swapChainRebuild
      ensures calls == [] && Consistent()
    {
      var selected := SelectPhysicalDevice(devices);
      var device := devices[selected];
      var family := FindGraphicsQueueFamily(device.queueFamilies);
      physicalDevice := device;
      queueFamilyIndex := family;
      descriptorPool := UiDescriptorPool();
      mainWindowData := DEFAULT_WINDOW_DATA;
      minImageCount := 2;
      swapChainRebuild := false;
      calls := [];
    }

    /** Stores the surface, then refuses it unless the chosen queue family
        can present to it; otherwise records the format and present mode the
        UI library selected and the swapchain it created. `support` is what
        the surface-support query wrote, `imageCount` the size of the new
        swapchain. The window size only goes to the UI library's swapchain
        creation, so it is not a parameter here. */
    method SetupWindow(surface: nat, support: Bool32,
                       selectedFormat: SurfaceFormat, selectedPresentMode: PresentMode,
                       imageCount: ImageCount)
      returns (o: Outcome)
      requires Consistent()
      modifies this`mainWindowData
      ensures Consistent()
      ensures mainWindowData.surface == surface
      ensures o == (if support == VK_TRUE then Pass else Fail(NoWsiSupport))
      ensures support != VK_TRUE ==> mainWindowData == old(mainWindowData).(surface := surface)
      ensures support == VK_TRUE ==>
                mainWindowData == old(mainWindowData).(surface := surface, surfaceFormat := selectedFormat,
                                                       presentMode := selectedPresentMode, imageCount := imageCount)
      ensures support == VK_TRUE ==> Ready()
    {
      mainWindowData := mainWindowData.(surface := surface);
      if support != VK_TRUE {
        return Fail(NoWsiSupport);
      }
      mainWindowData := mainWindowData.(surfaceFormat := selectedFormat, presentMode := selectedPresentMode);
      mainWindowData := mainWindowData.(imageCount := imageCount);
      o := Pass;
    }
  }
}
