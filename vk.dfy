/** The parts of the Vulkan and SDL2 interfaces that the demo's own logic
    inspects, as plain values. Numeric codes are those of the Vulkan and SDL2
    headers; handles are opaque numbers. */
module Vk {

  newtype int32 = x: int | -0x8000_0000 <= x < 0x8000_0000
  newtype uint32 = x: int | 0 <= x < 0x1_0000_0000

  /** VkResult is a 32-bit C enum. */
  type VkResult = int32

  const VK_SUCCESS: VkResult := 0
  const VK_SUBOPTIMAL_KHR: VkResult := 1000001003
  const VK_ERROR_OUT_OF_DATE_KHR: VkResult := -1000001004

  /** The two acquisition and presentation results that ask for a new swapchain. */
  predicate NeedsRebuild(r: VkResult) {
    r == VK_ERROR_OUT_OF_DATE_KHR || r == VK_SUBOPTIMAL_KHR
  }

  type Bool32 = uint32

  const VK_FALSE: Bool32 := 0
  const VK_TRUE: Bool32 := 1

  const VK_QUEUE_GRAPHICS_BIT: bv32 := 0x1
  const VK_DESCRIPTOR_POOL_CREATE_FREE_DESCRIPTOR_SET_BIT: bv32 := 0x1

  datatype PhysicalDeviceType = OtherDevice | IntegratedGpu | DiscreteGpu | VirtualGpu | Cpu

  datatype QueueFamilyProperties = QueueFamilyProperties(queueFlags: bv32, queueCount: uint32)

  /** What the demo asks of an enumerated physical device: its type and its queue families. */
  datatype PhysicalDevice = PhysicalDevice(handle: nat, deviceType: PhysicalDeviceType,
                                           queueFamilies: seq<QueueFamilyProperties>)

  datatype DescriptorType =
    | Sampler | CombinedImageSampler | SampledImage | StorageImage
    | UniformTexelBuffer | StorageTexelBuffer | UniformBuffer | StorageBuffer
    | UniformBufferDynamic | StorageBufferDynamic | InputAttachment

  datatype DescriptorPoolSize = DescriptorPoolSize(descriptorType: DescriptorType, descriptorCount: uint32)

  datatype DescriptorPoolCreateInfo =
    DescriptorPoolCreateInfo(flags: bv32, maxSets: uint32, poolSizes: seq<DescriptorPoolSize>)

  type Format = int32

  const VK_FORMAT_R8G8B8_UNORM: Format := 23
  const VK_FORMAT_B8G8R8_UNORM: Format := 30
  const VK_FORMAT_R8G8B8A8_UNORM: Format := 37
  const VK_FORMAT_B8G8R8A8_UNORM: Format := 44

  type ColorSpace = int32

  const VK_COLOR_SPACE_SRGB_NONLINEAR_KHR: ColorSpace := 0

  datatype SurfaceFormat = SurfaceFormat(format: Format, colorSpace: ColorSpace)

  type PresentMode = int32

  const VK_PRESENT_MODE_IMMEDIATE_KHR: PresentMode := 0
  const VK_PRESENT_MODE_MAILBOX_KHR: PresentMode := 1
  const VK_PRESENT_MODE_FIFO_KHR: PresentMode := 2

  /** A swapchain has at least one image. */
  type ImageCount = n: uint32 | 0 < n witness 1

  /** How an operation ends: normally, or by throwing. `VulkanError` is the
      runtime_error raised for a non-zero VkResult, `NoWsiSupport` the
      invalid_argument raised when the surface cannot be presented to. */
  datatype Error = VulkanError(result: VkResult) | NoWsiSupport

  datatype Outcome = Pass | Fail(error: Error)

  /** SDL2 events, reduced to what the main loop looks at. */
  const SDL_WINDOWEVENT_CLOSE: nat := 14

  datatype Event =
    | QuitEvent
    | WindowEvent(event: nat, windowID: uint32)
    | OtherEvent
}
