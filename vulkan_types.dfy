/**
 * The Vulkan values the renderer's bookkeeping depends on: result codes,
 * command-buffer lifecycle states, surface records, and the parts of the
 * renderer context the swapchain and device code read and write. Every driver
 * call is replaced by the value it would report; handles are opaque numbers
 * with 0 as VK_NULL_HANDLE.
 */
module VulkanTypes {
  import opened Defines

  /** The VkResult codes the fence, swapchain and acquire paths tell apart. */
  datatype VkResult =
    | Success
    | Timeout
    | SuboptimalKhr
    | ErrorOutOfHostMemory
    | ErrorOutOfDeviceMemory
    | ErrorDeviceLost
    | ErrorOutOfDateKhr
    /** Any other code the driver may report. */
    | OtherResult(code: int)

  /** The lifecycle states of a `vulkan_command_buffer`. */
  datatype CommandBufferState =
    | Ready
    | Recording
    | InRenderPass
    | RecordingEnded
    | Submitted
    | NotAllocated

  /** VK_FORMAT_B8G8R8A8_UNORM. */
  const FormatB8G8R8A8Unorm: nat := 44
  /** VK_COLOR_SPACE_SRGB_NONLINEAR_KHR. */
  const ColorSpaceSrgbNonlinear: nat := 0

  /** VkPresentModeKHR values. */
  const PresentModeImmediate: nat := 0
  const PresentModeMailbox: nat := 1
  const PresentModeFifo: nat := 2
  const PresentModeFifoRelaxed: nat := 3

  datatype Extent2D = Extent2D(width: u32, height: u32)

  datatype SurfaceFormat = SurfaceFormat(format: nat, colorSpace: nat)

  /** The VkSurfaceCapabilitiesKHR fields the swapchain reads. */
  datatype SurfaceCapabilities = SurfaceCapabilities(
    minImageCount: u32,
    maxImageCount: u32,
    currentExtent: Extent2D,
    minImageExtent: Extent2D,
    maxImageExtent: Extent2D)

  /** A `vulkan_swapchain_support_info`: the counts are the sequence lengths. */
  datatype SwapchainSupport = SwapchainSupport(
    capabilities: SurfaceCapabilities,
    formats: seq<SurfaceFormat>,
    presentModes: seq<nat>)

  /**
   * The parts of `vulkan_context` (and its `vulkan_device`) that swapchain
   * management and physical-device selection use. `physicalDevice` is the
   * position of the selected device in enumeration order, None while null.
   * Queue family indices are u32 with 0xFFFFFFFF (-1 in C) for "none".
   */
  class VulkanContext {
    var framebufferWidth: u32
    var framebufferHeight: u32
    var currentFrame: u32
    var physicalDevice: Option<nat>
    var graphicsQueueIndex: u32
    var presentQueueIndex: u32
    var transferQueueIndex: u32
    var swapchainSupport: SwapchainSupport

    /** The zeroed context the backend starts from. */
    constructor (framebufferWidth: u32, framebufferHeight: u32, support: SwapchainSupport)
      ensures this.framebufferWidth == framebufferWidth && this.framebufferHeight == framebufferHeight
      ensures currentFrame == 0 && physicalDevice == None && swapchainSupport == support
      ensures graphicsQueueIndex == 0 && presentQueueIndex == 0 && transferQueueIndex == 0
    {
      this.framebufferWidth := framebufferWidth;
      this.framebufferHeight := framebufferHeight;
      currentFrame := 0;
      physicalDevice := None;
      graphicsQueueIndex, presentQueueIndex, transferQueueIndex := 0, 0, 0;
      swapchainSupport := support;
    }
  }
}
