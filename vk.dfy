/**
 * The Vulkan enumerants and flag bits the renderer uses, with the numeric
 * values of the Vulkan headers, and the error notifications the renderer
 * raises through the platform's message box.
 */
module Vk {

  /** `VkFormat`, `VkColorSpaceKHR`, `VkPresentModeKHR`, `VkImageLayout` and
      `VkImageTiling` are open enumerations: a driver may report any value. */
  type Format = nat
  type ColorSpace = nat
  type PresentMode = nat
  type ImageLayout = nat
  type ImageTiling = nat
  /** Any `Vk*Flags` bit mask. */
  type Flags = bv32
  /** `VkResult`. */
  type Result = int

  const FORMAT_UNDEFINED: Format := 0
  const FORMAT_R8G8B8A8_UNORM: Format := 37
  const FORMAT_B8G8R8A8_UNORM: Format := 44
  const FORMAT_D32_SFLOAT: Format := 126
  const FORMAT_D24_UNORM_S8_UINT: Format := 129
  const FORMAT_D32_SFLOAT_S8_UINT: Format := 130

  const COLOR_SPACE_SRGB_NONLINEAR: ColorSpace := 0

  const PRESENT_MODE_IMMEDIATE: PresentMode := 0
  const PRESENT_MODE_MAILBOX: PresentMode := 1
  const PRESENT_MODE_FIFO: PresentMode := 2

  const IMAGE_LAYOUT_UNDEFINED: ImageLayout := 0
  const IMAGE_LAYOUT_DEPTH_STENCIL_ATTACHMENT_OPTIMAL: ImageLayout := 3
  const IMAGE_LAYOUT_SHADER_READ_ONLY_OPTIMAL: ImageLayout := 5
  const IMAGE_LAYOUT_TRANSFER_DST_OPTIMAL: ImageLayout := 7

  const IMAGE_TILING_OPTIMAL: ImageTiling := 0
  const IMAGE_TILING_LINEAR: ImageTiling := 1

  const QUEUE_GRAPHICS_BIT: Flags := 0x1

  const MEMORY_PROPERTY_DEVICE_LOCAL_BIT: Flags := 0x1
  const MEMORY_PROPERTY_HOST_VISIBLE_BIT: Flags := 0x2
  const MEMORY_PROPERTY_HOST_COHERENT_BIT: Flags := 0x4

  const FORMAT_FEATURE_DEPTH_STENCIL_ATTACHMENT_BIT: Flags := 0x200

  const IMAGE_ASPECT_COLOR_BIT: Flags := 0x1
  const IMAGE_ASPECT_DEPTH_BIT: Flags := 0x2
  const IMAGE_ASPECT_STENCIL_BIT: Flags := 0x4

  const ACCESS_SHADER_READ_BIT: Flags := 0x20
  const ACCESS_DEPTH_STENCIL_ATTACHMENT_READ_BIT: Flags := 0x200
  const ACCESS_DEPTH_STENCIL_ATTACHMENT_WRITE_BIT: Flags := 0x400
  const ACCESS_TRANSFER_WRITE_BIT: Flags := 0x1000

  const PIPELINE_STAGE_TOP_OF_PIPE_BIT: Flags := 0x1
  const PIPELINE_STAGE_FRAGMENT_SHADER_BIT: Flags := 0x80
  const PIPELINE_STAGE_EARLY_FRAGMENT_TESTS_BIT: Flags := 0x100
  const PIPELINE_STAGE_COLOR_ATTACHMENT_OUTPUT_BIT: Flags := 0x400
  const PIPELINE_STAGE_TRANSFER_BIT: Flags := 0x1000

  const SUCCESS: Result := 0
  const SUBOPTIMAL_KHR: Result := 1000001003
  const ERROR_OUT_OF_DATE_KHR: Result := -1000001004

  const SWAPCHAIN_EXTENSION_NAME: string := "VK_KHR_swapchain"
  const DEBUG_UTILS_EXTENSION_NAME: string := "VK_EXT_debug_utils"
  const STANDARD_VALIDATION_LAYER: string := "VK_LAYER_LUNARG_standard_validation"

  /** `flags` has every bit of `required` set (`(flags & required) == required`). */
  predicate HasAll(flags: Flags, required: Flags)
  {
    flags & required == required
  }

  /** The message boxes `platform->error` shows; none of them stops the program. */
  datatype RendererError =
    | InstanceExtensionsUnavailable
    | LayerNotFound(layer: string)
    | NoVulkanDevice
    | NoSuitableDevice
    | NoMemoryType
    | NoSupportedFormat
    | UnsupportedLayoutTransition
    | AcquireFailed
    | SubmitFailed
    | PresentFailed
}
