/**
 * The swapchain parameters `createSwapChain` negotiates from what the
 * surface reports: surface format, present mode, extent, image count and
 * image sharing mode (`SwapChainSupportDetails` and `createSwapChain`).
 */
module Swapchain {
  import opened Common
  import opened Vk

  datatype SurfaceFormat = SurfaceFormat(format: Format, colorSpace: ColorSpace)
  datatype Extent2D = Extent2D(width: u32, height: u32)

  /** The part of `VkSurfaceCapabilitiesKHR` the renderer reads. */
  datatype SurfaceCapabilities = SurfaceCapabilities(
    minImageCount: u32,
    maxImageCount: u32,       // 0 means "no maximum"
    currentExtent: Extent2D,
    currentTransform: Flags)

  /** What `querySwapChainSupport` obtains for one device and surface. */
  datatype SwapChainSupportDetails = SwapChainSupportDetails(
    capabilities: SurfaceCapabilities,
    formats: seq<SurfaceFormat>,
    presentModes: seq<PresentMode>)

  const PreferredFormat: SurfaceFormat := SurfaceFormat(FORMAT_B8G8R8A8_UNORM, COLOR_SPACE_SRGB_NONLINEAR)

  /** The surface format the swapchain is created with, stated without the search. */
  function SelectedFormat(formats: seq<SurfaceFormat>): SurfaceFormat
    requires |formats| > 0
  {
    if |formats| == 1 && formats[0].format == FORMAT_UNDEFINED then PreferredFormat
    else if PreferredFormat in formats then PreferredFormat
    else formats[0]
  }

  /** The selection is either the preferred pair or the first reported entry,
      and it is the preferred pair exactly when the surface leaves the choice
      open or offers that pair. */
  lemma SelectedFormatCases(formats: seq<SurfaceFormat>)
    requires |formats| > 0
    ensures SelectedFormat(formats) == PreferredFormat || SelectedFormat(formats) == formats[0]
    ensures SelectedFormat(formats) == PreferredFormat <==>
              (|formats| == 1 && formats[0].format == FORMAT_UNDEFINED) || PreferredFormat in formats
    ensures SelectedFormat(formats) != PreferredFormat ==> SelectedFormat(formats) in formats
  {
  }

  /** `SwapChainSupportDetails::chooseFormat`. */
  method ChooseFormat(formats: seq<SurfaceFormat>) returns (chosen: SurfaceFormat)
    requires |formats| > 0
    ensures chosen == SelectedFormat(formats)
  {
    if |formats| == 1 && formats[0].format == FORMAT_UNDEFINED {
      return PreferredFormat;
    }
    var i := 0;
    while i < |formats|
      invariant 0 <= i <= |formats|
      invariant PreferredFormat !in formats[..i]
    {
      if formats[i].format == FORMAT_B8G8R8A8_UNORM && formats[i].colorSpace == COLOR_SPACE_SRGB_NONLINEAR {
        return formats[i];
      }
      assert formats[..i + 1] == formats[..i] + [formats[i]];
      i := i + 1;
    }
    assert formats[..i] == formats;
    return formats[0];
  }

  /** The present mode the swapchain is created with: mailbox, else immediate, else FIFO. */
  function SelectedPresentMode(modes: seq<PresentMode>): PresentMode
  {
    if PRESENT_MODE_MAILBOX in modes then PRESENT_MODE_MAILBOX
    else if PRESENT_MODE_IMMEDIATE in modes then PRESENT_MODE_IMMEDIATE
    else PRESENT_MODE_FIFO
  }

  /** `SwapChainSupportDetails::choosePresentMode`. */
  method ChoosePresentMode(modes: seq<PresentMode>) returns (chosen: PresentMode)
    ensures chosen == SelectedPresentMode(modes)
    ensures chosen in {PRESENT_MODE_MAILBOX, PRESENT_MODE_IMMEDIATE, PRESENT_MODE_FIFO}
  {
    var bestMode := PRESENT_MODE_FIFO;
    var i := 0;
    while i < |modes|
      invariant 0 <= i <= |modes|
      invariant PRESENT_MODE_MAILBOX !in modes[..i]
      invariant bestMode == if PRESENT_MODE_IMMEDIATE in modes[..i] then PRESENT_MODE_IMMEDIATE else PRESENT_MODE_FIFO
    {
      assert modes[..i + 1] == modes[..i] + [modes[i]];
      if modes[i] == PRESENT_MODE_MAILBOX {
        return modes[i];
      } else if modes[i] == PRESENT_MODE_IMMEDIATE {
        bestMode := modes[i];
      }
      i := i + 1;
    }
    assert modes[..i] == modes;
    return bestMode;
  }

  /** `SwapChainSupportDetails::chooseExtent`: the surface's current extent,
      unless its width is the `UINT32_MAX` sentinel, in which case the
      window's drawable size (two C `int`s, converted to `u32`). */
  function ChooseExtent(capabilities: SurfaceCapabilities, drawableWidth: int, drawableHeight: int): (extent: Extent2D)
    ensures capabilities.currentExtent.width != UINT32_MAX ==> extent == capabilities.currentExtent
    ensures (capabilities.currentExtent.width == UINT32_MAX && 0 <= drawableWidth < U32_MODULUS && 0 <= drawableHeight < U32_MODULUS)
              ==> extent == Extent2D(drawableWidth, drawableHeight)
  {
    if capabilities.currentExtent.width != UINT32_MAX then capabilities.currentExtent
    else Extent2D(ToU32(drawableWidth), ToU32(drawableHeight))
  }

  /** The image count `createSwapChain` requests: `minImageCount + 1` in `u32`
      arithmetic, lowered to `maxImageCount` when there is a maximum and it is exceeded. */
  function RequestedImageCount(capabilities: SurfaceCapabilities): u32
  {
    var count := ToU32(capabilities.minImageCount + 1);
    if capabilities.maxImageCount > 0 && count > capabilities.maxImageCount then capabilities.maxImageCount else count
  }

  lemma RequestedImageCountBounds(capabilities: SurfaceCapabilities)
    requires capabilities.minImageCount < UINT32_MAX
    ensures capabilities.maxImageCount == 0 ==> RequestedImageCount(capabilities) == capabilities.minImageCount + 1
    ensures capabilities.maxImageCount > 0 ==> RequestedImageCount(capabilities) <= capabilities.maxImageCount
    ensures capabilities.maxImageCount > 0 ==>
              RequestedImageCount(capabilities) ==
                if capabilities.minImageCount + 1 <= capabilities.maxImageCount
                then capabilities.minImageCount + 1 else capabilities.maxImageCount
    ensures capabilities.minImageCount <= capabilities.maxImageCount ==> capabilities.minImageCount <= RequestedImageCount(capabilities)
  {
  }

  /** The `u32` addition wraps: a surface reporting `minImageCount == UINT32_MAX`
      and no maximum gets a request for zero images. */
  lemma RequestedImageCountWraps(capabilities: SurfaceCapabilities)
    requires capabilities.minImageCount == UINT32_MAX
    ensures RequestedImageCount(capabilities) == 0
  {
  }

  datatype SharingMode = Exclusive | Concurrent(queueFamilyIndices: seq<u32>)

  /** The image sharing mode: concurrent between the two families when the
      graphics and present queues come from different families. */
  function ImageSharing(graphicsQueueIndex: int, presentQueueIndex: int): (mode: SharingMode)
    ensures mode.Concurrent? <==> graphicsQueueIndex != presentQueueIndex
    ensures mode.Concurrent? ==> mode.queueFamilyIndices == [ToU32(graphicsQueueIndex), ToU32(presentQueueIndex)]
  {
    if graphicsQueueIndex != presentQueueIndex then Concurrent([ToU32(graphicsQueueIndex), ToU32(presentQueueIndex)])
    else Exclusive
  }

  /** Two different `s32` queue indices name two different families after the `u32` conversion. */
  lemma ConcurrentFamiliesDistinct(graphicsQueueIndex: int, presentQueueIndex: int)
    requires -0x8000_0000 <= graphicsQueueIndex < 0x8000_0000 && -0x8000_0000 <= presentQueueIndex < 0x8000_0000
    requires graphicsQueueIndex != presentQueueIndex
    ensures |ImageSharing(graphicsQueueIndex, presentQueueIndex).queueFamilyIndices| == 2
    ensures ImageSharing(graphicsQueueIndex, presentQueueIndex).queueFamilyIndices[0]
            != ImageSharing(graphicsQueueIndex, presentQueueIndex).queueFamilyIndices[1]
  {
  }

  /** The fields of `VkSwapchainCreateInfoKHR` that depend on the surface. */
  datatype SwapchainCreateInfo = SwapchainCreateInfo(
    minImageCount: u32,
    surfaceFormat: SurfaceFormat,
    extent: Extent2D,
    sharing: SharingMode,
    preTransform: Flags,
    presentMode: PresentMode)

  /** The negotiation `createSwapChain` performs before `vkCreateSwapchainKHR`. */
  method BuildSwapchainCreateInfo(details: SwapChainSupportDetails, drawableWidth: int, drawableHeight: int,
                                  graphicsQueueIndex: int, presentQueueIndex: int)
    returns (info: SwapchainCreateInfo)
    requires |details.formats| > 0
    ensures info.surfaceFormat == SelectedFormat(details.formats)
    ensures info.presentMode == SelectedPresentMode(details.presentModes)
    ensures info.extent == ChooseExtent(details.capabilities, drawableWidth, drawableHeight)
    ensures info.minImageCount == RequestedImageCount(details.capabilities)
    ensures info.sharing == ImageSharing(graphicsQueueIndex, presentQueueIndex)
    ensures info.preTransform == details.capabilities.currentTransform
  {
    var format := ChooseFormat(details.formats);
    var mode := ChoosePresentMode(details.presentModes);
    var extent := ChooseExtent(details.capabilities, drawableWidth, drawableHeight);
    var imageCount := ToU32(details.capabilities.minImageCount + 1);
    if details.capabilities.maxImageCount > 0 && imageCount > details.capabilities.maxImageCount {
      imageCount := details.capabilities.maxImageCount;
    }
    info := SwapchainCreateInfo(imageCount, format, extent, ImageSharing(graphicsQueueIndex, presentQueueIndex),
                                details.capabilities.currentTransform, mode);
  }
}
