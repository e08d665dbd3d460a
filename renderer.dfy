/**
 * The lifecycle and frame protocol of `VulkanRenderer`: `init` creates the
 * objects in their source order, uploads go through staging buffers that are
 * destroyed again, `cleanupSwapChain`/`recreateSwapChain` rebuild only the
 * swapchain group, `cleanup` destroys everything children-first, and the
 * frame functions drive the two in-flight fences.
 *
 * Every Vulkan call is an effect on the set of live objects (`live`), the
 * fence states and a log of frame events; what the driver reports is an
 * input. Destroying an object while objects created from it are alive is
 * refused, so every order of teardown the model accepts is children-first.
 */
module Renderer {
  import opened Common
  import opened Vk
  import opened Swapchain
  import opened DeviceSelection
  import opened ResourceQueries
  import opened Lifecycle

  /** What the driver and the window system report during `init`. */
  datatype Driver = Driver(
    extensionCountQueryOk: bool,               // the first SDL_Vulkan_GetInstanceExtensions call succeeds
    extensionNamesQueryOk: bool,               // the second one succeeds
    windowExtensions: seq<string>,             // the names the second call fills in
    pointerSize: nat,                          // sizeof(const char *) of the build
    instanceLayers: seq<string>,               // vkEnumerateInstanceLayerProperties
    devices: seq<PhysicalDevice>,              // vkEnumeratePhysicalDevices and the per-device queries
    memoryTypes: seq<MemoryType>,              // vkGetPhysicalDeviceMemoryProperties
    memoryTypeBits: Handle -> Flags,           // VkMemoryRequirements::memoryTypeBits of a buffer or image
    formatProperties: Format -> FormatProperties)

  predicate WellFormedDriver(driver: Driver)
  {
    |driver.memoryTypes| <= MAX_MEMORY_TYPES
  }

  /** What the surface reports each time the swapchain is (re)created. */
  datatype SurfaceState = SurfaceState(
    details: SwapChainSupportDetails,          // querySwapChainSupport, re-run by createSwapChain
    drawableWidth: int,                        // SDL_Vulkan_GetDrawableSize
    drawableHeight: int,
    imageCount: nat)                           // vkGetSwapchainImagesKHR

  /** A fence as the host sees it: signalled, reset, or reset and handed to a
      submission that the GPU has not finished yet. */
  datatype FenceState = Signaled | Unsignaled | Pending

  /** What `vkDeviceWaitIdle` leaves behind: every submission has finished. */
  function AfterIdle(fences: seq<FenceState>): (idle: seq<FenceState>)
    ensures |idle| == |fences|
    ensures forall f :: 0 <= f < |fences| ==> idle[f] != Pending
    ensures forall f :: 0 <= f < |fences| ==> (fences[f] == Unsignaled <==> idle[f] == Unsignaled)
  {
    seq(|fences|, f requires 0 <= f < |fences| => if fences[f] == Pending then Signaled else fences[f])
  }

  /** The frame-level calls, in the order the renderer makes them. */
  datatype FrameEvent =
    | WaitForFence(frame: nat)
    | AcquireImage(frame: nat)
    | SwapchainRecreated
    | UpdateUniform(image: nat)
    | ResetFence(frame: nat)
    | Submit(image: nat, frame: nat)
    | Present(image: nat)

  /** How `recreateIfFailed` treats a `VkResult`. */
  datatype ResultAction = Recreate | Proceed | Report

  function Classify(result: Vk.Result): (action: ResultAction)
    ensures action == Recreate <==> result == ERROR_OUT_OF_DATE_KHR
    ensures action == Proceed <==> result == SUCCESS || result == SUBOPTIMAL_KHR
    ensures action == Report <==> result !in {ERROR_OUT_OF_DATE_KHR, SUCCESS, SUBOPTIMAL_KHR}
  {
    if result == ERROR_OUT_OF_DATE_KHR then Recreate
    else if result != SUCCESS && result != SUBOPTIMAL_KHR then Report
    else Proceed
  }

  /** `endFrame`'s step of `current_frame`. */
  function NextFrame(frame: nat): nat
  {
    (frame + 1) % MAX_FRAMES_IN_FLIGHT
  }

  lemma NextFrameCycles(frame: nat)
    requires frame < MAX_FRAMES_IN_FLIGHT
    ensures NextFrame(frame) < MAX_FRAMES_IN_FLIGHT
    ensures NextFrame(frame) != frame
    ensures NextFrame(NextFrame(frame)) == frame
  {
  }

  /** The events of one swapchain call that `recreateIfFailed` then classifies as `action`. */
  function SwapchainEvents(event: FrameEvent, action: ResultAction): seq<FrameEvent>
  {
    [event] + if action == Recreate then [SwapchainRecreated] else []
  }

  /** The events between acquiring an image and presenting it. */
  function DrawEvents(image: nat, frame: nat, submitted: bool): seq<FrameEvent>
  {
    [UpdateUniform(image), ResetFence(frame)] + if submitted then [Submit(image, frame)] else []
  }

  /** The frame events of one `renderFrame` call, given how acquire, submit and
      present turn out. There is no early return: after an out-of-date acquire
      the swapchain is rebuilt and the frame still updates, submits and presents. */
  function RenderFrameEvents(frame: nat, image: nat, acquireAction: ResultAction, submitted: bool,
                             presentAction: ResultAction): seq<FrameEvent>
  {
    SwapchainEvents(AcquireImage(frame), acquireAction) + DrawEvents(image, frame, submitted)
    + SwapchainEvents(Present(image), presentAction)
  }

  /** The order `renderFrame` promises: the uniform update, then the fence
      reset, then the submission right after it when there is one, then the
      presentation; after that at most a swapchain recreation. */
  ghost predicate OrderedFrame(events: seq<FrameEvent>, frame: nat, image: nat, submitted: bool)
  {
    exists u, r, p :: 0 <= u < r < p < |events|
      && events[u] == UpdateUniform(image) && events[r] == ResetFence(frame) && events[p] == Present(image)
      && (submitted ==> r + 1 < p && events[r + 1] == Submit(image, frame))
      && events[p + 1..] <= [SwapchainRecreated]
  }

  lemma RenderFrameOrder(frame: nat, image: nat, acquireAction: ResultAction, submitted: bool, presentAction: ResultAction)
    ensures OrderedFrame(RenderFrameEvents(frame, image, acquireAction, submitted, presentAction), frame, image, submitted)
  {
    var events := RenderFrameEvents(frame, image, acquireAction, submitted, presentAction);
    var a := if acquireAction == Recreate then 1 else 0;
    var s := if submitted then 1 else 0;
    assert events[a + 1] == UpdateUniform(image);
    assert events[a + 2] == ResetFence(frame);
    assert events[a + 3 + s] == Present(image);
    assert events[a + 4 + s..] == if presentAction == Recreate then [SwapchainRecreated] else [];
    var u, r, p := a + 1, a + 2, a + 3 + s;
    assert 0 <= u < r < p < |events|
      && events[u] == UpdateUniform(image) && events[r] == ResetFence(frame) && events[p] == Present(image)
      && (submitted ==> r + 1 < p && events[r + 1] == Submit(image, frame))
      && events[p + 1..] <= [SwapchainRecreated];
  }

  const HOST_COHERENT: Flags := MEMORY_PROPERTY_HOST_VISIBLE_BIT | MEMORY_PROPERTY_HOST_COHERENT_BIT

  /** Every one of the first `n` uniform buffers finds a host-visible, coherent memory type. */
  predicate UniformAllocationsSucceed(n: nat, driver: Driver)
    requires WellFormedDriver(driver)
  {
    forall k :: 0 <= k < n ==> MemoryTypeErrors(driver.memoryTypeBits(UniformBuffer(k)), HOST_COHERENT, driver.memoryTypes) == []
  }

  /** The errors `createInstance` reports: the failed extension queries,
      then the missing validation layers. */
  function InstanceErrors(driver: Driver): seq<RendererError>
  {
    ExtensionQueryErrors(driver.extensionCountQueryOk, driver.extensionNamesQueryOk)
    + MissingLayerErrors(WantedLayers, driver.instanceLayers)
  }

  /** The errors `createUniformBuffer` reports for the first `n` buffers: one
      memory-type error per buffer whose allocation finds no memory type. */
  function UniformErrors(n: nat, driver: Driver): seq<RendererError>
    requires WellFormedDriver(driver)
  {
    if n == 0 then []
    else UniformErrors(n - 1, driver)
         + MemoryTypeErrors(driver.memoryTypeBits(UniformBuffer(n - 1)), HOST_COHERENT, driver.memoryTypes)
  }

  /** The uniform buffers report nothing exactly when every allocation finds
      a memory type, and what they report is memory-type errors only. */
  lemma {:induction false} UniformErrorsEmpty(n: nat, driver: Driver)
    requires WellFormedDriver(driver)
    ensures UniformErrors(n, driver) == [] <==> UniformAllocationsSucceed(n, driver)
    ensures forall k :: 0 <= k < |UniformErrors(n, driver)| ==> UniformErrors(n, driver)[k] == NoMemoryType
  {
    if n > 0 {
      UniformErrorsEmpty(n - 1, driver);
    }
  }

  /** The errors an upload through the staging buffer into `resource`
      reports: the staging buffer's memory type, then the resource's. */
  function StagedErrors(resource: Handle, driver: Driver): seq<RendererError>
    requires WellFormedDriver(driver)
  {
    MemoryTypeErrors(driver.memoryTypeBits(StagingBuffer), HOST_COHERENT, driver.memoryTypes)
    + MemoryTypeErrors(driver.memoryTypeBits(resource), MEMORY_PROPERTY_DEVICE_LOCAL_BIT, driver.memoryTypes)
  }

  /** The errors of `createTextureImage`, `createVertexBuffer` and
      `createIndexBuffer`, in that order. */
  function ResourceErrors(driver: Driver): seq<RendererError>
    requires WellFormedDriver(driver)
  {
    StagedErrors(TextureImage, driver) + (StagedErrors(VertexBuffer, driver) + StagedErrors(IndexBuffer, driver))
  }

  /** The errors of `createDepthResources`: its format search, then the
      depth image's memory type. */
  function DepthResourceErrors(driver: Driver): seq<RendererError>
    requires WellFormedDriver(driver)
  {
    DepthFormatErrors(driver.formatProperties)
    + MemoryTypeErrors(driver.memoryTypeBits(DepthImage), MEMORY_PROPERTY_DEVICE_LOCAL_BIT, driver.memoryTypes)
  }

  /** The errors of `init`'s calls after `createRenderPass`, in call order:
      the depth resources, the texture and mesh buffers, and the `n` uniform
      buffers. */
  function AfterPresentationErrors(driver: Driver, n: nat): seq<RendererError>
    requires WellFormedDriver(driver)
  {
    DepthResourceErrors(driver) + (ResourceErrors(driver) + UniformErrors(n, driver))
  }

  /** The errors `init` reports once a device is picked: the depth format
      search of `createRenderPass`, then those of the later calls. */
  function DeviceInitErrors(driver: Driver, n: nat): seq<RendererError>
    requires WellFormedDriver(driver)
  {
    DepthFormatErrors(driver.formatProperties) + AfterPresentationErrors(driver, n)
  }

  /** `errors` extends `before` by memory-type errors only. */
  predicate OnlyMemoryErrorsAdded(before: seq<RendererError>, errors: seq<RendererError>)
  {
    before <= errors && forall k :: |before| <= k < |errors| ==> errors[k] == NoMemoryType
  }

  /** The error a `findDepthFormat` call reports. */
  function DepthFormatErrors(query: Format -> FormatProperties): seq<RendererError>
  {
    if FirstSupported(DepthCandidates, IMAGE_TILING_OPTIMAL, FORMAT_FEATURE_DEPTH_STENCIL_ATTACHMENT_BIT, query).None?
    then [NoSupportedFormat] else []
  }

  /** The errors one `recreateSwapChain` reports: the depth format search of
      `createRenderPass`, that of `createDepthResources`, and the depth image's
      memory type. */
  function RecreateErrors(driver: Driver): seq<RendererError>
    requires WellFormedDriver(driver)
  {
    DepthFormatErrors(driver.formatProperties) + DepthResourceErrors(driver)
  }

  /** The errors `recreateIfFailed` reports for a result it classified as `action`. */
  function ResultErrors(action: ResultAction, failure: RendererError, driver: Driver): seq<RendererError>
    requires WellFormedDriver(driver)
  {
    match action
    case Recreate => RecreateErrors(driver)
    case Report => [failure]
    case Proceed => []
  }

  /** The errors of one `renderFrame`: those of the acquire, of the submission and of the present. */
  function FrameErrors(acquire: ResultAction, submitted: bool, present: ResultAction, driver: Driver): seq<RendererError>
    requires WellFormedDriver(driver)
  {
    ResultErrors(acquire, AcquireFailed, driver) + (if submitted then [] else [SubmitFailed])
    + ResultErrors(present, PresentFailed, driver)
  }

  /** A frame reports each of its three failures exactly when it happens, and
      a frame whose calls all succeed reports nothing. */
  lemma FrameErrorsReported(acquire: ResultAction, submitted: bool, present: ResultAction, driver: Driver)
    requires WellFormedDriver(driver)
    ensures AcquireFailed in FrameErrors(acquire, submitted, present, driver) <==> acquire == Report
    ensures SubmitFailed in FrameErrors(acquire, submitted, present, driver) <==> !submitted
    ensures PresentFailed in FrameErrors(acquire, submitted, present, driver) <==> present == Report
    ensures acquire == Proceed && submitted && present == Proceed ==> FrameErrors(acquire, submitted, present, driver) == []
  {
  }

  function SignaledFences(n: nat): (fences: seq<FenceState>)
    ensures |fences| == n
  {
    if n == 0 then [] else SignaledFences(n - 1) + [Signaled]
  }

  class VulkanRenderer {
    var live: set<Handle>
    var errors: seq<RendererError>

    var instanceExtensions: seq<string>
    /** The size in bytes of the array `createInstance` passes the extensions in. */
    var extensionArrayBytes: nat
    var physicalDevice: Option<nat>
    var swapChainDetails: SwapChainSupportDetails
    var graphicsQueueIndex: int
    var presentQueueIndex: int
    var deviceQueueFamilies: seq<u32>
    var swapchainInfo: SwapchainCreateInfo
    var renderPassDepthFormat: Format
    var depthFormat: Format
    var swapImageCount: nat
    /** The length of the `uniform_buffers`, `uniform_buffers_memory` and
        `descriptor_sets` arrays, fixed by `init`. */
    var uniformBufferCount: nat

    var currentFrame: nat
    var fences: seq<FenceState>
    var frameLog: seq<FrameEvent>

    /** The objects between a successful `init` and `cleanup`: exactly the
        steady state, with no more swapchain images than uniform buffers. */
    ghost predicate SteadyObjects()
      reads this`live, this`swapImageCount, this`uniformBufferCount, this`physicalDevice
    {
      && (forall h :: h in live <==> InSteadyState(h, swapImageCount, uniformBufferCount))
      && swapImageCount <= uniformBufferCount
      && physicalDevice.Some?
    }

    /** The state between a successful `init` and `cleanup`. */
    ghost predicate Valid()
      reads this`live, this`swapImageCount, this`uniformBufferCount, this`fences,
            this`currentFrame, this`physicalDevice
    {
      SteadyObjects() && |fences| == MAX_FRAMES_IN_FLIGHT && currentFrame < MAX_FRAMES_IN_FLIGHT
    }

    constructor()
      ensures live == {} && errors == [] && frameLog == []
      ensures physicalDevice == None && fences == [] && currentFrame == 0
    {
      live := {};
      errors := [];
      instanceExtensions := [];
      extensionArrayBytes := 0;
      physicalDevice := None;
      var noCapabilities := SurfaceCapabilities(0, 0, Extent2D(0, 0), 0);
      swapChainDetails := SwapChainSupportDetails(noCapabilities, [], []);
      graphicsQueueIndex := -1;
      presentQueueIndex := -1;
      deviceQueueFamilies := [];
      swapchainInfo := SwapchainCreateInfo(0, PreferredFormat, Extent2D(0, 0), Exclusive, 0, PRESENT_MODE_FIFO);
      renderPassDepthFormat := FORMAT_UNDEFINED;
      depthFormat := FORMAT_UNDEFINED;
      swapImageCount := 0;
      uniformBufferCount := 0;
      currentFrame := 0;
      fences := [];
      frameLog := [];
    }

    // -------------------------------------------------------------------
    // Primitive effects
    // -------------------------------------------------------------------

    /** A `vkCreate*`/`vkAllocate*` call: the object's parent must be alive. */
    method Create(h: Handle)
      requires h !in live
      requires Parent(h).OwnedBy? ==> Parent(h).handle in live
      modifies this`live
      ensures live == old(live) + {h}
    {
      live := live + {h};
    }

    /** A `vkDestroy*`/`vkFree*` call: no object may still depend on `h`, and a
        fence must not belong to an unfinished submission. */
    method Destroy(h: Handle)
      requires h in live
      requires IsOwner(h) ==> NoChildrenIn(live, h)
      requires h.InFlightFence? && h.frame < |fences| ==> fences[h.frame] != Pending
      modifies this`live
      ensures live == old(live) - {h}
    {
      live := live - {h};
    }

    /** `vkDestroyDescriptorPool`: the sets allocated from the pool go with it. */
    method DestroyDescriptorPool()
      requires DescriptorPool in live
      modifies this`live
      ensures forall h :: h in live <==> h in old(live) && h != DescriptorPool && Parent(h) != OwnedBy(DescriptorPool)
    {
      live := set h | h in live && h != DescriptorPool && Parent(h) != OwnedBy(DescriptorPool);
    }

    /** `vkDeviceWaitIdle`. */
    method DeviceWaitIdle()
      modifies this`fences
      ensures fences == AfterIdle(old(fences))
    {
      fences := AfterIdle(fences);
    }

    // -------------------------------------------------------------------
    // Helpers shared by several create functions
    // -------------------------------------------------------------------

    /** `beginSingleTimeCommands` ... `endSingleTimeCommands`: a one-off command
        buffer from the command pool, submitted, waited for and freed. */
    method SingleTimeCommands()
      requires CommandPool in live && SingleTimeCommandBuffer !in live
      modifies this`live
      ensures live == old(live)
    {
      Create(SingleTimeCommandBuffer);
      Destroy(SingleTimeCommandBuffer);
    }

    /** `transitionImageLayout`: records the barrier in a single-time command
        buffer and reports a pair of layouts it has no entry for. */
    method TransitionImageLayout(format: Format, oldLayout: ImageLayout, newLayout: ImageLayout)
      requires CommandPool in live && SingleTimeCommandBuffer !in live
      modifies this`live, this`errors
      ensures live == old(live)
      ensures errors == old(errors) + TransitionErrors(format, oldLayout, newLayout)
    {
      Create(SingleTimeCommandBuffer);
      var barrier := TransitionBarrier(format, oldLayout, newLayout);
      if barrier.Unsupported? {
        errors := errors + [UnsupportedLayoutTransition];
      }
      Destroy(SingleTimeCommandBuffer);
    }

    /** The memory allocation of `createBuffer`/`createImage`: `findMemoryType`
        on the resource's requirements, then `vkAllocateMemory`. */
    method AllocateMemory(resource: Handle, memory: Handle, properties: Flags, driver: Driver)
      requires WellFormedDriver(driver)
      requires memory !in live && Parent(memory) == OwnedBy(Device) && Device in live
      modifies this`live, this`errors
      ensures live == old(live) + {memory}
      ensures errors == old(errors) + MemoryTypeErrors(driver.memoryTypeBits(resource), properties, driver.memoryTypes)
    {
      var _, e := FindMemoryType(driver.memoryTypeBits(resource), properties, driver.memoryTypes);
      errors := errors + e;
      Create(memory);
    }

    /** `createBuffer` and `createImage`: the object, then its memory. */
    method CreateWithMemory(resource: Handle, memory: Handle, properties: Flags, driver: Driver)
      requires WellFormedDriver(driver)
      requires resource !in live && memory !in live && resource != memory
      requires Parent(resource) == OwnedBy(Device) && Parent(memory) == OwnedBy(Device) && Device in live
      modifies this`live, this`errors
      ensures live == old(live) + {resource, memory}
      ensures errors == old(errors) + MemoryTypeErrors(driver.memoryTypeBits(resource), properties, driver.memoryTypes)
    {
      Create(resource);
      AllocateMemory(resource, memory, properties, driver);
    }

    // -------------------------------------------------------------------
    // init, one method per create function
    // -------------------------------------------------------------------

    /** `createInstance`: the extension queries, the extension array (of the
        intended size, see `ExtensionArrayOverrunAsWritten`), the layer
        check, the instance. */
    method CreateInstance(driver: Driver)
      requires live == {}
      modifies this`live, this`errors, this`instanceExtensions, this`extensionArrayBytes
      ensures live == {Instance}
      ensures errors == old(errors) + InstanceErrors(driver)
      ensures instanceExtensions == InstanceExtensions(driver.windowExtensions)
      ensures extensionArrayBytes == driver.pointerSize * |instanceExtensions|
    {
      errors := errors + ExtensionQueryErrors(driver.extensionCountQueryOk, driver.extensionNamesQueryOk);
      extensionArrayBytes := ExtensionArrayBytes(driver.pointerSize, |driver.windowExtensions|);
      ExtensionArrayFits(driver.pointerSize, driver.windowExtensions);
      var layerErrors := CheckLayers(WantedLayers, driver.instanceLayers);
      errors := errors + layerErrors;
      instanceExtensions := InstanceExtensions(driver.windowExtensions);
      Create(Instance);
    }

    /** `pickPhysicalDevice`. */
    method PickDevice(driver: Driver)
      modifies this`physicalDevice, this`swapChainDetails, this`errors
      ensures physicalDevice.None? <==> forall j :: 0 <= j < |driver.devices| ==> !Suitable(driver.devices[j])
      ensures physicalDevice.Some? ==>
                && physicalDevice.value < |driver.devices|
                && Suitable(driver.devices[physicalDevice.value])
                && (forall j :: 0 <= j < physicalDevice.value ==> !Suitable(driver.devices[j]))
                && swapChainDetails == driver.devices[physicalDevice.value].support
      ensures physicalDevice.None? ==> swapChainDetails == old(swapChainDetails)
      ensures errors == old(errors) + (if |driver.devices| == 0 then [NoVulkanDevice] else [])
                                    + (if physicalDevice.None? then [NoSuitableDevice] else [])
    {
      var choice := PickPhysicalDevice(driver.devices, swapChainDetails);
      physicalDevice := choice.chosen;
      swapChainDetails := choice.details;
      errors := errors + choice.errors;
    }

    /** `pickQueues` and `createDevice`. */
    method CreateLogicalDevice(driver: Driver)
      requires physicalDevice.Some? && physicalDevice.value < |driver.devices|
      requires Instance in live && Device !in live
      modifies this`live, this`graphicsQueueIndex, this`presentQueueIndex, this`deviceQueueFamilies
      ensures live == old(live) + {Device}
      ensures IsFirst(driver.devices[physicalDevice.value].queueFamilies, GraphicsCapable, graphicsQueueIndex)
      ensures IsFirst(driver.devices[physicalDevice.value].queueFamilies, PresentCapable, presentQueueIndex)
      ensures deviceQueueFamilies == if ToU32(graphicsQueueIndex) == ToU32(presentQueueIndex)
                                     then [ToU32(graphicsQueueIndex)]
                                     else [ToU32(graphicsQueueIndex), ToU32(presentQueueIndex)]
    {
      graphicsQueueIndex, presentQueueIndex := PickQueues(driver.devices[physicalDevice.value].queueFamilies);
      deviceQueueFamilies := DeviceQueueFamilies(graphicsQueueIndex, presentQueueIndex);
      Create(Device);
    }

    /** `createSwapChain`: re-queries the surface and negotiates the parameters. */
    method CreateSwapChain(surface: SurfaceState)
      requires |surface.details.formats| > 0
      requires Device in live && Swapchain !in live
      modifies this`live, this`swapChainDetails, this`swapchainInfo
      ensures live == old(live) + {Swapchain}
      ensures swapChainDetails == surface.details
      ensures swapchainInfo.surfaceFormat == SelectedFormat(surface.details.formats)
      ensures swapchainInfo.presentMode == SelectedPresentMode(surface.details.presentModes)
      ensures swapchainInfo.extent == ChooseExtent(surface.details.capabilities, surface.drawableWidth, surface.drawableHeight)
      ensures swapchainInfo.minImageCount == RequestedImageCount(surface.details.capabilities)
      ensures swapchainInfo.sharing == ImageSharing(graphicsQueueIndex, presentQueueIndex)
    {
      swapChainDetails := surface.details;
      swapchainInfo := BuildSwapchainCreateInfo(surface.details, surface.drawableWidth, surface.drawableHeight,
                                                graphicsQueueIndex, presentQueueIndex);
      Create(Swapchain);
    }

    /** `createImageViews`: one view per swapchain image. */
    method CreateImageViews(surface: SurfaceState)
      requires Device in live
      requires forall i :: SwapImageView(i) !in live
      modifies this`live, this`swapImageCount
      ensures forall h :: h in live <==> h in old(live) || (h.SwapImageView? && h.image < surface.imageCount)
      ensures swapImageCount == surface.imageCount
    {
      swapImageCount := surface.imageCount;
      var i := 0;
      while i < swapImageCount
        invariant 0 <= i <= swapImageCount
        invariant swapImageCount == surface.imageCount
        invariant forall h :: h in live <==> h in old(live) || (h.SwapImageView? && h.image < i)
      {
        Create(SwapImageView(i));
        i := i + 1;
      }
    }

    /** `createRenderPass`: the depth attachment's format comes from `findDepthFormat`. */
    method CreateRenderPass(driver: Driver)
      requires Device in live && RenderPass !in live
      modifies this`live, this`errors, this`renderPassDepthFormat
      ensures live == old(live) + {RenderPass}
      ensures FirstSupported(DepthCandidates, IMAGE_TILING_OPTIMAL, FORMAT_FEATURE_DEPTH_STENCIL_ATTACHMENT_BIT, driver.formatProperties).None?
              ==> renderPassDepthFormat == FORMAT_UNDEFINED && errors == old(errors) + [NoSupportedFormat]
      ensures FirstSupported(DepthCandidates, IMAGE_TILING_OPTIMAL, FORMAT_FEATURE_DEPTH_STENCIL_ATTACHMENT_BIT, driver.formatProperties).Some?
              ==> renderPassDepthFormat in DepthCandidates
      ensures renderPassDepthFormat == ChosenDepthFormat(driver.formatProperties)
      ensures errors == old(errors) + DepthFormatErrors(driver.formatProperties)
    {
      var e;
      renderPassDepthFormat, e := FindDepthFormat(driver.formatProperties);
      errors := errors + e;
      Create(RenderPass);
    }

    /** `createGraphicsPipeline`: the shader modules live only while the pipeline is built. */
    method CreateGraphicsPipeline()
      requires Device in live
      requires VertexShaderModule !in live && FragmentShaderModule !in live
      requires PipelineLayout !in live && Pipeline !in live
      modifies this`live
      ensures live == old(live) + {PipelineLayout, Pipeline}
    {
      Create(VertexShaderModule);
      Create(FragmentShaderModule);
      Create(PipelineLayout);
      Create(Pipeline);
      Destroy(VertexShaderModule);
      Destroy(FragmentShaderModule);
    }

    /** `createDepthResources`: depth image, memory and view, then the transition
        from `UNDEFINED` to the depth/stencil attachment layout, which is always
        one the barrier table supports. */
    method CreateDepthResources(driver: Driver)
      requires WellFormedDriver(driver)
      requires Device in live && CommandPool in live && SingleTimeCommandBuffer !in live
      requires DepthImage !in live && DepthImageMemory !in live && DepthImageView !in live
      modifies this`live, this`errors, this`depthFormat
      ensures live == old(live) + {DepthImage, DepthImageMemory, DepthImageView}
      ensures errors == old(errors) + DepthResourceErrors(driver)
      ensures depthFormat == ChosenDepthFormat(driver.formatProperties)
    {
      var e;
      depthFormat, e := FindDepthFormat(driver.formatProperties);
      errors := errors + e;
      CreateWithMemory(DepthImage, DepthImageMemory, MEMORY_PROPERTY_DEVICE_LOCAL_BIT, driver);
      Create(DepthImageView);
      TransitionImageLayout(depthFormat, IMAGE_LAYOUT_UNDEFINED, IMAGE_LAYOUT_DEPTH_STENCIL_ATTACHMENT_OPTIMAL);
    }

    /** `createFramebuffers`: one framebuffer per swapchain image. */
    method CreateFramebuffers()
      requires Device in live
      requires forall i :: Framebuffer(i) !in live
      modifies this`live
      ensures forall h :: h in live <==> h in old(live) || (h.Framebuffer? && h.image < swapImageCount)
    {
      var i := 0;
      while i < swapImageCount
        invariant 0 <= i <= swapImageCount
        invariant forall h :: h in live <==> h in old(live) || (h.Framebuffer? && h.image < i)
      {
        Create(Framebuffer(i));
        i := i + 1;
      }
    }

    /** `createTextureImage`: pixels go through a staging buffer into the
        texture image, with the two layout transitions around the copy; both
        transitions are ones the barrier table supports. */
    method CreateTextureImage(driver: Driver)
      requires WellFormedDriver(driver)
      requires Device in live && CommandPool in live && SingleTimeCommandBuffer !in live
      requires StagingBuffer !in live && StagingBufferMemory !in live
      requires TextureImage !in live && TextureImageMemory !in live
      modifies this`live, this`errors
      ensures live == old(live) + {TextureImage, TextureImageMemory}
      ensures errors == old(errors) + StagedErrors(TextureImage, driver)
    {
      CreateWithMemory(StagingBuffer, StagingBufferMemory, HOST_COHERENT, driver);
      CreateWithMemory(TextureImage, TextureImageMemory, MEMORY_PROPERTY_DEVICE_LOCAL_BIT, driver);
      TransitionImageLayout(FORMAT_R8G8B8A8_UNORM, IMAGE_LAYOUT_UNDEFINED, IMAGE_LAYOUT_TRANSFER_DST_OPTIMAL);
      SingleTimeCommands();  // copyBufferToImage
      TransitionImageLayout(FORMAT_R8G8B8A8_UNORM, IMAGE_LAYOUT_TRANSFER_DST_OPTIMAL, IMAGE_LAYOUT_SHADER_READ_ONLY_OPTIMAL);
      Destroy(StagingBuffer);
      Destroy(StagingBufferMemory);
    }

    /** `createVertexBuffer` and `createIndexBuffer`: a host-visible staging
        buffer, the device-local destination, a copy, and the staging buffer
        destroyed again. */
    method UploadThroughStaging(buffer: Handle, memory: Handle, driver: Driver)
      requires WellFormedDriver(driver)
      requires buffer in {VertexBuffer, IndexBuffer} && memory in {VertexBufferMemory, IndexBufferMemory}
      requires Device in live && CommandPool in live && SingleTimeCommandBuffer !in live
      requires StagingBuffer !in live && StagingBufferMemory !in live && buffer !in live && memory !in live
      modifies this`live, this`errors
      ensures live == old(live) + {buffer, memory}
      ensures errors == old(errors) + StagedErrors(buffer, driver)
    {
      CreateWithMemory(StagingBuffer, StagingBufferMemory, HOST_COHERENT, driver);
      CreateWithMemory(buffer, memory, MEMORY_PROPERTY_DEVICE_LOCAL_BIT, driver);
      SingleTimeCommands();  // copyBuffer
      Destroy(StagingBuffer);
      Destroy(StagingBufferMemory);
    }

    /** `createUniformBuffer`: one host-visible uniform buffer per swapchain image. */
    method CreateUniformBuffers(driver: Driver)
      requires WellFormedDriver(driver)
      requires Device in live
      requires forall i :: UniformBuffer(i) !in live && UniformBufferMemory(i) !in live
      modifies this`live, this`errors, this`uniformBufferCount
      ensures forall h :: h in live <==> h in old(live) || ((h.UniformBuffer? || h.UniformBufferMemory?) && h.image < swapImageCount)
      ensures uniformBufferCount == swapImageCount
      ensures OnlyMemoryErrorsAdded(old(errors), errors)
      ensures UniformAllocationsSucceed(swapImageCount, driver) ==> errors == old(errors)
      ensures !UniformAllocationsSucceed(swapImageCount, driver) ==> |errors| > |old(errors)|
      ensures errors == old(errors) + UniformErrors(swapImageCount, driver)
    {
      uniformBufferCount := swapImageCount;
      var i := 0;
      while i < swapImageCount
        invariant 0 <= i <= swapImageCount
        invariant uniformBufferCount == swapImageCount
        invariant forall h :: h in live <==> h in old(live) || ((h.UniformBuffer? || h.UniformBufferMemory?) && h.image < i)
        invariant errors == old(errors) + UniformErrors(i, driver)
      {
        CreateWithMemory(UniformBuffer(i), UniformBufferMemory(i), HOST_COHERENT, driver);
        i := i + 1;
      }
      UniformErrorsEmpty(swapImageCount, driver);
    }

    /** `createDescriptorSets`: one set per swapchain image from the descriptor pool. */
    method CreateDescriptorSets()
      requires DescriptorPool in live
      requires forall i :: DescriptorSet(i) !in live
      modifies this`live
      ensures forall h :: h in live <==> h in old(live) || (h.DescriptorSet? && h.image < swapImageCount)
    {
      var i := 0;
      while i < swapImageCount
        invariant 0 <= i <= swapImageCount
        invariant forall h :: h in live <==> h in old(live) || (h.DescriptorSet? && h.image < i)
      {
        Create(DescriptorSet(i));
        i := i + 1;
      }
    }

    /** `createAndRecordCommandBuffers`: command buffer `i` draws with framebuffer
        `i` and binds descriptor set `i`, so every one of them must exist. */
    method CreateAndRecordCommandBuffers()
      requires CommandPool in live
      requires forall i :: 0 <= i < swapImageCount ==> Framebuffer(i) in live && DescriptorSet(i) in live
      requires forall i :: CommandBuffer(i) !in live
      modifies this`live
      ensures forall h :: h in live <==> h in old(live) || (h.CommandBuffer? && h.image < swapImageCount)
    {
      var i := 0;
      while i < swapImageCount
        invariant 0 <= i <= swapImageCount
        invariant forall h :: h in live <==> h in old(live) || (h.CommandBuffer? && h.image < i)
      {
        Create(CommandBuffer(i));
        i := i + 1;
      }
    }

    /** One iteration of `createSyncObjects`: the frame's two semaphores and
        its fence, created signalled. */
    method CreateFrameSyncObjects(f: nat)
      requires Device in live
      requires ImageAvailableSemaphore(f) !in live && RenderFinishedSemaphore(f) !in live && InFlightFence(f) !in live
      modifies this`live, this`fences
      ensures live == old(live) + {ImageAvailableSemaphore(f), RenderFinishedSemaphore(f), InFlightFence(f)}
      ensures fences == old(fences) + [Signaled]
    {
      Create(ImageAvailableSemaphore(f));
      Create(RenderFinishedSemaphore(f));
      Create(InFlightFence(f));
      fences := fences + [Signaled];
    }

    /** `createSyncObjects`: the sync objects of every frame in flight, with
        every fence signalled so that the first wait on it returns. */
    method CreateSyncObjects()
      requires Device in live && fences == []
      requires forall f :: ImageAvailableSemaphore(f) !in live && RenderFinishedSemaphore(f) !in live && InFlightFence(f) !in live
      modifies this`live, this`fences
      ensures forall h :: h in live <==> h in old(live) || SyncObject(h, MAX_FRAMES_IN_FLIGHT)
      ensures fences == [Signaled, Signaled]
    {
      var f := 0;
      while f < MAX_FRAMES_IN_FLIGHT
        invariant 0 <= f <= MAX_FRAMES_IN_FLIGHT
        invariant fences == SignaledFences(f)
        invariant Device in live
        invariant forall h :: h in live <==> h in old(live) || SyncObject(h, f)
      {
        CreateFrameSyncObjects(f);
        f := f + 1;
      }
    }

    // -------------------------------------------------------------------
    // init
    // -------------------------------------------------------------------

    /** `init`: the 25 calls in their source order, in phases; after the
        first `k` calls exactly the objects with `InitDone(h, n, k)` are live.
        When no suitable device is found the model stops after reporting it,
        with the instance, messenger and surface alive. */
    method Init(driver: Driver, surface: SurfaceState)
      requires WellFormedDriver(driver)
      requires |surface.details.formats| > 0
      requires live == {} && fences == [] && currentFrame == 0
      modifies this`live, this`errors, this`instanceExtensions, this`extensionArrayBytes, this`physicalDevice,
               this`swapChainDetails, this`graphicsQueueIndex, this`presentQueueIndex, this`deviceQueueFamilies,
               this`swapchainInfo, this`renderPassDepthFormat, this`depthFormat, this`swapImageCount,
               this`uniformBufferCount, this`fences
      ensures errors == old(errors) + InstanceErrors(driver)
                        + (if |driver.devices| == 0 then [NoVulkanDevice] else [])
                        + (if physicalDevice.None? then [NoSuitableDevice] else DeviceInitErrors(driver, surface.imageCount))
      ensures instanceExtensions == InstanceExtensions(driver.windowExtensions)
      ensures extensionArrayBytes == driver.pointerSize * |instanceExtensions|
      ensures physicalDevice.None? <==> forall j :: 0 <= j < |driver.devices| ==> !Suitable(driver.devices[j])
      ensures physicalDevice.None? ==> live == {Instance, DebugMessenger, Surface} && NoSuitableDevice in errors
      ensures physicalDevice.Some? ==>
                && Valid()
                && physicalDevice.value < |driver.devices| && Suitable(driver.devices[physicalDevice.value])
                && swapImageCount == surface.imageCount && uniformBufferCount == surface.imageCount
                && fences == [Signaled, Signaled]
                && renderPassDepthFormat == depthFormat == ChosenDepthFormat(driver.formatProperties)
    {
      InitInstance(driver);
      if physicalDevice.None? {
        return;
      }
      InitOnDevice(driver, surface);
    }

    /** `createInstance`, `setupDebugUtils`, `createSurface` and `pickPhysicalDevice`. */
    method InitInstance(driver: Driver)
      requires live == {}
      modifies this`live, this`errors, this`instanceExtensions, this`extensionArrayBytes, this`physicalDevice,
               this`swapChainDetails
      ensures live == {Instance, DebugMessenger, Surface}
      ensures instanceExtensions == InstanceExtensions(driver.windowExtensions)
      ensures extensionArrayBytes == driver.pointerSize * |instanceExtensions|
      ensures physicalDevice.None? <==> forall j :: 0 <= j < |driver.devices| ==> !Suitable(driver.devices[j])
      ensures physicalDevice.Some? ==> physicalDevice.value < |driver.devices| && Suitable(driver.devices[physicalDevice.value])
      ensures errors == old(errors) + InstanceErrors(driver)
                        + (if |driver.devices| == 0 then [NoVulkanDevice] else [])
                        + (if physicalDevice.None? then [NoSuitableDevice] else [])
    {
      CreateInstance(driver);
      Create(DebugMessenger);
      Create(Surface);
      PickDevice(driver);
    }

    /** Calls 5 to 24 of `init`, once a device has been picked. */
    method InitOnDevice(driver: Driver, surface: SurfaceState)
      requires WellFormedDriver(driver) && |surface.details.formats| > 0
      requires physicalDevice.Some? && physicalDevice.value < |driver.devices|
      requires live == {Instance, DebugMessenger, Surface} && fences == []
      modifies this`live, this`errors, this`graphicsQueueIndex, this`presentQueueIndex, this`deviceQueueFamilies,
               this`swapChainDetails, this`swapchainInfo, this`renderPassDepthFormat, this`depthFormat,
               this`swapImageCount, this`uniformBufferCount, this`fences
      ensures errors == old(errors) + DeviceInitErrors(driver, surface.imageCount)
      ensures renderPassDepthFormat == depthFormat == ChosenDepthFormat(driver.formatProperties)
      ensures forall h :: h in live <==> InSteadyState(h, swapImageCount, uniformBufferCount)
      ensures swapImageCount == surface.imageCount && uniformBufferCount == surface.imageCount
      ensures fences == [Signaled, Signaled]
    {
      assert errors + DepthFormatErrors(driver.formatProperties) + AfterPresentationErrors(driver, surface.imageCount)
             == errors + DeviceInitErrors(driver, surface.imageCount);
      CreateLogicalDevice(driver);  // pickQueues, createDevice, createQueues
      BuildPresentationObjects(surface, driver);
      InitPresentationDone(live, swapImageCount);
      InitAfterPresentation(driver);
    }

    /** `createSwapChain`, `createImageViews` and `createRenderPass`, the
        first calls of both the swapchain part of `init` and `recreateSwapChain`. */
    method BuildPresentationObjects(surface: SurfaceState, driver: Driver)
      requires |surface.details.formats| > 0
      requires Device in live && forall h :: h in live ==> !h.Swapchain? && !h.SwapImageView? && !h.RenderPass?
      modifies this`live, this`errors, this`swapChainDetails, this`swapchainInfo, this`swapImageCount,
               this`renderPassDepthFormat
      ensures forall h :: h in live <==> h in old(live) || PresentationObject(h, surface.imageCount)
      ensures swapImageCount == surface.imageCount
      ensures errors == old(errors) + DepthFormatErrors(driver.formatProperties)
      ensures renderPassDepthFormat == ChosenDepthFormat(driver.formatProperties)
      ensures swapChainDetails == surface.details
      ensures swapchainInfo.surfaceFormat == SelectedFormat(surface.details.formats)
      ensures swapchainInfo.presentMode == SelectedPresentMode(surface.details.presentModes)
      ensures swapchainInfo.extent == ChooseExtent(surface.details.capabilities, surface.drawableWidth, surface.drawableHeight)
    {
      CreateSwapChain(surface);
      CreateImageViews(surface);
      CreateRenderPass(driver);
    }

    /** Calls 10 to 24 of `init`, which end in the steady state. */
    method InitAfterPresentation(driver: Driver)
      requires WellFormedDriver(driver)
      requires forall h :: h in live <==> InitDone(h, swapImageCount, 10)
      requires fences == []
      modifies this`live, this`errors, this`depthFormat, this`uniformBufferCount, this`fences
      ensures forall h :: h in live <==> InSteadyState(h, swapImageCount, uniformBufferCount)
      ensures uniformBufferCount == swapImageCount && fences == [Signaled, Signaled]
      ensures errors == old(errors) + AfterPresentationErrors(driver, swapImageCount)
      ensures depthFormat == ChosenDepthFormat(driver.formatProperties)
    {
      assert errors + DepthResourceErrors(driver) + ResourceErrors(driver) + UniformErrors(swapImageCount, driver)
             == errors + AfterPresentationErrors(driver, swapImageCount);
      InitPipelineAndTargets(driver);
      InitResources(driver);
      InitDescriptorsAndCommands(driver);
      InitCreatesSteadyState(live, swapImageCount);
    }

    /** Calls 10 to 14 of `init`: `createDescriptorSetLayout`,
        `createGraphicsPipeline`, `createCommandPool`, `createDepthResources`
        and `createFramebuffers`. */
    method InitPipelineAndTargets(driver: Driver)
      requires WellFormedDriver(driver)
      requires forall h :: h in live <==> InitDone(h, swapImageCount, 10)
      modifies this`live, this`errors, this`depthFormat
      ensures forall h :: h in live <==> InitDone(h, swapImageCount, 15)
      ensures errors == old(errors) + DepthResourceErrors(driver)
      ensures depthFormat == ChosenDepthFormat(driver.formatProperties)
    {
      InitPipeline();
      CreateDepthAndFramebuffers(driver);
    }

    /** Calls 10 to 12 of `init`: `createDescriptorSetLayout`,
        `createGraphicsPipeline` and `createCommandPool`. */
    method InitPipeline()
      requires forall h :: h in live <==> InitDone(h, swapImageCount, 10)
      modifies this`live
      ensures forall h :: h in live <==> InitDone(h, swapImageCount, 13)
    {
      Create(DescriptorSetLayout);
      CreateGraphicsPipeline();
      Create(CommandPool);
    }

    /** `createDepthResources` and `createFramebuffers`, called in this order
        by both `init` and `recreateSwapChain`. */
    method CreateDepthAndFramebuffers(driver: Driver)
      requires WellFormedDriver(driver)
      requires Device in live && CommandPool in live && SingleTimeCommandBuffer !in live
      requires DepthImage !in live && DepthImageMemory !in live && DepthImageView !in live
      requires forall i :: Framebuffer(i) !in live
      modifies this`live, this`errors, this`depthFormat
      ensures forall h :: h in live <==> (h in old(live) || h in {DepthImage, DepthImageMemory, DepthImageView}
                                          || (h.Framebuffer? && h.image < swapImageCount))
      ensures errors == old(errors) + DepthResourceErrors(driver)
      ensures depthFormat == ChosenDepthFormat(driver.formatProperties)
    {
      CreateDepthResources(driver);
      CreateFramebuffers();
    }

    /** Calls 15 to 19 of `init`: `createTextureImage`, `createTextureImageView`,
        `createTextureSampler`, `createVertexBuffer` and `createIndexBuffer`. */
    method InitResources(driver: Driver)
      requires WellFormedDriver(driver)
      requires forall h :: h in live <==> InitDone(h, swapImageCount, 15)
      modifies this`live, this`errors
      ensures forall h :: h in live <==> InitDone(h, swapImageCount, 20)
      ensures errors == old(errors) + ResourceErrors(driver)
    {
      InitTexture(driver);
      InitGeometry(driver);
    }

    /** Calls 15 to 17 of `init`: the texture image, its view and its sampler. */
    method InitTexture(driver: Driver)
      requires WellFormedDriver(driver)
      requires forall h :: h in live <==> InitDone(h, swapImageCount, 15)
      modifies this`live, this`errors
      ensures forall h :: h in live <==> InitDone(h, swapImageCount, 18)
      ensures errors == old(errors) + StagedErrors(TextureImage, driver)
    {
      CreateTextureImage(driver);
      Create(TextureImageView);
      Create(TextureSampler);
    }

    /** Calls 18 and 19 of `init`: the vertex and the index buffer. */
    method InitGeometry(driver: Driver)
      requires WellFormedDriver(driver)
      requires forall h :: h in live <==> InitDone(h, swapImageCount, 18)
      modifies this`live, this`errors
      ensures forall h :: h in live <==> InitDone(h, swapImageCount, 20)
      ensures errors == old(errors) + StagedErrors(VertexBuffer, driver) + StagedErrors(IndexBuffer, driver)
    {
      UploadThroughStaging(VertexBuffer, VertexBufferMemory, driver);
      UploadThroughStaging(IndexBuffer, IndexBufferMemory, driver);
    }

    /** Calls 20 to 24 of `init`: `createUniformBuffer`, `createDescriptorPool`,
        `createDescriptorSets`, `createAndRecordCommandBuffers` and `createSyncObjects`. */
    method InitDescriptorsAndCommands(driver: Driver)
      requires WellFormedDriver(driver)
      requires forall h :: h in live <==> InitDone(h, swapImageCount, 20)
      requires fences == []
      modifies this`live, this`errors, this`uniformBufferCount, this`fences
      ensures forall h :: h in live <==> InitDone(h, swapImageCount, 25)
      ensures uniformBufferCount == swapImageCount && fences == [Signaled, Signaled]
      ensures OnlyMemoryErrorsAdded(old(errors), errors)
      ensures UniformAllocationsSucceed(swapImageCount, driver) <==> errors == old(errors)
      ensures errors == old(errors) + UniformErrors(swapImageCount, driver)
    {
      InitDescriptors(driver);
      InitCommandsAndSync();
      UniformErrorsEmpty(swapImageCount, driver);
    }

    /** Calls 20 to 22 of `init`: the uniform buffers, the descriptor pool and
        the descriptor sets. */
    method InitDescriptors(driver: Driver)
      requires WellFormedDriver(driver)
      requires forall h :: h in live <==> InitDone(h, swapImageCount, 20)
      modifies this`live, this`errors, this`uniformBufferCount
      ensures forall h :: h in live <==> InitDone(h, swapImageCount, 23)
      ensures uniformBufferCount == swapImageCount
      ensures errors == old(errors) + UniformErrors(swapImageCount, driver)
    {
      CreateUniformBuffers(driver);
      InitDescriptorPool();
    }

    /** Calls 21 and 22 of `init`: the descriptor pool and its sets. */
    method InitDescriptorPool()
      requires forall h :: h in live <==> InitDone(h, swapImageCount, 21)
      modifies this`live
      ensures forall h :: h in live <==> InitDone(h, swapImageCount, 23)
    {
      Create(DescriptorPool);
      CreateDescriptorSets();
    }

    /** Calls 23 and 24 of `init`: the command buffers and the sync objects. */
    method InitCommandsAndSync()
      requires forall h :: h in live <==> InitDone(h, swapImageCount, 23)
      requires fences == []
      modifies this`live, this`fences
      ensures forall h :: h in live <==> InitDone(h, swapImageCount, 25)
      ensures fences == [Signaled, Signaled]
    {
      CreateAndRecordCommandBuffers();
      CreateSyncObjects();
    }

    // -------------------------------------------------------------------
    // Swapchain recreation
    // -------------------------------------------------------------------

    /** `cleanupSwapChain`: destroys exactly the swapchain group. */
    method CleanupSwapChain()
      requires forall h :: InSwapchainGroup(h, swapImageCount) ==> h in live
      modifies this`live
      ensures forall h :: h in live <==> h in old(live) && !InSwapchainGroup(h, swapImageCount)
    {
      DestroyDepthResources();
      DestroyFramebuffers();
      FreeCommandBuffers();
      DestroyPipelineObjects();
      DestroySwapImageViews();
      Destroy(Swapchain);
    }

    method DestroyDepthResources()
      requires DepthImageView in live && DepthImage in live && DepthImageMemory in live
      modifies this`live
      ensures live == old(live) - {DepthImageView, DepthImage, DepthImageMemory}
    {
      Destroy(DepthImageView);
      Destroy(DepthImage);
      Destroy(DepthImageMemory);
    }

    /** The framebuffer loop of `cleanupSwapChain`. */
    method DestroyFramebuffers()
      requires forall i :: 0 <= i < swapImageCount ==> Framebuffer(i) in live
      modifies this`live
      ensures forall h :: h in live <==> h in old(live) && !(h.Framebuffer? && h.image < swapImageCount)
    {
      var i := 0;
      while i < swapImageCount
        invariant 0 <= i <= swapImageCount
        invariant forall h :: h in live <==> h in old(live) && !(h.Framebuffer? && h.image < i)
      {
        Destroy(Framebuffer(i));
        i := i + 1;
      }
    }

    /** `vkFreeCommandBuffers` on the `swap_image_count` command buffers. */
    method FreeCommandBuffers()
      requires forall i :: 0 <= i < swapImageCount ==> CommandBuffer(i) in live
      modifies this`live
      ensures forall h :: h in live <==> h in old(live) && !(h.CommandBuffer? && h.image < swapImageCount)
    {
      var i := 0;
      while i < swapImageCount
        invariant 0 <= i <= swapImageCount
        invariant forall h :: h in live <==> h in old(live) && !(h.CommandBuffer? && h.image < i)
      {
        Destroy(CommandBuffer(i));
        i := i + 1;
      }
    }

    method DestroyPipelineObjects()
      requires Pipeline in live && PipelineLayout in live && RenderPass in live
      modifies this`live
      ensures live == old(live) - {Pipeline, PipelineLayout, RenderPass}
    {
      Destroy(Pipeline);
      Destroy(PipelineLayout);
      Destroy(RenderPass);
    }

    /** The image view loop of `cleanupSwapChain`. */
    method DestroySwapImageViews()
      requires forall i :: 0 <= i < swapImageCount ==> SwapImageView(i) in live
      modifies this`live
      ensures forall h :: h in live <==> h in old(live) && !(h.SwapImageView? && h.image < swapImageCount)
    {
      var i := 0;
      while i < swapImageCount
        invariant 0 <= i <= swapImageCount
        invariant forall h :: h in live <==> h in old(live) && !(h.SwapImageView? && h.image < i)
      {
        Destroy(SwapImageView(i));
        i := i + 1;
      }
    }

    /** `recreateSwapChain`: waits for the device, destroys the swapchain group
        and builds it again for the surface as it is now; everything else is
        left as it was. */
    method RecreateSwapChain(surface: SurfaceState, driver: Driver)
      requires Valid() && WellFormedDriver(driver)
      requires |surface.details.formats| > 0 && surface.imageCount <= uniformBufferCount
      modifies this`live, this`errors, this`swapChainDetails, this`swapchainInfo,
               this`renderPassDepthFormat, this`depthFormat, this`swapImageCount, this`fences
      ensures Valid()
      ensures swapImageCount == surface.imageCount
      ensures forall h :: h in live <==> (h in old(live) && !InSwapchainGroup(h, old(swapImageCount))) || InSwapchainGroup(h, swapImageCount)
      ensures fences == AfterIdle(old(fences))
      ensures errors == old(errors) + RecreateErrors(driver)
      ensures renderPassDepthFormat == depthFormat == ChosenDepthFormat(driver.formatProperties)
      ensures swapChainDetails == surface.details
      ensures swapchainInfo.surfaceFormat == SelectedFormat(surface.details.formats)
      ensures swapchainInfo.presentMode == SelectedPresentMode(surface.details.presentModes)
      ensures swapchainInfo.extent == ChooseExtent(surface.details.capabilities, surface.drawableWidth, surface.drawableHeight)
    {
      DeviceWaitIdle();
      CleanupSwapChain();
      SwapchainCleanupLeaves(old(live), live, old(swapImageCount), uniformBufferCount);
      RebuildSwapchainGroup(surface, driver);
      RebuildRestoresSteadyState(live, swapImageCount, uniformBufferCount);
    }

    /** The create calls of `recreateSwapChain`, on what `cleanupSwapChain` left. */
    method RebuildSwapchainGroup(surface: SurfaceState, driver: Driver)
      requires WellFormedDriver(driver)
      requires |surface.details.formats| > 0 && surface.imageCount <= uniformBufferCount
      requires forall h :: h in live <==> TeardownLeft(h, uniformBufferCount, 2)
      modifies this`live, this`errors, this`swapChainDetails, this`swapchainInfo,
               this`renderPassDepthFormat, this`depthFormat, this`swapImageCount
      ensures forall h :: h in live <==> TeardownLeft(h, uniformBufferCount, 2) || InSwapchainGroup(h, surface.imageCount)
      ensures swapImageCount == surface.imageCount
      ensures errors == old(errors) + RecreateErrors(driver)
      ensures renderPassDepthFormat == depthFormat == ChosenDepthFormat(driver.formatProperties)
      ensures swapChainDetails == surface.details
      ensures swapchainInfo.surfaceFormat == SelectedFormat(surface.details.formats)
      ensures swapchainInfo.presentMode == SelectedPresentMode(surface.details.presentModes)
      ensures swapchainInfo.extent == ChooseExtent(surface.details.capabilities, surface.drawableWidth, surface.drawableHeight)
    {
      BuildPresentationObjects(surface, driver);
      RebuildTargets(driver);
    }

    /** The rest of `recreateSwapChain`: `createGraphicsPipeline`,
        `createDepthResources`, `createFramebuffers` and
        `createAndRecordCommandBuffers`, with the device, the command pool and
        the descriptor sets still alive from `init`. */
    method RebuildTargets(driver: Driver)
      requires WellFormedDriver(driver) && swapImageCount <= uniformBufferCount
      requires forall h :: h in live <==> TeardownLeft(h, uniformBufferCount, 2) || PresentationObject(h, swapImageCount)
      modifies this`live, this`errors, this`depthFormat
      ensures forall h :: h in live <==> h in old(live) || RenderTarget(h, swapImageCount)
      ensures errors == old(errors) + DepthResourceErrors(driver)
      ensures depthFormat == ChosenDepthFormat(driver.formatProperties)
    {
      CreateGraphicsPipeline();
      CreateDrawTargets(driver);
    }

    /** `createDepthResources`, `createFramebuffers` and
        `createAndRecordCommandBuffers`, the last three calls of `recreateSwapChain`. */
    method CreateDrawTargets(driver: Driver)
      requires WellFormedDriver(driver)
      requires Device in live && CommandPool in live && SingleTimeCommandBuffer !in live
      requires DepthImage !in live && DepthImageMemory !in live && DepthImageView !in live
      requires forall i :: Framebuffer(i) !in live && CommandBuffer(i) !in live
      requires forall i :: 0 <= i < swapImageCount ==> DescriptorSet(i) in live
      modifies this`live, this`errors, this`depthFormat
      ensures forall h :: h in live <==> (h in old(live) || h in {DepthImage, DepthImageMemory, DepthImageView}
                                          || ((h.Framebuffer? || h.CommandBuffer?) && h.image < swapImageCount))
      ensures errors == old(errors) + DepthResourceErrors(driver)
      ensures depthFormat == ChosenDepthFormat(driver.formatProperties)
    {
      CreateDepthAndFramebuffers(driver);
      CreateAndRecordCommandBuffers();
    }

    // -------------------------------------------------------------------
    // cleanup
    // -------------------------------------------------------------------

    /** `cleanup`, with the uniform buffers destroyed up to the number that
        was created (see `CleanupAsWrittenLeaks`): after call `k` exactly the
        objects with `TeardownLeft(h, u, k + 1)` are live, so everything is
        destroyed, children before their owners, the instance last. */
    method Cleanup()
      requires Valid()
      modifies this`live, this`fences
      ensures live == {}
      ensures fences == AfterIdle(old(fences))
    {
      DeviceWaitIdle();
      CleanupSwapChain();
      SwapchainCleanupLeaves(old(live), live, swapImageCount, uniformBufferCount);
      DestroyTextureAndDescriptors();
      DestroyBuffersAndSync();
      DestroyCore();
    }

    /** Calls 2 to 7 of `cleanup`: the texture sampler, view, image and memory,
        the descriptor pool with its sets, and the descriptor set layout. */
    method DestroyTextureAndDescriptors()
      requires forall h :: h in live <==> TeardownLeft(h, uniformBufferCount, 2)
      modifies this`live
      ensures forall h :: h in live <==> TeardownLeft(h, uniformBufferCount, 8)
    {
      DestroyTexture();
      DestroyDescriptors();
    }

    /** Calls 2 to 5 of `cleanup`: the texture sampler, view, image and memory. */
    method DestroyTexture()
      requires forall h :: h in live <==> TeardownLeft(h, uniformBufferCount, 2)
      modifies this`live
      ensures forall h :: h in live <==> TeardownLeft(h, uniformBufferCount, 6)
    {
      Destroy(TextureSampler);
      Destroy(TextureImageView);
      Destroy(TextureImage);
      Destroy(TextureImageMemory);
    }

    /** Calls 6 and 7 of `cleanup`: the descriptor pool with its sets, then the layout. */
    method DestroyDescriptors()
      requires forall h :: h in live <==> TeardownLeft(h, uniformBufferCount, 6)
      modifies this`live
      ensures forall h :: h in live <==> TeardownLeft(h, uniformBufferCount, 8)
    {
      DestroyDescriptorPool();
      Destroy(DescriptorSetLayout);
    }

    /** Calls 8 to 13 of `cleanup`: the uniform buffer loop, the index and
        vertex buffers and the sync object loop; the fences are idle by then. */
    method DestroyBuffersAndSync()
      requires forall h :: h in live <==> TeardownLeft(h, uniformBufferCount, 8)
      requires forall f :: 0 <= f < |fences| ==> fences[f] != Pending
      modifies this`live
      ensures forall h :: h in live <==> TeardownLeft(h, uniformBufferCount, 14)
    {
      DestroyUniformBuffers(uniformBufferCount);
      DestroyGeometryBuffers();
      DestroySyncObjects();
    }

    /** Calls 9 to 12 of `cleanup`: the index buffer and its memory, then the
        vertex buffer and its memory. */
    method DestroyGeometryBuffers()
      requires forall h :: h in live <==> TeardownLeft(h, uniformBufferCount, 9)
      modifies this`live
      ensures forall h :: h in live <==> TeardownLeft(h, uniformBufferCount, 13)
    {
      Destroy(IndexBuffer);
      Destroy(IndexBufferMemory);
      Destroy(VertexBuffer);
      Destroy(VertexBufferMemory);
    }

    /** Calls 14 to 18 of `cleanup`: the command pool, the device, the
        messenger, the surface and finally the instance. */
    method DestroyCore()
      requires forall h :: h in live <==> TeardownLeft(h, uniformBufferCount, 14)
      modifies this`live
      ensures live == {}
    {
      Destroy(CommandPool);
      Destroy(Device);
      Destroy(DebugMessenger);
      Destroy(Surface);
      Destroy(Instance);
    }

    /** The uniform buffer loop of `cleanup`, over the first `count` buffers. */
    method DestroyUniformBuffers(count: nat)
      requires forall i :: 0 <= i < count ==> UniformBuffer(i) in live && UniformBufferMemory(i) in live
      modifies this`live
      ensures forall h :: h in live <==> h in old(live) && !((h.UniformBuffer? || h.UniformBufferMemory?) && h.image < count)
    {
      var i := 0;
      while i < count
        invariant 0 <= i <= count
        invariant forall h :: h in live <==> h in old(live) && !((h.UniformBuffer? || h.UniformBufferMemory?) && h.image < i)
      {
        Destroy(UniformBuffer(i));
        Destroy(UniformBufferMemory(i));
        i := i + 1;
      }
    }

    /** The sync object loop of `cleanup`: render-finished semaphore,
        image-available semaphore and fence of each frame; no fence may be
        waiting for a submission. */
    method DestroySyncObjects()
      requires forall h :: SyncObject(h, MAX_FRAMES_IN_FLIGHT) ==> h in live
      requires forall f :: 0 <= f < |fences| ==> fences[f] != Pending
      modifies this`live
      ensures forall h :: h in live <==> h in old(live) && !SyncObject(h, MAX_FRAMES_IN_FLIGHT)
    {
      var f := 0;
      while f < MAX_FRAMES_IN_FLIGHT
        invariant 0 <= f <= MAX_FRAMES_IN_FLIGHT
        invariant forall h :: h in live <==> h in old(live) && !SyncObject(h, f)
      {
        Destroy(RenderFinishedSemaphore(f));
        Destroy(ImageAvailableSemaphore(f));
        Destroy(InFlightFence(f));
        f := f + 1;
      }
    }

    // -------------------------------------------------------------------
    // Frames
    // -------------------------------------------------------------------

    /** `startFrame`: `vkWaitForFences` with no timeout on the current frame's
        fence. A pending fence is signalled once its submission completes; an
        unsignalled fence with no submission never is, and the wait does not
        return (`returned` is false). */
    method StartFrame() returns (returned: bool)
      requires |fences| == MAX_FRAMES_IN_FLIGHT && currentFrame < MAX_FRAMES_IN_FLIGHT
      modifies this`fences, this`frameLog
      ensures frameLog == old(frameLog) + [WaitForFence(currentFrame)]
      ensures returned <==> old(fences[currentFrame]) != Unsignaled
      ensures fences == if returned then old(fences)[currentFrame := Signaled] else old(fences)
    {
      frameLog := frameLog + [WaitForFence(currentFrame)];
      if fences[currentFrame] == Unsignaled {
        return false;
      }
      fences := fences[currentFrame := Signaled];
      return true;
    }

    /** `recreateIfFailed`: an out-of-date swapchain is rebuilt, success and
        suboptimal pass, anything else is reported with `failure`. */
    method RecreateIfFailed(result: Vk.Result, failure: RendererError, surface: SurfaceState, driver: Driver)
      requires Valid() && WellFormedDriver(driver)
      requires Classify(result) == Recreate ==> |surface.details.formats| > 0 && surface.imageCount <= uniformBufferCount
      modifies this`live, this`errors, this`swapChainDetails, this`swapchainInfo,
               this`renderPassDepthFormat, this`depthFormat, this`swapImageCount, this`fences, this`frameLog
      ensures Valid()
      ensures errors == old(errors) + ResultErrors(Classify(result), failure, driver)
      ensures frameLog == old(frameLog) + if Classify(result) == Recreate then [SwapchainRecreated] else []
      ensures fences == if Classify(result) == Recreate then AfterIdle(old(fences)) else old(fences)
      ensures swapImageCount == if Classify(result) == Recreate then surface.imageCount else old(swapImageCount)
      ensures Classify(result) != Recreate ==> live == old(live)
    {
      if result == ERROR_OUT_OF_DATE_KHR {
        RecreateSwapChain(surface, driver);
        frameLog := frameLog + [SwapchainRecreated];
        return;
      } else if result != SUCCESS && result != SUBOPTIMAL_KHR {
        errors := errors + [failure];
      }
    }

    /** `renderFrame`. The acquire and present results, whether the submission
        succeeds, the image index and the surface seen by a recreation are the
        driver's answers. */
    method RenderFrame(acquireResult: Vk.Result, imageIndex: nat, submitted: bool, presentResult: Vk.Result,
                       acquireSurface: SurfaceState, presentSurface: SurfaceState, driver: Driver)
      requires Valid() && WellFormedDriver(driver)
      requires fences[currentFrame] == Signaled
      requires Classify(acquireResult) == Recreate ==> |acquireSurface.details.formats| > 0 && acquireSurface.imageCount <= uniformBufferCount
      requires Classify(presentResult) == Recreate ==> |presentSurface.details.formats| > 0 && presentSurface.imageCount <= uniformBufferCount
      requires imageIndex < if Classify(acquireResult) == Recreate then acquireSurface.imageCount else swapImageCount
      modifies this`live, this`errors, this`swapChainDetails, this`swapchainInfo,
               this`renderPassDepthFormat, this`depthFormat, this`swapImageCount, this`fences, this`frameLog
      ensures Valid()
      ensures frameLog == old(frameLog) + RenderFrameEvents(currentFrame, imageIndex, Classify(acquireResult), submitted, Classify(presentResult))
      ensures fences[currentFrame] == if !submitted then Unsignaled else if Classify(presentResult) == Recreate then Signaled else Pending
      ensures forall f :: 0 <= f < MAX_FRAMES_IN_FLIGHT && f != currentFrame ==>
                fences[f] == old(fences[f]) || (old(fences[f]) == Pending && fences[f] == Signaled)
      ensures swapImageCount == if Classify(presentResult) == Recreate then presentSurface.imageCount
                                else if Classify(acquireResult) == Recreate then acquireSurface.imageCount
                                else old(swapImageCount)
      ensures errors == old(errors) + FrameErrors(Classify(acquireResult), submitted, Classify(presentResult), driver)
    {
      ghost var acquireEvents := SwapchainEvents(AcquireImage(currentFrame), Classify(acquireResult));
      ghost var drawEvents := DrawEvents(imageIndex, currentFrame, submitted);
      ghost var presentEvents := SwapchainEvents(Present(imageIndex), Classify(presentResult));
      assert frameLog + acquireEvents + drawEvents + presentEvents == frameLog + (acquireEvents + drawEvents + presentEvents);
      ghost var acquireErrors := ResultErrors(Classify(acquireResult), AcquireFailed, driver);
      ghost var submitErrors := if submitted then [] else [SubmitFailed];
      ghost var presentErrors := ResultErrors(Classify(presentResult), PresentFailed, driver);
      assert errors + acquireErrors + submitErrors + presentErrors == errors + (acquireErrors + submitErrors + presentErrors);
      SwapchainCall(AcquireImage(currentFrame), acquireResult, AcquireFailed, acquireSurface, driver);
      assert UniformBufferMemory(imageIndex) in live && CommandBuffer(imageIndex) in live && InFlightFence(currentFrame) in live;
      DrawImage(imageIndex, submitted);
      SwapchainCall(Present(imageIndex), presentResult, PresentFailed, presentSurface, driver);
    }

    /** `vkAcquireNextImageKHR` or `vkQueuePresentKHR`, recorded as `event`,
        followed by `recreateIfFailed` on the result it returned. */
    method SwapchainCall(event: FrameEvent, result: Vk.Result, failure: RendererError, surface: SurfaceState, driver: Driver)
      requires Valid() && WellFormedDriver(driver)
      requires Classify(result) == Recreate ==> |surface.details.formats| > 0 && surface.imageCount <= uniformBufferCount
      modifies this`live, this`errors, this`swapChainDetails, this`swapchainInfo,
               this`renderPassDepthFormat, this`depthFormat, this`swapImageCount, this`fences, this`frameLog
      ensures Valid()
      ensures errors == old(errors) + ResultErrors(Classify(result), failure, driver)
      ensures frameLog == old(frameLog) + SwapchainEvents(event, Classify(result))
      ensures fences == if Classify(result) == Recreate then AfterIdle(old(fences)) else old(fences)
      ensures swapImageCount == if Classify(result) == Recreate then surface.imageCount else old(swapImageCount)
    {
      frameLog := frameLog + [event];
      RecreateIfFailed(result, failure, surface, driver);
    }

    /** The middle of `renderFrame`: `updateUniformBuffers`, `vkResetFences`
        and `vkQueueSubmit` for the current frame and the acquired image. */
    method DrawImage(image: nat, submitted: bool)
      requires currentFrame < |fences| && fences[currentFrame] == Signaled
      requires UniformBufferMemory(image) in live && CommandBuffer(image) in live && InFlightFence(currentFrame) in live
      modifies this`fences, this`frameLog, this`errors
      ensures frameLog == old(frameLog) + DrawEvents(image, currentFrame, submitted)
      ensures fences == old(fences)[currentFrame := if submitted then Pending else Unsignaled]
      ensures errors == old(errors) + if submitted then [] else [SubmitFailed]
    {
      UpdateUniformBuffers(image);
      ResetInFlightFence(currentFrame);
      QueueSubmit(image, currentFrame, submitted);
    }

    /** `updateUniformBuffers`: maps and writes the image's uniform buffer memory. */
    method UpdateUniformBuffers(image: nat)
      requires UniformBufferMemory(image) in live
      modifies this`frameLog
      ensures frameLog == old(frameLog) + [UpdateUniform(image)]
    {
      frameLog := frameLog + [UpdateUniform(image)];
    }

    /** `vkResetFences`: a fence still tied to an unfinished submission must not be reset. */
    method ResetInFlightFence(frame: nat)
      requires frame < |fences| && fences[frame] != Pending
      modifies this`fences, this`frameLog
      ensures fences == old(fences)[frame := Unsignaled]
      ensures frameLog == old(frameLog) + [ResetFence(frame)]
    {
      fences := fences[frame := Unsignaled];
      frameLog := frameLog + [ResetFence(frame)];
    }

    /** `vkQueueSubmit` of the image's command buffer, signalling the frame's
        fence; the fence must be unsignalled. A failed submission is reported
        and leaves the fence as it was. */
    method QueueSubmit(image: nat, frame: nat, submitted: bool)
      requires frame < |fences| && fences[frame] == Unsignaled
      requires CommandBuffer(image) in live && InFlightFence(frame) in live
      modifies this`fences, this`frameLog, this`errors
      ensures fences == if submitted then old(fences)[frame := Pending] else old(fences)
      ensures frameLog == old(frameLog) + if submitted then [Submit(image, frame)] else []
      ensures errors == old(errors) + if submitted then [] else [SubmitFailed]
    {
      if submitted {
        fences := fences[frame := Pending];
        frameLog := frameLog + [Submit(image, frame)];
      } else {
        errors := errors + [SubmitFailed];
      }
    }

    /** `endFrame`. */
    method EndFrame()
      requires currentFrame < MAX_FRAMES_IN_FLIGHT
      modifies this`currentFrame
      ensures currentFrame == NextFrame(old(currentFrame))
      ensures currentFrame < MAX_FRAMES_IN_FLIGHT && currentFrame != old(currentFrame)
    {
      currentFrame := (currentFrame + 1) % MAX_FRAMES_IN_FLIGHT;
    }
  }
}
