/**
 * The Vulkan objects the renderer owns, which object each one belongs to,
 * the groups `cleanupSwapChain` and `cleanup` destroy, and the order in which
 * `init` creates the objects and `cleanup` destroys them.
 *
 * Groups are predicates on handles rather than sets, so a set of live objects
 * is described by saying which handles are in it.
 */
module Lifecycle {

  /** One Vulkan object held by `VulkanRenderer`; indexed objects are the
      elements of the per-image and per-frame arrays. */
  datatype Handle =
    | Instance
    | DebugMessenger
    | Surface
    | Device
    | Swapchain
    | SwapImageView(image: nat)
    | RenderPass
    | DescriptorSetLayout
    | PipelineLayout
    | Pipeline
    | VertexShaderModule
    | FragmentShaderModule
    | CommandPool
    | DepthImage
    | DepthImageMemory
    | DepthImageView
    | Framebuffer(image: nat)
    | TextureImage
    | TextureImageMemory
    | TextureImageView
    | TextureSampler
    | StagingBuffer
    | StagingBufferMemory
    | SingleTimeCommandBuffer
    | VertexBuffer
    | VertexBufferMemory
    | IndexBuffer
    | IndexBufferMemory
    | UniformBuffer(image: nat)
    | UniformBufferMemory(image: nat)
    | DescriptorPool
    | DescriptorSet(image: nat)
    | CommandBuffer(image: nat)
    | ImageAvailableSemaphore(frame: nat)
    | RenderFinishedSemaphore(frame: nat)
    | InFlightFence(frame: nat)

  datatype Owner = NoOwner | OwnedBy(handle: Handle)

  /** The object a handle is created from and must not outlive: the instance
      for the messenger, surface and device; the pools for the command buffers
      and descriptor sets; the device for everything else. */
  function Parent(h: Handle): Owner
  {
    match h
    case Instance => NoOwner
    case DebugMessenger => OwnedBy(Instance)
    case Surface => OwnedBy(Instance)
    case Device => OwnedBy(Instance)
    case SingleTimeCommandBuffer => OwnedBy(CommandPool)
    case CommandBuffer(_) => OwnedBy(CommandPool)
    case DescriptorSet(_) => OwnedBy(DescriptorPool)
    case _ => OwnedBy(Device)
  }

  /** The objects other objects can belong to. */
  predicate IsOwner(h: Handle)
  {
    h.Instance? || h.Device? || h.CommandPool? || h.DescriptorPool?
  }

  lemma OwnersAreParents(h: Handle)
    ensures IsOwner(h) <==> exists c :: Parent(c) == OwnedBy(h)
  {
    if h.Instance? {
      assert Parent(Device) == OwnedBy(h);
    } else if h.Device? {
      assert Parent(Swapchain) == OwnedBy(h);
    } else if h.CommandPool? {
      assert Parent(SingleTimeCommandBuffer) == OwnedBy(h);
    } else if h.DescriptorPool? {
      assert Parent(DescriptorSet(0)) == OwnedBy(h);
    }
  }

  /** No object in `live` belongs to `h`. */
  predicate NoChildrenIn(live: set<Handle>, h: Handle)
  {
    forall c :: c in live ==> Parent(c) != OwnedBy(h)
  }

  // ---------------------------------------------------------------------
  // Groups
  // ---------------------------------------------------------------------

  const MAX_FRAMES_IN_FLIGHT: nat := 2

  /** The instance-level objects and the device. */
  predicate InCore(h: Handle)
  {
    h.Instance? || h.DebugMessenger? || h.Surface? || h.Device?
  }

  /** What `createSwapChain`, `createImageViews` and `createRenderPass` create. */
  predicate PresentationObject(h: Handle, images: nat)
  {
    h.Swapchain? || (h.SwapImageView? && h.image < images) || h.RenderPass?
  }

  /** What `createGraphicsPipeline`, `createDepthResources`, `createFramebuffers`
      and `createAndRecordCommandBuffers` leave behind. */
  predicate RenderTarget(h: Handle, images: nat)
  {
    || h.PipelineLayout? || h.Pipeline?
    || h.DepthImage? || h.DepthImageMemory? || h.DepthImageView?
    || (h.Framebuffer? && h.image < images)
    || (h.CommandBuffer? && h.image < images)
  }

  /** The objects tied to the swapchain's images and extent: what
      `cleanupSwapChain` destroys and `recreateSwapChain` rebuilds. */
  predicate InSwapchainGroup(h: Handle, images: nat)
  {
    PresentationObject(h, images) || RenderTarget(h, images)
  }

  /** The objects other than the core ones that survive swapchain recreation;
      `uniforms` is the number of uniform buffers and descriptor sets
      allocated at `init`. */
  predicate InPersistentGroup(h: Handle, uniforms: nat)
  {
    || h.DescriptorSetLayout? || h.CommandPool?
    || h.TextureImage? || h.TextureImageMemory? || h.TextureImageView? || h.TextureSampler?
    || h.VertexBuffer? || h.VertexBufferMemory? || h.IndexBuffer? || h.IndexBufferMemory?
    || h.DescriptorPool?
    || (h.UniformBuffer? && h.image < uniforms)
    || (h.UniformBufferMemory? && h.image < uniforms)
    || (h.DescriptorSet? && h.image < uniforms)
    || SyncObject(h, MAX_FRAMES_IN_FLIGHT)
  }

  /** The semaphores and fence of the first `frames` frames in flight. */
  predicate SyncObject(h: Handle, frames: nat)
  {
    (h.ImageAvailableSemaphore? || h.RenderFinishedSemaphore? || h.InFlightFence?) && h.frame < frames
  }

  /** Everything that is live between `init` and `cleanup`. */
  predicate InSteadyState(h: Handle, images: nat, uniforms: nat)
  {
    InCore(h) || InPersistentGroup(h, uniforms) || InSwapchainGroup(h, images)
  }

  /** The objects that exist only inside one create function: the shader
      modules, the staging buffer and the one-off command buffer. */
  predicate Transient(h: Handle)
  {
    || h.VertexShaderModule? || h.FragmentShaderModule?
    || h.StagingBuffer? || h.StagingBufferMemory? || h.SingleTimeCommandBuffer?
  }

  /** The kinds of object the second half of `recreateSwapChain` creates,
      including the shader modules and the one-off command buffer it uses. */
  predicate TargetKind(h: Handle)
  {
    || h.PipelineLayout? || h.Pipeline? || h.VertexShaderModule? || h.FragmentShaderModule?
    || h.DepthImage? || h.DepthImageMemory? || h.DepthImageView? || h.SingleTimeCommandBuffer?
    || h.Framebuffer? || h.CommandBuffer?
  }

  /** The three kinds of group do not overlap, and no transient object is in any of them. */
  lemma GroupsDisjoint(h: Handle, images: nat, uniforms: nat)
    ensures !(InCore(h) && InPersistentGroup(h, uniforms))
    ensures !(InCore(h) && InSwapchainGroup(h, images))
    ensures !(InPersistentGroup(h, uniforms) && InSwapchainGroup(h, images))
    ensures Transient(h) ==> !InSteadyState(h, images, uniforms)
    ensures !(PresentationObject(h, images) && RenderTarget(h, images))
  {
  }

  /** In the steady state every object's parent is live too. */
  lemma SteadyStateClosed(h: Handle, images: nat, uniforms: nat)
    requires InSteadyState(h, images, uniforms) && Parent(h).OwnedBy?
    ensures InSteadyState(Parent(h).handle, images, uniforms)
    ensures InCore(Parent(h).handle) || Parent(h).handle in {CommandPool, DescriptorPool}
  {
  }

  // ---------------------------------------------------------------------
  // Orders
  // ---------------------------------------------------------------------

  /** The position, among the 25 calls of `init`, of the call that creates
      `h`; a transient object gets the first call that uses one. */
  function InitStep(h: Handle): (step: nat)
    ensures step < 25
  {
    match h
    case Instance => 0                          // createInstance
    case DebugMessenger => 1                    // setupDebugUtils
    case Surface => 2                           // createSurface
    case Device => 5                            // createDevice, after pickPhysicalDevice and pickQueues
    case Swapchain => 7                         // createSwapChain, after createQueues
    case SwapImageView(_) => 8
    case RenderPass => 9
    case DescriptorSetLayout => 10
    case PipelineLayout => 11                   // createGraphicsPipeline
    case Pipeline => 11
    case VertexShaderModule => 11
    case FragmentShaderModule => 11
    case CommandPool => 12
    case DepthImage => 13                       // createDepthResources
    case DepthImageMemory => 13
    case DepthImageView => 13
    case SingleTimeCommandBuffer => 13
    case Framebuffer(_) => 14
    case TextureImage => 15                     // createTextureImage
    case TextureImageMemory => 15
    case StagingBuffer => 15
    case StagingBufferMemory => 15
    case TextureImageView => 16
    case TextureSampler => 17
    case VertexBuffer => 18
    case VertexBufferMemory => 18
    case IndexBuffer => 19
    case IndexBufferMemory => 19
    case UniformBuffer(_) => 20                 // createUniformBuffer
    case UniformBufferMemory(_) => 20
    case DescriptorPool => 21
    case DescriptorSet(_) => 22
    case CommandBuffer(_) => 23                 // createAndRecordCommandBuffers
    case ImageAvailableSemaphore(_) => 24       // createSyncObjects
    case RenderFinishedSemaphore(_) => 24
    case InFlightFence(_) => 24
  }

  /** What is live after the first `step` calls of `init` when the swapchain
      has `images` images, one object kind at a time. */
  predicate InitDone(h: Handle, images: nat, step: nat)
  {
    match h
    case Instance => step > 0
    case DebugMessenger => step > 1
    case Surface => step > 2
    case Device => step > 5
    case Swapchain => step > 7
    case SwapImageView(i) => step > 8 && i < images
    case RenderPass => step > 9
    case DescriptorSetLayout => step > 10
    case PipelineLayout | Pipeline => step > 11
    case CommandPool => step > 12
    case DepthImage | DepthImageMemory | DepthImageView => step > 13
    case Framebuffer(i) => step > 14 && i < images
    case TextureImage | TextureImageMemory => step > 15
    case TextureImageView => step > 16
    case TextureSampler => step > 17
    case VertexBuffer | VertexBufferMemory => step > 18
    case IndexBuffer | IndexBufferMemory => step > 19
    case UniformBuffer(i) => step > 20 && i < images
    case UniformBufferMemory(i) => step > 20 && i < images
    case DescriptorPool => step > 21
    case DescriptorSet(i) => step > 22 && i < images
    case CommandBuffer(i) => step > 23 && i < images
    case ImageAvailableSemaphore(f) => step > 24 && f < MAX_FRAMES_IN_FLIGHT
    case RenderFinishedSemaphore(f) => step > 24 && f < MAX_FRAMES_IN_FLIGHT
    case InFlightFence(f) => step > 24 && f < MAX_FRAMES_IN_FLIGHT
    case _ => false
  }

  /** `InitDone` is the steady state cut off at `step` in the order of `InitStep`. */
  lemma InitDoneFollowsOrder(h: Handle, images: nat, step: nat)
    ensures InitDone(h, images, step) <==> InSteadyState(h, images, images) && InitStep(h) < step
  {
  }

  /** After all 25 calls `init` has created exactly the steady state. */
  lemma InitCreatesSteadyState(live: set<Handle>, images: nat)
    requires forall h :: h in live <==> InitDone(h, images, 25)
    ensures forall h :: h in live <==> InSteadyState(h, images, images)
  {
    forall h ensures h in live <==> InSteadyState(h, images, images) {
      InitDoneFollowsOrder(h, images, 25);
    }
  }

  /** The objects `init` has created before `createSwapChain`, together with
      the presentation objects, are what is live after `createRenderPass`. */
  lemma InitPresentationDone(live: set<Handle>, images: nat)
    requires forall h :: h in live <==> InCore(h) || PresentationObject(h, images)
    ensures forall h :: h in live <==> InitDone(h, images, 10)
  {
  }

  /** `init` creates every object after the one it belongs to. */
  lemma InitCreatesParentsFirst(h: Handle, images: nat)
    requires InSteadyState(h, images, images) && Parent(h).OwnedBy?
    ensures InSteadyState(Parent(h).handle, images, images)
    ensures InitStep(Parent(h).handle) < InitStep(h)
  {
  }

  /** A transient object belongs to an object created before the call that uses it. */
  lemma TransientParentsFirst(h: Handle)
    requires Transient(h)
    ensures Parent(h).OwnedBy? && InitStep(Parent(h).handle) < InitStep(h)
  {
  }

  /** The position, among the calls of `cleanup`, of the call that destroys
      `h`: 1 for the whole swapchain group (`cleanupSwapChain`), and the
      descriptor sets with their pool. */
  function TeardownStep(h: Handle): (step: nat)
    ensures step <= 18
  {
    match h
    case TextureSampler => 2
    case TextureImageView => 3
    case TextureImage => 4
    case TextureImageMemory => 5
    case DescriptorPool => 6                  // vkDestroyDescriptorPool frees the sets too
    case DescriptorSet(_) => 6
    case DescriptorSetLayout => 7
    case UniformBuffer(_) => 8                // the uniform buffer loop
    case UniformBufferMemory(_) => 8
    case IndexBuffer => 9
    case IndexBufferMemory => 10
    case VertexBuffer => 11
    case VertexBufferMemory => 12
    case ImageAvailableSemaphore(_) => 13     // the sync object loop
    case RenderFinishedSemaphore(_) => 13
    case InFlightFence(_) => 13
    case CommandPool => 14
    case Device => 15
    case DebugMessenger => 16
    case Surface => 17
    case Instance => 18
    case _ => 1
  }

  /** What is still live in `cleanup` before its call number `step`, once
      `cleanupSwapChain` has run, one object kind at a time. */
  predicate TeardownLeft(h: Handle, uniforms: nat, step: nat)
  {
    match h
    case TextureSampler => step <= 2
    case TextureImageView => step <= 3
    case TextureImage => step <= 4
    case TextureImageMemory => step <= 5
    case DescriptorPool => step <= 6
    case DescriptorSet(i) => step <= 6 && i < uniforms
    case DescriptorSetLayout => step <= 7
    case UniformBuffer(i) => step <= 8 && i < uniforms
    case UniformBufferMemory(i) => step <= 8 && i < uniforms
    case IndexBuffer => step <= 9
    case IndexBufferMemory => step <= 10
    case VertexBuffer => step <= 11
    case VertexBufferMemory => step <= 12
    case ImageAvailableSemaphore(f) => step <= 13 && f < MAX_FRAMES_IN_FLIGHT
    case RenderFinishedSemaphore(f) => step <= 13 && f < MAX_FRAMES_IN_FLIGHT
    case InFlightFence(f) => step <= 13 && f < MAX_FRAMES_IN_FLIGHT
    case CommandPool => step <= 14
    case Device => step <= 15
    case DebugMessenger => step <= 16
    case Surface => step <= 17
    case Instance => step <= 18
    case _ => false
  }

  /** `TeardownLeft` is the part outside the swapchain group cut off at
      `step` in the order of `TeardownStep`. */
  lemma TeardownLeftFollowsOrder(h: Handle, uniforms: nat, step: nat)
    ensures TeardownLeft(h, uniforms, step) <==> (InCore(h) || InPersistentGroup(h, uniforms)) && TeardownStep(h) >= step
  {
  }

  /** What `cleanupSwapChain` leaves of the steady state is what the rest of
      `cleanup` starts from. */
  lemma SwapchainCleanupLeaves(before: set<Handle>, live: set<Handle>, images: nat, uniforms: nat)
    requires forall h :: h in before <==> InSteadyState(h, images, uniforms)
    requires forall h :: h in live <==> h in before && !InSwapchainGroup(h, images)
    ensures forall h :: h in live <==> TeardownLeft(h, uniforms, 2)
  {
  }

  /** Building the swapchain group again on what `cleanupSwapChain` left
      gives the steady state for the new image count. */
  lemma RebuildRestoresSteadyState(live: set<Handle>, images: nat, uniforms: nat)
    requires forall h :: h in live <==> TeardownLeft(h, uniforms, 2) || InSwapchainGroup(h, images)
    ensures forall h :: h in live <==> InSteadyState(h, images, uniforms)
  {
  }

  /** The objects left by `cleanup`'s uniform buffer loop when it runs to
      `count`: the source bounds it by the current `swap_image_count`, not by
      the number of uniform buffers `init` created. */
  function UniformLoopAsWritten(live: set<Handle>, count: nat): set<Handle>
  {
    set h | h in live && !((h.UniformBuffer? || h.UniformBufferMemory?) && h.image < count)
  }

  /** Three uniform buffers from `init` and a swapchain recreated with two
      images: the loop as written leaves the third buffer and its memory alive,
      owned by the device that `cleanup` goes on to destroy. */
  lemma CleanupAsWrittenLeaks(live: set<Handle>)
    requires forall h :: h in live <==> TeardownLeft(h, 3, 8)
    ensures UniformBuffer(2) in UniformLoopAsWritten(live, 2) && UniformBufferMemory(2) in UniformLoopAsWritten(live, 2)
    ensures Parent(UniformBuffer(2)) == OwnedBy(Device) && Parent(UniformBufferMemory(2)) == OwnedBy(Device)
  {
  }

  /** Two uniform buffers and a swapchain recreated with three images: the loop
      as written reaches an index for which no buffer was created. */
  lemma CleanupAsWrittenOverruns(live: set<Handle>)
    requires forall h :: h in live <==> TeardownLeft(h, 2, 8)
    ensures UniformBuffer(2) !in live && UniformBufferMemory(2) !in live
  {
  }

  /** Bounded by the number of uniform buffers created, the loop leaves exactly
      the objects of the next step of `cleanup`. */
  lemma UniformLoopToCreatedCount(live: set<Handle>, uniforms: nat)
    requires forall h :: h in live <==> TeardownLeft(h, uniforms, 8)
    ensures forall h :: h in UniformLoopAsWritten(live, uniforms) <==> TeardownLeft(h, uniforms, 9)
  {
  }

  /** `cleanup` destroys every object before the one it belongs to, except
      the descriptor sets, which go with their pool. */
  lemma CleanupDestroysChildrenFirst(h: Handle, images: nat, uniforms: nat)
    requires InSteadyState(h, images, uniforms) && Parent(h).OwnedBy?
    ensures TeardownStep(h) < TeardownStep(Parent(h).handle) || (h.DescriptorSet? && Parent(h).handle == DescriptorPool)
  {
  }

  /** Nothing is left after the last call of `cleanup`. */
  lemma CleanupLeavesNothing(h: Handle, uniforms: nat)
    ensures TeardownLeft(h, uniforms, 18) <==> h == Instance
    ensures !TeardownLeft(h, uniforms, 19)
  {
  }

  /** The swapchain group is destroyed before any other object. */
  lemma SwapchainGroupFirst(h: Handle, images: nat, uniforms: nat)
    requires InSteadyState(h, images, uniforms)
    ensures InSwapchainGroup(h, images) <==> TeardownStep(h) == 1
  {
  }
}
