# Vulkan renderer host: a Dafny model

This project models the core of a small Windows/SDL game engine host. It has four parts, and the model proves what each of them guarantees.

- **`VulkanRenderer`** (`src/core/vulkan_renderer.cpp`):
  - choosing the surface format, present mode, extent and image count of the swapchain;
  - the instance-layer and device-extension checks;
  - choosing the physical device and its queue families;
  - removing duplicate queue families;
  - finding memory types and supported formats;
  - the table of image-layout transitions;
  - the order in which `init` creates Vulkan objects, and the order in which `cleanupSwapChain`, `recreateSwapChain` and `cleanup` destroy them;
  - the per-frame protocol of `startFrame`, `renderFrame` and `endFrame`, with its two in-flight fences.
- **ImGui back end** (`src/core/imgui_impl.cpp`):
  - `render` flattens the draw lists into one vertex buffer and one index buffer, then replays every draw command against the render context with running offsets;
  - `newFrame` creates the device objects once, then copies keyboard and mouse state into ImGui.
- **`InputManager`** (`src/engine/input.cpp`): two key buffers and two mouse states whose roles are swapped every frame. This is what makes "pressed this frame" something the manager can answer.
- **Host program** (`src/main.cpp`):
  - flattening the loaded mesh into vertex and index arrays;
  - laying out the memory store;
  - loading, unloading and hot-reloading the game library, with stub fallbacks;
  - the fixed call order of one main-loop iteration, and what the loop does with Escape, F11 and quit requests.

How the model is built:

- **Vulkan objects.** Every Vulkan object the renderer owns is a `Lifecycle.Handle`. The renderer's state is the set of live handles. Destroying an object while objects created from it are still alive is refused by precondition. So every teardown the model accepts destroys children before parents.
- **Outside calls.** Calls into Vulkan, SDL, ImGui and the platform layer are not modelled as code. What they report is a parameter: `Renderer.Driver`, `Renderer.SurfaceState`, `Platform.InputSnapshot`, `GameHost.FrameAnswers` and `GameHost.LoaderAnswers`. What the core does to them is recorded in order, as an error log or an event log.
- **Error reporting.** `platform->error` shows a message box and returns. It is modelled as appending a `Vk.RendererError` to `errors`, and the operation carries on, as the source does.
- **Code as written.** The model follows the code as written. The three places where the code is evidently wrong are listed under "## Findings". Each has both an as-written member and a corrected member, and the rest of the model uses the corrected one.

Files:

| file | module | models |
|---|---|---|
| common.dfy | Common | `u32` conversions, first-index search, filtering |
| vk.dfy | Vk | Vulkan enumerations, flag masks and the renderer's error messages |
| platform.dfy | Platform | `Key`, `MouseButton` and one frame's platform answers |
| swapchain.dfy | Swapchain | `SwapChainSupportDetails::choose*` and the surface-dependent fields of `createSwapChain` |
| device_selection.dfy | DeviceSelection | layers, instance and device extensions, the device pick, queue families |
| resource_queries.dfy | ResourceQueries | `findMemoryType`, `findSupportedFormat`, `findDepthFormat`, `transitionImageLayout`'s table |
| lifecycle.dfy | Lifecycle | object ownership, the creation and destruction orders |
| renderer.dfy | Renderer | the `VulkanRenderer` class |
| input.dfy | Input | the `InputManager` class |
| overlay.dfy | Overlay | `ImGuiImpl::render` and `ImGuiImpl::newFrame` |
| game_host.dfy | GameHost | `loadGameCode`, `unloadGameCode` and the main loop |
| host_setup.dfy | Startup | the mesh flattening and the memory store layout in `main` |

## Model

| member | source | states |
|---|---|---|
| Common.ToU32 | src/core/vulkan_renderer.cpp:354-357 | a `(u32)` cast keeps values in 0..2^32-1, adds 2^32 to a negative `s32`, and subtracts 2^32 from a value one modulus too large |
| Swapchain.SelectedFormatCases | src/core/vulkan_renderer.cpp:16-28 | the chosen surface format is B8G8R8A8_UNORM/SRGB_NONLINEAR exactly when the surface reports one UNDEFINED entry or lists that pair; otherwise it is the first reported entry |
| Swapchain.ChooseFormat | src/core/vulkan_renderer.cpp:16-28 | the early-return search yields exactly the selection above |
| Swapchain.ChoosePresentMode | src/core/vulkan_renderer.cpp:30-40 | mailbox if it is listed anywhere, else immediate if listed, else FIFO; the result is always one of the three |
| Swapchain.ChooseExtent | src/core/vulkan_renderer.cpp:42-53 | the surface's current extent unless its width is UINT32_MAX, in which case the window's drawable size |
| Swapchain.RequestedImageCountBounds | src/core/vulkan_renderer.cpp:414-416 | `minImageCount + 1` when `maxImageCount` is 0; otherwise the smaller of that and `maxImageCount`; never below `minImageCount` when the surface's range is consistent |
| Swapchain.RequestedImageCountWraps | src/core/vulkan_renderer.cpp:414 | a surface with `minImageCount == UINT32_MAX` makes the `u32` addition wrap to a request of 0 images |
| Swapchain.ImageSharing | src/core/vulkan_renderer.cpp:428-439 | concurrent sharing if and only if the graphics and present indices differ, naming both families as `u32` |
| Swapchain.ConcurrentFamiliesDistinct | src/core/vulkan_renderer.cpp:428-436 | the two family indices passed for concurrent sharing are distinct after the `u32` cast |
| Swapchain.BuildSwapchainCreateInfo | src/core/vulkan_renderer.cpp:407-445 | the create info holds the chosen format, present mode, extent and image count, the sharing mode, and the surface's current transform |
| DeviceSelection.MissingLayerErrorsMembership | src/core/vulkan_renderer.cpp:201-217 | a missing-layer message is reported for a layer if and only if it is wanted and not available |
| DeviceSelection.MissingLayerErrorsEmpty | src/core/vulkan_renderer.cpp:201-217 | no message at all if and only if every wanted layer is available |
| DeviceSelection.CheckLayers | src/core/vulkan_renderer.cpp:201-217 | the nested search loop reports exactly those messages, in wanted order |
| DeviceSelection.InstanceExtensions | src/core/vulkan_renderer.cpp:166-177 | the instance extension list is the debug-utils extension followed by every extension SDL asks for |
| DeviceSelection.ExtensionQueryErrors | src/core/vulkan_renderer.cpp:169-175 | one "couldn't get instance extensions" error for each of the two SDL queries that fails, and nothing else |
| DeviceSelection.ExtensionArrayOverrunAsWritten | src/core/vulkan_renderer.cpp:171-174 | as written, the array is one byte larger than `n` pointers, so writing the `n + 1` entries overruns it by `sizeof(const char *) - 1` bytes for every count |
| DeviceSelection.ExtensionArrayOverrunExample | src/core/vulkan_renderer.cpp:171-174 | with 8-byte pointers and SDL's two Win32 surface extensions, 17 bytes are allocated and 24 written |
| DeviceSelection.ExtensionArrayFits | src/core/vulkan_renderer.cpp:171-174 | with the intended size the array holds the instance extension list exactly |
| DeviceSelection.MarkExtensions | src/core/vulkan_renderer.cpp:280-286 | after the loop, each mark is its previous value or'ed with "this wanted extension is offered by the device" |
| DeviceSelection.AllMarked | src/core/vulkan_renderer.cpp:288-296 | `found_all_exts` is true if and only if every mark is set |
| DeviceSelection.CheckDeviceExtensionsAsWritten | src/core/vulkan_renderer.cpp:280-296 | the check as written depends on the initial contents of the uninitialised mark array |
| DeviceSelection.StaleMarkAcceptsMissingExtension | src/core/vulkan_renderer.cpp:280-296 | with a stale `true` mark, a device offering no extensions passes the swapchain-extension check |
| DeviceSelection.CheckDeviceExtensions | src/core/vulkan_renderer.cpp:280-296 | with cleared marks, the check passes if and only if every wanted extension is offered |
| DeviceSelection.FoundAllFromClearedMarks | src/core/vulkan_renderer.cpp:280-296 | starting from cleared marks, mark-then-check equals "every wanted extension is available" |
| DeviceSelection.PickPhysicalDevice | src/core/vulkan_renderer.cpp:251-320 | picks the first suitable device, or none exactly when no device is suitable; the saved swapchain details are the chosen device's, otherwise unchanged; "no Vulkan GPU" is reported for an empty list and "no suitable GPU" when none was chosen |
| DeviceSelection.PickQueues | src/core/vulkan_renderer.cpp:322-349 | each index is the first family with queues that can do graphics (resp. present), or -1 when there is none |
| DeviceSelection.DedupElements | src/core/vulkan_renderer.cpp:362-382 | the de-duplicated families are the same set as the input and hold no repeats |
| DeviceSelection.DedupPair | src/core/vulkan_renderer.cpp:354-382 | for the two queue indices: one family when they are equal, both in order otherwise |
| DeviceSelection.UniqueQueueFamilies | src/core/vulkan_renderer.cpp:362-382 | the "been processed" double loop computes the de-duplication, keeping first occurrences |
| DeviceSelection.DeviceQueueFamilies | src/core/vulkan_renderer.cpp:351-382 | the device is created with one queue family if the two `u32` indices coincide, two otherwise |
| ResourceQueries.FindMemoryType | src/core/vulkan_renderer.cpp:547-560 | on success, the index of the first type allowed by the filter that has all requested properties; an error if and only if there is no such type, and then UINT32_MAX |
| ResourceQueries.FullFilterAcceptsMatchingType | src/core/vulkan_renderer.cpp:552 | with an all-ones filter, any type that has the requested properties is acceptable |
| ResourceQueries.FirstSupportedIsFirst | src/core/vulkan_renderer.cpp:1324-1337 | no format is found if and only if no candidate supports the features; otherwise the found one supports them and no earlier candidate does |
| ResourceQueries.FindSupportedFormat | src/core/vulkan_renderer.cpp:1324-1337 | the loop returns the first supported candidate, or UNDEFINED with a "no supported format" error |
| ResourceQueries.FindDepthFormat | src/core/vulkan_renderer.cpp:1339-1346 | the result is the first of D32, D32S8 and D24S8, in that order, whose optimal-tiling features include depth/stencil attachment, with no error; with none supported, UNDEFINED and the no-supported-format error |
| ResourceQueries.ChosenDepthFormat | src/core/vulkan_renderer.cpp:1339-1346 | the format the depth search settles on is UNDEFINED or one of the three candidates |
| ResourceQueries.DepthFormatPreference | src/core/vulkan_renderer.cpp:1339-1346 | D32 wins whenever it is supported; without D32, D32S8 wins whenever it is supported; D24S8 is chosen when only it is |
| ResourceQueries.DepthCandidatesStencil | src/core/vulkan_renderer.cpp:1339-1350 | of the depth candidates, exactly the two after the first have a stencil component |
| ResourceQueries.TransitionErrors | src/core/vulkan_renderer.cpp:1206-1236 | "unsupported layout transition" is reported exactly when the pair is not in the table |
| ResourceQueries.SupportedTransitions | src/core/vulkan_renderer.cpp:1206-1227 | the table holds exactly: undefined to transfer-dst, transfer-dst to shader-read, and undefined to depth-attachment |
| ResourceQueries.TransitionAspectBits | src/core/vulkan_renderer.cpp:1196-1204 | the depth bit is set exactly for the depth-attachment layout, the stencil bit exactly for that layout with a stencil format, and the colour bit exactly otherwise |
| ResourceQueries.TextureUploadTransitionsChain | src/core/vulkan_renderer.cpp:1279-1282 | both texture transitions are supported, and the first one's destination access and stage are the second one's source |
| Lifecycle.OwnersAreParents | src/core/vulkan_renderer.cpp:1476-1514 | a handle owns children exactly when it is some handle's parent |
| Lifecycle.GroupsDisjoint | src/core/vulkan_renderer.cpp:1109-1131 | the core, persistent and swapchain groups are pairwise disjoint; transient objects are never in the steady state; presentation objects and render targets do not overlap |
| Lifecycle.SteadyStateClosed | src/core/vulkan_renderer.cpp:1367-1393 | the parent of every steady-state object is itself in the steady state, and it is a core object or one of the two pools |
| Lifecycle.InitStep | src/core/vulkan_renderer.cpp:1367-1393 | every object is created by one of the 25 creation steps of `init` |
| Lifecycle.InitDoneFollowsOrder | src/core/vulkan_renderer.cpp:1367-1393 | after a given number of steps, exactly the steady-state objects whose step comes earlier are alive |
| Lifecycle.InitCreatesSteadyState | src/core/vulkan_renderer.cpp:1367-1393 | after all 25 steps, exactly the steady state is alive |
| Lifecycle.InitPresentationDone | src/core/vulkan_renderer.cpp:1367-1377 | the core objects with the swapchain, its image views and the render pass are exactly the first ten steps |
| Lifecycle.InitCreatesParentsFirst | src/core/vulkan_renderer.cpp:1367-1393 | `init` creates every object's parent at an earlier step |
| Lifecycle.TransientParentsFirst | src/core/vulkan_renderer.cpp:562-636 | staging buffers and one-shot command buffers have a parent created earlier |
| Lifecycle.TeardownStep | src/core/vulkan_renderer.cpp:1476-1514 | every object is destroyed by one of the steps of `cleanup` |
| Lifecycle.TeardownLeftFollowsOrder | src/core/vulkan_renderer.cpp:1476-1514 | after a given step of `cleanup`, exactly the core and persistent objects with a later step are alive |
| Lifecycle.SwapchainCleanupLeaves | src/core/vulkan_renderer.cpp:1109-1131 | removing the swapchain group from the steady state leaves exactly the state after `cleanup`'s first step |
| Lifecycle.RebuildRestoresSteadyState | src/core/vulkan_renderer.cpp:1133-1145 | the state after `cleanupSwapChain` plus a new swapchain group is the steady state again |
| Lifecycle.CleanupAsWrittenLeaks | src/core/vulkan_renderer.cpp:1489-1492 | with three uniform buffers and two swapchain images, the loop leaves the third buffer and its memory alive under the device |
| Lifecycle.CleanupAsWrittenOverruns | src/core/vulkan_renderer.cpp:1489-1492 | with two uniform buffers and three swapchain images, the loop reaches a buffer that was never created |
| Lifecycle.UniformLoopToCreatedCount | src/core/vulkan_renderer.cpp:1489-1492 | bounded by the number of buffers created, the loop leaves exactly the state of the next cleanup step |
| Lifecycle.CleanupDestroysChildrenFirst | src/core/vulkan_renderer.cpp:1476-1514 | `cleanup` destroys every object before its parent; the only exception is descriptor sets, which are freed with their pool |
| Lifecycle.CleanupLeavesNothing | src/core/vulkan_renderer.cpp:1476-1514 | only the instance survives until the last step, and nothing survives it |
| Lifecycle.SwapchainGroupFirst | src/core/vulkan_renderer.cpp:1476-1479 | the swapchain group is exactly what `cleanup`'s first step destroys |
| Renderer.AfterIdle | src/core/vulkan_renderer.cpp:1134 | after `vkDeviceWaitIdle` no fence is pending, and exactly the reset fences stay reset |
| Renderer.Classify | src/core/vulkan_renderer.cpp:1399-1407 | OUT_OF_DATE means recreate, SUCCESS and SUBOPTIMAL mean proceed, and anything else is reported |
| Renderer.NextFrameCycles | src/core/vulkan_renderer.cpp:1472-1474 | the frame index stays below MAX_FRAMES_IN_FLIGHT, changes every frame and comes back after two |
| Renderer.RenderFrameOrder | src/core/vulkan_renderer.cpp:1430-1470 | a frame acquires, then updates that image's uniform buffer, then resets the frame's fence, then submits (if the submission succeeds), then presents; swapchain recreations are the only events in between |
| Renderer.FrameErrorsReported | src/core/vulkan_renderer.cpp:1430-1470 | each of the acquire, submit and present failures is reported exactly when it happens; a frame where everything succeeds reports nothing |
| Renderer.VulkanRenderer.constructor | src/main.cpp:126 | a new renderer owns no objects, has no device and logs nothing |
| Renderer.VulkanRenderer.Create | src/core/vulkan_renderer.cpp:1367-1393 | a `vkCreate*` call adds one new object whose parent is alive |
| Renderer.VulkanRenderer.Destroy | src/core/vulkan_renderer.cpp:1476-1514 | a `vkDestroy*` call removes one object; it requires that none of the object's children are alive, and that it is not a fence still in use |
| Renderer.VulkanRenderer.DestroyDescriptorPool | src/core/vulkan_renderer.cpp:1486 | destroying the pool frees the pool and every descriptor set allocated from it |
| Renderer.VulkanRenderer.DeviceWaitIdle | src/core/vulkan_renderer.cpp:1477 | waiting for idle leaves the fences as `AfterIdle` describes |
| Renderer.VulkanRenderer.SingleTimeCommands | src/core/vulkan_renderer.cpp:999-1030 | the one-shot command buffer is allocated and freed again, so the live set is unchanged |
| Renderer.VulkanRenderer.TransitionImageLayout | src/core/vulkan_renderer.cpp:1183-1241 | records the barrier through a one-shot command buffer and reports an unsupported pair |
| Renderer.VulkanRenderer.AllocateMemory | src/core/vulkan_renderer.cpp:574-584 | adds the memory object and reports the result of the memory-type search |
| Renderer.VulkanRenderer.CreateWithMemory | src/core/vulkan_renderer.cpp:562-586 | `createBuffer`/`createImage` add the resource and its memory, with the memory-type error |
| Renderer.VulkanRenderer.CreateInstance | src/core/vulkan_renderer.cpp:166-229 | reports each failed `SDL_Vulkan_GetInstanceExtensions` call, then each missing layer, and carries on; creates the instance with the debug-utils and window extensions, in an array of exactly one pointer per extension |
| Renderer.VulkanRenderer.PickDevice | src/core/vulkan_renderer.cpp:251-320 | the device, details and errors of `PickPhysicalDevice`, stored in the renderer |
| Renderer.VulkanRenderer.CreateLogicalDevice | src/core/vulkan_renderer.cpp:322-405 | picks the first graphics and present families and creates the device with the de-duplicated families |
| Renderer.VulkanRenderer.CreateSwapChain | src/core/vulkan_renderer.cpp:407-451 | re-queries the surface and creates the swapchain with the chosen format, present mode, extent, image count and sharing |
| Renderer.VulkanRenderer.CreateImageViews | src/core/vulkan_renderer.cpp:473-483 | one view per swapchain image, and the image count is what the swapchain reports |
| Renderer.VulkanRenderer.CreateRenderPass | src/core/vulkan_renderer.cpp:485-545 | creates the render pass; its depth attachment format is the depth search's first supported candidate (UNDEFINED with the error when there is none) |
| Renderer.VulkanRenderer.CreateGraphicsPipeline | src/core/vulkan_renderer.cpp:793-962 | adds the pipeline layout and pipeline; the two shader modules are created and destroyed inside |
| Renderer.VulkanRenderer.CreateDepthResources | src/core/vulkan_renderer.cpp:1352-1365 | adds the depth image, its memory and its view; the depth format is the depth search's first supported candidate; the format error, then the memory error, are reported |
| Renderer.VulkanRenderer.CreateFramebuffers | src/core/vulkan_renderer.cpp:964-984 | one framebuffer per swapchain image |
| Renderer.VulkanRenderer.CreateTextureImage | src/core/vulkan_renderer.cpp:1264-1292 | adds the texture image and its memory; the staging buffer is gone afterwards; the staging and image memory errors are reported in order |
| Renderer.VulkanRenderer.UploadThroughStaging | src/core/vulkan_renderer.cpp:603-671 | the vertex or index buffer is added through a staging buffer that is destroyed again |
| Renderer.VulkanRenderer.CreateUniformBuffers | src/core/vulkan_renderer.cpp:673-688 | one uniform buffer and memory per swapchain image; the errors are one memory-type error per buffer whose allocation fails, in buffer order, so one is added exactly when some allocation fails |
| Renderer.UniformErrorsEmpty | src/core/vulkan_renderer.cpp:673-688 | the uniform buffers report no error if and only if every allocation finds a memory type, and everything they report is a memory-type error |
| Renderer.VulkanRenderer.CreateDescriptorSets | src/core/vulkan_renderer.cpp:709-761 | one descriptor set per swapchain image |
| Renderer.VulkanRenderer.CreateAndRecordCommandBuffers | src/core/vulkan_renderer.cpp:1032-1088 | one command buffer per swapchain image, each recorded against that image's framebuffer and descriptor set |
| Renderer.VulkanRenderer.CreateFrameSyncObjects | src/core/vulkan_renderer.cpp:1099-1106 | creates two semaphores and one fence for a frame; the fence starts signalled |
| Renderer.VulkanRenderer.CreateSyncObjects | src/core/vulkan_renderer.cpp:1090-1107 | creates the sync objects of both frames in flight, with both fences signalled |
| Renderer.VulkanRenderer.Init | src/core/vulkan_renderer.cpp:1367-1393 | the errors are exactly the failed extension queries, the missing layers, the device-pick errors and, with a device, the depth, memory and uniform-buffer search failures in call order; without a suitable device only the instance, messenger and surface exist; with one, the renderer is in the steady state with one uniform buffer per image, both fences signalled, and the render pass and depth image on the same depth format |
| Renderer.VulkanRenderer.InitInstance | src/core/vulkan_renderer.cpp:1368-1371 | the instance, messenger and surface, plus the device pick with all its errors |
| Renderer.VulkanRenderer.InitOnDevice | src/core/vulkan_renderer.cpp:1372-1392 | the remaining steps of `init` reach the steady state, report exactly the depth, memory and uniform-buffer search failures in call order, and give the render pass and the depth image the same depth format |
| Renderer.VulkanRenderer.BuildPresentationObjects | src/core/vulkan_renderer.cpp:1375-1377 | adds the swapchain, its views and the render pass |
| Renderer.VulkanRenderer.InitAfterPresentation | src/core/vulkan_renderer.cpp:1378-1392 | steps 10 to 25 of `init` reach the steady state and report exactly the depth resources', the texture and mesh buffers' and the uniform buffers' errors, in call order |
| Renderer.VulkanRenderer.InitPipelineAndTargets | src/core/vulkan_renderer.cpp:1378-1382 | steps 10 to 15 of `init` |
| Renderer.VulkanRenderer.InitPipeline | src/core/vulkan_renderer.cpp:1378-1380 | steps 10 to 13: the descriptor set layout, the pipeline and the command pool |
| Renderer.VulkanRenderer.CreateDepthAndFramebuffers | src/core/vulkan_renderer.cpp:1381-1382 | adds the depth resources and the framebuffers |
| Renderer.VulkanRenderer.InitResources | src/core/vulkan_renderer.cpp:1383-1387 | steps 15 to 20: the texture, then the vertex and index buffers, with the six memory searches' errors in order |
| Renderer.VulkanRenderer.InitTexture | src/core/vulkan_renderer.cpp:1383-1385 | the texture image, its view and its sampler |
| Renderer.VulkanRenderer.InitGeometry | src/core/vulkan_renderer.cpp:1386-1387 | the vertex buffer and then the index buffer |
| Renderer.VulkanRenderer.InitDescriptorsAndCommands | src/core/vulkan_renderer.cpp:1388-1392 | steps 20 to 25 of `init`; the errors are exactly the uniform buffers' memory-type errors, so none is added if and only if every uniform buffer allocation succeeds |
| Renderer.VulkanRenderer.InitDescriptors | src/core/vulkan_renderer.cpp:1388-1390 | the uniform buffers, the descriptor pool and the descriptor sets, with exactly the uniform buffers' errors |
| Renderer.VulkanRenderer.InitDescriptorPool | src/core/vulkan_renderer.cpp:1389-1390 | the descriptor pool, then one descriptor set per image |
| Renderer.VulkanRenderer.InitCommandsAndSync | src/core/vulkan_renderer.cpp:1391-1392 | the command buffers and the sync objects |
| Renderer.VulkanRenderer.CleanupSwapChain | src/core/vulkan_renderer.cpp:1109-1131 | removes exactly the swapchain group |
| Renderer.VulkanRenderer.DestroyDepthResources | src/core/vulkan_renderer.cpp:1111-1113 | removes the depth view, image and memory |
| Renderer.VulkanRenderer.DestroyFramebuffers | src/core/vulkan_renderer.cpp:1115-1117 | removes the framebuffer of every swapchain image |
| Renderer.VulkanRenderer.FreeCommandBuffers | src/core/vulkan_renderer.cpp:1119 | frees the command buffer of every swapchain image |
| Renderer.VulkanRenderer.DestroyPipelineObjects | src/core/vulkan_renderer.cpp:1121-1123 | removes the pipeline, its layout and the render pass |
| Renderer.VulkanRenderer.DestroySwapImageViews | src/core/vulkan_renderer.cpp:1126-1130 | removes every swapchain image view |
| Renderer.VulkanRenderer.RecreateSwapChain | src/core/vulkan_renderer.cpp:1133-1145 | after waiting for idle, the swapchain group of the old image count is replaced by one for the new image count; the renderer stays valid and the surface's new choices are stored |
| Renderer.VulkanRenderer.RebuildSwapchainGroup | src/core/vulkan_renderer.cpp:1138-1144 | the seven create calls rebuild the swapchain group on the remaining objects |
| Renderer.VulkanRenderer.RebuildTargets | src/core/vulkan_renderer.cpp:1141-1144 | adds the render targets: pipeline, depth resources, framebuffers and command buffers |
| Renderer.VulkanRenderer.CreateDrawTargets | src/core/vulkan_renderer.cpp:1142-1144 | adds the depth resources, framebuffers and command buffers |
| Renderer.VulkanRenderer.Cleanup | src/core/vulkan_renderer.cpp:1476-1514 | from a valid renderer, waits for idle and then destroys every object, children first, leaving nothing alive |
| Renderer.VulkanRenderer.DestroyTextureAndDescriptors | src/core/vulkan_renderer.cpp:1481-1487 | cleanup steps 2 to 8 |
| Renderer.VulkanRenderer.DestroyTexture | src/core/vulkan_renderer.cpp:1481-1484 | removes the sampler, view, image and memory of the texture |
| Renderer.VulkanRenderer.DestroyDescriptors | src/core/vulkan_renderer.cpp:1486-1487 | removes the descriptor pool with its sets, then the set layout |
| Renderer.VulkanRenderer.DestroyBuffersAndSync | src/core/vulkan_renderer.cpp:1489-1506 | cleanup steps 8 to 14: the uniform, index and vertex buffers, then the sync objects |
| Renderer.VulkanRenderer.DestroyGeometryBuffers | src/core/vulkan_renderer.cpp:1494-1498 | removes the index and vertex buffers and their memory |
| Renderer.VulkanRenderer.DestroyCore | src/core/vulkan_renderer.cpp:1508-1513 | the command pool, device, messenger, surface and instance go last, leaving nothing |
| Renderer.VulkanRenderer.DestroyUniformBuffers | src/core/vulkan_renderer.cpp:1489-1492 | removes the first `count` uniform buffers and their memory |
| Renderer.VulkanRenderer.DestroySyncObjects | src/core/vulkan_renderer.cpp:1502-1506 | removes both frames' semaphores and fences, which must not be pending |
| Renderer.VulkanRenderer.StartFrame | src/core/vulkan_renderer.cpp:1395-1397 | waiting on the frame's fence returns exactly when the fence is signalled or pending, and then leaves it signalled |
| Renderer.VulkanRenderer.RecreateIfFailed | src/core/vulkan_renderer.cpp:1399-1407 | OUT_OF_DATE rebuilds the swapchain; any result other than success or suboptimal reports the given message; success changes nothing |
| Renderer.VulkanRenderer.RenderFrame | src/core/vulkan_renderer.cpp:1430-1470 | logs the frame's events in source order; the frame's fence ends reset, in use, or signalled again after a present-time recreation; other fences can only complete; the image count follows the last recreation; the errors are the frame's errors |
| Renderer.VulkanRenderer.SwapchainCall | src/core/vulkan_renderer.cpp:1432-1433 | an acquire or present call followed by `recreateIfFailed` |
| Renderer.VulkanRenderer.DrawImage | src/core/vulkan_renderer.cpp:1439-1455 | updates the image's uniform buffer, resets the fence and submits; the fence ends in use, or reset when the submission fails |
| Renderer.VulkanRenderer.UpdateUniformBuffers | src/core/vulkan_renderer.cpp:1411-1428 | writes the image's uniform buffer |
| Renderer.VulkanRenderer.ResetInFlightFence | src/core/vulkan_renderer.cpp:1451 | resets the frame's fence, which must not be in use |
| Renderer.VulkanRenderer.QueueSubmit | src/core/vulkan_renderer.cpp:1453-1455 | a successful submission hands the reset fence to the GPU; a failed one reports the error |
| Renderer.VulkanRenderer.EndFrame | src/core/vulkan_renderer.cpp:1472-1474 | advances to the other frame in flight |
| Input.Advance | src/engine/input.cpp:28-31 | one entry per key; what the entries hold is stated by `AdvanceReflects` and `ProcessKeys` |
| Input.AdvanceReflects | src/engine/input.cpp:28-31 | if the previous buffer reflects the frames so far, the new buffer reflects them plus the new frame; each flag's "was down" is the previous frame's "is down" |
| Input.InputManager.constructor | src/engine/input.cpp:35-41 | buffer 0 starts as the previous frame and buffer 1 as the current one; no frame has been processed |
| Input.InputManager.IsKeyDown | src/engine/input.cpp:44-46 | the key is down in the current buffer, which is the platform's answer for the current frame |
| Input.InputManager.IsKeyDownOnce | src/engine/input.cpp:48-50 | down now and not down in the current buffer's "was down"; after two or more frames, down this frame and up in the frame before |
| Input.InputManager.GetMousePosition | src/engine/input.cpp:53-55 | the cursor position of the current frame |
| Input.InputManager.GetMouseDelta | src/engine/input.cpp:57-59 | the current position minus the previous frame's position |
| Input.InputManager.IsMouseButtonDown | src/engine/input.cpp:61-63 | the button is down in the current frame |
| Input.InputManager.IsMouseButtonDownOnce | src/engine/input.cpp:65-67 | the button is down this frame and was up in the frame before |
| Input.InputManager.ProcessKeys | src/engine/input.cpp:75-90 | the current buffers are advanced from the previous ones with the platform's answers, the previous buffers are untouched, and the history is kept |
| Input.InputManager.EndFrame | src/engine/input.cpp:92-95 | the two key buffers and the two mouse states swap roles, keeping the history |
| Input.EndFrameTwice | src/engine/input.cpp:92-95 | two `endFrame`s give every buffer back its original role |
| Overlay.CopyInto | src/core/imgui_impl.cpp:35-36 | `memcpy` into the destination at the cursor keeps the prefix and appends the source |
| Overlay.CountTotals | src/core/imgui_impl.cpp:18-26 | the counting loop computes the total vertex and index counts |
| Overlay.Flatten | src/core/imgui_impl.cpp:28-39 | the arrays hold every list's vertices (resp. indices) concatenated in list order |
| Overlay.DrawCommands | src/core/imgui_impl.cpp:92-118 | the inner loop emits every command's calls and advances the index offset by each element count |
| Overlay.DrawLists | src/core/imgui_impl.cpp:89-120 | the outer loop emits every list's calls at the running vertex and index offsets |
| Overlay.Render | src/core/imgui_impl.cpp:16-130 | `render`'s calls are: create the buffers, save the state, the binds, the draw loop, then destroy the buffers and restore the state |
| Overlay.ConcatLengths | src/core/imgui_impl.cpp:18-39 | the flattened arrays are exactly as long as the counted totals |
| Overlay.TotalsGrow | src/core/imgui_impl.cpp:18-26 | the totals of a prefix of the lists are no larger than the full totals |
| Overlay.DrawCallsPrefix | src/core/imgui_impl.cpp:89-120 | the calls for a prefix of the lists begin the full call sequence |
| Overlay.ListCallsPrefix | src/core/imgui_impl.cpp:92-118 | the calls for a prefix of one list's commands begin that list's calls |
| Overlay.ConcatPrefix | src/core/imgui_impl.cpp:28-39 | a prefix of the lists flattens to a prefix of the arrays |
| Overlay.UploadedAtOffsets | src/core/imgui_impl.cpp:28-39 | vertex k of list n is at index (vertices of lists before n) + k of the buffer, and likewise for indices |
| Overlay.CallsBeforeStep | src/core/imgui_impl.cpp:92-118 | the calls up to command c + 1 extend those up to c by command c's calls |
| Overlay.CallsBeforeList | src/core/imgui_impl.cpp:89-120 | the calls before a list's first command are those of the earlier lists; after its last command, those of the lists up to and including it |
| Overlay.CallsBeforeInOrder | src/core/imgui_impl.cpp:89-120 | the calls before any command begin the full sequence |
| Overlay.CommandCallsInOrder | src/core/imgui_impl.cpp:89-120 | each command's calls come immediately after everything before it, within the sequence |
| Overlay.CommandDispatch | src/core/imgui_impl.cpp:95-117 | a callback command makes only the user call; any other command ends with a clip rectangle and an indexed draw at the current offsets, and binds a texture exactly when it has one |
| Overlay.ListCallsAreDrawLoopCalls | src/core/imgui_impl.cpp:92-118 | one list emits only callbacks, texture binds, clip rectangles and draws |
| Overlay.DrawCallsAreDrawLoopCalls | src/core/imgui_impl.cpp:89-120 | the whole draw loop emits only those calls |
| Overlay.RenderCallAt | src/core/imgui_impl.cpp:16-130 | the first 14 calls are the setup, the last 4 the teardown, and everything in between is a draw-loop call |
| Overlay.RenderBracket | src/core/imgui_impl.cpp:41-44 | the first three calls create the vertex and index buffers from the flattened arrays and save the state; the last four are the teardown |
| Overlay.RenderCreatesOnce | src/core/imgui_impl.cpp:41-86 | the buffers are created and the state saved exactly once each, before any bind |
| Overlay.RenderRestoresOnce | src/core/imgui_impl.cpp:122-129 | the buffers are destroyed, and the state restored and destroyed, only in the last four calls |
| Overlay.Backend.constructor | src/core/imgui_impl.cpp:2-9 | the back end starts with no font sampler and no device objects |
| Overlay.Backend.CreateDeviceObjects | src/core/imgui_impl.cpp:148-180 | creates the shader, layout, constant, blend, raster and depth-stencil states, then the font texture and sampler |
| Overlay.Backend.NewFrame | src/core/imgui_impl.cpp:235-274 | device objects are created only on the first frame; display size, keys, mouse buttons and position are copied; each modifier is down when its left or right key is |
| GameHost.TicksInjective | src/core/platform.h:11-14 | two file times denote the same 64-bit value only when both halves agree |
| GameHost.CompareFileTime | src/core/platform/win32_platform.cpp:53-61 | the comparison is 0 if and only if the two times are equal, and otherwise 1 or -1 read as `u32` |
| GameHost.LoadGameCode | src/main.cpp:34-55 | the code is valid if and only if the library and all three symbols load; valid code has the loaded entry points, and otherwise all three are stubs; the library handle and write time are kept |
| GameHost.LoadsTheCopy | src/main.cpp:34-43 | the library file is copied first, and the only library loaded is the copy |
| GameHost.UnloadedCode | src/main.cpp:57-67 | after unloading, no library, not valid, all stubs, and the same write time |
| GameHost.UnloadCalls | src/main.cpp:57-61 | the library is released if and only if one is loaded, with one call |
| GameHost.ReloadExactlyWhenChanged | src/main.cpp:184-189 | the copy is loaded again if and only if the write time changed; then the old code is unloaded and the new code loaded; otherwise only the write time is read and the code is unchanged |
| GameHost.FrameRendererOrder | src/main.cpp:174-232 | in every frame the renderer sees exactly start-frame, render-frame and end-frame, in that order |
| GameHost.FrameGameOrder | src/main.cpp:200-204 | in every frame the game is updated, then the renderer renders, then the game renders, with the entry points of the code as reloaded this frame |
| GameHost.Host.constructor | src/main.cpp:168-173 | the game code is loaded and its `init` called; the loop is running and the input manager is fresh |
| GameHost.Host.UnloadGameCode | src/main.cpp:57-67 | the code becomes the unloaded code, with the library released when there is one |
| GameHost.Host.CheckReload | src/main.cpp:184-189 | the code and the log follow `ReloadedCode` and `ReloadEvents` |
| GameHost.Host.BeginFrame | src/main.cpp:175-182 | starts the renderer frame, processes events (running is "no quit requested") and advances the input |
| GameHost.Host.HandleHotKeys | src/main.cpp:192-198 | Escape pressed this frame stops the loop; F11 pressed this frame toggles fullscreen |
| GameHost.Host.FinishFrame | src/main.cpp:200-231 | update, render frame, render, input end-of-frame and renderer end-of-frame, in that order |
| GameHost.Host.Frame | src/main.cpp:175-231 | one iteration: the log is extended by the frame's events; the code is reloaded when the library changed; the loop keeps running unless a quit was requested or Escape was pressed this frame and not the frame before |
| GameHost.Host.StartIteration | src/main.cpp:174-197 | the first half of an iteration: the start events, the reload check and the hot keys; the loop keeps running unless a quit was requested or Escape was pressed this frame and not the frame before |
| GameHost.Host.Run | src/main.cpp:174-232 | the loop runs at most the given frames, all of them while it keeps running, and none when it was already stopped; no frame before the last one run requested quit, and a quit request in the last one stops the loop; the input history grows by exactly the frames run |
| GameHost.Host.Shutdown | src/main.cpp:234-236 | the renderer is cleaned up, then the game code unloaded |
| Startup.VertexOf | src/main.cpp:106-119 | the vertex flips the texture's v coordinate (`1 - v`) and is white |
| Startup.ShapeVerticesLength | src/main.cpp:105-123 | one vertex per index entry of the shape |
| Startup.MeshVerticesLength | src/main.cpp:104-124 | one vertex per index entry over all shapes |
| Startup.ShapeVertexAt | src/main.cpp:105-123 | vertex j of a shape is built from index entry j |
| Startup.MeshVertexAt | src/main.cpp:104-124 | entry k of shape s lands after the entries of all earlier shapes |
| Startup.IdentityIndices | src/main.cpp:122 | index i is `(u32)i`, which is i itself while the count fits in 32 bits |
| Startup.FlattenMesh | src/main.cpp:104-131 | the nested loops build exactly the mesh's vertices and the identity indices; the two counts handed to the renderer are equal, `(u32)` of the entry count |
| Startup.SizeBeforeGrows | src/main.cpp:146-149 | the running total of block sizes never decreases |
| Startup.TotalSize | src/main.cpp:146-149 | the summing loop gives the total of all block sizes |
| Startup.StartsAt | src/main.cpp:153-157 | the walker places block i at the base plus the sizes of the blocks before it |
| Startup.BlockStarts | src/main.cpp:153-157 | the walker loop produces exactly those block addresses |
| Startup.LayoutMemory | src/main.cpp:146-157 | the total of all sizes, and each block's address as the base plus the sizes before it |
| Startup.BlocksPartitionStore | src/main.cpp:153-157 | blocks never overlap, adjacent blocks touch, and every block ends within the allocation |
| Startup.StoreLayout | src/main.cpp:141-149 | the store is 18 MiB, with the asset block at 8 MiB and the frame block at 16 MiB |

## Left out

- Vulkan, SDL, ImGui and the platform layer are not modelled as code. Their answers are parameters, and their calls are effects on the live-object set or entries in a log.
- Create-info fields that no decision depends on are not modelled: shader stages, vertex layouts, rasteriser, blend, depth and sampler settings, attachment descriptions, clear values and recorded draw commands.
- Floating point (`f32`), the uniform buffer's matrices, rotation and projection, the frame timer, frame pacing and sleeping are not modelled.
- `Startup.VertexOf`: texture coordinates are reals, so `1 - v` is exact instead of rounded to `f32`.
- Printing, the window title, audio, asset loading, the texture file (it is assumed to load), the shader files and `tinyobj::LoadObj` itself are not modelled.
- `platform->error` is an error log entry. The message box it shows and any effect it has on the program's flow are not modelled; like the source, the model carries on after an error.
- `Renderer.VulkanRenderer.CreateInstance`: when an `SDL_Vulkan_GetInstanceExtensions` call fails, the error is reported and the model carries on with the names the driver parameter says the second call filled in. What the source then passes to Vulkan (a stale count, unfilled entries) is not modelled. The extension array has the intended size (see Findings), and `sizeof(const char *)` is the driver parameter `pointerSize`.
- A `vkCreate*` call that fails is not modelled: every creation succeeds. The exception is the memory-type and format searches, whose failures are reported.
- `Renderer.VulkanRenderer.Init`: without a suitable device, the model stops after the device pick. The source carries on into calls on a null device, whose behaviour the driver decides.
- `Renderer.VulkanRenderer.RenderFrame` requires an image index below the image count. After a failed acquire, the source uses whatever `vkAcquireNextImageKHR` left in the index.
- `Renderer.VulkanRenderer.RecreateSwapChain` requires that the new image count is at most the number of uniform buffers. `recreateSwapChain` does not recreate uniform buffers or descriptor sets; with more images, the new command buffers would index past them.
- `Renderer.VulkanRenderer.StartFrame`: a wait on a reset fence that nothing will signal never returns in the source. The model returns `false` instead.
- `Renderer.VulkanRenderer.Cleanup` bounds the uniform buffer loop by the number of buffers created, not by the current image count (see Findings).
- `Input.InputManager.constructor` leaves the buffers' contents unspecified, as C++ leaves them indeterminate.
- `setMousePosition` and `getScrollAxis` only forward to the platform and are not modelled.
- Signed overflow of the `int` and `s32` counters is not modelled: counts are unbounded naturals. The exceptions are the `u32` conversions named in the table.
- `Overlay.Backend.NewFrame` copies the platform's key flags for every `Key`. ImGui's own `KeysDown` array size, the mouse wheel (`io.MouseWheel`), the cursor visibility call, the delta time and the framebuffer scale are not modelled.
- `Overlay.Render` does not model the projection matrix, `malloc` and `free`, or what the render context does with the calls.
- `Overlay.Backend.CreateDeviceObjects` takes the render context's sampler to be non-null.
- `createFontsTexture` is modelled only as the last two objects `createDeviceObjects` creates. ImGui's `init`, `shutdown`, `invalidateDeviceObjects` (whose body is empty), the clipboard callbacks and `onTextInput` only configure ImGui or forward to it, and are not modelled.
- `game/memory.h` and `std.h` are not part of this model. `MEMORY_STORE_COUNT` is taken to be 3 (the three named blocks), and `Megabytes(n)` to be `n * 1024 * 1024`. `Startup.StoreSizes` and `Startup.LayoutMemory` also assume that the `blocks` array of the union lists the game, asset and frame blocks in that order, the order of the assignments in `main`.
- `Startup.LayoutMemory` does not model the 64-bit wrap of `u64 mem_total_size`. The allocation call and the `memset` are left out.
- `Startup.FlattenMesh` requires every `tinyobj` index to be in range. The loader can produce -1 for a missing texture coordinate, and the source then reads out of bounds.
- `GameHost.Host.HandleHotKeys` records the fullscreen toggle as one event. Whether `setWindowFullscreen(window, isWindowFullscreen(window))` actually changes the mode is the platform's business.
- `GameHost.Host`: the startup before the game is loaded (platform init, window creation, mesh loading, `renderer.init`, audio init) is modelled by the separate modules above, not as part of `Host`. The arguments passed to the game's entry points are not modelled.

## Findings

| source | as written | input that shows it | evidently intended | confidence | as-written member | corrected member |
|---|---|---|---|---|---|---|
| src/core/vulkan_renderer.cpp:280-286 | `extension_available` comes from `platform->alloc` (`SDL_malloc`) and is never cleared, so a mark can start out `true` | a device offering no extensions, when the allocated mark happens to hold `true`: the swapchain extension check passes | clear every mark before the search, so that the check passes exactly when every wanted extension is offered | medium, not executed | DeviceSelection.StaleMarkAcceptsMissingExtension | DeviceSelection.CheckDeviceExtensions |
| src/core/vulkan_renderer.cpp:1489-1492 | `cleanup` frees `uniform_buffers[i]` for `i < swap_image_count`, the current image count, although `init` created one buffer per image of the first swapchain | three buffers created, then a recreation with two images: the third buffer and its memory leak past `vkDestroyDevice`; with fewer buffers than images, the loop reads past the arrays | bound the loop by the number of uniform buffers created | medium, not executed | Lifecycle.CleanupAsWrittenLeaks | Renderer.VulkanRenderer.Cleanup |
| src/core/vulkan_renderer.cpp:171-174 | the extension array is allocated with `sizeof(const char *) * extension_count+1` bytes, which is one byte more than `extension_count` pointers, and then receives `extension_count + 1` pointers | a 64-bit build with SDL's two Win32 surface extensions: 17 bytes allocated, 24 written | allocate `sizeof(const char *) * (extension_count + 1)` bytes | high, not executed | DeviceSelection.ExtensionArrayOverrunAsWritten | DeviceSelection.ExtensionArrayFits |
