# MyVulkanEngine core, modelled in Dafny

This project models the parts of MyVulkanEngine, a C++ Vulkan renderer, that make decisions of their own. Everything the Vulkan driver does stays outside the model.

- **Frame graph.** Passes are registered, then compiled into render passes, each with one tracked image per attachment. Every frame, the passes are recorded in order, with an image-layout barrier wherever a tracked layout differs from the layout the pass needs.
- **Render-pass builder.** A role-indexed slot table gives each attachment a dense index in registration order. Subpass role lists are translated into attachment indices, there is one framebuffer per frame, and `recreate` rebuilds both.
- **Swapchain.** The rules that pick the surface format, present mode, extent and image count. The frame ring of in-flight fences and semaphores, with acquire, present, recreate and teardown, and the bound of at most `maxFramesInFlight` frames in flight.
- **Descriptor bookkeeping.**
  - The descriptor-pool allocator: used and free pool lists, LIFO reuse, and one retry on a new pool.
  - The layout cache: sort the bindings, look up, create on a miss; its key equality and hash.
  - The descriptor-set cache: a map with structural key equality and its hash.
  - The descriptor builder: a list of writes that are pointed at the new set once allocation succeeds.
- **Helpers.**
  - C-string de-duplication and union.
  - The mip-level count.
  - Device feature names and the requested feature chain.
  - Queue-family, extension and memory-type selection, and device-local memory size.
  - Physical-device choice, the logical device's queue set, and the default command pools with their teardown.

How the model is set up:

- **Handles.** Vulkan handles are natural numbers, with 0 as `VK_NULL_HANDLE`. `UINT32_MAX` is `0xFFFF_FFFF`.
- **Driver answers.** What a driver call returns (a `VkResult`, a new handle, the queue families, the heaps, the surface capabilities) is a parameter of the operation that calls it.
- **Objects.** Each source class whose fields change in place is a Dafny `class` with those fields. Its methods are proved against pure specification functions of the old state, for example `DescriptorAllocator.AllocateSpec`, `FrameGraph.FrameCommands`, `RenderPass.DescribeRenderPass` and `Features.RequestedChain`. The lemmas about those functions carry the properties.
- **VK_CHECK.** `VK_CHECK` is `Vk.Checked`: a call is good only when it returned `VK_SUCCESS`. Any other code is an `Err`, the model's form of the exception.
- **Bounds.** Integer widths are written out where they matter: `size_t` wrap-around in `GetDeviceVRAM_MB`, 32-bit shifts in the layout hash, 64-bit XOR hashes.

| module (file) | source |
|---|---|
| `Vk` (vk.dfy) | `VkResult`, handles, `VK_CHECK` |
| `MipMap` (mipmap.dfy) | engine/src/math/MipMap.cpp |
| `HelpersStd` (helpers_std.dfy) | engine/src/tool/HelpersStd.cpp |
| `Features` (features.dfy) | feature table and feature functions of engine/src/tool/HelpersVulkan.cpp and .hpp |
| `HelpersVulkan` (helpers_vulkan.dfy) | queue families, extensions, VRAM in engine/src/tool/HelpersVulkan.cpp |
| `Device` (device.dfy) | engine/src/render/Device.cpp |
| `RenderPass` (render_pass.dfy) | engine/src/render/RenderPass.cpp and .hpp |
| `FrameGraph` (frame_graph.dfy) | engine/src/render/FrameGraph.cpp and .hpp |
| `SwapChain` (swap_chain.dfy) | engine/src/render/SwapChain.cpp and .hpp |
| `DescriptorAllocator`, `DescriptorLayoutCache`, `DescriptorSetCache`, `DescriptorBuilder` | engine/src/render/descriptor/ |

## Model

| member | source | states |
|---|---|---|
| MipMap.CalcNumMipLevels | engine/src/math/MipMap.cpp:4-12 | the loop's count equals the bit length of the larger side (the reference `MipLevels`), is at most 32 for 32-bit sizes, and is 0 exactly for a 0 x 0 image |
| MipMap.BitLengthBrackets | engine/src/math/MipMap.cpp:7-10 | the number of halvings to reach zero places a positive size between 2^(n-1) and 2^n - 1 |
| MipMap.MipLevelsZero | engine/src/math/MipMap.cpp:5-11 | the chain is empty if and only if both sides are zero |
| MipMap.MipLevelsBounded | engine/src/math/MipMap.cpp:4-12 | sides that fit in uint32_t give at most 32 levels |
| MipMap.MipLevelsBracket | engine/src/math/MipMap.cpp:6-11 | the smallest level still has one texel on the larger side: 2^(levels-1) <= max(w, h) < 2^levels |
| MipMap.MipLevelsMonotone | engine/src/math/MipMap.cpp:6 | growing a side never shortens the chain, and the count is symmetric in width and height |
| MipMap.MipLevelsExamples | engine/src/math/MipMap.cpp:4-12 | 1x1 gives 1 level, 1024x512 gives 11, 0x7 gives 3 |
| HelpersStd.DeduplicateVectorCstring | engine/src/tool/HelpersStd.cpp:4-18 | the loop returns the first occurrence of every non-null text in input order (`Deduplicated`), with no text twice, the same set of texts as the input, and no more entries than the input |
| HelpersStd.FreshProperties | engine/src/tool/HelpersStd.cpp:9-15 | filtering against a seen-set keeps only input entries, with distinct texts, exactly the input's texts not already seen |
| HelpersStd.FreshIsFirstOccurrences | engine/src/tool/HelpersStd.cpp:9-15 | the filter keeps exactly the entries that are the first non-null occurrence of their text and were not seen before (an independent characterisation) |
| HelpersStd.FreshOfDistinct | engine/src/tool/HelpersStd.cpp:9-15 | a list with distinct non-null texts, none seen, passes through unchanged |
| HelpersStd.DeduplicatedIdempotent | engine/src/tool/HelpersStd.cpp:4-18 | deduplicating twice is deduplicating once |
| HelpersStd.DeduplicatedKeepsFirstOccurrences | engine/src/tool/HelpersStd.cpp:4-18 | the result is the list of first occurrences of each text |
| HelpersStd.CollectTexts | engine/src/tool/HelpersStd.cpp:22-27 | the seen-set built from dest is exactly the texts of its non-null entries |
| HelpersStd.AppendFresh | engine/src/tool/HelpersStd.cpp:30-36 | the loop appends to dest exactly the src entries whose text is neither in dest nor earlier in src |
| HelpersStd.InsertUniqueCStrings | engine/src/tool/HelpersStd.cpp:20-37 | dest keeps its entries as a prefix; the texts afterwards are dest's plus src's; every appended entry is non-null and new to dest |
| HelpersStd.InsertedUniqueNoNew | engine/src/tool/HelpersStd.cpp:30-36 | inserting texts dest already has leaves dest unchanged |
| Vk.Checked | engine/include/tool/HelpersVulkan.hpp:9-19 | a wrapped call yields its value exactly when it returned VK_SUCCESS, and an error otherwise |
| Features.LookupFinds | engine/src/tool/HelpersVulkan.cpp:244-249 | the row found by name comes from the table and carries that name; no row is found exactly when the name is not in the table |
| Features.HasFeatureReadsOwnMember | engine/src/tool/HelpersVulkan.cpp:272-435 | HasFeature is true exactly for a known name whose own member, in its own structure, is set; it is false for any name outside the table |
| Features.Set | engine/src/tool/HelpersVulkan.cpp:252-265 | setting one flag sets that flag of that structure and changes no other flag |
| Features.BuildRequiredFeatureChain | engine/src/tool/HelpersVulkan.cpp:231-269 | the loop computes the chain `RequestedChain`: one step per requested name, unknown names skipped |
| Features.RequestedChainIsSet | engine/src/tool/HelpersVulkan.cpp:231-269 | a flag is set in the built chain exactly when a requested known name designates it and the device has it |
| Features.RequestedChainHas | engine/src/tool/HelpersVulkan.cpp:231-269 | a feature is in the built chain exactly when it was requested and the device has it |
| Features.RequestedChainPrefix | engine/src/tool/HelpersVulkan.cpp:241-267 | one more requested name adds exactly one step to the chain |
| Features.EnabledNamesMember | engine/src/tool/HelpersVulkan.cpp:206-212 | a name is listed exactly when it is in the name list and its flag is set |
| Features.GetPhysicalDeviceFeaturesName | engine/src/tool/HelpersVulkan.cpp:206-212 | `out` is kept and followed, in table order, by exactly the known names whose flag is set |
| Features.FilterRequiredFeatures | engine/src/tool/HelpersVulkan.cpp:191-204 | the result is exactly the requested names that are known |
| Features.CheckFeatureSupport | engine/src/tool/HelpersVulkan.cpp:157-189 | true exactly when every requested known feature is available; unknown names do not count as missing |
| Features.EraseAll | engine/src/tool/HelpersVulkan.cpp:177-178 | the missing set is the required set minus every available name |
| HelpersVulkan.FirstFamily | engine/src/tool/HelpersVulkan.cpp:47-74 | the result is the least family index that has the bit (and can present, when asked), or none when no family qualifies |
| HelpersVulkan.FindQueueFamilyIndices | engine/src/tool/HelpersVulkan.cpp:42-79 | the loop, with its early stop, picks for each role the first qualifying family (`ExpectedQueueFamilies`); graphics and present are found together at one index; an unfound role keeps UINT32_MAX |
| HelpersVulkan.FirstFamilyExtend | engine/src/tool/HelpersVulkan.cpp:47-74 | scanning one more family keeps an earlier match, or takes the new family when it is the first that qualifies |
| HelpersVulkan.RoleStep | engine/src/tool/HelpersVulkan.cpp:53-74 | one iteration keeps each role equal to the first match among the families scanned so far |
| HelpersVulkan.RoleAfterScan | engine/src/tool/HelpersVulkan.cpp:75 | stopping at the end, or early once a role is found, leaves that role at the first match over all families |
| HelpersVulkan.MinimalSupportGivesGraphics | engine/src/tool/HelpersVulkan.cpp:81-97 | a device passing the minimal check gets a complete graphics/present pair from FindQueueFamilyIndices |
| HelpersVulkan.CheckQueueFamilyMinimalSupport | engine/src/tool/HelpersVulkan.cpp:81-97 | true exactly when the first graphics family can present; then some graphics family can present |
| HelpersVulkan.FirstFamilyIs | engine/src/tool/HelpersVulkan.cpp:87-89 | the first family with the bit, preceded by none, is the first match |
| HelpersVulkan.CheckExtensionSupport | engine/src/tool/HelpersVulkan.cpp:125-155 | true exactly when every required extension is among the available ones |
| HelpersVulkan.GetDeviceVRAM_MB | engine/src/tool/HelpersVulkan.cpp:29-40 | the result is the size_t-wrapped sum of the device-local heap sizes divided by 1 MiB; when the true sum fits in size_t, the result is that sum in whole MiB, rounded down |
| HelpersVulkan.NoWrapBelowModulus | engine/src/tool/HelpersVulkan.cpp:33-37 | when the true sum fits in size_t, the wrapping sum equals it |
| HelpersVulkan.DeviceLocalBytesIgnoresHostHeaps | engine/src/tool/HelpersVulkan.cpp:35 | a heap without the device-local bit does not count, whether it comes first or last |
| HelpersVulkan.HostHeapFirst | engine/src/tool/HelpersVulkan.cpp:35 | a leading heap without the device-local bit does not count |
| Device.FirstMemoryType | engine/src/render/Device.cpp:197-202 | the result is the least index from i whose type bit is allowed and whose flags include every requested property; none exactly when no such index exists |
| Device.FindMemoryType | engine/src/render/Device.cpp:197-202 | the loop returns the first suitable memory type; it fails (the exception) exactly when no type below memoryTypeCount is suitable |
| Device.FirstMemoryTypeAtMost | engine/src/render/Device.cpp:198-199 | any suitable type at or after i bounds the first one found from i |
| Device.FirstMemoryTypeRelaxed | engine/src/render/Device.cpp:198-199 | asking for a subset of the property flags still finds a type, and never a later one |
| Device.FlagsSubset | engine/src/render/Device.cpp:199 | flags that include props include every subset of props |
| Device.SelectPhysicalDevice | engine/src/render/Device.cpp:81-100 | on success the kept device passes the extension, feature and queue checks, has a non-negative score that no passing device beats, and beats every passing device before it; it fails exactly when every passing device scores below 0 |
| Device.ChosenIsUnique | engine/src/render/Device.cpp:83-99 | at most one device meets that choice rule, so the first of the best-scoring devices is kept |
| Device.ChosenHasGraphicsAndPresent | engine/src/render/Device.cpp:92 | the chosen device has a graphics family that can present, so the constructor's graphics lookup succeeds |
| Device.SetInsert | engine/src/render/Device.cpp:110-115 | inserting into an ordered set keeps it ordered, adds exactly the new element, and grows it only when the element is new |
| Device.InsertAll | engine/src/render/Device.cpp:107-115 | inserting several elements keeps the set strictly increasing |
| Device.InsertAllMembers | engine/src/render/Device.cpp:107-115 | the set then holds exactly its old elements and the inserted ones, no more entries than both together |
| Device.UniqueFamiliesMembers | engine/src/render/Device.cpp:107-115 | uniqueFamilies holds the graphics family and every found present, compute and transfer family, each once, in ascending order: one to four entries |
| Device.QueueInfosForEntries | engine/src/render/Device.cpp:118-127 | one queue info per family, in set order, each asking for one queue of that family |
| Device.MakeQueueCreateInfos | engine/src/render/Device.cpp:118-127 | the loop builds exactly those queue infos |
| Device.CStrNames | engine/src/render/Device.cpp:130 | the names the feature chain reads are exactly the texts of the non-null entries |
| Device.Handles | engine/src/render/Device.cpp:255-263 | the k-th pool created is handle k + 1 |
| Device.ExpectedPoolsAgree | engine/src/render/Device.cpp:27-51 | a pool exists exactly for the roles whose family was found; each names a pool created for its family with its flags (transient and reset for three, none for the static transfer pool); the destructor visits each created pool once, in creation order |
| Device.Device.constructor | engine/src/render/Device.cpp:6-13 | the requested extension and feature names are merged into the defaults without duplicates; every handle starts as VK_NULL_HANDLE |
| Device.Device.PickPhysicalDevice | engine/src/render/Device.cpp:81-103 | the device is chosen by the selection rule over the merged extension and feature sets, and its features are queried; an error exactly when no passing device scores 0 or more |
| Device.Device.CreateLogicalDevice | engine/src/render/Device.cpp:105-157 | vkCreateDevice receives one queue per distinct family, the requested feature chain behind a memory-priority struct with memoryPriority set, and the merged extension list; it succeeds exactly when the driver returns VK_SUCCESS |
| Device.Device.CreateCommandPool | engine/src/render/Device.cpp:255-263 | one pool is created, for the given family and flags |
| Device.Device.CreateDefaultPools | engine/src/render/Device.cpp:27-51 | afterwards the pools are exactly those the constructor creates for the families found |
| Device.Device.SetUpQueues | engine/src/render/Device.cpp:17-51 | memory types and queue families are taken from the chosen device; on success the device handle is set and the pools match the families |
| Device.Device.CreateLogicalDeviceAndPools | engine/src/render/Device.cpp:22-51 | the pools are created only after vkCreateDevice succeeded |
| Device.Device.Destroy | engine/src/render/Device.cpp:54-79 | every live pool is destroyed once, in field order, then the device; every handle ends as VK_NULL_HANDLE |
| Device.DestroyIfLive | engine/src/render/Device.cpp:55-58 | a handle is destroyed only when it is not VK_NULL_HANDLE, and is nulled |
| Device.CreateDevice | engine/src/render/Device.cpp:6-52 | a constructed device holds the merged names, the chosen physical device, a complete graphics/present pair with a graphics pool, and pools that match its families; it fails exactly when vkCreateDevice fails or every device passing the merged requirements scores below 0 |
| Device.Device.PickAndSetUp | engine/src/render/Device.cpp:15-51 | the chosen device by the selection rule, its queue families, the device handle and matching pools; an error exactly when vkCreateDevice fails or no passing device scores 0 or more |
| RenderPass.RoleIndex | engine/include/render/RenderPass.hpp:13-31 | every role but Count has a slot of the role-indexed array; Invalid is slot 16 |
| RenderPass.RoleIndexInjective | engine/include/render/RenderPass.hpp:13-31 | distinct roles occupy distinct slots |
| RenderPass.BoundSlotsAtMost | engine/src/render/RenderPass.cpp:165-171 | no more slots are bound than there are slots |
| RenderPass.BoundSlotsBind | engine/src/render/RenderPass.cpp:168-169 | binding a free slot adds one bound slot |
| RenderPass.BoundSlotsNone | engine/src/render/RenderPass.cpp:161-163 | a map of free slots has no bound slot |
| RenderPass.Builder.constructor | engine/src/render/RenderPass.cpp:161-163 | the builder starts with no attachments and every slot at UINT32_MAX |
| RenderPass.Builder.AddAttachment | engine/src/render/RenderPass.cpp:165-172 | a role with a free slot gets the next dense index and its attachment is appended; the map keeps agreeing with the attachment list |
| RenderPass.Builder.AddSubpass | engine/src/render/RenderPass.cpp:174-177 | the subpass is appended as given |
| RenderPass.Builder.AddDependency | engine/src/render/RenderPass.cpp:179-182 | the dependency is appended as given |
| RenderPass.Builder.GetAttachmentIndex | engine/src/render/RenderPass.cpp:184-186 | a bound role's index names the attachment registered with that role; UINT32_MAX exactly when no attachment has the role |
| RenderPass.Builder.Build | engine/src/render/RenderPass.cpp:188-194 | the render pass gets the builder's create-info and index map, and one framebuffer per view set |
| RenderPass.GBufferIndices | engine/src/render/pass/GBufferPass.cpp:16-65 | position, normal, albedo and depth registered in that order get indices 0, 1, 2 and 3 |
| RenderPass.MapRoles | engine/src/render/RenderPass.cpp:89 | the role loop maps each role, in order, to its slot's index |
| RenderPass.TranslateSubpass | engine/src/render/RenderPass.cpp:84-113 | one subpass description per SubpassInfo, with color, input, resolve, preserve and depth parts |
| RenderPass.TranslateRenderPass | engine/src/render/RenderPass.cpp:62-121 | the create-info holds the attachment descriptions in order, one description per subpass and the dependencies as given |
| RenderPass.IndicesOfRefersToRoles | engine/src/render/RenderPass.cpp:89-107 | each translated index names the attachment registered with that role, or is UINT32_MAX (VK_ATTACHMENT_UNUSED) for an unbound role; length and order are kept |
| RenderPass.SubpassForOptionalParts | engine/src/render/RenderPass.cpp:97-110 | a resolve list exactly when resolve roles were given; a depth reference exactly when the depth role is not Invalid, in depth-stencil layout |
| RenderPass.MakeFramebuffers | engine/src/render/RenderPass.cpp:141-154 | one framebuffer per view set, in order, each for this render pass and extent |
| RenderPass.RenderPass.constructor | engine/src/render/RenderPass.cpp:9-22 | the member initialisers store the create-info, index map, extent, views, fences and frame |
| RenderPass.RenderPass.CreateRenderPass | engine/src/render/RenderPass.cpp:62-128 | vkCreateRenderPass receives the translated description; the handle is set exactly when it returns VK_SUCCESS |
| RenderPass.RenderPass.CleanupRenderPass | engine/src/render/RenderPass.cpp:130-135 | a non-null render pass is destroyed once and nulled |
| RenderPass.RenderPass.CreateResources | engine/src/render/RenderPass.cpp:137-159 | the old framebuffers are dropped and replaced by one per view set, made for the current render pass at the current extent, so the framebuffers are in step with the pass (`Valid`) |
| RenderPass.RenderPass.Recreate | engine/src/render/RenderPass.cpp:33-44 | only the current frame's fence is waited for and reset; the old render pass is destroyed; the new views and extent are taken; on success the render pass and its framebuffers are rebuilt, on failure none is left; either way the framebuffers stay in step with the pass (`Valid`) |
| RenderPass.RenderPass.Begin | engine/src/render/RenderPass.cpp:46-56 | begin records the render pass, the framebuffer built for image `imageIndex` from that image's views with this render pass at the current extent, the full render area and the clear-value count |
| RenderPass.NewRenderPass | engine/src/render/RenderPass.cpp:9-26 | a constructed render pass holds its inputs, the driver's handle for the translated description, and one framebuffer per view set; a failed vkCreateRenderPass means none |
| FrameGraph.SeedImages | engine/src/render/FrameGraph.cpp:59-63 | one tracked image per attachment, in attachment order, holding that frame's view and the attachment's initial layout |
| FrameGraph.CompilePasses | engine/src/render/FrameGraph.cpp:42-65 | the passes are rebuilt in order, each with a new render pass for the current extent and seeded images; the first failing vkCreateRenderPass stops the loop, leaving the passes before it rebuilt and the rest as they were |
| FrameGraph.EmitBarriers | engine/src/render/FrameGraph.cpp:93-116 | the barrier loop emits exactly the barriers `PassBarriers` describes |
| FrameGraph.SettleImages | engine/src/render/FrameGraph.cpp:123-125 | every tracked image ends in its attachment's final layout, handles kept |
| FrameGraph.RecordPass | engine/src/render/FrameGraph.cpp:88-126 | one pass records its barriers (none for pass 0), begin, its callback and end, then settles its images |
| FrameGraph.RecordPassList | engine/src/render/FrameGraph.cpp:77-126 | the whole loop records every pass's commands in registration order and leaves every pass settled |
| FrameGraph.FrameGraph.constructor | engine/src/render/FrameGraph.cpp:7-10 | a new graph is dirty, has no passes, a null command buffer and image index 0 |
| FrameGraph.FrameGraph.AddPass | engine/src/render/FrameGraph.cpp:14-23 | one uncompiled pass is appended, the graph becomes dirty, and the pass's index is returned |
| FrameGraph.FrameGraph.BeginFrame | engine/src/render/FrameGraph.cpp:25-30 | the extent, command buffer and image index are stored |
| FrameGraph.FrameGraph.Compile | engine/src/render/FrameGraph.cpp:32-40 | a clean graph is left alone; a dirty one has every pass rebuilt with the driver's render pass and one framebuffer per view set, and becomes clean only when every creation succeeded |
| FrameGraph.FrameGraph.EndFrame | engine/src/render/FrameGraph.cpp:67-126 | with no passes or no command buffer nothing is recorded; otherwise, every pass being compiled, the frame's commands are appended and every image is settled |
| FrameGraph.PassBarriersSound | engine/src/render/FrameGraph.cpp:93-106 | every barrier of a pass is the one for its attachment, from the tracked layout to the required one, and only where they differ |
| FrameGraph.PassBarriersComplete | engine/src/render/FrameGraph.cpp:96 | every attachment whose tracked layout differs from the required one gets its barrier |
| FrameGraph.FrameCommandsSound | engine/src/render/FrameGraph.cpp:77-126 | every recorded command belongs to a registered pass; barriers come only from passes after the first |
| FrameGraph.FrameCommandsContain | engine/src/render/FrameGraph.cpp:77-126 | every command of each pass occurs among the commands recorded for the frame |
| FrameGraph.FirstPassNoBarrier | engine/src/render/FrameGraph.cpp:77-81 | pass 0 never gets a barrier |
| FrameGraph.BarriersAreColor | engine/src/render/FrameGraph.cpp:106 | every barrier has the color aspect |
| FrameGraph.BarrierIff | engine/src/render/FrameGraph.cpp:93-106 | for pass i > 0, a barrier for attachment a is recorded exactly when its tracked layout differs from the required one, and it then carries the image, the tracked layout as old and the required layout as new |
| FrameGraph.FirstFrameNoBarriers | engine/src/render/FrameGraph.cpp:59-63 | the first frame after a compile records no barrier |
| FrameGraph.CompiledAtInitialLayouts | engine/src/render/FrameGraph.cpp:59-63 | a compiled pass tracks one image per attachment, each in its initial layout |
| FrameGraph.LaterFrameBarrierIff | engine/src/render/FrameGraph.cpp:93-125 | on any later frame, pass i > 0 gets a barrier for attachment a exactly when that attachment's final layout is not its initial layout |
| FrameGraph.BegunPassesAppend | engine/src/render/FrameGraph.cpp:79 | the passes begun by two command runs are those of the first, then those of the second |
| FrameGraph.BarriersBeginNothing | engine/src/render/FrameGraph.cpp:108-114 | barriers begin no pass |
| FrameGraph.PassBeginsItself | engine/src/render/FrameGraph.cpp:119 | a pass begins itself and nothing else |
| FrameGraph.PassesBegunInOrder | engine/src/render/FrameGraph.cpp:77-126 | each endFrame begins every pass exactly once, in registration order |
| FrameGraph.PassEndsWithBeginExecuteEnd | engine/src/render/FrameGraph.cpp:119-121 | each pass's callback runs between its begin and its end |
| SwapChain.FirstAvailableCascade | engine/src/render/SwapChain.cpp:214-234 | looking through the preference list is the same as trying each preference in turn |
| SwapChain.FindFormat | engine/src/render/SwapChain.cpp:216-220 | one scan finds a format exactly when it is offered |
| SwapChain.ChooseFormat | engine/src/render/SwapChain.cpp:214-235 | the three scans and the fallback give the preferred format `PreferredFormat` |
| SwapChain.PreferredFormatPriority | engine/src/render/SwapChain.cpp:214-235 | HDR10/PQ if offered, else Display-P3, else B8G8R8A8_SRGB with sRGB, else the first format offered; the result is always an offered format |
| SwapChain.ChoosePresentMode | engine/src/render/SwapChain.cpp:237-260 | vsync gives FIFO; mailbox exactly when vsync is off and mailbox is offered; immediate exactly when vsync is off, mailbox is not offered, tearing is allowed and immediate is offered; otherwise FIFO |
| SwapChain.Clamp | engine/src/render/SwapChain.cpp:269-270 | std::clamp returns the value when it is in range, else the nearer bound |
| SwapChain.ChooseExtent | engine/src/render/SwapChain.cpp:263-273 | the surface's current extent unless its width is 0xFFFFFFFF; then the window extent clamped to the surface's bounds, per dimension |
| SwapChain.ImageCountBounds | engine/src/render/SwapChain.cpp:47-49 | with no maximum the count is the larger of 3 and the minimum; a non-zero maximum caps it; it lies within a non-empty [min, max] range; it is at least 3 unless the maximum is lower |
| SwapChain.RingStepsValid | engine/src/render/SwapChain.cpp:148-189 | acquire, present and a fence signal keep the frame ring well formed; acquire stays on its slot, touches only its own fence, blocks exactly when that fence is unsignaled, and resets it exactly when it returns VK_SUCCESS (the corrected acquire, see Findings) |
| SwapChain.SecondAcquireBlocks | engine/src/render/SwapChain.cpp:150-151 | after a successful acquire, a second one with no present between waits on the fence the first reset, so it blocks |
| SwapChain.AcquireAsWrittenStrandsFence | engine/src/render/SwapChain.cpp:150-160 | as written, every acquire, also one answered VK_ERROR_OUT_OF_DATE_KHR, leaves the slot's fence unsignaled, so not every fence is signaled and recreate's wait cannot return |
| SwapChain.FailedAcquireKeepsFences | engine/src/render/SwapChain.cpp:150-160 | corrected, an acquire not answered VK_SUCCESS leaves the ring as it was, so all fences signaled before stay signaled; on VK_SUCCESS it is the acquire as written |
| SwapChain.Presents | engine/src/render/SwapChain.cpp:187 | any number of presents keeps the ring well formed |
| SwapChain.PresentsAdvance | engine/src/render/SwapChain.cpp:187 | n presents, up to a full turn, move the ring n slots forward modulo the ring size, fences untouched |
| SwapChain.FullTurn | engine/src/render/SwapChain.cpp:187 | maxFramesInFlight presents bring the ring back to the same slot |
| SwapChain.SlotsDistinct | engine/src/render/SwapChain.cpp:187 | two frames of one turn of the ring use different slots |
| SwapChain.FramesAdvance | engine/src/render/SwapChain.cpp:150-187 | frame i of an acquire/present loop acquires on the slot that i presents lead to |
| SwapChain.FenceStaysReset | engine/src/render/SwapChain.cpp:150-151 | the fence the first frame reset stays unsignaled over frames in which the GPU finishes no work of that slot |
| SwapChain.FenceStaysSignaled | engine/src/render/SwapChain.cpp:150-151 | a fence signaled during a frame stays signaled while later frames acquire on other slots |
| SwapChain.FenceKeptSignaled | engine/src/render/SwapChain.cpp:150-151 | a signaled fence stays signaled while no frame acquires on its slot |
| SwapChain.FramesInFlightBound | engine/src/render/SwapChain.cpp:150-187 | at most maxFramesInFlight frames are in flight: maxFramesInFlight frames after frame k the ring is back on frame k's slot, and that acquire goes through exactly when the GPU finished frame k's slot in between |
| SwapChain.UnsignaledFramesNeverAllSignaled | engine/include/render/SwapChain.hpp:81-83 | as written nothing signals a fence again: after frames with no GPU signal, some fence stays unsignaled, so the destructor's wait (SwapChain.cpp:28, 87) cannot return |
| SwapChain.SubmittedFramesKeepFences | engine/include/render/SwapChain.hpp:81-83 | with each frame's submission signaling its own fence, frames leave the fences as they were, so an all-signaled ring stays all signaled and the waits return |
| SwapChain.FramesWithinTurnDoNotWait | engine/src/render/SwapChain.cpp:150-187 | the bound is reached: with every fence signaled, each of the next maxFramesInFlight acquires goes through even if the GPU finishes nothing |
| SwapChain.Resized | engine/src/render/SwapChain.cpp:117-119 | resizing keeps the existing handles and fills the rest with VK_NULL_HANDLE |
| SwapChain.MakeImageViews | engine/src/render/SwapChain.cpp:94-108 | one view per image; success exactly when every create succeeded, and then the views are the driver's handles; an error names a failing image |
| SwapChain.MakeSyncObjects | engine/src/render/SwapChain.cpp:125-131 | success exactly when every slot's three creates succeeded, and then each slot holds its two semaphores and its fence |
| SwapChain.SwapChain.Init | engine/src/render/SwapChain.cpp:8-18 | the member initialisers: no swapchain, no frames in flight, slot 0, empty lists |
| SwapChain.SwapChain.CreateSwapChain | engine/src/render/SwapChain.cpp:34-84 | vkCreateSwapchainKHR receives the chosen image count, format, colour space, present mode, extent, transform and old swapchain; on success the handle, the images and two frames in flight are taken; on failure nothing changes |
| SwapChain.SwapChain.CreateImageViews | engine/src/render/SwapChain.cpp:94-108 | one view per swapchain image; success exactly when every create succeeded |
| SwapChain.SwapChain.CleanupImageViews | engine/src/render/SwapChain.cpp:110-114 | every view is destroyed once and the list emptied |
| SwapChain.SwapChain.CreateSyncObjects | engine/src/render/SwapChain.cpp:116-132 | the three lists get one entry per slot, fences start signaled, and success holds exactly when every create succeeded |
| SwapChain.SwapChain.CleanupSyncObjects | engine/src/render/SwapChain.cpp:134-146 | every semaphore and fence is destroyed once and the lists emptied |
| SwapChain.SwapChain.AcquireNextImage | engine/src/render/SwapChain.cpp:148-162 | the current slot's fence is waited for; the acquire blocks exactly when the fence is unsignaled; otherwise it signals the slot's image-available semaphore and returns the driver's answer, and the fence is reset exactly when that answer is VK_SUCCESS (as corrected, see Findings) |
| SwapChain.SwapChain.SignalFence | engine/include/render/SwapChain.hpp:81-83 | not engine code: the submission these fences are declared for, which the class as written cannot receive (see Findings); the GPU finishing a slot's work signals that one fence, releasing the wait at SwapChain.cpp:150, and the ring stays well formed |
| SwapChain.SwapChain.PresentImage | engine/src/render/SwapChain.cpp:169-190 | the present waits on the slot's render-finished semaphore for the given image; the ring moves to the next slot whatever the result; waitValue has no effect |
| SwapChain.SwapChain.Build | engine/src/render/SwapChain.cpp:21-23 | swapchain, views and sync objects are created in turn, stopping at the first failure; success yields two signaled fences and the driver's handles |
| SwapChain.SwapChain.Recreate | engine/src/render/SwapChain.cpp:192-212 | the new extent and support are taken; on success views, sync objects and the old swapchain are destroyed, the chain is rebuilt and the ring restarts at slot 0 with all fences signaled; on failure the slot is unchanged |
| SwapChain.SwapChain.TearDown | engine/src/render/SwapChain.cpp:199-200 | views, then semaphores and fences, are destroyed and every list is emptied |
| SwapChain.SwapChain.Destroy | engine/src/render/SwapChain.cpp:27-32 | after waiting for every fence: views, sync objects and a non-null swapchain are destroyed once each |
| SwapChain.NewSwapChain | engine/src/render/SwapChain.cpp:8-25 | a constructed swapchain is valid, starts at slot 0 with both fences signaled, and holds the driver's swapchain, images and the chosen extent |
| DescriptorAllocator.DistinctAppend | engine/src/render/descriptor/DescriptorAllocator.cpp:36-39 | appending a pool the list does not hold keeps it free of repeats |
| DescriptorAllocator.DistinctPrefix | engine/src/render/descriptor/DescriptorAllocator.cpp:32-35 | a prefix of a list without repeats has none |
| DescriptorAllocator.GrabValid | engine/src/render/descriptor/DescriptorAllocator.cpp:30-40 | a grab keeps the bookkeeping invariant; with a pool free it hands out the most recently freed one and creates none; only with none free does it take the driver's new pool, exactly when the create succeeded; the pool handed out is then neither used nor free; a failed create changes nothing |
| DescriptorAllocator.GrabAndUseValid | engine/src/render/descriptor/DescriptorAllocator.cpp:44-46 | grabbing into the used list keeps the invariant and makes the grabbed pool current |
| DescriptorAllocator.StartValid | engine/src/render/descriptor/DescriptorAllocator.cpp:44-47 | grabbing when no pool is current keeps the invariant and leaves a pool current on success |
| DescriptorAllocator.StartKeepsFresh | engine/src/render/descriptor/DescriptorAllocator.cpp:44-47 | a pool new to the allocator before the first grab is still new after it |
| DescriptorAllocator.AttemptValid | engine/src/render/descriptor/DescriptorAllocator.cpp:48-65 | the retry's grab keeps the invariant |
| DescriptorAllocator.RetryReusesLastFree | engine/src/render/descriptor/DescriptorAllocator.cpp:30-62 | with a pool free, the retry runs on the most recently freed pool, creates none, and returns the retry's result |
| DescriptorAllocator.AllocateValid | engine/src/render/descriptor/DescriptorAllocator.cpp:42-66 | allocate keeps the invariant; on success a pool is current; every pool held was held before or created by this call |
| DescriptorAllocator.AllocateGrabs | engine/src/render/descriptor/DescriptorAllocator.cpp:42-66 | the first allocate after construction or reset grabs a pool; a fragmented or exhausted pool makes it grab exactly one more and return the second attempt's result, made on that new pool; the used list only grows at its end |
| DescriptorAllocator.PrefixOfPrefix | engine/src/render/descriptor/DescriptorAllocator.cpp:46 | a prefix of a prefix is a prefix |
| DescriptorAllocator.OtherFailureGrabsNothing | engine/src/render/descriptor/DescriptorAllocator.cpp:56-65 | any other failure is returned as it is, on the current pool, without grabbing a pool |
| DescriptorAllocator.ResetValid | engine/src/render/descriptor/DescriptorAllocator.cpp:68-75 | reset keeps the invariant and the number of pools, and leaves no pool used or current |
| DescriptorAllocator.ResetThenAllocateReusesLastUsed | engine/src/render/descriptor/DescriptorAllocator.cpp:30-35 | after reset the next allocate starts on the pool used last (grabPool is LIFO) without creating one |
| DescriptorAllocator.DestroyValid | engine/src/render/descriptor/DescriptorAllocator.cpp:77-88 | destroyAll leaves a valid, empty allocator, and a second destroyAll changes nothing |
| DescriptorAllocator.MoveAll | engine/src/render/descriptor/DescriptorAllocator.cpp:69-72 | reset's loop appends every used pool, in order, to the free list |
| DescriptorAllocator.DescriptorAllocator.constructor | engine/src/render/descriptor/DescriptorAllocator.cpp:6-8 | a new allocator has no pools, no current pool and no pool sizes |
| DescriptorAllocator.DescriptorAllocator.SetPoolSizes | engine/src/render/descriptor/DescriptorAllocator.cpp:14-16 | later pools are created with the given sizes |
| DescriptorAllocator.DescriptorAllocator.CreatePool | engine/src/render/descriptor/DescriptorAllocator.cpp:18-28 | a pool with the free-descriptor-set flag, the given maxSets and the pool sizes is created; the call succeeds exactly when the driver returns VK_SUCCESS |
| DescriptorAllocator.DescriptorAllocator.GrabPool | engine/src/render/descriptor/DescriptorAllocator.cpp:30-40 | the result and the new bookkeeping are those of `Grab` (see GrabValid) |
| DescriptorAllocator.DescriptorAllocator.GrabAndUsePool | engine/src/render/descriptor/DescriptorAllocator.cpp:44-46 | as `GrabAndUse` |
| DescriptorAllocator.DescriptorAllocator.Allocate | engine/src/render/descriptor/DescriptorAllocator.cpp:42-66 | the outcome, the new bookkeeping and the pools tried are those of `AllocateSpec` (see AllocateValid, AllocateGrabs); the set is the driver's exactly on success |
| DescriptorAllocator.DescriptorAllocator.StartPool | engine/src/render/descriptor/DescriptorAllocator.cpp:44-47 | as `Start` |
| DescriptorAllocator.DescriptorAllocator.TryAllocate | engine/src/render/descriptor/DescriptorAllocator.cpp:49-65 | as `Attempt` |
| DescriptorAllocator.DescriptorAllocator.Reset | engine/src/render/descriptor/DescriptorAllocator.cpp:68-75 | every used pool is reset, in order, and becomes free; nothing is current |
| DescriptorAllocator.DescriptorAllocator.DestroyAll | engine/src/render/descriptor/DescriptorAllocator.cpp:77-88 | every used, then every free pool is destroyed once, and no pool is left |
| DescriptorLayoutCache.KeyOf | engine/src/render/descriptor/DescriptorLayoutCache.cpp:46-57 | the key of a binding list has one entry per binding, in order, holding the four fields equality compares |
| DescriptorLayoutCache.Insert | engine/src/render/descriptor/DescriptorLayoutCache.cpp:20-23 | inserting into a sorted list keeps it sorted and adds exactly the new binding |
| DescriptorLayoutCache.ConsSorted | engine/src/render/descriptor/DescriptorLayoutCache.cpp:20-23 | a binding not above the head of a sorted list extends it sorted |
| DescriptorLayoutCache.SortByBinding | engine/src/render/descriptor/DescriptorLayoutCache.cpp:20-23 | the sort orders the bindings by number and is a permutation of them |
| DescriptorLayoutCache.SortedPermutationsEqual | engine/src/render/descriptor/DescriptorLayoutCache.cpp:20-23 | two sorted orderings of the same bindings with distinct numbers are the same list |
| DescriptorLayoutCache.SameHead | engine/src/render/descriptor/DescriptorLayoutCache.cpp:20-23 | both such orderings start with the binding of least number |
| DescriptorLayoutCache.TailKeeps | engine/src/render/descriptor/DescriptorLayoutCache.cpp:20-23 | dropping the head keeps a list sorted and free of repeated numbers |
| DescriptorLayoutCache.MultisetTail | engine/src/render/descriptor/DescriptorLayoutCache.cpp:20-23 | permutations with the same head have permuted tails |
| DescriptorLayoutCache.PermutationsShareKey | engine/src/render/descriptor/DescriptorLayoutCache.cpp:15-27 | permutations of a request with distinct binding numbers sort to the same list and the same key |
| DescriptorLayoutCache.SortKeepsDistinct | engine/src/render/descriptor/DescriptorLayoutCache.cpp:20-23 | sorting keeps binding numbers distinct |
| DescriptorLayoutCache.SameBindingPositions | engine/src/render/descriptor/DescriptorLayoutCache.cpp:20-23 | a repeated number in a permutation comes from a repeated number in the original |
| DescriptorLayoutCache.TwoPlacesCount | engine/src/render/descriptor/DescriptorLayoutCache.cpp:20-23 | a binding at two places occurs at least twice |
| DescriptorLayoutCache.CountTwoPlaces | engine/src/render/descriptor/DescriptorLayoutCache.cpp:20-23 | a binding occurring at least twice sits at two places |
| DescriptorLayoutCache.KeysEqual | engine/src/render/descriptor/DescriptorLayoutCache.cpp:46-57 | operator== is true exactly when the lengths agree and, place by place, binding, type, count and stage flags agree (immutable samplers are not compared) |
| DescriptorLayoutCache.Hash | engine/src/render/descriptor/DescriptorLayoutCache.cpp:59-67 | the loop computes `LayoutHash`: the size XORed with each binding's 32-bit mix of number, type, count and flags |
| DescriptorLayoutCache.EqualKeysHashEqual | engine/src/render/descriptor/DescriptorLayoutCache.cpp:46-67 | lists that operator== calls equal hash equally, as std::unordered_map requires |
| DescriptorLayoutCache.XorFoldReadsKeys | engine/src/render/descriptor/DescriptorLayoutCache.cpp:62-65 | the hash reads only the four key fields of each binding |
| DescriptorLayoutCache.NextEqualRequestHits | engine/src/render/descriptor/DescriptorLayoutCache.cpp:15-37 | a layout stored for a request answers every later request that sorts to an equal key, here every permutation with distinct numbers |
| DescriptorLayoutCache.DescriptorLayoutCache.constructor | engine/src/render/descriptor/DescriptorLayoutCache.cpp:7-9 | a new cache is empty |
| DescriptorLayoutCache.DescriptorLayoutCache.CreateOrGetLayout | engine/src/render/descriptor/DescriptorLayoutCache.cpp:15-37 | a hit returns the cached layout and changes nothing; a miss creates a layout from the sorted bindings, succeeding exactly when the driver returns VK_SUCCESS, and only then stores it under the key |
| DescriptorLayoutCache.DescriptorLayoutCache.DestroyAll | engine/src/render/descriptor/DescriptorLayoutCache.cpp:39-44 | every cached layout is destroyed exactly once and the cache is emptied |
| DescriptorSetCache.KeysEqual | engine/src/render/descriptor/DescriptorSetCache.cpp:25-44 | operator== compares every field of every info, so it is true exactly when the keys are equal |
| DescriptorSetCache.Hash | engine/src/render/descriptor/DescriptorSetCache.cpp:46-62 | the loops compute `KeyHash`: from 0, each buffer info's three fields, then each image info's three fields, XORed in with shifts 0, 1 and 2 |
| DescriptorSetCache.HashBuffers | engine/src/render/descriptor/DescriptorSetCache.cpp:49-53 | the buffer loop folds every buffer info in order |
| DescriptorSetCache.HashImages | engine/src/render/descriptor/DescriptorSetCache.cpp:55-59 | the image loop folds every image info in order |
| DescriptorSetCache.RetrieveLastStored | engine/src/render/descriptor/DescriptorSetCache.cpp:14-23 | after a series of stores, retrieve returns the set of the last store with an equal key |
| DescriptorSetCache.RetrieveNeverStored | engine/src/render/descriptor/DescriptorSetCache.cpp:18-23 | retrieve of a key never stored is VK_NULL_HANDLE |
| DescriptorSetCache.StoreAffectsOnlyItsKey | engine/src/render/descriptor/DescriptorSetCache.cpp:14-16 | a store changes retrieve for its own key only, and a later store on that key overwrites it |
| DescriptorSetCache.DescriptorSetCache.constructor | engine/src/render/descriptor/DescriptorSetCache.cpp:5-7 | a new cache is empty |
| DescriptorSetCache.DescriptorSetCache.Store | engine/src/render/descriptor/DescriptorSetCache.cpp:14-16 | the key now retrieves the set; every other key retrieves what it did |
| DescriptorSetCache.DescriptorSetCache.Retrieve | engine/src/render/descriptor/DescriptorSetCache.cpp:18-23 | a key not in the cache gives VK_NULL_HANDLE |
| DescriptorBuilder.WritesReferToOwnInfo | engine/src/render/descriptor/DescriptorBuilder.cpp:16-50 | after any series of binds there is one write per call, in order; write k binds call k's binding with one descriptor of its type and designates exactly the info call k passed |
| DescriptorBuilder.PatchDstSet | engine/src/render/descriptor/DescriptorBuilder.cpp:60-61 | every write gets the new set as dstSet and nothing else changes |
| DescriptorBuilder.DescriptorBuilder.constructor | engine/src/render/descriptor/DescriptorBuilder.cpp:6-14 | a new builder holds its allocator and layout and no writes |
| DescriptorBuilder.DescriptorBuilder.BindBuffer | engine/src/render/descriptor/DescriptorBuilder.cpp:16-32 | the buffer info is appended and one write of one descriptor referring to it is appended |
| DescriptorBuilder.DescriptorBuilder.BindImage | engine/src/render/descriptor/DescriptorBuilder.cpp:34-50 | the image info is appended and one write of one descriptor referring to it is appended |
| DescriptorBuilder.DescriptorBuilder.Build | engine/src/render/descriptor/DescriptorBuilder.cpp:52-71 | the allocator runs `AllocateSpec`; on anything but success the writes stay and nothing is submitted; on success every write points at the new set and all are submitted |
| DescriptorBuilder.FullVectorDanglesEarlierWrites | engine/src/render/descriptor/DescriptorBuilder.cpp:21-28 | a bindBuffer on a full vector leaves every earlier write's pBufferInfo dangling |
| DescriptorBuilder.SecondBindBufferDangles | engine/src/render/descriptor/DescriptorBuilder.cpp:21-28 | from a new builder, the second bindBuffer leaves the first write dangling (bindImage at lines 39-46 is the same) |

## Left out

- **Driver work.** GPU execution, the Vulkan and VMA calls themselves, and the signalling that queue submissions do are not modelled. A driver answer is a parameter. The swapchain's fences are private and no accessor hands them to a submit, so nothing in the engine can signal them; `SwapChain.SwapChain.SignalFence` models the submission that SwapChain.hpp:81 says must signal them (see Findings).
- **Driver queries.** These are inputs: `EnumeratePhysicalDevices`, `ScorePhysicalDevice` (the score is an input, because its anisotropy term is floating point), `QueryAllFeatures`, `QuerySwapChainSupport`, the queue-family and heap queries, and `vkGetSwapchainImagesKHR`.
- **Left out entirely:**
  - `Device::initializeVMA` and the VMA pools;
  - `createBuffer`, `allocateMemory`, `createVMABuffer` and the one-time command helpers;
  - the debug names from `setObjectName`;
  - the queue handles from `vkGetDeviceQueue`.
- **Out of scope:**
  - SyncManager, whose cross-thread waits and counter monotonicity belong to the driver and to concurrency;
  - GraphicsPipeline;
  - GBufferPass, apart from its attachment order (`RenderPass.GBufferIndices`);
  - VulkanInstance, the GLFW, KTX and STBI helpers, the game and test programs;
  - the RAII handle wrappers: Framebuffer, Image, ShaderModule, PipelineLayout, DescriptorSetLayout, CommandBuffer.
- **Barriers:**
  - their access masks and pipeline stages (`accessMaskForLayout`, `pipelineStageForLayout`) are not modelled;
  - a barrier is recorded as (pass, attachment, image, old layout, new layout, aspect).
- **Clear values and callbacks.** Clear values are kept as their count. Each record callback is identified by its pass's index.
- **Frame-graph image handles.** `compilePasses` calls `getFramebuffer(imageIndex_)->getImageHandle(a)` (FrameGraph.cpp:61). `RenderPass` declares no such members. The model takes the handle of attachment `a` to be the frame's view `views[imageIndex][a]`.
- FrameGraph.FrameGraph.EndFrame: requires every pass to be compiled when the command buffer is non-null. `recordPasses` calls `rp->begin` on each pass (FrameGraph.cpp:79, 119), and `rp` is null for a pass added after the last compile or left unbuilt by a failed one; the source then dereferences a null pointer, which the model does not describe.
- **Console output** is not modelled. With `VULKAN_PHYSICAL_DEVICE_INFO_CHECK` defined (HelpersVulkan.hpp:9) it comes from:
  - SwapChain.ChoosePresentMode: the messages that name the chosen mode (SwapChain.cpp:247, 252, 258);
  - Features.FilterRequiredFeatures: the warning for each ignored unknown name (HelpersVulkan.cpp:201), printed even without the macro;
  - HelpersVulkan.CheckExtensionSupport: the device header and the missing extensions (HelpersVulkan.cpp:134, 148-150);
  - Features.CheckFeatureSupport: the device header and the missing features (HelpersVulkan.cpp:168, 182-184);
  - Device.Device.CreateLogicalDevice: the success banner (Device.cpp:150-156).
- DescriptorLayoutCache.BindingHash: `descriptorType` is the enum `VkDescriptorType`, which promotes to `int`, so `descriptorType << 8` (DescriptorLayoutCache.cpp:62) is a signed shift that overflows for the extension values near 1000000000. That is undefined before C++20; the model takes the two's-complement 32-bit wrap that C++20 defines.
- **Unused code.**
  - `prev` (FrameGraph.cpp:89) is unused and does not appear in the model.
  - The frame-graph destructor and `RenderPass::end` only call the driver.
- **Render-pass code that does not compile as written.** `createRenderPass` stores `uint32_t` lists where Vulkan expects `VkAttachmentReference` arrays, and the constructor calls `createResources(views)` while the definition takes no argument. The model keeps the role-to-index lists and the views the constructor was given.
- **Render-pass asserts.** The source's `assert`s become preconditions: a role slot that exists and is free in `addAttachment`, and one non-null view per attachment in `createResources`.
- **Fences.**
  - An acquire whose fence is unsignaled is reported as `Blocked`, with the state unchanged.
  - The fence waits in `recreate` and the destructors are preconditions: every fence is signaled (`SwapChain.AllSignaled`).
  - Two acquires with no present between them: the second already waits on the fence the first one reset (`SwapChain.SecondAcquireBlocks`).
  - The swapchain's acquire is the corrected one of Findings: it resets the fence only on `VK_SUCCESS`. The acquire as written is `SwapChain.AcquireStepAsWritten`.
- **presentImage.** `waitValue` goes into a `VkTimelineSemaphoreSubmitInfo` that is never chained into the present info, so the model's present info has no such field.
- **Feature lists.** `ALL_VULKAN_FEATURE_NAMES`, `FEATURE_TABLE` and the comparison chain in `HasFeature` list the same 148 names in the same order. The model keeps one table and derives all three from it. A table row names exactly one structure member by construction.
- **Default initialisers.** The default `FrameGraphImage` (layout `UNDEFINED`), `SubpassInfo` and `QueueFamilyIndices` are constants of the model. The defaults `vsync = false` and `allowTearing = false` are the caller's arguments.
- **Hashing.** `std::hash` of a handle, an integer or an enum is the identity, as in libstdc++. The hash maps' bucket layout is not modelled: each cache is a Dafny `map` keyed by what the source's `operator==` compares.
- **Iteration order.** The order of the layout cache's `unordered_map` in `destroyAll` is unspecified, so `DescriptorLayoutCache.DescriptorLayoutCache.DestroyAll` states which layouts are destroyed and how many, not their order.
- **Set-cache ownership.** The descriptor-set cache does not own its sets and destroys nothing.
- **Numeric codes.** `VkImageLayout`, `VkDescriptorType`, load and store ops and stage flags are kept as numeric codes.
- **Device.Device.CreateCommandPool** does not model a failing `vkCreateCommandPool`. Pool creation is taken to succeed. The pools' `VK_CHECK` failure path is therefore not in `Device.Device.PickAndSetUp` or `Device.CreateDevice`.
- **DescriptorLayoutCache.PermutationsShareKey** holds only for requests whose binding numbers are distinct. `std::sort` fixes no order among equal numbers, so two permutations with a repeated number may sort to different keys.
- **Fresh pool handles.** The allocator lemmas (`DescriptorAllocator.GrabValid`, `DescriptorAllocator.AllocateValid` and the lemmas built on them) assume the driver hands out a new pool handle for each create. That is a property of the driver, not of this code.
- **Reallocation.** In the corrected `DescriptorBuilder` model, writes refer to infos by index. How the source stores pointers, and how reallocation invalidates them, is modelled separately: see Findings.

## Findings

| source | as written | input that shows it | evidently intended | confidence | as-written member | corrected member |
|---|---|---|---|---|---|---|
| engine/src/render/SwapChain.cpp:150-160 | `acquireNextImage` resets the slot's fence before `vkAcquireNextImageKHR`, whatever that returns | an acquire answered `VK_ERROR_OUT_OF_DATE_KHR` (or `VK_SUBOPTIMAL_KHR`): nothing is submitted, so nothing signals the reset fence; the caller must then call `recreate` (SwapChain.hpp:33-34, game.cpp:48-49), whose `waitForAllInFlightFences` (SwapChain.cpp:196) never returns | the fence is reset only once the acquire returned `VK_SUCCESS`, so a recreate after a failed acquire finds every fence signaled | not executed | SwapChain.AcquireAsWrittenStrandsFence | SwapChain.FailedAcquireKeepsFences |
| engine/include/render/SwapChain.hpp:81-83 | the in-flight fences are private, with no accessor (SwapChain.hpp:38-44) and no friend, though the comment says they must be signaled outside the class at submission; the engine's submits take a caller's fence (CommandBuffer.cpp:146) or none (Device.cpp:303) | game.cpp:42-46: an acquire answered `VK_SUCCESS` resets fence 0 and a present follows with no submit; `delete swapchain` (game.cpp:62) runs `~SwapChain`, whose `waitForAllInFlightFences` (SwapChain.cpp:28, 87) waits on fence 0 forever; `vkDeviceWaitIdle` (game.cpp:61) signals no fence | an accessor hands the current frame's fence to the submit, so each frame's work signals its own fence | not executed | SwapChain.UnsignaledFramesNeverAllSignaled | SwapChain.SubmittedFramesKeepFences |
| engine/src/render/descriptor/DescriptorBuilder.cpp:21-28 | each write stores `&bufferInfos_.back()`, a pointer into a vector that later `push_back`s may reallocate | two `bindBuffer` calls on a new builder: the second grows the vector from capacity 1 to 2, so the first write's `pBufferInfo` points into freed storage when `build` submits it | each write refers to the info its own bind call passed | not executed | DescriptorBuilder.SecondBindBufferDangles | DescriptorBuilder.WritesReferToOwnInfo |
