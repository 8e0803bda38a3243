# FourierEngine decision rules in Dafny

FourierEngine is a C++ game engine that renders through Vulkan. Several
renderer generations live side by side in its tree: `VulkanRenderer`,
`VRRTrenderer`, `VKRHI`, `VRHI`, the `RIV*` classes, the driver-style
`VulkanContext` with its `VulkanUtils.h`, and the v1.1 refactor. Each one
repeats the same small set of decisions:

- which device extensions and queue families to ask for;
- which surface format, present mode, extent and image count the swapchain gets;
- which memory type a resource is placed in;
- which image-layout transitions a texture may go through;
- how a `VkResult` is turned into a name.

The engine also keeps a few small registries: the window's user pointers
and resize callbacks, the global debug-watch map, the `System` property map,
and `Vector<T>::remove`.

This project models those rules and registries. The Vulkan queries become
plain inputs: queue-family properties, surface formats and present modes,
surface capabilities, memory types, and supported-extension maps. A thrown
exception becomes a `Fail` result. `uint32_t` is the subset type `U32`, and
its wrap-around is written out where the source relies on it
(`minImageCount + 1`, the cast of a signed window size). Where the code is a
loop that updates state, the model is a method with that loop, proved equal
to a specification function. The properties of that function are then proved
as lemmas.

Files and modules:

| file | module | models |
|---|---|---|
| `vk_types.dfy` | `VkTypes` | Vulkan enums and records used by the rules, integer casts, results |
| `queue_families.dfy` | `QueueFamilies` | the queue-family scan in all its variants |
| `swapchain_select.dfy` | `SwapchainSelect` | surface format, present mode, extent, image count, swapchain records |
| `memory_types.dfy` | `MemoryTypes` | `FindMemoryType` |
| `device_setup.dfy` | `DeviceSetup` | device extensions, layers and queue create infos |
| `texture_layout.dfy` | `TextureLayout` | layout transitions, texture creation, render-to-texture and frame contexts |
| `result_names.dfy` | `ResultNames` | the `VkResult` name table and its lookup |
| `aurora_typedef.dfy` | `AuroraTypedef` | `Vector<T>::remove` |
| `window.dfy` | `WindowSystem` | `Window` user pointers, resize callbacks and extent |
| `debug_watch.dfy` | `DebugWatch` | the global debug-watch map |
| `system_properties.dfy` | `SystemProperties` | the `System` property map |

Copies of one rule get a single Dafny member. Its row below cites one copy
and lists the others. Where copies behave differently, a parameter selects
the variant:

- `QueueFamilies.Rule` picks how a family qualifies:
  - `Renderer`: present support checks the total family count.
  - `Utils`: both roles need the family's own `queueCount > 0`.
- `TextureLayout.TransitionRules` picks the accepted transitions:
  - `RendererRules`: two transitions.
  - `ContextRules`: three transitions, all at `ALL_COMMANDS`.

## Model

| member | source | states |
|---|---|---|
| VkTypes.ToU32 | Engine/Source/Runtime/Render/Drivers/Vulkan/VulkanUtils.h:254 | `static_cast<uint32_t>` of an `int`: values in range are unchanged, a negative value gains 2^32 and a value above `UINT32_MAX` loses 2^32 (also the implicit conversion in Engine/Source/Runtime/Render/Private/RIVswapchain.cpp:55-66) |
| VkTypes.ToI32 | Engine/Source/Runtime/Window/Window.cpp:29 | `uint32_t` to `int`: unchanged up to `INT32_MAX`, negative by 2^32 above it, and converting back gives the original value |
| QueueFamilies.Step | Engine/Source/Runtime/Render/Vulkan/VulkanRenderer.cpp:69-77 | one loop iteration: each role takes the current index exactly when the family qualifies for that role under the rule, and keeps its old index otherwise (also Engine/Source/Runtime/Render/VRRTrenderer.cpp:69-83, Engine/Source/Runtime/Render/VKRHI.cpp:65-79, Engine/Source/Runtime/Render/VRHI.cpp:61-75, Engine/Source/Runtime/Render/Private/RIVdevice.cpp:41-55, Engine/Source/Runtime/Render/VkUtils.h:213-222) |
| QueueFamilies.LastQualifyingIsLastMatch | Engine/Source/Runtime/Render/Vulkan/VulkanRenderer.cpp:61-86 | the reference definition of a recorded index is the last qualifying family below the cut-off, or the start value when none qualifies |
| QueueFamilies.ScanStopsAtFirstCompletePrefix | Engine/Source/Runtime/Render/Vulkan/VulkanRenderer.cpp:79-82 | the scan's result is the reference value at the first prefix whose indices are both > 0, or at the whole list when no prefix is; no earlier prefix is complete (also Engine/Source/Runtime/Render/Drivers/Vulkan/VulkanUtils.h:161-162, Engine/Source/Runtime/Render/VkUtils.h:224-225, Refactor/v1.1/Engine/Source/Runtime/Render/Vulkan/VulkanContext.cpp:78-79) |
| QueueFamilies.ScanRecordsOnlyQualifying | Engine/Source/Runtime/Render/Vulkan/VulkanRenderer.cpp:69-77 | each recorded index is either the start value or an existing family that qualifies for that role: graphics needs `queueCount > 0` and the GRAPHICS bit, present needs surface support (also Engine/Source/Runtime/Render/Private/RIVdevice.cpp:43-44) |
| QueueFamilies.ZeroStartIndicesInRange | Engine/Source/Runtime/Render/VkUtils.h:111-114 | starting from the zero-initialised struct, both indices name an existing family whenever the device reports one (also Engine/Source/Runtime/Render/Drivers/Vulkan/VulkanUtils.h:97-100) |
| QueueFamilies.SingleFamilyNeverComplete | Engine/Source/Runtime/Render/Drivers/Vulkan/VulkanUtils.h:102-104 | on a device with one family the indices stay (0, 0) and are never complete, because index 0 does not count |
| QueueFamilies.RulesDifferOnEmptyPresentFamily | Engine/Source/Runtime/Render/Vulkan/VulkanRenderer.cpp:69-77 | the two rules differ on a surface-capable family with no queues: the renderers record it as present, while the variant of Engine/Source/Runtime/Render/Drivers/Vulkan/VulkanUtils.h:149-165 skips it |
| QueueFamilies.LaterFamilyOverwritesEarlier | Engine/Source/Runtime/Render/Drivers/Vulkan/VulkanUtils.h:149-165 | without an early stop, the last qualifying family wins: three graphics families give graphics index 2 |
| QueueFamilies.FindQueueFamilyIndices | Engine/Source/Runtime/Render/Vulkan/VulkanRenderer.cpp:61-86 | the loop with its `break` returns exactly the scan of the family list from the given start value |
| QueueFamilies.FindQueueFamilyIndicesUninitialised | Engine/Source/Runtime/Render/Private/RIVdevice.cpp:33-58 | the RIVdevice scan starts from whatever the uninitialised struct holds, and returns the scan from that value |
| QueueFamilies.UninitialisedStartLeaksOut | Engine/Source/Runtime/Render/Private/RIVdevice.h:49-52 | when no family qualifies, the uninitialised start value is returned and names a family that does not exist |
| QueueFamilies.QueueFamilyIndices.constructor | Engine/Source/Runtime/Render/Drivers/Vulkan/VulkanUtils.h:97-100 | a new indices struct holds (0, 0) |
| QueueFamilies.QueueFamilyIndices.FindInPlace | Engine/Source/Runtime/Render/Drivers/Vulkan/VulkanUtils.h:143-166 | the caller's struct is updated in place, without a reset, to the Utils-rule scan that starts from its old value (also Refactor/v1.1/Engine/Source/Runtime/Render/Vulkan/VulkanContext.cpp:60-83) |
| QueueFamilies.QueueFamilyIndices.FindFresh | Engine/Source/Runtime/Render/VkUtils.h:203-231 | the result written to the caller is the scan from a fresh zero struct, whatever the caller's struct held before |
| SwapchainSelect.ChosenSurfaceFormat | Engine/Source/Runtime/Render/Vulkan/VulkanRenderer.cpp:118-129 | the result is B8G8R8A8_UNORM/SRGB_NONLINEAR or `formats[0]`; it is one of the offered formats unless the list is a lone UNDEFINED; it is the preferred pair whenever that pair is offered |
| SwapchainSelect.SelectSwapSurfaceFormat | Engine/Source/Runtime/Render/Vulkan/VulkanRenderer.cpp:118-129 | the search loop returns exactly `ChosenSurfaceFormat` (also Engine/Source/Runtime/Render/VRRTrenderer.cpp:118-129, Engine/Source/Runtime/Render/VKRHI.cpp:114-125, Engine/Source/Runtime/Render/Private/RIVswapchain.cpp:26-37, Engine/Source/Runtime/Render/Drivers/Vulkan/VulkanUtils.h:197-211) |
| SwapchainSelect.BeastPreferredFormatAsWritten | Refactor/v1.1/Engine/Source/Runtime/Render/Vulkan/VulkanTypedef.h:57-67 | with the `size() == 0` guard, the refactored rule always returns an offered format, and returns the preferred pair whenever it is offered |
| SwapchainSelect.GetBeastPreferredSurfaceFormat | Refactor/v1.1/Engine/Source/Runtime/Render/Vulkan/VulkanTypedef.h:57-67 | the refactored search loop with its early return returns exactly `BeastPreferredFormatAsWritten` |
| SwapchainSelect.BeastFormatKeepsLoneUndefined | Refactor/v1.1/Engine/Source/Runtime/Render/Vulkan/VulkanTypedef.h:58-59 | for a lone UNDEFINED format the refactored rule returns UNDEFINED, where the other copies return B8G8R8A8_UNORM/SRGB_NONLINEAR |
| SwapchainSelect.ChosenFormatDefinedForAnyFormatSurface | Engine/Source/Runtime/Render/Vulkan/VulkanRenderer.cpp:119-120 | a surface that accepts any format never gets UNDEFINED as the chosen format |
| SwapchainSelect.PreferredPresentMode | Engine/Source/Runtime/Render/Vulkan/VulkanRenderer.cpp:132-144 | MAILBOX iff MAILBOX is offered; IMMEDIATE iff IMMEDIATE is offered and MAILBOX is not; FIFO iff neither is offered |
| SwapchainSelect.PreferredPresentModeIsBestRanked | Engine/Source/Runtime/Render/Vulkan/VulkanRenderer.cpp:132-144 | the chosen mode is offered (or is FIFO, which every surface supports), and no offered mode ranks above it in MAILBOX > IMMEDIATE > FIFO |
| SwapchainSelect.SelectSwapSurfacePresentMode | Engine/Source/Runtime/Render/Vulkan/VulkanRenderer.cpp:132-144 | the `bestMode` loop returns exactly `PreferredPresentMode` (also Engine/Source/Runtime/Render/VRRTrenderer.cpp:132-144, Engine/Source/Runtime/Render/VKRHI.cpp:128-140, Engine/Source/Runtime/Render/Private/RIVswapchain.cpp:40-52, Refactor/v1.1/Engine/Source/Runtime/Render/Vulkan/VulkanTypedef.h:69-80) |
| SwapchainSelect.FirstLowLatencyModeIsFirstMatch | Engine/Source/Runtime/Render/Drivers/Vulkan/VulkanUtils.h:213-227 | the VulkanUtils rule returns the first MAILBOX-or-IMMEDIATE entry in list order, or FIFO when there is none |
| SwapchainSelect.PresentRulesDifferOnOrder | Engine/Source/Runtime/Render/Drivers/Vulkan/VulkanUtils.h:213-227 | on [IMMEDIATE, MAILBOX] the renderers choose MAILBOX and the VulkanUtils rule chooses IMMEDIATE |
| SwapchainSelect.SelectFirstLowLatencyMode | Engine/Source/Runtime/Render/Drivers/Vulkan/VulkanUtils.h:213-227 | the loop that stops at the first match returns exactly `FirstLowLatencyMode` |
| SwapchainSelect.ClampAxis | Engine/Source/Runtime/Render/VRRTrenderer.cpp:153-154 | `max(lo, min(hi, x))` is at least `lo`, at most `hi` when `lo <= hi`, and equals `x` when `x` is already in range |
| SwapchainSelect.SelectSwapExtent | Engine/Source/Runtime/Render/Private/RIVswapchain.cpp:55-66 | `currentExtent` is returned unchanged unless its width is `UINT32_MAX`; otherwise each axis is at least the minimum, at most the maximum when min <= max, and a window size inside the bounds is kept (also Engine/Source/Runtime/Render/Vulkan/VulkanRenderer.cpp:147-158, Engine/Source/Runtime/Render/VRRTrenderer.cpp:147-158, Engine/Source/Runtime/Render/VKRHI.cpp:143-155, Engine/Source/Runtime/Render/Drivers/Vulkan/VulkanUtils.h:250-261) |
| SwapchainSelect.NegativeWindowWidthClampsToMaximum | Engine/Source/Runtime/Render/Private/RIVswapchain.cpp:55-66 | a negative window width is not rejected: after the cast to `uint32_t` it clamps to the maximum extent |
| SwapchainSelect.SwapchainImageCount | Engine/Source/Runtime/Render/Vulkan/VulkanRenderer.cpp:497-499 | never above a non-zero maximum; `minImageCount + 1` when that fits under the maximum; at least the minimum when min <= max; exactly the maximum whenever the (wrapped) `minImageCount + 1` exceeds a non-zero maximum, in particular when min >= max > 0; wraps to 0 whenever the minimum is `UINT32_MAX`, even below a non-zero minimum (also Engine/Source/Runtime/Render/VRRTrenderer.cpp:487-489, Engine/Source/Runtime/Render/VKRHI.cpp:397-399, Engine/Source/Runtime/Render/Private/RIVswapchain.cpp:104-106, Engine/Source/Runtime/Render/Drivers/Vulkan/VulkanUtils.h:264-266) |
| SwapchainSelect.SwapchainContext.constructor | Engine/Source/Runtime/Render/Drivers/Vulkan/VulkanUtils.h:229-267 | a swapchain record starts with the given capabilities and no recreations |
| SwapchainSelect.SwapchainContext.Configure | Engine/Source/Runtime/Render/Drivers/Vulkan/VulkanUtils.h:229-267 | the record gets the capabilities, the chosen format, the first-low-latency present mode, the selected extent and the image count |
| SwapchainSelect.SwapchainContext.Recreate | Engine/Source/Runtime/Render/Drivers/Vulkan/VulkanContext.cpp:836-842 | the width and height arguments only gate the call: a zero one leaves the record untouched; otherwise capabilities, format, present mode and extent are selected again from the surface answers and the window's stored extent, the image count becomes the number of images the driver created, and the recreation count goes up by one |
| SwapchainSelect.SwapchainSupportDetails.constructor | Refactor/v1.1/Engine/Source/Runtime/Render/Vulkan/VulkanTypedef.h:82-105 | the support record holds the given capabilities, format and mode |
| SwapchainSelect.SwapchainSupportDetails.Configure | Refactor/v1.1/Engine/Source/Runtime/Render/Vulkan/VulkanTypedef.h:82-105 | the capabilities are always stored; the format becomes the refactored rule's choice as written (so a lone UNDEFINED list stores UNDEFINED) and the present mode the preferred mode, each only when its list is non-empty and otherwise kept |
| MemoryTypes.HasPropertiesMonotone | Engine/Source/Runtime/Render/Vulkan/VulkanRenderer.cpp:183-188 | requesting no properties accepts every type, and a type with a superset of the requested flags also has every subset |
| MemoryTypes.FindMemoryType | Engine/Source/Runtime/Render/Vulkan/VulkanRenderer.cpp:180-189 | a returned index is allowed by the type filter and has all requested properties, and no smaller index does; it fails with the runtime error exactly when no index qualifies (also Engine/Source/Runtime/Render/VRRTrenderer.cpp:180-189, Engine/Source/Runtime/Render/Drivers/Vulkan/VulkanUtils.h:269-278) |
| DeviceSetup.GetRequiredEnableDeviceExtensions | Engine/Source/Runtime/Render/Vulkan/VulkanRenderer.cpp:55-59 | the caller's list is kept as a prefix; one entry is appended exactly when the device supports the swapchain extension, and that entry is the swapchain extension name (also Engine/Source/Runtime/Render/VRRTrenderer.cpp:55-59, Engine/Source/Runtime/Render/VKRHI.cpp:51-55, Engine/Source/Runtime/Render/VRHI.cpp:47-51, Engine/Source/Runtime/Render/Private/RIVdevice.cpp:27-31) |
| DeviceSetup.GetVulkanDeviceRequiredExtensions | Engine/Source/Runtime/Render/Drivers/Vulkan/VulkanUtils.h:135-137 | the swapchain extension is always appended after the caller's list (also Refactor/v1.1/Engine/Source/Runtime/Render/Vulkan/VulkanContext.cpp:40-42) |
| DeviceSetup.GetVulkanDeviceRequiredLayers | Refactor/v1.1/Engine/Source/Runtime/Render/Vulkan/VulkanContext.cpp:44-46 | no layer is added |
| DeviceSetup.QueueCreateInfos | Refactor/v1.1/Engine/Source/Runtime/Render/Vulkan/VulkanContext.cpp:156-170 | exactly two create infos, graphics family first and present family second, each with one queue |
| DeviceSetup.BuildQueueCreateInfos | Engine/Source/Runtime/Render/VRHI.cpp:97-107 | the `uniqueQueueFamilies` loop builds exactly `QueueCreateInfos` (also Engine/Source/Runtime/Render/Vulkan/VulkanRenderer.cpp:593-603, Engine/Source/Runtime/Render/VRRTrenderer.cpp:579-589, Engine/Source/Runtime/Render/VKRHI.cpp:494-503, Engine/Source/Runtime/Render/Private/RIVdevice.cpp:78-88) |
| DeviceSetup.GetDeviceCreateRequiredQueueCreateInfos | Engine/Source/Runtime/Render/Drivers/Vulkan/VulkanUtils.h:174-195 | the caller's list is extended by the two create infos of a fresh struct scanned with the Utils rule |
| DeviceSetup.QueueCreateInfosRepeatSharedFamily | Engine/Source/Runtime/Render/VRHI.cpp:97-107 | on a device whose two families both do graphics and present, both roles get family 1 and the list names it twice |
| DeviceSetup.UniqueQueueCreateInfos | Engine/Source/Runtime/Render/VRHI.cpp:97 | the corrected list has one or two entries with distinct families, one queue each, graphics first, present included, and no other family |
| DeviceSetup.UniqueMatchesWrittenWhenFamiliesDiffer | Engine/Source/Runtime/Render/VRHI.cpp:97-107 | the corrected list equals the list as written exactly when the graphics and present families differ |
| TextureLayout.BarrierExactlyForAcceptedPairs | Engine/Source/Runtime/Render/Vulkan/VulkanRenderer.cpp:966-978 | the barrier table has an entry exactly for the accepted layout pairs, and that entry describes the same pair (also Engine/Source/Runtime/Render/VRRTrenderer.cpp:943-955, Engine/Source/Runtime/Render/Drivers/Vulkan/VulkanContext.cpp:421-439) |
| TextureLayout.AcceptedTransitionsAreWellFormed | Engine/Source/Runtime/Render/Drivers/Vulkan/VulkanContext.cpp:418-439 | no accepted transition targets UNDEFINED or keeps the layout; every renderer transition is also a context transition, with the same access masks |
| TextureLayout.RequestsStayWithinReachable | Engine/Source/Runtime/Render/Vulkan/VulkanRenderer.cpp:966-992 | under any sequence of requests a texture stays in UNDEFINED, TRANSFER_DST_OPTIMAL or SHADER_READ_ONLY_OPTIMAL, and once it is SHADER_READ_ONLY_OPTIMAL it stays there |
| TextureLayout.Texture2D.constructor | Engine/Source/Runtime/Render/VRRTrenderer.cpp:853-854 | a new texture is UNDEFINED |
| TextureLayout.TransitionTextureLayout | Engine/Source/Runtime/Render/Vulkan/VulkanRenderer.cpp:944-992 | success exactly for an accepted pair; on success the barrier is the table's and the layout becomes the new one; otherwise `invalid_argument` with the layout unchanged (also Engine/Source/Runtime/Render/VRRTrenderer.cpp:921-969, Engine/Source/Runtime/Render/Drivers/Vulkan/VulkanContext.cpp:401-455) |
| TextureLayout.CreateTexture | Engine/Source/Runtime/Render/VRRTrenderer.cpp:907-909 | both transitions of a new texture succeed, and it ends in SHADER_READ_ONLY_OPTIMAL (also Engine/Source/Runtime/Render/Vulkan/VulkanRenderer.cpp:930-932) |
| TextureLayout.RttFrameContext.constructor | Engine/Source/Runtime/Render/Drivers/Vulkan/VulkanContext.cpp:359-369 | records the requested size, and its new texture is in SHADER_READ_ONLY_OPTIMAL |
| TextureLayout.RttFrameContext.Recreate | Engine/Source/Runtime/Render/Drivers/Vulkan/VulkanContext.cpp:289-294 | when `CheckInvalidSize` returns true, a new target of the requested size in SHADER_READ_ONLY_OPTIMAL and one more generation; otherwise nothing changes |
| TextureLayout.RttFrameContext.BeginRttRender | Engine/Source/Runtime/Render/Drivers/Vulkan/VulkanContext.cpp:269-280 | the pass always uses the recorded size; a different size for which `CheckInvalidSize` returns true is recreated first; otherwise the context is untouched |
| TextureLayout.GraphicsFrameContext.Begin | Engine/Source/Runtime/Render/Drivers/Vulkan/VulkanContext.cpp:223-227 | framebuffer, command buffer, image and image view all come from the acquired index |
| ResultNames.FirstWinsKeys | Engine/Source/Runtime/Render/VkUtils.h:50-109 | the map built from the table has exactly the table's codes as keys |
| ResultNames.FirstWinsIsFirstListed | Engine/Source/Runtime/Render/VkUtils.h:50-109 | a code maps to the name of its first entry in the table |
| ResultNames.FirstWinsNamesComeFromEntries | Engine/Source/Runtime/Render/VkUtils.h:50-109 | every stored name is the name of a table entry with that code |
| ResultNames.AliasReportsFirstListedName | Engine/Source/Runtime/Render/VkUtils.h:100 | `VK_ERROR_OUT_OF_POOL_MEMORY_KHR` is listed, and its value reports `"VK_ERROR_OUT_OF_POOL_MEMORY"`, the name listed first at Engine/Source/Runtime/Render/VkUtils.h:70 |
| ResultNames.ResultNameMap.constructor | Engine/Source/Runtime/Render/VkUtils.h:50-109 | the map holds the table, with the first entry kept for a repeated code (also Engine/Source/Runtime/Render/Drivers/Vulkan/VulkanUtils.h:35-93) |
| ResultNames.ResultNameMap.GetVkResultStatusName | Engine/Source/Runtime/Render/VkUtils.h:117-120 | a listed code returns its stored name and changes nothing; an unlisted code returns "" and is inserted with "" |
| AuroraTypedef.EraseAt | Engine/Source/Include/Aurora/Typedef.h:51-54 | the length drops by one; earlier elements stay; later elements shift left by one; the multiset loses exactly the erased element |
| AuroraTypedef.Vector.constructor | Engine/Source/Include/Aurora/Typedef.h:48-50 | a vector holds the given elements |
| AuroraTypedef.Vector.Remove | Engine/Source/Include/Aurora/Typedef.h:51-54 | `remove(index)`, with `index < size()`, leaves `EraseAt` of the old elements |
| WindowSystem.ResizeInvocations | Engine/Source/Runtime/Window/Window.cpp:46-47 | one call per registered callback, in registration order, each with the same width and height |
| WindowSystem.ResizeInvocationsAppend | Engine/Source/Runtime/Window/Window.cpp:46-47 | registering one more callback adds exactly its call at the end of a resize |
| WindowSystem.Window.constructor | Engine/Source/Runtime/Window/Window.cpp:28-29 | the extent that `GetWindowExtent2D` (Window.cpp:56-58) returns starts as the requested size converted to `int`, equal to it when it fits; no user pointers and no callbacks |
| WindowSystem.Window.GetWindowUserPointer | Engine/Source/Runtime/Window/Window.cpp:64-68 | the stored pointer for a known key, null for an unknown one; the map is only read |
| WindowSystem.Window.PutWindowUserPointer | Engine/Source/Runtime/Window/Window.cpp:60-62 | the key reads back the new pointer, every other key reads as before, and nothing else changes |
| WindowSystem.Window.AddWindowResizeableCallback | Engine/Source/Runtime/Window/Window.cpp:70-73 | the callback is appended, and the returned value is the new length, one more than its position |
| WindowSystem.Window.RemoveWindowResizeableCallback | Engine/Source/Runtime/Window/Window.cpp:75-78 | position `n < size` is erased, the others keep their order, and nothing else changes |
| WindowSystem.Window.OnResize | Engine/Source/Runtime/Window/Window.cpp:41-48 | the extent becomes the new size first; then every callback is called once, in order, with that size; the callbacks and pointers are unchanged |
| DebugWatch.WatchRegistry.constructor | Engine/Source/Include/Debug.h:57 | the global watch map starts empty |
| DebugWatch.WatchRegistry.AddWatch | Engine/Source/Include/Debug.h:62-66 | `{name, type, ptr, editable}` is stored under `name`, replacing any earlier watch; `editable` defaults to false; every watch stays stored under its own name |
| DebugWatch.WatchRegistry.RemoveWatch | Engine/Source/Include/Debug.h:71-74 | the name is erased; an absent name changes nothing; every other watch stays |
| DebugWatch.WatchRegistry.WatchIteration | Engine/Source/Include/Debug.h:76-80 | the callback sees every stored watch exactly once: as many calls as watches, no name twice, every call a stored watch, and every stored watch called |
| SystemProperties.PropertyValue | Engine/Source/Include/System.h:63-65 | a read yields the stored value, or the empty string for an unset key |
| SystemProperties.PropertyReadsAfterUpdates | Engine/Source/Include/System.h:56-65 | a set value reads back; a set leaves other keys' values alone; the empty entry a read inserts changes no later read |
| SystemProperties.Properties.constructor | Engine/Source/Include/System.h:38 | the property map starts empty |
| SystemProperties.Properties.SetProperty | Engine/Source/Include/System.h:56-58 | the key is inserted or overwritten and reads back the new value |
| SystemProperties.Properties.GetProperty | Engine/Source/Include/System.h:63-65 | returns the stored value or ""; an unset key is inserted with "" and becomes present |

## Left out

- All Vulkan object creation and destruction, command recording, submission and presentation are left out: they are calls into the GPU driver. Their answers come in as inputs, and handles are opaque values.
- The barrier itself is not submitted. `TransitionTextureLayout` returns it, and the image, subresource range and queue-family fields are left out.
- Pipeline construction, uniform-buffer updates, texture and shader file loading, the editor UI, the logger, and the time and console functions of `System.h` are left out. They are constant configuration, floating point, clocks or I/O.
- GLFW window creation and its "Create glfw window failed!" exception are left out (a windowing library). Only the resize handler's body is modelled, as `Window.OnResize`.
- What the resize and watch callbacks do is not modelled. The model returns the sequence of calls instead.
- `__props__` is declared `static` in a header, so each translation unit that includes `System.h` has its own copy. The model is a single map.
- Whether the table includes the beta-extension `VK_ERROR_INVALID_VIDEO_STD_PARAMETERS_KHR` entry is a compile-time `#ifdef`. It is the boolean parameter `betaExtensions`.
- The numeric `VkResult` values are not in this source. They are the values the Vulkan headers assign.
- ResultNames.FirstWins: the C++ standard does not say which entry an `unordered_map` keeps when an initializer list repeats a key. The model keeps the first, as sequential insertion does.
- `CheckInvalidSize`, used by `RecreateRTTRenderContext`, is not part of this model. Its answer is the boolean parameter `checkInvalidSizeResult`.
- `GetVulkanDeviceCreateRequiredQueueFamilyAndQueueCreateInfo` has a non-void return type but no `return`. Its returned value is undefined and is not modelled; only the two appended entries are.
- The number of images `vkGetSwapchainImagesKHR` reports after a swapchain is created (VulkanContext.cpp:66-68) is the driver's answer. `SwapchainContext.Recreate` takes it as the parameter `createdImageCount`.
- The two-argument `ConfigurationVulkanSwapchainContextDetail` overload called by VulkanContext.cpp is not part of this model. The four-argument one in VulkanUtils.h stands in for it.
- `SportsDebugWatchInfo::value` is declared `const`, so the map assignment in `SportsDebugAddWatch` would not compile as written. The model follows the evident insert-or-replace.
- DebugWatch.WatchRegistry.WatchIteration: the order of an `unordered_map` traversal is unspecified, so the contract fixes the set of calls but not their order.
- MemoryTypes.FindMemoryType: requires at most 32 memory types (`VK_MAX_MEMORY_TYPES`), which the device query guarantees.
- SwapchainSelect.SelectSwapExtent: takes the window size as two integers. The renderers that read it from a window object get it through a window class that is not part of this model.

## Findings

| source | as written | input that shows it | evidently intended | confidence | as-written member | corrected member |
|---|---|---|---|---|---|---|
| Refactor/v1.1/Engine/Source/Runtime/Render/Vulkan/VulkanTypedef.h:58 | the lone-UNDEFINED case is guarded by `size() == 0`, so it can only fire on an out-of-bounds read and never for a real list | formats `[{UNDEFINED, SRGB_NONLINEAR}]`: the refactored rule returns UNDEFINED as the swapchain format | `size() == 1`, as in every other copy, giving B8G8R8A8_UNORM/SRGB_NONLINEAR | high, not executed | SwapchainSelect.BeastPreferredFormatAsWritten, SwapchainSelect.BeastFormatKeepsLoneUndefined, SwapchainSelect.SwapchainSupportDetails.Configure | SwapchainSelect.ChosenSurfaceFormat, SwapchainSelect.ChosenFormatDefinedForAnyFormatSurface |
| Engine/Source/Runtime/Render/Private/RIVdevice.h:49-52 | the RIV queue-family struct has no initialisers, and `FindQueueFamilyIndices` starts from an uninitialised local | a device whose only family has no queues and no surface support: the result is whatever the stack held, e.g. (5, 7) | zero initialisers, as in every other copy | high, not executed | QueueFamilies.FindQueueFamilyIndicesUninitialised, QueueFamilies.UninitialisedStartLeaksOut | QueueFamilies.FindQueueFamilyIndices, QueueFamilies.ZeroStartIndicesInRange |
| Engine/Source/Runtime/Render/VRHI.cpp:97-107 | `uniqueQueueFamilies` lists graphics and present without removing duplicates (same in VulkanRenderer.cpp:593-603, VRRTrenderer.cpp:579-589, VKRHI.cpp:494-503, RIVdevice.cpp:78-88) | two families that both do graphics and present: both roles get family 1 and two create infos name it, which the valid-usage rules of `VkDeviceCreateInfo` in the Device Creation section of the Vulkan 1.3 specification forbid | one create info per distinct family, as the variable's name says | high, not executed | DeviceSetup.QueueCreateInfos, DeviceSetup.QueueCreateInfosRepeatSharedFamily | DeviceSetup.UniqueQueueCreateInfos, DeviceSetup.UniqueMatchesWrittenWhenFamiliesDiffer |
