# Vulkan device selection and swapchain negotiation, in Dafny

This project models the decision logic of a small Vulkan bootstrap program
(`HelloTriangleApplication` in `main.cpp`, helpers in `vkHelper.hpp`):

- which physical device is chosen: the four-part verdict (discrete GPU,
  `VK_KHR_swapchain` offered, at least one surface format and one present
  mode, a graphics queue family and a present-capable queue family) and the
  selection loop in which every accepted device overwrites `mPhysicalDevice`,
  so the last accepted device in enumeration order wins;
- the early-exit queue-family scan of `getQueueIndices`;
- the parameters computed for the selected device: the distinct queue
  families of the logical device, the families the two queues are fetched
  from, the surface format, the present mode, the extent, the image count and
  the image sharing mode;
- the `VkResult` message table of `printError`, the non-throwing `CHECK_VK`
  wrapper and the device-type names of `printDevice`.

The driver is plain input data. A `PhysicalDevice` holds its device type, its
extension names, its queue families (the queue flag bits, and the answer
`vkGetPhysicalDeviceSurfaceSupportKHR` gives for that family on the window's
surface) and its swapchain details (surface capabilities, format list,
present-mode list). Enumerations reported by the driver (`VkResult`,
`VkPhysicalDeviceType`, `VkFormat`, `VkColorSpaceKHR`, `VkPresentModeKHR`) are
raw integers with the values of the Vulkan headers, because a driver can
report a value no switch lists. `uint32_t` fields are the subset type `u32`;
the one `uint32_t` sum (`minImageCount + 1`) wraps explicitly.

Files and modules:

- `vk_helper.dfy`, module `VkHelper`: value types, `QueueFamilyIndices` with
  `IsValid` (both fields hold a value, vkHelper.hpp:36-38), the message table,
  `PrintError`, `CheckVk`, `DeviceTypeName`.
- `device_selection.dfy`, module `DeviceSelection`: the extension check, the
  queue scan, the verdict and the last-accepted-wins rule, each with a
  reference definition and lemmas.
- `swapchain_config.dfy`, module `SwapchainConfig`: format, present mode,
  extent, image count, queue families, device queues and sharing mode.
- `application.dfy`, module `Application`: the class
  `HelloTriangleApplication`, whose methods run the selection loop and store
  the computed parameters in its fields, as `init()` does.

Loops stay loops: the extension check erases names from a set, the queue scan
overwrites its two fields and breaks, the format and present-mode loops
overwrite their choice, and the selection loop overwrites the
`physicalDevice` field. Each is proved against a reference function
(`ExtensionsSupported`, `QueueIndicesFor`, `LastAccepted`) or states its
result outright. Querying the same unchanged device twice gives the same
result because every query is a function of the device data.

The model follows the code, not its comments or the intent behind it: the
extent fallback clamps `{UINT32_MAX, UINT32_MAX}`, not the requested window
size, and the scan keeps the last match of each kind before it stops, not the
smallest index of each kind. Both are stated as lemmas. The two defects under
"## Findings" are each modelled twice, as written and corrected; the class
`HelloTriangleApplication` uses the as-written definitions, as `main.cpp`
does, and the corrected ones stand beside them with their intended
properties proved.

## Model

| member | source | states |
|---|---|---|
| `VkHelper.DeviceTypeName` | vkHelper.hpp:50-68 | the name is non-empty exactly for the five listed types 0..4; "Discrete" exactly for the discrete type, "Integrated" exactly for the integrated type; any other value gives "" |
| `VkHelper.DeviceTypeNamesDistinct` | vkHelper.hpp:51-67 | two different listed device types get two different names |
| `VkHelper.ErrorMessage` | vkHelper.hpp:132-248 | the message is non-empty exactly for the codes the switch lists; `VK_SUCCESS` and every unlisted code give the empty string |
| `VkHelper.ErrorMessageSamples` | vkHelper.hpp:149-201 | OUT_OF_HOST_MEMORY gives "VK OOM host", SURFACE_LOST_KHR gives "VK surface lost", DEVICE_LOST gives "VK device lost", SUBOPTIMAL_KHR gives "VK suboptimal" |
| `VkHelper.PrintError` | vkHelper.hpp:130-250 | no report exactly when the result is `VK_SUCCESS`; otherwise one report carrying the file, line and callee, with an empty message exactly when the code is unlisted |
| `VkHelper.CheckVk` | vkHelper.hpp:253-262 | from the single evaluation of its argument, at most one diagnostic and never a propagated `std::exception`: none exactly on `VK_SUCCESS`, the caught exception's text when the call threw, the printError message otherwise |
| `DeviceSelection.CheckDeviceExtensions` | main.cpp:156-169 | the erase loop returns true exactly when every required extension name occurs among the device's names |
| `DeviceSelection.ExtraExtensionsIrrelevant` | main.cpp:163-168 | extension names that are not required, added before or after the device's list, never change the result |
| `DeviceSelection.LastFamilySpec` | main.cpp:348-358 | the last family of a kind exists exactly when some family has that capability, has it, and no later family has it |
| `DeviceSelection.ScanEndFromSpec` | main.cpp:360-362 | the scan stops right after the first family with which both capabilities have occurred, or at the end of the list |
| `DeviceSelection.GetQueueIndices` | main.cpp:339-368 | the loop with its early `break` returns the reference result: the last graphics family and the last present family among the families read up to the stop |
| `DeviceSelection.QueueIndicesSound` | main.cpp:348-365 | a recorded graphics index names a graphics family, a recorded present index a family with present support, and each field is absent exactly when no family of the device qualifies |
| `DeviceSelection.QueueIndicesValidIff` | main.cpp:360-362 | the indices are valid exactly when the device has a graphics family and a present-capable family |
| `DeviceSelection.QueueScanStopsEarly` | main.cpp:348-365 | when valid, the larger recorded index is the first point at which both capabilities have occurred, and no family between a recorded index and that point qualifies for the same field |
| `DeviceSelection.QueueScanNotMinimal` | main.cpp:348-365 | with a graphics-only family followed by a graphics-and-present family, both indices are 1 although family 0 is a graphics family |
| `DeviceSelection.ViableSwapChainIff` | main.cpp:171-179 | the swapchain is viable exactly when the swapchain extension is offered and both the format and present-mode lists are non-empty |
| `DeviceSelection.AcceptedIff` | main.cpp:153-201 | a device is accepted exactly when it is a discrete GPU, offers `VK_KHR_swapchain`, has a format and a present mode, and has a graphics family and a present-capable family |
| `DeviceSelection.LastAcceptedSpec` | main.cpp:141-207 | the selected index names an accepted device with no accepted device after it, and there is none exactly when no device is accepted |
| `DeviceSelection.LastAcceptedWins` | main.cpp:201-205 | of two accepted devices the second is selected, not the first |
| `SwapchainConfig.ChooseSurfaceFormat` | main.cpp:253-258 | the chosen format is an element of the non-empty list; it is B8G8R8A8_SRGB with SRGB_NONLINEAR when that pair occurs, otherwise the first format |
| `SwapchainConfig.ChoosePresentMode` | main.cpp:260-265 | the mode is MAILBOX exactly when MAILBOX occurs in the list, and FIFO otherwise |
| `SwapchainConfig.Clamp` | main.cpp:272-273 | `max(lo, min(hi, v))` lies in [lo, hi] when lo <= hi, is v when v already lies there, and is lo when lo > hi |
| `SwapchainConfig.ChooseSwapExtentAsWritten` | main.cpp:267-274 | a defined current extent (width not `UINT32_MAX`) is taken as is; otherwise each dimension is the larger of the surface's two bounds |
| `SwapchainConfig.ChooseSwapExtent` | main.cpp:267-274 | a defined current extent is taken as is; otherwise each dimension lies within the surface's bounds when they are ordered, and a requested size within the bounds is kept exactly |
| `SwapchainConfig.ExtentFallbackIgnoresResolution` | main.cpp:267-273 | with an undefined current extent and bounds 64..4096 the code as written yields 4096x4096, not the 1024x1024 window size the corrected rule yields |
| `SwapchainConfig.ExtentFollowsSurface` | main.cpp:268-270 | a surface reporting 800x600 gets exactly 800x600, whatever the window size |
| `SwapchainConfig.SwapchainImageCount` | main.cpp:276-279 | one more than the minimum when `maxImageCount` is 0 (no limit), otherwise the smaller of that and `maxImageCount`; never above a non-zero maximum; 0 when `minImageCount + 1` wraps |
| `SwapchainConfig.UniqueQueueFamilies` | main.cpp:215-225 | the queue families created are exactly the graphics and present families, in strictly ascending order, one entry if they coincide and two otherwise |
| `SwapchainConfig.DeviceQueuesAsWritten` | main.cpp:245-246 | both queues come from the graphics family, so the present queue names the present family exactly when the two families coincide |
| `SwapchainConfig.PresentQueueFromGraphicsFamily` | main.cpp:245-246 | with a graphics-only family followed by a present-only family, the code as written fetches the present queue from family 0, which cannot present |
| `SwapchainConfig.DeviceQueuesFor` | main.cpp:245-246 | the graphics queue comes from the graphics family and the present queue from the present family |
| `SwapchainConfig.DeviceQueuesCapable` | main.cpp:245-246 | on the scan's valid indices, the graphics queue's family has the graphics bit and the present queue's family has present support |
| `SwapchainConfig.ImageSharingFor` | main.cpp:293-295 | exclusive with no family list exactly when the two families are equal, otherwise concurrent with the list [graphics, present]; the count always equals the list's length |
| `Application.HelloTriangleApplication.constructor` | main.cpp:407 | `mPhysicalDevice` starts as `VK_NULL_HANDLE` |
| `Application.HelloTriangleApplication.PickPhysicalDevice` | main.cpp:133-207 | no devices: the "Couldn't find a physical device" error and no change; otherwise the field holds the last accepted device (or keeps its old value when none is accepted), and the assert fails exactly when it is still null |
| `Application.HelloTriangleApplication.CreateLogicalDevice` | main.cpp:212-246 | for the selected device, the queue create infos name exactly the distinct families of its re-derived indices, the swapchain extension is enabled, and both queues are fetched from the graphics family, as written (`DeviceQueuesAsWritten`) |
| `Application.HelloTriangleApplication.CreateSwapChain` | main.cpp:251-300 | the stored format, extent and create info are the preferred format, the as-written extent (the `UINT32_MAX`-seeded clamp of `ChooseSwapExtentAsWritten`), the capped image count, the sharing mode of the re-derived indices, the current transform and MAILBOX-or-FIFO, for the selected device |
| `Application.HelloTriangleApplication.Init` | main.cpp:131-308 | from a fresh application, the pick succeeds exactly when some device is accepted, fails with "no physical device" exactly when there are none, and leaves the last accepted device selected; after a pick the logical-device and swapchain fields hold the parameters of `CreateLogicalDevice` and `CreateSwapChain` for that device, and after a failure all six of those fields are unchanged |

## Findings

| source | as written | input that shows it | evidently intended | confidence | as-written member | corrected member |
|---|---|---|---|---|---|---|
| main.cpp:267-273 | the fallback extent starts from `{UINT32_MAX, UINT32_MAX}`, so the clamp always lands on `maxImageExtent` | current extent width `UINT32_MAX`, bounds 64x64..4096x4096: result 4096x4096 | clamp the 1024x1024 window resolution (`sResolution`) into the bounds | medium, not executed | `SwapchainConfig.ChooseSwapExtentAsWritten`, `SwapchainConfig.ExtentFallbackIgnoresResolution` | `SwapchainConfig.ChooseSwapExtent` |
| main.cpp:246 | `mPresentQueue` is fetched from `graphicsFamily` | families [graphics only, present only]: the present queue comes from family 0, which has no present support | fetch the present queue from `presentFamily` | high, not executed | `SwapchainConfig.DeviceQueuesAsWritten`, `SwapchainConfig.PresentQueueFromGraphicsFamily` | `SwapchainConfig.DeviceQueuesFor`, `SwapchainConfig.DeviceQueuesCapable` |

## Left out

- GLFW window creation, the event loop and cleanup (main.cpp:30-35, 311-337): windowing and OS I/O.
- Instance creation, the instance-extension listing, validation-layer checks and the debug messenger (main.cpp:38-124): foreign Vulkan calls with fixed structs.
- The device-level validation layers (main.cpp:235-241): `enabledLayerCount` and `ppEnabledLayerNames` depend only on the build-time `mEnableValidationLayers` flag, not on the device.
- The `vkCreateDevice`, `vkGetDeviceQueue`, `vkCreateSwapchainKHR` and `vkGetSwapchainImagesKHR` calls (main.cpp:243-246, 302-307): only the parameters computed for them are modelled.
- The driver queries themselves and their failures: a device's lists and capabilities are given as data, and the model assumes a query that failed (and was merely logged by `CHECK_VK`) reported nothing. The program does not guarantee that: `extensionCount` (main.cpp:158), `formatCount` (main.cpp:375), `presentModeCount` (main.cpp:382) and `details.capabilities` (main.cpp:373) are left uninitialised, so after a failed query they hold indeterminate values; only `deviceCount` (main.cpp:133) and `queueFamilyCount` (main.cpp:342) start at 0.
- `queuePriority` (main.cpp:217): a floating-point constant with no logic.
- All console output: `SwapChainDetails::print`, the other fields of `printDevice`, the "Invalid: ..." lines of the selection loop, and the body of `debugCallback`; of `printError` the model keeps the parts of the line, not its text with the line number turned into digits.
- `populateDebugMessengerCreateInfo` (vkHelper.hpp:117-128): constant flag assembly for a foreign API.
- The extension `specVersion`: the check reads only the names.
- Queue family indices are unbounded naturals; the `int` counter and the `uint32_t` index fields are not modelled at their width, because the driver reports a `uint32_t` count of families far below either limit.
- A build with `NDEBUG`, where the `assert` on `VK_NULL_HANDLE` is compiled out and the program continues with a null device: the model treats the failed assert as the end of the run.
- `Application.HelloTriangleApplication.CreateLogicalDevice` and `CreateSwapChain` require the selected device to be accepted; the program reaches them only after the assert, and `.value()` on an absent index (which would throw) is therefore not modelled.
