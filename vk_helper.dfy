/** Value types shared by the device-selection code, the `VkResult` message
    table behind the error reporter, the exception-swallowing call wrapper and
    the device-type names (vkHelper.hpp). Driver enums are kept as raw
    integers, because a driver may report a value no switch lists. */
module VkHelper {

  datatype Option<T> = None | Some(value: T)

  /** `uint32_t`. */
  type u32 = x: int | 0 <= x <= 0xFFFF_FFFF
  const UINT32_MAX: u32 := 0xFFFF_FFFF

  function Min(a: int, b: int): int { if a <= b then a else b }
  function Max(a: int, b: int): int { if a >= b then a else b }

  // ---------------------------------------------------------------------
  // Surface data reported by the driver (VkSurfaceCapabilitiesKHR and friends)
  // ---------------------------------------------------------------------

  datatype Extent2D = Extent2D(width: u32, height: u32)

  /** The fields of `VkSurfaceCapabilitiesKHR` the program reads or prints.
      A `maxImageCount` of 0 means "no limit", and a `currentExtent` whose
      width is `UINT32_MAX` means "the extent is chosen by the swapchain"
      (Window System Integration chapter of the Vulkan specification). */
  datatype SurfaceCapabilities = SurfaceCapabilities(
    minImageCount: u32,
    maxImageCount: u32,
    currentExtent: Extent2D,
    minImageExtent: Extent2D,
    maxImageExtent: Extent2D,
    maxImageArrayLayers: u32,
    currentTransform: u32)

  /** `VkSurfaceFormatKHR`: a `VkFormat` paired with a `VkColorSpaceKHR`. */
  datatype SurfaceFormat = SurfaceFormat(format: int, colorSpace: int)

  /** `SwapChainDetails`: the capabilities, the format list and the list of
      `VkPresentModeKHR` values; either list may be empty. */
  datatype SwapChainDetails = SwapChainDetails(
    capabilities: SurfaceCapabilities,
    formats: seq<SurfaceFormat>,
    presentModes: seq<int>)

  // ---------------------------------------------------------------------
  // QueueFamilyIndices
  // ---------------------------------------------------------------------

  /** Each field is absent until the queue scan records a family for it. */
  datatype QueueFamilyIndices = QueueFamilyIndices(graphicsFamily: Option<nat>, presentFamily: Option<nat>)
  {
    /** Both a graphics family and a present family have been recorded. */
    predicate IsValid() {
      graphicsFamily.Some? && presentFamily.Some?
    }
  }

  const NO_INDICES := QueueFamilyIndices(None, None)

  // ---------------------------------------------------------------------
  // VkPhysicalDeviceType and the names printDevice shows for it
  // ---------------------------------------------------------------------

  const VK_PHYSICAL_DEVICE_TYPE_OTHER: int := 0
  const VK_PHYSICAL_DEVICE_TYPE_INTEGRATED_GPU: int := 1
  const VK_PHYSICAL_DEVICE_TYPE_DISCRETE_GPU: int := 2
  const VK_PHYSICAL_DEVICE_TYPE_VIRTUAL_GPU: int := 3
  const VK_PHYSICAL_DEVICE_TYPE_CPU: int := 4

  /** The "Device Type" text: one name per listed type, "" for any other value. */
  function DeviceTypeName(deviceType: int): (name: string)
    ensures name != "" <==> VK_PHYSICAL_DEVICE_TYPE_OTHER <= deviceType <= VK_PHYSICAL_DEVICE_TYPE_CPU
    ensures deviceType == VK_PHYSICAL_DEVICE_TYPE_DISCRETE_GPU <==> name == "Discrete"
    ensures deviceType == VK_PHYSICAL_DEVICE_TYPE_INTEGRATED_GPU <==> name == "Integrated"
  {
    match deviceType
    case 0 => "Other"
    case 1 => "Integrated"
    case 2 => "Discrete"
    case 3 => "Virtual"
    case 4 => "CPU"
    case _ => ""
  }

  /** The five listed types have five different names. */
  lemma DeviceTypeNamesDistinct(a: int, b: int)
    requires VK_PHYSICAL_DEVICE_TYPE_OTHER <= a <= VK_PHYSICAL_DEVICE_TYPE_CPU
    requires VK_PHYSICAL_DEVICE_TYPE_OTHER <= b <= VK_PHYSICAL_DEVICE_TYPE_CPU
    requires a != b
    ensures DeviceTypeName(a) != DeviceTypeName(b)
  {
  }

  // ---------------------------------------------------------------------
  // VkResult and printError
  // ---------------------------------------------------------------------

  const VK_SUCCESS: int := 0
  const VK_NOT_READY: int := 1
  const VK_TIMEOUT: int := 2
  const VK_EVENT_SET: int := 3
  const VK_EVENT_RESET: int := 4
  const VK_INCOMPLETE: int := 5
  const VK_ERROR_OUT_OF_HOST_MEMORY: int := -1
  const VK_ERROR_OUT_OF_DEVICE_MEMORY: int := -2
  const VK_ERROR_INITIALIZATION_FAILED: int := -3
  const VK_ERROR_DEVICE_LOST: int := -4
  const VK_ERROR_MEMORY_MAP_FAILED: int := -5
  const VK_ERROR_LAYER_NOT_PRESENT: int := -6
  const VK_ERROR_EXTENSION_NOT_PRESENT: int := -7
  const VK_ERROR_FEATURE_NOT_PRESENT: int := -8
  const VK_ERROR_INCOMPATIBLE_DRIVER: int := -9
  const VK_ERROR_TOO_MANY_OBJECTS: int := -10
  const VK_ERROR_FORMAT_NOT_SUPPORTED: int := -11
  const VK_ERROR_FRAGMENTED_POOL: int := -12
  const VK_ERROR_UNKNOWN: int := -13
  const VK_ERROR_OUT_OF_POOL_MEMORY: int := -1000069000
  const VK_ERROR_INVALID_EXTERNAL_HANDLE: int := -1000072003
  const VK_ERROR_FRAGMENTATION: int := -1000161000
  const VK_ERROR_INVALID_OPAQUE_CAPTURE_ADDRESS: int := -1000257000
  const VK_ERROR_SURFACE_LOST_KHR: int := -1000000000
  const VK_ERROR_NATIVE_WINDOW_IN_USE_KHR: int := -1000000001
  const VK_SUBOPTIMAL_KHR: int := 1000001003
  const VK_ERROR_OUT_OF_DATE_KHR: int := -1000001004
  const VK_ERROR_INCOMPATIBLE_DISPLAY_KHR: int := -1000003001
  const VK_ERROR_VALIDATION_FAILED_EXT: int := -1000011001
  const VK_ERROR_INVALID_SHADER_NV: int := -1000012000
  const VK_ERROR_INCOMPATIBLE_VERSION_KHR: int := -1000150000
  const VK_ERROR_INVALID_DRM_FORMAT_MODIFIER_PLANE_LAYOUT_EXT: int := -1000158000
  const VK_ERROR_NOT_PERMITTED_EXT: int := -1000174001
  const VK_ERROR_FULL_SCREEN_EXCLUSIVE_MODE_LOST_EXT: int := -1000255000
  const VK_THREAD_IDLE_KHR: int := 1000268000
  const VK_THREAD_DONE_KHR: int := 1000268001
  const VK_OPERATION_DEFERRED_KHR: int := 1000268002
  const VK_OPERATION_NOT_DEFERRED_KHR: int := 1000268003
  const VK_PIPELINE_COMPILE_REQUIRED_EXT: int := 1000297000

  /** The switch in printError, as a table from each code it lists to the
      message it assigns. */
  const ERROR_MESSAGES: map<int, string> := map[
    VK_NOT_READY := "VK not ready",
    VK_TIMEOUT := "VK timeout",
    VK_EVENT_SET := "VK event set",
    VK_EVENT_RESET := "VK event reset",
    VK_INCOMPLETE := "VK incomplete",
    VK_ERROR_OUT_OF_HOST_MEMORY := "VK OOM host",
    VK_ERROR_OUT_OF_DEVICE_MEMORY := "VK OOM device",
    VK_ERROR_INITIALIZATION_FAILED := "VK init failed",
    VK_ERROR_DEVICE_LOST := "VK device lost",
    VK_ERROR_MEMORY_MAP_FAILED := "VK mmap failed",
    VK_ERROR_LAYER_NOT_PRESENT := "VK invalid layer",
    VK_ERROR_EXTENSION_NOT_PRESENT := "VK invalid extension",
    VK_ERROR_FEATURE_NOT_PRESENT := "VK invalid feature",
    VK_ERROR_INCOMPATIBLE_DRIVER := "VK incompatible driver",
    VK_ERROR_TOO_MANY_OBJECTS := "VK too many objects",
    VK_ERROR_FORMAT_NOT_SUPPORTED := "VK format not supported",
    VK_ERROR_FRAGMENTED_POOL := "VK fragmented pool",
    VK_ERROR_UNKNOWN := "VK unknown",
    VK_ERROR_OUT_OF_POOL_MEMORY := "VK OOM pool",
    VK_ERROR_INVALID_EXTERNAL_HANDLE := "VK invalid external handle",
    VK_ERROR_FRAGMENTATION := "VK fragmentation",
    VK_ERROR_INVALID_OPAQUE_CAPTURE_ADDRESS := "VK invalid capture address",
    VK_ERROR_SURFACE_LOST_KHR := "VK surface lost",
    VK_ERROR_NATIVE_WINDOW_IN_USE_KHR := "VK window in use",
    VK_SUBOPTIMAL_KHR := "VK suboptimal",
    VK_ERROR_OUT_OF_DATE_KHR := "VK out of date",
    VK_ERROR_INCOMPATIBLE_DISPLAY_KHR := "VK incompatible display",
    VK_ERROR_VALIDATION_FAILED_EXT := "VK validation failed",
    VK_ERROR_INVALID_SHADER_NV := "VK invalid shader",
    VK_ERROR_INCOMPATIBLE_VERSION_KHR := "VK incompatible version",
    VK_ERROR_INVALID_DRM_FORMAT_MODIFIER_PLANE_LAYOUT_EXT := "VK invalid DRM format",
    VK_ERROR_NOT_PERMITTED_EXT := "VK not permitted",
    VK_ERROR_FULL_SCREEN_EXCLUSIVE_MODE_LOST_EXT := "VK full screen mode lost",
    VK_THREAD_IDLE_KHR := "VK thread idle",
    VK_THREAD_DONE_KHR := "VK thread done",
    VK_OPERATION_DEFERRED_KHR := "VK operation deferred",
    VK_OPERATION_NOT_DEFERRED_KHR := "VK operation not deferred",
    VK_PIPELINE_COMPILE_REQUIRED_EXT := "VK pipeline compile required"
  ]

  /** The message printError prints: the table's entry, or the empty string
      its `std::string error` keeps when the switch lists no case. */
  function ErrorMessage(result: int): (message: string)
    ensures message != "" <==> result in ERROR_MESSAGES
    ensures result == VK_SUCCESS ==> message == ""
  {
    if result in ERROR_MESSAGES then ERROR_MESSAGES[result] else ""
  }

  /** A few entries of the table, pinned down by value. */
  lemma ErrorMessageSamples()
    ensures ErrorMessage(VK_ERROR_OUT_OF_HOST_MEMORY) == "VK OOM host"
    ensures ErrorMessage(VK_ERROR_SURFACE_LOST_KHR) == "VK surface lost"
    ensures ErrorMessage(VK_ERROR_DEVICE_LOST) == "VK device lost"
    ensures ErrorMessage(VK_SUBOPTIMAL_KHR) == "VK suboptimal"
    ensures ErrorMessage(VK_SUCCESS) == ""
  {
  }

  /** The line printError writes to the error stream, kept as its parts:
      "Vulkan error in file <file> at line <line> calling function <callee>: <message>". */
  datatype ErrorReport = ErrorReport(file: string, line: int, callee: string, message: string)

  /** printError: nothing for VK_SUCCESS, otherwise one report carrying the
      call site and the table's message (empty for an unlisted code). */
  function PrintError(result: int, callee: string, file: string, line: int): (report: Option<ErrorReport>)
    ensures report.None? <==> result == VK_SUCCESS
    ensures report.Some? ==> report.value.file == file && report.value.line == line && report.value.callee == callee
    ensures report.Some? ==> (report.value.message == "" <==> result !in ERROR_MESSAGES)
  {
    if result == VK_SUCCESS then None
    else Some(ErrorReport(file, line, callee, ErrorMessage(result)))
  }

  // ---------------------------------------------------------------------
  // CHECK_VK
  // ---------------------------------------------------------------------

  /** What evaluating the wrapped expression `x` once did: it returned a
      `VkResult`, or it threw a `std::exception` whose `what()` is given. */
  datatype Evaluation = Returned(result: int) | Threw(what: string)

  /** A line CHECK_VK leaves on the error stream. */
  datatype Diagnostic = VulkanError(report: ErrorReport) | CaughtException(what: string)

  /** CHECK_VK(x): the single evaluation of `x` is the parameter, and the
      wrapper turns it into at most one diagnostic; there is no exceptional
      result, so a failed call never stops its caller. */
  function CheckVk(evaluation: Evaluation, expression: string, file: string, line: int): (log: seq<Diagnostic>)
    ensures |log| <= 1
    ensures log == [] <==> evaluation == Returned(VK_SUCCESS)
    ensures evaluation.Threw? ==> log == [CaughtException(evaluation.what)]
    ensures evaluation.Returned? && log != [] ==>
      log[0].VulkanError? && log[0].report.callee == expression &&
      log[0].report.message == ErrorMessage(evaluation.result)
  {
    match evaluation
    case Threw(what) => [CaughtException(what)]
    case Returned(result) =>
      match PrintError(result, expression, file, line)
      case None => []
      case Some(report) => [VulkanError(report)]
  }
}
