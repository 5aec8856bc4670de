/** The parameters main.cpp computes for the logical device and the swapchain
    of the selected device: the queue families to create, the queues to
    fetch, the surface format, the present mode, the extent, the image count
    and the image sharing mode. */
module SwapchainConfig {
  import opened VkHelper
  import opened DeviceSelection

  const VK_FORMAT_R8G8B8A8_SRGB: int := 43
  const VK_FORMAT_B8G8R8A8_SRGB: int := 50
  const VK_COLOR_SPACE_SRGB_NONLINEAR_KHR: int := 0

  const VK_PRESENT_MODE_IMMEDIATE_KHR: int := 0
  const VK_PRESENT_MODE_MAILBOX_KHR: int := 1
  const VK_PRESENT_MODE_FIFO_KHR: int := 2

  /** `sResolution`, the size of the window. */
  const RESOLUTION := Extent2D(1024, 1024)

  /** 8-bit BGRA in sRGB with the non-linear sRGB colour space. */
  const PREFERRED_FORMAT := SurfaceFormat(VK_FORMAT_B8G8R8A8_SRGB, VK_COLOR_SPACE_SRGB_NONLINEAR_KHR)

  // ---------------------------------------------------------------------
  // Surface format and present mode
  // ---------------------------------------------------------------------

  /** The format loop: start from the first reported format and take every
      entry that is the preferred format/colour-space pair. */
  method ChooseSurfaceFormat(formats: seq<SurfaceFormat>) returns (chosen: SurfaceFormat)
    requires |formats| > 0
    ensures chosen in formats
    ensures PREFERRED_FORMAT in formats ==> chosen == PREFERRED_FORMAT
    ensures PREFERRED_FORMAT !in formats ==> chosen == formats[0]
  {
    chosen := formats[0];
    for k := 0 to |formats|
      invariant chosen == if PREFERRED_FORMAT in formats[..k] then PREFERRED_FORMAT else formats[0]
    {
      assert formats[..k + 1] == formats[..k] + [formats[k]];
      if formats[k].format == VK_FORMAT_B8G8R8A8_SRGB && formats[k].colorSpace == VK_COLOR_SPACE_SRGB_NONLINEAR_KHR {
        chosen := formats[k];
      }
    }
    assert formats[..|formats|] == formats;
  }

  /** The present-mode loop: FIFO unless MAILBOX is reported. */
  method ChoosePresentMode(presentModes: seq<int>) returns (mode: int)
    ensures mode == VK_PRESENT_MODE_MAILBOX_KHR <==> VK_PRESENT_MODE_MAILBOX_KHR in presentModes
    ensures mode == VK_PRESENT_MODE_MAILBOX_KHR || mode == VK_PRESENT_MODE_FIFO_KHR
  {
    mode := VK_PRESENT_MODE_FIFO_KHR;
    for k := 0 to |presentModes|
      invariant mode == if VK_PRESENT_MODE_MAILBOX_KHR in presentModes[..k] then VK_PRESENT_MODE_MAILBOX_KHR else VK_PRESENT_MODE_FIFO_KHR
    {
      assert presentModes[..k + 1] == presentModes[..k] + [presentModes[k]];
      if presentModes[k] == VK_PRESENT_MODE_MAILBOX_KHR {
        mode := presentModes[k];
      }
    }
    assert presentModes[..|presentModes|] == presentModes;
  }

  // ---------------------------------------------------------------------
  // Extent
  // ---------------------------------------------------------------------

  /** `std::max(lo, std::min(hi, v))`. */
  function Clamp(v: u32, lo: u32, hi: u32): (r: u32)
    ensures lo <= hi ==> lo <= r <= hi
    ensures lo <= v <= hi ==> r == v
    ensures lo > hi ==> r == lo
  {
    Max(lo, Min(hi, v))
  }

  /** The extent rule as main.cpp writes it: the current extent when the
      surface defines one, otherwise `{UINT32_MAX, UINT32_MAX}` clamped into
      the surface's bounds, which always lands on the larger bound. */
  function ChooseSwapExtentAsWritten(caps: SurfaceCapabilities): (extent: Extent2D)
    ensures caps.currentExtent.width != UINT32_MAX ==> extent == caps.currentExtent
    ensures caps.currentExtent.width == UINT32_MAX ==>
      extent.width == Max(caps.minImageExtent.width, caps.maxImageExtent.width) &&
      extent.height == Max(caps.minImageExtent.height, caps.maxImageExtent.height)
  {
    if caps.currentExtent.width != UINT32_MAX then caps.currentExtent
    else
      Extent2D(
        Clamp(UINT32_MAX, caps.minImageExtent.width, caps.maxImageExtent.width),
        Clamp(UINT32_MAX, caps.minImageExtent.height, caps.maxImageExtent.height))
  }

  /** The extent rule with the fallback clamping the requested resolution,
      as intended: the current extent when the surface defines one,
      otherwise the requested size clamped into the surface's bounds. */
  function ChooseSwapExtent(caps: SurfaceCapabilities, requested: Extent2D): (extent: Extent2D)
    ensures caps.currentExtent.width != UINT32_MAX ==> extent == caps.currentExtent
    ensures caps.currentExtent.width == UINT32_MAX && caps.minImageExtent.width <= caps.maxImageExtent.width ==>
      caps.minImageExtent.width <= extent.width <= caps.maxImageExtent.width
    ensures caps.currentExtent.width == UINT32_MAX && caps.minImageExtent.height <= caps.maxImageExtent.height ==>
      caps.minImageExtent.height <= extent.height <= caps.maxImageExtent.height
    ensures (caps.currentExtent.width == UINT32_MAX &&
             caps.minImageExtent.width <= requested.width <= caps.maxImageExtent.width &&
             caps.minImageExtent.height <= requested.height <= caps.maxImageExtent.height) ==>
      extent == requested
  {
    if caps.currentExtent.width != UINT32_MAX then caps.currentExtent
    else
      Extent2D(
        Clamp(requested.width, caps.minImageExtent.width, caps.maxImageExtent.width),
        Clamp(requested.height, caps.minImageExtent.height, caps.maxImageExtent.height))
  }

  /** With an undefined current extent and bounds 64..4096, the code as
      written picks 4096x4096 where the 1024x1024 window size is intended. */
  lemma ExtentFallbackIgnoresResolution()
    ensures var caps := SurfaceCapabilities(2, 8, Extent2D(UINT32_MAX, UINT32_MAX),
                                            Extent2D(64, 64), Extent2D(4096, 4096), 1, 1);
      ChooseSwapExtentAsWritten(caps) == Extent2D(4096, 4096) &&
      ChooseSwapExtentAsWritten(caps) != RESOLUTION &&
      ChooseSwapExtent(caps, RESOLUTION) == RESOLUTION
  {
  }

  /** A surface that defines its extent gets exactly that extent, whatever
      the window size. */
  lemma ExtentFollowsSurface()
    ensures var caps := SurfaceCapabilities(2, 8, Extent2D(800, 600),
                                            Extent2D(64, 64), Extent2D(4096, 4096), 1, 1);
      ChooseSwapExtent(caps, RESOLUTION) == Extent2D(800, 600) &&
      ChooseSwapExtentAsWritten(caps) == Extent2D(800, 600)
  {
  }

  // ---------------------------------------------------------------------
  // Image count
  // ---------------------------------------------------------------------

  /** One image more than the minimum, capped by `maxImageCount` unless that
      is 0 ("no limit"). The sum is a `uint32_t` and wraps. */
  function SwapchainImageCount(caps: SurfaceCapabilities): (count: u32)
    ensures caps.minImageCount < UINT32_MAX && caps.maxImageCount == 0 ==> count == caps.minImageCount + 1
    ensures caps.minImageCount < UINT32_MAX && caps.maxImageCount > 0 ==>
      count == Min(caps.minImageCount + 1, caps.maxImageCount)
    ensures caps.maxImageCount > 0 ==> count <= caps.maxImageCount
    ensures caps.minImageCount == UINT32_MAX ==> count == 0
  {
    var imageCount: u32 := (caps.minImageCount + 1) % 0x1_0000_0000;
    if caps.maxImageCount > 0 && imageCount > caps.maxImageCount then caps.maxImageCount
    else imageCount
  }

  // ---------------------------------------------------------------------
  // Queue families of the logical device, device queues, sharing mode
  // ---------------------------------------------------------------------

  /** `uniqueQueueFamilies`, in the ascending order `std::set` iterates in:
      one `VkDeviceQueueCreateInfo` is made per entry. */
  function UniqueQueueFamilies(graphics: nat, present: nat): (families: seq<nat>)
    ensures forall f :: f in families <==> f == graphics || f == present
    ensures forall i, j :: 0 <= i < j < |families| ==> families[i] < families[j]
    ensures |families| == if graphics == present then 1 else 2
  {
    if graphics == present then [graphics]
    else if graphics < present then [graphics, present]
    else [present, graphics]
  }

  /** The families the two vkGetDeviceQueue calls name (queue 0 of each). */
  datatype DeviceQueues = DeviceQueues(graphicsQueueFamily: nat, presentQueueFamily: nat)

  /** As main.cpp writes it: both queues come from the graphics family. */
  function DeviceQueuesAsWritten(indices: QueueFamilyIndices): (queues: DeviceQueues)
    requires indices.IsValid()
    ensures queues.graphicsQueueFamily == queues.presentQueueFamily == indices.graphicsFamily.value
    ensures queues.presentQueueFamily == indices.presentFamily.value <==>
      indices.graphicsFamily == indices.presentFamily
  {
    DeviceQueues(indices.graphicsFamily.value, indices.graphicsFamily.value)
  }

  /** As intended: the present queue comes from the present family. */
  function DeviceQueuesFor(indices: QueueFamilyIndices): (queues: DeviceQueues)
    requires indices.IsValid()
    ensures Some(queues.graphicsQueueFamily) == indices.graphicsFamily
    ensures Some(queues.presentQueueFamily) == indices.presentFamily
  {
    DeviceQueues(indices.graphicsFamily.value, indices.presentFamily.value)
  }

  /** With a graphics-only family followed by a present-only family, the
      code as written fetches the present queue from family 0, which cannot
      present. */
  lemma PresentQueueFromGraphicsFamily()
    ensures var families := [QueueFamily(VK_QUEUE_GRAPHICS_BIT, false), QueueFamily(0, true)];
      var indices := QueueIndicesFor(families);
      indices == QueueFamilyIndices(Some(0), Some(1)) &&
      DeviceQueuesAsWritten(indices).presentQueueFamily == 0 &&
      !Supports(families[0], Present) &&
      Supports(families[DeviceQueuesFor(indices).presentQueueFamily], Present)
  {
    var families := [QueueFamily(VK_QUEUE_GRAPHICS_BIT, false), QueueFamily(0, true)];
    assert families[..0] == [];
    assert !Offers(families[..1], Present) by {
      assert families[..1] == [families[0]];
    }
    assert Supports(families[0], Graphics) && Supports(families[1], Present);
    assert ScanEndFrom(families, 0) == 2 by {
      assert families[..2] == families;
    }
    assert families[..2] == families;
    assert !Supports(families[1], Graphics);
    assert families[..1] == [families[0]];
    assert LastFamily(families[..1], Graphics) == Some(0);
  }

  /** On the indices of the queue scan, the queues of DeviceQueuesFor come
      from a graphics family and from a family that can present. */
  lemma DeviceQueuesCapable(families: seq<QueueFamily>)
    requires QueueIndicesFor(families).IsValid()
    ensures var queues := DeviceQueuesFor(QueueIndicesFor(families));
      queues.graphicsQueueFamily < |families| && Supports(families[queues.graphicsQueueFamily], Graphics) &&
      queues.presentQueueFamily < |families| && Supports(families[queues.presentQueueFamily], Present)
  {
    QueueIndicesSound(families);
  }

  datatype SharingMode = Exclusive | Concurrent

  /** `imageSharingMode`, `queueFamilyIndexCount` and `pQueueFamilyIndices`
      (an empty list for `nullptr`). */
  datatype ImageSharing = ImageSharing(mode: SharingMode, queueFamilyIndexCount: nat, queueFamilyIndices: seq<nat>)

  /** Exclusive when the graphics and present families coincide, otherwise
      concurrent between the two. */
  function ImageSharingFor(graphics: nat, present: nat): (sharing: ImageSharing)
    ensures sharing.queueFamilyIndexCount == |sharing.queueFamilyIndices|
    ensures sharing.mode == Exclusive <==> graphics == present
    ensures sharing.mode == Exclusive ==> sharing.queueFamilyIndices == []
    ensures sharing.mode == Concurrent ==> sharing.queueFamilyIndices == [graphics, present]
    ensures forall f :: f in sharing.queueFamilyIndices ==> f in UniqueQueueFamilies(graphics, present)
  {
    if graphics == present then ImageSharing(Exclusive, 0, [])
    else ImageSharing(Concurrent, 2, [graphics, present])
  }
}
