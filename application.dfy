/** The part of `HelloTriangleApplication::init` that decides things: the
    "Physical Device" block, which overwrites `mPhysicalDevice` with every
    accepted device, and the parameters the "Logical Device & Queue" and
    "Swap Chain" blocks compute for the selected device. The Vulkan calls
    themselves are not modelled; their inputs are kept in fields. */
module Application {
  import opened VkHelper
  import opened DeviceSelection
  import opened SwapchainConfig

  /** How the device pick ends: a device is selected; `deviceCount == 0`
      raised "Couldn't find a physical device"; or no device was accepted
      and `assert(mPhysicalDevice != VK_NULL_HANDLE)` fails. */
  datatype PickStatus = Picked | NoPhysicalDevice | NoDeviceAccepted

  /** The fields of `VkSwapchainCreateInfoKHR` that depend on the device. */
  datatype SwapchainCreateInfo = SwapchainCreateInfo(
    minImageCount: u32,
    imageFormat: int,
    imageColorSpace: int,
    imageExtent: Extent2D,
    imageArrayLayers: nat,
    sharing: ImageSharing,
    preTransform: u32,
    presentMode: int,
    clipped: bool)

  class HelloTriangleApplication {
    /** `mPhysicalDevice`: the index of the chosen device in enumeration
        order; `None` is `VK_NULL_HANDLE`. */
    var physicalDevice: Option<nat>
    /** The `queueFamilyIndex` of each `VkDeviceQueueCreateInfo`, in order. */
    var queueCreateFamilies: seq<nat>
    /** `ppEnabledExtensionNames` of the logical device. */
    var deviceExtensions: seq<string>
    /** The families `mGraphicsQueue` and `mPresentQueue` are fetched from. */
    var queues: DeviceQueues
    var swapChainSurfaceFormat: SurfaceFormat
    var swapChainExtent: Extent2D
    var swapChainCreateInfo: SwapchainCreateInfo

    constructor ()
      ensures physicalDevice == None
    {
      physicalDevice := None;
      queueCreateFamilies := [];
      deviceExtensions := [];
      queues := DeviceQueues(0, 0);
      swapChainSurfaceFormat := SurfaceFormat(0, 0);
      swapChainExtent := Extent2D(0, 0);
      swapChainCreateInfo := SwapchainCreateInfo(0, 0, 0, Extent2D(0, 0), 0, ImageSharing(Exclusive, 0, []), 0, 0, false);
    }

    /** The selection loop: every device gets the four-part verdict, and
        each accepted one overwrites `physicalDevice`, so the last accepted
        device in enumeration order wins. */
    method PickPhysicalDevice(devices: seq<PhysicalDevice>) returns (status: PickStatus)
      modifies this`physicalDevice
      ensures |devices| == 0 ==> status == NoPhysicalDevice && physicalDevice == old(physicalDevice)
      ensures |devices| > 0 ==>
        physicalDevice == (if LastAccepted(devices).Some? then LastAccepted(devices) else old(physicalDevice))
      ensures |devices| > 0 ==> (status == NoDeviceAccepted <==> physicalDevice.None?)
      ensures status == Picked <==> |devices| > 0 && physicalDevice.Some?
    {
      if |devices| == 0 {
        return NoPhysicalDevice;
      }
      for i := 0 to |devices|
        invariant physicalDevice == (if LastAccepted(devices[..i]).Some? then LastAccepted(devices[..i]) else old(physicalDevice))
      {
        var device := devices[i];
        var isDiscrete := device.deviceType == VK_PHYSICAL_DEVICE_TYPE_DISCRETE_GPU;
        var extensionSupported := CheckDeviceExtensions(PHYSICAL_DEVICE_EXTENSIONS, device.extensionNames);
        var viableSwapChain := false;
        if extensionSupported {
          viableSwapChain := |device.details.formats| > 0 && |device.details.presentModes| > 0;
        }
        var indices := GetQueueIndices(device.queueFamilies);
        assert devices[..i + 1][..i] == devices[..i];
        if isDiscrete && extensionSupported && viableSwapChain && indices.IsValid() {
          physicalDevice := Some(i);
        }
      }
      assert devices[..|devices|] == devices;
      status := if physicalDevice.Some? then Picked else NoDeviceAccepted;
    }

    /** The logical-device parameters hold for the selected device: one
        queue per distinct family of its indices, the required extensions,
        and both queues fetched from the graphics family. */
    ghost predicate LogicalDeviceConfigured(devices: seq<PhysicalDevice>)
      reads this
      requires physicalDevice.Some? && physicalDevice.value < |devices|
    {
      var indices := QueueIndicesFor(devices[physicalDevice.value].queueFamilies);
      indices.IsValid() &&
      queueCreateFamilies == UniqueQueueFamilies(indices.graphicsFamily.value, indices.presentFamily.value) &&
      deviceExtensions == PHYSICAL_DEVICE_EXTENSIONS &&
      queues == DeviceQueuesAsWritten(indices)
    }

    /** The swapchain parameters hold for the selected device: its preferred
        surface format, the extent as main.cpp computes it, the capped image
        count, the sharing mode of its indices, its current transform, and
        MAILBOX when offered, FIFO otherwise. */
    ghost predicate SwapChainConfigured(devices: seq<PhysicalDevice>)
      reads this
      requires physicalDevice.Some? && physicalDevice.value < |devices|
    {
      var details := devices[physicalDevice.value].details;
      var indices := QueueIndicesFor(devices[physicalDevice.value].queueFamilies);
      swapChainSurfaceFormat in details.formats &&
      (PREFERRED_FORMAT in details.formats ==> swapChainSurfaceFormat == PREFERRED_FORMAT) &&
      (PREFERRED_FORMAT !in details.formats ==> swapChainSurfaceFormat == details.formats[0]) &&
      swapChainExtent == ChooseSwapExtentAsWritten(details.capabilities) &&
      indices.IsValid() &&
      swapChainCreateInfo.minImageCount == SwapchainImageCount(details.capabilities) &&
      swapChainCreateInfo.imageFormat == swapChainSurfaceFormat.format &&
      swapChainCreateInfo.imageColorSpace == swapChainSurfaceFormat.colorSpace &&
      swapChainCreateInfo.imageExtent == swapChainExtent &&
      swapChainCreateInfo.imageArrayLayers == 1 &&
      swapChainCreateInfo.sharing == ImageSharingFor(indices.graphicsFamily.value, indices.presentFamily.value) &&
      swapChainCreateInfo.preTransform == details.capabilities.currentTransform &&
      (swapChainCreateInfo.presentMode == VK_PRESENT_MODE_MAILBOX_KHR <==> VK_PRESENT_MODE_MAILBOX_KHR in details.presentModes) &&
      (swapChainCreateInfo.presentMode == VK_PRESENT_MODE_MAILBOX_KHR || swapChainCreateInfo.presentMode == VK_PRESENT_MODE_FIFO_KHR) &&
      swapChainCreateInfo.clipped
    }

    /** The logical-device parameters, from the queue indices derived again
        for the selected device. Both queues are fetched from the graphics
        family, as main.cpp does. */
    method CreateLogicalDevice(devices: seq<PhysicalDevice>)
      requires physicalDevice.Some? && physicalDevice.value < |devices|
      requires Accepted(devices[physicalDevice.value])
      modifies this`queueCreateFamilies, this`deviceExtensions, this`queues
      ensures LogicalDeviceConfigured(devices)
    {
      var indices := GetQueueIndices(devices[physicalDevice.value].queueFamilies);
      queueCreateFamilies := UniqueQueueFamilies(indices.graphicsFamily.value, indices.presentFamily.value);
      deviceExtensions := PHYSICAL_DEVICE_EXTENSIONS;
      queues := DeviceQueuesAsWritten(indices);
    }

    /** The swapchain parameters of the selected device, with the extent as
        main.cpp computes it. */
    method CreateSwapChain(devices: seq<PhysicalDevice>)
      requires physicalDevice.Some? && physicalDevice.value < |devices|
      requires Accepted(devices[physicalDevice.value])
      modifies this`swapChainSurfaceFormat, this`swapChainExtent, this`swapChainCreateInfo
      ensures SwapChainConfigured(devices)
    {
      var details := devices[physicalDevice.value].details;
      swapChainSurfaceFormat := ChooseSurfaceFormat(details.formats);
      var presentMode := ChoosePresentMode(details.presentModes);
      swapChainExtent := ChooseSwapExtentAsWritten(details.capabilities);
      var imageCount := SwapchainImageCount(details.capabilities);
      var indices := GetQueueIndices(devices[physicalDevice.value].queueFamilies);
      swapChainCreateInfo := SwapchainCreateInfo(
        imageCount,
        swapChainSurfaceFormat.format,
        swapChainSurfaceFormat.colorSpace,
        swapChainExtent,
        1,
        ImageSharingFor(indices.graphicsFamily.value, indices.presentFamily.value),
        details.capabilities.currentTransform,
        presentMode,
        true);
    }

    /** Device selection followed, when a device was picked, by the logical
        device and swapchain parameters for it; on either failure nothing but
        the pick has happened. */
    method Init(devices: seq<PhysicalDevice>) returns (status: PickStatus)
      requires physicalDevice.None?
      modifies this
      ensures status == Picked <==> LastAccepted(devices).Some?
      ensures status == NoPhysicalDevice <==> |devices| == 0
      ensures physicalDevice == LastAccepted(devices)
      ensures status == Picked ==>
        physicalDevice.value < |devices| && Accepted(devices[physicalDevice.value]) &&
        LogicalDeviceConfigured(devices) && SwapChainConfigured(devices)
      ensures status != Picked ==>
        queueCreateFamilies == old(queueCreateFamilies) && deviceExtensions == old(deviceExtensions) &&
        queues == old(queues) && swapChainSurfaceFormat == old(swapChainSurfaceFormat) &&
        swapChainExtent == old(swapChainExtent) && swapChainCreateInfo == old(swapChainCreateInfo)
    {
      status := PickPhysicalDevice(devices);
      if |devices| == 0 {
        assert LastAccepted(devices).None?;
      }
      if status == Picked {
        LastAcceptedSpec(devices);
        CreateLogicalDevice(devices);
        CreateSwapChain(devices);
      }
    }
  }

  /** Format and present-mode examples, checked against the contracts. */
  method SelectionExamples()
  {
    var srgb := SurfaceFormat(VK_FORMAT_R8G8B8A8_SRGB, VK_COLOR_SPACE_SRGB_NONLINEAR_KHR);
    var f := ChooseSurfaceFormat([srgb, PREFERRED_FORMAT]);
    assert f == PREFERRED_FORMAT;
    f := ChooseSurfaceFormat([srgb]);
    assert f == srgb;
    var m := ChoosePresentMode([VK_PRESENT_MODE_FIFO_KHR, VK_PRESENT_MODE_MAILBOX_KHR]);
    assert m == VK_PRESENT_MODE_MAILBOX_KHR;
    m := ChoosePresentMode([VK_PRESENT_MODE_FIFO_KHR]);
    assert m == VK_PRESENT_MODE_FIFO_KHR;
  }
}
