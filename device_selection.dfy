/** Physical-device selection (main.cpp, the "Physical Device" block and
    getQueueIndices). The driver is plain data: each device carries its type,
    its extension names, its queue families (with the answer that
    vkGetPhysicalDeviceSurfaceSupportKHR would give for each family) and its
    swapchain details. */
module DeviceSelection {
  import opened VkHelper

  const VK_QUEUE_GRAPHICS_BIT: bv32 := 0x1
  const VK_KHR_SWAPCHAIN_EXTENSION_NAME: string := "VK_KHR_swapchain"

  /** `sPhysicalDeviceExtensions`: the extensions a device must offer. */
  const PHYSICAL_DEVICE_EXTENSIONS: seq<string> := [VK_KHR_SWAPCHAIN_EXTENSION_NAME]

  /** One `VkQueueFamilyProperties` entry (its flag bits) together with the
      device's present support for that family on the window's surface. */
  datatype QueueFamily = QueueFamily(queueFlags: bv32, presentSupport: bool)

  datatype PhysicalDevice = PhysicalDevice(
    deviceType: int,
    extensionNames: seq<string>,
    queueFamilies: seq<QueueFamily>,
    details: SwapChainDetails)

  // ---------------------------------------------------------------------
  // Extension check
  // ---------------------------------------------------------------------

  /** Every required name is among the device's extension names. */
  predicate ExtensionsSupported(required: seq<string>, available: seq<string>) {
    forall name :: name in required ==> name in available
  }

  /** The extension check: start from the set of required names, erase every
      name the device reports, and accept when nothing is left. */
  method CheckDeviceExtensions(required: seq<string>, available: seq<string>) returns (supported: bool)
    ensures supported == ExtensionsSupported(required, available)
  {
    var requiredExtensions := set name | name in required;
    for k := 0 to |available|
      invariant requiredExtensions == (set name | name in required) - (set name | name in available[..k])
    {
      assert available[..k + 1] == available[..k] + [available[k]];
      requiredExtensions := requiredExtensions - {available[k]};
    }
    assert available[..|available|] == available;
    supported := requiredExtensions == {};
    if supported {
      forall name | name in required ensures name in available {
        assert name !in requiredExtensions;
      }
    } else {
      var missing :| missing in requiredExtensions;
      assert missing in required && missing !in available;
    }
  }

  /** Extensions the device reports beyond the required ones never change
      the verdict, wherever they appear in its list. */
  lemma ExtraExtensionsIrrelevant(required: seq<string>, available: seq<string>, before: seq<string>, after: seq<string>)
    requires forall name :: name in before ==> name !in required
    requires forall name :: name in after ==> name !in required
    ensures ExtensionsSupported(required, before + available + after) == ExtensionsSupported(required, available)
  {
  }

  // ---------------------------------------------------------------------
  // Queue-family scan
  // ---------------------------------------------------------------------

  /** The two capabilities getQueueIndices looks for. */
  datatype Capability = Graphics | Present

  predicate Supports(family: QueueFamily, c: Capability) {
    match c
    case Graphics => family.queueFlags & VK_QUEUE_GRAPHICS_BIT != 0
    case Present => family.presentSupport
  }

  /** Some family of `families` supports `c`. */
  predicate Offers(families: seq<QueueFamily>, c: Capability) {
    exists j :: 0 <= j < |families| && Supports(families[j], c)
  }

  /** Both a graphics family and a present family occur in `families`. */
  predicate Covers(families: seq<QueueFamily>) {
    Offers(families, Graphics) && Offers(families, Present)
  }

  /** The index of the last family in `families` that supports `c`. */
  function LastFamily(families: seq<QueueFamily>, c: Capability): (last: Option<nat>)
    ensures last.Some? ==> last.value < |families|
  {
    if |families| == 0 then None
    else if Supports(families[|families| - 1], c) then Some(|families| - 1)
    else LastFamily(families[..|families| - 1], c)
  }

  lemma {:induction false} LastFamilySpec(families: seq<QueueFamily>, c: Capability)
    ensures LastFamily(families, c).Some? <==> Offers(families, c)
    ensures LastFamily(families, c).Some? ==>
      var j := LastFamily(families, c).value;
      j < |families| && Supports(families[j], c) &&
      forall k :: j < k < |families| ==> !Supports(families[k], c)
  {
    if |families| > 0 && !Supports(families[|families| - 1], c) {
      var init := families[..|families| - 1];
      LastFamilySpec(init, c);
      if Offers(families, c) {
        var j :| 0 <= j < |families| && Supports(families[j], c);
        assert init[j] == families[j];
      }
      if Offers(init, c) {
        var j :| 0 <= j < |init| && Supports(init[j], c);
        assert families[j] == init[j];
      }
    }
  }

  /** Looking at a prefix of the families in which not both capabilities
      occur yet, the scan goes on up to, and including, the first family
      with which both have occurred; the result is the length of the prefix
      it reads. */
  function ScanEndFrom(families: seq<QueueFamily>, n: nat): (end: nat)
    requires n <= |families|
    ensures n <= end <= |families|
    decreases |families| - n
  {
    if n == |families| then n
    else if Covers(families[..n + 1]) then n + 1
    else ScanEndFrom(families, n + 1)
  }

  /** How many families the early-exit scan reads. */
  function ScanEnd(families: seq<QueueFamily>): (end: nat)
    ensures end <= |families|
  {
    ScanEndFrom(families, 0)
  }

  lemma {:induction false} ScanEndFromSpec(families: seq<QueueFamily>, n: nat)
    requires n <= |families|
    requires !Covers(families[..n])
    ensures ScanEndFrom(families, n) == |families| || Covers(families[..ScanEndFrom(families, n)])
    ensures ScanEndFrom(families, n) > n ==> !Covers(families[..ScanEndFrom(families, n) - 1])
    decreases |families| - n
  {
    if n < |families| && !Covers(families[..n + 1]) {
      ScanEndFromSpec(families, n + 1);
    }
  }

  /** The reference result of getQueueIndices: within the families the scan
      reads, the last graphics family and the last present family. */
  function QueueIndicesFor(families: seq<QueueFamily>): (indices: QueueFamilyIndices)
    ensures indices.graphicsFamily.Some? ==> indices.graphicsFamily.value < |families|
    ensures indices.presentFamily.Some? ==> indices.presentFamily.value < |families|
  {
    var end := ScanEnd(families);
    QueueFamilyIndices(LastFamily(families[..end], Graphics), LastFamily(families[..end], Present))
  }

  /** getQueueIndices: walk the families in order, record the index of each
      graphics family and of each present family (a later match overwriting
      an earlier one), and stop as soon as both are recorded. */
  method GetQueueIndices(families: seq<QueueFamily>) returns (indices: QueueFamilyIndices)
    ensures indices == QueueIndicesFor(families)
  {
    indices := NO_INDICES;
    var i := 0;
    while i < |families|
      invariant 0 <= i <= |families|
      invariant !Covers(families[..i])
      invariant ScanEndFrom(families, i) == ScanEndFrom(families, 0)
      invariant indices == QueueFamilyIndices(LastFamily(families[..i], Graphics), LastFamily(families[..i], Present))
    {
      assert families[..i + 1][..i] == families[..i];
      if families[i].queueFlags & VK_QUEUE_GRAPHICS_BIT != 0 {
        indices := indices.(graphicsFamily := Some(i));
      }
      if families[i].presentSupport {
        indices := indices.(presentFamily := Some(i));
      }
      LastFamilySpec(families[..i + 1], Graphics);
      LastFamilySpec(families[..i + 1], Present);
      if indices.IsValid() {
        break;
      }
      i := i + 1;
    }
    assert families[..|families|] == families;
  }

  /** A recorded graphics index names a graphics family, a recorded present
      index names a family with present support, and a field stays absent
      exactly when no family of the device qualifies for it. */
  lemma QueueIndicesSound(families: seq<QueueFamily>)
    ensures var r := QueueIndicesFor(families);
      (r.graphicsFamily.Some? ==> r.graphicsFamily.value < |families| && Supports(families[r.graphicsFamily.value], Graphics)) &&
      (r.presentFamily.Some? ==> r.presentFamily.value < |families| && Supports(families[r.presentFamily.value], Present)) &&
      (r.graphicsFamily.None? <==> !Offers(families, Graphics)) &&
      (r.presentFamily.None? <==> !Offers(families, Present))
  {
    var end := ScanEndFrom(families, 0);
    assert families[..0] == [];
    ScanEndFromSpec(families, 0);
    var scanned := families[..end];
    LastFamilySpec(scanned, Graphics);
    LastFamilySpec(scanned, Present);
    if end == |families| {
      assert scanned == families;
    } else {
      OffersPrefix(families, end, Graphics);
      OffersPrefix(families, end, Present);
    }
  }

  /** A capability offered within a prefix is offered by the whole list. */
  lemma OffersPrefix(families: seq<QueueFamily>, n: nat, c: Capability)
    requires n <= |families|
    requires Offers(families[..n], c)
    ensures Offers(families, c)
  {
  }

  /** The indices are valid exactly when the device has a graphics family
      and a family with present support (possibly the same one). */
  lemma QueueIndicesValidIff(families: seq<QueueFamily>)
    ensures QueueIndicesFor(families).IsValid() <==> Covers(families)
  {
    QueueIndicesSound(families);
  }

  /** The scan stops at the first family with which both capabilities have
      occurred: that family carries the larger of the two recorded indices,
      and each recorded index is the last match before the stop. */
  lemma QueueScanStopsEarly(families: seq<QueueFamily>)
    requires QueueIndicesFor(families).IsValid()
    ensures var r := QueueIndicesFor(families);
      var stop := Max(r.graphicsFamily.value, r.presentFamily.value);
      stop < |families| && Covers(families[..stop + 1]) && !Covers(families[..stop]) &&
      (forall k :: r.graphicsFamily.value < k <= stop ==> !Supports(families[k], Graphics)) &&
      (forall k :: r.presentFamily.value < k <= stop ==> !Supports(families[k], Present))
  {
    var end := ScanEndFrom(families, 0);
    assert families[..0] == [];
    ScanEndFromSpec(families, 0);
    var scanned := families[..end];
    LastFamilySpec(scanned, Graphics);
    LastFamilySpec(scanned, Present);
    var g, p := LastFamily(scanned, Graphics).value, LastFamily(scanned, Present).value;
    assert end > 0;
    var init := families[..end - 1];
    assert scanned[..end - 1] == init;
    // Before the last family read, one of the two capabilities was missing,
    // so the last family read is the last match of that capability.
    assert forall j :: 0 <= j < end - 1 ==> init[j] == scanned[j];
    assert !Offers(init, Graphics) ==> g == end - 1;
    assert !Offers(init, Present) ==> p == end - 1;
    var stop := Max(g, p);
    assert stop == end - 1;
    assert families[..stop + 1] == scanned;
    forall k | g < k <= stop ensures !Supports(families[k], Graphics) {
      assert scanned[k] == families[k];
    }
    forall k | p < k <= stop ensures !Supports(families[k], Present) {
      assert scanned[k] == families[k];
    }
  }

  /** The scan does not look for the smallest index of each kind: with a
      graphics-only family followed by a family with both capabilities, both
      indices name the second family. */
  lemma QueueScanNotMinimal()
    ensures var families := [QueueFamily(VK_QUEUE_GRAPHICS_BIT, false), QueueFamily(VK_QUEUE_GRAPHICS_BIT, true)];
      Supports(families[0], Graphics) &&
      QueueIndicesFor(families) == QueueFamilyIndices(Some(1), Some(1))
  {
    var families := [QueueFamily(VK_QUEUE_GRAPHICS_BIT, false), QueueFamily(VK_QUEUE_GRAPHICS_BIT, true)];
    assert families[..0] == [];
    assert !Offers(families[..1], Present) by {
      assert families[..1] == [families[0]];
    }
    assert Offers(families[..2], Graphics) && Offers(families[..2], Present) by {
      assert families[..2] == families;
      assert Supports(families[1], Graphics) && Supports(families[1], Present);
    }
    assert ScanEndFrom(families, 0) == 2;
    assert families[..2] == families;
  }

  // ---------------------------------------------------------------------
  // The four-part verdict
  // ---------------------------------------------------------------------

  datatype Verdict = Verdict(isDiscrete: bool, extensionSupported: bool, viableSwapChain: bool, queuesValid: bool)
  {
    predicate Accepted() {
      isDiscrete && extensionSupported && viableSwapChain && queuesValid
    }
  }

  /** The verdict on one device. The swapchain details are consulted only
      when the extensions are supported. */
  function DeviceVerdict(device: PhysicalDevice): (verdict: Verdict)
    ensures verdict.viableSwapChain ==> verdict.extensionSupported
  {
    var extensionSupported := ExtensionsSupported(PHYSICAL_DEVICE_EXTENSIONS, device.extensionNames);
    var viableSwapChain :=
      if extensionSupported then |device.details.formats| > 0 && |device.details.presentModes| > 0
      else false;
    Verdict(
      device.deviceType == VK_PHYSICAL_DEVICE_TYPE_DISCRETE_GPU,
      extensionSupported,
      viableSwapChain,
      QueueIndicesFor(device.queueFamilies).IsValid())
  }

  predicate Accepted(device: PhysicalDevice) {
    DeviceVerdict(device).Accepted()
  }

  /** A viable swapchain needs the extensions, and given them it needs a
      non-empty format list and a non-empty present-mode list. */
  lemma ViableSwapChainIff(device: PhysicalDevice)
    ensures DeviceVerdict(device).viableSwapChain <==>
      VK_KHR_SWAPCHAIN_EXTENSION_NAME in device.extensionNames &&
      |device.details.formats| > 0 && |device.details.presentModes| > 0
  {
  }

  /** A device is accepted exactly when it is a discrete GPU, offers the
      swapchain extension, reports at least one surface format and one
      present mode, and has a graphics family and a present-capable family. */
  lemma AcceptedIff(device: PhysicalDevice)
    ensures Accepted(device) <==>
      device.deviceType == VK_PHYSICAL_DEVICE_TYPE_DISCRETE_GPU &&
      VK_KHR_SWAPCHAIN_EXTENSION_NAME in device.extensionNames &&
      |device.details.formats| > 0 && |device.details.presentModes| > 0 &&
      Offers(device.queueFamilies, Graphics) && Offers(device.queueFamilies, Present)
  {
    QueueIndicesValidIff(device.queueFamilies);
  }

  // ---------------------------------------------------------------------
  // Last-accepted-wins selection
  // ---------------------------------------------------------------------

  /** The index of the last accepted device in enumeration order. */
  function LastAccepted(devices: seq<PhysicalDevice>): (chosen: Option<nat>)
    ensures chosen.Some? ==> chosen.value < |devices|
  {
    if |devices| == 0 then None
    else if Accepted(devices[|devices| - 1]) then Some(|devices| - 1)
    else LastAccepted(devices[..|devices| - 1])
  }

  /** LastAccepted names an accepted device after which no device is
      accepted, and is absent exactly when no device is accepted. */
  lemma {:induction false} LastAcceptedSpec(devices: seq<PhysicalDevice>)
    ensures LastAccepted(devices).None? <==> forall j :: 0 <= j < |devices| ==> !Accepted(devices[j])
    ensures LastAccepted(devices).Some? ==>
      var k := LastAccepted(devices).value;
      k < |devices| && Accepted(devices[k]) &&
      forall j :: k < j < |devices| ==> !Accepted(devices[j])
  {
    if |devices| > 0 && !Accepted(devices[|devices| - 1]) {
      var init := devices[..|devices| - 1];
      LastAcceptedSpec(init);
      forall j | 0 <= j < |init| ensures init[j] == devices[j] { }
    }
  }

  /** Two accepted devices: the later one wins, not the first. */
  lemma LastAcceptedWins(first: PhysicalDevice, second: PhysicalDevice)
    requires Accepted(first) && Accepted(second)
    ensures LastAccepted([first, second]) == Some(1)
  {
  }
}
