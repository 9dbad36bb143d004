/**
 * Physical-device selection: each enumerated device is checked against the
 * engine's requirements (device type, queue families, swapchain support,
 * extensions, sampler anisotropy) and the first that meets them is selected,
 * with its graphics, present and transfer family indices. Each device is
 * described by what the driver reports about it.
 */
module VulkanDevice {
  import opened Defines
  import opened VulkanTypes

  /** VkQueueFlagBits. */
  const QueueGraphicsBit: bv32 := 0x1
  const QueueComputeBit: bv32 := 0x2
  const QueueTransferBit: bv32 := 0x4

  /** A family index of -1 in C, stored in a u32. */
  const NoFamily: u32 := U32Max

  /** The starting value of the running minimum transfer score (a u8). */
  const InitialTransferScore: nat := 255

  /** VK_KHR_SWAPCHAIN_EXTENSION_NAME. */
  const SwapchainExtensionName: string := "VK_KHR_swapchain"

  datatype DeviceType = OtherGpu | IntegratedGpu | DiscreteGpu | VirtualGpu | CpuDevice

  /** A queue family: its flags and whether it can present to the surface. */
  datatype QueueFamily = QueueFamily(queueFlags: bv32, supportsPresent: bool)

  /** What the driver reports about one physical device. */
  datatype PhysicalDevice = PhysicalDevice(
    deviceType: DeviceType,
    queueFamilies: seq<QueueFamily>,
    support: SwapchainSupport,
    extensions: seq<string>,
    samplerAnisotropy: bool)

  /** A `vulkan_physical_device_requirements`; a null extension list is None. */
  datatype Requirements = Requirements(
    graphics: bool,
    present: bool,
    compute: bool,
    transfer: bool,
    deviceExtensionNames: Option<seq<string>>,
    samplerAnisotropy: bool,
    discreteGpu: bool)

  /** A `vulkan_physical_device_queue_family_info`. */
  datatype QueueFamilyInfo = QueueFamilyInfo(graphics: u32, present: u32, compute: u32, transfer: u32)

  /** The requirements SelectPhysicalDevice uses: graphics, present and transfer queues, no compute queue, the swapchain extension, sampler anisotropy and a discrete GPU. */
  const EngineRequirements: Requirements :=
    Requirements(true, true, false, true, Some([SwapchainExtensionName]), true, true)

  const NoFamilies: QueueFamilyInfo := QueueFamilyInfo(NoFamily, NoFamily, NoFamily, NoFamily)

  datatype QueueKind = GraphicsQueue | ComputeQueue | TransferQueue | PresentQueue

  predicate Supports(f: QueueFamily, kind: QueueKind)
  {
    match kind
    case GraphicsQueue => f.queueFlags & QueueGraphicsBit != 0
    case ComputeQueue => f.queueFlags & QueueComputeBit != 0
    case TransferQueue => f.queueFlags & QueueTransferBit != 0
    case PresentQueue => f.supportsPresent
  }

  /** How general-purpose a family is: one point each for graphics and compute. */
  function TransferScore(f: QueueFamily): (score: nat)
    ensures score <= 2
  {
    (if Supports(f, GraphicsQueue) then 1 else 0) + (if Supports(f, ComputeQueue) then 1 else 0)
  }

  /** The last family supporting `kind`, or NoFamily when none does. */
  function LastFamily(families: seq<QueueFamily>, kind: QueueKind): (r: u32)
    requires |families| < U32Max
    ensures r == NoFamily || r < |families|
    decreases |families|
  {
    if families == [] then NoFamily
    else if Supports(families[|families| - 1], kind) then |families| - 1
    else LastFamily(families[..|families| - 1], kind)
  }

  /** LastFamily names a family of that kind with none after it, and NoFamily exactly when there is none. */
  lemma {:induction false} LastFamilyIsLast(families: seq<QueueFamily>, kind: QueueKind)
    requires |families| < U32Max
    ensures var r := LastFamily(families, kind);
      r == NoFamily <==> forall i :: 0 <= i < |families| ==> !Supports(families[i], kind)
    ensures var r := LastFamily(families, kind);
      r != NoFamily ==> Supports(families[r], kind)
    ensures var r := LastFamily(families, kind);
      r != NoFamily ==> forall j :: r < j < |families| ==> !Supports(families[j], kind)
    decreases |families|
  {
    if families != [] && !Supports(families[|families| - 1], kind) {
      var prefix := families[..|families| - 1];
      LastFamilyIsLast(prefix, kind);
      assert forall i :: 0 <= i < |prefix| ==> prefix[i] == families[i];
    }
  }

  /**
   * The transfer family and the running minimum score after scanning
   * `families`: a transfer-capable family is taken whenever its score is at
   * most the lowest seen so far.
   */
  function TransferPick(families: seq<QueueFamily>): (r: (u32, nat))
    requires |families| < U32Max
    ensures r.0 == NoFamily || r.0 < |families|
    decreases |families|
  {
    if families == [] then (NoFamily, InitialTransferScore)
    else
      var before := TransferPick(families[..|families| - 1]);
      var f := families[|families| - 1];
      if Supports(f, TransferQueue) && TransferScore(f) <= before.1 then (|families| - 1, TransferScore(f))
      else before
  }

  /**
   * The transfer pick is the last transfer-capable family attaining the lowest
   * score, so a dedicated transfer family wins and ties go to the later
   * family; NoFamily exactly when no family offers transfer.
   */
  lemma {:induction false} TransferPickIsLastMinimum(families: seq<QueueFamily>)
    requires |families| < U32Max
    ensures var r := TransferPick(families);
      r.0 == NoFamily <==> forall i :: 0 <= i < |families| ==> !Supports(families[i], TransferQueue)
    ensures var r := TransferPick(families);
      r.0 == NoFamily ==> r.1 == InitialTransferScore
    ensures var r := TransferPick(families);
      r.0 != NoFamily ==> Supports(families[r.0], TransferQueue) && r.1 == TransferScore(families[r.0])
    ensures var r := TransferPick(families);
      r.0 != NoFamily ==> forall j :: 0 <= j < |families| && Supports(families[j], TransferQueue) ==>
        TransferScore(families[r.0]) <= TransferScore(families[j])
    ensures var r := TransferPick(families);
      r.0 != NoFamily ==> forall j :: r.0 < j < |families| && Supports(families[j], TransferQueue) ==>
        TransferScore(families[r.0]) < TransferScore(families[j])
    decreases |families|
  {
    if families != [] {
      var prefix := families[..|families| - 1];
      TransferPickIsLastMinimum(prefix);
      assert forall i :: 0 <= i < |prefix| ==> prefix[i] == families[i];
    }
  }

  /** The family indices the scan of PhysicalDeviceMeetsRequirements records. */
  function ScanSpec(families: seq<QueueFamily>): QueueFamilyInfo
    requires |families| < U32Max
  {
    QueueFamilyInfo(
      LastFamily(families, GraphicsQueue),
      LastFamily(families, PresentQueue),
      LastFamily(families, ComputeQueue),
      TransferPick(families).0)
  }

  /** Every required kind of queue was found. */
  predicate QueuesMet(req: Requirements, info: QueueFamilyInfo)
  {
    (!req.graphics || info.graphics != NoFamily) &&
    (!req.present || info.present != NoFamily) &&
    (!req.compute || info.compute != NoFamily) &&
    (!req.transfer || info.transfer != NoFamily)
  }

  /** The extension check: passes with no list, with no available extensions at all, or when every required name is available. */
  predicate ExtensionsMet(req: Requirements, available: seq<string>)
  {
    req.deviceExtensionNames.None? || |available| == 0 ||
    forall i :: 0 <= i < |req.deviceExtensionNames.value| ==> req.deviceExtensionNames.value[i] in available
  }

  /** The device passes the type check. */
  predicate TypeMet(req: Requirements, device: PhysicalDevice)
  {
    !req.discreteGpu || device.deviceType == DiscreteGpu
  }

  /** The device's swapchain support gets queried: it passed the type and the queue checks. */
  predicate SupportQueried(req: Requirements, device: PhysicalDevice)
    requires |device.queueFamilies| < U32Max
  {
    TypeMet(req, device) && QueuesMet(req, ScanSpec(device.queueFamilies))
  }

  /** Every check of PhysicalDeviceMeetsRequirements, in the order it makes them. */
  predicate Meets(req: Requirements, device: PhysicalDevice)
    requires |device.queueFamilies| < U32Max
  {
    SupportQueried(req, device) &&
    |device.support.formats| >= 1 && |device.support.presentModes| >= 1 &&
    ExtensionsMet(req, device.extensions) &&
    (!req.samplerAnisotropy || device.samplerAnisotropy)
  }

  predicate Enumerable(devices: seq<PhysicalDevice>)
  {
    forall i :: 0 <= i < |devices| ==> |devices[i].queueFamilies| < U32Max
  }

  /** The first device in enumeration order meeting `req`. */
  function FirstSuitable(req: Requirements, devices: seq<PhysicalDevice>): (r: Option<nat>)
    requires Enumerable(devices)
    ensures r.Some? ==> r.value < |devices| && Meets(req, devices[r.value])
    ensures r.Some? ==> forall k :: 0 <= k < r.value ==> !Meets(req, devices[k])
    ensures r.None? ==> forall k :: 0 <= k < |devices| ==> !Meets(req, devices[k])
    decreases |devices|
  {
    if devices == [] then None
    else if Meets(req, devices[0]) then Some(0)
    else match FirstSuitable(req, devices[1..])
      case None => None
      case Some(i) => Some(i + 1)
  }

  /** The context's swapchain support after the devices in `devices` were checked: the support of the last one queried. */
  function LastQueriedSupport(req: Requirements, devices: seq<PhysicalDevice>, initial: SwapchainSupport): SwapchainSupport
    requires Enumerable(devices)
    decreases |devices|
  {
    if devices == [] then initial
    else if SupportQueried(req, devices[|devices| - 1]) then devices[|devices| - 1].support
    else LastQueriedSupport(req, devices[..|devices| - 1], initial)
  }

  /**
   * The family loop of PhysicalDeviceMeetsRequirements: graphics, compute and
   * present each take the last family that has them; transfer follows the
   * running minimum score.
   */
  method ScanQueueFamilies(families: seq<QueueFamily>) returns (info: QueueFamilyInfo)
    requires |families| < U32Max
    ensures info == ScanSpec(families)
  {
    info := NoFamilies;
    var minTransferScore: nat := InitialTransferScore;
    var i := 0;
    while i < |families|
      invariant 0 <= i <= |families|
      invariant info.graphics == LastFamily(families[..i], GraphicsQueue)
      invariant info.compute == LastFamily(families[..i], ComputeQueue)
      invariant info.present == LastFamily(families[..i], PresentQueue)
      invariant (info.transfer, minTransferScore) == TransferPick(families[..i])
    {
      ScanStep(families, i);
      var currentTransferScore := 0;
      if families[i].queueFlags & QueueGraphicsBit != 0 {
        info := info.(graphics := i);
        currentTransferScore := currentTransferScore + 1;
      }
      if families[i].queueFlags & QueueComputeBit != 0 {
        info := info.(compute := i);
        currentTransferScore := currentTransferScore + 1;
      }
      if families[i].queueFlags & QueueTransferBit != 0 {
        if currentTransferScore <= minTransferScore {
          minTransferScore := currentTransferScore;
          info := info.(transfer := i);
        }
      }
      if families[i].supportsPresent {
        info := info.(present := i);
      }
      i := i + 1;
    }
    assert families[..|families|] == families;
  }

  /** Scanning one more family: how each pick changes. */
  lemma ScanStep(families: seq<QueueFamily>, i: nat)
    requires |families| < U32Max && i < |families|
    ensures LastFamily(families[..i + 1], GraphicsQueue) ==
      if families[i].queueFlags & QueueGraphicsBit != 0 then i else LastFamily(families[..i], GraphicsQueue)
    ensures LastFamily(families[..i + 1], ComputeQueue) ==
      if families[i].queueFlags & QueueComputeBit != 0 then i else LastFamily(families[..i], ComputeQueue)
    ensures LastFamily(families[..i + 1], PresentQueue) ==
      if families[i].supportsPresent then i else LastFamily(families[..i], PresentQueue)
    ensures TransferPick(families[..i + 1]) ==
      if Supports(families[i], TransferQueue) && TransferScore(families[i]) <= TransferPick(families[..i]).1
      then (i, TransferScore(families[i])) else TransferPick(families[..i])
  {
    assert families[..i + 1][..i] == families[..i];
  }

  /** The nested extension search: is every required name among the available ones. */
  method HasExtensions(required: seq<string>, available: seq<string>) returns (ok: bool)
    ensures ok <==> forall i :: 0 <= i < |required| ==> required[i] in available
  {
    var i := 0;
    while i < |required|
      invariant 0 <= i <= |required|
      invariant forall k :: 0 <= k < i ==> required[k] in available
    {
      var found := false;
      var j := 0;
      while j < |available|
        invariant 0 <= j <= |available|
        invariant forall k :: 0 <= k < j ==> available[k] != required[i]
      {
        if required[i] == available[j] {
          found := true;
          break;
        }
        j := j + 1;
      }
      if !found {
        assert required[i] !in available;
        return false;
      }
      assert required[i] in available;
      i := i + 1;
    }
    return true;
  }

  /**
   * PhysicalDeviceMeetsRequirements: `info` is the family indices it leaves
   * in its out-parameter, `queried` whether it queried the swapchain support
   * (which the caller's context then holds).
   */
  method MeetsRequirements(req: Requirements, device: PhysicalDevice)
    returns (ok: bool, info: QueueFamilyInfo, queried: bool)
    requires |device.queueFamilies| < U32Max
    ensures ok == Meets(req, device)
    ensures queried == SupportQueried(req, device)
    ensures !TypeMet(req, device) ==> info == NoFamilies
    ensures TypeMet(req, device) ==> info == ScanSpec(device.queueFamilies)
  {
    info := NoFamilies;
    queried := false;
    if req.discreteGpu && device.deviceType != DiscreteGpu {
      return false, info, queried;
    }
    info := ScanQueueFamilies(device.queueFamilies);
    if (!req.graphics || info.graphics != NoFamily) &&
       (!req.present || info.present != NoFamily) &&
       (!req.compute || info.compute != NoFamily) &&
       (!req.transfer || info.transfer != NoFamily)
    {
      queried := true;
      var support := device.support;
      if |support.formats| < 1 || |support.presentModes| < 1 {
        return false, info, queried;
      }
      if req.deviceExtensionNames.Some? {
        if |device.extensions| != 0 {
          var all := HasExtensions(req.deviceExtensionNames.value, device.extensions);
          if !all {
            return false, info, queried;
          }
        }
      }
      if req.samplerAnisotropy && !device.samplerAnisotropy {
        return false, info, queried;
      }
      return true, info, queried;
    }
    return false, info, queried;
  }

  /**
   * SelectPhysicalDevice over the enumerated `devices`: fails on none; else
   * selects the first that meets the engine's requirements and records its
   * family indices. The result is whether the context holds a device
   * afterwards, so a context already holding one keeps reporting success.
   */
  method SelectPhysicalDevice(context: VulkanContext, devices: seq<PhysicalDevice>) returns (ok: bool)
    requires Enumerable(devices)
    modifies context`physicalDevice, context`graphicsQueueIndex, context`presentQueueIndex,
      context`transferQueueIndex, context`swapchainSupport
    ensures devices == [] ==>
      !ok && context.physicalDevice == old(context.physicalDevice) &&
      context.swapchainSupport == old(context.swapchainSupport)
    ensures devices != [] && FirstSuitable(EngineRequirements, devices).Some? ==>
      var i := FirstSuitable(EngineRequirements, devices).value;
      ok && context.physicalDevice == Some(i) &&
      context.graphicsQueueIndex == ScanSpec(devices[i].queueFamilies).graphics &&
      context.presentQueueIndex == ScanSpec(devices[i].queueFamilies).present &&
      context.transferQueueIndex == ScanSpec(devices[i].queueFamilies).transfer &&
      context.swapchainSupport == devices[i].support
    ensures devices != [] && FirstSuitable(EngineRequirements, devices).None? ==>
      (ok <==> old(context.physicalDevice).Some?) &&
      context.physicalDevice == old(context.physicalDevice) &&
      context.graphicsQueueIndex == old(context.graphicsQueueIndex) &&
      context.presentQueueIndex == old(context.presentQueueIndex) &&
      context.transferQueueIndex == old(context.transferQueueIndex) &&
      context.swapchainSupport == LastQueriedSupport(EngineRequirements, devices, old(context.swapchainSupport))
  {
    if |devices| == 0 {
      return false;
    }
    var i := 0;
    while i < |devices|
      invariant 0 <= i <= |devices|
      invariant forall k :: 0 <= k < i ==> !Meets(EngineRequirements, devices[k])
      invariant context.physicalDevice == old(context.physicalDevice)
      invariant context.graphicsQueueIndex == old(context.graphicsQueueIndex)
      invariant context.presentQueueIndex == old(context.presentQueueIndex)
      invariant context.transferQueueIndex == old(context.transferQueueIndex)
      invariant context.swapchainSupport ==
        LastQueriedSupport(EngineRequirements, devices[..i], old(context.swapchainSupport))
    {
      QueriedStep(devices, i, old(context.swapchainSupport));
      var result, queueInfo, queried := MeetsRequirements(EngineRequirements, devices[i]);
      if queried {
        context.swapchainSupport := devices[i].support;
      }
      if result {
        FirstSuitableIs(EngineRequirements, devices, i);
        context.physicalDevice := Some(i);
        context.graphicsQueueIndex := queueInfo.graphics;
        context.presentQueueIndex := queueInfo.present;
        context.transferQueueIndex := queueInfo.transfer;
        break;
      }
      assert !Meets(EngineRequirements, devices[i]);
      i := i + 1;
    }
    if i == |devices| {
      assert devices[..i] == devices;
      NoneSuitable(EngineRequirements, devices);
    }
    return context.physicalDevice.Some?;
  }

  /** The first device meeting the requirements, with none before it, is the one FirstSuitable names. */
  lemma FirstSuitableIs(req: Requirements, devices: seq<PhysicalDevice>, i: nat)
    requires Enumerable(devices) && i < |devices| && Meets(req, devices[i])
    requires forall k :: 0 <= k < i ==> !Meets(req, devices[k])
    ensures FirstSuitable(req, devices) == Some(i)
  {
  }

  /** Checking one more device: its support is the latest queried exactly when it was queried. */
  lemma QueriedStep(devices: seq<PhysicalDevice>, i: nat, initial: SwapchainSupport)
    requires Enumerable(devices) && i < |devices|
    ensures Enumerable(devices[..i]) && Enumerable(devices[..i + 1])
    ensures LastQueriedSupport(EngineRequirements, devices[..i + 1], initial) ==
      if SupportQueried(EngineRequirements, devices[i]) then devices[i].support
      else LastQueriedSupport(EngineRequirements, devices[..i], initial)
  {
    assert devices[..i + 1][..i] == devices[..i];
  }

  /** When no device meets the requirements, FirstSuitable finds none. */
  lemma NoneSuitable(req: Requirements, devices: seq<PhysicalDevice>)
    requires Enumerable(devices)
    requires forall k :: 0 <= k < |devices| ==> !Meets(req, devices[k])
    ensures FirstSuitable(req, devices).None?
  {
  }

  /** A device that is not a discrete GPU is rejected under the engine's requirements, whatever its queues. */
  lemma NonDiscreteRejected(device: PhysicalDevice)
    requires |device.queueFamilies| < U32Max && device.deviceType != DiscreteGpu
    ensures !Meets(EngineRequirements, device)
  {
  }

  /** A family offering transfer alone beats any graphics or compute family that also offers transfer. */
  lemma DedicatedTransferPreferred(families: seq<QueueFamily>, d: nat)
    requires |families| < U32Max && d < |families|
    requires Supports(families[d], TransferQueue) && TransferScore(families[d]) == 0
    ensures TransferPick(families).0 != NoFamily
    ensures TransferScore(families[TransferPick(families).0]) == 0
    ensures TransferPick(families).0 >= d
  {
    TransferPickIsLastMinimum(families);
  }
}
