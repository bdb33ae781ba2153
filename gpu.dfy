/** src/gpu/vk/gpu.cc: bringing up the Vulkan device. Which layers the
    loader offers, whether the instance and device can be created, and the
    physical devices with their queue families are the driver's answers and
    come in as inputs; the model keeps the decisions the code makes on them
    and the order in which it fails. */
module Gpu {
  import opened Results

  /** `validation_layers`, requested in debug builds only. */
  const ValidationLayers: seq<string> := ["VK_LAYER_KHRONOS_validation"]

  /** VK_QUEUE_GRAPHICS_BIT in VkQueueFlagBits. */
  const QueueGraphicsBit: bv32 := 0x1

  datatype GpuError =
    | LayerNotSupported(layer: string)
    | InstanceCreationFailed
    | NoVulkanDevices
    | NoSuitablePhysicalDevice
    | LogicalDeviceCreationFailed

  /** Every requested layer is among the available ones. */
  predicate LayersSupported(requested: seq<string>, available: seq<string>)
  {
    forall i :: 0 <= i < |requested| ==> requested[i] in available
  }

  /** `ensure_validation_layers_supported`: for each requested layer in
      order, scan the available layers by name; throw naming the first one
      that is missing. */
  method EnsureValidationLayersSupported(requested: seq<string>, available: seq<string>)
    returns (r: Outcome<GpuError>)
    ensures r.Pass? <==> LayersSupported(requested, available)
    ensures r.Fail? ==>
      exists i :: 0 <= i < |requested| && r.error == LayerNotSupported(requested[i])
        && requested[i] !in available
        && forall j :: 0 <= j < i ==> requested[j] in available
  {
    for n := 0 to |requested|
      invariant forall j :: 0 <= j < n ==> requested[j] in available
    {
      var layerName := requested[n];
      var matched := false;
      for m := 0 to |available|
        invariant matched ==> layerName in available
        invariant !matched ==> forall k :: 0 <= k < m ==> available[k] != layerName
      {
        if layerName == available[m] {
          matched := true;
          break;
        }
      }
      if !matched {
        return Fail(LayerNotSupported(layerName));
      }
    }
    return Pass;
  }

  /** The test the code applies to a queue family's queueFlags:
      `(flags & VK_QUEUE_GRAPHICS_BIT) == 1`. */
  predicate HasGraphics(queueFlags: bv32)
  {
    queueFlags & QueueGraphicsBit == 1
  }

  /** Because VK_QUEUE_GRAPHICS_BIT is bit 0, comparing the masked flags with
      1 is the same as testing the graphics bit. */
  lemma GraphicsTestIsBitTest(queueFlags: bv32)
    ensures HasGraphics(queueFlags) <==> queueFlags & QueueGraphicsBit != 0
  {
  }

  /** The first family at or after index `i` with the graphics bit. */
  function GraphicsQueueFamilyFrom(families: seq<bv32>, i: nat): (r: Option<nat>)
    requires i <= |families|
    ensures r.Some? ==> i <= r.value < |families| && HasGraphics(families[r.value])
    ensures r.Some? ==> forall j :: i <= j < r.value ==> !HasGraphics(families[j])
    ensures r.None? ==> forall j :: i <= j < |families| ==> !HasGraphics(families[j])
    decreases |families| - i
  {
    if i == |families| then None
    else if HasGraphics(families[i]) then Some(i)
    else GraphicsQueueFamilyFrom(families, i + 1)
  }

  /** `get_graphics_queue_family`: the lowest queue-family index whose flags
      have the graphics bit, or none when no family has it. */
  function GraphicsQueueFamily(families: seq<bv32>): (r: Option<nat>)
    ensures r.Some? ==> r.value < |families| && HasGraphics(families[r.value])
    ensures r.Some? ==> forall j :: 0 <= j < r.value ==> !HasGraphics(families[j])
    ensures r.None? <==> forall j :: 0 <= j < |families| ==> !HasGraphics(families[j])
  {
    GraphicsQueueFamilyFrom(families, 0)
  }

  /** A VkPhysicalDevice with the queueFlags of its queue families. */
  datatype PhysicalDevice = PhysicalDevice(handle: nat, queueFamilies: seq<bv32>)

  /** `PhysicalDeviceInfo`. */
  datatype PhysicalDeviceInfo = PhysicalDeviceInfo(device: nat, graphicsQueueFamily: nat)

  /** A device is suitable when it has a graphics queue family. */
  predicate Suitable(d: PhysicalDevice)
  {
    GraphicsQueueFamily(d.queueFamilies).Some?
  }

  /** The first suitable device at or after index `i`, with its family. */
  function FirstSuitableFrom(devices: seq<PhysicalDevice>, i: nat): (r: Option<PhysicalDeviceInfo>)
    requires i <= |devices|
    ensures r.None? ==> forall j :: i <= j < |devices| ==> !Suitable(devices[j])
    ensures r.Some? ==>
      exists k :: i <= k < |devices| && Suitable(devices[k])
        && r.value == PhysicalDeviceInfo(devices[k].handle, GraphicsQueueFamily(devices[k].queueFamilies).value)
        && forall j :: i <= j < k ==> !Suitable(devices[j])
    decreases |devices| - i
  {
    if i == |devices| then None
    else match GraphicsQueueFamily(devices[i].queueFamilies)
      case Some(family) => Some(PhysicalDeviceInfo(devices[i].handle, family))
      case None => FirstSuitableFrom(devices, i + 1)
  }

  /** `find_best_physical_device`: throw when no device is enumerated;
      otherwise the first device, in enumeration order, that has a graphics
      queue family, paired with that family, or none. */
  function FindBestPhysicalDevice(devices: seq<PhysicalDevice>): (r: Result<Option<PhysicalDeviceInfo>, GpuError>)
    ensures r.Err? <==> |devices| == 0
    ensures r.Err? ==> r.error == NoVulkanDevices
    ensures r.Ok? && r.value.None? ==> forall j :: 0 <= j < |devices| ==> !Suitable(devices[j])
    ensures r.Ok? && r.value.Some? ==>
      exists k :: 0 <= k < |devices| && Suitable(devices[k])
        && r.value.value == PhysicalDeviceInfo(devices[k].handle, GraphicsQueueFamily(devices[k].queueFamilies).value)
        && forall j :: 0 <= j < k ==> !Suitable(devices[j])
  {
    if |devices| == 0 then Err(NoVulkanDevices)
    else Ok(FirstSuitableFrom(devices, 0))
  }

  /** VkDeviceQueueCreateInfo (the queue priority, a float 1.0, is left out). */
  datatype QueueCreateInfo = QueueCreateInfo(queueFamilyIndex: nat, queueCount: nat)

  /** VkDeviceCreateInfo as `create_logical_device` fills it in, with the
      physical device it is passed to. */
  datatype DeviceCreateInfo = DeviceCreateInfo(
    physicalDevice: nat,
    queueCreateInfos: seq<QueueCreateInfo>,
    enabledLayers: seq<string>)

  /** The request `create_logical_device` makes: one queue from the chosen
      graphics family, with the validation layers in debug builds. */
  function DeviceCreateInfoFor(info: PhysicalDeviceInfo, debug: bool): DeviceCreateInfo
  {
    DeviceCreateInfo(info.device, [QueueCreateInfo(info.graphicsQueueFamily, 1)], if debug then ValidationLayers else [])
  }

  /** The logical device asks for exactly one queue, on the device that was
      selected, from a family of that device that has the graphics bit. */
  lemma {:induction false} DeviceRequestIsOneGraphicsQueue(devices: seq<PhysicalDevice>, debug: bool)
    requires FindBestPhysicalDevice(devices).Ok? && FindBestPhysicalDevice(devices).value.Some?
    ensures var request := DeviceCreateInfoFor(FindBestPhysicalDevice(devices).value.value, debug);
      && |request.queueCreateInfos| == 1
      && request.queueCreateInfos[0].queueCount == 1
      && exists k :: 0 <= k < |devices| && devices[k].handle == request.physicalDevice
           && request.queueCreateInfos[0].queueFamilyIndex < |devices[k].queueFamilies|
           && HasGraphics(devices[k].queueFamilies[request.queueCreateInfos[0].queueFamilyIndex])
  {
    var info := FindBestPhysicalDevice(devices).value.value;
    var k :| 0 <= k < |devices| && Suitable(devices[k])
      && info == PhysicalDeviceInfo(devices[k].handle, GraphicsQueueFamily(devices[k].queueFamilies).value);
    assert HasGraphics(devices[k].queueFamilies[info.graphicsQueueFamily]);
  }

  /** A Vulkan handle: VK_NULL_HANDLE or a live object. */
  datatype VkHandle = NullHandle | Handle(id: nat)

  /** The driver calls `init` makes, in order (enumeration calls omitted). */
  datatype InitCall =
    | CreateInstance(extensions: seq<string>, layers: seq<string>)
    | CreateDevice(createInfo: DeviceCreateInfo)
    | GetDeviceQueue(queueFamilyIndex: nat, queueIndex: nat)

  /** The calls the destructor makes. */
  datatype DestroyCall =
    | DestroyDevice(device: nat)
    | DestroySurface(owner: VkHandle, surface: nat)
    | DestroyInstance(instance: nat)

  /** Position of each kind of call in the teardown order. */
  function TeardownRank(c: DestroyCall): nat
  {
    match c
    case DestroyDevice(_) => 0
    case DestroySurface(_, _) => 1
    case DestroyInstance(_) => 2
  }

  /** The driver's answers during `init`: the layers the loader offers, the
      instance handle (none when vkCreateInstance fails), the enumerated
      physical devices, and the device handle (none when vkCreateDevice
      fails). */
  datatype GpuDriver = GpuDriver(
    availableLayers: seq<string>,
    instance: Option<nat>,
    devices: seq<PhysicalDevice>,
    device: Option<nat>)

  /** `Gpu` and its four handles. */
  class Gpu {
    var vkInstance: VkHandle
    var physicalDevice: VkHandle
    var device: VkHandle
    var surface: VkHandle

    constructor ()
      ensures vkInstance == NullHandle && physicalDevice == NullHandle
      ensures device == NullHandle && surface == NullHandle
    {
      vkInstance, physicalDevice, device, surface := NullHandle, NullHandle, NullHandle, NullHandle;
    }

    /** `init(extensions)`, with `debug` standing for a VILLA_DEBUG build.
        Steps fail in a fixed order (layers, instance, physical device,
        logical device); a failing step makes no later call and leaves the
        handles it would have set as they were. `init` never assigns
        `physical_device_` or `surface_`. */
    method Init(extensions: seq<string>, debug: bool, driver: GpuDriver)
      returns (r: Outcome<GpuError>, calls: seq<InitCall>)
      modifies this
      ensures physicalDevice == old(physicalDevice) && surface == old(surface)
      ensures debug && !LayersSupported(ValidationLayers, driver.availableLayers) ==>
        && r.Fail? && r.error.LayerNotSupported?
        && calls == [] && vkInstance == old(vkInstance) && device == old(device)
      ensures !debug || LayersSupported(ValidationLayers, driver.availableLayers) ==>
        |calls| >= 1 && calls[0] == CreateInstance(extensions, if debug then ValidationLayers else [])
      ensures |calls| >= 1 && driver.instance.None? ==>
        r == Fail(InstanceCreationFailed) && |calls| == 1 && vkInstance == old(vkInstance) && device == old(device)
      ensures |calls| >= 1 && driver.instance.Some? ==>
        vkInstance == Handle(driver.instance.value)
      ensures |calls| >= 1 && driver.instance.Some? && FindBestPhysicalDevice(driver.devices).Err? ==>
        r == Fail(NoVulkanDevices) && |calls| == 1 && device == old(device)
      ensures |calls| >= 1 && driver.instance.Some? && FindBestPhysicalDevice(driver.devices) == Ok(None) ==>
        r == Fail(NoSuitablePhysicalDevice) && |calls| == 1 && device == old(device)
      ensures |calls| >= 2 ==>
        && FindBestPhysicalDevice(driver.devices).Ok?
        && FindBestPhysicalDevice(driver.devices).value.Some?
        && var info := FindBestPhysicalDevice(driver.devices).value.value;
        && calls[1] == CreateDevice(DeviceCreateInfoFor(info, debug))
        && (driver.device.None? ==> r == Fail(LogicalDeviceCreationFailed) && |calls| == 2 && device == old(device))
        && (driver.device.Some? ==> r == Pass && |calls| == 3 && device == Handle(driver.device.value)
                                    && calls[2] == GetDeviceQueue(info.graphicsQueueFamily, 0))
      ensures (!debug || LayersSupported(ValidationLayers, driver.availableLayers)) && driver.instance.Some?
              && FindBestPhysicalDevice(driver.devices).Ok? && FindBestPhysicalDevice(driver.devices).value.Some? ==>
        |calls| >= 2
      ensures r.Pass? <==>
        && (!debug || LayersSupported(ValidationLayers, driver.availableLayers))
        && driver.instance.Some?
        && FindBestPhysicalDevice(driver.devices).Ok? && FindBestPhysicalDevice(driver.devices).value.Some?
        && driver.device.Some?
      ensures r.Pass? ==> |calls| == 3
    {
      calls := [];
      var layers: seq<string> := [];
      if debug {
        var supported := EnsureValidationLayersSupported(ValidationLayers, driver.availableLayers);
        if supported.Fail? {
          return supported, calls;
        }
        layers := ValidationLayers;
      }

      calls := calls + [CreateInstance(extensions, layers)];
      if driver.instance.None? {
        return Fail(InstanceCreationFailed), calls;
      }
      vkInstance := Handle(driver.instance.value);

      var found := FindBestPhysicalDevice(driver.devices);
      if found.Err? {
        return Fail(found.error), calls;
      }
      if found.value.None? {
        return Fail(NoSuitablePhysicalDevice), calls;
      }
      var info := found.value.value;

      calls := calls + [CreateDevice(DeviceCreateInfoFor(info, debug))];
      if driver.device.None? {
        return Fail(LogicalDeviceCreationFailed), calls;
      }
      device := Handle(driver.device.value);

      calls := calls + [GetDeviceQueue(info.graphicsQueueFamily, 0)];
      r := Pass;
    }

    /** `~Gpu`: destroy the device, then the surface, then the instance,
        skipping each handle that is null; every other handle is destroyed
        once. */
    method Destroy() returns (calls: seq<DestroyCall>)
      ensures forall i, j :: 0 <= i < j < |calls| ==> TeardownRank(calls[i]) < TeardownRank(calls[j])
      ensures device.Handle? ==> DestroyDevice(device.id) in calls
      ensures surface.Handle? ==> DestroySurface(vkInstance, surface.id) in calls
      ensures vkInstance.Handle? ==> DestroyInstance(vkInstance.id) in calls
      ensures forall c :: c in calls ==>
        && (c.DestroyDevice? ==> device == Handle(c.device))
        && (c.DestroySurface? ==> surface == Handle(c.surface) && c.owner == vkInstance)
        && (c.DestroyInstance? ==> vkInstance == Handle(c.instance))
    {
      calls := [];
      if device != NullHandle {
        calls := calls + [DestroyDevice(device.id)];
      }
      if surface != NullHandle {
        calls := calls + [DestroySurface(vkInstance, surface.id)];
      }
      if vkInstance != NullHandle {
        calls := calls + [DestroyInstance(vkInstance.id)];
      }
    }
  }
}
