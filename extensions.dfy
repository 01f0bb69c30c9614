// Which core versions and extensions an instance, a physical device and a
// device have: computed from the application's API version, the device's
// reported API version and the extension-name lists, and used to gate the
// entry points the layers hand out. Also the rewrite of a device's extension
// list that force-enables VK_EXT_memory_budget.

module Extensions {
  import opened Vk

  /** One flag of InstanceExtensionsEnabled. */
  datatype InstanceFlag = InstanceCore11 | InstanceCore12 | InstanceCore13
                        | DeviceGroupCreation | ExternalMemoryCapabilities | PhysicalDeviceProperties2

  /** InstanceExtensionsEnabled, as the set of its flags that are true. */
  type InstanceExtensions = set<InstanceFlag>

  /**
   * One flag of DeviceExtensions, the record a physical device keeps of what
   * it supports and a device of what it enabled. The memory tracker has no
   * swapchain, display-control or swapchain-maintenance flags; they never
   * appear in its sets.
   */
  datatype DeviceFlag = Core11 | Core12 | Core13
                      | Synchronization2 | ExternalMemoryFd | MemoryBudget
                      | Swapchain | DisplayControl | SwapchainMaintenance1

  /** DeviceExtensions, as the set of its flags that are true. */
  type DeviceExtensions = set<DeviceFlag>

  const CORE_FLAGS: DeviceExtensions := {Core11, Core12, Core13}

  // ---------------------------------------------------------------------
  // Core versions

  /**
   * The core flags an instance gets from VkApplicationInfo::apiVersion
   * (`None` when the application passes no VkApplicationInfo): none for a
   * missing or zero version, otherwise 1.1, 1.2 and 1.3 for minor versions
   * above 0, 1 and 2.
   */
  function InstanceCoreFlags(apiVersion: Option<u32>): (r: InstanceExtensions)
    ensures InstanceCore11 in r <==> apiVersion.Some? && apiVersion.value != 0 && VersionMinor(apiVersion.value) > 0
    ensures InstanceCore12 in r <==> apiVersion.Some? && apiVersion.value != 0 && VersionMinor(apiVersion.value) > 1
    ensures InstanceCore13 in r <==> apiVersion.Some? && apiVersion.value != 0 && VersionMinor(apiVersion.value) > 2
    ensures r <= {InstanceCore11, InstanceCore12, InstanceCore13}
  {
    match apiVersion
    case None => {}
    case Some(v) =>
      if v == 0 then {}
      else
        var minor := VersionMinor(v);
        (if minor > 0 then {InstanceCore11} else {})
          + (if minor > 1 then {InstanceCore12} else {})
          + (if minor > 2 then {InstanceCore13} else {})
  }

  /** A later core version always implies the earlier ones. */
  lemma InstanceCoreFlagsNested(apiVersion: Option<u32>)
    ensures var r := InstanceCoreFlags(apiVersion);
      (InstanceCore13 in r ==> InstanceCore12 in r) && (InstanceCore12 in r ==> InstanceCore11 in r)
  {
  }

  /** Example: VK_API_VERSION_1_2 (0x00402000) gives 1.1 and 1.2 but not 1.3; version 0 gives nothing. */
  lemma InstanceCoreFlagsExamples()
    ensures InstanceCoreFlags(Some(0x00402000)) == {InstanceCore11, InstanceCore12}
    ensures InstanceCoreFlags(Some(0)) == {}
    ensures InstanceCoreFlags(None) == {}
  {
    assert VersionMinor(0x00402000) == 2;
  }

  /**
   * The core flags a physical device gains in EnumerateDeviceExtensionProperties:
   * each flag already set stays set; an unset one is set when the instance
   * has it and the device's own minor version is above the same bound.
   */
  function DeviceCoreFlags(supported: DeviceExtensions, instance: InstanceExtensions, deviceApiVersion: u32): (r: DeviceExtensions)
    ensures Core11 in r <==> Core11 in supported || (InstanceCore11 in instance && VersionMinor(deviceApiVersion) > 0)
    ensures Core12 in r <==> Core12 in supported || (InstanceCore12 in instance && VersionMinor(deviceApiVersion) > 1)
    ensures Core13 in r <==> Core13 in supported || (InstanceCore13 in instance && VersionMinor(deviceApiVersion) > 2)
    ensures r - CORE_FLAGS == supported - CORE_FLAGS
  {
    var minor := VersionMinor(deviceApiVersion);
    supported
      + (if InstanceCore11 in instance && minor > 0 then {Core11} else {})
      + (if InstanceCore12 in instance && minor > 1 then {Core12} else {})
      + (if InstanceCore13 in instance && minor > 2 then {Core13} else {})
  }

  /** A physical device never supports a core version its instance did not ask for, starting from none. */
  lemma DeviceCoreFlagsNeedInstance(instance: InstanceExtensions, deviceApiVersion: u32)
    ensures var r := DeviceCoreFlags({}, instance, deviceApiVersion);
      (Core11 in r ==> InstanceCore11 in instance) && (Core12 in r ==> InstanceCore12 in instance)
      && (Core13 in r ==> InstanceCore13 in instance) && r <= CORE_FLAGS
  {
  }

  // ---------------------------------------------------------------------
  // Extension-name scans

  /** The instance flags a list of extension names sets: one per recognised name. */
  function InstanceFlagsNamed(names: seq<string>): (r: InstanceExtensions)
    ensures r <= {DeviceGroupCreation, ExternalMemoryCapabilities, PhysicalDeviceProperties2}
  {
    (if KHR_DEVICE_GROUP_CREATION in names then {DeviceGroupCreation} else {})
      + (if KHR_EXTERNAL_MEMORY_CAPABILITIES in names then {ExternalMemoryCapabilities} else {})
      + (if KHR_GET_PHYSICAL_DEVICE_PROPERTIES_2 in names then {PhysicalDeviceProperties2} else {})
  }

  /** The loop over ppEnabledExtensionNames in CreateInstance: a flag per recognised name, other names ignored. */
  method ScanInstanceExtensionNames(flags: InstanceExtensions, names: seq<string>) returns (r: InstanceExtensions)
    ensures r == flags + InstanceFlagsNamed(names)
    ensures DeviceGroupCreation in r <==> DeviceGroupCreation in flags || KHR_DEVICE_GROUP_CREATION in names
    ensures ExternalMemoryCapabilities in r <==> ExternalMemoryCapabilities in flags || KHR_EXTERNAL_MEMORY_CAPABILITIES in names
    ensures PhysicalDeviceProperties2 in r <==> PhysicalDeviceProperties2 in flags || KHR_GET_PHYSICAL_DEVICE_PROPERTIES_2 in names
    ensures flags <= r <= flags + {DeviceGroupCreation, ExternalMemoryCapabilities, PhysicalDeviceProperties2}
  {
    r := flags;
    for i := 0 to |names|
      invariant DeviceGroupCreation in r <==> DeviceGroupCreation in flags || KHR_DEVICE_GROUP_CREATION in names[..i]
      invariant ExternalMemoryCapabilities in r <==> ExternalMemoryCapabilities in flags || KHR_EXTERNAL_MEMORY_CAPABILITIES in names[..i]
      invariant PhysicalDeviceProperties2 in r <==> PhysicalDeviceProperties2 in flags || KHR_GET_PHYSICAL_DEVICE_PROPERTIES_2 in names[..i]
      invariant flags <= r <= flags + {DeviceGroupCreation, ExternalMemoryCapabilities, PhysicalDeviceProperties2}
    {
      assert names[..i + 1] == names[..i] + [names[i]];
      if names[i] == KHR_DEVICE_GROUP_CREATION {
        r := r + {DeviceGroupCreation};
      }
      if names[i] == KHR_EXTERNAL_MEMORY_CAPABILITIES {
        r := r + {ExternalMemoryCapabilities};
      }
      if names[i] == KHR_GET_PHYSICAL_DEVICE_PROPERTIES_2 {
        r := r + {PhysicalDeviceProperties2};
      }
    }
    assert names[..|names|] == names;
  }

  /**
   * The flag one extension name sets in a device's record: only the slow
   * device simulator recognises the swapchain, display-control and
   * swapchain-maintenance names; any other name sets nothing.
   */
  function DeviceFlagNamed(layer: LayerKind, name: string): (r: DeviceExtensions)
    ensures Synchronization2 in r <==> name == KHR_SYNCHRONIZATION_2
    ensures ExternalMemoryFd in r <==> name == KHR_EXTERNAL_MEMORY_FD
    ensures MemoryBudget in r <==> name == EXT_MEMORY_BUDGET
    ensures Swapchain in r <==> layer == SlowDeviceSimulator && name == KHR_SWAPCHAIN
    ensures DisplayControl in r <==> layer == SlowDeviceSimulator && name == EXT_DISPLAY_CONTROL
    ensures SwapchainMaintenance1 in r <==> layer == SlowDeviceSimulator && name == EXT_SWAPCHAIN_MAINTENANCE_1
    ensures r !! CORE_FLAGS
  {
    // the six names have different lengths
    assert |KHR_SYNCHRONIZATION_2| == 23 && |KHR_EXTERNAL_MEMORY_FD| == 25 && |EXT_MEMORY_BUDGET| == 20;
    assert |KHR_SWAPCHAIN| == 16 && |EXT_DISPLAY_CONTROL| == 22 && |EXT_SWAPCHAIN_MAINTENANCE_1| == 29;
    if name == KHR_SYNCHRONIZATION_2 then {Synchronization2}
    else if name == KHR_EXTERNAL_MEMORY_FD then {ExternalMemoryFd}
    else if name == EXT_MEMORY_BUDGET then {MemoryBudget}
    else if layer != SlowDeviceSimulator then {}
    else if name == KHR_SWAPCHAIN then {Swapchain}
    else if name == EXT_DISPLAY_CONTROL then {DisplayControl}
    else if name == EXT_SWAPCHAIN_MAINTENANCE_1 then {SwapchainMaintenance1}
    else {}
  }

  /** The flags a list of names sets. */
  function DeviceFlagsNamed(layer: LayerKind, names: seq<string>): DeviceExtensions
  {
    if |names| == 0 then {}
    else DeviceFlagsNamed(layer, names[..|names| - 1]) + DeviceFlagNamed(layer, names[|names| - 1])
  }

  /** A flag is set by a list of names exactly when the list holds its name. */
  lemma {:induction false} DeviceFlagsNamedSpec(layer: LayerKind, names: seq<string>)
    ensures var r := DeviceFlagsNamed(layer, names);
      && (Synchronization2 in r <==> KHR_SYNCHRONIZATION_2 in names)
      && (ExternalMemoryFd in r <==> KHR_EXTERNAL_MEMORY_FD in names)
      && (MemoryBudget in r <==> EXT_MEMORY_BUDGET in names)
      && (Swapchain in r <==> layer == SlowDeviceSimulator && KHR_SWAPCHAIN in names)
      && (DisplayControl in r <==> layer == SlowDeviceSimulator && EXT_DISPLAY_CONTROL in names)
      && (SwapchainMaintenance1 in r <==> layer == SlowDeviceSimulator && EXT_SWAPCHAIN_MAINTENANCE_1 in names)
      && r !! CORE_FLAGS
  {
    if |names| > 0 {
      var prefix := names[..|names| - 1];
      DeviceFlagsNamedSpec(layer, prefix);
      assert names == prefix + [names[|names| - 1]];
      assert forall n :: n in names <==> n in prefix || n == names[|names| - 1];
    }
  }

  /**
   * The loops over extension names in EnumerateDeviceExtensionProperties and
   * CreateDevice: every recognised name sets its flag (only the slow device
   * simulator recognises the swapchain, display-control and
   * swapchain-maintenance names), and no flag is ever cleared.
   */
  method ScanDeviceExtensionNames(layer: LayerKind, flags: DeviceExtensions, names: seq<string>) returns (r: DeviceExtensions)
    ensures Synchronization2 in r <==> Synchronization2 in flags || KHR_SYNCHRONIZATION_2 in names
    ensures ExternalMemoryFd in r <==> ExternalMemoryFd in flags || KHR_EXTERNAL_MEMORY_FD in names
    ensures MemoryBudget in r <==> MemoryBudget in flags || EXT_MEMORY_BUDGET in names
    ensures Swapchain in r <==> Swapchain in flags || (layer == SlowDeviceSimulator && KHR_SWAPCHAIN in names)
    ensures DisplayControl in r <==> DisplayControl in flags || (layer == SlowDeviceSimulator && EXT_DISPLAY_CONTROL in names)
    ensures SwapchainMaintenance1 in r <==> SwapchainMaintenance1 in flags || (layer == SlowDeviceSimulator && EXT_SWAPCHAIN_MAINTENANCE_1 in names)
    ensures flags <= r && r * CORE_FLAGS == flags * CORE_FLAGS
    ensures r == flags + DeviceFlagsNamed(layer, names)
  {
    r := flags;
    for i := 0 to |names|
      invariant r == flags + DeviceFlagsNamed(layer, names[..i])
    {
      assert names[..i + 1][..i] == names[..i];
      r := r + DeviceFlagNamed(layer, names[i]);
    }
    assert names[..|names|] == names;
    DeviceFlagsNamedSpec(layer, names);
  }

  // ---------------------------------------------------------------------
  // The CreateDevice rewrite

  /**
   * The extension list CreateDevice forwards: the application's list with
   * VK_EXT_memory_budget appended exactly when the physical device supports
   * Vulkan 1.1 and the extension and the list does not already name it;
   * otherwise the application's list unchanged. The application's own
   * create info is never written (the result is a new list).
   */
  method ForceMemoryBudget(supported: DeviceExtensions, names: seq<string>) returns (forwarded: seq<string>)
    ensures forwarded != names <==> Core11 in supported && MemoryBudget in supported && EXT_MEMORY_BUDGET !in names
    ensures forwarded != names ==> forwarded == names + [EXT_MEMORY_BUDGET]
    ensures Core11 in supported && MemoryBudget in supported ==> EXT_MEMORY_BUDGET in forwarded
    ensures forall n :: n in forwarded <==> n in names || (n == EXT_MEMORY_BUDGET && Core11 in supported && MemoryBudget in supported)
  {
    forwarded := names;
    if Core11 in supported && MemoryBudget in supported {
      var enablesMemoryBudget := false;
      var i := 0;
      while i < |names|
        invariant 0 <= i <= |names|
        invariant enablesMemoryBudget <==> EXT_MEMORY_BUDGET in names[..i]
        invariant enablesMemoryBudget ==> EXT_MEMORY_BUDGET in names
      {
        assert names[..i + 1] == names[..i] + [names[i]];
        if names[i] == EXT_MEMORY_BUDGET {
          enablesMemoryBudget := true;
          break;
        }
        i := i + 1;
      }
      assert !enablesMemoryBudget ==> names[..i] == names;
      if !enablesMemoryBudget {
        forwarded := names + [EXT_MEMORY_BUDGET];
      }
    }
  }
}
