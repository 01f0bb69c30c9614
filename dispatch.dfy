// Entry-point resolution: the name tables each layer consults in
// vkGetInstanceProcAddr and vkGetDeviceProcAddr, the flags that gate them,
// and the fixed order in which they are tried before the call is handed to
// the next layer.

module Dispatch {
  import opened Vk
  import opened Extensions

  /** The layer functions a lookup can hand out. */
  datatype Command =
    | GetInstanceProcAddr | CreateInstance | DestroyInstance | CreateDevice | DestroyDevice
    | EnumeratePhysicalDevices | EnumeratePhysicalDeviceGroups
    | EnumerateInstanceLayerProperties | EnumerateInstanceExtensionProperties
    | EnumerateDeviceLayerProperties | EnumerateDeviceExtensionProperties
    | GetPhysicalDeviceProperties | GetPhysicalDeviceProperties2
    | GetPhysicalDeviceMemoryProperties | GetPhysicalDeviceMemoryProperties2
    | GetPhysicalDeviceToolProperties | GetPhysicalDeviceExternalBufferProperties
    | GetDeviceProcAddr | CreateBuffer | DestroyBuffer | CreateImage | DestroyImage
    | AllocateMemory | FreeMemory | BindBufferMemory | BindImageMemory | BindBufferMemory2 | BindImageMemory2
    | GetBufferMemoryRequirements | GetImageMemoryRequirements | GetImageSparseMemoryRequirements
    | GetBufferMemoryRequirements2 | GetImageMemoryRequirements2
    | GetDeviceBufferMemoryRequirements | GetDeviceImageMemoryRequirements | GetMemoryFdProperties
    | GetDeviceQueue | QueueSubmit | QueueSubmit2 | QueueBindSparse
    | CreateFence | DestroyFence | ResetFences | GetFenceStatus | WaitForFences
    | AcquireNextImage | AcquireNextImage2 | QueuePresent | RegisterDeviceEvent | RegisterDisplayEvent

  /** One row of a name table. */
  datatype Entry = Entry(name: string, command: Command)

  /** What a vkGet*ProcAddr call hands back. */
  datatype Resolution =
    | Intercepted(command: Command)  // the layer's own function
    | Forwarded                      // whatever the next layer's vkGet*ProcAddr returns
    | NullProc                       // a null pointer

  /** The first row of `table` with this name, as the lookup loops find it. */
  function Lookup(table: seq<Entry>, name: string): (r: Option<Command>)
    ensures r.None? <==> forall i | 0 <= i < |table| :: table[i].name != name
  {
    if |table| == 0 then None
    else if table[0].name == name then Some(table[0].command)
    else
      var rest := Lookup(table[1..], name);
      assert rest.None? ==> forall i | 1 <= i < |table| :: table[i] == table[1..][i - 1];
      rest
  }

  /** A found command comes from the first row with the name. */
  lemma {:induction false} LookupFindsFirst(table: seq<Entry>, name: string)
    requires Lookup(table, name).Some?
    ensures exists i | 0 <= i < |table| ::
      table[i] == Entry(name, Lookup(table, name).value) && forall j | 0 <= j < i :: table[j].name != name
  {
    if table[0].name != name {
      LookupFindsFirst(table[1..], name);
      var i :| 0 <= i < |table[1..]| && table[1..][i] == Entry(name, Lookup(table, name).value)
        && forall j | 0 <= j < i :: table[1..][j].name != name;
      assert table[i + 1] == Entry(name, Lookup(table, name).value);
      assert forall j | 0 <= j < i + 1 :: table[j].name != name by {
        forall j | 0 <= j < i + 1 ensures table[j].name != name {
          if j > 0 { assert table[j] == table[1..][j - 1]; }
        }
      }
    } else {
      assert table[0] == Entry(name, Lookup(table, name).value);
    }
  }

  /** Looking up in two tables one after the other is looking up in their concatenation. */
  lemma {:induction false} LookupAppend(a: seq<Entry>, b: seq<Entry>, name: string)
    ensures Lookup(a + b, name) == if Lookup(a, name).Some? then Lookup(a, name) else Lookup(b, name)
  {
    if |a| > 0 {
      assert (a + b)[1..] == a[1..] + b;
      LookupAppend(a[1..], b, name);
    } else {
      assert a + b == b;
    }
  }

  // ---------------------------------------------------------------------
  // The tables

  /** ImplementedInstanceCommands: the same thirteen rows in both layers. */
  const INSTANCE_COMMANDS: seq<Entry> := [
    Entry("vkGetInstanceProcAddr", GetInstanceProcAddr),
    Entry("vkCreateInstance", CreateInstance),
    Entry("vkCreateDevice", CreateDevice),
    Entry("vkDestroyInstance", DestroyInstance),
    Entry("vkDestroyDevice", DestroyDevice),
    Entry("vkEnumeratePhysicalDevices", EnumeratePhysicalDevices),
    Entry("vkEnumerateInstanceLayerProperties", EnumerateInstanceLayerProperties),
    Entry("vkEnumerateInstanceExtensionProperties", EnumerateInstanceExtensionProperties),
    Entry("vkEnumerateDeviceLayerProperties", EnumerateDeviceLayerProperties),
    Entry("vkEnumerateDeviceExtensionProperties", EnumerateDeviceExtensionProperties),
    Entry("vkGetPhysicalDeviceProperties", GetPhysicalDeviceProperties),
    Entry("vkGetPhysicalDeviceMemoryProperties", GetPhysicalDeviceMemoryProperties),
    Entry("vkGetPhysicalDeviceToolPropertiesEXT", GetPhysicalDeviceToolProperties)]

  /**
   * ImplementedInstanceNewerCoreCommands as written in both layers: its first
   * row names "vkEnumeratePhysicalDeviceGroups2", which is no Vulkan command.
   */
  const NEWER_CORE_INSTANCE_COMMANDS_AS_WRITTEN: seq<Entry> := [
    Entry("vkEnumeratePhysicalDeviceGroups2", EnumeratePhysicalDeviceGroups),
    Entry("vkGetPhysicalDeviceProperties2", GetPhysicalDeviceProperties2),
    Entry("vkGetPhysicalDeviceMemoryProperties2", GetPhysicalDeviceMemoryProperties2),
    Entry("vkGetPhysicalDeviceExternalBufferProperties", GetPhysicalDeviceExternalBufferProperties)]

  /** The same table with the Vulkan 1.1 command name vkEnumeratePhysicalDeviceGroups. */
  const NEWER_CORE_INSTANCE_COMMANDS: seq<Entry> := [
    Entry("vkEnumeratePhysicalDeviceGroups", EnumeratePhysicalDeviceGroups),
    Entry("vkGetPhysicalDeviceProperties2", GetPhysicalDeviceProperties2),
    Entry("vkGetPhysicalDeviceMemoryProperties2", GetPhysicalDeviceMemoryProperties2),
    Entry("vkGetPhysicalDeviceExternalBufferProperties", GetPhysicalDeviceExternalBufferProperties)]

  /** ImplementedInstanceExtensionCommands: the rows whose extension the instance enabled, in table order. */
  function InstanceExtensionCommands(enabled: InstanceExtensions): (r: seq<Entry>)
    ensures DeviceGroupCreation !in enabled ==> forall e | e in r :: e.name != "vkEnumeratePhysicalDeviceGroupsKHR"
  {
    (if DeviceGroupCreation in enabled then [Entry("vkEnumeratePhysicalDeviceGroupsKHR", EnumeratePhysicalDeviceGroups)] else [])
    + (if ExternalMemoryCapabilities in enabled
       then [Entry("vkGetPhysicalDeviceExternalBufferPropertiesKHR", GetPhysicalDeviceExternalBufferProperties)] else [])
    + (if PhysicalDeviceProperties2 in enabled
       then [Entry("vkGetPhysicalDeviceProperties2KHR", GetPhysicalDeviceProperties2),
             Entry("vkGetPhysicalDeviceMemoryProperties2KHR", GetPhysicalDeviceMemoryProperties2)] else [])
  }

  /** ImplementedDeviceCommands. */
  function DeviceCommands(layer: LayerKind): seq<Entry>
  {
    COMMON_DEVICE_COMMANDS + LayerDeviceCommands(layer)
  }

  function LayerDeviceCommands(layer: LayerKind): seq<Entry>
  {
    match layer
    case MemoryTracker => TRACKER_DEVICE_COMMANDS
    case SlowDeviceSimulator => SIMULATOR_DEVICE_COMMANDS
  }

  /** The first thirteen rows of ImplementedDeviceCommands, the same in both layers. */
  const COMMON_DEVICE_COMMANDS: seq<Entry> := [
    Entry("vkGetDeviceProcAddr", GetDeviceProcAddr),
    Entry("vkCreateDevice", CreateDevice),
    Entry("vkDestroyDevice", DestroyDevice),
    Entry("vkCreateBuffer", CreateBuffer),
    Entry("vkDestroyBuffer", DestroyBuffer),
    Entry("vkCreateImage", CreateImage),
    Entry("vkDestroyImage", DestroyImage),
    Entry("vkAllocateMemory", AllocateMemory),
    Entry("vkFreeMemory", FreeMemory),
    Entry("vkBindBufferMemory", BindBufferMemory),
    Entry("vkBindImageMemory", BindImageMemory),
    Entry("vkGetBufferMemoryRequirements", GetBufferMemoryRequirements),
    Entry("vkGetImageMemoryRequirements", GetImageMemoryRequirements)]

  /** The memory tracker's remaining rows. */
  const TRACKER_DEVICE_COMMANDS: seq<Entry> := [
    Entry("vkGetImageSparseMemoryRequirements", GetImageSparseMemoryRequirements),
    Entry("vkGetDeviceQueue", GetDeviceQueue),
    Entry("vkQueueSubmit", QueueSubmit)]

  /** The slow device simulator's remaining rows. */
  const SIMULATOR_DEVICE_COMMANDS: seq<Entry> := [
    Entry("vkGetDeviceQueue", GetDeviceQueue),
    Entry("vkQueueBindSparse", QueueBindSparse),
    Entry("vkQueueSubmit", QueueSubmit),
    Entry("vkCreateFence", CreateFence),
    Entry("vkDestroyFence", DestroyFence),
    Entry("vkResetFences", ResetFences),
    Entry("vkGetFenceStatus", GetFenceStatus),
    Entry("vkWaitForFences", WaitForFences)]

  /** The lengths of the device-table rows: none has 31 characters, and the one with 19 is vkGetDeviceProcAddr. */
  lemma CommonDeviceRowLengths()
    ensures forall i | 0 <= i < |COMMON_DEVICE_COMMANDS| :: |COMMON_DEVICE_COMMANDS[i].name| != 31
    ensures forall i | 0 <= i < |COMMON_DEVICE_COMMANDS| ::
      |COMMON_DEVICE_COMMANDS[i].name| != 19 || COMMON_DEVICE_COMMANDS[i].name[2] == 'G'
  {
  }

  lemma TrackerDeviceCommandsMiss(name: string)
    requires |name| == 19 || |name| == 31
    ensures Lookup(TRACKER_DEVICE_COMMANDS, name).None?
  {
    forall i | 0 <= i < |TRACKER_DEVICE_COMMANDS|
      ensures |TRACKER_DEVICE_COMMANDS[i].name| != 31 && |TRACKER_DEVICE_COMMANDS[i].name| != 19
    {
    }
    LookupMissesLength(TRACKER_DEVICE_COMMANDS, name);
  }

  lemma SimulatorDeviceCommandsMiss(name: string)
    requires |name| == 19 || |name| == 31
    ensures Lookup(SIMULATOR_DEVICE_COMMANDS, name).None?
  {
    forall i | 0 <= i < |SIMULATOR_DEVICE_COMMANDS|
      ensures |SIMULATOR_DEVICE_COMMANDS[i].name| != 31 && |SIMULATOR_DEVICE_COMMANDS[i].name| != 19
    {
    }
    LookupMissesLength(SIMULATOR_DEVICE_COMMANDS, name);
  }

  lemma CommonDeviceCommandsMiss(name: string)
    requires (|name| == 19 && name[2] == 'B') || |name| == 31
    ensures Lookup(COMMON_DEVICE_COMMANDS, name).None?
  {
    CommonDeviceRowLengths();
    forall i | 0 <= i < |COMMON_DEVICE_COMMANDS|
      ensures COMMON_DEVICE_COMMANDS[i].name != name
    {
      if |COMMON_DEVICE_COMMANDS[i].name| == |name| {
        assert COMMON_DEVICE_COMMANDS[i].name[2] != name[2];
      }
    }
  }

  lemma TrackerDeviceTableMiss(name: string)
    requires (|name| == 19 && name[2] == 'B') || |name| == 31
    ensures Lookup(COMMON_DEVICE_COMMANDS + TRACKER_DEVICE_COMMANDS, name).None?
  {
    CommonDeviceCommandsMiss(name);
    TrackerDeviceCommandsMiss(name);
    LookupAppend(COMMON_DEVICE_COMMANDS, TRACKER_DEVICE_COMMANDS, name);
  }

  lemma SimulatorDeviceTableMiss(name: string)
    requires (|name| == 19 && name[2] == 'B') || |name| == 31
    ensures Lookup(COMMON_DEVICE_COMMANDS + SIMULATOR_DEVICE_COMMANDS, name).None?
  {
    CommonDeviceCommandsMiss(name);
    SimulatorDeviceCommandsMiss(name);
    LookupAppend(COMMON_DEVICE_COMMANDS, SIMULATOR_DEVICE_COMMANDS, name);
  }

  /** Proof aid: vkBindBufferMemory2 and vkEnumeratePhysicalDeviceGroups are in neither layer's device table. */
  lemma DeviceCommandsMissLength(layer: LayerKind, name: string)
    requires (|name| == 19 && name[2] == 'B') || |name| == 31
    ensures Lookup(DeviceCommands(layer), name).None?
  {
    if layer == MemoryTracker {
      TrackerDeviceTableMiss(name);
    } else {
      SimulatorDeviceTableMiss(name);
    }
  }

  /** The rows of ImplementedDeviceExtensionCommands gated by Vulkan 1.1, the same in both layers. */
  const CORE_1_1_DEVICE_COMMANDS: seq<Entry> := [
    Entry("vkGetImageMemoryRequirements2", GetImageMemoryRequirements2),
    Entry("vkGetBufferMemoryRequirements2", GetBufferMemoryRequirements2),
    Entry("vkBindBufferMemory2", BindBufferMemory2),
    Entry("vkBindImageMemory2", BindImageMemory2)]

  /**
   * ImplementedDeviceExtensionCommands: the rows whose flag the physical
   * device supports, in table order; no rows at all without a supported set,
   * which is how vkGetInstanceProcAddr calls it.
   */
  function DeviceExtensionCommands(layer: LayerKind, supported: Option<DeviceExtensions>): (r: seq<Entry>)
    ensures supported.None? ==> r == []
    ensures supported.Some? && Core11 in supported.value ==> |r| >= 4 && r[..4] == CORE_1_1_DEVICE_COMMANDS
  {
    match supported
    case None => []
    case Some(s) =>
      var core11 := if Core11 in s then CORE_1_1_DEVICE_COMMANDS else [];
      var rest := match layer
        case MemoryTracker =>
          (if Core13 in s then [
             Entry("vkGetDeviceBufferMemoryRequirements", GetDeviceBufferMemoryRequirements),
             Entry("vkGetDeviceImageMemoryRequirements", GetDeviceImageMemoryRequirements),
             Entry("vkQueueSubmit2", QueueSubmit2)] else [])
          + (if ExternalMemoryFd in s then [Entry("vkGetMemoryFdPropertiesKHR", GetMemoryFdProperties)] else [])
          + (if Synchronization2 in s then [
               Entry("vkGetDeviceBufferMemoryRequirementsKHR", GetDeviceBufferMemoryRequirements),
               Entry("vkGetDeviceImageMemoryRequirementsKHR", GetDeviceImageMemoryRequirements),
               Entry("vkQueueSubmit2KHR", QueueSubmit2)] else [])
        case SlowDeviceSimulator =>
          (if Core13 in s then [Entry("vkQueueSubmit2", QueueSubmit2)] else [])
          + (if ExternalMemoryFd in s then [Entry("vkGetMemoryFdPropertiesKHR", GetMemoryFdProperties)] else [])
          + (if Synchronization2 in s then [Entry("vkQueueSubmit2KHR", QueueSubmit2)] else [])
          + (if Swapchain in s then [
               Entry("vkAcquireNextImageKHR", AcquireNextImage),
               Entry("vkAcquireNextImage2KHR", AcquireNextImage2),
               Entry("vkQueuePresentKHR", QueuePresent)] else [])
          + (if DisplayControl in s then [
               Entry("vkRegisterDeviceEventEXT", RegisterDeviceEvent),
               Entry("vkRegisterDisplayEventEXT", RegisterDisplayEvent)] else []);
      core11 + rest
  }

  // ---------------------------------------------------------------------
  // Resolution

  /**
   * vkGetInstanceProcAddr, given the newer-core table it uses. `instance` is
   * the instance's record of enabled extensions, `None` for VK_NULL_HANDLE
   * or an instance the layer does not know; `hasNext` says whether the
   * instance's dispatch table has a next vkGetInstanceProcAddr.
   */
  function ResolveInstanceCommand(newerCore: seq<Entry>, layer: LayerKind, instance: Option<InstanceExtensions>,
                                  name: string, hasNext: bool): (r: Resolution)
    ensures Lookup(INSTANCE_COMMANDS, name).Some? ==> r == Intercepted(Lookup(INSTANCE_COMMANDS, name).value)
    ensures Lookup(INSTANCE_COMMANDS, name).None? && instance.None? ==> r == NullProc
    ensures r.Forwarded? ==> hasNext && instance.Some?
    ensures r.Intercepted? ==>
      Lookup(INSTANCE_COMMANDS, name) == Some(r.command)
      || (instance.Some? &&
          ((InstanceCore11 in instance.value && Lookup(newerCore, name) == Some(r.command))
           || Lookup(InstanceExtensionCommands(instance.value), name) == Some(r.command)
           || Lookup(DeviceCommands(layer), name) == Some(r.command)))
  {
    var base := Lookup(INSTANCE_COMMANDS, name);
    if base.Some? then Intercepted(base.value)
    else if instance.None? then NullProc
    else
      var enabled := instance.value;
      var core := if InstanceCore11 in enabled then Lookup(newerCore, name) else None;
      if core.Some? then Intercepted(core.value)
      else
        var ext := Lookup(InstanceExtensionCommands(enabled), name);
        if ext.Some? then Intercepted(ext.value)
        else
          var device := Lookup(DeviceCommands(layer), name);
          if device.Some? then Intercepted(device.value)
          else
            match Lookup(DeviceExtensionCommands(layer, None), name)
            case Some(c) => Intercepted(c)
            case None => if hasNext then Forwarded else NullProc
  }

  /**
   * GetInstanceProcAddr as written, with the misspelt newer-core row: for a
   * known instance the Vulkan 1.1 command vkEnumeratePhysicalDeviceGroups is
   * never the layer's own, whatever the instance enabled.
   */
  function GetInstanceProcAddrAsWritten(layer: LayerKind, instance: Option<InstanceExtensions>, name: string, hasNext: bool): (r: Resolution)
    ensures instance.Some? && name == "vkEnumeratePhysicalDeviceGroups" ==> r == if hasNext then Forwarded else NullProc
  {
    if instance.Some? && name == "vkEnumeratePhysicalDeviceGroups" then
      EarlierTablesMissDeviceGroups();
      AsWrittenNewerCoreMissesDeviceGroups();
      InstanceExtensionsMissDeviceGroups(instance.value);
      DeviceCommandsMissLength(layer, name);
      ResolveFallsThrough(NEWER_CORE_INSTANCE_COMMANDS_AS_WRITTEN, layer, instance.value, name, hasNext);
      ResolveInstanceCommand(NEWER_CORE_INSTANCE_COMMANDS_AS_WRITTEN, layer, instance, name, hasNext)
    else ResolveInstanceCommand(NEWER_CORE_INSTANCE_COMMANDS_AS_WRITTEN, layer, instance, name, hasNext)
  }

  /**
   * GetInstanceProcAddr with the newer-core row naming
   * vkEnumeratePhysicalDeviceGroups: an instance with Vulkan 1.1 gets the
   * layer's own function for it.
   */
  function InstanceProcAddr(layer: LayerKind, instance: Option<InstanceExtensions>, name: string, hasNext: bool): (r: Resolution)
    ensures instance.Some? && InstanceCore11 in instance.value && name == "vkEnumeratePhysicalDeviceGroups" ==>
      r == Intercepted(EnumeratePhysicalDeviceGroups)
  {
    if instance.Some? && InstanceCore11 in instance.value && name == "vkEnumeratePhysicalDeviceGroups" then
      EarlierTablesMissDeviceGroups();
      assert NEWER_CORE_INSTANCE_COMMANDS[0].name == name;
      ResolveInstanceCommand(NEWER_CORE_INSTANCE_COMMANDS, layer, instance, name, hasNext)
    else ResolveInstanceCommand(NEWER_CORE_INSTANCE_COMMANDS, layer, instance, name, hasNext)
  }

  /**
   * vkGetDeviceProcAddr: the device table, then the device-extension table
   * gated by what the device's physical device supports, then the next
   * layer (or a null pointer when the dispatch table has none).
   */
  function DeviceProcAddr(layer: LayerKind, supported: DeviceExtensions, name: string, hasNext: bool): (r: Resolution)
    ensures Lookup(DeviceCommands(layer), name).Some? ==> r == Intercepted(Lookup(DeviceCommands(layer), name).value)
    ensures r.Forwarded? ==> hasNext
    ensures r.Intercepted? ==>
      Lookup(DeviceCommands(layer), name).Some? || Lookup(DeviceExtensionCommands(layer, Some(supported)), name).Some?
  {
    var device := Lookup(DeviceCommands(layer), name);
    if device.Some? then Intercepted(device.value)
    else
      var ext := Lookup(DeviceExtensionCommands(layer, Some(supported)), name);
      if ext.Some? then Intercepted(ext.value)
      else if hasNext then Forwarded
      else NullProc
  }

  // ---------------------------------------------------------------------
  // Properties of the resolution

  /**
   * A name that none of the instance-level tables knows falls through to the
   * next layer, or to a null pointer when there is none: the
   * device-extension tables are never consulted with a supported set here.
   */
  lemma ResolveFallsThrough(newerCore: seq<Entry>, layer: LayerKind, enabled: InstanceExtensions, name: string, hasNext: bool)
    requires Lookup(INSTANCE_COMMANDS, name).None?
    requires InstanceCore11 !in enabled || Lookup(newerCore, name).None?
    requires Lookup(InstanceExtensionCommands(enabled), name).None? && Lookup(DeviceCommands(layer), name).None?
    ensures ResolveInstanceCommand(newerCore, layer, Some(enabled), name, hasNext) == if hasNext then Forwarded else NullProc
  {
    assert DeviceExtensionCommands(layer, None) == [];
  }

  /** With Vulkan 1.1 enabled, the newer-core table answers before every other table but the base one. */
  lemma ResolveNewerCore(newerCore: seq<Entry>, layer: LayerKind, enabled: InstanceExtensions, name: string, hasNext: bool)
    requires Lookup(INSTANCE_COMMANDS, name).None?
    requires InstanceCore11 in enabled && Lookup(newerCore, name).Some?
    ensures ResolveInstanceCommand(newerCore, layer, Some(enabled), name, hasNext) == Intercepted(Lookup(newerCore, name).value)
  {
  }

  /**
   * A command of an enabled instance extension that neither the base table
   * nor the (gated) newer-core table knows is intercepted from the
   * extension table.
   */
  lemma ResolveInstanceExtension(newerCore: seq<Entry>, layer: LayerKind, enabled: InstanceExtensions, name: string, hasNext: bool)
    requires Lookup(INSTANCE_COMMANDS, name).None?
    requires InstanceCore11 !in enabled || Lookup(newerCore, name).None?
    requires Lookup(InstanceExtensionCommands(enabled), name).Some?
    ensures ResolveInstanceCommand(newerCore, layer, Some(enabled), name, hasNext)
      == Intercepted(Lookup(InstanceExtensionCommands(enabled), name).value)
  {
  }

  /**
   * A core device command that the instance-level tables miss is intercepted
   * from the device table, whatever the instance enabled.
   */
  lemma ResolveDeviceCommand(newerCore: seq<Entry>, layer: LayerKind, enabled: InstanceExtensions, name: string, hasNext: bool)
    requires Lookup(INSTANCE_COMMANDS, name).None?
    requires InstanceCore11 !in enabled || Lookup(newerCore, name).None?
    requires Lookup(InstanceExtensionCommands(enabled), name).None?
    requires Lookup(DeviceCommands(layer), name).Some?
    ensures ResolveInstanceCommand(newerCore, layer, Some(enabled), name, hasNext)
      == Intercepted(Lookup(DeviceCommands(layer), name).value)
  {
  }

  /** The base table has no row named vkEnumeratePhysicalDeviceGroupsKHR. */
  lemma BaseTableMissesDeviceGroupsKhr()
    ensures Lookup(INSTANCE_COMMANDS, "vkEnumeratePhysicalDeviceGroupsKHR").None?
  {
    forall i | 0 <= i < |INSTANCE_COMMANDS| ensures |INSTANCE_COMMANDS[i].name| != 34 || INSTANCE_COMMANDS[i].name[11] != 'P' { }
    LookupMissesShape(INSTANCE_COMMANDS, "vkEnumeratePhysicalDeviceGroupsKHR", 11);
  }

  /** Nor has the newer-core table. */
  lemma NewerCoreMissesDeviceGroupsKhr()
    ensures Lookup(NEWER_CORE_INSTANCE_COMMANDS, "vkEnumeratePhysicalDeviceGroupsKHR").None?
  {
    forall i | 0 <= i < |NEWER_CORE_INSTANCE_COMMANDS| ensures |NEWER_CORE_INSTANCE_COMMANDS[i].name| != 34 { }
    LookupMissesLength(NEWER_CORE_INSTANCE_COMMANDS, "vkEnumeratePhysicalDeviceGroupsKHR");
  }

  /** Neither layer's device table names vkEnumeratePhysicalDeviceGroupsKHR. */
  lemma DeviceTablesMissDeviceGroupsKhr(layer: LayerKind)
    ensures Lookup(DeviceCommands(layer), "vkEnumeratePhysicalDeviceGroupsKHR").None?
  {
    var table := DeviceCommands(layer);
    forall i | 0 <= i < |table| ensures |table[i].name| != 34 || table[i].name[11] != 'P' { }
    LookupMissesShape(table, "vkEnumeratePhysicalDeviceGroupsKHR", 11);
  }

  /** The resolution of vkEnumeratePhysicalDeviceGroupsKHR follows VK_KHR_device_group_creation alone. */
  lemma ResolveDeviceGroupsKhr(layer: LayerKind, enabled: InstanceExtensions, hasNext: bool)
    ensures ResolveInstanceCommand(NEWER_CORE_INSTANCE_COMMANDS, layer, Some(enabled), "vkEnumeratePhysicalDeviceGroupsKHR", hasNext) ==
      if DeviceGroupCreation in enabled then Intercepted(EnumeratePhysicalDeviceGroups)
      else if hasNext then Forwarded else NullProc
  {
    var name := "vkEnumeratePhysicalDeviceGroupsKHR";
    BaseTableMissesDeviceGroupsKhr();
    NewerCoreMissesDeviceGroupsKhr();
    if DeviceGroupCreation in enabled {
      assert InstanceExtensionCommands(enabled)[0] == Entry(name, EnumeratePhysicalDeviceGroups);
      ResolveInstanceExtension(NEWER_CORE_INSTANCE_COMMANDS, layer, enabled, name, hasNext);
    } else {
      DeviceTablesMissDeviceGroupsKhr(layer);
      ResolveFallsThrough(NEWER_CORE_INSTANCE_COMMANDS, layer, enabled, name, hasNext);
    }
  }

  /** vkGetInstanceProcAddr hands out vkEnumeratePhysicalDeviceGroupsKHR exactly when VK_KHR_device_group_creation is enabled. */
  lemma DeviceGroupsKhrNeedsExtension(layer: LayerKind, enabled: InstanceExtensions, hasNext: bool)
    ensures InstanceProcAddr(layer, Some(enabled), "vkEnumeratePhysicalDeviceGroupsKHR", hasNext) ==
      if DeviceGroupCreation in enabled then Intercepted(EnumeratePhysicalDeviceGroups)
      else if hasNext then Forwarded else NullProc
  {
    ResolveDeviceGroupsKhr(layer, enabled, hasNext);
  }

  /** A name that no row matches in length and in its k-th letter is in no row (a proof aid for the literal tables). */
  lemma LookupMissesShape(table: seq<Entry>, name: string, k: nat)
    requires k < |name|
    requires forall i | 0 <= i < |table| :: |table[i].name| != |name| || table[i].name[k] != name[k]
    ensures Lookup(table, name).None?
  {
  }

  /** A name whose length no row has is in no row (a proof aid for the literal tables). */
  lemma LookupMissesLength(table: seq<Entry>, name: string)
    requires forall i | 0 <= i < |table| :: |table[i].name| != |name|
    ensures Lookup(table, name).None?
  {
  }

  lemma DeviceExtensionCommandsWithoutCore11(layer: LayerKind, supported: DeviceExtensions)
    requires Core11 !in supported
    ensures Lookup(DeviceExtensionCommands(layer, Some(supported)), "vkBindBufferMemory2").None?
  {
    var table := DeviceExtensionCommands(layer, Some(supported));
    forall i | 0 <= i < |table|
      ensures |table[i].name| != 19
    {
    }
    LookupMissesLength(table, "vkBindBufferMemory2");
  }

  /**
   * vkBindBufferMemory2 comes from a layer's vkGetDeviceProcAddr exactly when
   * the physical device supports Vulkan 1.1; otherwise the next layer answers.
   */
  lemma BindBufferMemory2NeedsCore11(layer: LayerKind, supported: DeviceExtensions, hasNext: bool)
    ensures DeviceProcAddr(layer, supported, "vkBindBufferMemory2", hasNext) ==
      if Core11 in supported then Intercepted(BindBufferMemory2)
      else if hasNext then Forwarded else NullProc
  {
    var name := "vkBindBufferMemory2";
    DeviceCommandsMissLength(layer, name);
    var table := DeviceExtensionCommands(layer, Some(supported));
    if Core11 in supported {
      assert table == CORE_1_1_DEVICE_COMMANDS + table[4..];
      LookupAppend(CORE_1_1_DEVICE_COMMANDS, table[4..], name);
      assert |CORE_1_1_DEVICE_COMMANDS[0].name| == 29 && |CORE_1_1_DEVICE_COMMANDS[1].name| == 30;
    } else {
      DeviceExtensionCommandsWithoutCore11(layer, supported);
    }
  }

  /** Without an instance, only the layer's unconditional instance table answers. */
  lemma NullInstanceOnlyBaseTable(layer: LayerKind, name: string, hasNext: bool)
    ensures InstanceProcAddr(layer, None, name, hasNext) ==
      match Lookup(INSTANCE_COMMANDS, name)
      case Some(c) => Intercepted(c)
      case None => NullProc
  {
  }

  /** No table vkGetInstanceProcAddr consults before its newer-core table names vkEnumeratePhysicalDeviceGroups. */
  lemma EarlierTablesMissDeviceGroups()
    ensures Lookup(INSTANCE_COMMANDS, "vkEnumeratePhysicalDeviceGroups").None?
  {
    forall i | 0 <= i < |INSTANCE_COMMANDS|
      ensures |INSTANCE_COMMANDS[i].name| != 31
    {
    }
    LookupMissesLength(INSTANCE_COMMANDS, "vkEnumeratePhysicalDeviceGroups");
  }

  /** Nor does any table it consults after it. */
  lemma LaterTablesMissDeviceGroups(layer: LayerKind)
    ensures Lookup(InstanceExtensionCommands({InstanceCore11}), "vkEnumeratePhysicalDeviceGroups").None?
    ensures Lookup(DeviceCommands(layer), "vkEnumeratePhysicalDeviceGroups").None?
  {
    assert InstanceExtensionCommands({InstanceCore11}) == [];
    DeviceCommandsMissLength(layer, "vkEnumeratePhysicalDeviceGroups");
  }

  /** No instance-extension row is named vkEnumeratePhysicalDeviceGroups, whatever the instance enabled. */
  lemma InstanceExtensionsMissDeviceGroups(enabled: InstanceExtensions)
    ensures Lookup(InstanceExtensionCommands(enabled), "vkEnumeratePhysicalDeviceGroups").None?
  {
    var table := InstanceExtensionCommands(enabled);
    forall i | 0 <= i < |table| ensures |table[i].name| != 31 { }
    LookupMissesLength(table, "vkEnumeratePhysicalDeviceGroups");
  }

  /** The misspelt table has no row named vkEnumeratePhysicalDeviceGroups. */
  lemma AsWrittenNewerCoreMissesDeviceGroups()
    ensures Lookup(NEWER_CORE_INSTANCE_COMMANDS_AS_WRITTEN, "vkEnumeratePhysicalDeviceGroups").None?
  {
    forall i | 0 <= i < |NEWER_CORE_INSTANCE_COMMANDS_AS_WRITTEN|
      ensures |NEWER_CORE_INSTANCE_COMMANDS_AS_WRITTEN[i].name| != 31
    {
    }
    LookupMissesLength(NEWER_CORE_INSTANCE_COMMANDS_AS_WRITTEN, "vkEnumeratePhysicalDeviceGroups");
  }

  /**
   * The misspelt row: with Vulkan 1.1 enabled and no device-group extension,
   * the core command vkEnumeratePhysicalDeviceGroups bypasses the layer as
   * written.
   */
  lemma EnumeratePhysicalDeviceGroupsBypassed(layer: LayerKind)
    ensures GetInstanceProcAddrAsWritten(layer, Some({InstanceCore11}), "vkEnumeratePhysicalDeviceGroups", true) == Forwarded
  {
    EarlierTablesMissDeviceGroups();
    LaterTablesMissDeviceGroups(layer);
    AsWrittenNewerCoreMissesDeviceGroups();
    ResolveFallsThrough(NEWER_CORE_INSTANCE_COMMANDS_AS_WRITTEN, layer, {InstanceCore11}, "vkEnumeratePhysicalDeviceGroups", true);
  }

  /** Once the row names vkEnumeratePhysicalDeviceGroups, the layer intercepts it under Vulkan 1.1. */
  lemma EnumeratePhysicalDeviceGroupsIntercepted(layer: LayerKind)
    ensures InstanceProcAddr(layer, Some({InstanceCore11}), "vkEnumeratePhysicalDeviceGroups", true) == Intercepted(EnumeratePhysicalDeviceGroups)
  {
    EarlierTablesMissDeviceGroups();
    assert NEWER_CORE_INSTANCE_COMMANDS[0].name == "vkEnumeratePhysicalDeviceGroups";
    ResolveNewerCore(NEWER_CORE_INSTANCE_COMMANDS, layer, {InstanceCore11}, "vkEnumeratePhysicalDeviceGroups", true);
  }
}
