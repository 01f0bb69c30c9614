// The memory tracker layer (VK_LAYER_LUNARG_memory_tracker). It keeps one
// handle-keyed table per Vulkan object kind and updates them around every
// call it forwards to the next layer. Each entry point is a method of
// `Layer`. What the next layer does is given as parameters: its result code,
// the handle it creates, and the structures it fills in.

module MemoryTrackerLayer {
  import opened Vk
  import opened Chain
  import opened Bindings
  import opened Registry
  import opened MemoryProperties
  import opened Extensions
  import Dispatch
  import opened Teardown

  /** The name this layer answers to in vkEnumerateDeviceExtensionProperties. */
  const LAYER_NAME: string := "VK_LAYER_LUNARG_memory_tracker"

  /** InstanceMapStruct without its dispatch table. */
  datatype InstanceRecord = InstanceRecord(extensions: InstanceExtensions)

  /** PhysDeviceMapStruct without its mutex. */
  datatype PhysicalDeviceRecord = PhysicalDeviceRecord(
    instance: Handle,
    props: DeviceProperties,
    memoryProps: LocalMemoryProperties,
    supported: DeviceExtensions,
    budgetUpdated: bool)

  /** DeviceMapStruct without its dispatch table and mutex. */
  datatype DeviceRecord = DeviceRecord(physicalDevice: Handle, enabled: DeviceExtensions, bindingsUpdated: bool)

  /** All the layer's tables at one moment. */
  datatype Tables = Tables(
    instances: map<Handle, InstanceRecord>,
    physicalDevices: map<Handle, PhysicalDeviceRecord>,
    devices: map<Handle, DeviceRecord>,
    buffers: map<Handle, BufferRecord>,
    images: map<Handle, ImageRecord>,
    memories: map<Handle, MemoryRecord>,
    externalMemFds: map<int, ExternalFdRecord>,
    queueToDevice: map<Handle, Handle>)

  // ---------------------------------------------------------------------
  // Physical-device enumeration

  /** The record a physical device gets the first time it is enumerated: zeroed properties, no flags. */
  function NewPhysicalDevice(instance: Handle): (r: PhysicalDeviceRecord)
    ensures r.instance == instance && r.supported == {} && !r.budgetUpdated && WellFormedLocal(r.memoryProps)
    ensures r.props.deviceName == [] && r.memoryProps.memoryHeapCount == 0
  {
    PhysicalDeviceRecord(instance, ZEROED_PROPERTIES, NoMemoryProperties(), {}, false)
  }

  /** One reported physical device: created if unknown, then assigned to `instance`. */
  function AdoptOne(pds: map<Handle, PhysicalDeviceRecord>, p: Handle, instance: Handle): map<Handle, PhysicalDeviceRecord>
  {
    pds[p := (if p in pds then pds[p] else NewPhysicalDevice(instance)).(instance := instance)]
  }

  /** The enumeration loop over the reported handles, in order. */
  function Adopt(pds: map<Handle, PhysicalDeviceRecord>, reported: seq<Handle>, instance: Handle): map<Handle, PhysicalDeviceRecord>
  {
    if |reported| == 0 then pds
    else AdoptOne(Adopt(pds, reported[..|reported| - 1], instance), reported[|reported| - 1], instance)
  }

  /**
   * After an enumeration every reported handle has a record that belongs to
   * `instance`: its old record with only the instance changed, or a new
   * zeroed one; every other record is untouched.
   */
  lemma {:induction false} AdoptSpec(pds: map<Handle, PhysicalDeviceRecord>, reported: seq<Handle>, instance: Handle)
    ensures var r := Adopt(pds, reported, instance);
      && (forall p :: p in r <==> p in pds || p in reported)
      && (forall p | p in reported :: r[p] == (if p in pds then pds[p] else NewPhysicalDevice(instance)).(instance := instance))
      && (forall p | p in pds && p !in reported :: r[p] == pds[p])
    decreases |reported|
  {
    if |reported| > 0 {
      var prefix, last := reported[..|reported| - 1], reported[|reported| - 1];
      AdoptSpec(pds, prefix, instance);
      assert reported == prefix + [last];
      assert forall p :: p in reported <==> p in prefix || p == last;
    }
  }

  lemma AdoptAppendOne(pds: map<Handle, PhysicalDeviceRecord>, reported: seq<Handle>, p: Handle, instance: Handle)
    ensures Adopt(pds, reported + [p], instance) == AdoptOne(Adopt(pds, reported, instance), p, instance)
  {
    assert (reported + [p])[..|reported|] == reported;
  }

  /** The two loops of vkEnumeratePhysicalDeviceGroups: every physical device of every group, group by group. */
  method AdoptGroups(pds: map<Handle, PhysicalDeviceRecord>, groups: seq<seq<Handle>>, instance: Handle)
    returns (r: map<Handle, PhysicalDeviceRecord>)
    ensures r == Adopt(pds, Flatten(groups), instance)
  {
    r := pds;
    for i := 0 to |groups|
      invariant r == Adopt(pds, Flatten(groups[..i]), instance)
    {
      var group := groups[i];
      assert Flatten(groups[..i]) + group[..0] == Flatten(groups[..i]);
      for j := 0 to |group|
        invariant r == Adopt(pds, Flatten(groups[..i]) + group[..j], instance)
      {
        AdoptAppendOne(pds, Flatten(groups[..i]) + group[..j], group[j], instance);
        assert Flatten(groups[..i]) + group[..j + 1] == Flatten(groups[..i]) + group[..j] + [group[j]];
        var p := group[j];
        var record := if p in r then r[p] else NewPhysicalDevice(instance);
        r := r[p := record.(instance := instance)];
      }
      assert group[..|group|] == group;
      assert groups[..i + 1][..i] == groups[..i] && groups[..i + 1][i] == group;
    }
    assert groups[..|groups|] == groups;
  }

  // ---------------------------------------------------------------------
  // Instance destruction

  /** The physical devices enumerated last by `instance`. */
  function PhysicalDevicesOf(pds: map<Handle, PhysicalDeviceRecord>, instance: Handle): (r: set<Handle>)
    ensures forall p :: p in r <==> p in pds && pds[p].instance == instance
  {
    set p | p in pds && pds[p].instance == instance
  }

  /** The devices created on one of the physical devices `ps`. */
  function DevicesOn(devices: map<Handle, DeviceRecord>, ps: set<Handle>): (r: set<Handle>)
    ensures forall d :: d in r <==> d in devices && devices[d].physicalDevice in ps
  {
    set d | d in devices && devices[d].physicalDevice in ps
  }

  // ---------------------------------------------------------------------
  // Record updates shared by several entry points

  /** The physical device's properties after GetPhysicalDeviceProperties, when its name is still empty. */
  function WithProps(rec: PhysicalDeviceRecord, props: DeviceProperties): (r: PhysicalDeviceRecord)
    ensures r.props == (if rec.props.deviceName == [] then props else rec.props)
    ensures r.(props := rec.props) == rec
  {
    if rec.props.deviceName == [] then rec.(props := props) else rec
  }

  /**
   * What a successful EnumerateDeviceExtensionProperties fill leaves in the
   * physical device's record: the properties refreshed if the name was
   * empty; the core flags the instance and the device's own API version
   * allow; and a flag for every recognised extension name.
   */
  function WithExtensions(rec: PhysicalDeviceRecord, instance: InstanceExtensions, props: DeviceProperties, names: seq<string>)
    : (r: PhysicalDeviceRecord)
    ensures r.props == WithProps(rec, props).props
    ensures r.supported == DeviceCoreFlags(rec.supported, instance, r.props.apiVersion) + DeviceFlagsNamed(MemoryTracker, names)
    ensures r.(props := rec.props, supported := rec.supported) == rec
  {
    var named := WithProps(rec, props);
    named.(supported := DeviceCoreFlags(rec.supported, instance, named.props.apiVersion) + DeviceFlagsNamed(MemoryTracker, names))
  }

  /**
   * What a successful CreateDevice leaves in the physical device's record:
   * the properties refreshed if the name was empty and, if no heap was
   * known yet, the memory properties queried, with the budget when the new
   * device enabled VK_EXT_memory_budget.
   */
  function PreparedForDevice(rec: PhysicalDeviceRecord, enabled: DeviceExtensions, props: DeviceProperties,
                             vulkan: DeviceMemoryProperties, budget: BudgetProperties): (r: PhysicalDeviceRecord)
    requires WellFormedLocal(rec.memoryProps) && WellFormedProperties(vulkan) && WellFormedBudget(budget)
    ensures WellFormedLocal(r.memoryProps) && r.instance == rec.instance && r.supported == rec.supported
    ensures rec.memoryProps.memoryHeapCount != 0 ==> r == WithProps(rec, props)
    ensures rec.memoryProps.memoryHeapCount == 0 ==> r.memoryProps.memoryHeapCount == vulkan.memoryHeapCount
    ensures r.budgetUpdated <==> rec.budgetUpdated || (rec.memoryProps.memoryHeapCount == 0 && MemoryBudget in enabled)
  {
    var named := WithProps(rec, props);
    if rec.memoryProps.memoryHeapCount != 0 then named
    else if MemoryBudget in enabled then
      named.(memoryProps := CopiedProperties(vulkan, rec.memoryProps, Some(budget)), budgetUpdated := true)
    else named.(memoryProps := CopiedProperties(vulkan, rec.memoryProps, None))
  }

  /** A bind marks the device's bindings as changed and the physical device's budget as stale. */
  function Rebound(s: Tables, device: Handle): (r: Tables)
    requires device in s.devices && s.devices[device].physicalDevice in s.physicalDevices
    ensures r.devices.Keys == s.devices.Keys && r.physicalDevices.Keys == s.physicalDevices.Keys
    ensures r.devices[device].bindingsUpdated && !r.physicalDevices[s.devices[device].physicalDevice].budgetUpdated
  {
    var p := s.devices[device].physicalDevice;
    s.(devices := s.devices[device := s.devices[device].(bindingsUpdated := true)],
       physicalDevices := s.physicalDevices[p := s.physicalDevices[p].(budgetUpdated := false)])
  }

  /**
   * Every physical device belongs to a live instance and holds full-size
   * memory arrays, every device sits on a live physical device, and no
   * buffer or image is in two binding lists or twice in one.
   */
  ghost predicate Consistent(s: Tables)
  {
    && (forall p | p in s.physicalDevices ::
          s.physicalDevices[p].instance in s.instances && WellFormedLocal(s.physicalDevices[p].memoryProps))
    && (forall d | d in s.devices :: s.devices[d].physicalDevice in s.physicalDevices)
    && BindingsExclusive(s.memories)
  }

  /** Erasing an instance with its physical devices and their devices keeps the tables consistent. */
  lemma DestroyInstanceKeepsConsistent(s: Tables, instance: Handle, fds: map<int, ExternalFdRecord>)
    requires Consistent(s)
    ensures var ps := PhysicalDevicesOf(s.physicalDevices, instance);
      Consistent(s.(instances := s.instances - {instance},
                    physicalDevices := s.physicalDevices - ps,
                    devices := s.devices - DevicesOn(s.devices, ps),
                    externalMemFds := fds))
  {
  }

  /** Erasing devices, and any descriptors, keeps the tables consistent. */
  lemma DestroyDevicesKeepsConsistent(s: Tables, ds: set<Handle>, fds: map<int, ExternalFdRecord>)
    requires Consistent(s)
    ensures Consistent(s.(devices := s.devices - ds, externalMemFds := fds))
  {
  }

  class Layer {
    var instances: map<Handle, InstanceRecord>
    var physicalDevices: map<Handle, PhysicalDeviceRecord>
    var devices: map<Handle, DeviceRecord>
    var buffers: map<Handle, BufferRecord>
    var images: map<Handle, ImageRecord>
    var memories: map<Handle, MemoryRecord>
    var externalMemFds: map<int, ExternalFdRecord>
    var queueToDevice: map<Handle, Handle>

    ghost function State(): Tables
      reads this
    {
      Tables(instances, physicalDevices, devices, buffers, images, memories, externalMemFds, queueToDevice)
    }

    /** The tables are consistent (see Consistent). */
    ghost predicate Valid()
      reads this
    {
      Consistent(State())
    }

    /** The tables when the layer is loaded: all empty. */
    constructor()
      ensures Valid()
      ensures State() == Tables(map[], map[], map[], map[], map[], map[], map[], map[])
    {
      instances, physicalDevices, devices := map[], map[], map[];
      buffers, images, memories := map[], map[], map[];
      externalMemFds, queueToDevice := map[], map[];
    }

    // -------------------------------------------------------------------
    // Instances and physical devices

    /**
     * vkCreateInstance. `hasCreate` says whether the next layer has a
     * vkCreateInstance; `created` is the handle it returns. On success the
     * instance is recorded with the core flags of its API version and a
     * flag per recognised extension name.
     */
    method CreateInstance(hasCreate: bool, nextResult: Result, created: Handle, apiVersion: Option<u32>, names: seq<string>)
      returns (r: Result)
      requires Valid()
      modifies this
      ensures Valid()
      ensures !hasCreate ==> r == ErrorInitializationFailed && State() == old(State())
      ensures hasCreate ==> r == nextResult
      ensures hasCreate && r == Success ==>
        State() == old(State()).(instances := old(instances)[created := InstanceRecord(InstanceCoreFlags(apiVersion) + InstanceFlagsNamed(names))])
      ensures hasCreate && r != Success ==> State() == old(State())
    {
      if !hasCreate {
        return ErrorInitializationFailed;
      }
      r := nextResult;
      if r == Success {
        var flags := InstanceCoreFlags(apiVersion);
        flags := ScanInstanceExtensionNames(flags, names);
        instances := instances[created := InstanceRecord(flags)];
      }
    }

    /**
     * vkDestroyInstance: every device on a physical device of the instance is
     * destroyed as DestroyDevice destroys it, then those physical devices
     * and the instance are erased. Below the layer the code destroys only
     * those devices, in the order `order` the device map is walked, and never
     * forwards vkDestroyInstance itself (see Teardown); the model hands it on
     * after the devices, in `downstream`.
     */
    method DestroyInstance(instance: Handle, order: seq<Handle>) returns (downstream: seq<DownstreamCall>)
      requires Valid()
      requires (set d | d in order) == DevicesOn(devices, PhysicalDevicesOf(physicalDevices, instance))
      modifies this
      ensures Valid()
      ensures downstream == DestroyInstanceCalls(order, instance)
      ensures var ps := PhysicalDevicesOf(old(physicalDevices), instance);
        var ds := DevicesOn(old(devices), ps);
        State() == old(State()).(instances := old(instances) - {instance},
                                 physicalDevices := old(physicalDevices) - ps,
                                 devices := old(devices) - ds,
                                 externalMemFds := FdsNotOfAny(old(externalMemFds), ds))
    {
      var ps := PhysicalDevicesOf(physicalDevices, instance);
      DestroyInstanceKeepsConsistent(State(), instance, FdsNotOfAny(externalMemFds, DevicesOn(devices, ps)));
      DestroyDevices(DevicesOn(devices, ps));
      physicalDevices := physicalDevices - ps;
      instances := instances - {instance};
      downstream := DestroyInstanceCalls(order, instance);
    }

    /** The device loop of DestroyInstance: DestroyDevice on each of `ds`, in any order. */
    method DestroyDevices(ds: set<Handle>)
      requires Valid() && ds <= devices.Keys
      modifies this
      ensures Valid()
      ensures State() == old(State()).(devices := old(devices) - ds, externalMemFds := FdsNotOfAny(old(externalMemFds), ds))
    {
      var remaining, kept := EraseDevices(devices, externalMemFds, ds);
      DestroyDevicesKeepsConsistent(State(), ds, kept);
      devices, externalMemFds := remaining, kept;
    }

    /**
     * vkEnumeratePhysicalDevices. After a successful fill every handle written
     * has a record that belongs to `instance` (see AdoptSpec); a count query
     * or a failure changes nothing.
     */
    method EnumeratePhysicalDevices(instance: Handle, nextResult: Result, hasArray: bool, reported: seq<Handle>) returns (r: Result)
      requires Valid() && instance in instances
      modifies this
      ensures Valid()
      ensures r == nextResult
      ensures r == Success && hasArray ==> State() == old(State()).(physicalDevices := Adopt(old(physicalDevices), reported, instance))
      ensures !(r == Success && hasArray) ==> State() == old(State())
    {
      r := nextResult;
      if r == Success && hasArray {
        for i := 0 to |reported|
          invariant physicalDevices == Adopt(old(physicalDevices), reported[..i], instance)
          invariant State() == old(State()).(physicalDevices := physicalDevices)
        {
          AdoptAppendOne(old(physicalDevices), reported[..i], reported[i], instance);
          assert reported[..i + 1] == reported[..i] + [reported[i]];
          var p := reported[i];
          var record := if p in physicalDevices then physicalDevices[p] else NewPhysicalDevice(instance);
          physicalDevices := physicalDevices[p := record.(instance := instance)];
        }
        assert reported[..|reported|] == reported;
        AdoptSpec(old(physicalDevices), reported, instance);
      }
    }

    /** vkEnumeratePhysicalDeviceGroups: the same for every physical device of every group written. */
    method EnumeratePhysicalDeviceGroups(instance: Handle, nextResult: Result, hasArray: bool, groups: seq<seq<Handle>>)
      returns (r: Result)
      requires Valid() && instance in instances
      modifies this
      ensures Valid()
      ensures r == nextResult
      ensures r == Success && hasArray ==>
        State() == old(State()).(physicalDevices := Adopt(old(physicalDevices), Flatten(groups), instance))
      ensures !(r == Success && hasArray) ==> State() == old(State())
    {
      r := nextResult;
      if r == Success && hasArray {
        var adopted := AdoptGroups(physicalDevices, groups, instance);
        AdoptSpec(physicalDevices, Flatten(groups), instance);
        physicalDevices := adopted;
      }
    }

    /** vkGetPhysicalDeviceProperties (and ...Properties2): the layer keeps a copy of what the driver wrote. */
    method GetPhysicalDeviceProperties(p: Handle, hasOut: bool, props: DeviceProperties)
      requires Valid() && p in physicalDevices
      modifies this
      ensures Valid()
      ensures hasOut ==> State() == old(State()).(physicalDevices := old(physicalDevices)[p := old(physicalDevices)[p].(props := props)])
      ensures !hasOut ==> State() == old(State())
    {
      if hasOut {
        physicalDevices := physicalDevices[p := physicalDevices[p].(props := props)];
      }
    }

    /** vkGetPhysicalDeviceMemoryProperties: the copy is refreshed with no budget (usage and budget 0). */
    method GetPhysicalDeviceMemoryProperties(p: Handle, hasOut: bool, vulkan: DeviceMemoryProperties)
      requires Valid() && p in physicalDevices && WellFormedProperties(vulkan)
      modifies this
      ensures Valid()
      ensures hasOut ==> State() == old(State()).(physicalDevices := old(physicalDevices)[p :=
        old(physicalDevices)[p].(memoryProps := CopiedProperties(vulkan, old(physicalDevices)[p].memoryProps, None))])
      ensures !hasOut ==> State() == old(State())
    {
      if hasOut {
        var copied := CopyMemoryProperties(vulkan, physicalDevices[p].memoryProps, None);
        physicalDevices := physicalDevices[p := physicalDevices[p].(memoryProps := copied)];
      }
    }

    /**
     * vkGetPhysicalDeviceMemoryProperties2: the copy is refreshed from the
     * first budget structure of the output chain, if there is one, and the
     * budget is then marked as refreshed.
     */
    method GetPhysicalDeviceMemoryProperties2(p: Handle, hasOut: bool, vulkan: DeviceMemoryProperties, chain: seq<ChainStruct>)
      requires Valid() && p in physicalDevices && WellFormedProperties(vulkan) && BudgetChainWellFormed(chain)
      modifies this
      ensures Valid()
      ensures hasOut ==> State() == old(State()).(physicalDevices := old(physicalDevices)[p :=
        old(physicalDevices)[p].(memoryProps := CopiedProperties(vulkan, old(physicalDevices)[p].memoryProps, BudgetIn(chain)),
                                 budgetUpdated := old(physicalDevices)[p].budgetUpdated || BudgetIn(chain).Some?)])
      ensures !hasOut ==> State() == old(State())
    {
      if hasOut {
        var found := SearchBudget(chain);
        var budget := if found.Some? then Some(BudgetProperties(chain[found.value].heapUsage, chain[found.value].heapBudget)) else None;
        var copied := CopyMemoryProperties(vulkan, physicalDevices[p].memoryProps, budget);
        physicalDevices := physicalDevices[p := physicalDevices[p].(memoryProps := copied)];
        if budget.Some? {
          physicalDevices := physicalDevices[p := physicalDevices[p].(budgetUpdated := true)];
        }
      }
    }

    /**
     * vkEnumerateDeviceExtensionProperties. A query naming this layer is
     * answered by the layer itself (`ownResult`); an unknown physical device
     * gets VK_ERROR_INITIALIZATION_FAILED; otherwise the call is forwarded and
     * a successful fill records the device's core versions and recognised
     * extensions (see WithExtensions).
     */
    method EnumerateDeviceExtensionProperties(p: Handle, layerName: Option<string>, ownResult: Result, nextResult: Result,
                                              hasArray: bool, names: seq<string>, props: DeviceProperties)
      returns (r: Result)
      requires Valid()
      modifies this
      ensures Valid()
      ensures layerName == Some(LAYER_NAME) ==> r == ownResult && State() == old(State())
      ensures layerName != Some(LAYER_NAME) && p !in old(physicalDevices) ==> r == ErrorInitializationFailed && State() == old(State())
      ensures layerName != Some(LAYER_NAME) && p in old(physicalDevices) ==> r == nextResult
      ensures layerName != Some(LAYER_NAME) && p in old(physicalDevices) && r == Success && hasArray ==>
        var rec := old(physicalDevices)[p];
        State() == old(State()).(physicalDevices := old(physicalDevices)[p :=
          WithExtensions(rec, old(instances)[rec.instance].extensions, props, names)])
      ensures layerName != Some(LAYER_NAME) && p in old(physicalDevices) && !(r == Success && hasArray) ==> State() == old(State())
    {
      if layerName == Some(LAYER_NAME) {
        return ownResult;
      }
      if p !in physicalDevices {
        return ErrorInitializationFailed;
      }
      r := nextResult;
      if r == Success && hasArray {
        RecordExtensions(p, names, props);
      }
    }

    /** The successful fill of EnumerateDeviceExtensionProperties: the record becomes WithExtensions of it. */
    method RecordExtensions(p: Handle, names: seq<string>, props: DeviceProperties)
      requires Valid() && p in physicalDevices
      modifies this
      ensures Valid()
      ensures var rec := old(physicalDevices)[p];
        State() == old(State()).(physicalDevices := old(physicalDevices)[p :=
          WithExtensions(rec, old(instances)[rec.instance].extensions, props, names)])
    {
      var rec := physicalDevices[p];
      // GetPhysicalDeviceProperties refreshes the record when its name is empty
      var named := WithProps(rec, props);
      var flags := DeviceCoreFlags(rec.supported, instances[rec.instance].extensions, named.props.apiVersion);
      flags := ScanDeviceExtensionNames(MemoryTracker, flags, names);
      physicalDevices := physicalDevices[p := named.(supported := flags)];
    }

    // -------------------------------------------------------------------
    // Devices

    /**
     * vkCreateDevice. `hasCreate` says whether the next layer has a
     * vkCreateDevice. The extension list forwarded is the application's,
     * with VK_EXT_memory_budget appended when the physical device supports
     * it and Vulkan 1.1 and the list lacks it. On success the device is
     * recorded with the extensions of the forwarded list, and the physical
     * device's record is prepared (see PreparedForDevice) from the driver's
     * answers `props`, `vulkan` and `budget`.
     */
    method CreateDevice(p: Handle, names: seq<string>, hasCreate: bool, nextResult: Result, created: Handle,
                        props: DeviceProperties, vulkan: DeviceMemoryProperties, budget: BudgetProperties)
      returns (r: Result, forwarded: Option<seq<string>>)
      requires Valid() && p in physicalDevices && WellFormedProperties(vulkan) && WellFormedBudget(budget)
      modifies this
      ensures Valid()
      ensures !hasCreate ==> r == ErrorInitializationFailed && forwarded.None? && State() == old(State())
      ensures hasCreate ==> r == nextResult && forwarded.Some?
      ensures forwarded.Some? ==> var supported := old(physicalDevices)[p].supported;
        && (forwarded.value == names || forwarded.value == names + [EXT_MEMORY_BUDGET])
        && (forwarded.value != names <==> Core11 in supported && MemoryBudget in supported && EXT_MEMORY_BUDGET !in names)
      ensures hasCreate && r == Success ==>
        var enabled := DeviceFlagsNamed(MemoryTracker, forwarded.value);
        State() == old(State()).(
          devices := old(devices)[created := DeviceRecord(p, enabled, false)],
          physicalDevices := old(physicalDevices)[p := PreparedForDevice(old(physicalDevices)[p], enabled, props, vulkan, budget)])
      ensures hasCreate && r == Success && Core11 in old(physicalDevices)[p].supported && MemoryBudget in old(physicalDevices)[p].supported ==>
        MemoryBudget in devices[created].enabled
      ensures hasCreate && r != Success ==> State() == old(State())
    {
      if !hasCreate {
        return ErrorInitializationFailed, None;
      }
      var names' := ForceMemoryBudget(physicalDevices[p].supported, names);
      forwarded := Some(names');
      r := nextResult;
      if r == Success {
        var enabled := ScanDeviceExtensionNames(MemoryTracker, {}, names');
        DeviceFlagsNamedSpec(MemoryTracker, names');
        assert enabled == DeviceFlagsNamed(MemoryTracker, names');
        PrepareForDevice(p, enabled, props, vulkan, budget);
        devices := devices[created := DeviceRecord(p, enabled, false)];
      }
    }

    /** The part of CreateDevice that refreshes the physical device's record (see PreparedForDevice). */
    method PrepareForDevice(p: Handle, enabled: DeviceExtensions, props: DeviceProperties,
                            vulkan: DeviceMemoryProperties, budget: BudgetProperties)
      requires Valid() && p in physicalDevices && WellFormedProperties(vulkan) && WellFormedBudget(budget)
      modifies this
      ensures Valid()
      ensures State() == old(State()).(physicalDevices :=
        old(physicalDevices)[p := PreparedForDevice(old(physicalDevices)[p], enabled, props, vulkan, budget)])
    {
      // what the layer's own GetPhysicalDeviceProperties and
      // GetPhysicalDeviceMemoryProperties(2) store, called with a fresh
      // output structure (a chain holding one budget structure when the
      // device enabled VK_EXT_memory_budget)
      var record := physicalDevices[p];
      if record.props.deviceName == [] {
        record := record.(props := props);
      }
      if record.memoryProps.memoryHeapCount == 0 {
        if MemoryBudget in enabled {
          var copied := CopyMemoryProperties(vulkan, record.memoryProps, Some(budget));
          record := record.(memoryProps := copied, budgetUpdated := true);
        } else {
          var copied := CopyMemoryProperties(vulkan, record.memoryProps, None);
          record := record.(memoryProps := copied);
        }
      }
      physicalDevices := physicalDevices[p := record];
    }

    /** vkDestroyDevice: the device's record and the file descriptors it imported are erased; nothing else changes. */
    method DestroyDevice(device: Handle)
      requires Valid() && device in devices
      modifies this
      ensures Valid()
      ensures State() == old(State()).(devices := old(devices) - {device},
                                       externalMemFds := FdsNotOf(old(externalMemFds), device))
    {
      externalMemFds := EraseExternalMemFds(externalMemFds, device);
      devices := devices - {device};
    }

    // -------------------------------------------------------------------
    // Buffers and images

    /** vkCreateBuffer: on success the buffer is recorded with its create info and what its pNext chain says. */
    method CreateBuffer(device: Handle, info: BufferCreateInfo, chain: seq<ChainStruct>, nextResult: Result, created: Handle)
      returns (r: Result)
      requires Valid() && device in devices
      modifies this
      ensures Valid()
      ensures r == nextResult
      ensures r == Success ==> State() == old(State()).(buffers := old(buffers)[created :=
        BufferRecord(device, info, BufferReference(chain), NO_REQUIREMENTS)])
      ensures r != Success ==> State() == old(State())
    {
      r := nextResult;
      if r == Success {
        var additional := Walk(NO_ADDITIONAL_BUFFER, BufferStep, chain);
        BufferWalkMatchesReference(chain);
        buffers := buffers[created := BufferRecord(device, info, additional, NO_REQUIREMENTS)];
      }
    }

    /** vkDestroyBuffer: EraseBufferMapEntry after the call is forwarded. */
    method DestroyBuffer(device: Handle, buffer: Handle)
      requires Valid() && device in devices
      modifies this
      ensures Valid()
      ensures buffer in old(buffers) ==> State() == old(State()).(buffers := old(buffers) - {buffer},
        memories := WithBufferLists(old(memories), Strip(BufferLists(old(memories)), buffer)))
      ensures buffer !in old(buffers) ==> State() == old(State())
    {
      StripPreservesExclusive(BufferLists(memories), buffer);
      buffers, memories := EraseBufferEntry(buffers, memories, buffer);
    }

    /** vkCreateImage: on success the image is recorded with its create info and what its pNext chain says. */
    method CreateImage(device: Handle, info: ImageCreateInfo, chain: seq<ChainStruct>, nextResult: Result, created: Handle)
      returns (r: Result)
      requires Valid() && device in devices
      modifies this
      ensures Valid()
      ensures r == nextResult
      ensures r == Success ==> State() == old(State()).(images := old(images)[created :=
        ImageRecord(device, info, ImageReference(chain), NO_REQUIREMENTS)])
      ensures r != Success ==> State() == old(State())
    {
      r := nextResult;
      if r == Success {
        var additional := Walk(NO_ADDITIONAL_IMAGE, ImageStep, chain);
        ImageWalkMatchesReference(chain);
        images := images[created := ImageRecord(device, info, additional, NO_REQUIREMENTS)];
      }
    }

    /** vkDestroyImage: EraseImageMapEntry after the call is forwarded. */
    method DestroyImage(device: Handle, image: Handle)
      requires Valid() && device in devices
      modifies this
      ensures Valid()
      ensures image in old(images) ==> State() == old(State()).(images := old(images) - {image},
        memories := WithImageLists(old(memories), Strip(ImageLists(old(memories)), image)))
      ensures image !in old(images) ==> State() == old(State())
    {
      StripPreservesExclusive(ImageLists(memories), image);
      images, memories := EraseImageEntry(images, memories, image);
    }

    /** vkGetBufferMemoryRequirements (and ...2): the buffer's record keeps what the driver reported. */
    method GetBufferMemoryRequirements(device: Handle, buffer: Handle, reqs: MemoryRequirements)
      requires Valid() && device in devices && buffer in buffers
      modifies this
      ensures Valid()
      ensures State() == old(State()).(buffers := old(buffers)[buffer := old(buffers)[buffer].(memoryReqs := reqs)])
    {
      buffers := buffers[buffer := buffers[buffer].(memoryReqs := reqs)];
    }

    /** vkGetImageMemoryRequirements (and ...2): the image's record keeps what the driver reported. */
    method GetImageMemoryRequirements(device: Handle, image: Handle, reqs: MemoryRequirements)
      requires Valid() && device in devices && image in images
      modifies this
      ensures Valid()
      ensures State() == old(State()).(images := old(images)[image := old(images)[image].(memoryReqs := reqs)])
    {
      images := images[image := images[image].(memoryReqs := reqs)];
    }

    /** vkGetMemoryFdPropertiesKHR: a successful query with an output records the descriptor for the device. */
    method GetMemoryFdProperties(device: Handle, fd: int, nextResult: Result, hasOut: bool, memoryTypeBits: u32)
      returns (r: Result)
      requires Valid() && device in devices
      modifies this
      ensures Valid()
      ensures r == nextResult
      ensures r == Success && hasOut ==>
        State() == old(State()).(externalMemFds := old(externalMemFds)[fd := ExternalFdRecord(device, memoryTypeBits)])
      ensures !(r == Success && hasOut) ==> State() == old(State())
    {
      r := nextResult;
      if r == Success && hasOut {
        externalMemFds := externalMemFds[fd := ExternalFdRecord(device, memoryTypeBits)];
      }
    }

    // -------------------------------------------------------------------
    // Memory

    /** vkAllocateMemory: on success the allocation is recorded with no bindings and what its pNext chain says. */
    method AllocateMemory(device: Handle, allocationSize: u64, memoryTypeIndex: u32, chain: seq<ChainStruct>,
                          nextResult: Result, created: Handle)
      returns (r: Result)
      requires Valid() && device in devices
      modifies this
      ensures Valid()
      ensures r == nextResult
      ensures r == Success ==>
        State() == old(State()).(memories := old(memories)[created := NewMemory(device, allocationSize, memoryTypeIndex, chain)])
      ensures r != Success ==> State() == old(State())
    {
      r := nextResult;
      if r == Success {
        var additional := Walk(NO_ADDITIONAL_MEMORY, MemoryStep, chain);
        var record := MemoryRecord(device, allocationSize, memoryTypeIndex, additional, [], []);
        NewMemoryKeepsExclusive(memories, created, record);
        memories := memories[created := record];
      }
    }

    /** vkFreeMemory: only the allocation's own record goes; buffer and image records stay. */
    method FreeMemory(device: Handle, memory: Handle)
      requires Valid() && device in devices
      modifies this
      ensures Valid()
      ensures State() == old(State()).(memories := old(memories) - {memory})
    {
      FreeMemoryKeepsExclusive(memories, memory);
      memories := memories - {memory};
    }

    /**
     * vkBindBufferMemory: after a successful bind of a non-null buffer it is
     * in `memory`'s list once, and in no other (see BoundBufferInOneList);
     * the device's bindings are marked changed and its physical device's
     * budget stale.
     */
    method BindBufferMemory(device: Handle, buffer: Handle, memory: Handle, offset: u64, nextResult: Result)
      returns (r: Result)
      requires Valid() && device in devices
      requires nextResult == Success && buffer != NULL_HANDLE && memory != NULL_HANDLE ==> memory in memories
      modifies this
      ensures Valid()
      ensures r == nextResult
      ensures r == Success && buffer != NULL_HANDLE ==>
        State() == Rebound(old(State()), device).(memories := WithBufferLists(old(memories), Bind(BufferLists(old(memories)), buffer, memory, offset, ())))
      ensures !(r == Success && buffer != NULL_HANDLE) ==> State() == old(State())
    {
      r := nextResult;
      if r == Success && buffer != NULL_HANDLE {
        BindPreservesExclusive(BufferLists(memories), buffer, memory, offset, ());
        var lists := StripLists(BufferLists(memories), buffer);
        if memory != NULL_HANDLE {
          lists := lists[memory := lists[memory] + [Binding(buffer, offset, ())]];
        }
        var updated := WithBufferLists(memories, lists);
        assert BindingsExclusive(updated);
        MarkRebound(device);
        ReplaceMemories(updated);
      }
    }

    /** vkBindImageMemory: the same for an image, whose entry carries no chain data. */
    method BindImageMemory(device: Handle, image: Handle, memory: Handle, offset: u64, nextResult: Result)
      returns (r: Result)
      requires Valid() && device in devices
      requires nextResult == Success && image != NULL_HANDLE && memory != NULL_HANDLE ==> memory in memories
      modifies this
      ensures Valid()
      ensures r == nextResult
      ensures r == Success && image != NULL_HANDLE ==>
        State() == Rebound(old(State()), device).(memories :=
          WithImageLists(old(memories), Bind(ImageLists(old(memories)), image, memory, offset, NO_ADDITIONAL_IMAGE_MEMORY)))
      ensures !(r == Success && image != NULL_HANDLE) ==> State() == old(State())
    {
      r := nextResult;
      if r == Success && image != NULL_HANDLE {
        BindPreservesExclusive(ImageLists(memories), image, memory, offset, NO_ADDITIONAL_IMAGE_MEMORY);
        var lists := StripLists(ImageLists(memories), image);
        if memory != NULL_HANDLE {
          lists := lists[memory := lists[memory] + [Binding(image, offset, NO_ADDITIONAL_IMAGE_MEMORY)]];
        }
        var updated := WithImageLists(memories, lists);
        assert BindingsExclusive(updated);
        MarkRebound(device);
        ReplaceMemories(updated);
      }
    }

    /**
     * vkBindBufferMemory2: on success each info naming a buffer is applied
     * in order as BindBufferMemory applies it, so the last info naming a
     * buffer decides where it ends up (see ApplyBindsLastWins); the flags
     * change even when no info names a buffer.
     */
    method BindBufferMemory2(device: Handle, infos: seq<BindRequest<()>>, nextResult: Result) returns (r: Result)
      requires Valid() && device in devices
      requires nextResult == Success ==> MemoriesKnown(BufferLists(memories), infos)
      modifies this
      ensures Valid()
      ensures r == nextResult
      ensures r == Success ==>
        State() == Rebound(old(State()), device).(memories := WithBufferLists(old(memories), ApplyBinds(BufferLists(old(memories)), infos)))
      ensures r != Success ==> State() == old(State())
    {
      r := nextResult;
      if r == Success {
        var lists := BindInOrder(BufferLists(memories), infos);
        ApplyBindsPreservesExclusive(BufferLists(memories), infos);
        var updated := WithBufferLists(memories, lists);
        assert BindingsExclusive(updated);
        MarkRebound(device);
        ReplaceMemories(updated);
      }
    }

    /**
     * vkBindImageMemory2: the same for images; each entry carries what its
     * bind info's own chain says, walked only when the memory is not null.
     */
    method BindImageMemory2(device: Handle, infos: seq<ImageBindInfo>, nextResult: Result) returns (r: Result)
      requires Valid() && device in devices
      requires nextResult == Success ==> MemoriesKnown(ImageLists(memories), ImageRequests(infos))
      modifies this
      ensures Valid()
      ensures r == nextResult
      ensures r == Success ==>
        State() == Rebound(old(State()), device).(memories :=
          WithImageLists(old(memories), ApplyBinds(ImageLists(old(memories)), ImageRequests(infos))))
      ensures r != Success ==> State() == old(State())
    {
      r := nextResult;
      if r == Success {
        var lists := BindImagesInOrder(ImageLists(memories), infos);
        ApplyBindsPreservesExclusive(ImageLists(memories), ImageRequests(infos));
        var updated := WithImageLists(memories, lists);
        assert BindingsExclusive(updated);
        MarkRebound(device);
        ReplaceMemories(updated);
      }
    }

    /** Installs new memory records whose binding lists are exclusive; nothing else changes. */
    method ReplaceMemories(updated: map<Handle, MemoryRecord>)
      requires Valid() && BindingsExclusive(updated)
      modifies this
      ensures Valid()
      ensures State() == old(State()).(memories := updated)
    {
      memories := updated;
    }

    /** The flag updates every bind variant ends with. */
    method MarkRebound(device: Handle)
      requires Valid() && device in devices
      modifies this
      ensures Valid()
      ensures State() == Rebound(old(State()), device)
    {
      var p := devices[device].physicalDevice;
      devices := devices[device := devices[device].(bindingsUpdated := true)];
      physicalDevices := physicalDevices[p := physicalDevices[p].(budgetUpdated := false)];
    }

    // -------------------------------------------------------------------
    // Queues

    /** vkGetDeviceQueue: the queue is mapped to its device. */
    method GetDeviceQueue(device: Handle, queue: Handle)
      requires Valid() && device in devices
      modifies this
      ensures Valid()
      ensures State() == old(State()).(queueToDevice := old(queueToDevice)[queue := device])
    {
      queueToDevice := queueToDevice[queue := device];
    }

    /**
     * vkQueueSubmit (and vkQueueSubmit2): after a successful submit on a
     * device whose bindings changed, the physical device's memory properties
     * are queried again with a budget structure unless its budget is still
     * fresh, and the device's bindings are marked as reported.
     */
    method QueueSubmit(queue: Handle, nextResult: Result, vulkan: DeviceMemoryProperties, budget: BudgetProperties)
      returns (r: Result)
      requires Valid() && queue in queueToDevice && queueToDevice[queue] in devices
      requires WellFormedProperties(vulkan) && WellFormedBudget(budget)
      modifies this
      ensures Valid()
      ensures r == nextResult
      ensures var d := old(queueToDevice)[queue];
        var p := old(devices)[d].physicalDevice;
        var prec := old(physicalDevices)[p];
        r == Success && old(devices)[d].bindingsUpdated ==>
          State() == old(State()).(
            devices := old(devices)[d := old(devices)[d].(bindingsUpdated := false)],
            physicalDevices := if prec.budgetUpdated then old(physicalDevices)
                               else old(physicalDevices)[p := prec.(memoryProps := CopiedProperties(vulkan, prec.memoryProps, Some(budget)),
                                                                    budgetUpdated := true)])
      ensures !(r == Success && old(devices)[old(queueToDevice)[queue]].bindingsUpdated) ==> State() == old(State())
    {
      r := nextResult;
      var d := queueToDevice[queue];
      if r == Success && devices[d].bindingsUpdated {
        var p := devices[d].physicalDevice;
        if !physicalDevices[p].budgetUpdated {
          var chain := [MemoryBudgetProperties(budget.heapUsage, budget.heapBudget)];
          assert FindBudget(chain) == Some(0);
          assert BudgetIn(chain) == Some(budget);
          GetPhysicalDeviceMemoryProperties2(p, true, vulkan, chain);
        }
        devices := devices[d := devices[d].(bindingsUpdated := false)];
      }
    }

    // -------------------------------------------------------------------
    // Entry-point lookup

    /** vkGetInstanceProcAddr, with the instance's flags when the instance is known. */
    method GetInstanceProcAddr(instance: Handle, name: string, hasNext: bool) returns (r: Dispatch.Resolution)
      ensures instance == NULL_HANDLE || instance !in instances ==>
        r == Dispatch.InstanceProcAddr(MemoryTracker, None, name, hasNext)
      ensures instance != NULL_HANDLE && instance in instances ==>
        r == Dispatch.InstanceProcAddr(MemoryTracker, Some(instances[instance].extensions), name, hasNext)
    {
      var enabled := if instance != NULL_HANDLE && instance in instances then Some(instances[instance].extensions) else None;
      r := Dispatch.InstanceProcAddr(MemoryTracker, enabled, name, hasNext);
    }

    /** vkGetDeviceProcAddr, with the extensions the device's physical device supports. */
    method GetDeviceProcAddr(device: Handle, name: string, hasNext: bool) returns (r: Dispatch.Resolution)
      requires Valid()
      requires Dispatch.Lookup(Dispatch.DeviceCommands(MemoryTracker), name).None? ==> device in devices
      ensures device in devices ==>
        r == Dispatch.DeviceProcAddr(MemoryTracker, physicalDevices[devices[device].physicalDevice].supported, name, hasNext)
      ensures device !in devices ==> r == Dispatch.Intercepted(Dispatch.Lookup(Dispatch.DeviceCommands(MemoryTracker), name).value)
    {
      var supported := if device in devices then physicalDevices[devices[device].physicalDevice].supported else {};
      r := Dispatch.DeviceProcAddr(MemoryTracker, supported, name, hasNext);
    }
  }
}
