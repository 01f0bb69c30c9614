// The slow device simulator layer (VK_LAYER_LUNARG_slow_device_simulator).
// It keeps the same handle-keyed tables as the memory tracker plus one for
// fences, and uses them to hold fences back from the application and to
// shrink the memory the device reports. Most entry points act only when the
// layer_enabled flag is set, which holds when the instance was created with
// a fence delay or a memory percent below 100; vkDestroyDevice,
// vkDestroyBuffer and vkDestroyImage are not gated. What the next layer
// does, and the clock, are parameters.

module SlowDeviceSimulatorLayer {
  import opened Vk
  import opened Chain
  import opened Bindings
  import opened Registry
  import opened MemoryProperties
  import opened Extensions
  import opened Fences
  import opened SimulatorSettings
  import Dispatch
  import opened Teardown

  /** The name this layer answers to in vkEnumerateDeviceExtensionProperties. */
  const LAYER_NAME: string := "VK_LAYER_LUNARG_slow_device_simulator"

  /** InstanceMapStruct without its dispatch table: the extension flags and the normalised settings. */
  datatype InstanceRecord = InstanceRecord(extensions: InstanceExtensions, settings: Settings)

  /** PhysDeviceMapStruct without its mutex. */
  datatype PhysicalDeviceRecord = PhysicalDeviceRecord(
    instance: Handle,
    props: DeviceProperties,
    memoryProps: LocalMemoryProperties,
    supported: DeviceExtensions,
    budgetUpdated: bool,
    layerEnabled: bool,
    memoryPercent: nat)

  /** DeviceMapStruct without its dispatch table and mutexes. */
  datatype DeviceRecord = DeviceRecord(
    physicalDevice: Handle,
    enabled: DeviceExtensions,
    bindingsUpdated: bool,
    layerEnabled: bool,
    delayType: DelayType,
    delayCount: u32)

  /** All the layer's tables at one moment. */
  datatype Tables = Tables(
    instances: map<Handle, InstanceRecord>,
    physicalDevices: map<Handle, PhysicalDeviceRecord>,
    devices: map<Handle, DeviceRecord>,
    buffers: map<Handle, BufferRecord>,
    images: map<Handle, ImageRecord>,
    memories: map<Handle, MemoryRecord>,
    externalMemFds: map<int, ExternalFdRecord>,
    queueToDevice: map<Handle, Handle>,
    fences: map<Handle, FenceRecord>)

  // ---------------------------------------------------------------------
  // Physical-device enumeration

  /**
   * The record a physical device gets the first time it is enumerated:
   * zeroed properties, no flags, and the enumerating instance's enable flag
   * and memory percent.
   */
  function NewPhysicalDevice(instance: Handle, settings: Settings): (r: PhysicalDeviceRecord)
    ensures r.instance == instance && r.supported == {} && !r.budgetUpdated && WellFormedLocal(r.memoryProps)
    ensures r.props.deviceName == [] && r.memoryProps.memoryHeapCount == 0
    ensures r.layerEnabled == settings.layerEnabled && r.memoryPercent == settings.memoryPercent
  {
    PhysicalDeviceRecord(instance, ZEROED_PROPERTIES, NoMemoryProperties(), {}, false, settings.layerEnabled, settings.memoryPercent)
  }

  /** One reported physical device: created if unknown, then assigned to `instance`. */
  function AdoptOne(pds: map<Handle, PhysicalDeviceRecord>, p: Handle, instance: Handle, settings: Settings)
    : map<Handle, PhysicalDeviceRecord>
  {
    pds[p := (if p in pds then pds[p] else NewPhysicalDevice(instance, settings)).(instance := instance)]
  }

  /** The enumeration loop over the reported handles, in order. */
  function Adopt(pds: map<Handle, PhysicalDeviceRecord>, reported: seq<Handle>, instance: Handle, settings: Settings)
    : map<Handle, PhysicalDeviceRecord>
  {
    if |reported| == 0 then pds
    else AdoptOne(Adopt(pds, reported[..|reported| - 1], instance, settings), reported[|reported| - 1], instance, settings)
  }

  /**
   * After an enumeration every reported handle has a record that belongs to
   * `instance`: its old record with only the instance changed (so it keeps
   * the enable flag and percent of the instance that first enumerated it),
   * or a new one with this instance's settings; every other record is
   * untouched.
   */
  lemma {:induction false} AdoptSpec(pds: map<Handle, PhysicalDeviceRecord>, reported: seq<Handle>, instance: Handle, settings: Settings)
    ensures var r := Adopt(pds, reported, instance, settings);
      && (forall p :: p in r <==> p in pds || p in reported)
      && (forall p | p in reported :: r[p] == (if p in pds then pds[p] else NewPhysicalDevice(instance, settings)).(instance := instance))
      && (forall p | p in pds && p !in reported :: r[p] == pds[p])
    decreases |reported|
  {
    if |reported| > 0 {
      var prefix, last := reported[..|reported| - 1], reported[|reported| - 1];
      AdoptSpec(pds, prefix, instance, settings);
      assert reported == prefix + [last];
      assert forall p :: p in reported <==> p in prefix || p == last;
    }
  }

  lemma AdoptAppendOne(pds: map<Handle, PhysicalDeviceRecord>, reported: seq<Handle>, p: Handle, instance: Handle, settings: Settings)
    ensures Adopt(pds, reported + [p], instance, settings) == AdoptOne(Adopt(pds, reported, instance, settings), p, instance, settings)
  {
    assert (reported + [p])[..|reported|] == reported;
  }

  /** The two loops of vkEnumeratePhysicalDeviceGroups: every physical device of every group, group by group. */
  method AdoptGroups(pds: map<Handle, PhysicalDeviceRecord>, groups: seq<seq<Handle>>, instance: Handle, settings: Settings)
    returns (r: map<Handle, PhysicalDeviceRecord>)
    ensures r == Adopt(pds, Flatten(groups), instance, settings)
  {
    r := pds;
    for i := 0 to |groups|
      invariant r == Adopt(pds, Flatten(groups[..i]), instance, settings)
    {
      var group := groups[i];
      assert Flatten(groups[..i]) + group[..0] == Flatten(groups[..i]);
      for j := 0 to |group|
        invariant r == Adopt(pds, Flatten(groups[..i]) + group[..j], instance, settings)
      {
        AdoptAppendOne(pds, Flatten(groups[..i]) + group[..j], group[j], instance, settings);
        assert Flatten(groups[..i]) + group[..j + 1] == Flatten(groups[..i]) + group[..j] + [group[j]];
        var p := group[j];
        var record := if p in r then r[p] else NewPhysicalDevice(instance, settings);
        r := r[p := record.(instance := instance)];
      }
      assert group[..|group|] == group;
      assert groups[..i + 1][..i] == groups[..i] && groups[..i + 1][i] == group;
    }
    assert groups[..|groups|] == groups;
  }

  // ---------------------------------------------------------------------
  // Instance destruction

  /** The physical devices enumerated last by `instance`. */
  function PhysicalDevicesOf(pds: map<Handle, PhysicalDeviceRecord>, instance: Handle): (r: set<Handle>)
    ensures forall p :: p in r <==> p in pds && pds[p].instance == instance
  {
    set p | p in pds && pds[p].instance == instance
  }

  /** The devices created on one of the physical devices `ps`. */
  function DevicesOn(devices: map<Handle, DeviceRecord>, ps: set<Handle>): (r: set<Handle>)
    ensures forall d :: d in r <==> d in devices && devices[d].physicalDevice in ps
  {
    set d | d in devices && devices[d].physicalDevice in ps
  }

  // ---------------------------------------------------------------------
  // Record updates shared by several entry points

  /** The physical device's properties after GetPhysicalDeviceProperties, when its name is still empty. */
  function WithProps(rec: PhysicalDeviceRecord, props: DeviceProperties): (r: PhysicalDeviceRecord)
    ensures r.props == (if rec.props.deviceName == [] then props else rec.props)
    ensures r.(props := rec.props) == rec
  {
    if rec.props.deviceName == [] then rec.(props := props) else rec
  }

  /**
   * What a successful EnumerateDeviceExtensionProperties fill leaves in an
   * enabled physical device's record: the properties refreshed if the name
   * was empty; the core flags the instance and the device's own API version
   * allow; and a flag for every recognised extension name.
   */
  function WithExtensions(rec: PhysicalDeviceRecord, instance: InstanceExtensions, props: DeviceProperties, names: seq<string>)
    : (r: PhysicalDeviceRecord)
    ensures r.props == WithProps(rec, props).props
    ensures r.supported == DeviceCoreFlags(rec.supported, instance, r.props.apiVersion) + DeviceFlagsNamed(SlowDeviceSimulator, names)
    ensures r.(props := rec.props, supported := rec.supported) == rec
  {
    var named := WithProps(rec, props);
    named.(supported := DeviceCoreFlags(rec.supported, instance, named.props.apiVersion) + DeviceFlagsNamed(SlowDeviceSimulator, names))
  }

  /**
   * The record after ManageMemoryProperties at the physical device's own
   * percent (see ManagedProperties): only the copy and the budget flag change.
   */
  function WithManaged(rec: PhysicalDeviceRecord, vulkan: DeviceMemoryProperties, budget: Option<BudgetProperties>,
                       scale: (u64, nat) -> u64): (r: PhysicalDeviceRecord)
    requires WellFormedLocal(rec.memoryProps) && WellFormedProperties(vulkan) && WellFormedOptionalBudget(budget)
    ensures WellFormedLocal(r.memoryProps) && r.memoryProps.memoryHeapCount == vulkan.memoryHeapCount
    ensures r.(memoryProps := rec.memoryProps, budgetUpdated := rec.budgetUpdated) == rec
    ensures r.budgetUpdated <==> rec.budgetUpdated || (budget.Some? && vulkan.memoryHeapCount > 0)
  {
    var m := ManagedProperties(vulkan, rec.memoryProps, budget, rec.memoryPercent, scale, rec.budgetUpdated);
    rec.(memoryProps := m.local, budgetUpdated := m.budgetUpdated)
  }

  /**
   * What a successful CreateDevice leaves in the physical device's record.
   * Both refreshes go through the layer's own entry points, which do nothing
   * for a physical device with the layer disabled; otherwise the properties
   * are refreshed if the name was empty and, if no heap was known yet, the
   * memory properties are queried and managed, with the budget when the new
   * device enabled VK_EXT_memory_budget.
   */
  function PreparedForDevice(rec: PhysicalDeviceRecord, enabled: DeviceExtensions, props: DeviceProperties,
                             vulkan: DeviceMemoryProperties, budget: BudgetProperties, scale: (u64, nat) -> u64)
    : (r: PhysicalDeviceRecord)
    requires WellFormedLocal(rec.memoryProps) && WellFormedProperties(vulkan) && WellFormedBudget(budget)
    ensures WellFormedLocal(r.memoryProps)
    ensures r.instance == rec.instance && r.supported == rec.supported
    ensures r.layerEnabled == rec.layerEnabled && r.memoryPercent == rec.memoryPercent
    ensures !rec.layerEnabled ==> r == rec
    ensures rec.layerEnabled && rec.memoryProps.memoryHeapCount != 0 ==> r == WithProps(rec, props)
    ensures rec.layerEnabled && rec.memoryProps.memoryHeapCount == 0 ==> r.memoryProps.memoryHeapCount == vulkan.memoryHeapCount
    ensures r.budgetUpdated <==> (|| rec.budgetUpdated
                                  || (rec.layerEnabled && rec.memoryProps.memoryHeapCount == 0 &&
                                      MemoryBudget in enabled && vulkan.memoryHeapCount > 0))
  {
    if !rec.layerEnabled then rec
    else
      var named := WithProps(rec, props);
      if named.memoryProps.memoryHeapCount != 0 then named
      else if MemoryBudget in enabled then WithManaged(named, vulkan, Some(budget), scale)
      else WithManaged(named, vulkan, None, scale)
  }

  /** A bind marks the device's bindings as changed and the physical device's budget as stale. */
  function Rebound(s: Tables, device: Handle): (r: Tables)
    requires device in s.devices && s.devices[device].physicalDevice in s.physicalDevices
    ensures r.devices.Keys == s.devices.Keys && r.physicalDevices.Keys == s.physicalDevices.Keys
    ensures r.devices[device].bindingsUpdated && !r.physicalDevices[s.devices[device].physicalDevice].budgetUpdated
  {
    var p := s.devices[device].physicalDevice;
    s.(devices := s.devices[device := s.devices[device].(bindingsUpdated := true)],
       physicalDevices := s.physicalDevices[p := s.physicalDevices[p].(budgetUpdated := false)])
  }

  // ---------------------------------------------------------------------
  // The memory budget of a device

  /** The device's allocations are checked and counted: the layer is on for it and its physical device is below 100 percent. */
  predicate Limited(s: Tables, device: Handle)
    requires device in s.devices && s.devices[device].physicalDevice in s.physicalDevices
  {
    s.devices[device].layerEnabled && s.physicalDevices[s.devices[device].physicalDevice].memoryPercent < 100
  }

  /** The heap an allocation of memory type `typeIndex` on `device` is charged to, in the layer's copy. */
  function ChargedHeap(s: Tables, device: Handle, typeIndex: nat): (heap: HeapWithBudget)
    requires device in s.devices && s.devices[device].physicalDevice in s.physicalDevices
    requires HeapKnown(s.physicalDevices[s.devices[device].physicalDevice].memoryProps, typeIndex)
    ensures var props := s.physicalDevices[s.devices[device].physicalDevice].memoryProps;
      heap in props.memoryHeaps && heap.size == props.memoryHeaps[HeapOf(props, typeIndex)].size
  {
    var props := s.physicalDevices[s.devices[device].physicalDevice].memoryProps;
    props.memoryHeaps[HeapOf(props, typeIndex)]
  }

  // ---------------------------------------------------------------------
  // Fences

  /** A fence is tracked and delayed: the only kind the layer ever holds back or signals. */
  predicate Delayed(fences: map<Handle, FenceRecord>, fence: Handle)
  {
    fence in fences && fences[fence].delayType != DelayNone
  }

  /** The fence table after a signal of `fence` (see Signal); an untracked fence stays untracked. */
  function Signalled(fences: map<Handle, FenceRecord>, fence: Handle, now: int): (r: map<Handle, FenceRecord>)
    ensures r.Keys == fences.Keys
    ensures fence in fences ==> r[fence] == Signal(fences[fence], now)
    ensures forall g | g in fences && g != fence :: r[g] == fences[g]
  {
    if fence in fences then fences[fence := Signal(fences[fence], now)] else fences
  }

  /** The present loop: every non-null fence of `list` is signalled, in order. */
  function SignalAll(fences: map<Handle, FenceRecord>, list: seq<Handle>, now: int): map<Handle, FenceRecord>
  {
    if |list| == 0 then fences
    else
      var prior := SignalAll(fences, list[..|list| - 1], now);
      var f := list[|list| - 1];
      if f != NULL_HANDLE then Signalled(prior, f, now) else prior
  }

  /**
   * Signalling a list signals each tracked non-null fence of it once, however
   * often it is named (a second signal at the same moment changes nothing),
   * and leaves every other fence alone.
   */
  lemma {:induction false} SignalAllSpec(fences: map<Handle, FenceRecord>, list: seq<Handle>, now: int)
    ensures var r := SignalAll(fences, list, now);
      && r.Keys == fences.Keys
      && forall f | f in fences :: r[f] == if f in list && f != NULL_HANDLE then Signal(fences[f], now) else fences[f]
    decreases |list|
  {
    if |list| > 0 {
      var prefix, last := list[..|list| - 1], list[|list| - 1];
      SignalAllSpec(fences, prefix, now);
      assert list == prefix + [last];
      assert forall f :: f in list <==> f in prefix || f == last;
    }
  }

  /** The reset loop: every tracked fence of `list` is reset, in order. */
  function ResetAll(fences: map<Handle, FenceRecord>, list: seq<Handle>): map<Handle, FenceRecord>
  {
    if |list| == 0 then fences
    else
      var prior := ResetAll(fences, list[..|list| - 1]);
      var f := list[|list| - 1];
      if f in prior then prior[f := Reset(prior[f])] else prior
  }

  /** Resetting a list resets each tracked fence of it once and leaves every other fence alone. */
  lemma {:induction false} ResetAllSpec(fences: map<Handle, FenceRecord>, list: seq<Handle>)
    ensures var r := ResetAll(fences, list);
      && r.Keys == fences.Keys
      && forall f | f in fences :: r[f] == if f in list then Reset(fences[f]) else fences[f]
    decreases |list|
  {
    if |list| > 0 {
      var prefix, last := list[..|list| - 1], list[|list| - 1];
      ResetAllSpec(fences, prefix);
      assert list == prefix + [last];
      assert forall f :: f in list <==> f in prefix || f == last;
    }
  }

  /** After vkResetFences, a reset delayed fence is not ready at its next status query, however long ago it was signalled. */
  lemma ResetFencesHoldBack(fences: map<Handle, FenceRecord>, list: seq<Handle>, fence: Handle, now: int)
    requires Delayed(fences, fence) && fence in list
    ensures Delayed(ResetAll(fences, list), fence)
    ensures QueryStatus(ResetAll(fences, list)[fence], now).notReady
  {
    ResetAllSpec(fences, list);
    ResetFenceNotReady(fences[fence], now);
  }

  // ---------------------------------------------------------------------
  // Consistency

  /**
   * Every physical device belongs to a live instance and holds full-size
   * memory arrays, every device sits on a live physical device, and no
   * buffer or image is in two binding lists or twice in one.
   */
  ghost predicate Consistent(s: Tables)
  {
    && (forall p | p in s.physicalDevices ::
          s.physicalDevices[p].instance in s.instances && WellFormedLocal(s.physicalDevices[p].memoryProps))
    && (forall d | d in s.devices :: s.devices[d].physicalDevice in s.physicalDevices)
    && BindingsExclusive(s.memories)
  }

  /** Erasing an instance with its physical devices and their devices keeps the tables consistent. */
  lemma DestroyInstanceKeepsConsistent(s: Tables, instance: Handle, fds: map<int, ExternalFdRecord>)
    requires Consistent(s)
    ensures var ps := PhysicalDevicesOf(s.physicalDevices, instance);
      Consistent(s.(instances := s.instances - {instance},
                    physicalDevices := s.physicalDevices - ps,
                    devices := s.devices - DevicesOn(s.devices, ps),
                    externalMemFds := fds))
  {
  }

  /** Erasing devices, and any descriptors, keeps the tables consistent. */
  lemma DestroyDevicesKeepsConsistent(s: Tables, ds: set<Handle>, fds: map<int, ExternalFdRecord>)
    requires Consistent(s)
    ensures Consistent(s.(devices := s.devices - ds, externalMemFds := fds))
  {
  }

  class Layer {
    var instances: map<Handle, InstanceRecord>
    var physicalDevices: map<Handle, PhysicalDeviceRecord>
    var devices: map<Handle, DeviceRecord>
    var buffers: map<Handle, BufferRecord>
    var images: map<Handle, ImageRecord>
    var memories: map<Handle, MemoryRecord>
    var externalMemFds: map<int, ExternalFdRecord>
    var queueToDevice: map<Handle, Handle>
    var fences: map<Handle, FenceRecord>

    ghost function State(): Tables
      reads this
    {
      Tables(instances, physicalDevices, devices, buffers, images, memories, externalMemFds, queueToDevice, fences)
    }

    /** The tables are consistent (see Consistent). */
    ghost predicate Valid()
      reads this
    {
      Consistent(State())
    }

    /** The tables when the layer is loaded: all empty. */
    constructor()
      ensures Valid()
      ensures State() == Tables(map[], map[], map[], map[], map[], map[], map[], map[], map[])
    {
      instances, physicalDevices, devices := map[], map[], map[];
      buffers, images, memories := map[], map[], map[];
      externalMemFds, queueToDevice, fences := map[], map[], map[];
    }

    // -------------------------------------------------------------------
    // Instances and physical devices

    /**
     * vkCreateInstance. `hasCreate` says whether the next layer has a
     * vkCreateInstance; `created` is the handle it returns. The three
     * settings are given as the layer-settings lookup finds them (None when
     * absent). On success the instance is recorded with the core flags of its
     * API version, a flag per recognised extension name, and the normalised
     * settings (see Normalise).
     */
    method CreateInstance(hasCreate: bool, nextResult: Result, created: Handle, apiVersion: Option<u32>, names: seq<string>,
                          delayType: Option<string>, delayCount: Option<i32>, memoryPercent: Option<i32>)
      returns (r: Result)
      requires Valid()
      modifies this
      ensures Valid()
      ensures !hasCreate ==> r == ErrorInitializationFailed && State() == old(State())
      ensures hasCreate ==> r == nextResult
      ensures hasCreate && r == Success ==>
        State() == old(State()).(instances := old(instances)[created :=
          InstanceRecord(InstanceCoreFlags(apiVersion) + InstanceFlagsNamed(names), Normalise(delayType, delayCount, memoryPercent))])
      ensures hasCreate && r != Success ==> State() == old(State())
    {
      if !hasCreate {
        return ErrorInitializationFailed;
      }
      r := nextResult;
      if r == Success {
        var flags := InstanceCoreFlags(apiVersion);
        flags := ScanInstanceExtensionNames(flags, names);
        var settings := Normalise(delayType, delayCount, memoryPercent);
        instances := instances[created := InstanceRecord(flags, settings)];
      }
    }

    /**
     * vkDestroyInstance: every device on a physical device of the instance is
     * destroyed as DestroyDevice destroys it, then those physical devices
     * and the instance are erased. Below the layer the code destroys only
     * those devices, in the order `order` the device map is walked, and never
     * forwards vkDestroyInstance itself (see Teardown); the model hands it on
     * after the devices, in `downstream`.
     */
    method DestroyInstance(instance: Handle, order: seq<Handle>) returns (downstream: seq<DownstreamCall>)
      requires Valid()
      requires (set d | d in order) == DevicesOn(devices, PhysicalDevicesOf(physicalDevices, instance))
      modifies this
      ensures Valid()
      ensures downstream == DestroyInstanceCalls(order, instance)
      ensures var ps := PhysicalDevicesOf(old(physicalDevices), instance);
        var ds := DevicesOn(old(devices), ps);
        State() == old(State()).(instances := old(instances) - {instance},
                                 physicalDevices := old(physicalDevices) - ps,
                                 devices := old(devices) - ds,
                                 externalMemFds := FdsNotOfAny(old(externalMemFds), ds))
    {
      var ps := PhysicalDevicesOf(physicalDevices, instance);
      DestroyInstanceKeepsConsistent(State(), instance, FdsNotOfAny(externalMemFds, DevicesOn(devices, ps)));
      DestroyDevices(DevicesOn(devices, ps));
      physicalDevices := physicalDevices - ps;
      instances := instances - {instance};
      downstream := DestroyInstanceCalls(order, instance);
    }

    /** The device loop of DestroyInstance: DestroyDevice on each of `ds`, in any order. */
    method DestroyDevices(ds: set<Handle>)
      requires Valid() && ds <= devices.Keys
      modifies this
      ensures Valid()
      ensures State() == old(State()).(devices := old(devices) - ds, externalMemFds := FdsNotOfAny(old(externalMemFds), ds))
    {
      var remaining, kept := EraseDevices(devices, externalMemFds, ds);
      DestroyDevicesKeepsConsistent(State(), ds, kept);
      devices, externalMemFds := remaining, kept;
    }

    /**
     * vkEnumeratePhysicalDevices. After a successful fill every handle written
     * has a record that belongs to `instance` (see AdoptSpec), a new one
     * taking the instance's enable flag and percent; a count query or a
     * failure changes nothing.
     */
    method EnumeratePhysicalDevices(instance: Handle, nextResult: Result, hasArray: bool, reported: seq<Handle>) returns (r: Result)
      requires Valid() && instance in instances
      modifies this
      ensures Valid()
      ensures r == nextResult
      ensures r == Success && hasArray ==>
        State() == old(State()).(physicalDevices := Adopt(old(physicalDevices), reported, instance, old(instances)[instance].settings))
      ensures !(r == Success && hasArray) ==> State() == old(State())
    {
      r := nextResult;
      if r == Success && hasArray {
        var settings := instances[instance].settings;
        for i := 0 to |reported|
          invariant physicalDevices == Adopt(old(physicalDevices), reported[..i], instance, settings)
          invariant State() == old(State()).(physicalDevices := physicalDevices)
        {
          AdoptAppendOne(old(physicalDevices), reported[..i], reported[i], instance, settings);
          assert reported[..i + 1] == reported[..i] + [reported[i]];
          var p := reported[i];
          var record := if p in physicalDevices then physicalDevices[p] else NewPhysicalDevice(instance, settings);
          physicalDevices := physicalDevices[p := record.(instance := instance)];
        }
        assert reported[..|reported|] == reported;
        AdoptSpec(old(physicalDevices), reported, instance, settings);
      }
    }

    /** vkEnumeratePhysicalDeviceGroups: the same for every physical device of every group written. */
    method EnumeratePhysicalDeviceGroups(instance: Handle, nextResult: Result, hasArray: bool, groups: seq<seq<Handle>>)
      returns (r: Result)
      requires Valid() && instance in instances
      modifies this
      ensures Valid()
      ensures r == nextResult
      ensures r == Success && hasArray ==>
        State() == old(State()).(physicalDevices := Adopt(old(physicalDevices), Flatten(groups), instance, old(instances)[instance].settings))
      ensures !(r == Success && hasArray) ==> State() == old(State())
    {
      r := nextResult;
      if r == Success && hasArray {
        var settings := instances[instance].settings;
        var adopted := AdoptGroups(physicalDevices, groups, instance, settings);
        AdoptSpec(physicalDevices, Flatten(groups), instance, settings);
        physicalDevices := adopted;
      }
    }

    /**
     * vkGetPhysicalDeviceProperties (and ...Properties2): with the layer
     * enabled for the physical device, it keeps a copy of what the driver wrote.
     */
    method GetPhysicalDeviceProperties(p: Handle, hasOut: bool, props: DeviceProperties)
      requires Valid() && p in physicalDevices
      modifies this
      ensures Valid()
      ensures old(physicalDevices)[p].layerEnabled && hasOut ==>
        State() == old(State()).(physicalDevices := old(physicalDevices)[p := old(physicalDevices)[p].(props := props)])
      ensures !(old(physicalDevices)[p].layerEnabled && hasOut) ==> State() == old(State())
    {
      if physicalDevices[p].layerEnabled && hasOut {
        physicalDevices := physicalDevices[p := physicalDevices[p].(props := props)];
      }
    }

    /**
     * vkGetPhysicalDeviceMemoryProperties. With the layer enabled for the
     * physical device, the application sees the heaps scaled to the device's
     * percent and the copy is refreshed from them with no budget (see
     * ManagedProperties); `scale` stands for AdjustMemoryByPercent.
     */
    method GetPhysicalDeviceMemoryProperties(p: Handle, hasOut: bool, vulkan: DeviceMemoryProperties, scale: (u64, nat) -> u64)
      returns (visible: DeviceMemoryProperties)
      requires Valid() && p in physicalDevices && WellFormedProperties(vulkan)
      modifies this
      ensures Valid()
      ensures var rec := old(physicalDevices)[p];
        rec.layerEnabled && hasOut ==>
          && visible == ManagedProperties(vulkan, rec.memoryProps, None, rec.memoryPercent, scale, rec.budgetUpdated).visible
          && State() == old(State()).(physicalDevices := old(physicalDevices)[p := WithManaged(rec, vulkan, None, scale)])
      ensures !(old(physicalDevices)[p].layerEnabled && hasOut) ==> visible == vulkan && State() == old(State())
    {
      visible := vulkan;
      var rec := physicalDevices[p];
      if rec.layerEnabled && hasOut {
        var m := ManageMemoryProperties(vulkan, rec.memoryProps, None, rec.memoryPercent, scale, rec.budgetUpdated);
        physicalDevices := physicalDevices[p := rec.(memoryProps := m.local, budgetUpdated := m.budgetUpdated)];
        visible := m.visible;
      }
    }

    /**
     * vkGetPhysicalDeviceMemoryProperties2: the same, with the first budget
     * structure of the output chain, if there is one, scaled and copied too;
     * the budget is then marked as refreshed.
     */
    method GetPhysicalDeviceMemoryProperties2(p: Handle, hasOut: bool, vulkan: DeviceMemoryProperties, chain: seq<ChainStruct>,
                                              scale: (u64, nat) -> u64)
      returns (visible: DeviceMemoryProperties, visibleBudget: Option<BudgetProperties>)
      requires Valid() && p in physicalDevices && WellFormedProperties(vulkan) && BudgetChainWellFormed(chain)
      modifies this
      ensures Valid()
      ensures var rec := old(physicalDevices)[p];
        var m := ManagedProperties(vulkan, rec.memoryProps, BudgetIn(chain), rec.memoryPercent, scale, rec.budgetUpdated);
        rec.layerEnabled && hasOut ==>
          && visible == m.visible && visibleBudget == m.visibleBudget
          && State() == old(State()).(physicalDevices := old(physicalDevices)[p := WithManaged(rec, vulkan, BudgetIn(chain), scale)])
      ensures !(old(physicalDevices)[p].layerEnabled && hasOut) ==>
        visible == vulkan && visibleBudget == BudgetIn(chain) && State() == old(State())
    {
      visible, visibleBudget := vulkan, BudgetIn(chain);
      var rec := physicalDevices[p];
      if rec.layerEnabled && hasOut {
        var found := SearchBudget(chain);
        var budget := if found.Some? then Some(BudgetProperties(chain[found.value].heapUsage, chain[found.value].heapBudget)) else None;
        assert budget == BudgetIn(chain);
        var m := ManageMemoryProperties(vulkan, rec.memoryProps, budget, rec.memoryPercent, scale, rec.budgetUpdated);
        physicalDevices := physicalDevices[p := rec.(memoryProps := m.local, budgetUpdated := m.budgetUpdated)];
        visible, visibleBudget := m.visible, m.visibleBudget;
      }
    }

    /**
     * vkEnumerateDeviceExtensionProperties. A query naming this layer is
     * answered by the layer itself (`ownResult`); an unknown physical device
     * gets VK_ERROR_INITIALIZATION_FAILED; otherwise the call is forwarded and,
     * with the layer enabled for the physical device, a successful fill
     * records its core versions and recognised extensions (see WithExtensions).
     */
    method EnumerateDeviceExtensionProperties(p: Handle, layerName: Option<string>, ownResult: Result, nextResult: Result,
                                              hasArray: bool, names: seq<string>, props: DeviceProperties)
      returns (r: Result)
      requires Valid()
      modifies this
      ensures Valid()
      ensures layerName == Some(LAYER_NAME) ==> r == ownResult && State() == old(State())
      ensures layerName != Some(LAYER_NAME) && p !in old(physicalDevices) ==> r == ErrorInitializationFailed && State() == old(State())
      ensures layerName != Some(LAYER_NAME) && p in old(physicalDevices) ==> r == nextResult
      ensures layerName != Some(LAYER_NAME) && p in old(physicalDevices) && old(physicalDevices)[p].layerEnabled && r == Success && hasArray ==>
        var rec := old(physicalDevices)[p];
        State() == old(State()).(physicalDevices := old(physicalDevices)[p :=
          WithExtensions(rec, old(instances)[rec.instance].extensions, props, names)])
      ensures layerName != Some(LAYER_NAME) && p in old(physicalDevices) && !(old(physicalDevices)[p].layerEnabled && r == Success && hasArray) ==>
        State() == old(State())
    {
      if layerName == Some(LAYER_NAME) {
        return ownResult;
      }
      if p !in physicalDevices {
        return ErrorInitializationFailed;
      }
      r := nextResult;
      if physicalDevices[p].layerEnabled && r == Success && hasArray {
        RecordExtensions(p, names, props);
      }
    }

    /** The successful fill of EnumerateDeviceExtensionProperties: the record becomes WithExtensions of it. */
    method RecordExtensions(p: Handle, names: seq<string>, props: DeviceProperties)
      requires Valid() && p in physicalDevices && physicalDevices[p].layerEnabled
      modifies this
      ensures Valid()
      ensures var rec := old(physicalDevices)[p];
        State() == old(State()).(physicalDevices := old(physicalDevices)[p :=
          WithExtensions(rec, old(instances)[rec.instance].extensions, props, names)])
    {
      var rec := physicalDevices[p];
      // GetPhysicalDeviceProperties refreshes the record when its name is empty
      var named := WithProps(rec, props);
      var flags := DeviceCoreFlags(rec.supported, instances[rec.instance].extensions, named.props.apiVersion);
      flags := ScanDeviceExtensionNames(SlowDeviceSimulator, flags, names);
      physicalDevices := physicalDevices[p := named.(supported := flags)];
    }

    // -------------------------------------------------------------------
    // Devices

    /**
     * vkCreateDevice. `hasCreate` says whether the next layer has a
     * vkCreateDevice. The extension list forwarded is the application's,
     * with VK_EXT_memory_budget appended when the physical device supports
     * it and Vulkan 1.1 and the list lacks it. On success the device is
     * recorded with the extensions of the forwarded list and its instance's
     * enable flag and fence delay, and the physical device's record is
     * prepared (see PreparedForDevice) from the driver's answers.
     */
    method CreateDevice(p: Handle, names: seq<string>, hasCreate: bool, nextResult: Result, created: Handle,
                        props: DeviceProperties, vulkan: DeviceMemoryProperties, budget: BudgetProperties,
                        scale: (u64, nat) -> u64)
      returns (r: Result, forwarded: Option<seq<string>>)
      requires Valid() && p in physicalDevices && WellFormedProperties(vulkan) && WellFormedBudget(budget)
      modifies this
      ensures Valid()
      ensures !hasCreate ==> r == ErrorInitializationFailed && forwarded.None? && State() == old(State())
      ensures hasCreate ==> r == nextResult && forwarded.Some?
      ensures forwarded.Some? ==> var supported := old(physicalDevices)[p].supported;
        && (forwarded.value == names || forwarded.value == names + [EXT_MEMORY_BUDGET])
        && (forwarded.value != names <==> Core11 in supported && MemoryBudget in supported && EXT_MEMORY_BUDGET !in names)
      ensures hasCreate && r == Success ==>
        var enabled := DeviceFlagsNamed(SlowDeviceSimulator, forwarded.value);
        var settings := old(instances)[old(physicalDevices)[p].instance].settings;
        State() == old(State()).(
          devices := old(devices)[created := DeviceRecord(p, enabled, false, settings.layerEnabled, settings.delayType, settings.delayCount)],
          physicalDevices := old(physicalDevices)[p := PreparedForDevice(old(physicalDevices)[p], enabled, props, vulkan, budget, scale)])
      ensures hasCreate && r != Success ==> State() == old(State())
    {
      if !hasCreate {
        return ErrorInitializationFailed, None;
      }
      var names' := ForceMemoryBudget(physicalDevices[p].supported, names);
      forwarded := Some(names');
      r := nextResult;
      if r == Success {
        var settings := instances[physicalDevices[p].instance].settings;
        var enabled := ScanDeviceExtensionNames(SlowDeviceSimulator, {}, names');
        DeviceFlagsNamedSpec(SlowDeviceSimulator, names');
        assert enabled == DeviceFlagsNamed(SlowDeviceSimulator, names');
        PrepareForDevice(p, enabled, props, vulkan, budget, scale);
        devices := devices[created := DeviceRecord(p, enabled, false, settings.layerEnabled, settings.delayType, settings.delayCount)];
      }
    }

    /** The part of CreateDevice that refreshes the physical device's record (see PreparedForDevice). */
    method PrepareForDevice(p: Handle, enabled: DeviceExtensions, props: DeviceProperties,
                            vulkan: DeviceMemoryProperties, budget: BudgetProperties, scale: (u64, nat) -> u64)
      requires Valid() && p in physicalDevices && WellFormedProperties(vulkan) && WellFormedBudget(budget)
      modifies this
      ensures Valid()
      ensures State() == old(State()).(physicalDevices :=
        old(physicalDevices)[p := PreparedForDevice(old(physicalDevices)[p], enabled, props, vulkan, budget, scale)])
    {
      // what the layer's own GetPhysicalDeviceProperties and
      // GetPhysicalDeviceMemoryProperties(2) store, called with a fresh
      // output structure (a chain holding one budget structure when the
      // device enabled VK_EXT_memory_budget)
      var record := physicalDevices[p];
      if !record.layerEnabled {
        return;
      }
      if record.props.deviceName == [] {
        record := record.(props := props);
      }
      if record.memoryProps.memoryHeapCount == 0 {
        var chosen := if MemoryBudget in enabled then Some(budget) else None;
        var m := ManageMemoryProperties(vulkan, record.memoryProps, chosen, record.memoryPercent, scale, record.budgetUpdated);
        record := record.(memoryProps := m.local, budgetUpdated := m.budgetUpdated);
      }
      physicalDevices := physicalDevices[p := record];
    }

    /** vkDestroyDevice, whether or not the layer is enabled: the device's record and its file descriptors are erased. */
    method DestroyDevice(device: Handle)
      requires Valid() && device in devices
      modifies this
      ensures Valid()
      ensures State() == old(State()).(devices := old(devices) - {device},
                                       externalMemFds := FdsNotOf(old(externalMemFds), device))
    {
      externalMemFds := EraseExternalMemFds(externalMemFds, device);
      devices := devices - {device};
    }

    // -------------------------------------------------------------------
    // Buffers and images

    /** vkCreateBuffer: with the layer enabled, a created buffer is recorded with its create info and what its pNext chain says. */
    method CreateBuffer(device: Handle, info: BufferCreateInfo, chain: seq<ChainStruct>, nextResult: Result, created: Handle)
      returns (r: Result)
      requires Valid() && device in devices
      modifies this
      ensures Valid()
      ensures r == nextResult
      ensures old(devices)[device].layerEnabled && r == Success ==> State() == old(State()).(buffers := old(buffers)[created :=
        BufferRecord(device, info, BufferReference(chain), NO_REQUIREMENTS)])
      ensures !(old(devices)[device].layerEnabled && r == Success) ==> State() == old(State())
    {
      r := nextResult;
      if devices[device].layerEnabled && r == Success {
        var additional := Walk(NO_ADDITIONAL_BUFFER, BufferStep, chain);
        BufferWalkMatchesReference(chain);
        buffers := buffers[created := BufferRecord(device, info, additional, NO_REQUIREMENTS)];
      }
    }

    /** vkDestroyBuffer: EraseBufferMapEntry after the call is forwarded, whether or not the layer is enabled. */
    method DestroyBuffer(device: Handle, buffer: Handle)
      requires Valid() && device in devices
      modifies this
      ensures Valid()
      ensures buffer in old(buffers) ==> State() == old(State()).(buffers := old(buffers) - {buffer},
        memories := WithBufferLists(old(memories), Strip(BufferLists(old(memories)), buffer)))
      ensures buffer !in old(buffers) ==> State() == old(State())
    {
      StripPreservesExclusive(BufferLists(memories), buffer);
      buffers, memories := EraseBufferEntry(buffers, memories, buffer);
    }

    /** vkCreateImage: with the layer enabled, a created image is recorded with its create info and what its pNext chain says. */
    method CreateImage(device: Handle, info: ImageCreateInfo, chain: seq<ChainStruct>, nextResult: Result, created: Handle)
      returns (r: Result)
      requires Valid() && device in devices
      modifies this
      ensures Valid()
      ensures r == nextResult
      ensures old(devices)[device].layerEnabled && r == Success ==> State() == old(State()).(images := old(images)[created :=
        ImageRecord(device, info, ImageReference(chain), NO_REQUIREMENTS)])
      ensures !(old(devices)[device].layerEnabled && r == Success) ==> State() == old(State())
    {
      r := nextResult;
      if devices[device].layerEnabled && r == Success {
        var additional := Walk(NO_ADDITIONAL_IMAGE, ImageStep, chain);
        ImageWalkMatchesReference(chain);
        images := images[created := ImageRecord(device, info, additional, NO_REQUIREMENTS)];
      }
    }

    /** vkDestroyImage: EraseImageMapEntry after the call is forwarded, whether or not the layer is enabled. */
    method DestroyImage(device: Handle, image: Handle)
      requires Valid() && device in devices
      modifies this
      ensures Valid()
      ensures image in old(images) ==> State() == old(State()).(images := old(images) - {image},
        memories := WithImageLists(old(memories), Strip(ImageLists(old(memories)), image)))
      ensures image !in old(images) ==> State() == old(State())
    {
      StripPreservesExclusive(ImageLists(memories), image);
      images, memories := EraseImageEntry(images, memories, image);
    }

    /**
     * vkGetBufferMemoryRequirements (and ...2): with the layer enabled, the
     * buffer's record, which must exist, keeps what the driver reported.
     */
    method GetBufferMemoryRequirements(device: Handle, buffer: Handle, reqs: MemoryRequirements)
      requires Valid() && device in devices
      requires devices[device].layerEnabled ==> buffer in buffers
      modifies this
      ensures Valid()
      ensures old(devices)[device].layerEnabled ==>
        State() == old(State()).(buffers := old(buffers)[buffer := old(buffers)[buffer].(memoryReqs := reqs)])
      ensures !old(devices)[device].layerEnabled ==> State() == old(State())
    {
      if devices[device].layerEnabled {
        buffers := buffers[buffer := buffers[buffer].(memoryReqs := reqs)];
      }
    }

    /** vkGetImageMemoryRequirements (and ...2): the same for an image. */
    method GetImageMemoryRequirements(device: Handle, image: Handle, reqs: MemoryRequirements)
      requires Valid() && device in devices
      requires devices[device].layerEnabled ==> image in images
      modifies this
      ensures Valid()
      ensures old(devices)[device].layerEnabled ==>
        State() == old(State()).(images := old(images)[image := old(images)[image].(memoryReqs := reqs)])
      ensures !old(devices)[device].layerEnabled ==> State() == old(State())
    {
      if devices[device].layerEnabled {
        images := images[image := images[image].(memoryReqs := reqs)];
      }
    }

    /** vkGetMemoryFdPropertiesKHR: with the layer enabled, a successful query with an output records the descriptor. */
    method GetMemoryFdProperties(device: Handle, fd: int, nextResult: Result, hasOut: bool, memoryTypeBits: u32)
      returns (r: Result)
      requires Valid() && device in devices
      modifies this
      ensures Valid()
      ensures r == nextResult
      ensures old(devices)[device].layerEnabled && r == Success && hasOut ==>
        State() == old(State()).(externalMemFds := old(externalMemFds)[fd := ExternalFdRecord(device, memoryTypeBits)])
      ensures !(old(devices)[device].layerEnabled && r == Success && hasOut) ==> State() == old(State())
    {
      r := nextResult;
      if devices[device].layerEnabled && r == Success && hasOut {
        externalMemFds := externalMemFds[fd := ExternalFdRecord(device, memoryTypeBits)];
      }
    }

    // -------------------------------------------------------------------
    // Memory

    /**
     * vkAllocateMemory. When the device's allocations are limited (see
     * Limited), an allocation its heap does not admit (see Admits) fails with
     * VK_ERROR_OUT_OF_DEVICE_MEMORY before reaching the driver. Otherwise the
     * call is forwarded; with the layer enabled a successful allocation is
     * recorded and, when limited, charged to its heap (see Charged).
     */
    method AllocateMemory(device: Handle, allocationSize: u64, memoryTypeIndex: u32, chain: seq<ChainStruct>,
                          nextResult: Result, created: Handle)
      returns (r: Result)
      requires Valid() && device in devices
      requires Limited(State(), device) ==> HeapKnown(physicalDevices[devices[device].physicalDevice].memoryProps, memoryTypeIndex as nat)
      modifies this
      ensures Valid()
      ensures Limited(old(State()), device) && !Admits(ChargedHeap(old(State()), device, memoryTypeIndex as nat), allocationSize) ==>
        r == ErrorOutOfDeviceMemory && State() == old(State())
      ensures !Limited(old(State()), device) || Admits(ChargedHeap(old(State()), device, memoryTypeIndex as nat), allocationSize) ==>
        r == nextResult
      ensures
        var p := old(devices)[device].physicalDevice;
        (!Limited(old(State()), device) || Admits(ChargedHeap(old(State()), device, memoryTypeIndex as nat), allocationSize)) &&
        old(devices)[device].layerEnabled && r == Success ==>
          State() == old(State()).(
            memories := old(memories)[created := NewMemory(device, allocationSize, memoryTypeIndex, chain)],
            physicalDevices := if Limited(old(State()), device)
              then old(physicalDevices)[p := old(physicalDevices)[p].(memoryProps :=
                Charged(old(physicalDevices)[p].memoryProps, memoryTypeIndex as nat, allocationSize))]
              else old(physicalDevices))
      ensures !(old(devices)[device].layerEnabled && r == Success) ==> State() == old(State())
    {
      var p := devices[device].physicalDevice;
      var limited := devices[device].layerEnabled && physicalDevices[p].memoryPercent < 100;
      if limited {
        var props := physicalDevices[p].memoryProps;
        if !Admits(props.memoryHeaps[HeapOf(props, memoryTypeIndex as nat)], allocationSize) {
          return ErrorOutOfDeviceMemory;
        }
      }
      r := nextResult;
      if devices[device].layerEnabled && r == Success {
        RecordMemory(device, created, allocationSize, memoryTypeIndex, chain);
        if limited {
          SetMemoryProps(p, Charged(physicalDevices[p].memoryProps, memoryTypeIndex as nat, allocationSize));
        }
      }
    }

    /** The record vkAllocateMemory keeps for a successful allocation, with what its pNext chain says. */
    method RecordMemory(device: Handle, created: Handle, allocationSize: u64, memoryTypeIndex: u32, chain: seq<ChainStruct>)
      requires Valid()
      modifies this
      ensures Valid()
      ensures State() == old(State()).(memories := old(memories)[created := NewMemory(device, allocationSize, memoryTypeIndex, chain)])
    {
      var additional := Walk(NO_ADDITIONAL_MEMORY, MemoryStep, chain);
      MemoryWalkMatchesReference(chain);
      var record := MemoryRecord(device, allocationSize, memoryTypeIndex, additional, [], []);
      NewMemoryKeepsExclusive(memories, created, record);
      memories := memories[created := record];
    }

    /** A new copy of a physical device's memory properties, as the allocation counts change it. */
    method SetMemoryProps(p: Handle, props: LocalMemoryProperties)
      requires Valid() && p in physicalDevices && WellFormedLocal(props)
      modifies this
      ensures Valid()
      ensures State() == old(State()).(physicalDevices := old(physicalDevices)[p := old(physicalDevices)[p].(memoryProps := props)])
    {
      physicalDevices := physicalDevices[p := physicalDevices[p].(memoryProps := props)];
    }

    /**
     * vkFreeMemory. With the layer enabled the allocation's record is erased
     * and, when the device's allocations are limited, its size is taken off
     * its heap's count; a handle the layer does not track (VK_NULL_HANDLE
     * among them) leaves the counts alone (see Released).
     */
    method FreeMemory(device: Handle, memory: Handle)
      requires Valid() && device in devices
      requires Limited(State(), device) && memory in memories ==>
        HeapKnown(physicalDevices[devices[device].physicalDevice].memoryProps, memories[memory].memoryTypeIndex as nat)
      modifies this
      ensures Valid()
      ensures var p := old(devices)[device].physicalDevice;
        old(devices)[device].layerEnabled ==>
          State() == old(State()).(
            memories := old(memories) - {memory},
            physicalDevices := if Limited(old(State()), device)
              then old(physicalDevices)[p := old(physicalDevices)[p].(memoryProps :=
                Released(old(memories), old(physicalDevices)[p].memoryProps, memory))]
              else old(physicalDevices))
      ensures !old(devices)[device].layerEnabled ==> State() == old(State())
    {
      if devices[device].layerEnabled {
        var p := devices[device].physicalDevice;
        if physicalDevices[p].memoryPercent < 100 {
          SetMemoryProps(p, Released(memories, physicalDevices[p].memoryProps, memory));
        }
        FreeMemoryKeepsExclusive(memories, memory);
        memories := memories - {memory};
      }
    }

    /**
     * vkBindBufferMemory: with the layer enabled, after a successful bind of a
     * non-null buffer it is in `memory`'s list once, and in no other (see
     * BoundBufferInOneList); the device's bindings are marked changed and its
     * physical device's budget stale.
     */
    method BindBufferMemory(device: Handle, buffer: Handle, memory: Handle, offset: u64, nextResult: Result)
      returns (r: Result)
      requires Valid() && device in devices
      requires devices[device].layerEnabled && nextResult == Success && buffer != NULL_HANDLE && memory != NULL_HANDLE ==>
        memory in memories
      modifies this
      ensures Valid()
      ensures r == nextResult
      ensures old(devices)[device].layerEnabled && r == Success && buffer != NULL_HANDLE ==>
        State() == Rebound(old(State()), device).(memories := WithBufferLists(old(memories), Bind(BufferLists(old(memories)), buffer, memory, offset, ())))
      ensures !(old(devices)[device].layerEnabled && r == Success && buffer != NULL_HANDLE) ==> State() == old(State())
    {
      r := nextResult;
      if devices[device].layerEnabled && r == Success && buffer != NULL_HANDLE {
        BindPreservesExclusive(BufferLists(memories), buffer, memory, offset, ());
        var lists := StripLists(BufferLists(memories), buffer);
        if memory != NULL_HANDLE {
          lists := lists[memory := lists[memory] + [Binding(buffer, offset, ())]];
        }
        var updated := WithBufferLists(memories, lists);
        assert BindingsExclusive(updated);
        MarkRebound(device);
        ReplaceMemories(updated);
      }
    }

    /** vkBindImageMemory: the same for an image, whose entry carries no chain data. */
    method BindImageMemory(device: Handle, image: Handle, memory: Handle, offset: u64, nextResult: Result)
      returns (r: Result)
      requires Valid() && device in devices
      requires devices[device].layerEnabled && nextResult == Success && image != NULL_HANDLE && memory != NULL_HANDLE ==>
        memory in memories
      modifies this
      ensures Valid()
      ensures r == nextResult
      ensures old(devices)[device].layerEnabled && r == Success && image != NULL_HANDLE ==>
        State() == Rebound(old(State()), device).(memories :=
          WithImageLists(old(memories), Bind(ImageLists(old(memories)), image, memory, offset, NO_ADDITIONAL_IMAGE_MEMORY)))
      ensures !(old(devices)[device].layerEnabled && r == Success && image != NULL_HANDLE) ==> State() == old(State())
    {
      r := nextResult;
      if devices[device].layerEnabled && r == Success && image != NULL_HANDLE {
        BindPreservesExclusive(ImageLists(memories), image, memory, offset, NO_ADDITIONAL_IMAGE_MEMORY);
        var lists := StripLists(ImageLists(memories), image);
        if memory != NULL_HANDLE {
          lists := lists[memory := lists[memory] + [Binding(image, offset, NO_ADDITIONAL_IMAGE_MEMORY)]];
        }
        var updated := WithImageLists(memories, lists);
        assert BindingsExclusive(updated);
        MarkRebound(device);
        ReplaceMemories(updated);
      }
    }

    /**
     * vkBindBufferMemory2: with the layer enabled, on success each info naming
     * a buffer is applied in order as BindBufferMemory applies it (see
     * ApplyBindsLastWins); the flags change even when no info names a buffer.
     */
    method BindBufferMemory2(device: Handle, infos: seq<BindRequest<()>>, nextResult: Result) returns (r: Result)
      requires Valid() && device in devices
      requires devices[device].layerEnabled && nextResult == Success ==> MemoriesKnown(BufferLists(memories), infos)
      modifies this
      ensures Valid()
      ensures r == nextResult
      ensures old(devices)[device].layerEnabled && r == Success ==>
        State() == Rebound(old(State()), device).(memories := WithBufferLists(old(memories), ApplyBinds(BufferLists(old(memories)), infos)))
      ensures !(old(devices)[device].layerEnabled && r == Success) ==> State() == old(State())
    {
      r := nextResult;
      if devices[device].layerEnabled && r == Success {
        ApplyBufferBinds(device, infos);
      }
    }

    /** The bind loop of vkBindBufferMemory2 with its flag updates. */
    method ApplyBufferBinds(device: Handle, infos: seq<BindRequest<()>>)
      requires Valid() && device in devices && MemoriesKnown(BufferLists(memories), infos)
      modifies this
      ensures Valid()
      ensures State() == Rebound(old(State()), device).(memories := WithBufferLists(old(memories), ApplyBinds(BufferLists(old(memories)), infos)))
    {
      var lists := BindInOrder(BufferLists(memories), infos);
      ApplyBindsPreservesExclusive(BufferLists(memories), infos);
      var updated := WithBufferLists(memories, lists);
      assert BindingsExclusive(updated);
      MarkRebound(device);
      ReplaceMemories(updated);
    }

    /**
     * vkBindImageMemory2: the same for images; each entry carries what its
     * bind info's own chain says, walked only when the memory is not null.
     */
    method BindImageMemory2(device: Handle, infos: seq<ImageBindInfo>, nextResult: Result) returns (r: Result)
      requires Valid() && device in devices
      requires devices[device].layerEnabled && nextResult == Success ==> MemoriesKnown(ImageLists(memories), ImageRequests(infos))
      modifies this
      ensures Valid()
      ensures r == nextResult
      ensures old(devices)[device].layerEnabled && r == Success ==>
        State() == Rebound(old(State()), device).(memories :=
          WithImageLists(old(memories), ApplyBinds(ImageLists(old(memories)), ImageRequests(infos))))
      ensures !(old(devices)[device].layerEnabled && r == Success) ==> State() == old(State())
    {
      r := nextResult;
      if devices[device].layerEnabled && r == Success {
        ApplyImageBinds(device, infos);
      }
    }

    /** The bind loop of vkBindImageMemory2 with its flag updates. */
    method ApplyImageBinds(device: Handle, infos: seq<ImageBindInfo>)
      requires Valid() && device in devices && MemoriesKnown(ImageLists(memories), ImageRequests(infos))
      modifies this
      ensures Valid()
      ensures State() == Rebound(old(State()), device).(memories :=
        WithImageLists(old(memories), ApplyBinds(ImageLists(old(memories)), ImageRequests(infos))))
    {
      var lists := BindImagesInOrder(ImageLists(memories), infos);
      ApplyBindsPreservesExclusive(ImageLists(memories), ImageRequests(infos));
      var updated := WithImageLists(memories, lists);
      assert BindingsExclusive(updated);
      MarkRebound(device);
      ReplaceMemories(updated);
    }

    /** Installs new memory records whose binding lists are exclusive; nothing else changes. */
    method ReplaceMemories(updated: map<Handle, MemoryRecord>)
      requires Valid() && BindingsExclusive(updated)
      modifies this
      ensures Valid()
      ensures State() == old(State()).(memories := updated)
    {
      memories := updated;
    }

    /** The flag updates every bind variant ends with. */
    method MarkRebound(device: Handle)
      requires Valid() && device in devices
      modifies this
      ensures Valid()
      ensures State() == Rebound(old(State()), device)
    {
      var p := devices[device].physicalDevice;
      devices := devices[device := devices[device].(bindingsUpdated := true)];
      physicalDevices := physicalDevices[p := physicalDevices[p].(budgetUpdated := false)];
    }

    // -------------------------------------------------------------------
    // Fences

    /**
     * vkCreateFence: with the layer enabled, a created fence is recorded as
     * signalled exactly when VK_FENCE_CREATE_SIGNALED_BIT was given, with the
     * device's delay type and count and no wait yet.
     */
    method CreateFence(device: Handle, signaledBit: bool, nextResult: Result, created: Handle) returns (r: Result)
      requires Valid() && device in devices
      modifies this
      ensures Valid()
      ensures r == nextResult
      ensures var d := old(devices)[device];
        d.layerEnabled && r == Success ==>
          State() == old(State()).(fences := old(fences)[created := NewFence(device, signaledBit, d.delayType, d.delayCount)])
      ensures !(old(devices)[device].layerEnabled && r == Success) ==> State() == old(State())
    {
      r := nextResult;
      var d := devices[device];
      if d.layerEnabled && r == Success {
        fences := fences[created := NewFence(device, signaledBit, d.delayType, d.delayCount)];
      }
    }

    /**
     * vkRegisterDeviceEventEXT and vkRegisterDisplayEventEXT: the fence they
     * create is recorded as vkCreateFence records an unsignalled one.
     */
    method RegisterEvent(device: Handle, nextResult: Result, created: Handle) returns (r: Result)
      requires Valid() && device in devices
      modifies this
      ensures Valid()
      ensures r == nextResult
      ensures var d := old(devices)[device];
        d.layerEnabled && r == Success ==>
          State() == old(State()).(fences := old(fences)[created := NewFence(device, false, d.delayType, d.delayCount)])
      ensures !(old(devices)[device].layerEnabled && r == Success) ==> State() == old(State())
    {
      r := CreateFence(device, false, nextResult, created);
    }

    /** vkDestroyFence: with the layer enabled the fence's record is erased. */
    method DestroyFence(device: Handle, fence: Handle)
      requires Valid() && device in devices
      modifies this
      ensures Valid()
      ensures old(devices)[device].layerEnabled ==> State() == old(State()).(fences := old(fences) - {fence})
      ensures !old(devices)[device].layerEnabled ==> State() == old(State())
    {
      if devices[device].layerEnabled {
        fences := fences - {fence};
      }
    }

    /**
     * vkResetFences: with the layer enabled, every tracked fence of the list
     * is reset before the call is forwarded (see ResetAllSpec); the driver's
     * answer is returned either way.
     */
    method ResetFences(device: Handle, list: seq<Handle>, nextResult: Result) returns (r: Result)
      requires Valid() && device in devices
      modifies this
      ensures Valid()
      ensures r == nextResult
      ensures old(devices)[device].layerEnabled ==> State() == old(State()).(fences := ResetAll(old(fences), list))
      ensures !old(devices)[device].layerEnabled ==> State() == old(State())
    {
      if devices[device].layerEnabled {
        for i := 0 to |list|
          invariant fences == ResetAll(old(fences), list[..i])
          invariant State() == old(State()).(fences := fences)
        {
          assert list[..i + 1][..i] == list[..i] && list[..i + 1][i] == list[i];
          var f := list[i];
          if f in fences {
            fences := fences[f := Reset(fences[f])];
          }
        }
        assert list[..|list|] == list;
      }
      r := nextResult;
    }

    /**
     * vkGetFenceStatus at time `now`. With the layer enabled, a tracked
     * delayed fence is checked (see QueryStatus) and, while held back,
     * VK_NOT_READY is returned without asking the driver; anything else gets
     * the driver's answer.
     */
    method GetFenceStatus(device: Handle, fence: Handle, now: int, nextResult: Result) returns (r: Result)
      requires Valid() && device in devices
      modifies this
      ensures Valid()
      ensures old(devices)[device].layerEnabled && Delayed(old(fences), fence) ==>
        var c := QueryStatus(old(fences)[fence], now);
        && r == (if c.notReady then NotReady else nextResult)
        && State() == old(State()).(fences := old(fences)[fence := c.fence])
      ensures !(old(devices)[device].layerEnabled && Delayed(old(fences), fence)) ==> r == nextResult && State() == old(State())
    {
      if devices[device].layerEnabled && fence in fences && fences[fence].delayType != DelayNone {
        var c := QueryStatus(fences[fence], now);
        fences := fences[fence := c.fence];
        if c.notReady {
          return NotReady;
        }
      }
      r := nextResult;
    }

    /**
     * vkWaitForFences. With the layer enabled the list is scanned (see
     * ScanList; `clock[i]` is the time at position `i`), the fence records
     * are updated, and the result is VK_TIMEOUT or the driver's answer for
     * the released fences (see WaitResult). With the layer disabled the
     * whole list goes to the driver.
     */
    method WaitForFences(device: Handle, list: seq<Handle>, clock: seq<int>, timeout: u64, waitAll: bool,
                         driver: seq<Handle> -> Result)
      returns (r: Result)
      requires Valid() && device in devices && |clock| == |list|
      modifies this
      ensures Valid()
      ensures old(devices)[device].layerEnabled ==>
        var s := ScanList(old(fences), list, clock, timeout, waitAll);
        r == WaitResult(s, |list|, driver) && State() == old(State()).(fences := s.fences)
      ensures !old(devices)[device].layerEnabled ==> r == driver(list) && State() == old(State())
    {
      if devices[device].layerEnabled {
        var s := WaitScan(fences, list, clock, timeout, waitAll);
        fences := s.fences;
        r := WaitResult(s, |list|, driver);
      } else {
        r := driver(list);
      }
    }

    /**
     * vkAcquireNextImageKHR and vkAcquireNextImage2KHR: with the layer
     * enabled, a non-null fence is signalled (see Signal) before the call is
     * forwarded.
     */
    method AcquireNextImage(device: Handle, fence: Handle, now: int, nextResult: Result) returns (r: Result)
      requires Valid() && device in devices
      modifies this
      ensures Valid()
      ensures r == nextResult
      ensures old(devices)[device].layerEnabled && fence != NULL_HANDLE ==>
        State() == old(State()).(fences := Signalled(old(fences), fence, now))
      ensures !(old(devices)[device].layerEnabled && fence != NULL_HANDLE) ==> State() == old(State())
    {
      if devices[device].layerEnabled && fence != NULL_HANDLE {
        fences := Signalled(fences, fence, now);
      }
      r := nextResult;
    }

    // -------------------------------------------------------------------
    // Queues

    /** vkGetDeviceQueue: the queue is mapped to its device. */
    method GetDeviceQueue(device: Handle, queue: Handle)
      requires Valid() && device in devices
      modifies this
      ensures Valid()
      ensures State() == old(State()).(queueToDevice := old(queueToDevice)[queue := device])
    {
      queueToDevice := queueToDevice[queue := device];
    }

    /** vkQueueBindSparse: with the layer enabled for the queue's device, a non-null fence is signalled before forwarding. */
    method QueueBindSparse(queue: Handle, fence: Handle, now: int, nextResult: Result) returns (r: Result)
      requires Valid() && queue in queueToDevice && queueToDevice[queue] in devices
      modifies this
      ensures Valid()
      ensures r == nextResult
      ensures old(devices)[old(queueToDevice)[queue]].layerEnabled && fence != NULL_HANDLE ==>
        State() == old(State()).(fences := Signalled(old(fences), fence, now))
      ensures !(old(devices)[old(queueToDevice)[queue]].layerEnabled && fence != NULL_HANDLE) ==> State() == old(State())
    {
      r := AcquireNextImage(queueToDevice[queue], fence, now, nextResult);
    }

    /**
     * vkQueueSubmit (and vkQueueSubmit2). With the layer enabled for the
     * queue's device and a successful submit: a non-null fence is signalled;
     * then, if the device's bindings changed, the physical device's memory
     * properties are queried again with a budget structure unless its budget
     * is still fresh, and the bindings are marked as reported.
     */
    method QueueSubmit(queue: Handle, fence: Handle, now: int, nextResult: Result,
                       vulkan: DeviceMemoryProperties, budget: BudgetProperties, scale: (u64, nat) -> u64)
      returns (r: Result)
      requires Valid() && queue in queueToDevice && queueToDevice[queue] in devices
      requires WellFormedProperties(vulkan) && WellFormedBudget(budget)
      modifies this
      ensures Valid()
      ensures r == nextResult
      ensures var d := old(queueToDevice)[queue];
        var p := old(devices)[d].physicalDevice;
        var prec := old(physicalDevices)[p];
        var refresh := old(devices)[d].bindingsUpdated && !prec.budgetUpdated && prec.layerEnabled;
        old(devices)[d].layerEnabled && r == Success ==>
          State() == old(State()).(
            fences := if fence != NULL_HANDLE then Signalled(old(fences), fence, now) else old(fences),
            devices := if old(devices)[d].bindingsUpdated then old(devices)[d := old(devices)[d].(bindingsUpdated := false)] else old(devices),
            physicalDevices := if refresh then old(physicalDevices)[p := WithManaged(prec, vulkan, Some(budget), scale)] else old(physicalDevices))
      ensures !(old(devices)[old(queueToDevice)[queue]].layerEnabled && r == Success) ==> State() == old(State())
    {
      r := nextResult;
      var d := queueToDevice[queue];
      if devices[d].layerEnabled && r == Success {
        if fence != NULL_HANDLE {
          fences := Signalled(fences, fence, now);
        }
        ReportBindings(d, vulkan, budget, scale);
      }
    }

    /**
     * The end of a successful submit: when the device's bindings changed,
     * a stale budget of an enabled physical device is queried again with a
     * budget structure, and the bindings are marked as reported.
     */
    method ReportBindings(d: Handle, vulkan: DeviceMemoryProperties, budget: BudgetProperties, scale: (u64, nat) -> u64)
      requires Valid() && d in devices
      requires WellFormedProperties(vulkan) && WellFormedBudget(budget)
      modifies this
      ensures Valid()
      ensures var p := old(devices)[d].physicalDevice;
        var prec := old(physicalDevices)[p];
        var refresh := old(devices)[d].bindingsUpdated && !prec.budgetUpdated && prec.layerEnabled;
        State() == old(State()).(
          devices := if old(devices)[d].bindingsUpdated then old(devices)[d := old(devices)[d].(bindingsUpdated := false)] else old(devices),
          physicalDevices := if refresh then old(physicalDevices)[p := WithManaged(prec, vulkan, Some(budget), scale)] else old(physicalDevices))
    {
      if devices[d].bindingsUpdated {
        var p := devices[d].physicalDevice;
        if !physicalDevices[p].budgetUpdated {
          var chain := [MemoryBudgetProperties(budget.heapUsage, budget.heapBudget)];
          assert FindBudget(chain) == Some(0);
          assert BudgetIn(chain) == Some(budget);
          var _, _ := GetPhysicalDeviceMemoryProperties2(p, true, vulkan, chain, scale);
        }
        devices := devices[d := devices[d].(bindingsUpdated := false)];
      }
    }

    /**
     * vkQueuePresentKHR. With the layer enabled for the queue's device, after
     * a successful present of a device that enabled
     * VK_EXT_swapchain_maintenance1, every non-null fence of every
     * VkSwapchainPresentFenceInfoEXT in the present chain is signalled (see
     * SignalAllSpec).
     */
    method QueuePresent(queue: Handle, chain: seq<ChainStruct>, now: int, nextResult: Result) returns (r: Result)
      requires Valid() && queue in queueToDevice && queueToDevice[queue] in devices
      modifies this
      ensures Valid()
      ensures r == nextResult
      ensures var d := old(devices)[old(queueToDevice)[queue]];
        d.layerEnabled && r == Success && SwapchainMaintenance1 in d.enabled ==>
          State() == old(State()).(fences := SignalAll(old(fences), PresentFences(chain), now))
      ensures var d := old(devices)[old(queueToDevice)[queue]];
        !(d.layerEnabled && r == Success && SwapchainMaintenance1 in d.enabled) ==> State() == old(State())
    {
      r := nextResult;
      var d := devices[queueToDevice[queue]];
      if d.layerEnabled && r == Success && SwapchainMaintenance1 in d.enabled {
        var list := PresentFences(chain);
        for i := 0 to |list|
          invariant fences == SignalAll(old(fences), list[..i], now)
          invariant State() == old(State()).(fences := fences)
        {
          assert list[..i + 1][..i] == list[..i] && list[..i + 1][i] == list[i];
          if list[i] != NULL_HANDLE {
            fences := Signalled(fences, list[i], now);
          }
        }
        assert list[..|list|] == list;
      }
    }

    // -------------------------------------------------------------------
    // Entry-point lookup

    /** vkGetInstanceProcAddr, with the instance's flags when the instance is known. */
    method GetInstanceProcAddr(instance: Handle, name: string, hasNext: bool) returns (r: Dispatch.Resolution)
      ensures instance == NULL_HANDLE || instance !in instances ==>
        r == Dispatch.InstanceProcAddr(SlowDeviceSimulator, None, name, hasNext)
      ensures instance != NULL_HANDLE && instance in instances ==>
        r == Dispatch.InstanceProcAddr(SlowDeviceSimulator, Some(instances[instance].extensions), name, hasNext)
    {
      var enabled := if instance != NULL_HANDLE && instance in instances then Some(instances[instance].extensions) else None;
      r := Dispatch.InstanceProcAddr(SlowDeviceSimulator, enabled, name, hasNext);
    }

    /** vkGetDeviceProcAddr, with the extensions the device's physical device supports. */
    method GetDeviceProcAddr(device: Handle, name: string, hasNext: bool) returns (r: Dispatch.Resolution)
      requires Valid()
      requires Dispatch.Lookup(Dispatch.DeviceCommands(SlowDeviceSimulator), name).None? ==> device in devices
      ensures device in devices ==>
        r == Dispatch.DeviceProcAddr(SlowDeviceSimulator, physicalDevices[devices[device].physicalDevice].supported, name, hasNext)
      ensures device !in devices ==> r == Dispatch.Intercepted(Dispatch.Lookup(Dispatch.DeviceCommands(SlowDeviceSimulator), name).value)
    {
      var supported := if device in devices then physicalDevices[devices[device].physicalDevice].supported else {};
      r := Dispatch.DeviceProcAddr(SlowDeviceSimulator, supported, name, hasNext);
    }
  }
}
