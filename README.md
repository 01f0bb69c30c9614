# Vulkan memory-tracker and slow-device-simulator layers, modelled in Dafny

Two Vulkan interception layers sit between an application and the driver:

- the **memory tracker** (`VK_LAYER_LUNARG_memory_tracker`);
- the **slow device simulator** (`VK_LAYER_LUNARG_slow_device_simulator`).

Each layer forwards almost every intercepted call to the next layer. The exceptions are these:
- vkDestroyInstance, which neither layer hands on (see Findings);
- in the simulator, an allocation it refuses, a vkGetFenceStatus on a fence it holds back, and a vkWaitForFences that times out. It answers these itself.

Around each forwarded call it keeps shadow tables keyed by handle: instances, physical devices, devices, buffers, images, device memory, imported file descriptors, queues and, in the simulator, fences. It uses these tables to track which buffers and images are bound to which allocation, and to answer the entry-point lookups.

The simulator adds three things:
- it reads three settings (fence delay type, delay count, memory percent);
- it makes allocations fail once a heap's scaled budget is used up;
- it holds fences back from the application for a configured number of milliseconds or failed waits.

The model is one module per concern. Each layer is a `class Layer` whose fields are those tables as `map`s of records. Every intercepted entry point is a method, and its `ensures` gives the whole new state (`State()`) as a function of the old one and of the driver's answers. The invariant `Valid()` is kept by every method. It says:
- every record points at records that exist;
- every memory-properties copy is well formed;
- no buffer or image sits in two binding lists, or twice in one.

| module | file | what it holds |
|---|---|---|
| `Vk` | vk.dfy | handles, result codes, `uint32_t`/`uint64_t` wrap-around, the packed API version |
| `Chain` | chain.dfy | `pNext` chains as sequences of tagged structures; the capture walks and the budget/present-fence searches |
| `Bindings` | bindings.dfy | per-memory binding lists: erase everywhere, bind, bind in order |
| `Registry` | registry.dfy | buffer/image/memory/fd records and the Erase*MapEntry helpers |
| `MemoryProperties` | memory_properties.dfy | the layer's copy of the memory properties; CopyMemoryProperties and ManageMemoryProperties |
| `Extensions` | extensions.dfy | core-version and extension flags; the VK_EXT_memory_budget rewrite in vkCreateDevice |
| `Dispatch` | dispatch.dfy | the Implemented*Commands tables and the precedence of the two proc-addr entry points |
| `Teardown` | teardown.dfy | the teardown calls handed to the next layer and what stays alive below it |
| `Tools` | tools.dfy | vkGetPhysicalDeviceToolPropertiesEXT's count logic |
| `Fences` | fences.dfy | the simulator's fence-delay state machine and the scan of vkWaitForFences |
| `SimulatorSettings` | simulator_settings.dfy | settings normalisation, budget admission, per-heap `allocated` accounting |
| `MemoryTrackerLayer` | memory_tracker.dfy | the memory tracker's tables and entry points |
| `SlowDeviceSimulatorLayer` | slow_device_simulator.dfy | the simulator's tables and entry points |

Calls into the driver are parameters: a result code, the handle the driver created, the structures it filled, and for vkWaitForFences a function from the fences handed on to a result. Time is a parameter too: a clock reading in milliseconds per call, or per position of a fence list.

## Model

| member | source | states |
|---|---|---|
| Vk.WrapU32 | layersvt/slow_device_simulator.cpp:1766 | a value assigned to a `uint32_t` is reduced modulo 2^32 and is below 2^32 |
| Vk.WrapU64 | layersvt/slow_device_simulator.cpp:1464 | a value assigned to a `uint64_t` (`VkDeviceSize`) is reduced modulo 2^64 and is below 2^64 |
| Vk.VersionMinor | layersvt/memory_tracker.cpp:732 | VK_VERSION_MINOR is below 1024 and is 0 for any version below 4096 |
| Chain.Walk | layersvt/memory_tracker.cpp:1129-1157 | the `while (next_struct != nullptr)` walk visits every structure once, in order, and leaves the record the fold of the per-structure step over the chain |
| Chain.BitsOfHasBit | layersvt/memory_tracker.cpp:1132-1155 | a validity bit is set after a walk exactly when some structure of the chain contributed it |
| Chain.BitsOfSingle | layersvt/memory_tracker.cpp:1132-1155 | when only one structure contributes bits, the flags are its bits alone |
| Chain.BufferStepExtendsReference | layersvt/memory_tracker.cpp:1130-1157 | one more buffer-create structure moves the walk's record exactly as it moves the reference record (flags ORed, payload of the last structure of each kind) |
| Chain.BufferWalkMatchesReference | layersvt/memory_tracker.cpp:1129-1157 | vkCreateBuffer's walk yields the reference: the flags of every recognised structure ORed, each payload from the last structure of its kind, unknown tags ignored |
| Chain.ExternalMemoryBufferCaptured | layersvt/memory_tracker.cpp:1139-1145 | a chain with one VkExternalMemoryBufferCreateInfo and nothing else recognised sets exactly the external-memory bit and captures its handle types |
| Chain.ImageStepExtendsReference | layersvt/memory_tracker.cpp:1189-1258 | one more image-create structure moves the walk's record exactly as it moves the reference |
| Chain.ImageWalkMatchesReference | layersvt/memory_tracker.cpp:1188-1258 | vkCreateImage's walk yields the reference record over the seven recognised structure kinds |
| Chain.MemoryStepExtendsReference | layersvt/memory_tracker.cpp:1404-1469 | one more allocate-info structure moves the walk's record exactly as it moves the reference |
| Chain.MemoryWalkMatchesReference | layersvt/memory_tracker.cpp:1403-1469 | vkAllocateMemory's walk yields the reference record over the six recognised structure kinds |
| Chain.ImageMemoryStepExtendsReference | layersvt/memory_tracker.cpp:1626-1647 | one more bind-image-memory structure moves the walk's record exactly as it moves the reference |
| Chain.ImageMemoryWalkMatchesReference | layersvt/memory_tracker.cpp:1625-1647 | vkBindImageMemory2's per-info walk yields the reference record (plane aspect, swapchain image index) |
| Chain.FindBudget | layersvt/memory_tracker.cpp:917-930 | the budget structure found is one, the first one in the chain, and there is one exactly when the chain holds a VkPhysicalDeviceMemoryBudgetPropertiesEXT |
| Chain.SearchBudget | layersvt/memory_tracker.cpp:917-930 | the advancing search loop returns FindBudget's answer |
| Chain.BudgetSearchAgreesWhenItStops | layersvt/memory_tracker.cpp:921-926 | when the loop as written stops (empty chain or budget first), it finds what FindBudget finds |
| Chain.BudgetSearchAsWrittenHangs | layersvt/memory_tracker.cpp:921-926 | the loop as written never ends on a chain with the budget structure second, while FindBudget finds it at position 1 |
| Chain.PresentFences | layersvt/slow_device_simulator.cpp:2131-2158 | a fence is collected exactly when some VkSwapchainPresentFenceInfoEXT of the present chain lists it |
| Chain.FindBudgetAsWritten | layersvt/memory_tracker.cpp:921-926 | the loop as written, whose cursor never moves: it hangs exactly when the chain is non-empty and does not start with the budget structure |
| Chain.PresentFencesAsWritten | layersvt/slow_device_simulator.cpp:2131-2158 | the present loop as written, whose cursor goes back to the head on every round: it hangs on every non-empty chain, and when it stops it agrees with PresentFences |
| Chain.PresentFencesAsWrittenHangs | layersvt/slow_device_simulator.cpp:2157 | the present loop as written never ends on a one-structure chain, while the intended walk returns its fence |
| Bindings.RemoveCount | layersvt/memory_tracker.cpp:343-361 | after erasing a resource from a list it has no entry there, and every other resource keeps its count |
| Bindings.RemoveKeeps | layersvt/memory_tracker.cpp:343-361 | erasing a resource keeps every entry of any other resource |
| Bindings.RemoveAbsent | layersvt/memory_tracker.cpp:343-361 | erasing a resource a list does not hold leaves the list unchanged |
| Bindings.RemoveInPlace | layersvt/memory_tracker.cpp:350-357 | the erase-in-loop over one list (erase, else advance) yields the list without the resource's entries |
| Bindings.Strip | layersvt/memory_tracker.cpp:343-361 | erasing a resource everywhere keeps the set of memory objects |
| Bindings.Bind | layersvt/memory_tracker.cpp:1493-1513 | a bind keeps the set of memory objects and needs the target memory to be tracked unless it is VK_NULL_HANDLE |
| Bindings.StripLists | layersvt/memory_tracker.cpp:1495-1506 | the loop over every memory object's list erases the resource from each (Strip) |
| Bindings.StripCounts | layersvt/memory_tracker.cpp:1495-1506 | after stripping, the resource has no entry in any list and every other resource keeps its counts |
| Bindings.BindCounts | layersvt/memory_tracker.cpp:1493-1513 | after a bind the resource is in the target's list exactly once, with that offset, and nowhere else (nowhere when the memory is null); other resources keep their entries |
| Bindings.BindPreservesExclusive | layersvt/memory_tracker.cpp:1493-1513 | a bind keeps every resource in at most one list, at most once |
| Bindings.StripPreservesExclusive | layersvt/memory_tracker.cpp:343-361 | erasing a resource keeps the lists exclusive and leaves it in none |
| Bindings.ResetPreservesExclusive | layersvt/memory_tracker.cpp:401-407 | adding an empty list for a new allocation, or dropping a freed allocation's list, keeps the lists exclusive |
| Bindings.ApplyBinds | layersvt/memory_tracker.cpp:1564-1594 | applying bind infos in order keeps the set of memory objects |
| Bindings.LastRequest | layersvt/memory_tracker.cpp:1564-1594 | the reference position is the last bind info naming the resource, and none names it when there is no such position |
| Bindings.ApplyBindsLastWins | layersvt/memory_tracker.cpp:1564-1594 | after vkBindBufferMemory2/vkBindImageMemory2 the last info naming a non-null resource decides where it is: once in that info's memory with that offset, nowhere if that memory is null; resources no info names keep their entries |
| Bindings.ApplyBindsPreservesExclusive | layersvt/memory_tracker.cpp:1564-1594 | binding in order keeps the lists exclusive |
| Bindings.BindInOrder | layersvt/memory_tracker.cpp:1564-1594 | the loop over the bind infos, skipping null resources, computes ApplyBinds |
| Registry.NewMemory | layersvt/memory_tracker.cpp:1398-1472 | a freshly recorded allocation has no bound buffers or images and keeps what its pNext chain says |
| Registry.WithBufferLists | layersvt/memory_tracker.cpp:235-242 | replacing the buffers lists changes nothing else in any memory record |
| Registry.WithImageLists | layersvt/memory_tracker.cpp:235-242 | replacing the images lists changes nothing else in any memory record |
| Registry.NewMemoryKeepsExclusive | layersvt/memory_tracker.cpp:1398-1472 | recording a new allocation with empty lists keeps bindings exclusive |
| Registry.FreeMemoryKeepsExclusive | layersvt/memory_tracker.cpp:401-407 | erasing an allocation's record keeps bindings exclusive |
| Registry.BoundBufferInOneList | layersvt/memory_tracker.cpp:1487-1521 | after vkBindBufferMemory the buffer is in the memory's list exactly once with its offset and in no other (none for null memory); other buffers keep their entries; image lists are untouched |
| Registry.BoundImageInOneList | layersvt/memory_tracker.cpp:1523-1556 | the same for vkBindImageMemory, buffer lists untouched |
| Registry.EraseBufferEntry | layersvt/memory_tracker.cpp:343-361 | EraseBufferMapEntry: a tracked buffer loses its record and every binding entry; an untracked one changes nothing |
| Registry.EraseImageEntry | layersvt/memory_tracker.cpp:372-390 | EraseImageMapEntry: the same for images |
| Registry.EraseBufferClears | layersvt/memory_tracker.cpp:343-361 | after erasing a buffer no list names it, other buffers keep their entries, image lists and allocation data are untouched, bindings stay exclusive |
| Registry.EraseImageClears | layersvt/memory_tracker.cpp:372-390 | the same for an image |
| Registry.FdsNotOf | layersvt/memory_tracker.cpp:301-310 | a descriptor survives exactly when another device imported it, with its record unchanged |
| Registry.FdsNotOfAny | layersvt/memory_tracker.cpp:764-790 | a descriptor survives exactly when none of the destroyed devices imported it |
| Registry.FdsNotOfAnyStep | layersvt/memory_tracker.cpp:774-780 | erasing one more device's descriptors equals erasing for the larger set of devices |
| Registry.EraseExternalMemFds | layersvt/memory_tracker.cpp:301-310 | the erase-and-rescan loop of EraseExternalMemFdMapEntries erases exactly the device's descriptors |
| Teardown.AliveAfterReleasesTargets | layersvt/memory_tracker.cpp:1100-1114 | the teardown calls handed to the next layer destroy exactly their targets there, in any order |
| Teardown.DestroyInstanceCallsAsWritten | layersvt/memory_tracker.cpp:764-787 | as written: one vkDestroyDevice per device of the instance, and no call for the instance |
| Teardown.DestroyInstanceCalls | layersvt/memory_tracker.cpp:764-787 | corrected: the vkDestroyDevice calls, then vkDestroyInstance last |
| Teardown.DestroyInstanceLeavesInstanceAlive | layersvt/memory_tracker.cpp:764-787 | as written, the instance's devices die below the layer but the instance stays alive there |
| Teardown.DestroyInstanceReleasesInstance | layersvt/memory_tracker.cpp:764-787 | corrected, exactly the devices and the instance die below the layer |
| Registry.EraseDevices | layersvt/memory_tracker.cpp:774-780 | the device loop of vkDestroyInstance erases exactly the given devices and exactly the descriptors they imported |
| Registry.ImageRequests | layersvt/memory_tracker.cpp:1603-1658 | one bind request per info, in order, each carrying what its info's chain says when it binds to non-null memory |
| Registry.BindImagesInOrder | layersvt/memory_tracker.cpp:1603-1658 | vkBindImageMemory2's loop computes the in-order binds of those requests |
| Registry.FlattenHas | layersvt/memory_tracker.cpp:812-832 | a physical device is in the flattened group list exactly when some group holds it |
| MemoryProperties.BudgetIn | layersvt/memory_tracker.cpp:913-932 | the budget copied from is the first budget structure of the output chain, or none |
| MemoryProperties.NoMemoryProperties | layersvt/memory_tracker.cpp:792-810 | a new physical-device record's copy has no types and no heaps |
| MemoryProperties.UsageOf | layersvt/memory_tracker.cpp:882-901 | a heap's usage comes from the budget structure, or is 0 without one |
| MemoryProperties.BudgetOf | layersvt/memory_tracker.cpp:882-901 | a heap's budget comes from the budget structure, or is 0 without one |
| MemoryProperties.CopiedProperties | layersvt/memory_tracker.cpp:882-901 | the copy takes the counts, each type below the type count and each heap's size and flags below the heap count from the driver, usage and budget from the budget structure or 0; entries at or above the counts and every `allocated` count are kept |
| MemoryProperties.CopyKeepsAllocated | layersvt/slow_device_simulator.cpp:787-822 | copying never changes a heap's `allocated` count |
| MemoryProperties.CopyIdempotent | layersvt/memory_tracker.cpp:882-901 | copying the same driver answer twice gives the same copy as once |
| MemoryProperties.CopyMemoryProperties | layersvt/memory_tracker.cpp:882-901 | the field-by-field loops compute CopiedProperties |
| MemoryProperties.Scaled | layersvt/slow_device_simulator.cpp:780-785 | below 100 percent a size is replaced by the scaled value; at 100 it is unchanged |
| MemoryProperties.ScaledHeaps | layersvt/slow_device_simulator.cpp:787-822 | below 100 percent every heap size below the heap count is scaled in what the application sees; everything else is the driver's |
| MemoryProperties.ScaledUsage | layersvt/slow_device_simulator.cpp:787-822 | below 100 percent the usage of every heap below the heap count is scaled; budgets are the driver's |
| MemoryProperties.ManagedProperties | layersvt/slow_device_simulator.cpp:787-822 | the application sees the scaled answers, the copy is CopiedProperties of them, and the budget is marked refreshed exactly when a budget structure was passed and a heap exists (else the flag is kept) |
| MemoryProperties.FullPercentIsPlainCopy | layersvt/slow_device_simulator.cpp:787-822 | at 100 percent the simulator's management is the tracker's plain copy |
| MemoryProperties.ManagedKeepsAllocated | layersvt/slow_device_simulator.cpp:787-822 | management never changes a heap's `allocated` count |
| MemoryProperties.ManageMemoryProperties | layersvt/slow_device_simulator.cpp:787-822 | the imperative scaling and copy compute ManagedProperties |
| Extensions.InstanceCoreFlags | layersvt/memory_tracker.cpp:729-742 | core 1.1/1.2/1.3 are set exactly when an API version is given, is non-zero, and its minor version is above 0/1/2 |
| Extensions.InstanceCoreFlagsNested | layersvt/memory_tracker.cpp:729-742 | a later core flag implies every earlier one |
| Extensions.InstanceCoreFlagsExamples | layersvt/memory_tracker.cpp:729-742 | example: VK_API_VERSION_1_2 gives 1.1 and 1.2 but not 1.3; version 0 gives nothing |
| Extensions.DeviceCoreFlags | layersvt/memory_tracker.cpp:950-961 | a device core flag is set exactly when it already was, or the instance has it and the device's own minor version is above the same bound |
| Extensions.DeviceCoreFlagsNeedInstance | layersvt/memory_tracker.cpp:950-961 | starting from none, a physical device never gets a core version its instance lacks |
| Extensions.InstanceFlagsNamed | layersvt/memory_tracker.cpp:744-757 | an instance extension flag is set exactly when the list names its extension |
| Extensions.ScanInstanceExtensionNames | layersvt/memory_tracker.cpp:744-757 | the name loop adds exactly the flags of the recognised names to those already set |
| Extensions.DeviceFlagNamed | layersvt/slow_device_simulator.cpp:988-1022 | which device flag a name sets; the swapchain, display-control and swapchain-maintenance names only in the simulator |
| Extensions.DeviceFlagsNamedSpec | layersvt/memory_tracker.cpp:1057-1072 | a device flag is set by a list of names exactly when the list names its extension |
| Extensions.ScanDeviceExtensionNames | layersvt/memory_tracker.cpp:962-981 | the name loops add exactly the recognised names' flags for the given layer to those already set |
| Extensions.ForceMemoryBudget | layersvt/memory_tracker.cpp:1020-1046 | the forwarded list is the application's with VK_EXT_memory_budget appended exactly when the device supports 1.1 and the extension and the list lacks it; otherwise the list itself |
| Dispatch.Lookup | layersvt/memory_tracker.cpp:1763-1787 | a lookup that finds a command found a row with that name |
| Dispatch.LookupFindsFirst | layersvt/memory_tracker.cpp:1763-1787 | the command found is that of the first row with the name |
| Dispatch.LookupAppend | layersvt/memory_tracker.cpp:1726-1761 | consulting two tables one after the other is consulting their concatenation |
| Dispatch.InstanceExtensionCommands | layersvt/memory_tracker.cpp:1808-1842 | only rows whose extension the instance enabled are offered, in table order |
| Dispatch.DeviceExtensionCommands | layersvt/memory_tracker.cpp:1894-1965 | only rows whose flag the physical device supports are offered; none without a supported set |
| Dispatch.ResolveInstanceCommand | layersvt/memory_tracker.cpp:1726-1761 | the unconditional table answers first; a null or unknown instance then gets a null pointer; a forwarded name needs an instance and a next layer; an intercepted name comes from the base table, from the newer-core table with 1.1 enabled, from an enabled extension's row or from the device table |
| Dispatch.ResolveInstanceExtension | layersvt/memory_tracker.cpp:1742-1745 | a command of an enabled instance extension that the base and newer-core tables miss is intercepted from the extension table |
| Dispatch.ResolveDeviceCommand | layersvt/memory_tracker.cpp:1747-1750 | a core device command that every instance-level table misses is intercepted from the device table |
| Dispatch.ResolveDeviceGroupsKhr | layersvt/memory_tracker.cpp:1808-1842 | vkEnumeratePhysicalDeviceGroupsKHR resolves to the layer's function exactly when VK_KHR_device_group_creation is enabled, and otherwise to the next layer or null |
| Dispatch.DeviceGroupsKhrNeedsExtension | layersvt/memory_tracker.cpp:1726-1761 | the same for vkGetInstanceProcAddr as the layers use it |
| Dispatch.InstanceProcAddr | layersvt/memory_tracker.cpp:1726-1761 | vkGetInstanceProcAddr with the newer-core row named correctly: an instance with 1.1 gets the layer's vkEnumeratePhysicalDeviceGroups |
| Dispatch.GetInstanceProcAddrAsWritten | layersvt/memory_tracker.cpp:1789-1806 | vkGetInstanceProcAddr as written: for a known instance, vkEnumeratePhysicalDeviceGroups always goes to the next layer or null, whatever the instance enabled |
| Dispatch.DeviceProcAddr | layersvt/memory_tracker.cpp:1844-1863 | the device table answers first; a forwarded name needs a next layer; an intercepted name is in the device table or in a supported extension's row |
| Dispatch.ResolveFallsThrough | layersvt/memory_tracker.cpp:1757-1760 | a name no instance-level table knows goes to the next layer or null; device-extension rows are never consulted here |
| Dispatch.ResolveNewerCore | layersvt/memory_tracker.cpp:1736-1742 | with Vulkan 1.1 enabled the newer-core table answers before every table but the base one |
| Dispatch.LookupMissesLength | layersvt/memory_tracker.cpp:1865-1892 | proof aid: a name whose length no row has is in no row |
| Dispatch.LookupMissesShape | layersvt/memory_tracker.cpp:1865-1892 | proof aid: a name that no row matches in length and in one letter is in no row |
| Dispatch.InstanceExtensionsMissDeviceGroups | layersvt/memory_tracker.cpp:1808-1842 | no instance-extension row is named vkEnumeratePhysicalDeviceGroups, whatever the instance enabled |
| Dispatch.DeviceCommandsMissLength | layersvt/memory_tracker.cpp:1865-1892 | proof aid: vkBindBufferMemory2 and vkEnumeratePhysicalDeviceGroups are in neither layer's device table |
| Dispatch.BindBufferMemory2NeedsCore11 | layersvt/memory_tracker.cpp:1896-1909 | vkGetDeviceProcAddr returns the layer's vkBindBufferMemory2 exactly when the physical device supports 1.1; otherwise the next layer answers |
| Dispatch.NullInstanceOnlyBaseTable | layersvt/memory_tracker.cpp:1726-1735 | without an instance only the unconditional instance table answers |
| Dispatch.EarlierTablesMissDeviceGroups | layersvt/memory_tracker.cpp:1763-1787 | no table consulted before the newer-core table names vkEnumeratePhysicalDeviceGroups |
| Dispatch.LaterTablesMissDeviceGroups | layersvt/memory_tracker.cpp:1808-1842 | nor does any table consulted after it |
| Dispatch.AsWrittenNewerCoreMissesDeviceGroups | layersvt/memory_tracker.cpp:1795 | the misspelt newer-core table has no row named vkEnumeratePhysicalDeviceGroups |
| Dispatch.EnumeratePhysicalDeviceGroupsBypassed | layersvt/memory_tracker.cpp:1795 | as written, with 1.1 enabled and no device-group extension, vkEnumeratePhysicalDeviceGroups goes to the next layer |
| Dispatch.EnumeratePhysicalDeviceGroupsIntercepted | layersvt/memory_tracker.cpp:1789-1806 | with the row named correctly, the layer intercepts vkEnumeratePhysicalDeviceGroups under 1.1 |
| Tools.DownstreamTools | layersvt/memory_tracker.cpp:834-862 | the first `k` tools below the layer, `k` of them |
| Tools.DriverToolProperties | layersvt/memory_tracker.cpp:834-862 | the layers below answer the two-call contract: the count without an array; at most the capacity written, VK_INCOMPLETE when some did not fit |
| Tools.ToolPropertiesAsWritten | layersvt/memory_tracker.cpp:834-862 | as written: without an array the count is one more than below; with one, this layer's entry first |
| Tools.ToolProperties | layersvt/memory_tracker.cpp:834-862 | corrected: a fill writes at most the capacity, reports as its count exactly the entries written, and writes this layer's entry first |
| Tools.ToolPropertiesTwoCallContract | layersvt/memory_tracker.cpp:834-862 | corrected: a count query reports one more than below; a fill writes exactly `count` entries within the capacity, this layer's first; VK_INCOMPLETE exactly when not all fitted |
| Tools.ToolPropertiesAgreeOnLargeArrays | layersvt/memory_tracker.cpp:834-862 | the written and corrected versions agree without an array or with room for two or more |
| Tools.CapacityOneOverstatesCount | layersvt/memory_tracker.cpp:845-858 | as written, capacity one writes only this layer's entry yet reports VK_SUCCESS and a count including every tool below |
| Tools.CapacityZeroWritesPastEnd | layersvt/memory_tracker.cpp:845-858 | as written, capacity zero still gets one entry written, past its end, with VK_SUCCESS and the full count |
| Tools.SimulatorToolPropertiesResultAsWritten | layersvt/slow_device_simulator.cpp:717-756 | with the layer enabled, the returned result is never assigned; disabled, it is the layers below's |
| Tools.SimulatorToolProperties | layersvt/slow_device_simulator.cpp:717-756 | corrected: enabled, the memory tracker's corrected answer; disabled, the layers below's answer |
| Tools.SimulatorResultOnlyUndefinedWhenEnabled | layersvt/slow_device_simulator.cpp:717-756 | where the written result is defined, the corrected call returns the same |
| Fences.NewFence | layersvt/slow_device_simulator.cpp:1678-1699 | a new fence record is signalled exactly when created signalled, has the device's delay, no wait started or completed, nothing counted |
| Fences.Reset | layersvt/slow_device_simulator.cpp:1720-1729 | a reset fence is unsignalled, not waited on, count 0, delay kept |
| Fences.Signal | layersvt/slow_device_simulator.cpp:2043-2058 | a delayed fence becomes signalled, a fence timed from its trigger restarts its clock, a fence without delay is unchanged |
| Fences.AdvanceClock | layersvt/slow_device_simulator.cpp:1743-1765 | what each delay type adds to the count on a check: milliseconds since the start for the trigger type, since the start from the second query on for the first-query type, one for failed waits |
| Fences.QueryStatus | layersvt/slow_device_simulator.cpp:1743-1779 | a query marks the wait started and holds the fence back exactly while it is unsignalled or its count is below its delay; a fence let through is marked completed |
| Fences.NumFailWaitsCountsQueries | layersvt/slow_device_simulator.cpp:1762-1764 | in failed-wait mode `k` queries add exactly `k`, and the next query lets the fence through exactly when it is signalled and the count has reached the delay |
| Fences.ResetFenceNotReady | layersvt/slow_device_simulator.cpp:1720-1779 | a fence just reset reports VK_NOT_READY to every query until signalled |
| Fences.TriggerDelayMeasuredFromSignal | layersvt/slow_device_simulator.cpp:1746-1751 | a fence timed from its trigger, signalled at `t`, first lets a query through when `delayCount` milliseconds have passed |
| Fences.FirstQueryStartsClock | layersvt/slow_device_simulator.cpp:1752-1761 | a fence timed from the first query starts its clock at that query and counts nothing for it |
| Fences.MillisecondsTillTimeout | layersvt/slow_device_simulator.cpp:1797 | the remaining timeout is the nanosecond timeout divided by 10^6, as a `uint32_t` |
| Fences.CheckWait | layersvt/slow_device_simulator.cpp:1798-1861 | for a signalled delayed fence: timed out when its delay cannot run out within the timeout, otherwise released after sleeping off what is left; long timeouts never time out a failed-wait fence |
| Fences.TimedFenceReleasedWithinTimeout | layersvt/slow_device_simulator.cpp:1812-1831 | a millisecond-timed fence is released exactly when its delay ends within the remaining timeout |
| Fences.TimedOutScanStops | layersvt/slow_device_simulator.cpp:1851-1861 | once a wait-all scan has returned VK_TIMEOUT the rest of the list changes nothing |
| Fences.WaitScan | layersvt/slow_device_simulator.cpp:1798-1881 | the per-fence loop computes ScanList: new records, fences handed on, and whether wait-all timed out |
| Fences.WaitResult | layersvt/slow_device_simulator.cpp:1862-1881 | VK_TIMEOUT when wait-all timed out, or when fences were given but none is left to hand on; otherwise the driver's answer for those handed on |
| Fences.ScanKeepsOthers | layersvt/slow_device_simulator.cpp:1798-1881 | the scan hands on list positions in order, keeps the set of tracked fences, and leaves fences not in the list alone |
| Fences.WaitAnyNeverTimesOutEarly | layersvt/slow_device_simulator.cpp:1851-1861 | without wait-all the scan never stops early |
| Fences.NothingDelayedReleasesAll | layersvt/slow_device_simulator.cpp:1798-1881 | untracked, undelayed or unsignalled fences are all handed on, and the records do not change |
| Fences.LongTimeoutReleasesCountedFences | layersvt/slow_device_simulator.cpp:1832-1842 | with a timeout of a second or more, failed-wait fences never hold the wait back: the driver sees the whole list |
| Fences.ScanKeepsDelayTypes | layersvt/slow_device_simulator.cpp:1798-1881 | the scan changes no fence's delay type, delay count or signalled state |
| Fences.TimeoutMeansHeldBack | layersvt/slow_device_simulator.cpp:1851-1861 | a wait-all VK_TIMEOUT means some fence was held back; otherwise every unheld fence was handed on |
| SimulatorSettings.ToLower | layersvt/slow_device_simulator.cpp:593 | `::tolower` changes exactly 'A'..'Z', each to its lower case |
| SimulatorSettings.Lowered | layersvt/slow_device_simulator.cpp:593 | the lowered string has the same length and no upper-case letter |
| SimulatorSettings.LoweredFixes | layersvt/slow_device_simulator.cpp:593 | lowering twice is lowering once |
| SimulatorSettings.ParseDelayType | layersvt/slow_device_simulator.cpp:590-601 | each delay type is chosen exactly when the lowered string is its name; any other string means no delay |
| SimulatorSettings.ParseDelayTypeName | layersvt/slow_device_simulator.cpp:590-601 | every delay type is read back from its name, in any case |
| SimulatorSettings.Normalise | layersvt/slow_device_simulator.cpp:589-618 | the count is at least 0, the percent within 1..100, and the layer enabled exactly when there is a delay or the percent is below 100 |
| SimulatorSettings.NormaliseClamps | layersvt/slow_device_simulator.cpp:604-612 | out-of-range counts and percents move to the nearest bound; in-range ones are kept |
| SimulatorSettings.NoSettingsDisable | layersvt/slow_device_simulator.cpp:614-618 | with no settings the layer is disabled, with no delay and 100 percent |
| SimulatorSettings.NormaliseIdempotent | layersvt/slow_device_simulator.cpp:589-618 | normalising already-normal settings gives them back |
| SimulatorSettings.HeapOf | layersvt/slow_device_simulator.cpp:1364 | an allocation is charged to the heap of its memory type, an index below 16 |
| SimulatorSettings.HeapLimit | layersvt/slow_device_simulator.cpp:1365-1375 | the limit is the heap's budget when non-zero, otherwise its size |
| SimulatorSettings.Admits | layersvt/slow_device_simulator.cpp:1362-1377 | the admission test on the `uint64_t` sum: an admitted size is within the heap's limit unless the sum wrapped |
| SimulatorSettings.AdmitsWithinLimit | layersvt/slow_device_simulator.cpp:1362-1377 | without overflow an allocation is admitted exactly when the new total stays within the limit |
| SimulatorSettings.AdmissionSumWraps | layersvt/slow_device_simulator.cpp:1366-1373 | example: the `uint64_t` sum wraps: a size near 2^64 passes the test on a heap already holding bytes |
| SimulatorSettings.Charged | layersvt/slow_device_simulator.cpp:1461-1465 | only the allocation's heap changes, only in `allocated`, which grows by the size (without overflow) |
| SimulatorSettings.Refunded | layersvt/slow_device_simulator.cpp:1480-1487 | only the allocation's heap changes, only in `allocated`, which shrinks by the size (when it held that much) |
| SimulatorSettings.AdmittedStaysWithinLimit | layersvt/slow_device_simulator.cpp:1362-1377 | an admitted allocation that does not overflow leaves its heap's count within the limit, and the limit unchanged |
| SimulatorSettings.WrapU64AddSub | layersvt/slow_device_simulator.cpp:1464 | `uint64_t` subtraction undoes `uint64_t` addition |
| SimulatorSettings.RefundUndoesCharge | layersvt/slow_device_simulator.cpp:1461-1487 | freeing an allocation of the same type and size restores every heap's count, overflow or not |
| SimulatorSettings.ReleasedAsWritten | layersvt/slow_device_simulator.cpp:1480-1487 | as written, the accounting dereferences a null record exactly when the handle is untracked; otherwise it refunds |
| SimulatorSettings.Released | layersvt/slow_device_simulator.cpp:1480-1487 | as intended, a tracked allocation is refunded and anything else leaves the counts alone |
| SimulatorSettings.FreeNullHandleDereferencesNull | layersvt/slow_device_simulator.cpp:1480-1487 | freeing VK_NULL_HANDLE dereferences a null record as written; as intended it changes nothing |
| SimulatorSettings.ReleasedAgreesWhenTracked | layersvt/slow_device_simulator.cpp:1480-1487 | for a tracked allocation the written and intended accounting agree |
| SimulatorSettings.AllocateThenFreeRestores | layersvt/slow_device_simulator.cpp:1461-1487 | allocating and then freeing the same allocation restores every heap's count |
| MemoryTrackerLayer.NewPhysicalDevice | layersvt/memory_tracker.cpp:792-810 | a first-seen physical device gets zeroed properties, no memory properties and no flags |
| MemoryTrackerLayer.AdoptSpec | layersvt/memory_tracker.cpp:792-810 | after an enumeration every reported handle has a record of the instance, the old one with only the instance changed or a new zeroed one; other records are untouched |
| MemoryTrackerLayer.AdoptGroups | layersvt/memory_tracker.cpp:815-829 | the nested loops over the groups written compute the adoption of every physical device of every group, group by group (AdoptSpec over the flattened list) |
| MemoryTrackerLayer.PhysicalDevicesOf | layersvt/memory_tracker.cpp:764-790 | exactly the physical devices recorded for the instance |
| MemoryTrackerLayer.DevicesOn | layersvt/memory_tracker.cpp:764-790 | exactly the devices created on those physical devices |
| MemoryTrackerLayer.WithProps | layersvt/memory_tracker.cpp:1075-1078 | the properties are refreshed only when the recorded name is empty |
| MemoryTrackerLayer.WithExtensions | layersvt/memory_tracker.cpp:934-983 | a fill refreshes empty properties, adds the core flags the instance and the device's version allow and the recognised names' flags, and changes nothing else |
| MemoryTrackerLayer.PreparedForDevice | layersvt/memory_tracker.cpp:1074-1093 | CreateDevice refreshes empty properties and, with no heap known, copies the memory properties, with the budget when the device enabled VK_EXT_memory_budget |
| MemoryTrackerLayer.Rebound | layersvt/memory_tracker.cpp:1514-1519 | a bind marks the device's bindings changed and its physical device's budget stale |
| MemoryTrackerLayer.DestroyInstanceKeepsConsistent | layersvt/memory_tracker.cpp:764-790 | erasing an instance with its physical devices and their devices keeps the tables consistent |
| MemoryTrackerLayer.DestroyDevicesKeepsConsistent | layersvt/memory_tracker.cpp:1100-1114 | erasing devices and descriptors keeps the tables consistent |
| MemoryTrackerLayer.Layer.CreateInstance | layersvt/memory_tracker.cpp:703-762 | no next vkCreateInstance gives VK_ERROR_INITIALIZATION_FAILED and no change; a success records the instance with its core and extension flags; a failure changes nothing |
| MemoryTrackerLayer.Layer.DestroyInstance | layersvt/memory_tracker.cpp:764-790 | the instance, its physical devices, their devices and those devices' descriptors are erased; nothing else changes; below the layer the devices are destroyed and then the instance (corrected, see Findings) |
| MemoryTrackerLayer.Layer.DestroyDevices | layersvt/memory_tracker.cpp:774-780 | the device loop erases exactly those devices and their descriptors |
| MemoryTrackerLayer.Layer.EnumeratePhysicalDevices | layersvt/memory_tracker.cpp:792-810 | a successful fill adopts every handle written (AdoptSpec); a count query or failure changes nothing |
| MemoryTrackerLayer.Layer.EnumeratePhysicalDeviceGroups | layersvt/memory_tracker.cpp:812-832 | the same for every physical device of every group, group by group |
| MemoryTrackerLayer.Layer.GetPhysicalDeviceProperties | layersvt/memory_tracker.cpp:864-880 | with an output the record keeps the driver's properties; nothing else changes |
| MemoryTrackerLayer.Layer.GetPhysicalDeviceMemoryProperties | layersvt/memory_tracker.cpp:903-911 | the copy is CopiedProperties of the driver's answer without a budget |
| MemoryTrackerLayer.Layer.GetPhysicalDeviceMemoryProperties2 | layersvt/memory_tracker.cpp:913-932 | the copy is CopiedProperties with the chain's first budget structure; the budget is marked refreshed exactly when one was found |
| MemoryTrackerLayer.Layer.EnumerateDeviceExtensionProperties | layersvt/memory_tracker.cpp:934-983 | a query naming the layer gets the layer's answer; an unknown device gets VK_ERROR_INITIALIZATION_FAILED; a successful fill leaves WithExtensions; otherwise no change |
| MemoryTrackerLayer.Layer.CreateDevice | layersvt/memory_tracker.cpp:996-1098 | the forwarded list is ForceMemoryBudget's; a success records the device with the forwarded list's flags and leaves PreparedForDevice; a failure changes nothing |
| MemoryTrackerLayer.Layer.DestroyDevice | layersvt/memory_tracker.cpp:1100-1114 | only the device's record and the descriptors it imported are erased |
| MemoryTrackerLayer.Layer.CreateBuffer | layersvt/memory_tracker.cpp:1116-1163 | a success records the buffer with its create info and the reference capture of its chain |
| MemoryTrackerLayer.Layer.DestroyBuffer | layersvt/memory_tracker.cpp:1165-1173 | the buffer's record and all its binding entries go; an untracked buffer changes nothing |
| MemoryTrackerLayer.Layer.CreateImage | layersvt/memory_tracker.cpp:1175-1264 | a success records the image with its create info and the reference capture of its chain |
| MemoryTrackerLayer.Layer.DestroyImage | layersvt/memory_tracker.cpp:1266-1274 | the image's record and all its binding entries go; an untracked image changes nothing |
| MemoryTrackerLayer.Layer.GetBufferMemoryRequirements | layersvt/memory_tracker.cpp:1276-1302 | the buffer's record keeps the reported requirements; nothing else changes |
| MemoryTrackerLayer.Layer.GetImageMemoryRequirements | layersvt/memory_tracker.cpp:1304-1329 | the image's record keeps the reported requirements; nothing else changes |
| MemoryTrackerLayer.Layer.GetMemoryFdProperties | layersvt/memory_tracker.cpp:1355-1370 | a successful query with an output records the descriptor for the device |
| MemoryTrackerLayer.Layer.AllocateMemory | layersvt/memory_tracker.cpp:1390-1475 | a success records the allocation with no bindings and the reference capture of its chain |
| MemoryTrackerLayer.Layer.FreeMemory | layersvt/memory_tracker.cpp:1477-1485 | only the allocation's record goes; buffer and image records stay |
| MemoryTrackerLayer.Layer.BindBufferMemory | layersvt/memory_tracker.cpp:1487-1521 | a successful bind of a non-null buffer leaves Bind's lists (BoundBufferInOneList) and Rebound's flags; otherwise no change |
| MemoryTrackerLayer.Layer.BindImageMemory | layersvt/memory_tracker.cpp:1523-1556 | the same for an image |
| MemoryTrackerLayer.Layer.BindBufferMemory2 | layersvt/memory_tracker.cpp:1558-1596 | a success leaves ApplyBinds' lists (ApplyBindsLastWins) and Rebound's flags |
| MemoryTrackerLayer.Layer.BindImageMemory2 | layersvt/memory_tracker.cpp:1598-1662 | the same for images, each entry carrying its info's chain capture |
| MemoryTrackerLayer.Layer.MarkRebound | layersvt/memory_tracker.cpp:1514-1519 | the state becomes Rebound of the old one |
| MemoryTrackerLayer.Layer.GetDeviceQueue | layersvt/memory_tracker.cpp:1664-1670 | the queue is mapped to the device; nothing else changes |
| MemoryTrackerLayer.Layer.QueueSubmit | layersvt/memory_tracker.cpp:1672-1724 | after a successful submit on a device whose bindings changed, a stale budget is re-copied with the driver's budget and the bindings are marked reported; otherwise no change |
| MemoryTrackerLayer.Layer.GetInstanceProcAddr | layersvt/memory_tracker.cpp:1726-1761 | resolution with the instance's flags when it is known, as with a null instance otherwise |
| MemoryTrackerLayer.Layer.GetDeviceProcAddr | layersvt/memory_tracker.cpp:1844-1863 | resolution with the extensions the device's physical device supports |
| SlowDeviceSimulatorLayer.NewPhysicalDevice | layersvt/slow_device_simulator.cpp:663-687 | a first-seen physical device gets zeroed properties, no flags, and the instance's enable flag and percent |
| SlowDeviceSimulatorLayer.AdoptSpec | layersvt/slow_device_simulator.cpp:663-715 | after an enumeration every reported handle has a record of the instance: the old one with only the instance changed, or a new one with the instance's settings |
| SlowDeviceSimulatorLayer.AdoptGroups | layersvt/slow_device_simulator.cpp:692-712 | the nested loops over the groups written compute the adoption of every physical device of every group, group by group (AdoptSpec over the flattened list) |
| SlowDeviceSimulatorLayer.PhysicalDevicesOf | layersvt/slow_device_simulator.cpp:630-661 | exactly the physical devices recorded for the instance |
| SlowDeviceSimulatorLayer.DevicesOn | layersvt/slow_device_simulator.cpp:630-661 | exactly the devices created on those physical devices |
| SlowDeviceSimulatorLayer.WithProps | layersvt/slow_device_simulator.cpp:1027-1030 | the properties are refreshed only when the recorded name is empty |
| SlowDeviceSimulatorLayer.WithExtensions | layersvt/slow_device_simulator.cpp:856-917 | a fill refreshes empty properties and adds the allowed core flags and the recognised names' flags |
| SlowDeviceSimulatorLayer.WithManaged | layersvt/slow_device_simulator.cpp:787-822 | only the copy and the budget flag change, as ManagedProperties at the device's percent gives them |
| SlowDeviceSimulatorLayer.PreparedForDevice | layersvt/slow_device_simulator.cpp:1026-1044 | nothing changes for a disabled physical device; otherwise empty properties are refreshed and, with no heap known, memory is managed with the budget when VK_EXT_memory_budget is enabled; the budget flag becomes set exactly in that case |
| SlowDeviceSimulatorLayer.Rebound | layersvt/slow_device_simulator.cpp:1524-1529 | a bind marks the device's bindings changed and its physical device's budget stale |
| SlowDeviceSimulatorLayer.ChargedHeap | layersvt/slow_device_simulator.cpp:1363-1364 | the heap checked is one of the copy's heaps, the one of the allocation's memory type |
| SlowDeviceSimulatorLayer.Signalled | layersvt/slow_device_simulator.cpp:2043-2058 | a tracked fence gets Signal's record; untracked fences stay untracked; no other fence changes |
| SlowDeviceSimulatorLayer.SignalAllSpec | layersvt/slow_device_simulator.cpp:2137-2155 | signalling a list signals each tracked non-null fence of it once, however often named, and leaves every other fence alone |
| SlowDeviceSimulatorLayer.ResetAllSpec | layersvt/slow_device_simulator.cpp:1720-1729 | resetting a list resets each tracked fence of it, skips untracked ones, and leaves every other fence alone |
| SlowDeviceSimulatorLayer.ResetFencesHoldBack | layersvt/slow_device_simulator.cpp:1715-1784 | after vkResetFences a delayed fence of the list is not ready at its next query, however long ago it was signalled |
| SlowDeviceSimulatorLayer.DestroyInstanceKeepsConsistent | layersvt/slow_device_simulator.cpp:630-661 | erasing an instance with its physical devices and devices keeps the tables consistent |
| SlowDeviceSimulatorLayer.DestroyDevicesKeepsConsistent | layersvt/slow_device_simulator.cpp:1052-1068 | erasing devices and descriptors keeps the tables consistent |
| SlowDeviceSimulatorLayer.Layer.CreateInstance | layersvt/slow_device_simulator.cpp:525-628 | a success records the instance with its flags and the normalised settings; no next vkCreateInstance gives VK_ERROR_INITIALIZATION_FAILED; a failure changes nothing |
| SlowDeviceSimulatorLayer.Layer.DestroyInstance | layersvt/slow_device_simulator.cpp:630-661 | the instance, its physical devices, their devices and those devices' descriptors are erased; below the layer the devices are destroyed and then the instance (corrected, see Findings) |
| SlowDeviceSimulatorLayer.Layer.DestroyDevices | layersvt/slow_device_simulator.cpp:640-650 | the device loop erases exactly those devices and their descriptors |
| SlowDeviceSimulatorLayer.Layer.EnumeratePhysicalDevices | layersvt/slow_device_simulator.cpp:663-687 | a successful fill adopts every handle written with the instance's settings |
| SlowDeviceSimulatorLayer.Layer.EnumeratePhysicalDeviceGroups | layersvt/slow_device_simulator.cpp:689-715 | the same for every physical device of every group |
| SlowDeviceSimulatorLayer.Layer.GetPhysicalDeviceProperties | layersvt/slow_device_simulator.cpp:758-778 | only for an enabled physical device with an output are the driver's properties kept |
| SlowDeviceSimulatorLayer.Layer.GetPhysicalDeviceMemoryProperties | layersvt/slow_device_simulator.cpp:824-834 | enabled with an output: the application sees the scaled heaps and the copy is managed without a budget; otherwise the driver's answer and no change |
| SlowDeviceSimulatorLayer.Layer.GetPhysicalDeviceMemoryProperties2 | layersvt/slow_device_simulator.cpp:836-854 | the same with the chain's first budget structure scaled and copied |
| SlowDeviceSimulatorLayer.Layer.EnumerateDeviceExtensionProperties | layersvt/slow_device_simulator.cpp:856-917 | as the tracker's, with the flags recorded only for an enabled physical device |
| SlowDeviceSimulatorLayer.Layer.CreateDevice | layersvt/slow_device_simulator.cpp:932-1050 | the forwarded list is ForceMemoryBudget's; a success records the device with the instance's enable flag and fence delay and leaves PreparedForDevice |
| SlowDeviceSimulatorLayer.Layer.DestroyDevice | layersvt/slow_device_simulator.cpp:1052-1068 | enabled or not, only the device's record and its descriptors go |
| SlowDeviceSimulatorLayer.Layer.CreateBuffer | layersvt/slow_device_simulator.cpp:1070-1119 | enabled and successful: the buffer is recorded with its chain's capture; otherwise no change |
| SlowDeviceSimulatorLayer.Layer.DestroyBuffer | layersvt/slow_device_simulator.cpp:1121-1131 | enabled or not, the buffer's record and binding entries go |
| SlowDeviceSimulatorLayer.Layer.CreateImage | layersvt/slow_device_simulator.cpp:1133-1224 | enabled and successful: the image is recorded with its chain's capture |
| SlowDeviceSimulatorLayer.Layer.DestroyImage | layersvt/slow_device_simulator.cpp:1226-1236 | enabled or not, the image's record and binding entries go |
| SlowDeviceSimulatorLayer.Layer.GetBufferMemoryRequirements | layersvt/slow_device_simulator.cpp:1238-1274 | enabled: the buffer's record keeps the requirements |
| SlowDeviceSimulatorLayer.Layer.GetImageMemoryRequirements | layersvt/slow_device_simulator.cpp:1276-1311 | enabled: the image's record keeps the requirements |
| SlowDeviceSimulatorLayer.Layer.GetMemoryFdProperties | layersvt/slow_device_simulator.cpp:1313-1329 | enabled, successful, with an output: the descriptor is recorded |
| SlowDeviceSimulatorLayer.Layer.AllocateMemory | layersvt/slow_device_simulator.cpp:1352-1471 | limited and not admitted: VK_ERROR_OUT_OF_DEVICE_MEMORY without calling down and no change; otherwise the driver's result, and when enabled and successful the allocation is recorded and, when limited, charged to its heap |
| SlowDeviceSimulatorLayer.Layer.FreeMemory | layersvt/slow_device_simulator.cpp:1473-1493 | enabled: the allocation's record goes and, when limited, its heap is refunded (Released) |
| SlowDeviceSimulatorLayer.Layer.BindBufferMemory | layersvt/slow_device_simulator.cpp:1495-1531 | enabled, successful, non-null buffer: Bind's lists and Rebound's flags |
| SlowDeviceSimulatorLayer.Layer.BindImageMemory | layersvt/slow_device_simulator.cpp:1533-1568 | the same for an image |
| SlowDeviceSimulatorLayer.Layer.BindBufferMemory2 | layersvt/slow_device_simulator.cpp:1570-1610 | enabled and successful: ApplyBinds' lists and Rebound's flags |
| SlowDeviceSimulatorLayer.Layer.BindImageMemory2 | layersvt/slow_device_simulator.cpp:1612-1676 | the same for images |
| SlowDeviceSimulatorLayer.Layer.CreateFence | layersvt/slow_device_simulator.cpp:1678-1699 | enabled and successful: NewFence with the signalled bit and the device's delay |
| SlowDeviceSimulatorLayer.Layer.RegisterEvent | layersvt/slow_device_simulator.cpp:1947-1994 | enabled and successful: an unsignalled NewFence with the device's delay |
| SlowDeviceSimulatorLayer.Layer.DestroyFence | layersvt/slow_device_simulator.cpp:1701-1713 | enabled: the fence's record goes |
| SlowDeviceSimulatorLayer.Layer.ResetFences | layersvt/slow_device_simulator.cpp:1715-1735 | enabled: every tracked fence of the list is reset (ResetAll); the driver's answer is returned either way |
| SlowDeviceSimulatorLayer.Layer.GetFenceStatus | layersvt/slow_device_simulator.cpp:1737-1784 | enabled with a tracked delayed fence: QueryStatus's record, and VK_NOT_READY while held back; otherwise the driver's answer and no change |
| SlowDeviceSimulatorLayer.Layer.WaitForFences | layersvt/slow_device_simulator.cpp:1786-1887 | enabled: ScanList's records and WaitResult's result; disabled: the driver's answer for the whole list |
| SlowDeviceSimulatorLayer.Layer.AcquireNextImage | layersvt/slow_device_simulator.cpp:1889-1945 | enabled with a non-null fence: the fence is signalled before forwarding |
| SlowDeviceSimulatorLayer.Layer.GetDeviceQueue | layersvt/slow_device_simulator.cpp:1996-2004 | the queue is mapped to its device |
| SlowDeviceSimulatorLayer.Layer.QueueBindSparse | layersvt/slow_device_simulator.cpp:2006-2034 | enabled for the queue's device with a non-null fence: the fence is signalled |
| SlowDeviceSimulatorLayer.Layer.QueueSubmit | layersvt/slow_device_simulator.cpp:2036-2122 | enabled and successful: the fence is signalled; changed bindings re-manage a stale budget of an enabled physical device and are marked reported |
| SlowDeviceSimulatorLayer.Layer.QueuePresent | layersvt/slow_device_simulator.cpp:2124-2164 | enabled, successful, with VK_EXT_swapchain_maintenance1: every fence of the present-fence structures is signalled (SignalAll) |
| SlowDeviceSimulatorLayer.Layer.GetInstanceProcAddr | layersvt/slow_device_simulator.cpp:2166-2201 | resolution with the instance's flags when it is known |
| SlowDeviceSimulatorLayer.Layer.GetDeviceProcAddr | layersvt/slow_device_simulator.cpp:2284-2303 | resolution with the device's physical device's extensions |

## Left out

- Logging, DumpMemory and every log message: diagnostic text only.
- Loader plumbing (the chain info, link advancing, dispatch-table initialisation, layer-properties helpers): foreign library calls, replaced by the driver-answer parameters.
- Mutexes and lock ordering: the model is one sequence of calls on one thread.
- Wall-clock time and `sleep_for`: a clock reading in milliseconds is a parameter, and the sleep is not modelled. The millisecond-from-trigger count re-adds the whole time since the start on each query, as the code does.
- SlowDeviceSimulatorLayer.Layer.QueuePresent: one clock reading serves every fence of one present.
- MemoryProperties.Scaled: AdjustMemoryByPercent is double arithmetic; it is the parameter `scale`, and no property of it is assumed.
- `memory_priority` in the allocation chain: a float, not captured.
- Settings retrieval (the layer-settings library): the three raw values are parameters, and only the normalisation is modelled.
- The Android paths (hardware-buffer map, external format) are not part of this model.
- `operator[]` on a missing key inserts a null entry into the table. The model reads missing keys as absent, so those null entries are never created. The null dereference this causes in FreeMemory is listed under Findings.
- A null `pAllocateInfo` or `pCreateInfo`: the Vulkan API forbids it, so the model always has one.
- vkEnumerateInstanceLayerProperties, vkEnumerateInstanceExtensionProperties, vkEnumerateDeviceLayerProperties, vkGetPhysicalDeviceExternalBufferProperties, vkGetDeviceBufferMemoryRequirements, vkGetDeviceImageMemoryRequirements, vkGetImageSparseMemoryRequirements: pure pass-through or layer-property boilerplate, with no table update.
- MemoryTrackerLayer.Layer.DestroyInstance, SlowDeviceSimulatorLayer.Layer.DestroyInstance: the device loop calls DestroyDevice, which erases the element under the loop's iterator, and the loop then compares that invalid iterator. Only the intended set-level effect is modelled; the order the device map is walked in is the parameter `order`.
- Chain.SearchBudget, Chain.PresentFences: the layers use the advancing searches; the non-advancing loops as written are shown to hang (see Findings).
- Dispatch: the layers resolve names with the corrected newer-core row; the misspelt row is shown under Findings.
- Records are held by value in the maps, so pointer aliasing between records is not modelled. The code never shares a record between two keys.

## Findings

| source | as written | input that shows it | evidently intended | confidence | as-written member | corrected member |
|---|---|---|---|---|---|---|
| layersvt/memory_tracker.cpp:921-926 | the budget-structure search sets the cursor back to the first structure instead of advancing | a memory-properties chain whose budget structure is second | advance to `next_chain->pNext` | high, not executed | Chain.BudgetSearchAsWrittenHangs | Chain.SearchBudget |
| layersvt/slow_device_simulator.cpp:845-850 | the same search in the simulator | the same chain | advance to the next structure | high, not executed | Chain.BudgetSearchAsWrittenHangs | Chain.SearchBudget |
| layersvt/slow_device_simulator.cpp:2157 | the present-chain loop sets the cursor to the first structure on every iteration | any present chain with one structure | advance to `cur_struct->pNext` | high, not executed | Chain.PresentFencesAsWrittenHangs | Chain.PresentFences |
| layersvt/memory_tracker.cpp:1795 | the newer-core row is named "vkEnumeratePhysicalDeviceGroups2", a command that does not exist | vkGetInstanceProcAddr("vkEnumeratePhysicalDeviceGroups") on a Vulkan 1.1 instance without the device-group extension | the row named "vkEnumeratePhysicalDeviceGroups" | high, not executed | Dispatch.EnumeratePhysicalDeviceGroupsBypassed | Dispatch.EnumeratePhysicalDeviceGroupsIntercepted |
| layersvt/slow_device_simulator.cpp:2235 | the same misspelt newer-core row in the simulator | vkGetInstanceProcAddr("vkEnumeratePhysicalDeviceGroups") on a Vulkan 1.1 instance without the device-group extension | the row named "vkEnumeratePhysicalDeviceGroups" | high, not executed | Dispatch.EnumeratePhysicalDeviceGroupsBypassed | Dispatch.EnumeratePhysicalDeviceGroupsIntercepted |
| layersvt/slow_device_simulator.cpp:1480-1487 | FreeMemory reads the memory record of a handle it may not track | vkFreeMemory(device, VK_NULL_HANDLE) with memory percent below 100 | leave the counts alone for an untracked handle | high, not executed | SimulatorSettings.FreeNullHandleDereferencesNull | SimulatorSettings.Released |
| layersvt/memory_tracker.cpp:845-858 | the array is handed on only when the caller's count is above one, tested before the decrement | capacity 1: VK_SUCCESS with a count that includes every tool below | hand on the rest of the array whenever there is room, and report VK_INCOMPLETE when not all fit | medium, not executed | Tools.CapacityOneOverstatesCount | Tools.ToolPropertiesTwoCallContract |
| layersvt/memory_tracker.cpp:845-858 | this layer's entry is written even into an array of capacity 0 | capacity 0 with an array | write nothing and report VK_INCOMPLETE | medium, not executed | Tools.CapacityZeroWritesPastEnd | Tools.ToolPropertiesTwoCallContract |
| layersvt/slow_device_simulator.cpp:717-756 | an inner `VkResult result` shadows the returned one when the layer is enabled | any call with the layer enabled | return the inner call's result | high, not executed | Tools.SimulatorResultOnlyUndefinedWhenEnabled | Tools.SimulatorToolProperties |
| layersvt/memory_tracker.cpp:764-787 | vkDestroyInstance erases the layer's records and destroys the instance's devices below the layer, but never calls the next layer's vkDestroyInstance | any vkDestroyInstance: the driver's instance stays alive | call the next layer's vkDestroyInstance after the devices | high, not executed | Teardown.DestroyInstanceLeavesInstanceAlive | Teardown.DestroyInstanceReleasesInstance |
| layersvt/slow_device_simulator.cpp:630-659 | the same in the simulator | any vkDestroyInstance | the same | high, not executed | Teardown.DestroyInstanceLeavesInstanceAlive | Teardown.DestroyInstanceReleasesInstance |
