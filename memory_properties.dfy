// The layers' copy of a physical device's memory properties: the memory
// types and heaps the driver reports, each heap extended with the usage and
// budget of VK_EXT_memory_budget and, in the slow device simulator, the
// number of bytes the application has allocated from it.

module MemoryProperties {
  import opened Vk
  import opened Chain

  /** VkMemoryType. */
  datatype MemoryType = MemoryType(propertyFlags: u32, heapIndex: u32)

  /** VkMemoryHeap. */
  datatype MemoryHeap = MemoryHeap(size: u64, flags: u32)

  /** VkPhysicalDeviceMemoryProperties: fixed-size arrays whose first `count` entries are meaningful. */
  datatype DeviceMemoryProperties = DeviceMemoryProperties(
    memoryTypeCount: u32,
    memoryTypes: seq<MemoryType>,
    memoryHeapCount: u32,
    memoryHeaps: seq<MemoryHeap>)

  predicate WellFormedProperties(p: DeviceMemoryProperties)
  {
    && |p.memoryTypes| == VK_MAX_MEMORY_TYPES && p.memoryTypeCount <= VK_MAX_MEMORY_TYPES
    && |p.memoryHeaps| == VK_MAX_MEMORY_HEAPS && p.memoryHeapCount <= VK_MAX_MEMORY_HEAPS
  }

  /** VkPhysicalDeviceMemoryBudgetPropertiesEXT: one usage and one budget per heap. */
  datatype BudgetProperties = BudgetProperties(heapUsage: seq<u64>, heapBudget: seq<u64>)

  predicate WellFormedBudget(b: BudgetProperties)
  {
    |b.heapUsage| == VK_MAX_MEMORY_HEAPS && |b.heapBudget| == VK_MAX_MEMORY_HEAPS
  }

  predicate WellFormedOptionalBudget(b: Option<BudgetProperties>)
  {
    b.Some? ==> WellFormedBudget(b.value)
  }

  /** Every budget structure in an output chain has one entry per possible heap. */
  predicate BudgetChainWellFormed(chain: seq<ChainStruct>)
  {
    forall i | 0 <= i < |chain| && chain[i].MemoryBudgetProperties? ::
      |chain[i].heapUsage| == VK_MAX_MEMORY_HEAPS && |chain[i].heapBudget| == VK_MAX_MEMORY_HEAPS
  }

  /** The budget structure GetPhysicalDeviceMemoryProperties2 copies from: the first in the chain, if any. */
  function BudgetIn(chain: seq<ChainStruct>): (r: Option<BudgetProperties>)
    requires BudgetChainWellFormed(chain)
    ensures WellFormedOptionalBudget(r)
    ensures r.Some? <==> exists i :: 0 <= i < |chain| && chain[i].MemoryBudgetProperties?
  {
    match FindBudget(chain)
    case None => None
    case Some(i) => Some(BudgetProperties(chain[i].heapUsage, chain[i].heapBudget))
  }

  /** MemoryHeapWithBudget (the memory tracker's version has no `allocated`, which stays 0 there). */
  datatype HeapWithBudget = HeapWithBudget(size: u64, allocatedBytes: u64, budget: u64, usage: u64, flags: u32)

  /** PhysicalDeviceMemoryBudgetProperties, the layer's own copy. */
  datatype LocalMemoryProperties = LocalMemoryProperties(
    memoryTypeCount: u32,
    memoryTypes: seq<MemoryType>,
    memoryHeapCount: u32,
    memoryHeaps: seq<HeapWithBudget>)

  predicate WellFormedLocal(l: LocalMemoryProperties)
  {
    |l.memoryTypes| == VK_MAX_MEMORY_TYPES && |l.memoryHeaps| == VK_MAX_MEMORY_HEAPS
  }

  /** A physical-device record's copy before any query: no types, no heaps. */
  function NoMemoryProperties(): (r: LocalMemoryProperties)
    ensures WellFormedLocal(r) && r.memoryTypeCount == 0 && r.memoryHeapCount == 0
  {
    LocalMemoryProperties(
      0, seq(VK_MAX_MEMORY_TYPES, _ => MemoryType(0, 0)),
      0, seq(VK_MAX_MEMORY_HEAPS, _ => HeapWithBudget(0, 0, 0, 0, 0)))
  }

  /** The usage the budget structure reports for heap `i`, or 0 without one. */
  function UsageOf(budget: Option<BudgetProperties>, i: nat): (r: u64)
    requires WellFormedOptionalBudget(budget) && i < VK_MAX_MEMORY_HEAPS
    ensures budget.None? ==> r == 0
    ensures budget.Some? ==> r == budget.value.heapUsage[i]
  {
    match budget
    case None => 0
    case Some(b) => b.heapUsage[i]
  }

  /** The budget the budget structure reports for heap `i`, or 0 without one. */
  function BudgetOf(budget: Option<BudgetProperties>, i: nat): (r: u64)
    requires WellFormedOptionalBudget(budget) && i < VK_MAX_MEMORY_HEAPS
    ensures budget.None? ==> r == 0
    ensures budget.Some? ==> r == budget.value.heapBudget[i]
  {
    match budget
    case None => 0
    case Some(b) => b.heapBudget[i]
  }

  /**
   * The layer's copy after CopyMemoryProperties: the counts, every memory
   * type below the type count and the size and flags of every heap below the
   * heap count come from the driver; usage and budget come from the budget
   * structure, or are 0 without one; all entries past the counts, and every
   * heap's `allocated` count, keep their values.
   */
  function CopiedProperties(vulkan: DeviceMemoryProperties, local: LocalMemoryProperties, budget: Option<BudgetProperties>)
    : (r: LocalMemoryProperties)
    requires WellFormedProperties(vulkan) && WellFormedLocal(local) && WellFormedOptionalBudget(budget)
    ensures WellFormedLocal(r)
    ensures r.memoryTypeCount == vulkan.memoryTypeCount && r.memoryHeapCount == vulkan.memoryHeapCount
  {
    LocalMemoryProperties(
      vulkan.memoryTypeCount,
      seq(VK_MAX_MEMORY_TYPES, i requires 0 <= i < VK_MAX_MEMORY_TYPES =>
        if i < vulkan.memoryTypeCount as int then vulkan.memoryTypes[i] else local.memoryTypes[i]),
      vulkan.memoryHeapCount,
      seq(VK_MAX_MEMORY_HEAPS, i requires 0 <= i < VK_MAX_MEMORY_HEAPS =>
        if i < vulkan.memoryHeapCount as int
        then HeapWithBudget(vulkan.memoryHeaps[i].size, local.memoryHeaps[i].allocatedBytes,
                            BudgetOf(budget, i), UsageOf(budget, i), vulkan.memoryHeaps[i].flags)
        else local.memoryHeaps[i]))
  }

  /** A copy never touches the simulator's per-heap `allocated` counts. */
  lemma CopyKeepsAllocated(vulkan: DeviceMemoryProperties, local: LocalMemoryProperties, budget: Option<BudgetProperties>)
    requires WellFormedProperties(vulkan) && WellFormedLocal(local) && WellFormedOptionalBudget(budget)
    ensures forall i | 0 <= i < VK_MAX_MEMORY_HEAPS ::
      CopiedProperties(vulkan, local, budget).memoryHeaps[i].allocatedBytes == local.memoryHeaps[i].allocatedBytes
  {
  }

  /** Copying the same driver answer a second time changes nothing. */
  lemma CopyIdempotent(vulkan: DeviceMemoryProperties, local: LocalMemoryProperties, budget: Option<BudgetProperties>)
    requires WellFormedProperties(vulkan) && WellFormedLocal(local) && WellFormedOptionalBudget(budget)
    ensures var once := CopiedProperties(vulkan, local, budget);
      CopiedProperties(vulkan, once, budget) == once
  {
    var once := CopiedProperties(vulkan, local, budget);
    var twice := CopiedProperties(vulkan, once, budget);
    assert twice.memoryTypes == once.memoryTypes;
    assert twice.memoryHeaps == once.memoryHeaps;
  }

  /** The loops of CopyMemoryProperties, which write the layer's copy field by field. */
  method CopyMemoryProperties(vulkan: DeviceMemoryProperties, local: LocalMemoryProperties, budget: Option<BudgetProperties>)
    returns (r: LocalMemoryProperties)
    requires WellFormedProperties(vulkan) && WellFormedLocal(local) && WellFormedOptionalBudget(budget)
    ensures r == CopiedProperties(vulkan, local, budget)
  {
    r := local.(memoryTypeCount := vulkan.memoryTypeCount);
    var t: nat := 0;
    while t < vulkan.memoryTypeCount as nat
      invariant t <= vulkan.memoryTypeCount as nat
      invariant |r.memoryTypes| == VK_MAX_MEMORY_TYPES
      invariant r.memoryTypeCount == vulkan.memoryTypeCount && r.memoryHeaps == local.memoryHeaps
      invariant forall i | 0 <= i < VK_MAX_MEMORY_TYPES ::
        r.memoryTypes[i] == if i < t then vulkan.memoryTypes[i] else local.memoryTypes[i]
    {
      var ty := vulkan.memoryTypes[t];
      r := r.(memoryTypes := r.memoryTypes[t := MemoryType(ty.propertyFlags, ty.heapIndex)]);
      t := t + 1;
    }
    r := r.(memoryHeapCount := vulkan.memoryHeapCount);
    var h: nat := 0;
    while h < vulkan.memoryHeapCount as nat
      invariant h <= vulkan.memoryHeapCount as nat
      invariant |r.memoryHeaps| == VK_MAX_MEMORY_HEAPS && |r.memoryTypes| == VK_MAX_MEMORY_TYPES
      invariant r.memoryTypeCount == vulkan.memoryTypeCount && r.memoryHeapCount == vulkan.memoryHeapCount
      invariant forall i | 0 <= i < VK_MAX_MEMORY_TYPES ::
        r.memoryTypes[i] == if i < vulkan.memoryTypeCount as int then vulkan.memoryTypes[i] else local.memoryTypes[i]
      invariant forall i | 0 <= i < h ::
        r.memoryHeaps[i] == HeapWithBudget(vulkan.memoryHeaps[i].size, local.memoryHeaps[i].allocatedBytes,
                                           BudgetOf(budget, i), UsageOf(budget, i), vulkan.memoryHeaps[i].flags)
      invariant forall i | h <= i < VK_MAX_MEMORY_HEAPS :: r.memoryHeaps[i] == local.memoryHeaps[i]
    {
      var heap := r.memoryHeaps[h].(size := vulkan.memoryHeaps[h].size, flags := vulkan.memoryHeaps[h].flags);
      match budget {
        case Some(b) =>
          heap := heap.(usage := b.heapUsage[h], budget := b.heapBudget[h]);
        case None =>
          heap := heap.(usage := 0, budget := 0);
      }
      r := r.(memoryHeaps := r.memoryHeaps[h := heap]);
      h := h + 1;
    }
    var expected := CopiedProperties(vulkan, local, budget);
    assert r.memoryTypes == expected.memoryTypes && r.memoryHeaps == expected.memoryHeaps;
  }

  /** What the application sees after the simulator's adjustment, and the simulator's new copy. */
  datatype Managed = Managed(
    visible: DeviceMemoryProperties,
    visibleBudget: Option<BudgetProperties>,
    local: LocalMemoryProperties,
    budgetUpdated: bool)

  /** A heap size or usage after scaling, below 100 percent; unchanged otherwise. */
  function Scaled(scale: (u64, nat) -> u64, percent: int, x: u64): (r: u64)
    ensures percent >= 100 ==> r == x
  {
    if percent < 100 && percent >= 0 then scale(x, percent as nat) else x
  }

  /**
   * The driver's answer as the application sees it after the adjustment:
   * below 100 percent every heap size below the heap count is scaled;
   * everything else is the driver's.
   */
  function ScaledHeaps(vulkan: DeviceMemoryProperties, percent: int, scale: (u64, nat) -> u64): (r: DeviceMemoryProperties)
    requires WellFormedProperties(vulkan)
    ensures WellFormedProperties(r)
    ensures r.memoryTypeCount == vulkan.memoryTypeCount && r.memoryTypes == vulkan.memoryTypes
    ensures r.memoryHeapCount == vulkan.memoryHeapCount
    ensures forall i | 0 <= i < VK_MAX_MEMORY_HEAPS ::
      r.memoryHeaps[i] == if i < vulkan.memoryHeapCount as int
        then vulkan.memoryHeaps[i].(size := Scaled(scale, percent, vulkan.memoryHeaps[i].size))
        else vulkan.memoryHeaps[i]
    ensures percent >= 100 ==> r == vulkan
  {
    var heaps := seq(VK_MAX_MEMORY_HEAPS, i requires 0 <= i < VK_MAX_MEMORY_HEAPS =>
      if i < vulkan.memoryHeapCount as int
      then vulkan.memoryHeaps[i].(size := Scaled(scale, percent, vulkan.memoryHeaps[i].size))
      else vulkan.memoryHeaps[i]);
    assert percent >= 100 ==> heaps == vulkan.memoryHeaps;
    vulkan.(memoryHeaps := heaps)
  }

  /**
   * The budget structure as the application sees it after the adjustment:
   * below 100 percent the usage of every heap below the heap count is
   * scaled; the budgets are the driver's.
   */
  function ScaledUsage(budget: Option<BudgetProperties>, heapCount: u32, percent: int, scale: (u64, nat) -> u64)
    : (r: Option<BudgetProperties>)
    requires WellFormedOptionalBudget(budget)
    ensures WellFormedOptionalBudget(r) && (r.Some? <==> budget.Some?)
    ensures budget.Some? ==> r.value.heapBudget == budget.value.heapBudget
    ensures budget.Some? ==> forall i | 0 <= i < VK_MAX_MEMORY_HEAPS ::
      r.value.heapUsage[i] == if i < heapCount as int
        then Scaled(scale, percent, budget.value.heapUsage[i])
        else budget.value.heapUsage[i]
    ensures percent >= 100 ==> r == budget
  {
    match budget
    case None => None
    case Some(b) =>
      var usage := seq(VK_MAX_MEMORY_HEAPS, i requires 0 <= i < VK_MAX_MEMORY_HEAPS =>
        if i < heapCount as int then Scaled(scale, percent, b.heapUsage[i]) else b.heapUsage[i]);
      assert percent >= 100 ==> usage == b.heapUsage;
      Some(b.(heapUsage := usage))
  }

  /**
   * What ManageMemoryProperties leaves behind: the adjusted answers, the
   * copy made from them as CopyMemoryProperties makes it, and the budget
   * marked as refreshed when a budget structure was passed and at least one
   * heap exists.
   */
  function ManagedProperties(vulkan: DeviceMemoryProperties, local: LocalMemoryProperties, budget: Option<BudgetProperties>,
                             percent: int, scale: (u64, nat) -> u64, budgetUpdated: bool): (r: Managed)
    requires WellFormedProperties(vulkan) && WellFormedLocal(local) && WellFormedOptionalBudget(budget)
    ensures WellFormedProperties(r.visible) && WellFormedLocal(r.local) && WellFormedOptionalBudget(r.visibleBudget)
    ensures r.local.memoryHeapCount == vulkan.memoryHeapCount && r.local.memoryTypeCount == vulkan.memoryTypeCount
    ensures r.budgetUpdated <==> budgetUpdated || (budget.Some? && vulkan.memoryHeapCount > 0)
  {
    var visible := ScaledHeaps(vulkan, percent, scale);
    var visibleBudget := ScaledUsage(budget, vulkan.memoryHeapCount, percent, scale);
    Managed(visible, visibleBudget, CopiedProperties(visible, local, visibleBudget),
            budgetUpdated || (budget.Some? && vulkan.memoryHeapCount > 0))
  }

  /** At 100 percent the simulator's management is the memory tracker's plain copy. */
  lemma FullPercentIsPlainCopy(vulkan: DeviceMemoryProperties, local: LocalMemoryProperties, budget: Option<BudgetProperties>,
                               scale: (u64, nat) -> u64, budgetUpdated: bool)
    requires WellFormedProperties(vulkan) && WellFormedLocal(local) && WellFormedOptionalBudget(budget)
    ensures var m := ManagedProperties(vulkan, local, budget, 100, scale, budgetUpdated);
      m.visible == vulkan && m.visibleBudget == budget && m.local == CopiedProperties(vulkan, local, budget)
  {
  }

  /** Management never touches the per-heap `allocated` counts, whatever the percent. */
  lemma ManagedKeepsAllocated(vulkan: DeviceMemoryProperties, local: LocalMemoryProperties, budget: Option<BudgetProperties>,
                              percent: int, scale: (u64, nat) -> u64, budgetUpdated: bool)
    requires WellFormedProperties(vulkan) && WellFormedLocal(local) && WellFormedOptionalBudget(budget)
    ensures forall i | 0 <= i < VK_MAX_MEMORY_HEAPS ::
      ManagedProperties(vulkan, local, budget, percent, scale, budgetUpdated).local.memoryHeaps[i].allocatedBytes
        == local.memoryHeaps[i].allocatedBytes
  {
    var m := ManagedProperties(vulkan, local, budget, percent, scale, budgetUpdated);
    CopyKeepsAllocated(m.visible, local, m.visibleBudget);
  }

  /**
   * ManageMemoryProperties: below 100 percent, each heap size the driver
   * reports and each heap usage of the budget structure is scaled in the
   * application's structures before the copy is made (see
   * ManagedProperties). `scale` stands for AdjustMemoryByPercent, which
   * works in floating point.
   */
  method ManageMemoryProperties(vulkan: DeviceMemoryProperties, local: LocalMemoryProperties, budget: Option<BudgetProperties>,
                                percent: int, scale: (u64, nat) -> u64, budgetUpdated: bool)
    returns (r: Managed)
    requires WellFormedProperties(vulkan) && WellFormedLocal(local) && WellFormedOptionalBudget(budget)
    ensures r == ManagedProperties(vulkan, local, budget, percent, scale, budgetUpdated)
  {
    var l := local.(memoryTypeCount := vulkan.memoryTypeCount);
    var t: nat := 0;
    while t < vulkan.memoryTypeCount as nat
      invariant t <= vulkan.memoryTypeCount as nat
      invariant |l.memoryTypes| == VK_MAX_MEMORY_TYPES
      invariant l.memoryTypeCount == vulkan.memoryTypeCount && l.memoryHeaps == local.memoryHeaps
      invariant forall i | 0 <= i < VK_MAX_MEMORY_TYPES ::
        l.memoryTypes[i] == if i < t then vulkan.memoryTypes[i] else local.memoryTypes[i]
    {
      var ty := vulkan.memoryTypes[t];
      l := l.(memoryTypes := l.memoryTypes[t := MemoryType(ty.propertyFlags, ty.heapIndex)]);
      t := t + 1;
    }
    l := l.(memoryHeapCount := vulkan.memoryHeapCount);
    var v := vulkan;
    var vb := budget;
    var updated := budgetUpdated;
    var h: nat := 0;
    while h < vulkan.memoryHeapCount as nat
      invariant h <= vulkan.memoryHeapCount as nat
      invariant WellFormedProperties(v) && WellFormedOptionalBudget(vb)
      invariant |l.memoryHeaps| == VK_MAX_MEMORY_HEAPS && |l.memoryTypes| == VK_MAX_MEMORY_TYPES
      invariant l.memoryTypeCount == vulkan.memoryTypeCount && l.memoryHeapCount == vulkan.memoryHeapCount
      invariant forall i | 0 <= i < VK_MAX_MEMORY_TYPES ::
        l.memoryTypes[i] == if i < vulkan.memoryTypeCount as int then vulkan.memoryTypes[i] else local.memoryTypes[i]
      invariant v.memoryTypeCount == vulkan.memoryTypeCount && v.memoryTypes == vulkan.memoryTypes
      invariant v.memoryHeapCount == vulkan.memoryHeapCount
      invariant forall i | 0 <= i < VK_MAX_MEMORY_HEAPS ::
        v.memoryHeaps[i] == if i < h then vulkan.memoryHeaps[i].(size := Scaled(scale, percent, vulkan.memoryHeaps[i].size))
          else vulkan.memoryHeaps[i]
      invariant vb.Some? <==> budget.Some?
      invariant budget.Some? ==> vb.value.heapBudget == budget.value.heapBudget
      invariant budget.Some? ==> forall i | 0 <= i < VK_MAX_MEMORY_HEAPS ::
        vb.value.heapUsage[i] == if i < h then Scaled(scale, percent, budget.value.heapUsage[i]) else budget.value.heapUsage[i]
      invariant forall i | 0 <= i < h ::
        l.memoryHeaps[i] == HeapWithBudget(v.memoryHeaps[i].size, local.memoryHeaps[i].allocatedBytes,
                                           BudgetOf(vb, i), UsageOf(vb, i), vulkan.memoryHeaps[i].flags)
      invariant forall i | h <= i < VK_MAX_MEMORY_HEAPS :: l.memoryHeaps[i] == local.memoryHeaps[i]
      invariant updated == (budgetUpdated || (budget.Some? && h > 0))
    {
      if percent < 100 {
        v := v.(memoryHeaps := v.memoryHeaps[h := v.memoryHeaps[h].(size := Scaled(scale, percent, v.memoryHeaps[h].size))]);
        if vb.Some? {
          vb := Some(vb.value.(heapUsage := vb.value.heapUsage[h := Scaled(scale, percent, vb.value.heapUsage[h])]));
        }
      }
      var heap := l.memoryHeaps[h].(size := v.memoryHeaps[h].size, flags := v.memoryHeaps[h].flags);
      match vb {
        case Some(b) =>
          heap := heap.(usage := b.heapUsage[h], budget := b.heapBudget[h]);
          updated := true;
        case None =>
          heap := heap.(usage := 0, budget := 0);
      }
      l := l.(memoryHeaps := l.memoryHeaps[h := heap]);
      h := h + 1;
    }
    assert v.memoryHeaps == ScaledHeaps(vulkan, percent, scale).memoryHeaps;
    assert v == ScaledHeaps(vulkan, percent, scale);
    assert vb.Some? ==> vb.value.heapUsage == ScaledUsage(budget, vulkan.memoryHeapCount, percent, scale).value.heapUsage;
    assert vb == ScaledUsage(budget, vulkan.memoryHeapCount, percent, scale);
    var expected := CopiedProperties(v, local, vb);
    assert l.memoryTypes == expected.memoryTypes && l.memoryHeaps == expected.memoryHeaps;
    r := Managed(v, vb, l, updated);
  }
}
