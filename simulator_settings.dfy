// The slow device simulator's settings and memory-budget arithmetic: how the
// raw layer settings are normalised when an instance is created, the test
// vkAllocateMemory applies before it lets an allocation through below 100
// percent, and the per-heap count of allocated bytes that allocating and
// freeing keep.

module SimulatorSettings {
  import opened Vk
  import opened Fences
  import opened MemoryProperties
  import opened Registry

  // ---------------------------------------------------------------------
  // Settings

  /** ::tolower on one character in the "C" locale: only 'A'..'Z' change. */
  function ToLower(c: char): (r: char)
    ensures !('A' <= r <= 'Z')
    ensures 'a' <= c <= 'z' || !('A' <= c <= 'Z') ==> r == c
  {
    if 'A' <= c <= 'Z' then (c as int + 32) as char else c
  }

  /** The setting string after the std::transform to lower case. */
  function Lowered(s: string): (r: string)
    ensures |r| == |s|
    ensures forall i | 0 <= i < |s| :: r[i] == ToLower(s[i])
  {
    seq(|s|, i requires 0 <= i < |s| => ToLower(s[i]))
  }

  /** A string without upper-case letters is its own lower case, so lowering twice is lowering once. */
  lemma LoweredFixes(s: string)
    requires forall i | 0 <= i < |s| :: !('A' <= s[i] <= 'Z')
    ensures Lowered(s) == s
  {
  }

  const MS_FROM_TRIGGER: string := "ms_from_trigger"
  const MS_FROM_FIRST_QUERY: string := "ms_from_first_query"
  const NUM_FAIL_WAITS: string := "num_fail_waits"

  /** The fence_delay_type setting: one of three names, in any case; anything else means no delay. */
  function ParseDelayType(value: string): (r: DelayType)
    ensures r == MsFromTrigger <==> Lowered(value) == MS_FROM_TRIGGER
    ensures r == MsFromFirstQuery <==> Lowered(value) == MS_FROM_FIRST_QUERY
    ensures r == NumFailWaits <==> Lowered(value) == NUM_FAIL_WAITS
  {
    var v := Lowered(value);
    if v == MS_FROM_TRIGGER then MsFromTrigger
    else if v == MS_FROM_FIRST_QUERY then MsFromFirstQuery
    else if v == NUM_FAIL_WAITS then NumFailWaits
    else DelayNone
  }

  /** The setting name of each delay type ("none" is not a name the layer knows, so it reads as no delay). */
  function DelayTypeName(t: DelayType): string
  {
    match t
    case DelayNone => "none"
    case MsFromTrigger => MS_FROM_TRIGGER
    case MsFromFirstQuery => MS_FROM_FIRST_QUERY
    case NumFailWaits => NUM_FAIL_WAITS
  }

  /** Every delay type is read back from its own name, and case does not matter. */
  lemma ParseDelayTypeName(t: DelayType, value: string)
    ensures ParseDelayType(DelayTypeName(t)) == t
    ensures ParseDelayType(Lowered(value)) == ParseDelayType(value)
  {
    LoweredFixes(DelayTypeName(t));
    LoweredFixes(Lowered(value));
  }

  /** The settings an instance keeps: InstanceMapStruct's delay type, delay count, percent and enable flag. */
  datatype Settings = Settings(delayType: DelayType, delayCount: u32, memoryPercent: nat, layerEnabled: bool)

  function Max(a: int, b: int): int { if a < b then b else a }
  function Min(a: int, b: int): int { if a < b then a else b }

  /**
   * The normalisation in vkCreateInstance of the three settings, each of
   * which may be absent. The delay count is clamped below at 0 and the
   * percent into 1..100; the layer is enabled unless there is no delay and
   * the percent is 100.
   */
  function Normalise(delayType: Option<string>, delayCount: Option<i32>, memoryPercent: Option<i32>): (r: Settings)
    ensures r.delayCount < 0x8000_0000 && 1 <= r.memoryPercent <= 100
    ensures r.delayType == (if delayType.Some? then ParseDelayType(delayType.value) else DelayNone)
    ensures delayCount.None? ==> r.delayCount == 0
    ensures delayCount.Some? && delayCount.value >= 0 ==> r.delayCount == delayCount.value
    ensures memoryPercent.None? ==> r.memoryPercent == 100
    ensures memoryPercent.Some? && 1 <= memoryPercent.value <= 100 ==> r.memoryPercent == memoryPercent.value
    ensures r.layerEnabled <==> r.delayType != DelayNone || r.memoryPercent != 100
  {
    var t := if delayType.Some? then ParseDelayType(delayType.value) else DelayNone;
    var count := if delayCount.Some? then Max(delayCount.value, 0) else 0;
    var percent := if memoryPercent.Some? then Max(Min(memoryPercent.value, 100), 1) else 100;
    Settings(t, count, percent, !(t == DelayNone && percent == 100))
  }

  /** Out-of-range values are moved to the nearest bound. */
  lemma NormaliseClamps(delayType: Option<string>, count: i32, percent: i32)
    ensures count < 0 ==> Normalise(delayType, Some(count), None).delayCount == 0
    ensures percent < 1 ==> Normalise(delayType, None, Some(percent)).memoryPercent == 1
    ensures percent > 100 ==> Normalise(delayType, None, Some(percent)).memoryPercent == 100
  {
  }

  /** With no settings at all the layer stays out of the way. */
  lemma NoSettingsDisable()
    ensures Normalise(None, None, None) == Settings(DelayNone, 0, 100, false)
  {
  }

  /** Normalising settings that are already normal gives them back. */
  lemma NormaliseIdempotent(delayType: Option<string>, delayCount: Option<i32>, memoryPercent: Option<i32>)
    ensures var s := Normalise(delayType, delayCount, memoryPercent);
      Normalise(Some(DelayTypeName(s.delayType)), Some(s.delayCount as i32), Some(s.memoryPercent as i32)) == s
  {
    var s := Normalise(delayType, delayCount, memoryPercent);
    ParseDelayTypeName(s.delayType, "");
  }

  // ---------------------------------------------------------------------
  // Budget admission

  /** The memory type index names a type of the layer's copy whose heap index is in range. */
  predicate HeapKnown(props: LocalMemoryProperties, typeIndex: nat)
  {
    WellFormedLocal(props) && typeIndex < VK_MAX_MEMORY_TYPES && props.memoryTypes[typeIndex].heapIndex < VK_MAX_MEMORY_HEAPS
  }

  /** The heap an allocation of memory type `typeIndex` is charged to. */
  function HeapOf(props: LocalMemoryProperties, typeIndex: nat): (h: nat)
    requires HeapKnown(props, typeIndex)
    ensures h < VK_MAX_MEMORY_HEAPS
  {
    props.memoryTypes[typeIndex].heapIndex
  }

  /** What an allocation may not exceed: the heap's budget, or its size when the budget is 0. */
  function HeapLimit(heap: HeapWithBudget): (r: u64)
    ensures r == heap.budget || (heap.budget == 0 && r == heap.size)
    ensures heap.budget > 0 ==> r == heap.budget
  {
    if heap.budget > 0 then heap.budget else heap.size
  }

  /** The admission test, with the sum computed in uint64_t as written. */
  predicate Admits(heap: HeapWithBudget, size: u64)
    ensures Admits(heap, size) ==> size <= HeapLimit(heap) || heap.allocatedBytes + size >= U64_LIMIT
  {
    WrapU64(heap.allocatedBytes + size) <= HeapLimit(heap)
  }

  /** Without overflow an allocation is admitted exactly when the new total stays within the limit. */
  lemma AdmitsWithinLimit(heap: HeapWithBudget, size: u64)
    requires heap.allocatedBytes + size < U64_LIMIT
    ensures Admits(heap, size) <==> heap.allocatedBytes + size <= HeapLimit(heap)
  {
  }

  /** Example: the uint64_t sum wraps, so a size near 2^64 passes the test on a heap that already holds bytes. */
  lemma AdmissionSumWraps()
    ensures var heap := HeapWithBudget(1000, 100, 0, 0, 0);
      && Admits(heap, U64_LIMIT - 50)
      && heap.allocatedBytes + (U64_LIMIT - 50) > HeapLimit(heap)
  {
    assert WrapU64(100 + (U64_LIMIT - 50)) == 50;
  }

  // ---------------------------------------------------------------------
  // The per-heap `allocated` count

  /** The copy after a successful allocation: the allocation's heap counts `size` more bytes (in uint64_t). */
  function Charged(props: LocalMemoryProperties, typeIndex: nat, size: u64): (r: LocalMemoryProperties)
    requires HeapKnown(props, typeIndex)
    ensures HeapKnown(r, typeIndex) && HeapOf(r, typeIndex) == HeapOf(props, typeIndex)
    ensures r.(memoryHeaps := props.memoryHeaps) == props && |r.memoryHeaps| == VK_MAX_MEMORY_HEAPS
    ensures forall h | 0 <= h < VK_MAX_MEMORY_HEAPS && h != HeapOf(props, typeIndex) :: r.memoryHeaps[h] == props.memoryHeaps[h]
    ensures var h := HeapOf(props, typeIndex);
      r.memoryHeaps[h] == props.memoryHeaps[h].(allocatedBytes := r.memoryHeaps[h].allocatedBytes)
    ensures var h := HeapOf(props, typeIndex);
      props.memoryHeaps[h].allocatedBytes + size < U64_LIMIT ==> r.memoryHeaps[h].allocatedBytes == props.memoryHeaps[h].allocatedBytes + size
  {
    var h := HeapOf(props, typeIndex);
    props.(memoryHeaps := props.memoryHeaps[h := props.memoryHeaps[h].(allocatedBytes := WrapU64(props.memoryHeaps[h].allocatedBytes + size))])
  }

  /** The copy after freeing an allocation: its heap counts `size` fewer bytes (in uint64_t). */
  function Refunded(props: LocalMemoryProperties, typeIndex: nat, size: u64): (r: LocalMemoryProperties)
    requires HeapKnown(props, typeIndex)
    ensures HeapKnown(r, typeIndex) && HeapOf(r, typeIndex) == HeapOf(props, typeIndex)
    ensures r.(memoryHeaps := props.memoryHeaps) == props && |r.memoryHeaps| == VK_MAX_MEMORY_HEAPS
    ensures forall h | 0 <= h < VK_MAX_MEMORY_HEAPS && h != HeapOf(props, typeIndex) :: r.memoryHeaps[h] == props.memoryHeaps[h]
    ensures var h := HeapOf(props, typeIndex);
      size <= props.memoryHeaps[h].allocatedBytes ==> r.memoryHeaps[h].allocatedBytes == props.memoryHeaps[h].allocatedBytes - size
  {
    var h := HeapOf(props, typeIndex);
    props.(memoryHeaps := props.memoryHeaps[h := props.memoryHeaps[h].(allocatedBytes := WrapU64(props.memoryHeaps[h].allocatedBytes - size))])
  }

  /**
   * The point of the admission test: an admitted allocation that does not
   * overflow leaves its heap's count within the heap's limit, and the limit
   * itself does not move.
   */
  lemma AdmittedStaysWithinLimit(props: LocalMemoryProperties, typeIndex: nat, size: u64)
    requires HeapKnown(props, typeIndex)
    requires var heap := props.memoryHeaps[HeapOf(props, typeIndex)];
      Admits(heap, size) && heap.allocatedBytes + size < U64_LIMIT
    ensures var h := HeapOf(props, typeIndex);
      var after := Charged(props, typeIndex, size).memoryHeaps[h];
      && HeapLimit(after) == HeapLimit(props.memoryHeaps[h])
      && after.allocatedBytes <= HeapLimit(after)
  {
    var h := HeapOf(props, typeIndex);
    AdmitsWithinLimit(props.memoryHeaps[h], size);
  }

  /** uint64_t subtraction undoes uint64_t addition. */
  lemma WrapU64AddSub(a: u64, s: u64)
    ensures WrapU64(WrapU64(a + s) - s) == a
  {
    if a + s >= U64_LIMIT {
      assert WrapU64(a + s) == a + s - U64_LIMIT;
      assert WrapU64(a + s - U64_LIMIT - s) == a;
    }
  }

  /** Freeing an allocation of the same type and size restores every heap's count, overflow or not. */
  lemma RefundUndoesCharge(props: LocalMemoryProperties, typeIndex: nat, size: u64)
    requires HeapKnown(props, typeIndex)
    ensures Refunded(Charged(props, typeIndex, size), typeIndex, size) == props
  {
    var h := HeapOf(props, typeIndex);
    WrapU64AddSub(props.memoryHeaps[h].allocatedBytes, size);
    var r := Refunded(Charged(props, typeIndex, size), typeIndex, size);
    assert r.memoryHeaps == props.memoryHeaps;
  }

  // ---------------------------------------------------------------------
  // vkFreeMemory's accounting

  /**
   * FreeMemory's accounting as written: the record is looked up with
   * operator[], which for a handle that is not tracked (VK_NULL_HANDLE,
   * which vkFreeMemory accepts, among them) yields a null record that is
   * then read. None stands for that null dereference.
   */
  function ReleasedAsWritten(memories: map<Handle, MemoryRecord>, props: LocalMemoryProperties, memory: Handle)
    : (r: Option<LocalMemoryProperties>)
    requires memory in memories ==> HeapKnown(props, memories[memory].memoryTypeIndex as nat)
    ensures r.None? <==> memory !in memories
    ensures r.Some? ==> r.value == Refunded(props, memories[memory].memoryTypeIndex as nat, memories[memory].allocationSize)
  {
    if memory !in memories then None
    else Some(Refunded(props, memories[memory].memoryTypeIndex as nat, memories[memory].allocationSize))
  }

  /** The accounting as intended: a tracked allocation is refunded; anything else leaves the counts alone. */
  function Released(memories: map<Handle, MemoryRecord>, props: LocalMemoryProperties, memory: Handle): (r: LocalMemoryProperties)
    requires memory in memories ==> HeapKnown(props, memories[memory].memoryTypeIndex as nat)
    ensures memory !in memories ==> r == props
    ensures memory in memories ==> r == Refunded(props, memories[memory].memoryTypeIndex as nat, memories[memory].allocationSize)
  {
    if memory in memories then Refunded(props, memories[memory].memoryTypeIndex as nat, memories[memory].allocationSize)
    else props
  }

  /** Freeing VK_NULL_HANDLE dereferences a null record as written; as intended it changes nothing. */
  lemma FreeNullHandleDereferencesNull(memories: map<Handle, MemoryRecord>, props: LocalMemoryProperties)
    requires NULL_HANDLE !in memories
    ensures ReleasedAsWritten(memories, props, NULL_HANDLE).None?
    ensures Released(memories, props, NULL_HANDLE) == props
  {
  }

  /** Where the written accounting is defined, the intended one agrees with it. */
  lemma ReleasedAgreesWhenTracked(memories: map<Handle, MemoryRecord>, props: LocalMemoryProperties, memory: Handle)
    requires memory in memories && HeapKnown(props, memories[memory].memoryTypeIndex as nat)
    ensures ReleasedAsWritten(memories, props, memory) == Some(Released(memories, props, memory))
  {
  }

  /** Allocating and then freeing the same allocation leaves every heap's count as it was. */
  lemma AllocateThenFreeRestores(memories: map<Handle, MemoryRecord>, props: LocalMemoryProperties, m: Handle, record: MemoryRecord)
    requires HeapKnown(props, record.memoryTypeIndex as nat)
    ensures var charged := Charged(props, record.memoryTypeIndex as nat, record.allocationSize);
      Released(memories[m := record], charged, m) == props
  {
    RefundUndoesCharge(props, record.memoryTypeIndex as nat, record.allocationSize);
  }
}
