// vkGetPhysicalDeviceToolPropertiesEXT in both layers: each layer puts its
// own tool description in front of the ones the layers below it report, in
// the usual two-call form (a count query without an array, then a fill of an
// array of the capacity the caller passes in *pToolCount).

module Tools {
  import opened Vk

  /** An entry written into the caller's array: this layer's own, or the `index`-th one reported below it. */
  datatype Tool = ThisLayer | Downstream(index: nat)

  /** What the call leaves behind: its result, the final *pToolCount, and the entries written from index 0 on. */
  datatype ToolAnswer = ToolAnswer(result: Result, count: u32, written: seq<Tool>)

  /** The first `k` tools reported below this layer. */
  function DownstreamTools(k: nat): (r: seq<Tool>)
    ensures |r| == k && forall i | 0 <= i < k :: r[i] == Downstream(i)
  {
    if k == 0 then [] else DownstreamTools(k - 1) + [Downstream(k - 1)]
  }

  /**
   * The layers below, which report `available` tools: without an array they
   * return the number; with one they fill at most `count` entries, return
   * how many, and VK_INCOMPLETE when some did not fit.
   */
  function DriverToolProperties(count: u32, hasArray: bool, available: u32): (r: ToolAnswer)
    ensures !hasArray ==> r == ToolAnswer(Success, available, [])
    ensures hasArray ==> r.count <= count && r.count <= available && r.written == DownstreamTools(r.count)
    ensures hasArray ==> (r.result == Incomplete <==> count < available) && (r.result == Success <==> count >= available)
  {
    if !hasArray then ToolAnswer(Success, available, [])
    else if count < available then ToolAnswer(Incomplete, count, DownstreamTools(count))
    else ToolAnswer(Success, available, DownstreamTools(available))
  }

  /**
   * The layer's code as written: with an array it writes its own entry at
   * index 0, hands the rest of the array on only when the caller's count is
   * above one, and decrements the count; afterwards it increments the count
   * whatever the layers below did.
   */
  function ToolPropertiesAsWritten(capacity: u32, hasArray: bool, available: u32): (r: ToolAnswer)
    ensures !hasArray ==> r.count == WrapU32(available + 1) && r.written == [] && r.result == Success
  {
    if !hasArray then
      var below := DriverToolProperties(capacity, false, available);
      ToolAnswer(below.result, WrapU32(below.count + 1), [])
    else
      var remaining := WrapU32(capacity - 1);
      var below := DriverToolProperties(remaining, capacity > 1, available);
      ToolAnswer(below.result, WrapU32(below.count + 1), [ThisLayer] + below.written)
  }

  /**
   * The same call handing on the rest of the array whenever there is one,
   * and writing nothing into an array of capacity zero.
   */
  function ToolProperties(capacity: u32, hasArray: bool, available: u32): (r: ToolAnswer)
    ensures hasArray ==> |r.written| <= capacity && r.count as int == |r.written|
    ensures |r.written| > 0 ==> r.written[0] == ThisLayer
  {
    if !hasArray then
      var below := DriverToolProperties(capacity, false, available);
      ToolAnswer(below.result, WrapU32(below.count + 1), [])
    else if capacity == 0 then ToolAnswer(Incomplete, 0, [])
    else
      var below := DriverToolProperties(capacity - 1, true, available);
      ToolAnswer(below.result, WrapU32(below.count + 1), [ThisLayer] + below.written)
  }

  /**
   * The corrected call keeps the two-call contract: a count query reports one
   * more tool than the layers below; a fill writes exactly `count` entries,
   * never more than the capacity, this layer's first and then the ones below
   * in order; VK_INCOMPLETE exactly when not all fitted.
   */
  lemma ToolPropertiesTwoCallContract(capacity: u32, hasArray: bool, available: u32)
    requires available + 1 < U32_LIMIT
    ensures var r := ToolProperties(capacity, hasArray, available);
      && (!hasArray ==> r.count == available + 1 && r.result == Success && r.written == [])
      && (hasArray ==>
            && r.count == |r.written| <= capacity
            && (r.result == Incomplete <==> capacity < available + 1)
            && (r.result == Success <==> capacity >= available + 1)
            && (|r.written| > 0 ==> r.written == [ThisLayer] + DownstreamTools(|r.written| - 1)))
  {
  }

  /** Both versions agree whenever the caller passes no array or room for two entries or more. */
  lemma ToolPropertiesAgreeOnLargeArrays(capacity: u32, hasArray: bool, available: u32)
    requires !hasArray || capacity >= 2
    ensures ToolPropertiesAsWritten(capacity, hasArray, available) == ToolProperties(capacity, hasArray, available)
  {
    if hasArray {
      assert WrapU32(capacity - 1) == capacity - 1;
    }
  }

  /**
   * As written, an array with room for one entry gets this layer's entry
   * alone while the call reports VK_SUCCESS and a count that includes every
   * tool below it: the layers below were asked for a count, not a fill.
   */
  lemma CapacityOneOverstatesCount(available: u32)
    requires 0 < available && available + 1 < U32_LIMIT
    ensures ToolPropertiesAsWritten(1, true, available) == ToolAnswer(Success, available + 1, [ThisLayer])
    ensures ToolProperties(1, true, available) == ToolAnswer(Incomplete, 1, [ThisLayer])
  {
  }

  /**
   * As written, an array of capacity zero still receives this layer's entry,
   * one past its end, and the call again reports VK_SUCCESS with the full count.
   */
  lemma CapacityZeroWritesPastEnd(available: u32)
    requires available + 1 < U32_LIMIT
    ensures ToolPropertiesAsWritten(0, true, available) == ToolAnswer(Success, available + 1, [ThisLayer])
    ensures ToolProperties(0, true, available) == ToolAnswer(Incomplete, 0, [])
  {
  }

  /**
   * The simulator's version declares a second `result` inside its enabled
   * branch, so with the layer enabled the value it returns was never
   * assigned (None); with it disabled the call goes straight to the layers
   * below.
   */
  function SimulatorToolPropertiesResultAsWritten(enabled: bool, capacity: u32, hasArray: bool, available: u32): (r: Option<Result>)
    ensures enabled ==> r.None?
  {
    if enabled then None
    else Some(DriverToolProperties(capacity, hasArray, available).result)
  }

  /** The simulator's call returning the result of the call it makes in either branch. */
  function SimulatorToolProperties(enabled: bool, capacity: u32, hasArray: bool, available: u32): (r: ToolAnswer)
    ensures enabled ==> r == ToolProperties(capacity, hasArray, available)
    ensures !enabled ==> r == DriverToolProperties(capacity, hasArray, available)
  {
    if enabled then ToolProperties(capacity, hasArray, available)
    else DriverToolProperties(capacity, hasArray, available)
  }

  /** Returning the assigned result is the only change: where the code as written defines one, both agree. */
  lemma SimulatorResultOnlyUndefinedWhenEnabled(enabled: bool, capacity: u32, hasArray: bool, available: u32)
    ensures SimulatorToolPropertiesResultAsWritten(enabled, capacity, hasArray, available).Some? <==> !enabled
    ensures !enabled ==>
      (SimulatorToolPropertiesResultAsWritten(enabled, capacity, hasArray, available)
       == Some(SimulatorToolProperties(enabled, capacity, hasArray, available).result))
  {
  }
}
