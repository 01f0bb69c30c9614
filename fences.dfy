// The slow device simulator's fence delays: what it records for each fence,
// how a signal, a reset, a status query and a wait change that record, and
// which fences of a vkWaitForFences call it lets through to the driver.
//
// Time is the caller's: every operation that reads the clock takes the
// current time in milliseconds as `now`.

module Fences {
  import opened Vk

  /** The fence_delay_type setting. */
  datatype DelayType = DelayNone | MsFromTrigger | MsFromFirstQuery | NumFailWaits

  /**
   * FenceMapStruct. `elapsedCount` and `delayCount` are uint32_t; the clock
   * reading `startTime` is 0 until set (a default-constructed time point).
   */
  datatype FenceRecord = FenceRecord(
    device: Handle,
    signalled: bool,
    waitStarted: bool,
    waitCompleted: bool,
    delayType: DelayType,
    delayCount: u32,
    elapsedCount: u32,
    startTime: int)

  /** The record vkCreateFence, vkRegisterDeviceEventEXT and vkRegisterDisplayEventEXT store. */
  function NewFence(device: Handle, signalled: bool, delayType: DelayType, delayCount: u32): (r: FenceRecord)
    ensures r.device == device && r.signalled == signalled
    ensures r.delayType == delayType && r.delayCount == delayCount
    ensures !r.waitStarted && !r.waitCompleted && r.elapsedCount == 0
  {
    FenceRecord(device, signalled, false, false, delayType, delayCount, 0, 0)
  }

  /** The part of the record a reset clears. */
  predicate Cleared(f: FenceRecord)
  {
    !f.signalled && !f.waitStarted && !f.waitCompleted && f.elapsedCount == 0
  }

  /** vkResetFences on one tracked fence. */
  function Reset(f: FenceRecord): (r: FenceRecord)
    ensures Cleared(r)
    ensures r.(signalled := f.signalled, waitStarted := f.waitStarted, waitCompleted := f.waitCompleted, elapsedCount := f.elapsedCount) == f
  {
    f.(signalled := false, waitStarted := false, waitCompleted := false, elapsedCount := 0)
  }

  /**
   * A submission, an acquire or a present that will signal the fence: a
   * delayed fence becomes signalled, and a fence timed from its trigger
   * starts its clock; a fence without delay is left alone.
   */
  function Signal(f: FenceRecord, now: int): (r: FenceRecord)
    ensures f.delayType == DelayNone ==> r == f
    ensures f.delayType != DelayNone ==> r.signalled
    ensures f.delayType == MsFromTrigger ==> r.startTime == now
    ensures f.delayType != MsFromTrigger ==> r.startTime == f.startTime
    ensures r.(signalled := f.signalled, startTime := f.startTime) == f
  {
    if f.delayType == DelayNone then f
    else if f.delayType == MsFromTrigger then f.(startTime := now, signalled := true)
    else f.(signalled := true)
  }

  /** Adding the milliseconds since `startTime` to the uint32_t elapsed count. */
  function AddElapsed(f: FenceRecord, now: int): u32
  {
    WrapU32(f.elapsedCount + (now - f.startTime))
  }

  /** The record after a check has advanced the clock of a fence timed in milliseconds. */
  function AdvanceClock(f: FenceRecord, now: int): (r: FenceRecord)
    requires f.delayType == MsFromTrigger || f.delayType == MsFromFirstQuery
    ensures f.delayType == MsFromFirstQuery && !f.waitStarted ==> r.startTime == now && r.elapsedCount == f.elapsedCount
    ensures f.delayType == MsFromTrigger || f.waitStarted ==> r.startTime == f.startTime && r.elapsedCount == AddElapsed(f, now)
  {
    if f.delayType == MsFromFirstQuery && !f.waitStarted then f.(startTime := now)
    else f.(elapsedCount := AddElapsed(f, now))
  }

  // ---------------------------------------------------------------------
  // vkGetFenceStatus

  /** What one status query does to a tracked fence, and whether it reports VK_NOT_READY. */
  datatype StatusCheck = StatusCheck(fence: FenceRecord, notReady: bool)

  /**
   * The check vkGetFenceStatus makes on a tracked, delayed fence: advance its
   * count, mark the wait started, and hold it back while it is unsignalled
   * or its delay has not run out.
   */
  function QueryStatus(f: FenceRecord, now: int): (r: StatusCheck)
    requires f.delayType != DelayNone
    ensures r.fence.waitStarted
    ensures r.notReady <==> !f.signalled || f.delayCount > r.fence.elapsedCount
    ensures r.fence.waitCompleted == (f.waitCompleted || !r.notReady)
    ensures r.fence.device == f.device && r.fence.signalled == f.signalled
    ensures r.fence.delayType == f.delayType && r.fence.delayCount == f.delayCount
    ensures f.delayType == NumFailWaits ==> r.fence.elapsedCount == WrapU32(f.elapsedCount + 1) && r.fence.startTime == f.startTime
  {
    var advanced :=
      if f.delayType == NumFailWaits then f.(elapsedCount := WrapU32(f.elapsedCount + 1))
      else AdvanceClock(f, now);
    var started := advanced.(waitStarted := true);
    if !started.signalled || started.delayCount > started.elapsedCount then StatusCheck(started, true)
    else StatusCheck(started.(waitCompleted := true), false)
  }

  /** `k` status queries in a row at the same clock reading. */
  function QueryTimes(f: FenceRecord, now: int, k: nat): (r: FenceRecord)
    requires f.delayType != DelayNone
    ensures r.delayType == f.delayType && r.signalled == f.signalled && r.delayCount == f.delayCount
    decreases k
  {
    if k == 0 then f else QueryStatus(QueryTimes(f, now, k - 1), now).fence
  }

  /**
   * A fence delayed by a count of failed waits: after `k` queries its count
   * has grown by exactly `k`, and the next query lets it through exactly
   * when it is signalled and the count has reached its delay.
   */
  lemma {:induction false} NumFailWaitsCountsQueries(f: FenceRecord, now: int, k: nat)
    requires f.delayType == NumFailWaits
    requires f.elapsedCount + k + 1 < U32_LIMIT
    ensures QueryTimes(f, now, k).elapsedCount == f.elapsedCount + k
    ensures QueryTimes(f, now, k).signalled == f.signalled && QueryTimes(f, now, k).delayCount == f.delayCount
    ensures QueryTimes(f, now, k).delayType == NumFailWaits
    ensures !QueryStatus(QueryTimes(f, now, k), now).notReady <==> f.signalled && f.delayCount <= f.elapsedCount + k + 1
  {
    if k > 0 {
      NumFailWaitsCountsQueries(f, now, k - 1);
    }
  }

  /** A fence just reset reports VK_NOT_READY to every query until something signals it. */
  lemma ResetFenceNotReady(f: FenceRecord, now: int)
    requires f.delayType != DelayNone
    ensures QueryStatus(Reset(f), now).notReady
    ensures !QueryStatus(Reset(f), now).fence.waitCompleted
  {
  }

  /**
   * A fence timed from its trigger, signalled at `t` with nothing counted
   * yet, lets a query at `now` through exactly when `delayCount`
   * milliseconds have passed.
   */
  lemma TriggerDelayMeasuredFromSignal(f: FenceRecord, t: int, now: int)
    requires f.delayType == MsFromTrigger && f.elapsedCount == 0
    requires t <= now < t + U32_LIMIT
    ensures !QueryStatus(Signal(f, t), now).notReady <==> f.delayCount <= now - t
  {
  }

  /** A fence timed from the first query starts its clock at that query and counts nothing for it. */
  lemma FirstQueryStartsClock(f: FenceRecord, now: int)
    requires f.delayType == MsFromFirstQuery && !f.waitStarted
    ensures QueryStatus(f, now).fence.startTime == now
    ensures QueryStatus(f, now).fence.elapsedCount == f.elapsedCount
    ensures f.signalled && f.delayCount > f.elapsedCount ==> QueryStatus(f, now).notReady
  {
  }

  // ---------------------------------------------------------------------
  // vkWaitForFences

  /** One billion nanoseconds: from this timeout on a count-delayed fence sleeps instead of failing. */
  const LONG_TIMEOUT: nat := 1_000_000_000

  /** The remaining timeout in whole milliseconds, as the uint32_t the wait computes. */
  function MillisecondsTillTimeout(timeout: u64): (r: u32)
    ensures timeout < 1_000_000 ==> r == 0
    ensures timeout / 1_000_000 < U32_LIMIT ==> r == timeout / 1_000_000
  {
    WrapU32(timeout / 1_000_000)
  }

  /**
   * What the wait decides for one signalled, delayed fence: its new record,
   * whether it is released to the driver, and how long the layer sleeps
   * before releasing it.
   */
  datatype WaitCheck = WaitCheck(fence: FenceRecord, released: bool, sleepMs: u32)

  /** The per-fence body of vkWaitForFences for a signalled, delayed fence. */
  function CheckWait(f: FenceRecord, now: int, timeout: u64): (r: WaitCheck)
    requires f.signalled && f.delayType != DelayNone
    ensures r.fence.waitStarted
    ensures r.fence.waitCompleted == (f.waitCompleted || r.released)
    ensures r.fence.device == f.device && r.fence.signalled
    ensures r.fence.delayType == f.delayType && r.fence.delayCount == f.delayCount
    ensures !r.released ==> r.sleepMs == 0
    ensures f.delayType == NumFailWaits && timeout >= LONG_TIMEOUT ==>
      r.released && r.fence.elapsedCount == f.elapsedCount && r.sleepMs == WrapU32(f.delayCount * 10)
    ensures f.delayType == NumFailWaits && timeout < LONG_TIMEOUT ==>
      r.fence.elapsedCount == WrapU32(f.elapsedCount + 1) && (r.released <==> f.delayCount <= r.fence.elapsedCount)
  {
    var ms := MillisecondsTillTimeout(timeout);
    if f.delayType == NumFailWaits then
      if timeout >= LONG_TIMEOUT then
        WaitCheck(f.(waitStarted := true, waitCompleted := true), true, WrapU32(f.delayCount * 10))
      else
        var counted := f.(elapsedCount := WrapU32(f.elapsedCount + 1), waitStarted := true);
        if counted.delayCount > counted.elapsedCount then WaitCheck(counted, false, 0)
        else WaitCheck(counted.(waitCompleted := true), true, 0)
    else
      var advanced := AdvanceClock(f, now).(waitStarted := true);
      var canSleep := ms > 0 && advanced.elapsedCount < advanced.delayCount;
      var sleep: u32 := if canSleep then advanced.delayCount - advanced.elapsedCount else 0;
      var total := if canSleep then WrapU32(advanced.elapsedCount + ms) else advanced.elapsedCount;
      if advanced.delayCount > total then WaitCheck(advanced, false, 0)
      else WaitCheck(advanced.(waitCompleted := true), true, sleep)
  }

  /**
   * A fence timed in milliseconds is released exactly when its delay runs
   * out within the remaining timeout (no uint32_t overflow assumed), and the
   * layer then sleeps for the part of the delay still outstanding.
   */
  lemma TimedFenceReleasedWithinTimeout(f: FenceRecord, now: int, timeout: u64)
    requires f.signalled && (f.delayType == MsFromTrigger || f.delayType == MsFromFirstQuery)
    requires timeout / 1_000_000 < U32_LIMIT
    requires AdvanceClock(f, now).elapsedCount + timeout / 1_000_000 < U32_LIMIT
    ensures var e := AdvanceClock(f, now).elapsedCount;
      && (CheckWait(f, now, timeout).released <==> f.delayCount <= e + timeout / 1_000_000)
      && (CheckWait(f, now, timeout).released && e < f.delayCount ==> CheckWait(f, now, timeout).sleepMs == f.delayCount - e)
      && CheckWait(f, now, timeout).fence.elapsedCount == e
  {
  }

  /** The state of the scan over the fence list. */
  datatype Scan = Scan(fences: map<Handle, FenceRecord>, released: seq<Handle>, timedOut: bool)

  /** The scan after one more list position, given the clock reading there. */
  function ScanStep(s: Scan, fence: Handle, now: int, timeout: u64, waitAll: bool): Scan
  {
    if s.timedOut then s
    else if fence in s.fences && s.fences[fence].signalled && s.fences[fence].delayType != DelayNone then
      var c := CheckWait(s.fences[fence], now, timeout);
      if c.released then Scan(s.fences[fence := c.fence], s.released + [fence], false)
      else Scan(s.fences[fence := c.fence], s.released, waitAll)
    else Scan(s.fences, s.released + [fence], false)
  }

  /** The scan over a whole list, position by position; `clock[i]` is the time when position `i` is checked. */
  function ScanList(fences: map<Handle, FenceRecord>, list: seq<Handle>, clock: seq<int>, timeout: u64, waitAll: bool): Scan
    requires |clock| == |list|
  {
    if |list| == 0 then Scan(fences, [], false)
    else ScanStep(ScanList(fences, list[..|list| - 1], clock[..|list| - 1], timeout, waitAll),
                  list[|list| - 1], clock[|list| - 1], timeout, waitAll)
  }

  /** Once a wait-all scan has timed out, the rest of the list changes nothing. */
  lemma {:induction false} TimedOutScanStops(fences: map<Handle, FenceRecord>, list: seq<Handle>, clock: seq<int>,
                                             timeout: u64, waitAll: bool, i: nat)
    requires |clock| == |list| && i <= |list|
    requires ScanList(fences, list[..i], clock[..i], timeout, waitAll).timedOut
    ensures ScanList(fences, list, clock, timeout, waitAll) == ScanList(fences, list[..i], clock[..i], timeout, waitAll)
    decreases |list| - i
  {
    if i < |list| {
      var n := |list|;
      assert list[..n][..n - 1] == list[..n - 1];
      if i == n - 1 {
        assert list[..n - 1] == list[..i] && clock[..n - 1] == clock[..i];
      } else {
        assert list[..n - 1][..i] == list[..i] && clock[..n - 1][..i] == clock[..i];
        TimedOutScanStops(fences, list[..n - 1], clock[..n - 1], timeout, waitAll, i);
      }
    } else {
      assert list[..i] == list && clock[..i] == clock;
    }
  }

  /**
   * The per-fence loop of vkWaitForFences with the layer enabled: the new
   * fence records, the fences handed to the driver, and whether a
   * wait-for-all returned VK_TIMEOUT from inside the loop.
   */
  method WaitScan(fences: map<Handle, FenceRecord>, list: seq<Handle>, clock: seq<int>, timeout: u64, waitAll: bool)
    returns (r: Scan)
    requires |clock| == |list|
    ensures r == ScanList(fences, list, clock, timeout, waitAll)
  {
    r := Scan(fences, [], false);
    var i := 0;
    while i < |list|
      invariant 0 <= i <= |list|
      invariant r == ScanList(fences, list[..i], clock[..i], timeout, waitAll)
      invariant !r.timedOut
    {
      var fence := list[i];
      assert list[..i + 1][..i] == list[..i] && clock[..i + 1][..i] == clock[..i];
      if fence in r.fences && r.fences[fence].signalled && r.fences[fence].delayType != DelayNone {
        var c := CheckWait(r.fences[fence], clock[i], timeout);
        if !c.released {
          r := r.(fences := r.fences[fence := c.fence]);
          if waitAll {
            r := r.(timedOut := true);
            TimedOutScanStops(fences, list, clock, timeout, waitAll, i + 1);
            return;
          }
        } else {
          r := r.(fences := r.fences[fence := c.fence], released := r.released + [fence]);
        }
      } else {
        r := r.(released := r.released + [fence]);
      }
      i := i + 1;
    }
    assert list[..i] == list && clock[..i] == clock;
  }

  /** The result of vkWaitForFences with the layer enabled, given what the driver answers for the released fences. */
  function WaitResult(s: Scan, count: nat, driver: seq<Handle> -> Result): (r: Result)
    ensures s.timedOut ==> r == Timeout
    ensures !s.timedOut && count > 0 && |s.released| == 0 ==> r == Timeout
    ensures !s.timedOut && (count == 0 || |s.released| > 0) ==> r == driver(s.released)
  {
    if s.timedOut || (count > 0 && |s.released| == 0) then Timeout else driver(s.released)
  }

  // ---------------------------------------------------------------------
  // Properties of the wait scan

  /**
   * The scan never invents fences: what it releases is a list of list
   * positions in order, it never loses or gains a tracked fence, and a
   * fence not in the list keeps its record.
   */
  lemma {:induction false} ScanKeepsOthers(fences: map<Handle, FenceRecord>, list: seq<Handle>, clock: seq<int>, timeout: u64, waitAll: bool)
    requires |clock| == |list|
    ensures var s := ScanList(fences, list, clock, timeout, waitAll);
      && s.fences.Keys == fences.Keys
      && (forall h | h in fences && h !in list :: s.fences[h] == fences[h])
      && (forall h | h in s.released :: h in list)
      && |s.released| <= |list|
  {
    if |list| > 0 {
      var n := |list|;
      ScanKeepsOthers(fences, list[..n - 1], clock[..n - 1], timeout, waitAll);
      assert forall h | h in list[..n - 1] :: h in list;
    }
  }

  /** Without wait-all the scan never stops early. */
  lemma {:induction false} WaitAnyNeverTimesOutEarly(fences: map<Handle, FenceRecord>, list: seq<Handle>, clock: seq<int>, timeout: u64)
    requires |clock| == |list|
    ensures !ScanList(fences, list, clock, timeout, false).timedOut
  {
    if |list| > 0 {
      WaitAnyNeverTimesOutEarly(fences, list[..|list| - 1], clock[..|list| - 1], timeout);
    }
  }

  /**
   * A fence the layer has no reason to hold back (untracked, not delayed or
   * not signalled) is released at every position where the scan has not
   * yet timed out; in particular, when no fence is delayed the driver sees
   * the whole list.
   */
  predicate Unheld(fences: map<Handle, FenceRecord>, h: Handle)
  {
    h !in fences || fences[h].delayType == DelayNone || !fences[h].signalled
  }

  lemma {:induction false} NothingDelayedReleasesAll(fences: map<Handle, FenceRecord>, list: seq<Handle>, clock: seq<int>,
                                                     timeout: u64, waitAll: bool)
    requires |clock| == |list|
    requires forall h | h in fences :: fences[h].delayType == DelayNone
    ensures ScanList(fences, list, clock, timeout, waitAll) == Scan(fences, list, false)
  {
    if |list| > 0 {
      var n := |list|;
      NothingDelayedReleasesAll(fences, list[..n - 1], clock[..n - 1], timeout, waitAll);
      assert list[..n - 1] + [list[n - 1]] == list;
    }
  }

  /**
   * With a timeout of a second or more, fences delayed by a count of failed
   * waits never hold the wait back: if every fence in the list is of that
   * kind or unheld, the driver sees the whole list.
   */
  lemma {:induction false} LongTimeoutReleasesCountedFences(fences: map<Handle, FenceRecord>, list: seq<Handle>, clock: seq<int>,
                                                            timeout: u64, waitAll: bool)
    requires |clock| == |list| && timeout >= LONG_TIMEOUT
    requires forall h | h in list && h in fences :: fences[h].delayType == NumFailWaits || fences[h].delayType == DelayNone
    ensures ScanList(fences, list, clock, timeout, waitAll).released == list
    ensures !ScanList(fences, list, clock, timeout, waitAll).timedOut
  {
    if |list| > 0 {
      var n := |list|;
      assert forall h | h in list[..n - 1] :: h in list;
      LongTimeoutReleasesCountedFences(fences, list[..n - 1], clock[..n - 1], timeout, waitAll);
      ScanKeepsDelayTypes(fences, list[..n - 1], clock[..n - 1], timeout, waitAll);
      assert list[..n - 1] + [list[n - 1]] == list;
    }
  }

  /** The scan changes no fence's delay type, delay count or signalled state. */
  lemma {:induction false} ScanKeepsDelayTypes(fences: map<Handle, FenceRecord>, list: seq<Handle>, clock: seq<int>, timeout: u64, waitAll: bool)
    requires |clock| == |list|
    ensures var s := ScanList(fences, list, clock, timeout, waitAll);
      && s.fences.Keys == fences.Keys
      && forall h | h in fences ::
           s.fences[h].delayType == fences[h].delayType && s.fences[h].delayCount == fences[h].delayCount
           && s.fences[h].signalled == fences[h].signalled
  {
    if |list| > 0 {
      var n := |list|;
      ScanKeepsDelayTypes(fences, list[..n - 1], clock[..n - 1], timeout, waitAll);
      StepKeepsDelayTypes(ScanList(fences, list[..n - 1], clock[..n - 1], timeout, waitAll), list[n - 1], clock[n - 1], timeout, waitAll);
    }
  }

  lemma StepKeepsDelayTypes(s: Scan, fence: Handle, now: int, timeout: u64, waitAll: bool)
    ensures var t := ScanStep(s, fence, now, timeout, waitAll);
      && t.fences.Keys == s.fences.Keys
      && forall h | h in s.fences ::
           t.fences[h].delayType == s.fences[h].delayType && t.fences[h].delayCount == s.fences[h].delayCount
           && t.fences[h].signalled == s.fences[h].signalled
  {
  }

  /**
   * A wait-all scan that timed out met a fence it held back; a scan that
   * did not time out released every unheld fence of the list.
   */
  lemma {:induction false} TimeoutMeansHeldBack(fences: map<Handle, FenceRecord>, list: seq<Handle>, clock: seq<int>,
                                                timeout: u64, waitAll: bool)
    requires |clock| == |list|
    ensures var s := ScanList(fences, list, clock, timeout, waitAll);
      (s.timedOut ==> waitAll && exists i | 0 <= i < |list| :: !Unheld(fences, list[i]))
      && (!s.timedOut ==> forall i | 0 <= i < |list| && Unheld(fences, list[i]) :: list[i] in s.released)
  {
    if |list| > 0 {
      var n := |list|;
      var prefix := list[..n - 1];
      TimeoutMeansHeldBack(fences, prefix, clock[..n - 1], timeout, waitAll);
      ScanKeepsDelayTypes(fences, prefix, clock[..n - 1], timeout, waitAll);
      var s := ScanList(fences, list, clock, timeout, waitAll);
      var p := ScanList(fences, prefix, clock[..n - 1], timeout, waitAll);
      assert forall i | 0 <= i < n - 1 :: prefix[i] == list[i];
      if s.timedOut && !p.timedOut {
        assert !Unheld(fences, list[n - 1]);
      }
      if !s.timedOut {
        assert !p.timedOut;
        assert p.released <= s.released;
      }
    }
  }
}
