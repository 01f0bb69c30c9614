// The teardown calls a layer hands to the next layer, and the objects that
// are still alive below the layer after them. vkDestroyDevice forwards
// itself before the layer erases the device's record. vkDestroyInstance
// destroys the instance's devices that way and erases its own records; as
// written in both layers it never hands vkDestroyInstance itself on.

module Teardown {
  import opened Vk

  /** A teardown call handed to the next layer. */
  datatype DownstreamCall = DestroyDeviceCall(device: Handle) | DestroyInstanceCall(instance: Handle)

  /** The object a teardown call destroys. */
  function Target(c: DownstreamCall): Handle
  {
    match c
    case DestroyDeviceCall(d) => d
    case DestroyInstanceCall(i) => i
  }

  /** The objects below the layer still alive after `calls`, in order. */
  function AliveAfter(alive: set<Handle>, calls: seq<DownstreamCall>): set<Handle>
  {
    if |calls| == 0 then alive
    else AliveAfter(alive, calls[..|calls| - 1]) - {Target(calls[|calls| - 1])}
  }

  /** The objects the calls destroy. */
  function Targets(calls: seq<DownstreamCall>): set<Handle>
  {
    set c | c in calls :: Target(c)
  }

  /** One more call destroys one more target. */
  lemma TargetsSnoc(prefix: seq<DownstreamCall>, c: DownstreamCall)
    ensures Targets(prefix + [c]) == Targets(prefix) + {Target(c)}
  {
    var r := prefix + [c];
    forall x | x in Targets(r) ensures x in Targets(prefix) + {Target(c)} {
      var c' :| c' in r && Target(c') == x;
      if c' != c { assert c' in prefix; }
    }
    forall x | x in Targets(prefix) ensures x in Targets(r) {
      var c' :| c' in prefix && Target(c') == x;
      assert c' in r;
    }
    assert c in r;
  }

  /** Teardown calls destroy exactly their targets, whatever their order. */
  lemma {:induction false} AliveAfterReleasesTargets(alive: set<Handle>, calls: seq<DownstreamCall>)
    ensures AliveAfter(alive, calls) == alive - Targets(calls)
    decreases |calls|
  {
    if |calls| > 0 {
      var prefix, last := calls[..|calls| - 1], calls[|calls| - 1];
      AliveAfterReleasesTargets(alive, prefix);
      assert calls == prefix + [last];
      TargetsSnoc(prefix, last);
    }
  }

  /**
   * vkDestroyInstance's calls below the layer as written: one
   * vkDestroyDevice per device of the instance, in the order the device map
   * is walked, and nothing for the instance.
   */
  function DestroyInstanceCallsAsWritten(order: seq<Handle>): (r: seq<DownstreamCall>)
    ensures |r| == |order|
    ensures forall c | c in r :: c.DestroyDeviceCall? && c.device in order
    ensures Targets(r) == set d | d in order
    decreases |order|
  {
    if |order| == 0 then []
    else
      var prefix := DestroyInstanceCallsAsWritten(order[..|order| - 1]);
      var r := prefix + [DestroyDeviceCall(order[|order| - 1])];
      assert order == order[..|order| - 1] + [order[|order| - 1]];
      TargetsSnoc(prefix, DestroyDeviceCall(order[|order| - 1]));
      r
  }

  /** vkDestroyInstance's calls below the layer once it also hands vkDestroyInstance on, after every device. */
  function DestroyInstanceCalls(order: seq<Handle>, instance: Handle): (r: seq<DownstreamCall>)
    ensures |r| == |order| + 1 && r[|order|] == DestroyInstanceCall(instance)
    ensures forall i | 0 <= i < |order| :: r[i].DestroyDeviceCall?
    ensures Targets(r) == (set d | d in order) + {instance}
  {
    var devices := DestroyInstanceCallsAsWritten(order);
    var r := devices + [DestroyInstanceCall(instance)];
    assert forall i | 0 <= i < |order| :: r[i] == devices[i] && devices[i] in devices;
    TargetsSnoc(devices, DestroyInstanceCall(instance));
    r
  }

  /**
   * As written, vkDestroyInstance destroys the instance's devices below the
   * layer but leaves the instance itself alive there.
   */
  lemma DestroyInstanceLeavesInstanceAlive(alive: set<Handle>, order: seq<Handle>, instance: Handle)
    requires instance in alive && instance !in order
    ensures AliveAfter(alive, DestroyInstanceCallsAsWritten(order)) == alive - set d | d in order
    ensures instance in AliveAfter(alive, DestroyInstanceCallsAsWritten(order))
  {
    AliveAfterReleasesTargets(alive, DestroyInstanceCallsAsWritten(order));
  }

  /** Handing vkDestroyInstance on after the devices destroys the devices and the instance, and nothing else. */
  lemma DestroyInstanceReleasesInstance(alive: set<Handle>, order: seq<Handle>, instance: Handle)
    ensures AliveAfter(alive, DestroyInstanceCalls(order, instance)) == alive - (set d | d in order) - {instance}
  {
    AliveAfterReleasesTargets(alive, DestroyInstanceCalls(order, instance));
  }
}
