/**
 * What a device's operation queue does, as functions of the queue's
 * contents: `startNextOp` (start the head, pop it while `start` reports
 * Complete), the abort drain of a lost connection, and the routing of one
 * transport callback to the head. The device's methods are proved against
 * these, and the lemmas here state what they guarantee.
 */
module QueueSpec {
  import opened BleTypes
  import opened DeviceOps

  /** Every queued operation overrides `start` and `abort`, as BlemDeviceOp demands of its subclasses. */
  predicate AllOverride(ops: seq<Op>)
  {
    forall i :: 0 <= i < |ops| ==> ops[i].Overrides()
  }

  /** A queue, the device's characteristic cache and the outward actions that led there. */
  datatype Run = Run(ops: seq<Op>, characteristics: seq<Characteristic>, effects: seq<Effect>)

  /**
   * `startNextOp`: start the head; while it reports Complete pop it and start
   * the next one. Only a prefix of the queue is consumed; the head that
   * stops the loop keeps the field values its `start` gave it.
   */
  function RunQueue(device: string, auto: Option<seq<BleUuid>>, ops: seq<Op>, chars: seq<Characteristic>): (r: Run)
    requires AllOverride(ops)
    ensures AllOverride(r.ops)
    ensures |r.ops| <= |ops|
    ensures r.ops != [] ==> r.ops[1..] == ops[|ops| - |r.ops| + 1..]
    decreases |ops|
  {
    if ops == [] then Run([], chars, [])
    else
      var s := Start(ops[0], DeviceView(device, auto, chars)).value;
      if s.response == Complete then
        var rest := RunQueue(device, auto, ops[1..], s.characteristics);
        Run(rest.ops, rest.characteristics, s.effects + rest.effects)
      else
        Run([s.op] + ops[1..], s.characteristics, s.effects)
  }

  /** The queue is empty, or its head's `start` reports Ok against the current cache. */
  predicate Settled(device: string, auto: Option<seq<BleUuid>>, ops: seq<Op>, chars: seq<Characteristic>)
  {
    ops == [] || (ops[0].Overrides() && Start(ops[0], DeviceView(device, auto, chars)).value.response == Ok)
  }

  /** After `startNextOp` the queue is empty or blocked on a head whose `start` reports Ok. */
  lemma {:induction false} RunQueueSettles(device: string, auto: Option<seq<BleUuid>>, ops: seq<Op>, chars: seq<Characteristic>)
    requires AllOverride(ops)
    ensures var r := RunQueue(device, auto, ops, chars);
            Settled(device, auto, r.ops, r.characteristics)
    decreases |ops|
  {
    if ops != [] {
      var v := DeviceView(device, auto, chars);
      var s := Start(ops[0], v).value;
      if s.response == Complete {
        RunQueueSettles(device, auto, ops[1..], s.characteristics);
      } else {
        StartOkIsStable(ops[0], v);
      }
    }
  }

  /** `startNextOp` on a queue that is already settled starts its head once more and leaves the queue as it was, up to the head's fields. */
  lemma RunQueueOnSettled(device: string, auto: Option<seq<BleUuid>>, ops: seq<Op>, chars: seq<Characteristic>)
    requires AllOverride(ops) && ops != [] && Settled(device, auto, ops, chars)
    ensures var r := RunQueue(device, auto, ops, chars);
            |r.ops| == |ops| && r.ops[1..] == ops[1..] &&
            r.effects == Start(ops[0], DeviceView(device, auto, chars)).value.effects
  {
  }

  /** The drain on a lost connection: one abort per queued operation, head first, all with the same reason. */
  function AbortEvents(device: string, ops: seq<Op>, reason: AbortReason): (r: seq<Effect>)
    ensures |r| == |ops|
    ensures forall i :: 0 <= i < |ops| ==> r[i] == AbortDelivered(device, ops[i], reason)
  {
    seq(|ops|, i requires 0 <= i < |ops| => AbortDelivered(device, ops[i], reason))
  }

  /**
   * A transport callback reaching a device: nothing happens on an empty
   * queue; otherwise the head handles it (keeping its new field values) and,
   * when it reports Complete, `startNextOp` runs WITHOUT popping it first,
   * so `start` is called again on that same head.
   */
  function AfterEvent(device: string, auto: Option<seq<BleUuid>>, ops: seq<Op>, chars: seq<Characteristic>,
                      ev: TransportEvent, decode: Bytes -> Option<string>): (r: Run)
    requires AllOverride(ops)
    ensures AllOverride(r.ops)
    ensures ops == [] ==> r == Run(ops, chars, [])
    ensures |r.ops| <= |ops|
    ensures r.ops != [] ==> r.ops[1..] == ops[|ops| - |r.ops| + 1..]
  {
    if ops == [] then Run(ops, chars, [])
    else
      var s := Handle(ops[0], ev, DeviceView(device, auto, chars), decode);
      var q := [s.op] + ops[1..];
      assert q[1..] == ops[1..];
      if s.response == Complete then
        var run := RunQueue(device, auto, q, s.characteristics);
        Run(run.ops, run.characteristics, s.effects + run.effects)
      else
        Run(q, s.characteristics, s.effects)
  }

  /**
   * Because the head is not popped when its value handler reports Complete,
   * a read whose characteristic is cached delivers the value and then
   * starts again: the read stays at the head and a second `readValue` goes
   * out for the same characteristic.
   */
  lemma ReadCompletionReadsAgain(device: string, auto: Option<seq<BleUuid>>, op: Op, rest: seq<Op>,
                                 chars: seq<Characteristic>, c: Characteristic, e: Option<TransportError>,
                                 decode: Bytes -> Option<string>)
    requires op.ReadStringOp? || op.ReadDataOp?
    requires AllOverride(rest) && FirstWithUuid(chars, op.uuid).Some?
    ensures AllOverride([op] + rest)
    ensures var r := AfterEvent(device, auto, [op] + rest, chars, DidUpdateValue(c, e), decode);
            var delivered := Handle(op, DidUpdateValue(c, e), DeviceView(device, auto, chars), decode).effects;
            r.ops == [op] + rest && r.characteristics == chars &&
            |delivered| <= 1 &&
            r.effects == delivered + [ReadValueCmd(device, FirstWithUuid(chars, op.uuid).value)]
  {
  }

  /**
   * The same re-start for service discovery: when the last awaited service
   * reports its characteristics and the device has an auto-discover list,
   * the completed op (now awaiting nothing) is started again. That `start`
   * clears the cache just filled and asks for the services once more, so
   * the op stays at the head and the queue behind it does not move.
   */
  lemma DiscoverCompletionDiscoversAgain(device: string, list: seq<BleUuid>, waiting: seq<BleUuid>, rest: seq<Op>,
                                         chars: seq<Characteristic>, service: Service, e: Option<TransportError>,
                                         decode: Bytes -> Option<string>)
    requires AllOverride(rest)
    requires forall i :: 0 <= i < |waiting| ==> waiting[i] == service.uuid
    ensures AllOverride([DiscoverServicesOp(waiting)] + rest)
    ensures var r := AfterEvent(device, Some(list), [DiscoverServicesOp(waiting)] + rest, chars,
                                DidDiscoverCharacteristics(service, e), decode);
            r.ops == [DiscoverServicesOp(list)] + rest && r.characteristics == [] &&
            r.effects == [DiscoverServicesCmd(device, list)]
  {
  }

  /**
   * Without an auto-discover list the re-start reports Complete at once, so
   * the discovery op is popped with the cache it filled and the rest of the
   * queue is started.
   */
  lemma DiscoverCompletionMovesOn(device: string, waiting: seq<BleUuid>, rest: seq<Op>,
                                  chars: seq<Characteristic>, service: Service, e: Option<TransportError>,
                                  decode: Bytes -> Option<string>)
    requires AllOverride(rest)
    requires forall i :: 0 <= i < |waiting| ==> waiting[i] == service.uuid
    ensures AllOverride([DiscoverServicesOp(waiting)] + rest)
    ensures var r := AfterEvent(device, None, [DiscoverServicesOp(waiting)] + rest, chars,
                                DidDiscoverCharacteristics(service, e), decode);
            r == RunQueue(device, None, rest, chars + ServiceCharacteristics(service))
  {
  }
}
