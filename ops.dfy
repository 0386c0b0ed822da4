/**
 * Device operations (BlemDeviceOp and its subclasses DiscoverServicesOp,
 * ReadStringOp and ReadDataOp) as values with dispatch functions: `Start`,
 * `Abort` and `Handle` (one branch per transport callback, each defaulting
 * to `Complete`). The DiscoverServicesOp callbacks, which the source writes
 * as loops, also have loop implementations proved against these functions.
 */
module DeviceOps {
  import opened BleTypes

  /** What an operation sees of its device: its uuid, its auto-discovery list and its characteristic cache. */
  datatype DeviceView = DeviceView(device: string, autoDiscoverServices: Option<seq<BleUuid>>, characteristics: seq<Characteristic>)

  /**
   * The result of one hook call: the response, the operation's fields
   * afterwards, the device's characteristic cache afterwards and the outward
   * actions, in order.
   */
  datatype Step = Step(response: OpResponse, op: Op, characteristics: seq<Characteristic>, effects: seq<Effect>)

  /** A hook either returns or stops the process with `fatalError`. */
  datatype Outcome<T> = Done(value: T) | Fatal(message: string)

  /** Every handler the base class provides: log only, change nothing, report `Complete`. */
  function DefaultHandler(op: Op, v: DeviceView): (s: Step)
    ensures s.response == Complete && s.op == op && s.characteristics == v.characteristics && s.effects == []
  {
    Step(Complete, op, v.characteristics, [])
  }

  // ---------------------------------------------------------------- start

  /**
   * DiscoverServicesOp.start: with an auto-discovery list, clear the cache,
   * ask the peripheral to discover those services and wait for all of them;
   * without one, complete at once.
   */
  function DiscoverStart(op: Op, v: DeviceView): (s: Step)
    requires op.DiscoverServicesOp?
    ensures v.autoDiscoverServices.None? ==> s == DefaultHandler(op, v)
    ensures v.autoDiscoverServices.Some? ==>
              var list := v.autoDiscoverServices.value;
              s.response == Ok && s.characteristics == [] && s.op == DiscoverServicesOp(list) &&
              s.effects == [DiscoverServicesCmd(v.device, list)]
  {
    match v.autoDiscoverServices
    case None => Step(Complete, op, v.characteristics, [])
    case Some(list) => Step(Ok, DiscoverServicesOp(list), [], [DiscoverServicesCmd(v.device, list)])
  }

  /** ReadStringOp.start and ReadDataOp.start: read the cached characteristic, or complete when it is missing. */
  function ReadStart(op: Op, uuid: BleUuid, v: DeviceView): (s: Step)
    ensures s.op == op && s.characteristics == v.characteristics
    ensures s.response == Ok <==> exists c :: c in v.characteristics && c.uuid == uuid
    ensures s.response == Ok ==> s.effects == [ReadValueCmd(v.device, FirstWithUuid(v.characteristics, uuid).value)]
    ensures s.response == Complete ==> s.effects == []
  {
    match FirstWithUuid(v.characteristics, uuid)
    case Some(c) => Step(Ok, op, v.characteristics, [ReadValueCmd(v.device, c)])
    case None => Step(Complete, op, v.characteristics, [])
  }

  /** The `start` hook, by dynamic dispatch; the base class's `start` is fatal. */
  function Start(op: Op, v: DeviceView): (r: Outcome<Step>)
    ensures r.Fatal? <==> op.BaseOp?
    ensures r.Done? && r.value.response == Complete ==>
              r.value.effects == [] && r.value.characteristics == v.characteristics && r.value.op == op
  {
    match op
    case BaseOp => Fatal("Must override BleDeviceOp.start method")
    case DiscoverServicesOp(_) => Done(DiscoverStart(op, v))
    case ReadStringOp(uuid, _) => Done(ReadStart(op, uuid, v))
    case ReadDataOp(uuid, _) => Done(ReadStart(op, uuid, v))
  }

  /** The `abort` hook: every concrete operation ignores it; the base class's is fatal. */
  function Abort(op: Op, reason: AbortReason): (r: Outcome<Op>)
    ensures r.Fatal? <==> op.BaseOp?
    ensures r.Done? ==> r.value == op
  {
    if op.BaseOp? then Fatal("Must override BleDeviceOp.abort method") else Done(op)
  }

  // ---------------------------------------------------------------- DiscoverServicesOp handlers

  /** One `discoverCharacteristics(nil, for:)` command per reported service, in order, unfiltered. */
  function DiscoverCharacteristicsCommands(device: string, services: seq<Service>): (r: seq<Effect>)
    ensures |r| == |services|
    ensures forall i :: 0 <= i < |services| ==> r[i] == DiscoverCharacteristicsCmd(device, services[i].uuid)
  {
    seq(|services|, i requires 0 <= i < |services| => DiscoverCharacteristicsCmd(device, services[i].uuid))
  }

  /** The characteristics a service reports; a service that reports none contributes nothing. */
  function ServiceCharacteristics(service: Service): seq<Characteristic>
  {
    match service.characteristics
    case None => []
    case Some(cs) => cs
  }

  /** `s` with every occurrence of `u` dropped and the order of the others kept. */
  function Without(s: seq<BleUuid>, u: BleUuid): (r: seq<BleUuid>)
    ensures |r| <= |s|
    ensures forall x :: x in r <==> x in s && x != u
  {
    if s == [] then []
    else if s[0] == u then Without(s[1..], u)
    else [s[0]] + Without(s[1..], u)
  }

  /** didDiscoverCharacteristicsFor: extend the cache, stop waiting for this service, complete when nothing is left. */
  function DiscoverOnCharacteristics(waiting: seq<BleUuid>, service: Service, v: DeviceView): (s: Step)
    ensures s.op == DiscoverServicesOp(Without(waiting, service.uuid))
    ensures s.characteristics == v.characteristics + ServiceCharacteristics(service)
    ensures s.response == Complete <==> forall x :: x in waiting ==> x == service.uuid
    ensures s.effects == []
  {
    var rest := Without(waiting, service.uuid);
    assert rest == [] <==> forall x :: x in waiting ==> x == service.uuid by {
      if rest != [] { assert rest[0] in rest; }
    }
    Step(if rest == [] then Complete else Ok, DiscoverServicesOp(rest),
         v.characteristics + ServiceCharacteristics(service), [])
  }

  // ---------------------------------------------------------------- read handlers

  /**
   * ReadStringOp's value handler. `decode` stands for Foundation's UTF-8
   * decoding followed by trimming control characters. The characteristic's
   * uuid is not checked.
   */
  function ReadStringOnValue(op: Op, c: Characteristic, v: DeviceView, decode: Bytes -> Option<string>): (s: Step)
    requires op.ReadStringOp?
    ensures s.response == Complete && s.op == op && s.characteristics == v.characteristics
    ensures c.value.None? ==> s.effects == []
    ensures c.value.Some? && decode(c.value.value).None? ==> s.effects == []
    ensures c.value.Some? && decode(c.value.value).Some? ==>
              s.effects == [ReadStringDelivered(op.closure, decode(c.value.value), None)]
  {
    match c.value
    case None => Step(Complete, op, v.characteristics, [])
    case Some(bytes) =>
      match decode(bytes)
      case None => Step(Complete, op, v.characteristics, [])
      case Some(text) => Step(Complete, op, v.characteristics, [ReadStringDelivered(op.closure, Some(text), None)])
  }

  /** The text of the transport error, when there is one. */
  function Description(e: Option<TransportError>): (r: Option<string>)
    ensures r.None? <==> e.None?
  {
    match e
    case None => None
    case Some(err) => Some(err.description)
  }

  /** ReadDataOp's value handler: always call the closure once with (value, error description) and complete. */
  function ReadDataOnValue(op: Op, c: Characteristic, e: Option<TransportError>, v: DeviceView): (s: Step)
    requires op.ReadDataOp?
    ensures s.response == Complete && s.op == op && s.characteristics == v.characteristics
    ensures |s.effects| == 1 && s.effects[0].ReadDataDelivered? && s.effects[0].closure == op.closure
    ensures s.effects[0].data == c.value
    ensures s.effects[0].error.None? <==> e.None?
  {
    Step(Complete, op, v.characteristics, [ReadDataDelivered(op.closure, c.value, Description(e))])
  }

  // ---------------------------------------------------------------- dispatch

  /** The callbacks a concrete operation overrides; every other one keeps the base class's default. */
  predicate Overridden(op: Op, ev: TransportEvent)
  {
    match op
    case BaseOp => false
    case DiscoverServicesOp(_) => ev.DidDiscoverServices? || ev.DidDiscoverCharacteristics?
    case ReadStringOp(_, _) => ev.DidUpdateValue?
    case ReadDataOp(_, _) => ev.DidUpdateValue?
  }

  /** A transport callback delivered to an operation, by dynamic dispatch. */
  function Handle(op: Op, ev: TransportEvent, v: DeviceView, decode: Bytes -> Option<string>): (s: Step)
    ensures !Overridden(op, ev) ==> s == DefaultHandler(op, v)
    ensures s.op.DiscoverServicesOp? <==> op.DiscoverServicesOp?
    ensures !op.DiscoverServicesOp? ==> s.op == op && s.characteristics == v.characteristics
    ensures op.DiscoverServicesOp? && ev.DidDiscoverServices? ==>
              s.response == Ok && s.op == op && s.characteristics == v.characteristics &&
              s.effects == DiscoverCharacteristicsCommands(v.device, ev.services)
    ensures op.DiscoverServicesOp? && ev.DidDiscoverCharacteristics? ==>
              s == DiscoverOnCharacteristics(op.waitingForServices, ev.service, v)
    ensures op.ReadStringOp? && ev.DidUpdateValue? ==> s == ReadStringOnValue(op, ev.characteristic, v, decode)
    ensures op.ReadDataOp? && ev.DidUpdateValue? ==> s == ReadDataOnValue(op, ev.characteristic, ev.error, v)
  {
    match op
    case DiscoverServicesOp(waiting) =>
      (match ev
       case DidDiscoverServices(services, _) =>
         Step(Ok, op, v.characteristics, DiscoverCharacteristicsCommands(v.device, services))
       case DidDiscoverCharacteristics(service, _) => DiscoverOnCharacteristics(waiting, service, v)
       case _ => DefaultHandler(op, v))
    case ReadStringOp(_, _) =>
      (match ev
       case DidUpdateValue(c, _) => ReadStringOnValue(op, c, v, decode)
       case _ => DefaultHandler(op, v))
    case ReadDataOp(_, _) =>
      (match ev
       case DidUpdateValue(c, e) => ReadDataOnValue(op, c, e, v)
       case _ => DefaultHandler(op, v))
    case BaseOp => DefaultHandler(op, v)
  }

  // ---------------------------------------------------------------- DiscoverServicesOp, as the source's loops

  /** The services handler as a loop: one characteristics discovery request per reported service, in order. */
  method SendDiscoverCharacteristics(device: string, services: seq<Service>) returns (effects: seq<Effect>)
    ensures |effects| == |services|
    ensures forall i :: 0 <= i < |services| ==> effects[i] == DiscoverCharacteristicsCmd(device, services[i].uuid)
  {
    effects := [];
    for i := 0 to |services|
      invariant |effects| == i
      invariant forall k :: 0 <= k < i ==> effects[k] == DiscoverCharacteristicsCmd(device, services[k].uuid)
    {
      effects := effects + [DiscoverCharacteristicsCmd(device, services[i].uuid)];
    }
  }

  /** The characteristics handler as a loop: each reported characteristic joins the end of the cache, in order. */
  method AppendCharacteristics(cache: seq<Characteristic>, service: Service) returns (r: seq<Characteristic>)
    ensures r == cache + ServiceCharacteristics(service)
  {
    var found := ServiceCharacteristics(service);
    r := cache;
    for i := 0 to |found|
      invariant r == cache + found[..i]
    {
      r := r + [found[i]];
      assert found[..i + 1] == found[..i] + [found[i]];
    }
    assert found[..|found|] == found;
  }

  /** The in-place filter that drops the reporting service from the awaited list. */
  method RemoveWaiting(waiting: seq<BleUuid>, uuid: BleUuid) returns (r: seq<BleUuid>)
    ensures r == Without(waiting, uuid)
  {
    r := [];
    var i := |waiting|;
    while i > 0
      invariant 0 <= i <= |waiting|
      invariant r == Without(waiting[i..], uuid)
    {
      i := i - 1;
      assert waiting[i..][1..] == waiting[i + 1..];
      if waiting[i] != uuid {
        r := [waiting[i]] + r;
      }
    }
    assert waiting[0..] == waiting;
  }

  /** Delivers a transport callback to an operation, running DiscoverServicesOp's handlers as loops. */
  method Dispatch(op: Op, ev: TransportEvent, v: DeviceView, decode: Bytes -> Option<string>) returns (s: Step)
    ensures s == Handle(op, ev, v, decode)
  {
    match op {
      case DiscoverServicesOp(waiting) =>
        match ev {
          case DidDiscoverServices(services, _) =>
            var cmds := SendDiscoverCharacteristics(v.device, services);
            s := Step(Ok, op, v.characteristics, cmds);
          case DidDiscoverCharacteristics(service, _) =>
            var chars := AppendCharacteristics(v.characteristics, service);
            var rest := RemoveWaiting(waiting, service.uuid);
            s := Step(if |rest| == 0 then Complete else Ok, DiscoverServicesOp(rest), chars, []);
          case _ =>
            s := DefaultHandler(op, v);
        }
      case _ =>
        s := Handle(op, ev, v, decode);
    }
  }

  // ---------------------------------------------------------------- lemmas

  /** `Without` keeps the relative order of the remaining identifiers. */
  lemma {:induction false} WithoutAppend(a: seq<BleUuid>, b: seq<BleUuid>, u: BleUuid)
    ensures Without(a + b, u) == Without(a, u) + Without(b, u)
  {
    if a == [] {
      assert a + b == b;
    } else {
      assert (a + b)[0] == a[0];
      assert (a + b)[1..] == a[1..] + b;
      WithoutAppend(a[1..], b, u);
    }
  }

  /** The identifiers still awaited after characteristics arrived for `reported` services, one after another. */
  function WaitingAfter(waiting: seq<BleUuid>, reported: seq<BleUuid>): seq<BleUuid>
    decreases |reported|
  {
    if reported == [] then waiting else WaitingAfter(Without(waiting, reported[0]), reported[1..])
  }

  /** A service stays awaited exactly until characteristics for it have been reported. */
  lemma {:induction false} WaitingAfterMembers(waiting: seq<BleUuid>, reported: seq<BleUuid>, x: BleUuid)
    ensures x in WaitingAfter(waiting, reported) <==> x in waiting && x !in reported
    decreases |reported|
  {
    if reported != [] {
      WaitingAfterMembers(Without(waiting, reported[0]), reported[1..], x);
      assert x in reported <==> x == reported[0] || x in reported[1..] by {
        assert reported == [reported[0]] + reported[1..];
      }
    }
  }

  /**
   * A DiscoverServicesOp is done once every awaited service has reported its
   * characteristics, whatever else was reported, and not before.
   */
  lemma DiscoverDoneExactlyWhenAllReported(waiting: seq<BleUuid>, reported: seq<BleUuid>)
    ensures WaitingAfter(waiting, reported) == [] <==> forall x :: x in waiting ==> x in reported
  {
    var r := WaitingAfter(waiting, reported);
    forall x ensures x in r <==> x in waiting && x !in reported {
      WaitingAfterMembers(waiting, reported, x);
    }
    if r != [] { assert r[0] in r; }
  }

  /**
   * The scenario of a device with auto-discovery list [s1] whose peripheral
   * reports [s1, s2]: characteristics discovery is requested for both
   * services (the handler does not filter), and the operation completes as
   * soon as s1's characteristics arrive, without waiting for s2.
   */
  lemma DiscoverScenario(device: string, s1: Service, s2: Service, decode: Bytes -> Option<string>)
    requires s1.uuid != s2.uuid
    ensures var v := DeviceView(device, Some([s1.uuid]), []);
            var started := Start(DiscoverServicesOp([]), v).value;
            var listed := Handle(started.op, DidDiscoverServices([s1, s2], None), v, decode);
            var arrived := Handle(listed.op, DidDiscoverCharacteristics(s1, None), v, decode);
            started.response == Ok &&
            listed.effects == [DiscoverCharacteristicsCmd(device, s1.uuid), DiscoverCharacteristicsCmd(device, s2.uuid)] &&
            arrived.response == Complete
  {
  }

  /**
   * A start that returned Ok still returns Ok when the operation, as it
   * then is, is started again against the cache it left: the head of a
   * queue stays blocking until a callback completes it.
   */
  lemma StartOkIsStable(op: Op, v: DeviceView)
    requires op.Overrides() && Start(op, v).value.response == Ok
    ensures var s := Start(op, v).value;
            Start(s.op, DeviceView(v.device, v.autoDiscoverServices, s.characteristics)).value.response == Ok
  {
  }
}
