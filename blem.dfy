/**
 * The objects of the Blem library that call one another: BlemDevice with its
 * BleOpQueue, BlemScanner, the coordinator Blem and its BleDeviceList. They
 * live in one module because a device asks the coordinator to connect it
 * and the coordinator moves the device's state, and likewise a scanner asks
 * the coordinator to end its scan and the coordinator finishes the scanner.
 *
 * Every method returns the outward actions it performed, in order
 * (transport commands and calls into application closures). The
 * transport's view of a peripheral's connection is passed in as `pstate`;
 * owners referenced weakly are alive while in `alive`; the delays of the
 * source (the scan grace period, the start-up watchdog and the scan
 * duration) are methods called when the delay has elapsed.
 */
module BleManager {
  import opened BleTypes
  import opened DeviceOps
  import opened QueueSpec
  import opened Notify
  import opened WeakList

  /** BlemDiscoveryBundle: the discovered peripheral's identifier and name, and the signal strength. */
  datatype DiscoveryBundle = DiscoveryBundle(peripheral: string, peripheralName: Option<string>, rssi: int)

  /** Which class a device is: a plain BlemDevice or an application subclass built by a scanner's factory. */
  datatype DeviceKind = PlainDevice | CustomDevice(tag: nat)

  /** BlemScanState. */
  datatype ScanState = Waiting | Scanning | Stopped | Failed

  /** The abort reason a lost-connection state hands to every queued operation. */
  function AbortReasonFor(s: DeviceState): (r: Option<AbortReason>)
    ensures r.None? <==> s == Connected || s == Connecting
  {
    match s
    case Disconnected => Some(AbortDisconnected)
    case FailedToConnect => Some(AbortFailedToConnect)
    case BleNotAvailable => Some(AbortBleNotAvailable)
    case _ => None
  }

  // ====================================================================== BleOpQueue

  /** BleOpQueue: the device's FIFO of operations. */
  class BleOpQueue {
    var ops: seq<Op>

    constructor ()
      ensures ops == []
    {
      ops := [];
    }

    method Count() returns (n: nat)
      ensures n == |ops|
    {
      n := |ops|;
    }

    /** `pushOpFront`: despite its name, appends at the tail, exactly as `pushOp` does. */
    method PushOpFront(op: Op)
      modifies this
      ensures ops == old(ops) + [op]
    {
      ops := ops + [op];
    }

    /** `pushOp`: appends at the tail. */
    method PushOp(op: Op)
      modifies this
      ensures ops == old(ops) + [op]
    {
      ops := ops + [op];
    }

    /** `getCurrentOp`: the head, if any. */
    method GetCurrentOp() returns (r: Option<Op>)
      ensures ops == [] <==> r.None?
      ensures ops != [] ==> r == Some(ops[0])
    {
      r := if ops == [] then None else Some(ops[0]);
    }

    /** `popCurrentOp`: remove and return the head; on an empty queue return nil and change nothing. */
    method PopCurrentOp() returns (r: Option<Op>)
      modifies this
      ensures old(ops) == [] ==> r.None? && ops == old(ops)
      ensures old(ops) != [] ==> r == Some(old(ops)[0]) && ops == old(ops)[1..]
    {
      if ops != [] {
        r := Some(ops[0]);
        ops := ops[1..];
      } else {
        r := None;
      }
    }

    /**
     * The head operation's fields as a hook left them. In the source the
     * head is an object updated in place; here the queue holds values, so
     * the updated value takes the head's place.
     */
    method UpdateCurrentOp(op: Op)
      requires ops != []
      modifies this
      ensures ops == [op] + old(ops)[1..]
    {
      ops := [op] + ops[1..];
    }
  }

  // ====================================================================== BlemDevice

  class BlemDevice {
    const uuid: string
    const name: string
    const kind: DeviceKind
    var rssi: int
    var autoDiscoverServices: Option<seq<BleUuid>>
    var characteristics: seq<Characteristic>
    var onStateChangedClosure: Option<ClosureId>
    const queue: BleOpQueue
    const notifyManager: BlemNotifyManager

    ghost predicate Valid()
      reads this, queue, notifyManager
    {
      AllOverride(queue.ops) && notifyManager.Valid() && notifyManager.device == uuid
    }

    /** `init(_:)`: named after the peripheral (or "Unknown"), no operations, an empty cache. */
    constructor (bundle: DiscoveryBundle, kind: DeviceKind)
      ensures Valid() && fresh(queue) && fresh(notifyManager)
      ensures uuid == bundle.peripheral && this.kind == kind && rssi == bundle.rssi
      ensures name == (if bundle.peripheralName.Some? then bundle.peripheralName.value else "Unknown")
      ensures queue.ops == [] && characteristics == [] && autoDiscoverServices.None? && onStateChangedClosure.None?
      ensures notifyManager.observers == [] && notifyManager.activeUuids == []
    {
      uuid := bundle.peripheral;
      name := if bundle.peripheralName.Some? then bundle.peripheralName.value else "Unknown";
      this.kind := kind;
      rssi := bundle.rssi;
      autoDiscoverServices := None;
      characteristics := [];
      onStateChangedClosure := None;
      queue := new BleOpQueue();
      notifyManager := new BlemNotifyManager(bundle.peripheral);
    }

    /** What an operation sees of this device. */
    function View(): DeviceView
      reads this
    {
      DeviceView(uuid, autoDiscoverServices, characteristics)
    }

    /** `characteristic(_:)`: the first cached characteristic with this uuid. */
    function CharacteristicFor(u: BleUuid): (r: Option<Characteristic>)
      reads this
      ensures r.None? <==> forall i :: 0 <= i < |characteristics| ==> characteristics[i].uuid != u
      ensures r.Some? ==> r.value.uuid == u && r.value == characteristics[FirstIndex(characteristics, u)]
    {
      FirstWithUuid(characteristics, u)
    }

    /** The call of the state closure for `s`, when one is set. */
    function StateChangedCall(s: DeviceState): seq<Effect>
      reads this
    {
      if onStateChangedClosure.Some? then [StateChanged(uuid, s)] else []
    }

    /**
     * What `newState(s)` does to a device whose queue held `ops0` and whose
     * cache held `chars0`:
     * - connected: a DiscoverServicesOp joins the tail, the state closure is
     *   called, then `startNextOp` runs;
     * - connecting: nothing;
     * - disconnected, failed-to-connect, radio unavailable: every queued op
     *   gets one abort with the matching reason, head first, the queue ends
     *   empty, and only then is the state closure called.
     */
    ghost predicate Reacted(s: DeviceState, ops0: seq<Op>, chars0: seq<Characteristic>, effects: seq<Effect>)
      reads this, queue
    {
      match s
      case Connected =>
        AllOverride(ops0) &&
        var r := RunQueue(uuid, autoDiscoverServices, ops0 + [DiscoverServicesOp([])], chars0);
        queue.ops == r.ops && characteristics == r.characteristics && effects == StateChangedCall(s) + r.effects
      case Connecting =>
        queue.ops == ops0 && characteristics == chars0 && effects == []
      case _ =>
        queue.ops == [] && characteristics == chars0 &&
        effects == AbortEvents(uuid, ops0, AbortReasonFor(s).value) + StateChangedCall(s)
    }

    /** `onStateChanged(_:)`: install the state closure. */
    method OnStateChanged(closure: ClosureId)
      modifies this
      ensures onStateChangedClosure == Some(closure)
      ensures autoDiscoverServices == old(autoDiscoverServices) && characteristics == old(characteristics) && rssi == old(rssi)
    {
      onStateChangedClosure := Some(closure);
    }

    /** `newState(_:)`. */
    method NewState(s: DeviceState) returns (effects: seq<Effect>)
      requires Valid()
      modifies this, queue
      ensures Valid()
      ensures autoDiscoverServices == old(autoDiscoverServices) && onStateChangedClosure == old(onStateChangedClosure) && rssi == old(rssi)
      ensures Reacted(s, old(queue.ops), old(characteristics), effects)
    {
      match s {
        case Connected =>
          queue.PushOpFront(DiscoverServicesOp([]));
          var more := StartNextOp();
          effects := StateChangedCall(s) + more;
        case Connecting =>
          effects := [];
        case _ =>
          effects := AbortAll(AbortReasonFor(s).value);
          effects := effects + StateChangedCall(s);
      }
    }

    /** The drain of `newState`: while the queue is not empty, abort its head and pop it. */
    method AbortAll(reason: AbortReason) returns (effects: seq<Effect>)
      requires Valid()
      modifies queue
      ensures Valid()
      ensures queue.ops == [] && effects == AbortEvents(uuid, old(queue.ops), reason)
    {
      ghost var ops0 := queue.ops;
      ghost var k := 0;
      effects := [];
      var n := queue.Count();
      while n > 0
        invariant Valid()
        invariant 0 <= k <= |ops0| && queue.ops == ops0[k..] && n == |queue.ops|
        invariant |effects| == k
        invariant forall i :: 0 <= i < k ==> effects[i] == AbortDelivered(uuid, ops0[i], reason)
        decreases n
      {
        var current := queue.GetCurrentOp();
        var aborted := Abort(current.value, reason);
        assert aborted == Done(current.value);
        effects := effects + [AbortDelivered(uuid, current.value, reason)];
        var popped := queue.PopCurrentOp();
        k := k + 1;
        assert ops0[k - 1..][1..] == ops0[k..];
        n := queue.Count();
      }
    }

    /** `connect()`: ask the coordinator, unless the peripheral is already connected. */
    method Connect(pstate: PeripheralState, mgr: Blem) returns (effects: seq<Effect>)
      requires Valid()
      modifies this, queue
      ensures Valid()
      ensures autoDiscoverServices == old(autoDiscoverServices) && onStateChangedClosure == old(onStateChangedClosure) && rssi == old(rssi)
      ensures pstate == PeripheralConnected ==> effects == [] && queue.ops == old(queue.ops) && characteristics == old(characteristics)
      ensures pstate != PeripheralConnected ==> mgr.ConnectOutcome(this, pstate, old(queue.ops), old(characteristics), effects)
    {
      effects := [];
      if pstate != PeripheralConnected {
        effects := mgr.Connect(this, pstate);
      }
    }

    /** `disconnect()`: ask the coordinator, unless the peripheral is already disconnected. */
    method Disconnect(pstate: PeripheralState, mgr: Blem) returns (effects: seq<Effect>)
      requires Valid()
      modifies this, queue
      ensures Valid()
      ensures autoDiscoverServices == old(autoDiscoverServices) && onStateChangedClosure == old(onStateChangedClosure) && rssi == old(rssi)
      ensures pstate == PeripheralDisconnected ==> effects == [] && queue.ops == old(queue.ops) && characteristics == old(characteristics)
      ensures pstate != PeripheralDisconnected ==> mgr.DisconnectOutcome(this, pstate, old(queue.ops), old(characteristics), effects)
    {
      effects := [];
      if pstate != PeripheralDisconnected {
        effects := mgr.Disconnect(this, pstate);
      }
    }

    /** `startNextOp()`: start the head and pop it for as long as `start` reports Complete. */
    method StartNextOp() returns (effects: seq<Effect>)
      requires Valid()
      modifies this, queue
      ensures Valid()
      ensures autoDiscoverServices == old(autoDiscoverServices) && onStateChangedClosure == old(onStateChangedClosure) && rssi == old(rssi)
      ensures var r := RunQueue(uuid, autoDiscoverServices, old(queue.ops), old(characteristics));
              queue.ops == r.ops && characteristics == r.characteristics && effects == r.effects
    {
      ghost var goal := RunQueue(uuid, autoDiscoverServices, queue.ops, characteristics);
      effects := [];
      while true
        invariant Valid()
        invariant autoDiscoverServices == old(autoDiscoverServices) && onStateChangedClosure == old(onStateChangedClosure) && rssi == old(rssi)
        invariant var r := RunQueue(uuid, autoDiscoverServices, queue.ops, characteristics);
                  goal == Run(r.ops, r.characteristics, effects + r.effects)
        decreases |queue.ops|
      {
        var current := queue.GetCurrentOp();
        if current.None? {
          return;
        }
        var s := Start(current.value, View()).value;
        characteristics := s.characteristics;
        effects := effects + s.effects;
        if s.response != Complete {
          queue.UpdateCurrentOp(s.op);
          return;
        }
        var popped := queue.PopCurrentOp();
      }
    }

    /**
     * `queueOp(_:)`: append the op; connect when the peripheral is not
     * connected; otherwise start it when it is the only op queued.
     */
    method QueueOp(op: Op, pstate: PeripheralState, mgr: Blem) returns (effects: seq<Effect>)
      requires Valid() && op.Overrides()
      modifies this, queue
      ensures Valid()
      ensures autoDiscoverServices == old(autoDiscoverServices) && onStateChangedClosure == old(onStateChangedClosure) && rssi == old(rssi)
      ensures pstate != PeripheralConnected ==>
                mgr.ConnectOutcome(this, pstate, old(queue.ops) + [op], old(characteristics), effects)
      ensures pstate == PeripheralConnected && old(queue.ops) == [] ==>
                var r := RunQueue(uuid, autoDiscoverServices, [op], old(characteristics));
                queue.ops == r.ops && characteristics == r.characteristics && effects == r.effects
      ensures pstate == PeripheralConnected && old(queue.ops) != [] ==>
                queue.ops == old(queue.ops) + [op] && characteristics == old(characteristics) && effects == []
    {
      queue.PushOp(op);
      effects := [];
      if pstate != PeripheralConnected {
        effects := Connect(pstate, mgr);
      } else {
        var n := queue.Count();
        if n == 1 {
          assert old(queue.ops) == [];
          effects := StartNextOp();
        }
      }
    }

    /**
     * The peripheral-delegate methods: the callback goes to the head op only
     * (nothing happens on an empty queue); when the head reports Complete,
     * `startNextOp` runs without popping it. A value update is then also
     * handed to the notify manager, whatever the head returned.
     */
    method Deliver(ev: TransportEvent, decode: Bytes -> Option<string>, alive: set<OwnerId>) returns (effects: seq<Effect>)
      requires Valid()
      modifies this, queue, notifyManager
      ensures Valid()
      ensures autoDiscoverServices == old(autoDiscoverServices) && onStateChangedClosure == old(onStateChangedClosure) && rssi == old(rssi)
      ensures var r := AfterEvent(uuid, autoDiscoverServices, old(queue.ops), old(characteristics), ev, decode);
              queue.ops == r.ops && characteristics == r.characteristics &&
              effects == r.effects + (if ev.DidUpdateValue? then DataCalls(old(notifyManager.observers), ev.characteristic, alive) else [])
      ensures ev.DidUpdateValue? ==> notifyManager.observers == LiveObservers(old(notifyManager.observers), alive)
      ensures notifyManager.activeUuids == old(notifyManager.activeUuids)
      ensures !ev.DidUpdateValue? ==> notifyManager.observers == old(notifyManager.observers)
    {
      effects := [];
      var current := queue.GetCurrentOp();
      if current.Some? {
        var s := Dispatch(current.value, ev, View(), decode);
        queue.UpdateCurrentOp(s.op);
        characteristics := s.characteristics;
        effects := s.effects;
        if s.response == Complete {
          var more := StartNextOp();
          effects := effects + more;
        }
      }
      if ev.DidUpdateValue? {
        var calls := notifyManager.DidUpdateValue(ev.characteristic, alive);
        effects := effects + calls;
      }
    }
  }

  // ====================================================================== BlemScanner

  class BlemScanner {
    /** Names this scanner in the effect log. */
    const token: nat
    const seconds: int
    const services: seq<BleUuid>
    var state: ScanState
    var discoveryCreatorClosure: Option<ClosureId>
    var onDiscoverClosure: Option<ClosureId>
    var onFinishedClosure: Option<ClosureId>
    var onFailedClosure: Option<ClosureId>

    /** `init(manager:seconds:services:)`: a new scanner waits; its start-up watchdog is `WatchdogFires`. */
    constructor (token: nat, seconds: int, services: seq<BleUuid>)
      ensures this.token == token && this.seconds == seconds && this.services == services
      ensures state == Waiting
      ensures discoveryCreatorClosure.None? && onDiscoverClosure.None? && onFinishedClosure.None? && onFailedClosure.None?
    {
      this.token := token;
      this.seconds := seconds;
      this.services := services;
      state := Waiting;
      discoveryCreatorClosure := None;
      onDiscoverClosure := None;
      onFinishedClosure := None;
      onFailedClosure := None;
    }

    function FinishedCall(): seq<Effect>
      reads this
    {
      if onFinishedClosure.Some? then [ScanFinished(token)] else []
    }

    function FailedCall(): seq<Effect>
      reads this
    {
      if onFailedClosure.Some? then [ScanFailed(token)] else []
    }

    /** The closures and state are kept; used by the builder methods' contracts. */
    ghost predicate SameClosures(creator: Option<ClosureId>, discover: Option<ClosureId>, finished: Option<ClosureId>, failed: Option<ClosureId>)
      reads this
    {
      discoveryCreatorClosure == creator && onDiscoverClosure == discover &&
      onFinishedClosure == finished && onFailedClosure == failed
    }

    method OnDiscoveryCreator(closure: ClosureId)
      modifies this
      ensures state == old(state) && SameClosures(Some(closure), old(onDiscoverClosure), old(onFinishedClosure), old(onFailedClosure))
    {
      discoveryCreatorClosure := Some(closure);
    }

    method OnDiscover(closure: ClosureId)
      modifies this
      ensures state == old(state) && SameClosures(old(discoveryCreatorClosure), Some(closure), old(onFinishedClosure), old(onFailedClosure))
    {
      onDiscoverClosure := Some(closure);
    }

    method OnFinished(closure: ClosureId)
      modifies this
      ensures state == old(state) && SameClosures(old(discoveryCreatorClosure), old(onDiscoverClosure), Some(closure), old(onFailedClosure))
    {
      onFinishedClosure := Some(closure);
    }

    method OnFailed(closure: ClosureId)
      modifies this
      ensures state == old(state) && SameClosures(old(discoveryCreatorClosure), old(onDiscoverClosure), old(onFinishedClosure), Some(closure))
    {
      onFailedClosure := Some(closure);
    }

    /**
     * `createDevice(_:)`: the factory closure's device when it returns one,
     * otherwise a plain BlemDevice. `factoryResult` is what the closure
     * returns: nil, or a device subclass built from the same bundle.
     */
    method CreateDevice(bundle: DiscoveryBundle, factoryResult: Option<nat>) returns (d: BlemDevice, effects: seq<Effect>)
      ensures fresh(d) && fresh(d.queue) && fresh(d.notifyManager) && d.Valid()
      ensures d.uuid == bundle.peripheral && d.queue.ops == [] && d.characteristics == [] && d.autoDiscoverServices.None?
      ensures d.kind == (if discoveryCreatorClosure.Some? && factoryResult.Some? then CustomDevice(factoryResult.value) else PlainDevice)
      ensures effects == (if discoveryCreatorClosure.Some? then [DeviceFactoryCalled(token)] else [])
    {
      effects := [];
      if discoveryCreatorClosure.Some? {
        effects := [DeviceFactoryCalled(token)];
        if factoryResult.Some? {
          d := new BlemDevice(bundle, CustomDevice(factoryResult.value));
          return;
        }
      }
      d := new BlemDevice(bundle, PlainDevice);
    }

    /** `start()`: ask the coordinator to make this the active scanner. */
    method Start(mgr: Blem) returns (effects: seq<Effect>)
      modifies mgr, mgr.activeScanner
      ensures mgr.activeScanner == this
      ensures mgr.managerIsStarting == old(mgr.managerIsStarting)
      ensures old(mgr.activeScanner) == null ==> effects == [StopScanCmd]
      ensures old(mgr.activeScanner) != null ==>
                old(mgr.activeScanner).state == Stopped && effects == [StopScanCmd] + old(mgr.activeScanner.FinishedCall())
      ensures old(mgr.activeScanner) != null ==>
                old(mgr.activeScanner).SameClosures(old(mgr.activeScanner.discoveryCreatorClosure), old(mgr.activeScanner.onDiscoverClosure),
                                                    old(mgr.activeScanner.onFinishedClosure), old(mgr.activeScanner.onFailedClosure))
      ensures old(mgr.activeScanner) != this ==> state == old(state)
      ensures SameClosures(old(discoveryCreatorClosure), old(onDiscoverClosure), old(onFinishedClosure), old(onFailedClosure))
    {
      effects := mgr.StartScanning(this);
    }

    /**
     * `stop()`: from waiting or scanning, ask the coordinator to end this
     * scan; in every case the scanner ends stopped.
     */
    method Stop(mgr: Blem) returns (effects: seq<Effect>)
      modifies this, mgr
      ensures state == Stopped
      ensures mgr.managerIsStarting == old(mgr.managerIsStarting)
      ensures (old(state) == Stopped || old(state) == ScanState.Failed) ==> effects == [] && mgr.activeScanner == old(mgr.activeScanner)
      ensures (old(state) == Waiting || old(state) == Scanning) ==> mgr.EndedScan(this, old(mgr.activeScanner), old(FinishedCall()), effects)
      ensures SameClosures(old(discoveryCreatorClosure), old(onDiscoverClosure), old(onFinishedClosure), old(onFailedClosure))
    {
      effects := [];
      match state {
        case Waiting =>
          effects := mgr.EndScanner(this);
        case Scanning =>
          effects := mgr.EndScanner(this);
        case _ =>
      }
      state := Stopped;
    }

    /** `startedScanning()`: the scan is running; its duration timer is `DurationElapsed`. */
    method StartedScanning()
      modifies this
      ensures state == Scanning
      ensures SameClosures(old(discoveryCreatorClosure), old(onDiscoverClosure), old(onFinishedClosure), old(onFailedClosure))
    {
      state := Scanning;
    }

    /** The duration timer fired: stop, but only if still waiting or scanning. */
    method DurationElapsed(mgr: Blem) returns (effects: seq<Effect>)
      modifies this, mgr
      ensures mgr.managerIsStarting == old(mgr.managerIsStarting)
      ensures (old(state) == Stopped || old(state) == ScanState.Failed) ==>
                effects == [] && state == old(state) && mgr.activeScanner == old(mgr.activeScanner)
      ensures (old(state) == Waiting || old(state) == Scanning) ==>
                state == Stopped && mgr.EndedScan(this, old(mgr.activeScanner), old(FinishedCall()), effects)
      ensures SameClosures(old(discoveryCreatorClosure), old(onDiscoverClosure), old(onFinishedClosure), old(onFailedClosure))
    {
      effects := [];
      if state == Waiting || state == Scanning {
        effects := Stop(mgr);
      }
    }

    /** `discovered(device:)`: call the discovery closure, if set. */
    method Discovered(device: BlemDevice) returns (effects: seq<Effect>)
      ensures effects == (if onDiscoverClosure.Some? then [ScanDiscovered(token, device.uuid)] else [])
    {
      effects := [];
      if onDiscoverClosure.Some? {
        effects := [ScanDiscovered(token, device.uuid)];
      }
    }

    /** `finished()`: stopped, and the finished closure is called once if set. */
    method Finished() returns (effects: seq<Effect>)
      modifies this
      ensures state == Stopped && effects == FinishedCall()
      ensures SameClosures(old(discoveryCreatorClosure), old(onDiscoverClosure), old(onFinishedClosure), old(onFailedClosure))
    {
      state := Stopped;
      effects := FinishedCall();
    }

    /**
     * `failed()`: failed, ask the coordinator to end the scan, then call the
     * failed closure. If this scanner is the active one, the coordinator
     * finishes it, so it ends stopped rather than failed.
     */
    method Failed(mgr: Blem) returns (effects: seq<Effect>)
      modifies this, mgr
      ensures mgr.managerIsStarting == old(mgr.managerIsStarting)
      ensures old(mgr.activeScanner) == this ==>
                state == Stopped && mgr.activeScanner == null && effects == FinishedCall() + [StopScanCmd] + FailedCall()
      ensures old(mgr.activeScanner) != this ==>
                state == ScanState.Failed && mgr.activeScanner == old(mgr.activeScanner) && effects == FailedCall()
      ensures SameClosures(old(discoveryCreatorClosure), old(onDiscoverClosure), old(onFinishedClosure), old(onFailedClosure))
    {
      state := ScanState.Failed;
      effects := mgr.EndScanner(this);
      effects := effects + FailedCall();
    }

    /** The start-up watchdog fired: fail, but only if the scan never started. */
    method WatchdogFires(mgr: Blem) returns (effects: seq<Effect>)
      modifies this, mgr
      ensures mgr.managerIsStarting == old(mgr.managerIsStarting)
      ensures old(state) != Waiting ==> effects == [] && state == old(state) && mgr.activeScanner == old(mgr.activeScanner)
      ensures old(state) == Waiting && old(mgr.activeScanner) == this ==>
                state == Stopped && mgr.activeScanner == null && effects == FinishedCall() + [StopScanCmd] + FailedCall()
      ensures old(state) == Waiting && old(mgr.activeScanner) != this ==>
                state == ScanState.Failed && mgr.activeScanner == old(mgr.activeScanner) && effects == FailedCall()
      ensures SameClosures(old(discoveryCreatorClosure), old(onDiscoverClosure), old(onFinishedClosure), old(onFailedClosure))
    {
      effects := [];
      if state == Waiting {
        effects := Failed(mgr);
      }
    }
  }

  // ====================================================================== BleDeviceList

  /** The index of the first device whose uuid matches `u` up to case, or `|devices|`. */
  function IndexOfUuid(devices: seq<BlemDevice>, u: string): (k: nat)
    ensures k <= |devices|
    ensures k < |devices| ==> SameUuid(devices[k].uuid, u)
    ensures forall j :: 0 <= j < k ==> !SameUuid(devices[j].uuid, u)
  {
    if devices == [] then 0
    else if SameUuid(devices[0].uuid, u) then 0
    else 1 + IndexOfUuid(devices[1..], u)
  }

  /** BleDeviceList: the registry of every device seen, keyed by uuid up to case. It never shrinks. */
  class BleDeviceList {
    var devices: seq<BlemDevice>

    /** The registered devices and the objects each one owns. */
    ghost function Repr(): set<object>
      reads this
    {
      (set i | 0 <= i < |devices| :: devices[i] as object) +
      (set i | 0 <= i < |devices| :: devices[i].queue as object) +
      (set i | 0 <= i < |devices| :: devices[i].notifyManager as object)
    }

    ghost predicate Valid()
      reads this, Repr()
    {
      (forall i, j :: 0 <= i < j < |devices| ==> !SameUuid(devices[i].uuid, devices[j].uuid)) &&
      (forall i, j :: 0 <= i < j < |devices| ==>
         devices[i].queue != devices[j].queue && devices[i].notifyManager != devices[j].notifyManager) &&
      (forall i :: 0 <= i < |devices| ==> devices[i].Valid())
    }

    constructor ()
      ensures devices == [] && Valid()
    {
      devices := [];
    }

    /** `find(uuid:)`: the first device whose uuid matches up to case, or nil. */
    function Find(u: string): (r: Option<BlemDevice>)
      reads this
      ensures r.None? <==> forall i :: 0 <= i < |devices| ==> !SameUuid(devices[i].uuid, u)
      ensures r.Some? ==> r.value in devices && SameUuid(r.value.uuid, u) && r.value == devices[IndexOfUuid(devices, u)]
    {
      var k := IndexOfUuid(devices, u);
      if k < |devices| then Some(devices[k]) else None
    }

    /**
     * `findOrAdd(...)`: the registered device for this peripheral, or a new
     * one built by the scanner and appended.
     */
    method FindOrAdd(bundle: DiscoveryBundle, scanner: BlemScanner, factoryResult: Option<nat>) returns (d: BlemDevice, effects: seq<Effect>)
      requires Valid()
      modifies this
      ensures Valid()
      ensures old(Find(bundle.peripheral)).Some? ==> d == old(Find(bundle.peripheral)).value && devices == old(devices) && effects == []
      ensures old(Find(bundle.peripheral)).None? ==>
                fresh(d) && fresh(d.queue) && devices == old(devices) + [d] && d.uuid == bundle.peripheral &&
                d.queue.ops == [] && d.characteristics == [] && d.autoDiscoverServices.None? &&
                effects == (if scanner.discoveryCreatorClosure.Some? then [DeviceFactoryCalled(scanner.token)] else [])
      ensures SameUuid(d.uuid, bundle.peripheral)
    {
      var found := Find(bundle.peripheral);
      if found.Some? {
        return found.value, [];
      }
      d, effects := scanner.CreateDevice(bundle, factoryResult);
      devices := devices + [d];
    }
  }

  // ====================================================================== Blem

  /** Blem: the process-wide coordinator. */
  class Blem {
    var managerIsStarting: bool
    var activeScanner: BlemScanner?
    const deviceList: BleDeviceList
    const stateChangeListeners: WeakOwnerList<ClosureId>

    ghost predicate Valid()
      reads deviceList, deviceList.Repr()
    {
      deviceList.Valid()
    }

    /** `init()`: the radio is starting, nothing is registered, no scan is active. */
    constructor ()
      ensures Valid() && managerIsStarting && activeScanner == null
      ensures deviceList.devices == [] && stateChangeListeners.observers == []
      ensures fresh(deviceList) && fresh(stateChangeListeners)
    {
      managerIsStarting := true;
      activeScanner := null;
      deviceList := new BleDeviceList();
      stateChangeListeners := new WeakOwnerList<ClosureId>();
    }

    /** `newScanner(seconds:services:)`. */
    method NewScanner(token: nat, seconds: int, services: seq<BleUuid>) returns (s: BlemScanner)
      ensures fresh(s) && s.state == Waiting && s.token == token && s.seconds == seconds && s.services == services
      ensures s.discoveryCreatorClosure.None? && s.onDiscoverClosure.None? && s.onFinishedClosure.None? && s.onFailedClosure.None?
    {
      s := new BlemScanner(token, seconds, services);
    }

    /**
     * `endScanner(_:)` as seen from outside: when `s` was the active scanner
     * `was`, it was finished (calling `finished0`), the slot was cleared and
     * the scan stopped; otherwise nothing happened.
     */
    ghost predicate EndedScan(s: BlemScanner, was: BlemScanner?, finished0: seq<Effect>, effects: seq<Effect>)
      reads this
    {
      if was == s then activeScanner == null && effects == finished0 + [StopScanCmd]
      else activeScanner == was && effects == []
    }

    /**
     * First half of `startScanning(scanner:)`: stop the transport's scan,
     * finish the previously active scanner and take the slot. The second
     * half runs after the grace period, as `GraceElapsed`.
     */
    method StartScanning(scanner: BlemScanner) returns (effects: seq<Effect>)
      modifies this, activeScanner
      ensures activeScanner == scanner && managerIsStarting == old(managerIsStarting)
      ensures old(activeScanner) == null ==> effects == [StopScanCmd]
      ensures old(activeScanner) != null ==>
                old(activeScanner).state == Stopped && effects == [StopScanCmd] + old(activeScanner.FinishedCall())
      ensures old(activeScanner) != null ==>
                old(activeScanner).SameClosures(old(activeScanner.discoveryCreatorClosure), old(activeScanner.onDiscoverClosure),
                                                 old(activeScanner.onFinishedClosure), old(activeScanner.onFailedClosure))
      ensures old(activeScanner) != scanner ==> scanner.state == old(scanner.state)
      ensures scanner.SameClosures(old(scanner.discoveryCreatorClosure), old(scanner.onDiscoverClosure),
                                      old(scanner.onFinishedClosure), old(scanner.onFailedClosure))
    {
      effects := [StopScanCmd];
      if activeScanner != null {
        var finished := activeScanner.Finished();
        effects := effects + finished;
      }
      activeScanner := scanner;
    }

    /**
     * Second half of `startScanning(scanner:)`, once the one-second grace
     * period is over: scan for `scanner`'s services without duplicates, then
     * tell whichever scanner is active NOW that scanning started.
     */
    method GraceElapsed(scanner: BlemScanner) returns (effects: seq<Effect>)
      modifies activeScanner
      ensures effects == [ScanForPeripheralsCmd(scanner.services, false)]
      ensures activeScanner == old(activeScanner) && managerIsStarting == old(managerIsStarting)
      ensures activeScanner != null ==> activeScanner.state == Scanning
      ensures activeScanner != null ==>
                activeScanner.SameClosures(old(activeScanner.discoveryCreatorClosure), old(activeScanner.onDiscoverClosure),
                                              old(activeScanner.onFinishedClosure), old(activeScanner.onFailedClosure))
    {
      effects := [ScanForPeripheralsCmd(scanner.services, false)];
      if activeScanner != null {
        activeScanner.StartedScanning();
      }
    }

    /**
     * `endScanner(_:)` (which the scanner calls as `endCurrentScan`): only
     * for the active scanner, finish it, clear the slot and stop scanning.
     */
    method EndScanner(scanner: BlemScanner) returns (effects: seq<Effect>)
      modifies this, scanner
      ensures managerIsStarting == old(managerIsStarting)
      ensures EndedScan(scanner, old(activeScanner), old(scanner.FinishedCall()), effects)
      ensures old(activeScanner) == scanner ==> scanner.state == Stopped
      ensures old(activeScanner) != scanner ==> scanner.state == old(scanner.state)
      ensures scanner.SameClosures(old(scanner.discoveryCreatorClosure), old(scanner.onDiscoverClosure),
                                   old(scanner.onFinishedClosure), old(scanner.onFailedClosure))
    {
      effects := [];
      if activeScanner == scanner {
        effects := scanner.Finished();
        activeScanner := null;
        effects := effects + [StopScanCmd];
      }
    }

    /** `endActiveScanner()`: end whichever scanner is active, if any. */
    method EndActiveScanner() returns (effects: seq<Effect>)
      modifies this, activeScanner
      ensures activeScanner == null && managerIsStarting == old(managerIsStarting)
      ensures old(activeScanner) == null ==> effects == []
      ensures old(activeScanner) != null ==>
                old(activeScanner).state == Stopped && effects == old(activeScanner.FinishedCall()) + [StopScanCmd]
      ensures old(activeScanner) != null ==>
                old(activeScanner).SameClosures(old(activeScanner.discoveryCreatorClosure), old(activeScanner.onDiscoverClosure),
                                                 old(activeScanner.onFinishedClosure), old(activeScanner.onFailedClosure))
    {
      effects := [];
      if activeScanner != null {
        effects := EndScanner(activeScanner);
      }
    }

    /** `addStateChangeListener(weakOwner:_:)`. */
    method AddStateChangeListener(owner: OwnerId, closure: ClosureId)
      modifies stateChangeListeners
      ensures stateChangeListeners.observers == old(stateChangeListeners.observers) + [WeakOwnerItem(owner, closure)]
    {
      stateChangeListeners.Add(owner, closure);
    }

    /**
     * `centralManagerDidUpdateState(_:)`: the radio is no longer starting;
     * every listener whose owner is alive is called, in order, and the
     * others are dropped.
     */
    method DidUpdateState(radio: RadioState, alive: set<OwnerId>) returns (effects: seq<Effect>)
      modifies this, stateChangeListeners
      ensures !managerIsStarting && activeScanner == old(activeScanner)
      ensures stateChangeListeners.observers == Live(old(stateChangeListeners.observers), alive)
      ensures |effects| == |stateChangeListeners.observers|
      ensures forall i :: 0 <= i < |effects| ==>
                effects[i] == RadioStateDelivered(stateChangeListeners.observers[i].item, radio) &&
                stateChangeListeners.observers[i].owner in alive
    {
      managerIsStarting := false;
      var visited := stateChangeListeners.ForEach(alive);
      effects := [];
      for i := 0 to |visited|
        invariant |effects| == i
        invariant forall k :: 0 <= k < i ==> effects[k] == RadioStateDelivered(visited[k], radio)
      {
        effects := effects + [RadioStateDelivered(visited[i], radio)];
      }
    }

    /**
     * `centralManager(_:didDiscover:...)`: ignored without an active
     * scanner; otherwise the device is found or added (built by the active
     * scanner) and handed to that scanner only.
     */
    method DidDiscover(bundle: DiscoveryBundle, factoryResult: Option<nat>) returns (effects: seq<Effect>)
      requires Valid()
      modifies deviceList
      ensures Valid()
      ensures activeScanner == null ==> effects == [] && deviceList.devices == old(deviceList.devices)
      ensures activeScanner != null ==>
                var found := old(deviceList.Find(bundle.peripheral));
                var scanner := activeScanner;
                var discovered := if scanner.onDiscoverClosure.Some?
                                  then [ScanDiscovered(scanner.token, bundle.peripheral)] else [];
                (found.Some? ==>
                   deviceList.devices == old(deviceList.devices) &&
                   effects == (if scanner.onDiscoverClosure.Some? then [ScanDiscovered(scanner.token, found.value.uuid)] else [])) &&
                (found.None? ==>
                   |deviceList.devices| == |old(deviceList.devices)| + 1 &&
                   deviceList.devices[..|old(deviceList.devices)|] == old(deviceList.devices) &&
                   fresh(deviceList.devices[|old(deviceList.devices)|]) &&
                   deviceList.devices[|old(deviceList.devices)|].uuid == bundle.peripheral &&
                   deviceList.devices[|old(deviceList.devices)|].queue.ops == [] &&
                   deviceList.devices[|old(deviceList.devices)|].characteristics == [] &&
                   effects == (if scanner.discoveryCreatorClosure.Some? then [DeviceFactoryCalled(scanner.token)] else []) + discovered)
    {
      effects := [];
      if activeScanner != null {
        var scanner := activeScanner;
        var d, created := deviceList.FindOrAdd(bundle, scanner, factoryResult);
        var discovered := scanner.Discovered(d);
        effects := created + discovered;
      }
    }

    /**
     * What `connect(_:)` does to device `d` whose queue held `ops0`: while
     * the radio is starting, the device moves to radio-unavailable; else a
     * transport connect is sent only for a disconnected peripheral (and the
     * move to connecting changes nothing).
     */
    ghost predicate ConnectOutcome(d: BlemDevice, pstate: PeripheralState, ops0: seq<Op>, chars0: seq<Characteristic>, effects: seq<Effect>)
      reads this, d, d.queue
    {
      if managerIsStarting then d.Reacted(BleNotAvailable, ops0, chars0, effects)
      else if pstate == PeripheralDisconnected then
        d.queue.ops == ops0 && d.characteristics == chars0 && effects == [ConnectPeripheral(d.uuid)]
      else
        d.queue.ops == ops0 && d.characteristics == chars0 && effects == []
    }

    /**
     * What `disconnect(_:)` does: while the radio is starting, the device
     * moves to radio-unavailable; else a cancel-connection is sent only for
     * a connected peripheral.
     */
    ghost predicate DisconnectOutcome(d: BlemDevice, pstate: PeripheralState, ops0: seq<Op>, chars0: seq<Characteristic>, effects: seq<Effect>)
      reads this, d, d.queue
    {
      if managerIsStarting then d.Reacted(BleNotAvailable, ops0, chars0, effects)
      else
        d.queue.ops == ops0 && d.characteristics == chars0 &&
        effects == (if pstate == PeripheralConnected then [CancelPeripheralConnection(d.uuid)] else [])
    }

    /** `connect(_:)`. */
    method Connect(d: BlemDevice, pstate: PeripheralState) returns (effects: seq<Effect>)
      requires d.Valid()
      modifies d, d.queue
      ensures d.Valid()
      ensures d.autoDiscoverServices == old(d.autoDiscoverServices) && d.onStateChangedClosure == old(d.onStateChangedClosure) && d.rssi == old(d.rssi)
      ensures ConnectOutcome(d, pstate, old(d.queue.ops), old(d.characteristics), effects)
    {
      if managerIsStarting {
        effects := d.NewState(BleNotAvailable);
        return;
      }
      effects := [];
      if pstate == PeripheralDisconnected {
        effects := [ConnectPeripheral(d.uuid)];
        var more := d.NewState(Connecting);
        effects := effects + more;
      }
    }

    /** `disconnect(_:)`. */
    method Disconnect(d: BlemDevice, pstate: PeripheralState) returns (effects: seq<Effect>)
      requires d.Valid()
      modifies d, d.queue
      ensures d.Valid()
      ensures d.autoDiscoverServices == old(d.autoDiscoverServices) && d.onStateChangedClosure == old(d.onStateChangedClosure) && d.rssi == old(d.rssi)
      ensures DisconnectOutcome(d, pstate, old(d.queue.ops), old(d.characteristics), effects)
    {
      if managerIsStarting {
        effects := d.NewState(BleNotAvailable);
        return;
      }
      effects := [];
      if pstate == PeripheralConnected {
        effects := [CancelPeripheralConnection(d.uuid)];
      }
    }

    /**
     * The connection callbacks (`didConnect`, `didDisconnectPeripheral`,
     * `didFailToConnect`): move the device registered under the peripheral's
     * uuid to state `s`; an unknown peripheral is ignored.
     */
    method RouteState(peripheral: string, s: DeviceState) returns (effects: seq<Effect>)
      requires Valid()
      modifies deviceList.Repr()
      ensures Valid()
      ensures deviceList.devices == old(deviceList.devices)
      ensures old(deviceList.Find(peripheral)).None? ==> effects == []
      ensures old(deviceList.Find(peripheral)).Some? ==>
                var d := old(deviceList.Find(peripheral)).value;
                d.Reacted(s, old(d.queue.ops), old(d.characteristics), effects)
      ensures forall i :: 0 <= i < |deviceList.devices| && !SameUuid(deviceList.devices[i].uuid, peripheral) ==>
                unchanged(deviceList.devices[i], deviceList.devices[i].queue)
      ensures forall i :: 0 <= i < |deviceList.devices| ==>
                unchanged(deviceList.devices[i].notifyManager) &&
                deviceList.devices[i].autoDiscoverServices == old(deviceList.devices[i].autoDiscoverServices) &&
                deviceList.devices[i].onStateChangedClosure == old(deviceList.devices[i].onStateChangedClosure) &&
                deviceList.devices[i].rssi == old(deviceList.devices[i].rssi)
    {
      effects := [];
      var found := deviceList.Find(peripheral);
      if found.Some? {
        var device := found.value;
        effects := device.NewState(s);
      }
    }

    method DidConnect(peripheral: string) returns (effects: seq<Effect>)
      requires Valid()
      modifies deviceList.Repr()
      ensures Valid()
      ensures deviceList.devices == old(deviceList.devices)
      ensures old(deviceList.Find(peripheral)).None? ==> effects == []
      ensures old(deviceList.Find(peripheral)).Some? ==>
                var d := old(deviceList.Find(peripheral)).value;
                d.Reacted(Connected, old(d.queue.ops), old(d.characteristics), effects)
      ensures forall i :: 0 <= i < |deviceList.devices| && !SameUuid(deviceList.devices[i].uuid, peripheral) ==>
                unchanged(deviceList.devices[i], deviceList.devices[i].queue)
      ensures forall i :: 0 <= i < |deviceList.devices| ==>
                unchanged(deviceList.devices[i].notifyManager) &&
                deviceList.devices[i].autoDiscoverServices == old(deviceList.devices[i].autoDiscoverServices) &&
                deviceList.devices[i].onStateChangedClosure == old(deviceList.devices[i].onStateChangedClosure) &&
                deviceList.devices[i].rssi == old(deviceList.devices[i].rssi)
    {
      effects := RouteState(peripheral, Connected);
    }

    method DidDisconnect(peripheral: string) returns (effects: seq<Effect>)
      requires Valid()
      modifies deviceList.Repr()
      ensures Valid()
      ensures deviceList.devices == old(deviceList.devices)
      ensures old(deviceList.Find(peripheral)).None? ==> effects == []
      ensures old(deviceList.Find(peripheral)).Some? ==>
                var d := old(deviceList.Find(peripheral)).value;
                d.Reacted(Disconnected, old(d.queue.ops), old(d.characteristics), effects)
      ensures forall i :: 0 <= i < |deviceList.devices| && !SameUuid(deviceList.devices[i].uuid, peripheral) ==>
                unchanged(deviceList.devices[i], deviceList.devices[i].queue)
      ensures forall i :: 0 <= i < |deviceList.devices| ==>
                unchanged(deviceList.devices[i].notifyManager) &&
                deviceList.devices[i].autoDiscoverServices == old(deviceList.devices[i].autoDiscoverServices) &&
                deviceList.devices[i].onStateChangedClosure == old(deviceList.devices[i].onStateChangedClosure) &&
                deviceList.devices[i].rssi == old(deviceList.devices[i].rssi)
    {
      effects := RouteState(peripheral, Disconnected);
    }

    method DidFailToConnect(peripheral: string) returns (effects: seq<Effect>)
      requires Valid()
      modifies deviceList.Repr()
      ensures Valid()
      ensures deviceList.devices == old(deviceList.devices)
      ensures old(deviceList.Find(peripheral)).None? ==> effects == []
      ensures old(deviceList.Find(peripheral)).Some? ==>
                var d := old(deviceList.Find(peripheral)).value;
                d.Reacted(FailedToConnect, old(d.queue.ops), old(d.characteristics), effects)
      ensures forall i :: 0 <= i < |deviceList.devices| && !SameUuid(deviceList.devices[i].uuid, peripheral) ==>
                unchanged(deviceList.devices[i], deviceList.devices[i].queue)
      ensures forall i :: 0 <= i < |deviceList.devices| ==>
                unchanged(deviceList.devices[i].notifyManager) &&
                deviceList.devices[i].autoDiscoverServices == old(deviceList.devices[i].autoDiscoverServices) &&
                deviceList.devices[i].onStateChangedClosure == old(deviceList.devices[i].onStateChangedClosure) &&
                deviceList.devices[i].rssi == old(deviceList.devices[i].rssi)
    {
      effects := RouteState(peripheral, FailedToConnect);
    }
  }
}
