/**
 * Values shared by every part of the Blem Bluetooth LE orchestration model:
 * identifiers, the transport's data records, the operation values a device
 * queues, the transport callbacks an operation reacts to, and the log of
 * outward actions (transport commands and calls into application closures)
 * that every state-changing method returns.
 */
module BleTypes {

  /** Option, as returned by the source's optional lookups. */
  datatype Option<+T> = None | Some(value: T)

  /** A CBUUID (service or characteristic identifier), compared by its string form. */
  type BleUuid = string

  /** An opaque handle standing for an application closure. */
  type ClosureId = nat

  /** Stands for an object referenced weakly; it is alive while in the caller's `alive` set. */
  type OwnerId = nat

  type Bytes = seq<bv8>

  /** A CBCharacteristic: its uuid, its current value and an identity handle. */
  datatype Characteristic = Characteristic(uuid: BleUuid, value: Option<Bytes>, handle: nat)

  /** A CBService: its uuid and the characteristics discovered for it (nil before discovery). */
  datatype Service = Service(uuid: BleUuid, characteristics: Option<seq<Characteristic>>)

  /** A CBDescriptor, only carried through to operations. */
  datatype Descriptor = Descriptor(uuid: BleUuid, handle: nat)

  /** A transport error; operations only ever read its description. */
  datatype TransportError = TransportError(description: string)

  /** CBPeripheralState: the transport's view of a peripheral's connection. */
  datatype PeripheralState = PeripheralDisconnected | PeripheralConnecting | PeripheralConnected | PeripheralDisconnecting

  /** CBManagerState: the radio state delivered to coordinator listeners. */
  datatype RadioState = Unknown | Resetting | Unsupported | Unauthorized | PoweredOff | PoweredOn

  /** BlemDeviceState: the states a device is moved through. */
  datatype DeviceState = Connected | Connecting | Disconnected | FailedToConnect | BleNotAvailable

  /** BlemOpResponse: an operation is still in progress (Ok) or done (Complete). */
  datatype OpResponse = Ok | Complete

  /** BlemOpAbortReason. */
  datatype AbortReason = AbortDisconnected | AbortFailedToConnect | AbortBleNotAvailable

  /**
   * A queued operation. `BaseOp` is a plain BlemDeviceOp that overrides
   * nothing; the three others are the library's concrete operations, with
   * their fields.
   */
  datatype Op =
    | BaseOp
    | DiscoverServicesOp(waitingForServices: seq<BleUuid>)
    | ReadStringOp(uuid: BleUuid, closure: ClosureId)
    | ReadDataOp(uuid: BleUuid, closure: ClosureId)
  {
    /** The concrete operations override `start` and `abort`; the base class's versions are fatal. */
    predicate Overrides() { !BaseOp? }
  }

  /** The peripheral-delegate callbacks routed to the head operation, with their payloads. */
  datatype TransportEvent =
    | DidUpdateName
    | DidModifyServices(invalidatedServices: seq<Service>)
    | DidUpdateRssi(error: Option<TransportError>)
    | DidReadRssi(rssi: int, error: Option<TransportError>)
      /** `services` is the peripheral's `services` list at delivery time (nil read as empty). */
    | DidDiscoverServices(services: seq<Service>, error: Option<TransportError>)
    | DidDiscoverIncludedServices(service: Service, error: Option<TransportError>)
    | DidDiscoverCharacteristics(service: Service, error: Option<TransportError>)
    | DidUpdateValue(characteristic: Characteristic, error: Option<TransportError>)
    | DidWriteValue(characteristic: Characteristic, error: Option<TransportError>)
    | DidUpdateNotificationState(characteristic: Characteristic, error: Option<TransportError>)
    | DidDiscoverDescriptors(characteristic: Characteristic, error: Option<TransportError>)
    | DidUpdateDescriptorValue(descriptor: Descriptor, error: Option<TransportError>)
    | DidWriteDescriptorValue(descriptor: Descriptor, error: Option<TransportError>)
    | IsReadyToSendWriteWithoutResponse
    | DidOpenChannel(channel: Option<nat>, error: Option<TransportError>)

  /**
   * One outward action: a command sent to the transport, or a call into the
   * application (a closure, an operation's abort hook). Devices are named by
   * their uuid string, scanners by a token.
   */
  datatype Effect =
    | ConnectPeripheral(device: string)
    | CancelPeripheralConnection(device: string)
    | DiscoverServicesCmd(device: string, services: seq<BleUuid>)
    | DiscoverCharacteristicsCmd(device: string, service: BleUuid)
    | ReadValueCmd(device: string, characteristic: Characteristic)
    | SetNotifyValueCmd(device: string, enabled: bool, characteristic: Characteristic)
    | StopScanCmd
    | ScanForPeripheralsCmd(services: seq<BleUuid>, allowDuplicates: bool)
    | StateChanged(device: string, state: DeviceState)
    | AbortDelivered(device: string, op: Op, reason: AbortReason)
    | ReadStringDelivered(closure: ClosureId, text: Option<string>, error: Option<string>)
    | ReadDataDelivered(closure: ClosureId, data: Option<Bytes>, error: Option<string>)
    | ObserverData(observer: nat, data: Option<Bytes>)
    | ObserverStopped(observer: nat)
    | ScanFinished(scanner: nat)
    | ScanFailed(scanner: nat)
    | ScanDiscovered(scanner: nat, device: string)
    | DeviceFactoryCalled(scanner: nat)
    | RadioStateDelivered(listener: ClosureId, radio: RadioState)

  /** The index of the first characteristic in `chars` whose uuid is `uuid`, or `|chars|`. */
  function FirstIndex(chars: seq<Characteristic>, uuid: BleUuid): (k: nat)
    ensures k <= |chars|
    ensures k < |chars| ==> chars[k].uuid == uuid
    ensures forall j :: 0 <= j < k ==> chars[j].uuid != uuid
  {
    if chars == [] then 0
    else if chars[0].uuid == uuid then 0
    else 1 + FirstIndex(chars[1..], uuid)
  }

  /** The first cached characteristic with this uuid, if any (the device's `characteristic(_:)` lookup). */
  function FirstWithUuid(chars: seq<Characteristic>, uuid: BleUuid): (r: Option<Characteristic>)
    ensures r.None? <==> forall i :: 0 <= i < |chars| ==> chars[i].uuid != uuid
    ensures r.Some? ==> r.value in chars && r.value.uuid == uuid
    ensures r.Some? ==> r.value == chars[FirstIndex(chars, uuid)]
  {
    var k := FirstIndex(chars, uuid);
    if k < |chars| then Some(chars[k]) else None
  }

  /** ASCII lower-casing of one character (uuid strings are hexadecimal digits and dashes). */
  function LowerChar(c: char): char
  {
    if 'A' <= c <= 'Z' then (c as int + 32) as char else c
  }

  /** `String.lowercased()` on uuid strings. */
  function Lower(s: string): (r: string)
    ensures |r| == |s|
    ensures forall i :: 0 <= i < |s| ==> r[i] == LowerChar(s[i])
  {
    seq(|s|, i requires 0 <= i < |s| => LowerChar(s[i]))
  }

  /** Two uuid strings name the same peripheral when they agree up to letter case. */
  predicate SameUuid(a: string, b: string)
  {
    Lower(a) == Lower(b)
  }
}
