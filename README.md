# BleManager (Blem) in Dafny

A model of the "Blem" revision of the BleManager Swift library. The library
coordinates Bluetooth LE work for one process:

- **Devices and their operation queues** (`BlemDevice`, `BleOpQueue`). Each
  device keeps a FIFO of operations. Only the head receives the peripheral's
  callbacks. `startNextOp` starts the head and pops it for as long as it
  reports `complete`. A lost connection aborts and drains the queue. A new
  connection queues a service-discovery operation.
- **Operations** (`BlemDeviceOp`, `DiscoverServicesOp`, `ReadStringOp`,
  `ReadDataOp`). These are the `start`/`abort` hooks and one handler per
  peripheral callback, and each handler reports `ok` or `complete`.
- **Notification fan-out** (`BlemNotifyManager`). It validates
  subscriptions and sends notify-enable once per characteristic. It hands
  value updates to live observers in registration order and purges
  observers whose owner has gone away.
- **Scanners** (`BlemScanner`). A state machine over
  waiting/scanning/stopped/failed, with a start-up watchdog, a duration
  timer and a device factory.
- **The coordinator** (`Blem`, `BleDeviceList`, `WeakOwnerList`). It has one
  active-scanner slot with preemption, and a device registry keyed by
  case-insensitive uuid that never shrinks. Connect and disconnect turn into
  "radio unavailable" while the radio is starting. The coordinator routes
  connection callbacks and keeps a list of radio-state listeners that drops
  dead owners lazily.

How the model represents the library's surroundings:

- **Outward actions.** Every method returns the actions it performed, in
  order, as a sequence of `Effect` values. These are CoreBluetooth commands
  such as `connect`, `discoverServices`, `readValue`, `setNotifyValue` and
  `scanForPeripherals`, plus calls into application closures.
- **Peripheral connection state** is a parameter.
- **Weak references.** An owner held weakly is alive while it is in the
  parameter `alive`.
- **Delays.** Each delay in the source is a method, called when the delay
  has elapsed:
  - the one-second scan grace period is `Blem.GraceElapsed`;
  - the ten-second start-up watchdog is `BlemScanner.WatchdogFires`;
  - the scan duration is `BlemScanner.DurationElapsed`.

Operations are values of the datatype `Op`, interpreted by dispatch
functions. Where the source mutates the head operation's fields in place,
the queue's head is replaced by the updated value.

Modules:

- `BleTypes` holds the shared records and the effect log.
- `DeviceOps` holds the operations.
- `QueueSpec` holds what `startNextOp`, the abort drain and callback
  routing do to a queue, stated as functions, with lemmas about them.
- `Notify` holds the notification manager.
- `WeakList` holds the weak-owner list.
- `BleManager` holds the device, queue, scanner, registry and coordinator
  classes. These call one another, so they share one module.

The services handler requests `discoverCharacteristics` for every service
the peripheral reports
(`Sources/BleManager/Ops/DiscoverServicesOp.swift:31-36`), not only for the
awaited ones; `DeviceOps.DiscoverScenario` shows both requests going out.

Two behaviours of the code are kept as written:

- `pushOpFront` appends at the tail.
- When a callback handler reports `complete`, `startNextOp` runs without
  popping the head first. `QueueSpec.ReadCompletionReadsAgain` shows the
  consequence: a read whose characteristic is cached issues a second
  `readValue`. `QueueSpec.DiscoverCompletionDiscoversAgain` shows the same
  for service discovery: with an auto-discover list, the op that has just
  completed clears the cache it filled and sends `discoverServices` again.
  This follows from reading the code; it has not been observed on a device.

## Model

| member | source | states |
|---|---|---|
| BleTypes.FirstIndex | Sources/BleManager/BlemDevice.swift:46-48 | the index of the first cached characteristic with the uuid, or the length when there is none; no earlier entry matches |
| BleTypes.FirstWithUuid | Sources/BleManager/BlemDevice.swift:46-48 | `filter{}.first`: none exactly when no cached characteristic has the uuid, otherwise the first one that has it |
| BleTypes.Lower | Sources/BleManager/BlemManager.swift:169 | lower-casing keeps the length and maps each character through the ASCII lower-case map |
| DeviceOps.DefaultHandler | Sources/BleManager/BlemDeviceOp.swift:32-105 | every default handler reports complete, sends nothing and changes neither the op nor the device's cache |
| DeviceOps.DiscoverStart | Sources/BleManager/Ops/DiscoverServicesOp.swift:15-25 | with no auto-discovery list: complete, nothing sent, cache untouched; with a list: ok, cache cleared, `discoverServices(list)` sent, the op waits for exactly that list |
| DeviceOps.ReadStart | Sources/BleManager/Ops/ReadStringOp.swift:21-28 | ok and one `readValue` of the first cached match exactly when the uuid is cached; otherwise complete with no read; op and cache unchanged |
| DeviceOps.Start | Sources/BleManager/BlemDeviceOp.swift:24-26 | the base class's `start` is fatal and every concrete op's is not; a start that completes sends nothing and changes nothing |
| DeviceOps.Abort | Sources/BleManager/BlemDeviceOp.swift:28-30 | the base class's `abort` is fatal; the concrete ops' aborts change nothing |
| DeviceOps.DiscoverCharacteristicsCommands | Sources/BleManager/Ops/DiscoverServicesOp.swift:31-36 | one `discoverCharacteristics` per reported service, in order, unfiltered |
| DeviceOps.Without | Sources/BleManager/Ops/DiscoverServicesOp.swift:43 | an identifier remains exactly when it was present and differs from the removed one |
| DeviceOps.DiscoverOnCharacteristics | Sources/BleManager/Ops/DiscoverServicesOp.swift:38-47 | the service's characteristics are appended to the cache; the op stops waiting for that service; complete exactly when every awaited identifier is this service's |
| DeviceOps.ReadStringOnValue | Sources/BleManager/Ops/ReadStringOp.swift:34-46 | always complete; a nil value or an undecodable one calls nothing; a decodable one calls the closure once with the decoded text and no error |
| DeviceOps.Description | Sources/BleManager/Ops/ReadDataOp.swift:37 | the error description is nil exactly when there is no error |
| DeviceOps.ReadDataOnValue | Sources/BleManager/Ops/ReadDataOp.swift:35-41 | always complete, after calling the closure exactly once with the value and an error that is nil exactly when the transport's is |
| DeviceOps.Handle | Sources/BleManager/BlemDeviceOp.swift:32-105 | a callback an op does not override gets the default handler; only a DiscoverServicesOp changes itself or the cache; the services report answers ok with one `discoverCharacteristics` per service, and the characteristics and value reports go to their handlers |
| DeviceOps.SendDiscoverCharacteristics | Sources/BleManager/Ops/DiscoverServicesOp.swift:32-34 | the loop sends one `discoverCharacteristics` per service, in order |
| DeviceOps.AppendCharacteristics | Sources/BleManager/Ops/DiscoverServicesOp.swift:39-41 | the loop leaves the cache followed by the service's characteristics, in order |
| DeviceOps.RemoveWaiting | Sources/BleManager/Ops/DiscoverServicesOp.swift:43 | the in-place filter computes `Without` |
| DeviceOps.Dispatch | Sources/BleManager/Ops/DiscoverServicesOp.swift:31-47 | delivering a callback with the handlers' loops gives the step `Handle` specifies |
| DeviceOps.WithoutAppend | Sources/BleManager/Ops/DiscoverServicesOp.swift:43 | removal distributes over concatenation, so the remaining identifiers keep their order |
| DeviceOps.WaitingAfterMembers | Sources/BleManager/Ops/DiscoverServicesOp.swift:43-45 | after a run of characteristics reports, an identifier is still awaited exactly when it was awaited and was not reported |
| DeviceOps.DiscoverDoneExactlyWhenAllReported | Sources/BleManager/Ops/DiscoverServicesOp.swift:43-45 | the awaited list becomes empty exactly when every awaited service has reported, whatever else reported |
| DeviceOps.DiscoverScenario | Sources/BleManager/Ops/DiscoverServicesOp.swift:15-47 | with auto-discovery [s1] and a peripheral reporting [s1, s2]: characteristics discovery is requested for both, and the op completes once s1's characteristics arrive |
| DeviceOps.StartOkIsStable | Sources/BleManager/BlemDevice.swift:99-103 | an op whose start reported ok reports ok again when restarted as it then is, so it keeps blocking the queue |
| QueueSpec.RunQueue | Sources/BleManager/BlemDevice.swift:99-103 | `startNextOp` consumes only a prefix of the queue; what remains behind the head is the untouched tail, and every op left still overrides the hooks |
| QueueSpec.RunQueueSettles | Sources/BleManager/BlemDevice.swift:99-103 | afterwards the queue is empty or its head's start reports ok |
| QueueSpec.RunQueueOnSettled | Sources/BleManager/BlemDevice.swift:99-103 | on a settled queue `startNextOp` restarts the head once and keeps the rest |
| QueueSpec.AbortEvents | Sources/BleManager/BlemDevice.swift:64-81 | one abort per queued op, head first, all with the same reason |
| QueueSpec.AfterEvent | Sources/BleManager/BlemDevice.swift:124-243 | a callback on an empty queue changes nothing; otherwise the head handles it, and when it reports complete `startNextOp` may start and pop a prefix of the queue, head included; whatever remains behind the new head is the original tail's suffix, in order |
| QueueSpec.ReadCompletionReadsAgain | Sources/BleManager/BlemDevice.swift:180-184 | a read whose characteristic is cached, completed by a value update, stays at the head and sends a second `readValue` |
| QueueSpec.DiscoverCompletionDiscoversAgain | Sources/BleManager/Ops/DiscoverServicesOp.swift:15-21 | with an auto-discover list, the last awaited service's report completes the op, which is started again without a pop: the cache is cleared, `discoverServices(list)` is sent again, and the op stays at the head awaiting the list |
| QueueSpec.DiscoverCompletionMovesOn | Sources/BleManager/Ops/DiscoverServicesOp.swift:22-24 | without an auto-discover list the re-start reports complete, so the op is popped with the cache it filled and `startNextOp` continues with the rest of the queue |
| BleManager.AbortReasonFor | Sources/BleManager/BlemDevice.swift:56-82 | only the connected and connecting states carry no abort reason |
| BleManager.BleOpQueue.constructor | Sources/BleManager/BlemDevice.swift:248-249 | a new queue is empty |
| BleManager.BleOpQueue.Count | Sources/BleManager/BlemDevice.swift:251-253 | the number of queued ops |
| BleManager.BleOpQueue.PushOpFront | Sources/BleManager/BlemDevice.swift:255-257 | appends at the tail, like `pushOp` |
| BleManager.BleOpQueue.PushOp | Sources/BleManager/BlemDevice.swift:259-261 | appends at the tail |
| BleManager.BleOpQueue.GetCurrentOp | Sources/BleManager/BlemDevice.swift:263-265 | the head, or nil exactly when the queue is empty |
| BleManager.BleOpQueue.PopCurrentOp | Sources/BleManager/BlemDevice.swift:267-273 | on an empty queue: nil, nothing changes; otherwise removes and returns element 0 |
| BleManager.BleOpQueue.UpdateCurrentOp | Sources/BleManager/BlemDevice.swift:263-265 | the head, which the source hands out as an object and updates in place, is replaced by its updated value; the tail is unchanged |
| BleManager.BlemDevice.constructor | Sources/BleManager/BlemDevice.swift:35-44 | the device is named after the peripheral or "Unknown", has no ops, an empty cache and an empty notify manager |
| BleManager.BlemDevice.CharacteristicFor | Sources/BleManager/BlemDevice.swift:46-48 | none exactly when no cached characteristic has the uuid, otherwise the first match |
| BleManager.BlemDevice.OnStateChanged | Sources/BleManager/BlemDevice.swift:52-54 | installs the state closure and changes nothing else |
| BleManager.BlemDevice.NewState | Sources/BleManager/BlemDevice.swift:56-83 | connected: discovery op at the tail, state closure, then `startNextOp`; connecting: nothing; the loss states: one abort per op head first, queue emptied, then the state closure |
| BleManager.BlemDevice.AbortAll | Sources/BleManager/BlemDevice.swift:65-68 | the drain loop aborts each op once, head first, and leaves the queue empty |
| BleManager.BlemDevice.Connect | Sources/BleManager/BlemDevice.swift:85-89 | asks the coordinator only when the peripheral is not connected; otherwise nothing changes |
| BleManager.BlemDevice.Disconnect | Sources/BleManager/BlemDevice.swift:91-95 | asks the coordinator only when the peripheral is not disconnected |
| BleManager.BlemDevice.StartNextOp | Sources/BleManager/BlemDevice.swift:99-103 | the loop ends in the queue, cache and actions `RunQueue` specifies |
| BleManager.BlemDevice.QueueOp | Sources/BleManager/BlemDevice.swift:105-112 | the op joins the tail; not connected: the coordinator's connect outcome; connected with only this op: it is started; otherwise nothing more |
| BleManager.BlemDevice.Deliver | Sources/BleManager/BlemDevice.swift:124-243 | the head alone handles the callback, and `startNextOp` follows a complete without a pop; a value update also reaches the notify manager, whatever the head reported |
| BleManager.BlemScanner.constructor | Sources/BleManager/BlemScanner.swift:26-36 | a new scanner waits and has no closures |
| BleManager.BlemScanner.OnDiscoveryCreator | Sources/BleManager/BlemScanner.swift:52-55 | sets the factory closure only |
| BleManager.BlemScanner.OnDiscover | Sources/BleManager/BlemScanner.swift:71-74 | sets the discovery closure only |
| BleManager.BlemScanner.OnFinished | Sources/BleManager/BlemScanner.swift:76-79 | sets the finished closure only |
| BleManager.BlemScanner.OnFailed | Sources/BleManager/BlemScanner.swift:81-84 | sets the failed closure only |
| BleManager.BlemScanner.CreateDevice | Sources/BleManager/BlemScanner.swift:57-63 | the factory's device when the factory is set and returns one, otherwise a plain device, new and empty in both cases |
| BleManager.BlemScanner.Start | Sources/BleManager/BlemScanner.swift:100-102 | the scanner becomes the active one through `startScanning`; a previously active scanner is finished; no scanner's closures change |
| BleManager.BlemScanner.Stop | Sources/BleManager/BlemScanner.swift:90-98 | from waiting or scanning it ends the scan through the coordinator; in every case it ends stopped with its closures unchanged |
| BleManager.BlemScanner.StartedScanning | Sources/BleManager/BlemScanner.swift:106-107 | sets scanning |
| BleManager.BlemScanner.DurationElapsed | Sources/BleManager/BlemScanner.swift:108-116 | stops only while waiting or scanning; otherwise nothing changes; the closures never change |
| BleManager.BlemScanner.Discovered | Sources/BleManager/BlemScanner.swift:119-123 | calls the discovery closure with the device only when it is set |
| BleManager.BlemScanner.Finished | Sources/BleManager/BlemScanner.swift:125-128 | stopped, and the finished closure is called once when set |
| BleManager.BlemScanner.Failed | Sources/BleManager/BlemScanner.swift:130-134 | an active scanner is finished by the coordinator and ends stopped, then the failed closure runs; an inactive one ends failed |
| BleManager.BlemScanner.WatchdogFires | Sources/BleManager/BlemScanner.swift:37-45 | fails the scanner only while it is still waiting; the closures never change |
| BleManager.IndexOfUuid | Sources/BleManager/BlemManager.swift:180-186 | the first device whose uuid matches up to case, or the length |
| BleManager.BleDeviceList.constructor | Sources/BleManager/BlemManager.swift:162-165 | a new registry is empty |
| BleManager.BleDeviceList.Find | Sources/BleManager/BlemManager.swift:180-186 | nil exactly when no device's uuid matches up to case, otherwise the first match |
| BleManager.BleDeviceList.FindOrAdd | Sources/BleManager/BlemManager.swift:167-178 | returns the registered match unchanged, or appends the scanner's new device; the registry never shrinks and never holds two uuids equal up to case |
| BleManager.Blem.constructor | Sources/BleManager/BlemManager.swift:19-26 | starting, no active scanner, nothing registered |
| BleManager.Blem.NewScanner | Sources/BleManager/BlemManager.swift:39-41 | a new waiting scanner with the given duration and services |
| BleManager.Blem.StartScanning | Sources/BleManager/BlemManager.swift:43-47 | stop-scan is sent, the previous active scanner is finished, and the new one takes the slot; neither scanner's closures change |
| BleManager.Blem.GraceElapsed | Sources/BleManager/BlemManager.swift:49-56 | scans for the scanner's services without duplicates, then whichever scanner is active now starts scanning, its closures unchanged |
| BleManager.Blem.EndScanner | Sources/BleManager/BlemManager.swift:59-66 | acts only for the active scanner: finished, slot cleared, stop-scan sent; otherwise nothing |
| BleManager.Blem.EndActiveScanner | Sources/BleManager/BlemManager.swift:68-72 | ends the active scanner, if any, leaving its closures unchanged |
| BleManager.Blem.AddStateChangeListener | Sources/BleManager/BlemManager.swift:76-80 | appends the listener with its owner |
| BleManager.Blem.DidUpdateState | Sources/BleManager/BlemManager.swift:88-94 | clears the starting flag and calls each live listener once, in order, with the radio state; dead ones are dropped |
| BleManager.Blem.DidDiscover | Sources/BleManager/BlemManager.swift:98-108 | ignored with no active scanner; otherwise the device is found or added, then passed to the active scanner only; an added device is new, named by the peripheral's uuid, with an empty queue and cache |
| BleManager.Blem.Connect | Sources/BleManager/BlemManager.swift:110-122 | starting: the device goes radio-unavailable and nothing is sent; otherwise connect is sent only for a disconnected peripheral |
| BleManager.Blem.Disconnect | Sources/BleManager/BlemManager.swift:124-135 | starting: the device goes radio-unavailable; otherwise cancel-connection is sent only for a connected peripheral |
| BleManager.Blem.RouteState | Sources/BleManager/BlemManager.swift:140-156 | a connection callback reaches only the device found by uuid; every other registered device and its queue are left unchanged, and no device's notify manager, auto-discovery list, state closure or rssi changes; an unknown peripheral is ignored; the registry stays valid |
| BleManager.Blem.DidConnect | Sources/BleManager/BlemManager.swift:140-144 | the found device reacts to connected; every other registered device and its queue are left unchanged, and no device's notify manager, auto-discovery list, state closure or rssi changes |
| BleManager.Blem.DidDisconnect | Sources/BleManager/BlemManager.swift:146-150 | the found device reacts to disconnected; every other registered device and its queue are left unchanged, and no device's notify manager, auto-discovery list, state closure or rssi changes |
| BleManager.Blem.DidFailToConnect | Sources/BleManager/BlemManager.swift:152-156 | the found device reacts to failed-to-connect; every other registered device and its queue are left unchanged, and no device's notify manager, auto-discovery list, state closure or rssi changes |
| Notify.BlemNotifyObserver.New | Sources/BleManager/BlemNotify.swift:28-31 | a new observer has its owner and uuid and no closures |
| Notify.BlemNotifyObserver.WithOnData | Sources/BleManager/BlemNotify.swift:33-36 | sets the data closure; the other closures, the owner and the uuid are kept |
| Notify.BlemNotifyObserver.WithOnStopped | Sources/BleManager/BlemNotify.swift:37-40 | sets the stopped closure; the other closures, the owner and the uuid are kept |
| Notify.BlemNotifyObserver.WithOnError | Sources/BleManager/BlemNotify.swift:41-44 | sets the error closure; the other closures, the owner and the uuid are kept |
| Notify.Validate | Sources/BleManager/BlemNotify.swift:59-66 | each error, exactly when its check is the first to fail: uncached uuid, then missing onData, onStopped, onError |
| Notify.StoppedCalls | Sources/BleManager/BlemNotify.swift:89-93 | no more calls than observers, and every one is an `onStopped` call |
| Notify.DataCalls | Sources/BleManager/BlemNotify.swift:104-110 | no more calls than observers, and every one is an `onData` call carrying the characteristic's value |
| Notify.NotWatching | Sources/BleManager/BlemNotify.swift:96 | exactly the observers of other uuids remain |
| Notify.LiveObservers | Sources/BleManager/BlemNotify.swift:112-114 | exactly the observers with a live owner remain |
| Notify.BlemNotifyManager.constructor | Sources/BleManager/BlemNotify.swift:55-57 | no observers, no active uuids |
| Notify.BlemNotifyManager.Notify | Sources/BleManager/BlemNotify.swift:59-74 | a failed check changes and sends nothing; success sends enable only for an inactive uuid, keeps `activeUuids` duplicate-free and appends the observer |
| Notify.BlemNotifyManager.Stop | Sources/BleManager/BlemNotify.swift:76-97 | an uncached uuid changes nothing; otherwise one disable, the uuid deactivated, `onStopped` for each live observer of it, and all its observers removed |
| Notify.CollectStoppedCalls | Sources/BleManager/BlemNotify.swift:89-93 | the loop collects exactly the `onStopped` calls `StoppedCalls` specifies |
| Notify.CollectDataCalls | Sources/BleManager/BlemNotify.swift:103-110 | the loop collects exactly the `onData` calls `DataCalls` specifies, and reports no dead owner only when every owner is alive |
| Notify.BlemNotifyManager.DidUpdateValue | Sources/BleManager/BlemNotify.swift:99-114 | `onData` for live observers of the uuid in order; dead-owner observers are purged; `activeUuids` unchanged |
| Notify.StoppedCallsAppend | Sources/BleManager/BlemNotify.swift:89-93 | the `onStopped` calls follow list order: those of a concatenation are the first part's, then the second's |
| Notify.DataCallsAppend | Sources/BleManager/BlemNotify.swift:104-110 | the fan-out follows registration order: the calls of a concatenation are the first part's, then the second's |
| Notify.WithoutKeepsNoDuplicates | Sources/BleManager/BlemNotify.swift:86 | removing a uuid keeps `activeUuids` duplicate-free |
| Notify.AllLiveUnchanged | Sources/BleManager/BlemNotify.swift:112-114 | with no dead owner, the purge keeps the list |
| Notify.DataCallsOnlyLive | Sources/BleManager/BlemNotify.swift:104-110 | every data call goes to a live observer of the updated uuid that has a data closure |
| Notify.DataCallsReachAllLive | Sources/BleManager/BlemNotify.swift:104-110 | every live observer of the updated uuid that has a data closure receives the value |
| Notify.StoppedCallsOnlyLive | Sources/BleManager/BlemNotify.swift:89-93 | every `onStopped` call goes to a live observer of the stopped uuid that has the closure |
| Notify.StoppedCallsReachAllLive | Sources/BleManager/BlemNotify.swift:89-93 | every live observer of the stopped uuid that has the closure is called |
| Notify.NotWatchingAppend | Sources/BleManager/BlemNotify.swift:96 | the removal distributes over concatenation, so the remaining observers keep their order |
| Notify.NotWatchingNoneWatching | Sources/BleManager/BlemNotify.swift:96 | with no observer of the uuid, the list is kept as it is |
| Notify.LiveObserversAppend | Sources/BleManager/BlemNotify.swift:112-114 | the purge distributes over concatenation, so the surviving observers keep their order |
| Notify.LiveObserversIsLive | Sources/BleManager/BlemNotify.swift:112-114 | the purge of dead-owner observers is the weak-owner list's clean-up applied to the observers, each held for its own owner |
| Notify.EnableSentOnce | Sources/BleManager/BlemNotify.swift:68-71 | three subscriptions to one characteristic send enable only for the first |
| Notify.MissingOnErrorRejected | Sources/BleManager/BlemNotify.swift:66 | a subscription without `onError` fails and sends nothing |
| WeakList.Live | Sources/BleManager/BlemWeakList.swift:45-47 | only live-owner entries remain, each one of the original entries |
| WeakList.Unmatched | Sources/BleManager/BlemWeakList.swift:31-33 | no remaining entry satisfies the predicate, every entry that does not satisfy it remains, and nothing else appears |
| WeakList.Items | Sources/BleManager/BlemWeakList.swift:26 | the items, in entry order |
| WeakList.WeakOwnerList.constructor | Sources/BleManager/BlemWeakList.swift:18 | an empty list |
| WeakList.WeakOwnerList.Add | Sources/BleManager/BlemWeakList.swift:20-22 | appends (owner, item) at the end |
| WeakList.WeakOwnerList.CleanUp | Sources/BleManager/BlemWeakList.swift:45-47 | the loop leaves exactly the live entries, in order |
| WeakList.WeakOwnerList.AllItems | Sources/BleManager/BlemWeakList.swift:24-27 | cleans up, then the live items in insertion order |
| WeakList.WeakOwnerList.RemoveAll | Sources/BleManager/BlemWeakList.swift:29-34 | cleans up, then drops the live entries whose item satisfies the predicate, keeping order |
| WeakList.WeakOwnerList.ForEach | Sources/BleManager/BlemWeakList.swift:36-41 | visits each live item once, in order, never a dead owner's |
| WeakList.LiveAppend | Sources/BleManager/BlemWeakList.swift:45-47 | the purge distributes over concatenation |
| WeakList.LiveKeepsLiveEntries | Sources/BleManager/BlemWeakList.swift:45-47 | an entry with a live owner survives the purge, whatever dead entries surround it |
| WeakList.LiveOfAllLive | Sources/BleManager/BlemWeakList.swift:45-47 | with every owner alive the purge keeps the list as it is |
| WeakList.LiveIdempotent | Sources/BleManager/BlemWeakList.swift:45-47 | cleaning up twice equals cleaning up once |
| WeakList.UnmatchedAppend | Sources/BleManager/BlemWeakList.swift:31-33 | dropping matches distributes over concatenation, so the survivors keep their order |
| WeakList.UnmatchedNoneMatch | Sources/BleManager/BlemWeakList.swift:31-33 | with no entry matching, the list is kept as it is |
| WeakList.AddThenLive | Sources/BleManager/BlemWeakList.swift:20-27 | an item added with a live owner is the last item reported |

## Left out

- CoreBluetooth is not modelled. Its commands are `Effect` values in the returned log, and a peripheral's connection state is a parameter, so the model does not capture that the state changes after `connect` is sent.
- Actor isolation, `Task.init` fire-and-forget and reentrancy are not modelled. Each method runs as one atomic step, so interleavings between tasks are not explored.
- `Task.sleep` delays are methods the environment calls when the delay has elapsed. Wall-clock time and the relative order of timers are not modelled.
- Swift weak references are replaced by the `alive` set passed to each call.
- UTF-8 decoding and control-character trimming in `ReadStringOp` are the parameter `decode`, because they are Foundation library behaviour.
- `BlemDevice.notify` is not modelled: its `Task` wrapper discards the errors. `BlemNotifyManager.notify` is modelled directly.
- The empty loop over `activeUuids` at `Sources/BleManager/BlemNotify.swift:116-121` has no effect and is not modelled.
- `currentBleState`, `advertisementData` and the `CBCentralManager` construction are transport state and are not modelled.
- The device factory closure is an input: it returns nil or an application device built from the same bundle. Closures are identifiers, so what application closures do is not modelled.
- Uuids are compared as strings. `BleTypes.Lower` lower-cases ASCII letters only, which is enough for uuid strings. The normalisation done by `UUID(uuidString:)` is not modelled.
- The scanner calls `endCurrentScan`, which the coordinator defines as `endScanner`. Both are modelled as `BleManager.Blem.EndScanner`.
- The superseded revision (`Sources/BleManager/BleDevice.swift`, `BleManager.swift`, `BleOp.swift`, `DiscoverServicesOp.swift`, `ReadOp.swift`) is not part of this model. It redeclares `Blem`, `DiscoverServicesOp` and `ReadStringOp`.
- The documentation drafts under `BleManager/BleManager/BleManager.docc/` and the usage sketches under `Sources/Scenarios/` are not part of this model.
- Logging and commented-out code are not modelled.
- DurationElapsed: the duration timer sleeps `UInt64(seconds * 1_000_000_000)` nanoseconds (`Sources/BleManager/BlemScanner.swift:108`). In the source a negative `seconds` makes that conversion trap, and a very large one overflows the `Int` multiplication, so the timer task crashes. The model takes any `seconds` and always lets the timer fire normally; that crash is not modelled.
- QueueOp: it and `BlemDevice.Valid()` require every queued op to be one of the concrete operations. Queuing a plain `BlemDeviceOp`, whose `start` and `abort` are fatal (`Sources/BleManager/BlemDeviceOp.swift:24-30`), is not modelled; `DeviceOps.Start` and `DeviceOps.Abort` state that fatality.
