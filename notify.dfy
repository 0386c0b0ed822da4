/**
 * BlemNotifyManager: per-device registry of notification observers. It
 * validates subscriptions against the device's characteristic cache, sends
 * the transport's notify-enable once per characteristic uuid (tracked in the
 * duplicate-free `activeUuids`), fans value updates out in registration
 * order and purges observers whose owner has gone away.
 */
module Notify {
  import opened BleTypes
  import opened DeviceOps
  import opened WeakList

  /** BlemNotifyError. */
  datatype NotifyError = CharacteristicNotFound | NoOnDataDefined | NoOnStoppedDefined | NoOnErrorDefined

  /** BlemNotifyObserver: its id (the object's identity), the uuid it watches, its weak owner and its closures. */
  datatype BlemNotifyObserver = BlemNotifyObserver(id: nat, uuid: BleUuid, owner: OwnerId,
                               onData: Option<ClosureId>, onStopped: Option<ClosureId>, onError: Option<ClosureId>)
  {
    /** `init(weakOwner:_:)`: no closures yet. */
    static function New(id: nat, owner: OwnerId, uuid: BleUuid): (o: BlemNotifyObserver)
      ensures o.id == id && o.owner == owner && o.uuid == uuid
      ensures o.onData.None? && o.onStopped.None? && o.onError.None?
    {
      BlemNotifyObserver(id, uuid, owner, None, None, None)
    }

    /** The builder `onData(closure:)`. */
    function WithOnData(c: ClosureId): (o: BlemNotifyObserver)
      ensures o.onData == Some(c) && o.onStopped == onStopped && o.onError == onError
      ensures o.id == id && o.uuid == uuid && o.owner == owner
    {
      this.(onData := Some(c))
    }

    /** The builder `onStopped(closure:)`. */
    function WithOnStopped(c: ClosureId): (o: BlemNotifyObserver)
      ensures o.onStopped == Some(c) && o.onData == onData && o.onError == onError
      ensures o.id == id && o.uuid == uuid && o.owner == owner
    {
      this.(onStopped := Some(c))
    }

    /** The builder `onError(closure:)`. */
    function WithOnError(c: ClosureId): (o: BlemNotifyObserver)
      ensures o.onError == Some(c) && o.onData == onData && o.onStopped == onStopped
      ensures o.id == id && o.uuid == uuid && o.owner == owner
    {
      this.(onError := Some(c))
    }

    predicate Complete() { onData.Some? && onStopped.Some? && onError.Some? }
  }

  /** The checks `notify` makes, in order, before any side effect. */
  function Validate(o: BlemNotifyObserver, chars: seq<Characteristic>): (r: Option<NotifyError>)
    ensures r.None? <==> FirstWithUuid(chars, o.uuid).Some? && o.Complete()
    ensures r == Some(CharacteristicNotFound) <==> FirstWithUuid(chars, o.uuid).None?
    ensures r == Some(NoOnDataDefined) <==> FirstWithUuid(chars, o.uuid).Some? && o.onData.None?
    ensures r == Some(NoOnStoppedDefined) <==> FirstWithUuid(chars, o.uuid).Some? && o.onData.Some? && o.onStopped.None?
    ensures r == Some(NoOnErrorDefined) <==> FirstWithUuid(chars, o.uuid).Some? && o.onData.Some? && o.onStopped.Some? && o.onError.None?
  {
    if FirstWithUuid(chars, o.uuid).None? then Some(CharacteristicNotFound)
    else if o.onData.None? then Some(NoOnDataDefined)
    else if o.onStopped.None? then Some(NoOnStoppedDefined)
    else if o.onError.None? then Some(NoOnErrorDefined)
    else None
  }

  predicate NoDuplicates(s: seq<BleUuid>)
  {
    forall i, j :: 0 <= i < j < |s| ==> s[i] != s[j]
  }

  /** The `onStopped` calls of `stop(uuid)`: live observers of `uuid` whose closure is set, in order. */
  function StoppedCalls(observers: seq<BlemNotifyObserver>, uuid: BleUuid, alive: set<OwnerId>): (r: seq<Effect>)
    ensures |r| <= |observers|
    ensures forall i :: 0 <= i < |r| ==> r[i].ObserverStopped?
  {
    if observers == [] then []
    else
      var o := observers[0];
      (if o.owner in alive && o.uuid == uuid && o.onStopped.Some? then [ObserverStopped(o.id)] else [])
      + StoppedCalls(observers[1..], uuid, alive)
  }

  /** The `onData` calls of a value update: live observers of the characteristic's uuid, in order. */
  function DataCalls(observers: seq<BlemNotifyObserver>, c: Characteristic, alive: set<OwnerId>): (r: seq<Effect>)
    ensures |r| <= |observers|
    ensures forall i :: 0 <= i < |r| ==> r[i].ObserverData? && r[i].data == c.value
  {
    if observers == [] then []
    else
      var o := observers[0];
      (if o.owner in alive && o.uuid == c.uuid && o.onData.Some? then [ObserverData(o.id, c.value)] else [])
      + DataCalls(observers[1..], c, alive)
  }

  /** The observers not watching `uuid`, in order. */
  function NotWatching(observers: seq<BlemNotifyObserver>, uuid: BleUuid): (r: seq<BlemNotifyObserver>)
    ensures |r| <= |observers|
    ensures forall i :: 0 <= i < |r| ==> r[i].uuid != uuid
    ensures forall o :: o in observers && o.uuid != uuid ==> o in r
    ensures forall o :: o in r ==> o in observers
  {
    if observers == [] then []
    else if observers[0].uuid == uuid then NotWatching(observers[1..], uuid)
    else [observers[0]] + NotWatching(observers[1..], uuid)
  }

  /** The observers whose owner is alive, in order. */
  function LiveObservers(observers: seq<BlemNotifyObserver>, alive: set<OwnerId>): (r: seq<BlemNotifyObserver>)
    ensures |r| <= |observers|
    ensures forall i :: 0 <= i < |r| ==> r[i].owner in alive
    ensures forall o :: o in observers && o.owner in alive ==> o in r
    ensures forall o :: o in r ==> o in observers
  {
    if observers == [] then []
    else if observers[0].owner in alive then [observers[0]] + LiveObservers(observers[1..], alive)
    else LiveObservers(observers[1..], alive)
  }

  class BlemNotifyManager {
    /** The uuid of the device this manager belongs to, naming it in transport commands. */
    const device: string
    var observers: seq<BlemNotifyObserver>
    var activeUuids: seq<BleUuid>

    ghost predicate Valid()
      reads this
    {
      NoDuplicates(activeUuids) &&
      forall i :: 0 <= i < |observers| ==> observers[i].Complete()
    }

    constructor (device: string)
      ensures Valid() && this.device == device && observers == [] && activeUuids == []
    {
      this.device := device;
      observers := [];
      activeUuids := [];
    }

    /**
     * `notify(_:)`: validate against the device's cache `chars`, then send
     * notify-enable unless the uuid is already active, and register the
     * observer at the end.
     */
    method Notify(o: BlemNotifyObserver, chars: seq<Characteristic>) returns (err: Option<NotifyError>, effects: seq<Effect>)
      requires Valid()
      modifies this
      ensures Valid()
      ensures err == Validate(o, chars)
      ensures err.Some? ==> effects == [] && observers == old(observers) && activeUuids == old(activeUuids)
      ensures err.None? ==> observers == old(observers) + [o]
      ensures err.None? && o.uuid in old(activeUuids) ==> effects == [] && activeUuids == old(activeUuids)
      ensures err.None? && o.uuid !in old(activeUuids) ==>
                effects == [SetNotifyValueCmd(device, true, FirstWithUuid(chars, o.uuid).value)] &&
                activeUuids == old(activeUuids) + [o.uuid]
      ensures o.uuid in activeUuids <==> o.uuid in old(activeUuids) || err.None?
    {
      var deviceChar := FirstWithUuid(chars, o.uuid);
      if deviceChar.None? {
        return Some(CharacteristicNotFound), [];
      }
      if o.onData.None? { return Some(NoOnDataDefined), []; }
      if o.onStopped.None? { return Some(NoOnStoppedDefined), []; }
      if o.onError.None? { return Some(NoOnErrorDefined), []; }
      err, effects := None, [];
      if o.uuid !in activeUuids {
        effects := [SetNotifyValueCmd(device, true, deviceChar.value)];
        activeUuids := activeUuids + [o.uuid];
      }
      observers := observers + [o];
    }

    /**
     * `stop(_:)`: when the uuid is in the cache, send notify-disable once,
     * deactivate the uuid, call `onStopped` of each live observer of it and
     * drop all its observers, live or not.
     */
    method Stop(uuid: BleUuid, chars: seq<Characteristic>, alive: set<OwnerId>) returns (effects: seq<Effect>)
      requires Valid()
      modifies this
      ensures Valid()
      ensures FirstWithUuid(chars, uuid).None? ==>
                effects == [] && observers == old(observers) && activeUuids == old(activeUuids)
      ensures FirstWithUuid(chars, uuid).Some? ==>
                effects == [SetNotifyValueCmd(device, false, FirstWithUuid(chars, uuid).value)] + StoppedCalls(old(observers), uuid, alive) &&
                activeUuids == Without(old(activeUuids), uuid) &&
                observers == NotWatching(old(observers), uuid)
    {
      var deviceChar := FirstWithUuid(chars, uuid);
      if deviceChar.None? {
        return [];
      }
      effects := [SetNotifyValueCmd(device, false, deviceChar.value)];
      activeUuids := Without(activeUuids, uuid);
      WithoutKeepsNoDuplicates(old(activeUuids), uuid);

      var calls := CollectStoppedCalls(observers, uuid, alive);
      effects := effects + calls;
      observers := NotWatching(observers, uuid);
    }

    /**
     * `peripheral(_:didUpdateValueFor:error:)`: call `onData` of every live
     * observer of the characteristic's uuid, in order, then purge observers
     * whose owner has gone away. `activeUuids` is not touched.
     */
    method DidUpdateValue(c: Characteristic, alive: set<OwnerId>) returns (effects: seq<Effect>)
      requires Valid()
      modifies this
      ensures Valid()
      ensures effects == DataCalls(old(observers), c, alive)
      ensures observers == LiveObservers(old(observers), alive)
      ensures activeUuids == old(activeUuids)
    {
      var cleanupObservers;
      effects, cleanupObservers := CollectDataCalls(observers, c, alive);
      if cleanupObservers {
        observers := LiveObservers(observers, alive);
      } else {
        AllLiveUnchanged(observers, alive);
      }
    }
  }

  /** The loop of `stop(_:)`: the `onStopped` calls for live observers of `uuid`, in order. */
  method CollectStoppedCalls(observers: seq<BlemNotifyObserver>, uuid: BleUuid, alive: set<OwnerId>) returns (calls: seq<Effect>)
    ensures calls == StoppedCalls(observers, uuid, alive)
  {
    calls := [];
    for i := 0 to |observers|
      invariant calls == StoppedCalls(observers[..i], uuid, alive)
    {
      var ob := observers[i];
      assert observers[..i + 1] == observers[..i] + [ob];
      StoppedCallsAppend(observers[..i], [ob], uuid, alive);
      if ob.owner in alive && ob.uuid == uuid && ob.onStopped.Some? {
        calls := calls + [ObserverStopped(ob.id)];
      }
    }
    assert observers[..|observers|] == observers;
  }

  /**
   * The loop of a value update: the `onData` calls, in order, and whether a
   * dead owner was seen (without one, the purge has nothing to drop).
   */
  method CollectDataCalls(observers: seq<BlemNotifyObserver>, c: Characteristic, alive: set<OwnerId>)
    returns (effects: seq<Effect>, cleanup: bool)
    ensures effects == DataCalls(observers, c, alive)
    ensures !cleanup ==> forall k :: 0 <= k < |observers| ==> observers[k].owner in alive
  {
    cleanup := false;
    effects := [];
    for i := 0 to |observers|
      invariant effects == DataCalls(observers[..i], c, alive)
      invariant !cleanup ==> forall k :: 0 <= k < i ==> observers[k].owner in alive
    {
      var ob := observers[i];
      assert observers[..i + 1] == observers[..i] + [ob];
      DataCallsAppend(observers[..i], [ob], c, alive);
      if ob.owner !in alive {
        cleanup := true;
      } else if ob.uuid == c.uuid && ob.onData.Some? {
        effects := effects + [ObserverData(ob.id, c.value)];
      }
    }
    assert observers[..|observers|] == observers;
  }

  /** The `onStopped` calls of two lists in a row are those of the first, then those of the second. */
  lemma {:induction false} StoppedCallsAppend(a: seq<BlemNotifyObserver>, b: seq<BlemNotifyObserver>, uuid: BleUuid, alive: set<OwnerId>)
    ensures StoppedCalls(a + b, uuid, alive) == StoppedCalls(a, uuid, alive) + StoppedCalls(b, uuid, alive)
  {
    if a == [] {
      assert a + b == b;
    } else {
      assert (a + b)[0] == a[0];
      assert (a + b)[1..] == a[1..] + b;
      StoppedCallsAppend(a[1..], b, uuid, alive);
    }
  }

  /** The `onData` fan-out of two lists in a row is that of the first, then that of the second. */
  lemma {:induction false} DataCallsAppend(a: seq<BlemNotifyObserver>, b: seq<BlemNotifyObserver>, c: Characteristic, alive: set<OwnerId>)
    ensures DataCalls(a + b, c, alive) == DataCalls(a, c, alive) + DataCalls(b, c, alive)
  {
    if a == [] {
      assert a + b == b;
    } else {
      assert (a + b)[0] == a[0];
      assert (a + b)[1..] == a[1..] + b;
      DataCallsAppend(a[1..], b, c, alive);
    }
  }

  /** Removing a uuid from a duplicate-free list leaves it duplicate-free. */
  lemma {:induction false} WithoutKeepsNoDuplicates(s: seq<BleUuid>, u: BleUuid)
    requires NoDuplicates(s)
    ensures NoDuplicates(Without(s, u))
  {
    if s != [] {
      assert NoDuplicates(s[1..]);
      WithoutKeepsNoDuplicates(s[1..], u);
      if s[0] != u {
        assert s[0] !in s[1..];
        assert s[0] !in Without(s[1..], u);
      }
    }
  }

  /** With every owner alive, the purge keeps the list as it is. */
  lemma {:induction false} AllLiveUnchanged(observers: seq<BlemNotifyObserver>, alive: set<OwnerId>)
    requires forall k :: 0 <= k < |observers| ==> observers[k].owner in alive
    ensures LiveObservers(observers, alive) == observers
  {
    if observers != [] {
      AllLiveUnchanged(observers[1..], alive);
    }
  }

  /** A value update never calls a dead owner's observer: each call names a live observer of that uuid. */
  lemma {:induction false} DataCallsOnlyLive(observers: seq<BlemNotifyObserver>, c: Characteristic, alive: set<OwnerId>, k: nat)
    requires k < |DataCalls(observers, c, alive)|
    ensures exists o :: o in observers && o.owner in alive && o.uuid == c.uuid && o.onData.Some? &&
                        DataCalls(observers, c, alive)[k] == ObserverData(o.id, c.value)
  {
    var o := observers[0];
    var head := if o.owner in alive && o.uuid == c.uuid && o.onData.Some? then [ObserverData(o.id, c.value)] else [];
    if k >= |head| {
      DataCallsOnlyLive(observers[1..], c, alive, k - |head|);
      var o' :| o' in observers[1..] && o'.owner in alive && o'.uuid == c.uuid && o'.onData.Some? &&
                DataCalls(observers[1..], c, alive)[k - |head|] == ObserverData(o'.id, c.value);
      assert o' in observers;
    }
  }

  /**
   * Three observers of one characteristic subscribe in turn: notify-enable
   * is sent for the first only.
   */
  method EnableSentOnce(device: string, c: Characteristic, o1: BlemNotifyObserver, o2: BlemNotifyObserver, o3: BlemNotifyObserver)
    returns (e1: seq<Effect>, e2: seq<Effect>, e3: seq<Effect>)
    requires o1.Complete() && o2.Complete() && o3.Complete()
    requires o1.uuid == c.uuid && o2.uuid == c.uuid && o3.uuid == c.uuid
    ensures e1 == [SetNotifyValueCmd(device, true, c)] && e2 == [] && e3 == []
  {
    var m := new BlemNotifyManager(device);
    var err: Option<NotifyError>;
    err, e1 := m.Notify(o1, [c]);
    err, e2 := m.Notify(o2, [c]);
    err, e3 := m.Notify(o3, [c]);
  }

  /** Subscribing without an `onError` closure fails and sends nothing. */
  method MissingOnErrorRejected(device: string, c: Characteristic, id: nat, owner: OwnerId, d: ClosureId, s: ClosureId)
    returns (err: Option<NotifyError>, effects: seq<Effect>)
    ensures err == Some(NoOnErrorDefined) && effects == []
  {
    var m := new BlemNotifyManager(device);
    var o := BlemNotifyObserver.New(id, owner, c.uuid).WithOnData(d).WithOnStopped(s);
    err, effects := m.Notify(o, [c]);
  }

  /** Every `onStopped` call of `stop(uuid)` goes to a live observer of `uuid` that has the closure. */
  lemma {:induction false} StoppedCallsOnlyLive(observers: seq<BlemNotifyObserver>, uuid: BleUuid, alive: set<OwnerId>, id: nat)
    requires ObserverStopped(id) in StoppedCalls(observers, uuid, alive)
    ensures exists o :: o in observers && o.id == id && o.owner in alive && o.uuid == uuid && o.onStopped.Some?
  {
    var o := observers[0];
    if o.owner in alive && o.uuid == uuid && o.onStopped.Some? && o.id == id {
      assert o in observers;
    } else {
      StoppedCallsOnlyLive(observers[1..], uuid, alive, id);
      var o' :| o' in observers[1..] && o'.id == id && o'.owner in alive && o'.uuid == uuid && o'.onStopped.Some?;
      assert o' in observers;
    }
  }

  /** Every live observer of `uuid` that has an `onStopped` closure is called by `stop(uuid)`. */
  lemma {:induction false} StoppedCallsReachAllLive(observers: seq<BlemNotifyObserver>, uuid: BleUuid, alive: set<OwnerId>, k: nat)
    requires k < |observers|
    requires observers[k].owner in alive && observers[k].uuid == uuid && observers[k].onStopped.Some?
    ensures ObserverStopped(observers[k].id) in StoppedCalls(observers, uuid, alive)
  {
    if k > 0 {
      assert observers[1..][k - 1] == observers[k];
      StoppedCallsReachAllLive(observers[1..], uuid, alive, k - 1);
    }
  }

  /** Every live observer of the updated uuid that has an `onData` closure receives the value. */
  lemma {:induction false} DataCallsReachAllLive(observers: seq<BlemNotifyObserver>, c: Characteristic, alive: set<OwnerId>, k: nat)
    requires k < |observers|
    requires observers[k].owner in alive && observers[k].uuid == c.uuid && observers[k].onData.Some?
    ensures ObserverData(observers[k].id, c.value) in DataCalls(observers, c, alive)
  {
    if k > 0 {
      assert observers[1..][k - 1] == observers[k];
      DataCallsReachAllLive(observers[1..], c, alive, k - 1);
    }
  }

  /** `removeAll` in `stop(_:)` keeps order: it distributes over concatenation. */
  lemma {:induction false} NotWatchingAppend(a: seq<BlemNotifyObserver>, b: seq<BlemNotifyObserver>, uuid: BleUuid)
    ensures NotWatching(a + b, uuid) == NotWatching(a, uuid) + NotWatching(b, uuid)
  {
    if a == [] {
      assert a + b == b;
    } else {
      assert (a + b)[0] == a[0];
      assert (a + b)[1..] == a[1..] + b;
      NotWatchingAppend(a[1..], b, uuid);
    }
  }

  /** The purge after a value update keeps order: it distributes over concatenation. */
  lemma {:induction false} LiveObserversAppend(a: seq<BlemNotifyObserver>, b: seq<BlemNotifyObserver>, alive: set<OwnerId>)
    ensures LiveObservers(a + b, alive) == LiveObservers(a, alive) + LiveObservers(b, alive)
  {
    if a == [] {
      assert a + b == b;
    } else {
      assert (a + b)[0] == a[0];
      assert (a + b)[1..] == a[1..] + b;
      LiveObserversAppend(a[1..], b, alive);
    }
  }

  /** With no observer of `uuid`, `stop(uuid)` keeps the observer list as it is. */
  lemma {:induction false} NotWatchingNoneWatching(observers: seq<BlemNotifyObserver>, uuid: BleUuid)
    requires forall k :: 0 <= k < |observers| ==> observers[k].uuid != uuid
    ensures NotWatching(observers, uuid) == observers
  {
    if observers != [] {
      NotWatchingNoneWatching(observers[1..], uuid);
    }
  }

  /** The observer list read as weak-owner entries: each observer is held for its own owner. */
  function AsEntries(observers: seq<BlemNotifyObserver>): (r: seq<WeakOwnerItem<BlemNotifyObserver>>)
    ensures |r| == |observers|
    ensures forall i :: 0 <= i < |observers| ==> r[i] == WeakOwnerItem(observers[i].owner, observers[i])
  {
    seq(|observers|, i requires 0 <= i < |observers| => WeakOwnerItem(observers[i].owner, observers[i]))
  }

  /** The purge after a value update is the weak-owner list's clean-up, applied to observers. */
  lemma {:induction false} LiveObserversIsLive(observers: seq<BlemNotifyObserver>, alive: set<OwnerId>)
    ensures Items(Live(AsEntries(observers), alive)) == LiveObservers(observers, alive)
  {
    if observers != [] {
      var entries := AsEntries(observers);
      assert entries[1..] == AsEntries(observers[1..]);
      LiveObserversIsLive(observers[1..], alive);
      var rest := Live(entries[1..], alive);
      if observers[0].owner in alive {
        assert Items([entries[0]] + rest) == [observers[0]] + Items(rest);
      }
    }
  }
}
