/**
 * WeakOwnerList: an ordered list of (owner, item) entries whose owners are
 * referenced weakly. An owner that has gone away is one that is not in the
 * caller's `alive` set; its entries are purged before the list is read.
 */
module WeakList {
  import opened BleTypes

  datatype WeakOwnerItem<T> = WeakOwnerItem(owner: OwnerId, item: T)

  /** The entries whose owner is alive, in their original order. */
  function Live<T>(entries: seq<WeakOwnerItem<T>>, alive: set<OwnerId>): (r: seq<WeakOwnerItem<T>>)
    ensures |r| <= |entries|
    ensures forall i :: 0 <= i < |r| ==> r[i].owner in alive
    ensures forall i :: 0 <= i < |r| ==> r[i] in entries
  {
    if entries == [] then []
    else if entries[0].owner in alive then [entries[0]] + Live(entries[1..], alive)
    else Live(entries[1..], alive)
  }

  /** The entries whose item does not satisfy `pred`, in their original order. */
  function Unmatched<T>(entries: seq<WeakOwnerItem<T>>, pred: T -> bool): (r: seq<WeakOwnerItem<T>>)
    ensures |r| <= |entries|
    ensures forall i :: 0 <= i < |r| ==> !pred(r[i].item)
    ensures forall i :: 0 <= i < |r| ==> r[i] in entries
    ensures forall i :: 0 <= i < |entries| && !pred(entries[i].item) ==> entries[i] in r
  {
    if entries == [] then []
    else if pred(entries[0].item) then Unmatched(entries[1..], pred)
    else [entries[0]] + Unmatched(entries[1..], pred)
  }

  /** The items of `entries`, in order. */
  function Items<T>(entries: seq<WeakOwnerItem<T>>): (r: seq<T>)
    ensures |r| == |entries|
    ensures forall i :: 0 <= i < |entries| ==> r[i] == entries[i].item
  {
    seq(|entries|, i requires 0 <= i < |entries| => entries[i].item)
  }

  class WeakOwnerList<T> {
    var observers: seq<WeakOwnerItem<T>>

    constructor ()
      ensures observers == []
    {
      observers := [];
    }

    /** `add(weakOwner:_:)`: append at the end. */
    method Add(owner: OwnerId, item: T)
      modifies this
      ensures observers == old(observers) + [WeakOwnerItem(owner, item)]
    {
      observers := observers + [WeakOwnerItem(owner, item)];
    }

    /** `cleanUp`: drop the entries whose owner has gone away. */
    method CleanUp(alive: set<OwnerId>)
      modifies this
      ensures observers == Live(old(observers), alive)
    {
      var kept: seq<WeakOwnerItem<T>> := [];
      var i := |observers|;
      while i > 0
        invariant 0 <= i <= |observers|
        invariant kept == Live(observers[i..], alive)
      {
        i := i - 1;
        assert observers[i..][1..] == observers[i + 1..];
        if observers[i].owner in alive {
          kept := [observers[i]] + kept;
        }
      }
      assert observers[0..] == observers;
      observers := kept;
    }

    /** `allItems`: clean up, then the remaining items in insertion order. */
    method AllItems(alive: set<OwnerId>) returns (items: seq<T>)
      modifies this
      ensures observers == Live(old(observers), alive)
      ensures items == Items(observers)
    {
      CleanUp(alive);
      items := Items(observers);
    }

    /** `removeAll(_:)`: clean up, then drop the live entries whose item satisfies `pred`. */
    method RemoveAll(pred: T -> bool, alive: set<OwnerId>)
      modifies this
      ensures observers == Unmatched(Live(old(observers), alive), pred)
    {
      CleanUp(alive);
      var kept: seq<WeakOwnerItem<T>> := [];
      var i := |observers|;
      while i > 0
        invariant 0 <= i <= |observers|
        invariant kept == Unmatched(observers[i..], pred)
      {
        i := i - 1;
        assert observers[i..][1..] == observers[i + 1..];
        if !pred(observers[i].item) {
          kept := [observers[i]] + kept;
        }
      }
      assert observers[0..] == observers;
      observers := kept;
    }

    /**
     * `forEach(_:)`: clean up, then call the closure on every remaining item
     * in insertion order; the calls are returned as the items visited.
     */
    method ForEach(alive: set<OwnerId>) returns (visited: seq<T>)
      modifies this
      ensures observers == Live(old(observers), alive)
      ensures |visited| == |observers|
      ensures forall i :: 0 <= i < |visited| ==> visited[i] == observers[i].item && observers[i].owner in alive
    {
      CleanUp(alive);
      visited := [];
      for i := 0 to |observers|
        invariant |visited| == i
        invariant forall k :: 0 <= k < i ==> visited[k] == observers[k].item
      {
        visited := visited + [observers[i].item];
      }
    }
  }

  /** Purging dead owners keeps order: it distributes over concatenation. */
  lemma {:induction false} LiveAppend<T>(a: seq<WeakOwnerItem<T>>, b: seq<WeakOwnerItem<T>>, alive: set<OwnerId>)
    ensures Live(a + b, alive) == Live(a, alive) + Live(b, alive)
  {
    if a == [] {
      assert a + b == b;
    } else {
      assert (a + b)[0] == a[0];
      assert (a + b)[1..] == a[1..] + b;
      LiveAppend(a[1..], b, alive);
    }
  }

  /** An entry with a live owner is never dropped, wherever it stands among dead ones. */
  lemma {:induction false} LiveKeepsLiveEntries<T>(entries: seq<WeakOwnerItem<T>>, alive: set<OwnerId>, k: nat)
    requires k < |entries| && entries[k].owner in alive
    ensures entries[k] in Live(entries, alive)
  {
    if k > 0 {
      assert entries[1..][k - 1] == entries[k];
      LiveKeepsLiveEntries(entries[1..], alive, k - 1);
    }
  }

  /** A list whose owners are all alive is left as it is. */
  lemma {:induction false} LiveOfAllLive<T>(entries: seq<WeakOwnerItem<T>>, alive: set<OwnerId>)
    requires forall i :: 0 <= i < |entries| ==> entries[i].owner in alive
    ensures Live(entries, alive) == entries
  {
    if entries != [] {
      LiveOfAllLive(entries[1..], alive);
    }
  }

  /** Cleaning up twice is cleaning up once. */
  lemma LiveIdempotent<T>(entries: seq<WeakOwnerItem<T>>, alive: set<OwnerId>)
    ensures Live(Live(entries, alive), alive) == Live(entries, alive)
  {
    LiveOfAllLive(Live(entries, alive), alive);
  }

  /** Adding an entry with a live owner makes its item the last one `allItems` reports. */
  lemma AddThenLive<T>(entries: seq<WeakOwnerItem<T>>, owner: OwnerId, item: T, alive: set<OwnerId>)
    requires owner in alive
    ensures Live(entries + [WeakOwnerItem(owner, item)], alive) == Live(entries, alive) + [WeakOwnerItem(owner, item)]
  {
    LiveAppend(entries, [WeakOwnerItem(owner, item)], alive);
  }

  /** `removeAll(_:)` keeps order: dropping matches distributes over concatenation. */
  lemma {:induction false} UnmatchedAppend<T>(a: seq<WeakOwnerItem<T>>, b: seq<WeakOwnerItem<T>>, pred: T -> bool)
    ensures Unmatched(a + b, pred) == Unmatched(a, pred) + Unmatched(b, pred)
  {
    if a == [] {
      assert a + b == b;
    } else {
      assert (a + b)[0] == a[0];
      assert (a + b)[1..] == a[1..] + b;
      UnmatchedAppend(a[1..], b, pred);
    }
  }

  /** With no entry matching, `removeAll(_:)` keeps the list as it is. */
  lemma {:induction false} UnmatchedNoneMatch<T>(entries: seq<WeakOwnerItem<T>>, pred: T -> bool)
    requires forall i :: 0 <= i < |entries| ==> !pred(entries[i].item)
    ensures Unmatched(entries, pred) == entries
  {
    if entries != [] {
      UnmatchedNoneMatch(entries[1..], pred);
    }
  }
}
