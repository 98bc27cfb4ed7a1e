/** The part of etcd the programs use: a log of single-key writes, one revision each.
    The current view, historical reads, create and mod revisions all derive from the log. */
module Etcd {
  import opened Wrappers
  import opened Text

  datatype Version = V4 | V5 | V6

  // Keyspace proves that printing these keys below one prefix is injective.
  datatype Key =
    | Active(version: Version, target: string)
    | Bundle(version: Version, target: string, generation: string)

  datatype Cell = Cell(value: string, create: nat, mod: nat)

  // DeleteOld is the one prefix deletion in the programs, `<prefix>/v5/`.
  datatype Write = Put(key: Key, value: string) | Delete(key: Key) | DeleteOld

  type Log = seq<Write>
  type View = map<Key, Cell>

  function Revision(log: Log): nat {
    |log| + 1
  }

  predicate Touches(write: Write, key: Key) {
    match write
    case Put(k, _) => k == key
    case Delete(k) => k == key
    case DeleteOld => key.version == V5
  }

  function Apply(view: View, write: Write, revision: nat): View {
    match write
    case Put(key, value) =>
      view[key := Cell(value, if key in view then view[key].create else revision, revision)]
    case Delete(key) => view - {key}
    case DeleteOld => map key | key in view && key.version != V5 :: view[key]
  }

  // The view after the whole log.
  function Now(log: Log): View {
    if log == [] then map[] else Apply(Now(log[..|log| - 1]), log[|log| - 1], |log| + 1)
  }

  // The view at a past revision.
  function At(log: Log, revision: nat): View
    requires 1 <= revision <= Revision(log)
  {
    Now(log[..revision - 1])
  }

  function Lookup(view: View, key: Key): Option<Cell> {
    if key in view then Some(view[key]) else None
  }

  lemma NowAppend(log: Log, write: Write)
    ensures Now(log + [write]) == Apply(Now(log), write, Revision(log) + 1)
    ensures Revision(log + [write]) == Revision(log) + 1
  {
    assert (log + [write])[..|log|] == log;
  }

  lemma AtNow(log: Log)
    ensures At(log, Revision(log)) == Now(log)
  {
    assert log[..|log|] == log;
  }

  lemma AtAppend(log: Log, write: Write, revision: nat)
    requires 1 <= revision <= Revision(log)
    ensures At(log + [write], revision) == At(log, revision)
  {
    assert (log + [write])[..revision - 1] == log[..revision - 1];
  }

  lemma {:induction false} CellBounds(log: Log, key: Key)
    requires key in Now(log)
    ensures 2 <= Now(log)[key].create <= Now(log)[key].mod <= Revision(log)
    ensures log[Now(log)[key].mod - 2] == Put(key, Now(log)[key].value)
    decreases |log|
  {
    var before := log[..|log| - 1];
    if key in Now(before) {
      CellBounds(before, key);
    }
  }

  // Writes that do not touch a key leave its cell alone.
  lemma {:induction false} Frame(log: Log, from: nat, key: Key)
    requires from <= |log|
    requires forall i :: from <= i < |log| ==> !Touches(log[i], key)
    ensures Lookup(Now(log), key) == Lookup(Now(log[..from]), key)
    decreases |log|
  {
    if from == |log| {
      assert log[..from] == log;
    } else {
      var before := log[..|log| - 1];
      assert before[..from] == log[..from];
      Frame(before, from, key);
      assert !Touches(log[|log| - 1], key);
    }
  }

  // A key whose mod revision is m was not touched after revision m: the fact every
  // ModRevision comparison rests on.
  lemma {:induction false} ModFreezes(log: Log, key: Key, revision: nat)
    requires key in Now(log) && Now(log)[key].mod <= revision <= Revision(log)
    ensures 1 <= revision
    ensures key in At(log, revision) && At(log, revision)[key] == Now(log)[key]
    ensures forall i :: revision - 1 <= i < |log| ==> !Touches(log[i], key)
    decreases |log|
  {
    CellBounds(log, key);
    if revision == Revision(log) {
      AtNow(log);
    } else {
      var before := log[..|log| - 1];
      assert !Touches(log[|log| - 1], key);
      assert before[..revision - 1] == log[..revision - 1];
      ModFreezes(before, key, revision);
      forall i | revision - 1 <= i < |log| ensures !Touches(log[i], key) {
        if i < |before| { assert before[i] == log[i]; }
      }
    }
  }

  // One captured pointer state, compared by value and mod revision, or absent.
  datatype Condition = Condition(generation: string, mod: nat, exists_: bool)

  predicate Holds(view: View, key: Key, expected: Condition) {
    if expected.exists_ then key in view && view[key].value == expected.generation && view[key].mod == expected.mod
    else key !in view
  }

  function Stage(log: Log, key: Key, value: string): Log {
    if key in Now(log) then log else log + [Put(key, value)]
  }

  function Swap(log: Log, key: Key, generation: string, expected: Condition): Log {
    if Holds(Now(log), key, expected) then log + [Put(key, generation)] else log
  }

  function SwapFromSource(log: Log, sourceKey: Key, source: Condition, key: Key, generation: string,
                          expected: Condition): Log {
    if Holds(Now(log), sourceKey, source) then Swap(log, key, generation, expected) else log
  }

  // etcd assigns no revision to a transaction that changes nothing.
  function Remove(log: Log, key: Key): Log {
    if key in Now(log) then log + [Delete(key)] else log
  }

  function RemoveIfActive(log: Log, bundleKey: Key, activeKey: Key, expected: Condition): Log {
    if Holds(Now(log), activeKey, expected) then Remove(log, bundleKey) else log
  }

  function RemoveOld(log: Log): Log {
    if exists key :: key in Now(log) && key.version == V5 then log + [DeleteOld] else log
  }

  datatype Pointer = Pointer(generation: string, mod: nat)
  datatype Snapshot = Snapshot(revision: nat, active: map<string, Pointer>)

  function PointerTargets(view: View, version: Version): set<string> {
    set key | key in view && key.Active? && key.version == version :: key.target
  }

  ghost predicate SafePointer(view: View, key: Key)
    requires key in view
  {
    SafeName(key.target) && SafeName(TrimSpace(view[key].value))
  }

  ghost function PointerOf(cell: Cell): Pointer {
    Pointer(TrimSpace(cell.value), cell.mod)
  }

  ghost predicate PointersSafe(view: View, version: Version) {
    forall t :: t in PointerTargets(view, version) ==> SafePointer(view, Active(version, t))
  }

  ghost function ActiveOf(view: View, version: Version): map<string, Pointer> {
    map t | t in PointerTargets(view, version) :: PointerOf(view[Active(version, t)])
  }

  // One range read of every pointer of one protocol version; an unsafe pointer fails it.
  ghost function SnapshotOf(log: Log, version: Version): Option<Snapshot> {
    if PointersSafe(Now(log), version) then Some(Snapshot(Revision(log), ActiveOf(Now(log), version))) else None
  }

  lemma SnapshotAt(log: Log, version: Version, target: string)
    requires SnapshotOf(log, version).Some?
    ensures var active := SnapshotOf(log, version).value.active;
      (target in active <==> Active(version, target) in Now(log)) &&
      (target in active ==>
        active[target] == PointerOf(Now(log)[Active(version, target)]) &&
        SafeName(target) && SafeName(active[target].generation))
  {
    var view := Now(log);
    if Active(version, target) in view {
      assert target in PointerTargets(view, version);
    }
  }

  lemma SnapshotTells(log: Log, version: Version)
    ensures SnapshotOf(log, version).Some? <==> forall t :: Active(version, t) in Now(log) ==>
      SafeName(t) && SafeName(TrimSpace(Now(log)[Active(version, t)].value))
    ensures SnapshotOf(log, version).Some? ==> forall t ::
      (t in SnapshotOf(log, version).value.active <==> Active(version, t) in Now(log)) &&
      (t in SnapshotOf(log, version).value.active ==>
        SnapshotOf(log, version).value.active[t] ==
          Pointer(TrimSpace(Now(log)[Active(version, t)].value), Now(log)[Active(version, t)].mod))
  {
    forall t | Active(version, t) in Now(log) ensures t in PointerTargets(Now(log), version) {
      assert Active(version, t).target == t;
    }
  }

  datatype Record = Record(target: string, generation: string, data: string)

  function BundleKeys(view: View): set<Key> {
    set key | key in view && key.Bundle? && key.version == V6
  }

  /** The etcd client: every method is one atomic request. */
  class Store {
    var log: Log

    constructor ()
      ensures log == []
    {
      log := [];
    }

    method Get(key: Key) returns (value: Option<Cell>)
      ensures value == Lookup(Now(log), key)
    {
      value := Lookup(Now(log), key);
    }

    // A revision of zero or less reads the current view; a future revision is an error.
    method GetAt(key: Key, revision: int) returns (ok: bool, value: Option<Cell>)
      ensures ok <==> revision <= Revision(log)
      ensures ok ==> value == Lookup(if revision <= 0 then Now(log) else At(log, revision), key)
    {
      ok, value := revision <= Revision(log), None;
      if ok {
        value := Lookup(if revision <= 0 then Now(log) else At(log, revision), key);
      }
    }

    method StageBundleIfAbsent(key: Key, value: string) returns (created: bool)
      modifies this
      ensures created <==> key !in Now(old(log))
      ensures log == Stage(old(log), key, value)
      ensures log == if created then old(log) + [Put(key, value)] else old(log)
    {
      created := key !in Now(log);
      if created { log := log + [Put(key, value)]; }
    }

    method SwapActive(key: Key, generation: string, expected: Condition) returns (updated: bool)
      modifies this
      ensures updated <==> Holds(Now(old(log)), key, expected)
      ensures log == Swap(old(log), key, generation, expected)
      ensures updated <==>
        (expected.exists_ <==> key in Now(old(log))) &&
        (expected.exists_ ==> Now(old(log))[key].value == expected.generation && Now(old(log))[key].mod == expected.mod)
      ensures log == if updated then old(log) + [Put(key, generation)] else old(log)
    {
      updated := Holds(Now(log), key, expected);
      if updated { log := log + [Put(key, generation)]; }
    }

    method SwapActiveFromSource(sourceKey: Key, source: Condition, key: Key, generation: string, expected: Condition)
      returns (ok: bool, updated: bool)
      modifies this
      ensures ok <==> source.exists_
      ensures updated <==> ok && Holds(Now(old(log)), sourceKey, source) && Holds(Now(old(log)), key, expected)
      ensures log == if ok then SwapFromSource(old(log), sourceKey, source, key, generation, expected) else old(log)
      ensures updated <==>
        source.exists_ && sourceKey in Now(old(log)) &&
        Now(old(log))[sourceKey].value == source.generation && Now(old(log))[sourceKey].mod == source.mod &&
        (expected.exists_ <==> key in Now(old(log))) &&
        (expected.exists_ ==> Now(old(log))[key].value == expected.generation && Now(old(log))[key].mod == expected.mod)
      ensures log == if updated then old(log) + [Put(key, generation)] else old(log)
    {
      ok := source.exists_;
      updated := ok && Holds(Now(log), sourceKey, source) && Holds(Now(log), key, expected);
      if updated { log := log + [Put(key, generation)]; }
    }

    method DeleteBundleIfActiveUnchanged(bundleKey: Key, activeKey: Key, expected: Condition)
      returns (ok: bool, deleted: bool)
      modifies this
      ensures ok <==> expected.exists_
      ensures deleted <==> ok && Holds(Now(old(log)), activeKey, expected)
      ensures log == if ok then RemoveIfActive(old(log), bundleKey, activeKey, expected) else old(log)
      ensures deleted <==>
        expected.exists_ && activeKey in Now(old(log)) &&
        Now(old(log))[activeKey].value == expected.generation && Now(old(log))[activeKey].mod == expected.mod
      ensures log == if deleted && bundleKey in Now(old(log)) then old(log) + [Delete(bundleKey)] else old(log)
    {
      ok := expected.exists_;
      deleted := ok && Holds(Now(log), activeKey, expected);
      if deleted && bundleKey in Now(log) { log := log + [Delete(bundleKey)]; }
    }

    method DeletePrefix() returns (deleted: nat)
      modifies this
      ensures log == RemoveOld(old(log))
      ensures deleted == |set key | key in Now(old(log)) && key.version == V5|
    {
      var old5 := set key | key in Now(log) && key.version == V5;
      deleted := |old5|;
      if old5 != {} {
        var key :| key in old5;
        log := log + [DeleteOld];
      } else {
        assert forall key :: key in Now(log) && key.version == V5 ==> key in old5;
      }
    }

    method SnapshotActivePrefix(version: Version) returns (snapshot: Option<Snapshot>)
      ensures snapshot == SnapshotOf(log, version)
      ensures snapshot.Some? <==> forall t :: Active(version, t) in Now(log) ==>
        SafeName(t) && SafeName(TrimSpace(Now(log)[Active(version, t)].value))
      ensures snapshot.Some? ==> snapshot.value.revision == |log| + 1 && forall t ::
        (t in snapshot.value.active <==> Active(version, t) in Now(log)) &&
        (t in snapshot.value.active ==>
          snapshot.value.active[t] == Pointer(TrimSpace(Now(log)[Active(version, t)].value), Now(log)[Active(version, t)].mod))
    {
      SnapshotTells(log, version);
      var view := Now(log);
      var targets := PointerTargets(view, version);
      var rest := targets;
      var active: map<string, Pointer> := map[];
      while rest != {}
        invariant rest <= targets
        invariant active.Keys == targets - rest
        invariant forall t :: t in active ==> SafePointer(view, Active(version, t)) && active[t] == PointerOf(view[Active(version, t)])
        decreases rest
      {
        var t :| t in rest;
        var generation := Trim(view[Active(version, t)].value);
        if !SafeName(t) || !SafeName(generation) {
          return None;
        }
        active := active[t := Pointer(generation, view[Active(version, t)].mod)];
        rest := rest - {t};
      }
      assert active == ActiveOf(view, version);
      snapshot := Some(Snapshot(Revision(log), active));
    }

    // The keys-only range read, in whatever order etcd returns them.
    method ListBundleKeys() returns (ok: bool, keys: seq<Key>)
      ensures ok <==> BundlesSafe(Now(log))
      ensures ok ==> Enumerates(keys, BundleKeys(Now(log)))
    {
      var view := Now(log);
      var rest := BundleKeys(view);
      keys := [];
      ok := true;
      while rest != {}
        invariant rest <= BundleKeys(view) && view == Now(log)
        invariant forall key :: key in BundleKeys(view) && key !in rest ==>
                    SafeName(key.target) && SafeName(key.generation) && key in keys
        invariant forall key :: key in keys ==> key in BundleKeys(view) && key !in rest
        invariant forall i, j :: 0 <= i < j < |keys| ==> keys[i] != keys[j]
        decreases rest
      {
        var key :| key in rest;
        if !SafeName(key.target) || !SafeName(key.generation) {
          return false, [];
        }
        assert forall k :: k in keys + [key] <==> k in keys || k == key;
        keys := keys + [key];
        rest := rest - {key};
      }
    }

    // One exact read per listed key; a key that is gone by then is skipped.
    method ListBundleRecords() returns (ok: bool, ghost keys: seq<Key>, records: seq<Record>)
      ensures ok <==> BundlesSafe(Now(log))
      ensures ok ==> Enumerates(keys, BundleKeys(Now(log))) && records == ReadAll(Now(log), keys)
    {
      var found, listed := ListBundleKeys();
      ok, keys, records := found, listed, [];
      if ok {
        for i := 0 to |listed|
          invariant records == ReadAll(Now(log), listed[..i])
        {
          assert listed[..i + 1][..i] == listed[..i];
          assert listed[i] in listed;
          var value := Get(listed[i]);
          if value.Some? {
            records := records + [Record(listed[i].target, listed[i].generation, value.value.value)];
          }
        }
        assert listed[..|listed|] == listed;
      }
    }
  }

  predicate BundlesSafe(view: View) {
    forall key :: key in BundleKeys(view) ==> SafeName(key.target) && SafeName(key.generation)
  }

  function ReadAll(view: View, keys: seq<Key>): seq<Record> {
    if keys == [] then [] else
      var key := keys[|keys| - 1];
      ReadAll(view, keys[..|keys| - 1]) +
        if key.Bundle? && key in view then [Record(key.target, key.generation, view[key].value)] else []
  }

  function RecordKey(record: Record): Key {
    Bundle(V6, record.target, record.generation)
  }
}
