/** Prune alone on a store: what it reports and what it removes. */
module Pruner {
  import opened Wrappers
  import opened Text
  import opened Etcd
  import opened Kinds
  import opened Machines
  import opened Iteration

  // ---- when a bundle is eligible ----

  lemma {:induction false} EarliestIsMin(notAfter: seq<int>)
    requires notAfter != []
    ensures Earliest(notAfter) in notAfter && forall e :: e in notAfter ==> Earliest(notAfter) <= e
  {
    if |notAfter| > 1 {
      EarliestIsMin(notAfter[..|notAfter| - 1]);
      assert forall e :: e in notAfter ==> e in notAfter[..|notAfter| - 1] || e == notAfter[|notAfter| - 1];
    }
  }

  // Some certificate expired more than the retention ago.  The largest representable retention never passes, because
  // the elapsed time saturates there.
  predicate Expired(options: PruneOptions, notAfter: seq<int>) {
    options.retention < MAX_DURATION && exists e :: e in notAfter && options.now - e > options.retention
  }

  predicate IsEarliest(earliest: Option<int>, notAfter: seq<int>) {
    earliest.Some? && earliest.value in notAfter && forall e :: e in notAfter ==> earliest.value <= e
  }

  // The report on a readable bundle.
  ghost predicate ItemTells(info: Info, record: Record, active: Option<Pointer>, options: PruneOptions, item: Item) {
    var named := active.Some? && active.value.generation == record.generation;
    var judged := !named && info.kind != TRUST && active.Some?;
    item.target == record.target && item.generation == record.generation && item.kind == info.kind &&
    (item.eligible <==> judged && Expired(options, info.notAfter)) &&
    (if judged then IsEarliest(item.earliest, info.notAfter) else item.earliest.None?) &&
    (named ==> item.status == "active") &&
    (!named && info.kind == TRUST ==> item.status == "trust-skipped") &&
    (!named && info.kind != TRUST && active.None? ==> item.status == "no-active-pointer") &&
    (judged ==> item.status == if item.eligible then "would-delete" else "retained")
  }

  /** A record is read exactly when its bundle decodes to the generation of its key and an identity with a pointer has
      certificates; it is eligible exactly when it is an identity whose target has another active generation and some
      certificate expired more than the retention ago. */
  lemma InspectTells(w: World, record: Record, active: Option<Pointer>, options: PruneOptions)
    requires options.retention >= 0
    ensures var info, item := w.decode(record.data), Inspect(w, record, active, options);
      (item.Some? <==>
        info.Some? && info.value.generation == record.generation &&
        (info.value.kind != TRUST && active.Some? && active.value.generation != record.generation ==> info.value.notAfter != [])) &&
      (item.Some? ==> ItemTells(info.value, record, active, options, item.value))
  {
    if w.decode(record.data).Some? {
      var notAfter := w.decode(record.data).value.notAfter;
      if notAfter != [] {
        EarliestIsMin(notAfter);
        ExpiredIff(options, notAfter);
      }
    }
  }

  lemma ExpiredIff(options: PruneOptions, notAfter: seq<int>)
    requires notAfter != [] && options.retention >= 0
    ensures Sub(options.now, Earliest(notAfter)) > options.retention <==> Expired(options, notAfter)
  {
    EarliestIsMin(notAfter);
    if Sub(options.now, Earliest(notAfter)) > options.retention {
      assert Earliest(notAfter) in notAfter && options.now - Earliest(notAfter) > options.retention;
    }
  }

  /** In any interleaving: an eligible bundle is deleted exactly while the captured pointer of its target is unchanged in
      value and mod revision; otherwise the scan fails without a write. */
  lemma DeletionIs(w: World, log: Log, options: PruneOptions, active: map<string, Pointer>, records: seq<Record>,
                   result: PruneResult, order: seq<Key>)
    requires records != [] && options.delete && records[0].target in active
    requires Inspect(w, records[0], Some(active[records[0].target]), options).Some?
    requires Inspect(w, records[0], Some(active[records[0].target]), options).value.eligible
    ensures var key, pointer := Bundle(V6, records[0].target, records[0].generation), Active(V6, records[0].target);
      var same := pointer in Now(log) && Now(log)[pointer].value == active[records[0].target].generation &&
                        Now(log)[pointer].mod == active[records[0].target].mod;
      var (log', st') := PruneStep(w, log, options, PruneInspect(active, records, result), order);
      if same then
        log' == (if key in Now(log) then log + [Delete(key)] else log) &&
        st'.PruneInspect? && st'.active == active && st'.records == records[1..] && st'.result.deleted == result.deleted + 1
      else log' == log && st' == PruneFailed
  {
  }

  // ---- the effect of a scan ----

  ghost predicate EligibleKey(w: World, view: View, active: map<string, Pointer>, options: PruneOptions, key: Key) {
    key in BundleKeys(view) &&
    var item := Inspect(w, Record(key.target, key.generation, view[key].value), Captured(active, key.target), options);
    item.Some? && item.value.eligible
  }

  // The keys one scan of a view finds eligible, whatever its mode.
  ghost function EligibleKeys(w: World, view: View, options: PruneOptions): set<Key> {
    set key | key in BundleKeys(view) && EligibleKey(w, view, ActiveOf(view, V6), options, key)
  }

  function RecordKeys(records: seq<Record>): set<Key> {
    set r | r in records :: RecordKey(r)
  }

  // Records read from a view: one per v6 bundle, with its data.
  ghost predicate Reads(view: View, records: seq<Record>) {
    RecordKeys(records) == BundleKeys(view) &&
    (forall r :: r in records ==> RecordKey(r) in view && r.data == view[RecordKey(r)].value) &&
    (forall i, j :: 0 <= i < j < |records| ==> RecordKey(records[i]) != RecordKey(records[j]))
  }

  lemma {:induction false} ReadAllEach(view: View, keys: seq<Key>)
    requires forall key :: key in keys ==> key in BundleKeys(view)
    ensures |ReadAll(view, keys)| == |keys|
    ensures forall i :: 0 <= i < |keys| ==>
      keys[i] in view && RecordKey(ReadAll(view, keys)[i]) == keys[i] && ReadAll(view, keys)[i].data == view[keys[i]].value
  {
    if keys != [] {
      var before := keys[..|keys| - 1];
      assert forall key :: key in before ==> key in keys;
      ReadAllEach(view, before);
      assert keys[|keys| - 1] in keys;
    }
  }

  lemma ReadAllReads(view: View, keys: seq<Key>)
    requires Enumerates(keys, BundleKeys(view))
    ensures Reads(view, ReadAll(view, keys))
  {
    ReadAllEach(view, keys);
    var records := ReadAll(view, keys);
    forall key ensures key in RecordKeys(records) <==> key in BundleKeys(view) {
      if key in BundleKeys(view) {
        var i :| 0 <= i < |keys| && keys[i] == key;
        assert records[i] in records;
      }
    }
    forall r | r in records ensures RecordKey(r) in view && r.data == view[RecordKey(r)].value {
      var i :| 0 <= i < |records| && records[i] == r;
      assert RecordKey(records[i]) == keys[i];
    }
  }

  // The keys eligible among the first records, in scan order.
  ghost function Marked(w: World, records: seq<Record>, active: map<string, Pointer>, options: PruneOptions): set<Key> {
    if records == [] then {} else
      var last := records[|records| - 1];
      var item := Inspect(w, last, Captured(active, last.target), options);
      Marked(w, records[..|records| - 1], active, options) +
        if item.Some? && item.value.eligible then {RecordKey(last)} else {}
  }

  lemma {:induction false} MarkedIs(w: World, records: seq<Record>, active: map<string, Pointer>, options: PruneOptions, key: Key)
    ensures key in Marked(w, records, active, options) <==>
      exists r :: r in records && RecordKey(r) == key && Inspect(w, r, Captured(active, r.target), options).Some? &&
        Inspect(w, r, Captured(active, r.target), options).value.eligible
    decreases |records|
  {
    if records != [] {
      var before := records[..|records| - 1];
      MarkedIs(w, before, active, options, key);
      assert forall r :: r in records <==> r in before || r == records[|records| - 1];
    }
  }

  lemma MarkedAll(w: World, view: View, records: seq<Record>, options: PruneOptions)
    requires Reads(view, records)
    ensures Marked(w, records, ActiveOf(view, V6), options) == EligibleKeys(w, view, options)
  {
    var active := ActiveOf(view, V6);
    forall key ensures key in Marked(w, records, active, options) <==> key in EligibleKeys(w, view, options) {
      MarkedIs(w, records, active, options, key);
      if key in BundleKeys(view) {
        assert key in RecordKeys(records);
        var r :| r in records && RecordKey(r) == key;
        assert r == Record(key.target, key.generation, view[key].value);
        forall q | q in records && RecordKey(q) == key ensures q == r {}
      }
      forall r | r in records ensures RecordKey(r) in BundleKeys(view) { assert RecordKey(r) in RecordKeys(records); }
    }
  }

  // ---- the report, in the order of sort.Slice ----

  predicate ItemLeq(a: Item, b: Item) {
    if a.target != b.target then Leq(a.target, b.target) else Leq(a.generation, b.generation)
  }

  ghost predicate ItemsSorted(items: seq<Item>) {
    forall i, j :: 0 <= i < j < |items| ==> ItemLeq(items[i], items[j])
  }

  lemma ItemLeqTransitive(a: Item, b: Item, c: Item)
    requires ItemLeq(a, b) && ItemLeq(b, c)
    ensures ItemLeq(a, c)
  {
    LeqTotal(a.target, b.target);
    LeqTotal(b.target, c.target);
    if a.target == b.target == c.target {
      LeqTransitive(a.generation, b.generation, c.generation);
    } else if a.target != b.target && b.target != c.target {
      LeqTransitive(a.target, b.target, c.target);
      LeqTotal(a.target, c.target);
    }
  }

  lemma ItemLeqTotal(a: Item, b: Item)
    ensures ItemLeq(a, b) || ItemLeq(b, a)
  {
    LeqTotal(a.target, b.target);
    LeqTotal(a.generation, b.generation);
  }

  method InsertItem(sorted: seq<Item>, item: Item) returns (r: seq<Item>)
    requires ItemsSorted(sorted)
    ensures ItemsSorted(r) && multiset(r) == multiset(sorted) + multiset{item}
  {
    var k := 0;
    while k < |sorted| && ItemLeq(sorted[k], item)
      invariant 0 <= k <= |sorted|
      invariant forall i :: 0 <= i < k ==> ItemLeq(sorted[i], item)
    {
      k := k + 1;
    }
    r := sorted[..k] + [item] + sorted[k..];
    assert sorted == sorted[..k] + sorted[k..];
    assert multiset(r) == multiset(sorted[..k]) + multiset{item} + multiset(sorted[k..]);
    if k < |sorted| { ItemLeqTotal(sorted[k], item); }
    InsertedSorted(sorted, item, k);
  }

  lemma InsertedSorted(sorted: seq<Item>, item: Item, k: nat)
    requires ItemsSorted(sorted) && k <= |sorted| && (forall i :: 0 <= i < k ==> ItemLeq(sorted[i], item))
    requires k < |sorted| ==> ItemLeq(item, sorted[k])
    ensures ItemsSorted(sorted[..k] + [item] + sorted[k..])
  {
    var r := sorted[..k] + [item] + sorted[k..];
    forall i, j | 0 <= i < j < |r| ensures ItemLeq(r[i], r[j]) {
      if i == k {
        assert r[j] == sorted[j - 1];
        if j - 1 > k { ItemLeqTransitive(item, sorted[k], sorted[j - 1]); }
      } else {
        assert r[i] == sorted[if i < k then i else i - 1];
        assert j != k ==> r[j] == sorted[if j < k then j else j - 1];
      }
    }
  }

  method SortItems(items: seq<Item>) returns (sorted: seq<Item>)
    ensures ItemsSorted(sorted) && multiset(sorted) == multiset(items)
  {
    sorted := [];
    for i := 0 to |items|
      invariant ItemsSorted(sorted) && multiset(sorted) == multiset(items[..i])
    {
      assert items[..i + 1] == items[..i] + [items[i]];
      sorted := InsertItem(sorted, items[i]);
    }
    assert items[..|items|] == items;
  }

  // One item per record, in scan order.
  ghost function ItemFor(w: World, record: Record, active: map<string, Pointer>, options: PruneOptions): Item
    requires Inspect(w, record, Captured(active, record.target), options).Some?
  {
    var item := Inspect(w, record, Captured(active, record.target), options).value;
    if item.eligible && options.delete then item.(status := "deleted") else item
  }

  ghost predicate Reported(w: World, records: seq<Record>, active: map<string, Pointer>, options: PruneOptions, items: seq<Item>) {
    |items| == |records| &&
    forall i :: 0 <= i < |records| ==>
      Inspect(w, records[i], Captured(active, records[i].target), options).Some? &&
      items[i] == ItemFor(w, records[i], active, options)
  }

  // inspectRecord finds the earliest NotAfter in a loop.
  method InspectRecord(w: World, record: Record, active: Option<Pointer>, options: PruneOptions) returns (item: Option<Item>)
    ensures item == Inspect(w, record, active, options)
  {
    if !Valid(w, record.generation, record.data) {
      return None;
    }
    var info := w.decode(record.data).value;
    var blank := Item(record.target, record.generation, info.kind, None, false, "");
    if active.Some? && active.value.generation == record.generation {
      return Some(blank.(status := "active"));
    }
    if info.kind == TRUST {
      return Some(blank.(status := "trust-skipped"));
    }
    if active.None? {
      return Some(blank.(status := "no-active-pointer"));
    }
    if info.notAfter == [] {
      return None;
    }
    var earliest := info.notAfter[0];
    assert info.notAfter[..1] == [earliest];
    for i := 1 to |info.notAfter|
      invariant earliest == Earliest(info.notAfter[..i])
    {
      assert info.notAfter[..i + 1][..i] == info.notAfter[..i];
      if info.notAfter[i] < earliest {
        earliest := info.notAfter[i];
      }
    }
    assert info.notAfter[..|info.notAfter|] == info.notAfter;
    if Sub(options.now, earliest) > options.retention {
      return Some(blank.(earliest := Some(earliest), eligible := true, status := "would-delete"));
    }
    item := Some(blank.(earliest := Some(earliest), status := "retained"));
  }

  // What a scan has done after some of its records.
  ghost predicate ScanOk(w: World, start: Log, log: Log, done: seq<Record>, active: map<string, Pointer>,
                         options: PruneOptions, result: PruneResult, items: seq<Item>)
  {
    Reported(w, done, active, options, items) && result.items == items &&
    EffectOk(Now(start), Now(log), Marked(w, done, active, options), options.delete, result)
  }

  // The counts of the report and the state of the store, given the keys found eligible so far.
  ghost predicate EffectOk(start: View, now: View, marked: set<Key>, delete: bool, result: PruneResult) {
    result.eligible == |marked| && result.deleted == (if delete then result.eligible else 0) &&
    now == if delete then start - marked else start
  }

  lemma MarkedGrows(w: World, records: seq<Record>, i: nat, active: map<string, Pointer>, options: PruneOptions)
    requires i < |records| && forall a, b :: 0 <= a < b < |records| ==> RecordKey(records[a]) != RecordKey(records[b])
    ensures RecordKey(records[i]) !in Marked(w, records[..i], active, options)
    ensures Marked(w, records[..i + 1], active, options) ==
      Marked(w, records[..i], active, options) +
        (if Inspect(w, records[i], Captured(active, records[i].target), options).Some? &&
            Inspect(w, records[i], Captured(active, records[i].target), options).value.eligible then {RecordKey(records[i])} else {})
  {
    MarkedIs(w, records[..i], active, options, RecordKey(records[i]));
    assert records[..i + 1][..i] == records[..i];
  }

  // A record does not stop the scan: it is valid, and if it is to be deleted the pointer still
  // holds what the snapshot read.  A pointer with white space around its value never does.
  ghost predicate RecordOk(w: World, view: View, active: map<string, Pointer>, options: PruneOptions, record: Record) {
    var item := Inspect(w, record, Captured(active, record.target), options);
    item.Some? &&
    (item.value.eligible && options.delete ==>
      Holds(view, Active(V6, record.target), Condition(active[record.target].generation, active[record.target].mod, true)))
  }

  ghost predicate AllOk(w: World, view: View, active: map<string, Pointer>, options: PruneOptions, records: seq<Record>) {
    forall r :: r in records ==> RecordOk(w, view, active, options, r)
  }

  lemma AllOkNext(w: World, view: View, active: map<string, Pointer>, options: PruneOptions, records: seq<Record>, i: nat)
    requires i < |records|
    ensures AllOk(w, view, active, options, records[..i]) && RecordOk(w, view, active, options, records[i]) ==>
      AllOk(w, view, active, options, records[..i + 1])
    ensures !RecordOk(w, view, active, options, records[i]) ==> !AllOk(w, view, active, options, records)
  {
    assert records[..i + 1] == records[..i] + [records[i]];
    assert records[i] in records;
  }

  // Removing bundles changes no pointer.
  lemma RecordOkStable(w: World, start: View, now: View, marked: set<Key>, active: map<string, Pointer>, options: PruneOptions,
                       record: Record)
    requires now == start || now == start - marked
    requires forall key :: key in marked ==> key.Bundle?
    ensures RecordOk(w, now, active, options, record) <==> RecordOk(w, start, active, options, record)
  {
  }

  lemma {:induction false} MarkedBundles(w: World, records: seq<Record>, active: map<string, Pointer>, options: PruneOptions)
    ensures forall key :: key in Marked(w, records, active, options) ==> key.Bundle?
  {
    if records != [] { MarkedBundles(w, records[..|records| - 1], active, options); }
  }

  // The log after one record, and whether the scan goes on.
  function ScanStep(w: World, log: Log, active: map<string, Pointer>, options: PruneOptions, record: Record): (Log, bool) {
    var item := Inspect(w, record, Captured(active, record.target), options);
    if item.None? then (log, false)
    else if !item.value.eligible || !options.delete then (log, true)
    else
      var expected := Condition(active[record.target].generation, active[record.target].mod, true);
      (RemoveIfActive(log, RecordKey(record), Active(V6, record.target), expected),
       Holds(Now(log), Active(V6, record.target), expected))
  }

  // One record of the scan: inspect it, and in delete mode delete it if it is eligible.
  method ScanOne(kv: Store, w: World, options: PruneOptions, active: map<string, Pointer>, record: Record)
    returns (item: Option<Item>, ok: bool)
    requires RecordKey(record) in Now(kv.log)
    modifies kv
    ensures item == Inspect(w, record, Captured(active, record.target), options)
    ensures ok <==> RecordOk(w, Now(old(kv.log)), active, options, record)
    ensures ok ==> Now(kv.log) == Now(old(kv.log)) - (if item.value.eligible && options.delete then {RecordKey(record)} else {})
    ensures !options.delete ==> kv.log == old(kv.log)
    ensures (kv.log, ok) == ScanStep(w, old(kv.log), active, options, record)
  {
    item := InspectRecord(w, record, Captured(active, record.target), options);
    ok := item.Some?;
    if ok && item.value.eligible && options.delete {
      var expected := Condition(active[record.target].generation, active[record.target].mod, true);
      NowAppend(kv.log, Delete(RecordKey(record)));
      var _, deleted := kv.DeleteBundleIfActiveUnchanged(RecordKey(record), Active(V6, record.target), expected);
      ok := deleted;
    }
  }

  method ScanNext(kv: Store, w: World, options: PruneOptions, active: map<string, Pointer>, records: seq<Record>, i: nat,
                  result: PruneResult, ghost start: Log)
    returns (ok: bool, next: PruneResult)
    requires i < |records| && Reads(Now(start), records)
    requires ScanOk(w, start, kv.log, records[..i], active, options, result, result.items)
    modifies kv
    ensures ok <==> RecordOk(w, Now(start), active, options, records[i])
    ensures ok ==> ScanOk(w, start, kv.log, records[..i + 1], active, options, next, next.items)
    ensures next.scanned == result.scanned && (!options.delete ==> kv.log == old(kv.log))
    ensures (kv.log, if ok then PruneInspect(active, records[i + 1..], next) else PruneFailed) ==
      PruneStep(w, old(kv.log), options, PruneInspect(active, records[i..], result), [])
  {
    InspectStep(w, kv.log, options, active, records, i, result);
    ghost var log := kv.log;
    StillThere(w, start, records, i, active, options);
    MarkedBundles(w, records[..i], active, options);
    RecordOkStable(w, Now(start), Now(log), Marked(w, records[..i], active, options), active, options, records[i]);
    var item;
    item, ok := ScanOne(kv, w, options, active, records[i]);
    next := result;
    if ok {
      ScanAdvances(w, start, log, kv.log, records, i, active, options, result, item.value);
      next := Tally(result, item.value, options.delete);
    }
  }

  // One step of the pruner's machine over the listed records.
  lemma InspectStep(w: World, log: Log, options: PruneOptions, active: map<string, Pointer>, records: seq<Record>, i: nat,
                    result: PruneResult)
    requires i < |records|
    ensures var (log', ok) := ScanStep(w, log, active, options, records[i]);
      PruneStep(w, log, options, PruneInspect(active, records[i..], result), []) ==
        (log', if ok then PruneInspect(active, records[i + 1..],
                 Tally(result, Inspect(w, records[i], Captured(active, records[i].target), options).value, options.delete))
               else PruneFailed)
  {
    assert records[i..][0] == records[i] && records[i..][1..] == records[i + 1..];
  }

  // ---- the machine alone on a store ----

  type Config = (Log, PruneState)

  ghost function Alone(w: World, options: PruneOptions, order: seq<Key>): Config -> Config {
    (c: Config) => PruneStep(w, c.0, options, c.1, order)
  }

  ghost predicate Goes(w: World, options: PruneOptions, order: seq<Key>, start: Log, log: Log, st: PruneState) {
    Reaches(Alone(w, options, order), (start, PruneStart), (log, st))
  }

  lemma GoesStep(w: World, options: PruneOptions, order: seq<Key>, start: Log, log: Log, st: PruneState)
    requires Goes(w, options, order, start, log, st)
    ensures Goes(w, options, order, start, PruneStep(w, log, options, st, order).0, PruneStep(w, log, options, st, order).1)
  {
    ReachesStep(Alone(w, options, order), (start, PruneStart), (log, st));
    assert Alone(w, options, order)((log, st)) == PruneStep(w, log, options, st, order);
  }

  // The list and the reads of an undisturbed store.
  lemma {:induction false} ReadsGo(w: World, options: PruneOptions, order: seq<Key>, log: Log, active: map<string, Pointer>, i: nat)
    requires Goes(w, options, order, log, log, PruneRead(active, order, [])) && i <= |order|
    ensures Goes(w, options, order, log, log, PruneRead(active, order[i..], ReadAll(Now(log), order[..i])))
    decreases i
  {
    if i == 0 {
      assert order[0..] == order;
    } else {
      ReadsGo(w, options, order, log, active, i - 1);
      GoesStep(w, options, order, log, log, PruneRead(active, order[i - 1..], ReadAll(Now(log), order[..i - 1])));
      assert order[i - 1..][1..] == order[i..] && order[..i][..i - 1] == order[..i - 1];
    }
  }

  lemma ListGoes(w: World, options: PruneOptions, order: seq<Key>, log: Log)
    requires options.retention >= 0 && SnapshotOf(log, V6).Some? && BundlesSafe(Now(log)) && Enumerates(order, BundleKeys(Now(log)))
    ensures var records := ReadAll(Now(log), order);
      Goes(w, options, order, log, log, PruneInspect(SnapshotOf(log, V6).value.active, records, PruneResult(|records|, 0, 0, [])))
  {
    var active := SnapshotOf(log, V6).value.active;
    ReachesSelf(Alone(w, options, order), (log, PruneStart));
    GoesStep(w, options, order, log, log, PruneStart);
    GoesStep(w, options, order, log, log, PruneList(active));
    ReadsGo(w, options, order, log, active, |order|);
    assert order[|order|..] == [] && order[..|order|] == order;
    GoesStep(w, options, order, log, log, PruneRead(active, [], ReadAll(Now(log), order)));
  }

  lemma ListFails(w: World, options: PruneOptions, order: seq<Key>, log: Log)
    requires options.retention < 0 || SnapshotOf(log, V6).None? || !BundlesSafe(Now(log))
    ensures Goes(w, options, order, log, log, PruneFailed)
  {
    ReachesSelf(Alone(w, options, order), (log, PruneStart));
    GoesStep(w, options, order, log, log, PruneStart);
    if options.retention >= 0 && SnapshotOf(log, V6).Some? {
      GoesStep(w, options, order, log, log, PruneList(SnapshotOf(log, V6).value.active));
    }
  }

  // The order of a range read matters only to the list.
  lemma InspectGoes(w: World, options: PruneOptions, order: seq<Key>, start: Log, log: Log, active: map<string, Pointer>,
                    records: seq<Record>, result: PruneResult)
    requires Goes(w, options, order, start, log, PruneInspect(active, records, result))
    ensures var (log', st') := PruneStep(w, log, options, PruneInspect(active, records, result), []);
      Goes(w, options, order, start, log', st')
  {
    GoesStep(w, options, order, start, log, PruneInspect(active, records, result));
  }

  // The scan after its first i records.
  ghost predicate Scanned(w: World, start: Log, log: Log, options: PruneOptions, active: map<string, Pointer>, records: seq<Record>,
                          i: nat, order: seq<Key>, result: PruneResult)
    requires i <= |records|
  {
    AllOk(w, Now(start), active, options, records[..i]) &&
    ScanOk(w, start, log, records[..i], active, options, result, result.items) &&
    result.scanned == |records| && (!options.delete ==> log == start) &&
    Goes(w, options, order, start, log, PruneInspect(active, records[i..], result))
  }

  lemma ScanStarts(w: World, start: Log, options: PruneOptions, active: map<string, Pointer>, records: seq<Record>, order: seq<Key>)
    requires Goes(w, options, order, start, start, PruneInspect(active, records, PruneResult(|records|, 0, 0, [])))
    ensures Scanned(w, start, start, options, active, records, 0, order, PruneResult(|records|, 0, 0, []))
  {
    assert records[..0] == [] && records[0..] == records;
  }

  lemma ScanEnds(w: World, start: Log, log: Log, options: PruneOptions, active: map<string, Pointer>, records: seq<Record>,
                 order: seq<Key>, result: PruneResult)
    requires Scanned(w, start, log, options, active, records, |records|, order, result)
    ensures AllOk(w, Now(start), active, options, records) && result.scanned == |records|
    ensures ScanOk(w, start, log, records, active, options, result, result.items)
    ensures Goes(w, options, order, start, log, PruneDone(result))
  {
    assert records[..|records|] == records && records[|records|..] == [];
    InspectGoes(w, options, order, start, log, active, [], result);
  }

  method ScanOn(kv: Store, w: World, options: PruneOptions, active: map<string, Pointer>, records: seq<Record>, i: nat,
                result: PruneResult, ghost start: Log, ghost order: seq<Key>)
    returns (ok: bool, next: PruneResult)
    requires i < |records| && Reads(Now(start), records)
    requires Scanned(w, start, kv.log, options, active, records, i, order, result)
    modifies kv
    ensures ok ==> Scanned(w, start, kv.log, options, active, records, i + 1, order, next)
    ensures !ok ==> !AllOk(w, Now(start), active, options, records) && Goes(w, options, order, start, kv.log, PruneFailed)
    ensures !options.delete ==> kv.log == old(kv.log)
  {
    ghost var log := kv.log;
    ok, next := ScanNext(kv, w, options, active, records, i, result, start);
    InspectGoes(w, options, order, start, log, active, records[i..], result);
    AllOkNext(w, Now(start), active, options, records, i);
  }

  // The loop of Prune over the listed records.
  method Scan(kv: Store, w: World, options: PruneOptions, active: map<string, Pointer>, records: seq<Record>, ghost order: seq<Key>)
    returns (ok: bool, result: PruneResult)
    requires Reads(Now(kv.log), records)
    requires Goes(w, options, order, kv.log, kv.log, PruneInspect(active, records, PruneResult(|records|, 0, 0, [])))
    modifies kv
    ensures ok <==> AllOk(w, Now(old(kv.log)), active, options, records)
    ensures ok ==> ScanOk(w, old(kv.log), kv.log, records, active, options, result, result.items)
    ensures ok ==> result.scanned == |records|
    ensures !options.delete ==> kv.log == old(kv.log)
    ensures Goes(w, options, order, old(kv.log), kv.log, if ok then PruneDone(result) else PruneFailed)
  {
    ghost var start := kv.log;
    result := PruneResult(|records|, 0, 0, []);
    ok := true;
    ScanStarts(w, start, options, active, records, order);
    for i := 0 to |records|
      invariant ok && Scanned(w, start, kv.log, options, active, records, i, order, result)
    {
      ok, result := ScanOn(kv, w, options, active, records, i, result, start, order);
      if !ok { return; }
    }
    ScanEnds(w, start, kv.log, options, active, records, order, result);
  }

  lemma StillThere(w: World, start: Log, records: seq<Record>, i: nat, active: map<string, Pointer>, options: PruneOptions)
    requires Reads(Now(start), records) && i < |records|
    ensures RecordKey(records[i]) in Now(start) && RecordKey(records[i]) !in Marked(w, records[..i], active, options)
  {
    assert records[i] in records;
    MarkedGrows(w, records, i, active, options);
  }

  lemma ReportAdvances(w: World, records: seq<Record>, i: nat, active: map<string, Pointer>, options: PruneOptions,
                       before: seq<Item>, after: seq<Item>)
    requires i < |records| && Reported(w, records[..i], active, options, before)
    requires Inspect(w, records[i], Captured(active, records[i].target), options).Some?
    requires after == before + [ItemFor(w, records[i], active, options)]
    ensures Reported(w, records[..i + 1], active, options, after)
  {
    forall j | 0 <= j < i + 1
      ensures Inspect(w, records[..i + 1][j], Captured(active, records[..i + 1][j].target), options).Some?
      ensures after[j] == ItemFor(w, records[..i + 1][j], active, options)
    {
      if j < i { assert records[..i + 1][j] == records[..i][j]; }
    }
  }

  lemma MarkAdvances(w: World, records: seq<Record>, i: nat, active: map<string, Pointer>, options: PruneOptions, item: Item)
    requires i < |records| && forall a, b :: 0 <= a < b < |records| ==> RecordKey(records[a]) != RecordKey(records[b])
    requires Inspect(w, records[i], Captured(active, records[i].target), options) == Some(item)
    ensures var before := Marked(w, records[..i], active, options);
      Marked(w, records[..i + 1], active, options) == (if item.eligible then before + {RecordKey(records[i])} else before) &&
      |Marked(w, records[..i + 1], active, options)| == |before| + if item.eligible then 1 else 0
  {
    MarkedGrows(w, records, i, active, options);
  }

  lemma EffectAdvances(start: View, now: View, now': View, marked: set<Key>, key: Key, delete: bool, result: PruneResult, item: Item)
    requires EffectOk(start, now, marked, delete, result) && key !in marked
    requires now' == now - (if item.eligible && delete then {key} else {})
    ensures EffectOk(start, now', if item.eligible then marked + {key} else marked, delete, Tally(result, item, delete))
  {
  }

  lemma ScanAdvances(w: World, start: Log, log: Log, log': Log, records: seq<Record>, i: nat, active: map<string, Pointer>,
                     options: PruneOptions, result: PruneResult, item: Item)
    requires i < |records| && forall a, b :: 0 <= a < b < |records| ==> RecordKey(records[a]) != RecordKey(records[b])
    requires ScanOk(w, start, log, records[..i], active, options, result, result.items)
    requires Inspect(w, records[i], Captured(active, records[i].target), options) == Some(item)
    requires Now(log') == Now(log) - (if item.eligible && options.delete then {RecordKey(records[i])} else {})
    ensures ScanOk(w, start, log', records[..i + 1], active, options, Tally(result, item, options.delete),
                   Tally(result, item, options.delete).items)
  {
    MarkedGrows(w, records, i, active, options);
    MarkAdvances(w, records, i, active, options, item);
    var items := result.items + [ItemFor(w, records[i], active, options)];
    ReportAdvances(w, records, i, active, options, result.items, items);
    EffectAdvances(Now(start), Now(log), Now(log'), Marked(w, records[..i], active, options), RecordKey(records[i]),
                   options.delete, result, item);
    assert Tally(result, item, options.delete).items == items;
  }

  // Every v6 pointer and bundle has safe names, and so has every v6 pointer's value, white space aside.
  ghost predicate NamesSafe(view: View) {
    (forall t :: Active(V6, t) in view ==> SafeName(t) && SafeName(TrimSpace(view[Active(V6, t)].value))) &&
    forall t, g :: Bundle(V6, t, g) in view ==> SafeName(t) && SafeName(g)
  }

  lemma NamesSafeIs(view: View)
    ensures NamesSafe(view) <==> PointersSafe(view, V6) && BundlesSafe(view)
  {
    forall t | Active(V6, t) in view ensures t in PointerTargets(view, V6) {}
    if BundlesSafe(view) {
      forall t, g | Bundle(V6, t, g) in view ensures SafeName(t) && SafeName(g) { assert Bundle(V6, t, g) in BundleKeys(view); }
    }
    if NamesSafe(view) {
      forall key | key in BundleKeys(view) ensures SafeName(key.target) && SafeName(key.generation) {
        assert Bundle(V6, key.target, key.generation) in view;
      }
    }
  }

  /** Prune on a store it has to itself.  It goes through the states of its machine, so the run theorems of
      Safety are about it; the report is the machine's, sorted.  A successful scan reports one sorted item per bundle and
      counts the eligible keys; delete mode removes exactly those keys, and a dry run nothing. */
  method Prune(kv: Store, w: World, options: PruneOptions)
    returns (ok: bool, result: PruneResult, ghost order: seq<Key>, ghost st: PruneState)
    modifies kv
    ensures Goes(w, options, order, old(kv.log), kv.log, st)
    ensures if ok then st.PruneDone? && result == st.result.(items := result.items) && multiset(result.items) == multiset(st.result.items)
            else st == PruneFailed
    ensures ok <==> options.retention >= 0 && NamesSafe(Now(old(kv.log))) &&
                    forall key :: key in BundleKeys(Now(old(kv.log))) ==> Scannable(w, Now(old(kv.log)), options, key)
    ensures ok ==> result.scanned == |result.items| == |BundleKeys(Now(old(kv.log)))|
    ensures ok ==> result.eligible == |set key | key in Now(old(kv.log)) && Expendable(w, Now(old(kv.log)), options, key)|
    ensures ok ==> result.deleted == if options.delete then result.eligible else 0
    ensures ok ==> ItemsSorted(result.items)
    ensures ok ==> forall i, j :: 0 <= i < j < |result.items| ==>
      if result.items[i].target != result.items[j].target then Leq(result.items[i].target, result.items[j].target)
      else Leq(result.items[i].generation, result.items[j].generation)
    ensures ok ==> forall item :: item in result.items ==> ItemRight(w, Now(old(kv.log)), options, item)
    ensures ok && options.delete ==>
      Now(kv.log) == Now(old(kv.log)) - set key | key in Now(old(kv.log)) && Expendable(w, Now(old(kv.log)), options, key)
    ensures !options.delete ==> kv.log == old(kv.log)
  {
    NamesSafeIs(Now(kv.log));
    result := PruneResult(0, 0, 0, []);
    ok, order, st := false, [], PruneFailed;
    if options.retention < 0 {
      ListFails(w, options, order, kv.log);
      return;
    }
    ghost var start := kv.log;
    var active := kv.SnapshotActivePrefix(V6);
    if active.None? {
      ListFails(w, options, order, start);
      return;
    }
    var listed, keys, records := kv.ListBundleRecords();
    if !listed {
      ListFails(w, options, order, start);
      return;
    }
    order := keys;
    ListGoes(w, options, order, start);
    ReadAllReads(Now(start), keys);
    MarkedAll(w, Now(start), records, options);
    ok, result := Scan(kv, w, options, active.value.active, records, order);
    AllOkIs(w, Now(start), records, options);
    forall key | key in BundleKeys(Now(start)) ensures KeyOk(w, Now(start), options, key) <==> Scannable(w, Now(start), options, key) {
      KeyOkIs(w, Now(start), options, key);
    }
    EligibleKeysAre(w, Now(start), options);
    if ok {
      st := PruneDone(result);
      ghost var items := result.items;
      ReportedItems(w, Now(start), records, options, items);
      var sorted := SortItems(result.items);
      assert forall item :: item in sorted <==> item in multiset(items);
      assert |sorted| == |multiset(sorted)|;
      result := result.(items := sorted);
    }
  }

  function RecordAt(view: View, key: Key): Record
    requires key in BundleKeys(view)
  {
    Record(key.target, key.generation, view[key].value)
  }

  // A stored bundle does not stop the scan.
  ghost predicate KeyOk(w: World, view: View, options: PruneOptions, key: Key)
    requires key in BundleKeys(view)
  {
    RecordOk(w, view, ActiveOf(view, V6), options, RecordAt(view, key))
  }

  lemma AllOkIs(w: World, view: View, records: seq<Record>, options: PruneOptions)
    requires Reads(view, records)
    ensures AllOk(w, view, ActiveOf(view, V6), options, records) <==>
      forall key :: key in BundleKeys(view) ==> KeyOk(w, view, options, key)
  {
    forall r | r in records ensures RecordKey(r) in BundleKeys(view) && RecordAt(view, RecordKey(r)) == r {
      assert RecordKey(r) in RecordKeys(records);
    }
    forall key | key in BundleKeys(view) ensures RecordAt(view, key) in records {
      assert key in RecordKeys(records);
      var r :| r in records && RecordKey(r) == key;
    }
  }

  // ---- by the keys of the store ----

  // An identity with another active generation, one of whose certificates expired long enough ago.
  ghost predicate Expendable(w: World, view: View, options: PruneOptions, key: Key) {
    key in view && key.Bundle? && key.version == V6 && w.decode(view[key].value).Some? &&
    var info := w.decode(view[key].value).value;
    info.generation == key.generation && info.kind != TRUST && Expired(options, info.notAfter) &&
    Active(V6, key.target) in view && TrimSpace(view[Active(V6, key.target)].value) != key.generation
  }

  // The pointer of a target, as a snapshot reports it.
  ghost function PointerIn(view: View, target: string): Option<Pointer> {
    if Active(V6, target) in view then
      Some(Pointer(TrimSpace(view[Active(V6, target)].value), view[Active(V6, target)].mod))
    else None
  }

  // A bundle that a scan gets past: it is readable, and a pointer in the way of its deletion compares equal as it was read.
  ghost predicate Scannable(w: World, view: View, options: PruneOptions, key: Key)
    requires key in BundleKeys(view)
  {
    w.decode(view[key].value).Some? && w.decode(view[key].value).value.generation == key.generation &&
    var info := w.decode(view[key].value).value;
    (info.kind != TRUST && Active(V6, key.target) in view && TrimSpace(view[Active(V6, key.target)].value) != key.generation ==>
      info.notAfter != []) &&
    (options.delete && Expendable(w, view, options, key) ==>
      view[Active(V6, key.target)].value == TrimSpace(view[Active(V6, key.target)].value))
  }

  // An item tells of one stored bundle, and of its deletion.
  ghost predicate ItemRight(w: World, view: View, options: PruneOptions, item: Item) {
    var key := Bundle(V6, item.target, item.generation);
    key in view && w.decode(view[key].value).Some? && w.decode(view[key].value).value.generation == item.generation &&
    ItemTells(w.decode(view[key].value).value, RecordAt(view, key), PointerIn(view, item.target), options,
              if item.eligible && options.delete then item.(status := "would-delete") else item) &&
    (item.eligible && options.delete ==> item.status == "deleted") &&
    (item.eligible <==> Expendable(w, view, options, key))
  }

  lemma CapturedIs(view: View, target: string)
    ensures Captured(ActiveOf(view, V6), target) == PointerIn(view, target)
  {
    if Active(V6, target) in view { assert target in PointerTargets(view, V6); }
  }

  lemma EligibleKeyIs(w: World, view: View, options: PruneOptions, key: Key)
    requires options.retention >= 0
    ensures EligibleKey(w, view, ActiveOf(view, V6), options, key) <==> Expendable(w, view, options, key)
  {
    if key in BundleKeys(view) {
      CapturedIs(view, key.target);
      InspectTells(w, RecordAt(view, key), PointerIn(view, key.target), options);
    }
  }

  lemma EligibleKeysAre(w: World, view: View, options: PruneOptions)
    requires options.retention >= 0
    ensures EligibleKeys(w, view, options) == set key | key in view && Expendable(w, view, options, key)
  {
    forall key ensures key in EligibleKeys(w, view, options) <==> key in view && Expendable(w, view, options, key) {
      EligibleKeyIs(w, view, options, key);
    }
  }

  lemma KeyOkIs(w: World, view: View, options: PruneOptions, key: Key)
    requires options.retention >= 0 && key in BundleKeys(view)
    ensures KeyOk(w, view, options, key) <==> Scannable(w, view, options, key)
  {
    CapturedIs(view, key.target);
    InspectTells(w, RecordAt(view, key), PointerIn(view, key.target), options);
    EligibleKeyIs(w, view, options, key);
    if Active(V6, key.target) in view {
      assert key.target in PointerTargets(view, V6);
      assert ActiveOf(view, V6)[key.target] == PointerOf(view[Active(V6, key.target)]);
    }
  }

  lemma ReportedItem(w: World, view: View, records: seq<Record>, options: PruneOptions, r: Record)
    requires options.retention >= 0
    requires Reads(view, records) && r in records && Inspect(w, r, Captured(ActiveOf(view, V6), r.target), options).Some?
    ensures ItemRight(w, view, options, ItemFor(w, r, ActiveOf(view, V6), options))
  {
    assert RecordKey(r) in RecordKeys(records);
    assert r == RecordAt(view, RecordKey(r));
    CapturedIs(view, r.target);
    InspectTells(w, r, PointerIn(view, r.target), options);
    EligibleKeyIs(w, view, options, RecordKey(r));
  }

  lemma ReportedItems(w: World, view: View, records: seq<Record>, options: PruneOptions, items: seq<Item>)
    requires options.retention >= 0
    requires Reads(view, records) && Reported(w, records, ActiveOf(view, V6), options, items)
    ensures |items| == |BundleKeys(view)|
    ensures forall item :: item in items ==> ItemRight(w, view, options, item)
  {
    DistinctKeys(records);
    forall i | 0 <= i < |items| ensures ItemRight(w, view, options, items[i]) {
      assert records[i] in records;
      ReportedItem(w, view, records, options, records[i]);
    }
  }

  lemma {:induction false} DistinctKeys(records: seq<Record>)
    requires forall i, j :: 0 <= i < j < |records| ==> RecordKey(records[i]) != RecordKey(records[j])
    ensures |RecordKeys(records)| == |records|
  {
    if records != [] {
      var before, last := records[..|records| - 1], records[|records| - 1];
      DistinctKeys(before);
      assert RecordKeys(records) == RecordKeys(before) + {RecordKey(last)} by {
        assert forall r :: r in records <==> r in before || r == last;
      }
    }
  }

  /** After a successful delete the same scan finds nothing eligible. */
  lemma NothingLeft(w: World, view: View, options: PruneOptions)
    ensures EligibleKeys(w, view - EligibleKeys(w, view, options), options) == {}
  {
    var gone := EligibleKeys(w, view, options);
    var view' := view - gone;
    forall t ensures Active(V6, t) in view' <==> Active(V6, t) in view {}
    assert PointerTargets(view', V6) == PointerTargets(view, V6) by {
      forall t | t in PointerTargets(view, V6) ensures t in PointerTargets(view', V6) { assert Active(V6, t) in view'; }
      forall t | t in PointerTargets(view', V6) ensures t in PointerTargets(view, V6) { assert Active(V6, t) in view; }
    }
    assert ActiveOf(view', V6) == ActiveOf(view, V6);
    forall key | key in BundleKeys(view') ensures !EligibleKey(w, view', ActiveOf(view, V6), options, key) {
      assert key in BundleKeys(view) && key !in gone && view'[key] == view[key];
    }
  }
}
