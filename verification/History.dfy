/** Pointer history: every v6 pointer write is the commit of one process, and a commit over a
    captured pointer replaces exactly that pointer. */
module History {
  import opened Text
  import opened Etcd
  import opened Machines
  import opened Safety

  ghost predicate HistoryOk(base: nat, s: System) {
    1 <= base <= Revision(s.log) && CommittersKnown(base, s) && CommittersRight(s) && PublishedRecorded(s)
  }

  // Every pointer put since base has a committer.
  ghost predicate CommittersKnown(base: nat, s: System)
    requires 1 <= base
  {
    forall r :: r in s.committer <==> base < r <= Revision(s.log) && PutsPointer(s.log[r - 2])
  }

  // A committer is no pruner, and a publisher only of its own commit.
  ghost predicate CommittersRight(s: System) {
    forall r :: r in s.committer ==>
      s.committer[r] < |s.processes| && !s.processes[s.committer[r]].PruneProcess? &&
      (s.processes[s.committer[r]].PublishProcess? ==>
        s.processes[s.committer[r]].publish.Published? && s.processes[s.committer[r]].publish.commit == r)
  }

  ghost predicate PublishedRecorded(s: System) {
    forall i :: 0 <= i < |s.processes| && s.processes[i].PublishProcess? && s.processes[i].publish.Published? ==>
      s.processes[i].publish.commit in s.committer && s.committer[s.processes[i].publish.commit] == i
  }

  // Only a swap puts a pointer, and a publisher's swap ends in Published at that revision.
  lemma PointerPutIsCommit(w: World, log: Log, p: Process, order: seq<Key>)
    ensures var (log', p') := ProcessStep(w, log, p, order);
      var puts := |log'| > |log| && PutsPointer(log'[|log|]);
      (puts ==> !p'.PruneProcess?) &&
      (p'.PublishProcess? && puts ==> p'.publish.Published? && p'.publish.commit == Revision(log')) &&
      (p'.PublishProcess? && p'.publish.Published? && !puts ==> p' == p) &&
      (p.PublishProcess? && p.publish.Published? ==> p' == p && log' == log) &&
      (p'.PublishProcess? <==> p.PublishProcess?) && (p'.PruneProcess? <==> p.PruneProcess?)
  {
  }

  lemma CommitterAdds(base: nat, s: System, s': System, write: Write)
    requires 1 <= base <= Revision(s.log) && CommittersKnown(base, s) && s'.log == s.log + [write]
    requires s'.committer.Keys == s.committer.Keys + if PutsPointer(write) then {Revision(s'.log)} else {}
    ensures CommittersKnown(base, s')
  {
    forall r ensures r in s'.committer <==> base < r <= Revision(s'.log) && PutsPointer(s'.log[r - 2]) {
      assert base < r <= Revision(s.log) ==> s'.log[r - 2] == s.log[r - 2];
      assert r in s'.committer <==> r in s'.committer.Keys;
    }
  }

  // A step writes nothing, or one entry, and records the committer of a pointer put.
  lemma AdvanceRecords(w: World, s: System, step: Step)
    requires WorldOk(w) && SystemOk(w, s)
    ensures var s' := Advance(w, false, s, step);
      (s'.log == s.log && s'.committer == s.committer) ||
      (|s'.log| == |s.log| + 1 && s'.log == s.log + [s'.log[|s.log|]] &&
       s'.committer.Keys == s.committer.Keys + if PutsPointer(s'.log[|s.log|]) then {Revision(s'.log)} else {})
  {
    AdvanceKeeps(w, false, s, step);
  }

  lemma CommitterKept(w: World, base: nat, s: System, step: Step)
    requires WorldOk(w) && SystemOk(w, s) && HistoryOk(base, s)
    ensures CommittersKnown(base, Advance(w, false, s, step)) && Revision(s.log) <= Revision(Advance(w, false, s, step).log)
  {
    var s' := Advance(w, false, s, step);
    AdvanceRecords(w, s, step);
    if |s'.log| > |s.log| { CommitterAdds(base, s, s', s'.log[|s.log|]); }
  }

  // The step of one process, by the facts of PointerPutIsCommit.
  ghost predicate CommitStep(s: System, id: nat, p: Process, puts: bool, revision: nat, s': System) {
    id < |s.processes| && s'.processes == s.processes[id := p] &&
    s'.committer == (if puts then s.committer[revision := id] else s.committer) &&
    (puts ==> !p.PruneProcess?) &&
    (p.PublishProcess? && puts ==> p.publish.Published? && p.publish.commit == revision) &&
    (p.PublishProcess? && p.publish.Published? && !puts ==> p == s.processes[id]) &&
    (s.processes[id].PublishProcess? && s.processes[id].publish.Published? ==> p == s.processes[id] && !puts) &&
    (p.PublishProcess? <==> s.processes[id].PublishProcess?) && (p.PruneProcess? <==> s.processes[id].PruneProcess?)
  }

  lemma CommitStepRight(s: System, id: nat, p: Process, puts: bool, revision: nat, s': System)
    requires CommitStep(s, id, p, puts, revision, s') && CommittersRight(s)
    ensures CommittersRight(s')
  {
  }

  lemma CommitStepRecorded(s: System, id: nat, p: Process, puts: bool, revision: nat, s': System)
    requires CommitStep(s, id, p, puts, revision, s') && PublishedRecorded(s) && revision !in s.committer
    ensures PublishedRecorded(s')
  {
  }

  lemma AdvanceKeepsHistory(w: World, base: nat, s: System, step: Step)
    requires WorldOk(w) && SystemOk(w, s) && HistoryOk(base, s)
    ensures HistoryOk(base, Advance(w, false, s, step))
  {
    CommitterKept(w, base, s, step);
    if step.Move? && step.id < |s.processes| {
      MoveKeepsHistory(w, s, step.id, step.order, Advance(w, false, s, step));
    }
  }

  lemma MoveKeepsHistory(w: World, s: System, id: nat, order: seq<Key>, s': System)
    requires WorldOk(w) && SystemOk(w, s) && id < |s.processes| && s' == Advance(w, false, s, Move(id, order))
    requires CommittersRight(s) && PublishedRecorded(s) && forall r :: r in s.committer ==> r <= Revision(s.log)
    ensures CommittersRight(s') && PublishedRecorded(s')
  {
    var (log, p) := ProcessStep(w, s.log, s.processes[id], order);
    PointerPutIsCommit(w, s.log, s.processes[id], order);
    var puts := |log| > |s.log| && PutsPointer(log[|s.log|]);
    var revision := if puts then Revision(log) else Revision(s.log) + 1;
    CommitStepRight(s, id, p, puts, revision, s');
    CommitStepRecorded(s, id, p, puts, revision, s');
  }

  lemma {:induction false} RunKeepsHistory(w: World, s: System, steps: seq<Step>)
    requires WorldOk(w) && SystemOk(w, s) && HistoryOk(Revision(s.log), s)
    ensures HistoryOk(Revision(s.log), Run(w, false, s, steps))
    decreases |steps|
  {
    if steps != [] {
      RunKeeps(w, false, s, steps[..|steps| - 1]);
      RunKeepsHistory(w, s, steps[..|steps| - 1]);
      AdvanceKeepsHistory(w, Revision(s.log), Run(w, false, s, steps[..|steps| - 1]), steps[|steps| - 1]);
    }
  }

  // What a commit replaced: over a captured pointer, exactly the put of the captured value, with
  // no write to the key in between and a different value after; otherwise an absent key.
  ghost predicate Replaces(log: Log, key: Key, captured: Condition, commit: nat) {
    2 <= commit <= Revision(log) &&
    if captured.exists_ then
      2 <= captured.mod < commit && log[captured.mod - 2] == Put(key, captured.generation) &&
      (forall i :: captured.mod - 1 <= i < commit - 2 ==> !Touches(log[i], key)) &&
      log[commit - 2].Put? && log[commit - 2].value != captured.generation
    else key !in At(log, commit - 1)
  }

  lemma CommitReplaces(log: Log, pack: Pack, captured: Condition, commit: nat)
    requires Committed(log, pack, captured, commit)
    ensures Replaces(log, Active(V6, pack.target), captured, commit)
  {
    var before := log[..commit - 2];
    var key := Active(V6, pack.target);
    if captured.exists_ {
      CellBounds(before, key);
      ModFreezes(before, key, captured.mod);
      assert forall i :: 0 <= i < |before| ==> before[i] == log[i];
    }
  }

  // Every pointer an upgrader has put was absent just before.
  ghost predicate UpgradersCreate(s: System) {
    forall r :: r in s.committer && 2 <= r <= Revision(s.log) && s.committer[r] < |s.processes| && s.processes[s.committer[r]].UpgradeProcess? ==>
      s.log[r - 2].Put? && s.log[r - 2].key !in At(s.log, r - 1)
  }

  // An upgrader's pointer put creates the pointer; no step turns another process into an upgrader.
  lemma UpgraderPutCreates(w: World, log: Log, p: Process, order: seq<Key>)
    requires var log' := ProcessStep(w, log, p, order).0;
      |log'| > |log| && PutsPointer(log'[|log|]) && p.UpgradeProcess?
    ensures ProcessStep(w, log, p, order).0[|log|].key !in Now(log)
  {
  }

  lemma ProcessKind(w: World, log: Log, p: Process, order: seq<Key>)
    ensures ProcessStep(w, log, p, order).1.UpgradeProcess? <==> p.UpgradeProcess?
  {
  }

  lemma CreatesKept(s: System, s': System, id: nat, p: Process)
    requires UpgradersCreate(s) && (forall r :: r in s.committer ==> r <= Revision(s.log)) && id < |s.processes|
    requires s'.processes == s.processes[id := p] && (p.UpgradeProcess? <==> s.processes[id].UpgradeProcess?)
    requires s'.log == s.log || (|s'.log| == |s.log| + 1 && s'.log == s.log + [s'.log[|s.log|]])
    requires s'.committer == s.committer || (|s'.log| > |s.log| && s'.committer == s.committer[Revision(s'.log) := id])
    requires |s'.log| > |s.log| && s'.committer != s.committer && p.UpgradeProcess? ==>
      s'.log[|s.log|].Put? && s'.log[|s.log|].key !in Now(s.log)
    ensures UpgradersCreate(s')
  {
    forall r | r in s'.committer && 2 <= r <= Revision(s'.log) && s'.committer[r] < |s'.processes| &&
               s'.processes[s'.committer[r]].UpgradeProcess?
      ensures s'.log[r - 2].Put? && s'.log[r - 2].key !in At(s'.log, r - 1)
    {
      assert s'.log[..|s.log|] == s.log;
      if r <= Revision(s.log) {
        assert s'.log[..r - 2] == s.log[..r - 2] && s'.log[r - 2] == s.log[r - 2];
        assert r in s.committer && s.committer[r] == s'.committer[r];
      }
    }
  }

  lemma AdvanceKeepsCreates(w: World, s: System, step: Step)
    requires WorldOk(w) && SystemOk(w, s) && UpgradersCreate(s) && forall r :: r in s.committer ==> r <= Revision(s.log)
    ensures UpgradersCreate(Advance(w, false, s, step))
  {
    var s' := Advance(w, false, s, step);
    AdvanceKeeps(w, false, s, step);
    if step.Move? && step.id < |s.processes| {
      var q := s.processes[step.id];
      ProcessKind(w, s.log, q, step.order);
      if |s'.log| > |s.log| && PutsPointer(s'.log[|s.log|]) && q.UpgradeProcess? { UpgraderPutCreates(w, s.log, q, step.order); }
      CreatesKept(s, s', step.id, ProcessStep(w, s.log, q, step.order).1);
    } else if s'.log != s.log {
      OutsideKeepsCreates(s, s', s'.log[|s.log|]);
    }
  }

  lemma OutsideKeepsCreates(s: System, s': System, write: Write)
    requires UpgradersCreate(s) && s' == s.(log := s.log + [write]) && forall r :: r in s.committer ==> r <= Revision(s.log)
    ensures UpgradersCreate(s')
  {
    forall r | r in s'.committer && 2 <= r <= Revision(s'.log) && s'.committer[r] < |s'.processes| &&
               s'.processes[s'.committer[r]].UpgradeProcess?
      ensures s'.log[r - 2].Put? && s'.log[r - 2].key !in At(s'.log, r - 1)
    {
      assert s'.log[..r - 2] == s.log[..r - 2] && s'.log[r - 2] == s.log[r - 2];
    }
  }

  lemma {:induction false} RunKeepsCreates(w: World, s: System, steps: seq<Step>)
    requires WorldOk(w) && SystemOk(w, s) && HistoryOk(Revision(s.log), s) && UpgradersCreate(s)
    ensures UpgradersCreate(Run(w, false, s, steps))
    decreases |steps|
  {
    if steps != [] {
      var init := steps[..|steps| - 1];
      RunKeeps(w, false, s, init);
      RunKeepsHistory(w, s, init);
      RunKeepsCreates(w, s, init);
      AdvanceKeepsCreates(w, Run(w, false, s, init), steps[|steps| - 1]);
    }
  }

  // One entry of the pointer history: who put it, and over what.
  ghost predicate EntryRight(s: System, r: nat)
    requires 2 <= r <= Revision(s.log)
  {
    r in s.committer && s.committer[r] < |s.processes| &&
    match s.processes[s.committer[r]]
    case PruneProcess(_, _) => false
    case PublishProcess(pack, st) =>
      st.Published? && st.commit == r && s.log[r - 2] == Put(Active(V6, pack.target), pack.generation) &&
      Replaces(s.log, Active(V6, pack.target), st.captured, r)
    case UpgradeProcess(_, _) => s.log[r - 2].Put? && s.log[r - 2].key !in At(s.log, r - 1)
  }

  // One report of a publisher: the entry it stands for.
  ghost predicate ReportRight(s: System, base: nat, i: nat)
    requires i < |s.processes| && s.processes[i].PublishProcess? && s.processes[i].publish.Published?
  {
    var r := s.processes[i].publish.commit;
    base < r && 2 <= r <= Revision(s.log) && PutsPointer(s.log[r - 2]) && EntryRight(s, r) && s.committer[r] == i &&
    forall q :: q in s.committer && s.committer[q] == i ==> q == r
  }

  /** No lost update, over any run.  Each v6 pointer put after the start has one committer, never a pruner: a
      publisher that reports exactly this entry as its own, its generation over exactly the state it captured, or an
      upgrader, over an absent pointer.  And each publisher that reports "published" stands for exactly one entry. */
  lemma PublishedOneToOne(w: World, log: Log, processes: seq<Process>, steps: seq<Step>)
    requires WorldOk(w) && BundlesValid(w, Now(log)) && (forall p :: p in processes ==> Starting(p))
    ensures var s := Run(w, false, System(log, processes, map[]), steps);
      (forall r :: Revision(log) < r <= Revision(s.log) && PutsPointer(s.log[r - 2]) ==> EntryRight(s, r)) &&
      (forall i :: 0 <= i < |s.processes| && s.processes[i].PublishProcess? && s.processes[i].publish.Published? ==>
        ReportRight(s, Revision(log), i))
  {
    var init := System(log, processes, map[]);
    assert forall i :: 0 <= i < |processes| ==> processes[i] in processes;
    RunKeeps(w, false, init, steps);
    RunKeepsHistory(w, init, steps);
    RunKeepsCreates(w, init, steps);
    var s := Run(w, false, init, steps);
    forall r | Revision(log) < r <= Revision(s.log) && PutsPointer(s.log[r - 2]) ensures EntryRight(s, r) {
      EntryIsRight(w, s, Revision(log), r);
    }
    forall i | 0 <= i < |s.processes| && s.processes[i].PublishProcess? && s.processes[i].publish.Published?
      ensures ReportRight(s, Revision(log), i)
    {
      EntryIsRight(w, s, Revision(log), s.processes[i].publish.commit);
    }
  }

  lemma EntryIsRight(w: World, s: System, base: nat, r: nat)
    requires SystemOk(w, s) && HistoryOk(base, s) && UpgradersCreate(s) && r in s.committer
    ensures base < r && 2 <= r <= Revision(s.log) && PutsPointer(s.log[r - 2]) && EntryRight(s, r)
  {
    var p := s.processes[s.committer[r]];
    assert p in s.processes && ProcessOk(w, s.log, p);
    if p.PublishProcess? { CommitReplaces(s.log, p.pack, p.publish.captured, r); }
  }
}

/** Without the proviso of NoPointerDangles the guarantee fails: for every identity pack a
    deleting pruner counts as past retention there is a run that strands its pointer. */
module Stranding {
  import opened Wrappers
  import opened Text
  import opened Etcd
  import opened Kinds
  import opened Machines
  import opened Safety

  function Times(id: nat, order: seq<Key>, n: nat): seq<Step> {
    if n == 0 then [] else Times(id, order, n - 1) + [Move(id, order)]
  }

  lemma {:induction false} RunConcat(w: World, s: System, a: seq<Step>, b: seq<Step>)
    ensures Run(w, false, s, a + b) == Run(w, false, Run(w, false, s, a), b)
    decreases |b|
  {
    if b == [] {
      assert a + b == a;
    } else {
      assert (a + b)[..|a + b| - 1] == a + b[..|b| - 1];
      RunConcat(w, s, a, b[..|b| - 1]);
    }
  }

  lemma RunTimes(w: World, s: System, id: nat, order: seq<Key>, n: nat)
    ensures Run(w, false, s, Times(id, order, n + 1)) == Advance(w, false, Run(w, false, s, Times(id, order, n)), Move(id, order))
  {
    assert Times(id, order, n + 1)[..n] == Times(id, order, n) by { TimesLength(id, order, n); }
    TimesLength(id, order, n);
  }

  lemma TimesLength(id: nat, order: seq<Key>, n: nat)
    ensures |Times(id, order, n)| == n
  {
  }

  // The scenario: one target, another generation published first, then the pack staged.
  datatype Scene = Scene(target: string, first: Pack, pack: Pack, options: PruneOptions)

  ghost predicate SceneOk(w: World, c: Scene) {
    WorldOk(w) && SafeName(c.target) && c.first.target == c.pack.target == c.target &&
    c.first.generation != c.pack.generation && Valid(w, c.first.generation, c.first.bundle) &&
    Valid(w, c.pack.generation, c.pack.bundle) && PastRetention(w, c.options, c.pack.bundle)
  }

  function FirstLog(c: Scene): Log {
    [Put(PackKey(c.first), c.first.bundle), Put(Active(V6, c.target), c.first.generation)]
  }
  function StagedLog(c: Scene): Log { FirstLog(c) + [Put(PackKey(c.pack), c.pack.bundle)] }
  function PrunedLog(c: Scene): Log { StagedLog(c) + [Delete(PackKey(c.pack))] }

  function FirstView(c: Scene): View {
    map[PackKey(c.first) := Cell(c.first.bundle, 2, 2), Active(V6, c.target) := Cell(c.first.generation, 3, 3)]
  }

  lemma Views(w: World, c: Scene)
    requires SceneOk(w, c)
    ensures Now([Put(PackKey(c.first), c.first.bundle)]) == map[PackKey(c.first) := Cell(c.first.bundle, 2, 2)]
    ensures Now(FirstLog(c)) == FirstView(c)
    ensures Now(StagedLog(c)) == FirstView(c)[PackKey(c.pack) := Cell(c.pack.bundle, 4, 4)]
    ensures Now(PrunedLog(c)) == FirstView(c)
  {
    NowAppend([], Put(PackKey(c.first), c.first.bundle));
    assert [] + [Put(PackKey(c.first), c.first.bundle)] == [Put(PackKey(c.first), c.first.bundle)];
    NowAppend([Put(PackKey(c.first), c.first.bundle)], Put(Active(V6, c.target), c.first.generation));
    NowAppend(FirstLog(c), Put(PackKey(c.pack), c.pack.bundle));
    NowAppend(StagedLog(c), Delete(PackKey(c.pack)));
  }

  function Cast(c: Scene, first: PublishState, second: PublishState, prune: PruneState): seq<Process> {
    [PublishProcess(c.first, first), PublishProcess(c.pack, second), PruneProcess(c.options, prune)]
  }

  lemma FirstPublishes(w: World, c: Scene)
    requires SceneOk(w, c)
    ensures Run(w, false, System([], Cast(c, PublishStart, PublishStart, PruneStart), map[]), Times(0, [], 4))
      == System(FirstLog(c), Cast(c, Published(ABSENT, 3), PublishStart, PruneStart), map[3 := 0])
  {
    var s := System([], Cast(c, PublishStart, PublishStart, PruneStart), map[]);
    Views(w, c);
    RunTimes(w, s, 0, [], 0);
    assert Run(w, false, s, Times(0, [], 1)) == s.(processes := Cast(c, PublishStage, PublishStart, PruneStart));
    RunTimes(w, s, 0, [], 1);
    var staged := [Put(PackKey(c.first), c.first.bundle)];
    assert Run(w, false, s, Times(0, [], 2)) == System(staged, Cast(c, PublishCapture, PublishStart, PruneStart), map[]);
    RunTimes(w, s, 0, [], 2);
    assert Run(w, false, s, Times(0, [], 3)) == System(staged, Cast(c, PublishSwap(ABSENT), PublishStart, PruneStart), map[]);
    RunTimes(w, s, 0, [], 3);
  }

  lemma SecondStages(w: World, c: Scene)
    requires SceneOk(w, c)
    ensures Run(w, false, System(FirstLog(c), Cast(c, Published(ABSENT, 3), PublishStart, PruneStart), map[3 := 0]), Times(1, [], 2))
      == System(StagedLog(c), Cast(c, Published(ABSENT, 3), PublishCapture, PruneStart), map[3 := 0])
  {
    var s := System(FirstLog(c), Cast(c, Published(ABSENT, 3), PublishStart, PruneStart), map[3 := 0]);
    Views(w, c);
    RunTimes(w, s, 1, [], 0);
    assert Run(w, false, s, Times(1, [], 1)) == s.(processes := Cast(c, Published(ABSENT, 3), PublishStage, PruneStart));
    RunTimes(w, s, 1, [], 1);
  }

  function ListedKeys(c: Scene): seq<Key> { [PackKey(c.first), PackKey(c.pack)] }
  function Seen(c: Scene, mod: nat): map<string, Pointer> { map[c.target := Pointer(c.first.generation, mod)] }
  function RecordFor(p: Pack): Record { Record(p.target, p.generation, p.bundle) }

  // Both bundles are stored, and the first is active.
  ghost predicate BothStored(c: Scene, log: Log, mod: nat) {
    var view := Now(log);
    view.Keys == {PackKey(c.first), Active(V6, c.target), PackKey(c.pack)} &&
    view[PackKey(c.first)].value == c.first.bundle && view[PackKey(c.pack)].value == c.pack.bundle &&
    view[Active(V6, c.target)].value == c.first.generation && view[Active(V6, c.target)].mod == mod
  }

  lemma StagedKeys(w: World, c: Scene, log: Log, mod: nat)
    requires SceneOk(w, c) && BothStored(c, log, mod)
    ensures PointerTargets(Now(log), V6) == {c.target}
    ensures BundleKeys(Now(log)) == {PackKey(c.first), PackKey(c.pack)}
  {
    var view := Now(log);
    assert Active(V6, c.target) in view && PackKey(c.first) in view && PackKey(c.pack) in view;
  }

  lemma SoleTarget(view: View, target: string)
    requires PointerTargets(view, V6) == {target} && Active(V6, target) in view
    requires SafeName(target) && SafeName(view[Active(V6, target)].value)
    ensures PointersSafe(view, V6)
    ensures ActiveOf(view, V6) == map[target := Pointer(view[Active(V6, target)].value, view[Active(V6, target)].mod)]
  {
    SafeNameIsTrimmed(view[Active(V6, target)].value);
    forall t | t in PointerTargets(view, V6) ensures SafePointer(view, Active(V6, t)) {
      assert t == target;
    }
    var active := ActiveOf(view, V6);
    assert active.Keys == {target};
    assert active[target] == PointerOf(view[Active(V6, target)]);
  }

  lemma PruneStarts(w: World, c: Scene, log: Log, mod: nat, order: seq<Key>)
    requires SceneOk(w, c) && BothStored(c, log, mod)
    ensures PruneStep(w, log, c.options, PruneStart, order) == (log, PruneList(Seen(c, mod)))
  {
    StagedKeys(w, c, log, mod);
    SoleTarget(Now(log), c.target);
  }

  lemma PruneLists(w: World, c: Scene, log: Log, mod: nat)
    requires SceneOk(w, c) && BothStored(c, log, mod)
    ensures PruneStep(w, log, c.options, PruneList(Seen(c, mod)), ListedKeys(c)) == (log, PruneRead(Seen(c, mod), ListedKeys(c), []))
  {
    StagedKeys(w, c, log, mod);
    assert Enumerates(ListedKeys(c), {PackKey(c.first), PackKey(c.pack)});
  }

  lemma PruneReads(w: World, c: Scene, log: Log, mod: nat, order: seq<Key>)
    requires SceneOk(w, c) && BothStored(c, log, mod)
    ensures PruneStep(w, log, c.options, PruneRead(Seen(c, mod), ListedKeys(c), []), order)
      == (log, PruneRead(Seen(c, mod), [PackKey(c.pack)], [RecordFor(c.first)]))
    ensures PruneStep(w, log, c.options, PruneRead(Seen(c, mod), [PackKey(c.pack)], [RecordFor(c.first)]), order)
      == (log, PruneRead(Seen(c, mod), [], [RecordFor(c.first), RecordFor(c.pack)]))
  {
    assert ListedKeys(c)[1..] == [PackKey(c.pack)] && [PackKey(c.pack)][1..] == [];
    assert [] + [RecordFor(c.first)] == [RecordFor(c.first)];
    assert [RecordFor(c.first)] + [RecordFor(c.pack)] == [RecordFor(c.first), RecordFor(c.pack)];
  }

  function Listed(c: Scene, mod: nat): PruneState {
    PruneInspect(Seen(c, mod), [RecordFor(c.first), RecordFor(c.pack)], PruneResult(2, 0, 0, []))
  }

  function Skipped(c: Scene, mod: nat, kind: string): PruneState {
    PruneInspect(Seen(c, mod), [RecordFor(c.pack)],
      PruneResult(2, 0, 0, [Item(c.target, c.first.generation, kind, None, false, "active")]))
  }

  lemma PruneDeletes(w: World, c: Scene, log: Log, mod: nat, order: seq<Key>)
    requires SceneOk(w, c) && BothStored(c, log, mod)
    ensures var kind := w.decode(c.first.bundle).value.kind;
      PruneStep(w, log, c.options, Listed(c, mod), order) == (log, Skipped(c, mod, kind)) &&
      PruneStep(w, log, c.options, Skipped(c, mod, kind), order).0 == log + [Delete(PackKey(c.pack))]
  {
    assert [RecordFor(c.first), RecordFor(c.pack)][1..] == [RecordFor(c.pack)];
    var item := Item(c.target, c.first.generation, w.decode(c.first.bundle).value.kind, None, false, "active");
    assert [] + [item] == [item];
  }

  // Both publishers stay where they are while the pruner runs.
  function During(s: System, c: Scene, log: Log, prune: PruneState): System {
    System(log, Cast(c, FirstState(s), SecondState(s), prune), s.committer)
  }

  function FirstState(s: System): PublishState {
    if |s.processes| == 3 && s.processes[0].PublishProcess? then s.processes[0].publish else PublishStart
  }

  function SecondState(s: System): PublishState {
    if |s.processes| == 3 && s.processes[1].PublishProcess? then s.processes[1].publish else PublishStart
  }

  lemma PruneMove(w: World, s: System, c: Scene, log: Log, prune: PruneState)
    ensures var (log', prune') := PruneStep(w, log, c.options, prune, ListedKeys(c));
      (|log'| > |log| ==> !PutsPointer(log'[|log|])) &&
      Advance(w, false, During(s, c, log, prune), Move(2, ListedKeys(c))) == During(s, c, log', prune')
  {
    var (log', prune') := PruneStep(w, log, c.options, prune, ListedKeys(c));
    assert Cast(c, FirstState(s), SecondState(s), prune)[2 := PruneProcess(c.options, prune')]
      == Cast(c, FirstState(s), SecondState(s), prune');
  }

  // One more pruner step after n of them.
  lemma PruneContinue(w: World, s: System, c: Scene, n: nat, log: Log, prune: PruneState)
    requires Run(w, false, s, Times(2, ListedKeys(c), n)) == During(s, c, log, prune)
    ensures var (log', prune') := PruneStep(w, log, c.options, prune, ListedKeys(c));
      Run(w, false, s, Times(2, ListedKeys(c), n + 1)) == During(s, c, log', prune')
  {
    RunTimes(w, s, 2, ListedKeys(c), n);
    PruneMove(w, s, c, log, prune);
  }

  lemma PrunerReadsAll(w: World, s: System, c: Scene, mod: nat)
    requires SceneOk(w, c) && BothStored(c, s.log, mod) && s == During(s, c, s.log, PruneStart)
    ensures Run(w, false, s, Times(2, ListedKeys(c), 5)) == During(s, c, s.log, Listed(c, mod))
  {
    var log, order := s.log, ListedKeys(c);
    PruneStarts(w, c, log, mod, order);
    PruneLists(w, c, log, mod);
    PruneReads(w, c, log, mod, order);
    PruneContinue(w, s, c, 0, log, PruneStart);
    PruneContinue(w, s, c, 1, log, PruneList(Seen(c, mod)));
    PruneContinue(w, s, c, 2, log, PruneRead(Seen(c, mod), order, []));
    PruneContinue(w, s, c, 3, log, PruneRead(Seen(c, mod), [PackKey(c.pack)], [RecordFor(c.first)]));
    PruneContinue(w, s, c, 4, log, PruneRead(Seen(c, mod), [], [RecordFor(c.first), RecordFor(c.pack)]));
  }

  // The pruner deletes the bundle that is not active, whoever else waits meanwhile.
  lemma PrunerRuns(w: World, s: System, c: Scene, mod: nat) returns (prune: PruneState)
    requires SceneOk(w, c) && BothStored(c, s.log, mod) && s == During(s, c, s.log, PruneStart)
    ensures Run(w, false, s, Times(2, ListedKeys(c), 7)) == During(s, c, s.log + [Delete(PackKey(c.pack))], prune)
  {
    var log, order := s.log, ListedKeys(c);
    var kind := w.decode(c.first.bundle).value.kind;
    PrunerReadsAll(w, s, c, mod);
    PruneDeletes(w, c, log, mod, order);
    PruneContinue(w, s, c, 5, log, Listed(c, mod));
    PruneContinue(w, s, c, 6, log, Skipped(c, mod, kind));
    prune := PruneStep(w, log, c.options, Skipped(c, mod, kind), order).1;
  }

  lemma StagedStored(w: World, c: Scene)
    requires SceneOk(w, c)
    ensures BothStored(c, StagedLog(c), 3)
  {
    Views(w, c);
  }

  lemma SecondSwaps(w: World, c: Scene)
    requires SceneOk(w, c)
    ensures var log := PrunedLog(c) + [Put(Active(V6, c.target), c.pack.generation)];
      var captured := Condition(c.first.generation, 3, true);
      PublishStep(w, PrunedLog(c), c.pack, PublishCapture) == (PrunedLog(c), PublishSwap(captured)) &&
      PublishStep(w, PrunedLog(c), c.pack, PublishSwap(captured)).0 == log &&
      Active(V6, c.target) in Now(log) && !Intact(w, Now(log), c.target)
  {
    Views(w, c);
    NowAppend(PrunedLog(c), Put(Active(V6, c.target), c.pack.generation));
  }

  function Waiting(c: Scene, log: Log, prune: PruneState): System {
    System(log, Cast(c, Published(ABSENT, 3), PublishCapture, prune), map[3 := 0])
  }

  lemma SecondCommits(w: World, c: Scene, prune: PruneState)
    requires SceneOk(w, c)
    ensures Run(w, false, Waiting(c, PrunedLog(c), prune), Times(1, [], 2)).log
      == PrunedLog(c) + [Put(Active(V6, c.target), c.pack.generation)]
  {
    var s := Waiting(c, PrunedLog(c), prune);
    SecondSwaps(w, c);
    RunTimes(w, s, 1, [], 0);
    assert Run(w, false, s, Times(1, [], 1)).processes[1]
      == PublishProcess(c.pack, PublishSwap(Condition(c.first.generation, 3, true)));
    RunTimes(w, s, 1, [], 1);
  }

  function StrandingSteps(c: Scene): seq<Step> {
    Times(0, [], 4) + Times(1, [], 2) + Times(2, ListedKeys(c), 7) + Times(1, [], 2)
  }

  /** From the empty store: another generation is published, the pack is staged, the pruner
      deletes it under the unchanged pointer, and the publisher's swap still succeeds. */
  lemma PastRetentionStrands(w: World, c: Scene)
    requires SceneOk(w, c)
    ensures var s := Run(w, false, System([], Cast(c, PublishStart, PublishStart, PruneStart), map[]), StrandingSteps(c));
      !PointersIntact(w, Now(s.log))
  {
    var s := System([], Cast(c, PublishStart, PublishStart, PruneStart), map[]);
    var a, b, p := Times(0, [], 4), Times(1, [], 2), Times(2, ListedKeys(c), 7);
    RunConcat(w, s, a + b + p, b);
    RunConcat(w, s, a + b, p);
    RunConcat(w, s, a, b);
    FirstPublishes(w, c);
    SecondStages(w, c);
    StagedStored(w, c);
    var prune := PrunerRuns(w, Waiting(c, StagedLog(c), PruneStart), c, 3);
    SecondCommits(w, c, prune);
    SecondSwaps(w, c);
  }

  // ---- exactly when a pointer can dangle ----

  // Only a pruner deletes a v6 bundle, and only under an unchanged pointer to another generation.
  lemma StrikeIs(w: World, s: System, step: Step, p: Process)
    requires SystemOk(w, s) && p in s.processes && p.PublishProcess?
    requires var log := Advance(w, false, s, step).log;
      |log| > |s.log| && log[|s.log|] == Delete(PackKey(p.pack))
    ensures step.Move? && step.id < |s.processes| && s.processes[step.id].PruneProcess?
    ensures var key := Active(V6, p.pack.target);
      key in Now(s.log) && SafeName(Now(s.log)[key].value) && Now(s.log)[key].value != p.pack.generation
    ensures Advance(w, false, s, step).log == s.log + [Delete(PackKey(p.pack))]
  {
    assert step.Move? && s.processes[step.id] in s.processes;
    assert ProcessOk(w, s.log, s.processes[step.id]);
  }

  lemma SwapStrands(w: World, s: System, i: nat)
    requires i < |s.processes| && s.processes[i].PublishProcess? && s.processes[i].publish.PublishSwap?
    requires Holds(Now(s.log), Active(V6, s.processes[i].pack.target), s.processes[i].publish.captured)
    requires PackKey(s.processes[i].pack) !in Now(s.log)
    ensures !PointersIntact(w, Now(Advance(w, false, s, Move(i, [])).log))
  {
    var pack := s.processes[i].pack;
    NowAppend(s.log, Put(Active(V6, pack.target), pack.generation));
    var view := Now(Advance(w, false, s, Move(i, [])).log);
    assert Active(V6, pack.target) in view && !Intact(w, view, pack.target);
  }

  lemma CaptureLeads(w: World, s: System, i: nat)
    requires i < |s.processes| && s.processes[i].PublishProcess? && s.processes[i].publish.PublishCapture?
    requires var key := Active(V6, s.processes[i].pack.target);
      key in Now(s.log) && SafeName(Now(s.log)[key].value) && Now(s.log)[key].value != s.processes[i].pack.generation
    ensures var s' := Advance(w, false, s, Move(i, []));
      s'.log == s.log && |s'.processes| == |s.processes| && s'.processes[i].PublishProcess? &&
      s'.processes[i].pack == s.processes[i].pack && s'.processes[i].publish.PublishSwap? &&
      Holds(Now(s'.log), Active(V6, s.processes[i].pack.target), s'.processes[i].publish.captured)
  {
  }

  /** After such a deletion the publisher's own next one or two steps strand the pointer. */
  lemma StrikeStrands(w: World, s: System, step: Step) returns (more: seq<Step>)
    requires SystemOk(w, s) && Strikes(w, s, step)
    ensures !PointersIntact(w, Now(Run(w, false, Advance(w, false, s, step), more).log))
  {
    var log := Advance(w, false, s, step).log;
    var p :| p in s.processes && p.PublishProcess? && Fresh(s.log, p.pack, p.publish) && log[|s.log|] == Delete(PackKey(p.pack));
    StrikeIs(w, s, step, p);
    var i :| 0 <= i < |s.processes| && s.processes[i] == p;
    var s' := Advance(w, false, s, step);
    NowAppend(s.log, Delete(PackKey(p.pack)));
    assert s'.processes[i] == p;
    if p.publish.PublishSwap? {
      SwapStrands(w, s', i);
      more := [Move(i, [])];
      RunOne(w, s', more[0]);
    } else {
      CaptureLeads(w, s', i);
      SwapStrands(w, Advance(w, false, s', Move(i, [])), i);
      more := [Move(i, []), Move(i, [])];
      RunTwo(w, s', more[0], more[1]);
    }
  }

  lemma RunOne(w: World, s: System, a: Step)
    ensures Run(w, false, s, [a]) == Advance(w, false, s, a)
  {
    assert [a][..0] == [];
  }

  lemma RunTwo(w: World, s: System, a: Step, b: Step)
    ensures Run(w, false, s, [a, b]) == Advance(w, false, Advance(w, false, s, a), b)
  {
    assert [a, b][..1] == [a];
    RunOne(w, s, a);
  }

  // Some step of some run deletes the bundle of a publisher whose swap would still succeed.
  ghost predicate CanStrike(w: World, s: System) {
    exists steps, last :: Strikes(w, Run(w, false, s, steps), last)
  }

  ghost predicate CanDangle(w: World, s: System) {
    exists steps :: !PointersIntact(w, Now(Run(w, false, s, steps).log))
  }

  lemma StruckDangles(w: World, s: System)
    requires WorldOk(w) && SafeSystem(w, s) && CanStrike(w, s)
    ensures CanDangle(w, s)
  {
    var steps, last :| Strikes(w, Run(w, false, s, steps), last);
    RunKeeps(w, false, s, steps);
    var more := StrikeStrands(w, Run(w, false, s, steps), last);
    RunThrough(w, s, steps, last, more);
  }

  lemma RunThrough(w: World, s: System, steps: seq<Step>, last: Step, more: seq<Step>)
    ensures Run(w, false, s, steps + [last] + more) == Run(w, false, Advance(w, false, Run(w, false, s, steps), last), more)
  {
    RunConcat(w, s, steps + [last], more);
    RunConcat(w, s, steps, [last]);
    RunOne(w, Run(w, false, s, steps), last);
  }

  lemma DanglesStruck(w: World, s: System)
    requires WorldOk(w) && SafeSystem(w, s) && CanDangle(w, s)
    ensures CanStrike(w, s)
  {
    var steps :| !PointersIntact(w, Now(Run(w, false, s, steps).log));
    if Spared(w, s, steps) {
      RunSafe(w, s, steps);
      AtNow(Run(w, false, s, steps).log);
    }
    var k :| 0 <= k < |steps| && Strikes(w, Run(w, false, s, steps[..k]), steps[k]);
  }

  /** The proviso is exact: from a clean store, given processes can reach a dangling pointer if and only if they can
      reach a deletion of the bundle of a publisher whose swap would still succeed. */
  lemma DanglesIffStruck(w: World, log: Log, processes: seq<Process>)
    requires WorldOk(w) && CleanStore(w, log) && forall p :: p in processes ==> Starting(p)
    ensures CanDangle(w, System(log, processes, map[])) <==> CanStrike(w, System(log, processes, map[]))
  {
    var s := System(log, processes, map[]);
    CleanStart(w, log, processes);
    if CanDangle(w, s) { DanglesStruck(w, s); }
    if CanStrike(w, s) { StruckDangles(w, s); }
  }

  // ---- what the proviso leaves to a pruner ----

  predicate NoHolder(processes: seq<Process>) {
    forall p :: p in processes && p.PublishProcess? ==> !Holding(p.publish)
  }

  ghost predicate OnlyPruners(s: System, steps: seq<Step>) {
    forall k :: 0 <= k < |steps| ==> steps[k].Move? && steps[k].id < |s.processes| && s.processes[steps[k].id].PruneProcess?
  }

  lemma PrunerMoves(w: World, s: System, step: Step)
    requires NoHolder(s.processes) && step.Move? && step.id < |s.processes| && s.processes[step.id].PruneProcess?
    ensures !Strikes(w, s, step) && NoHolder(Advance(w, false, s, step).processes)
    ensures |Advance(w, false, s, step).processes| == |s.processes|
    ensures forall i :: 0 <= i < |s.processes| ==> (Advance(w, false, s, step).processes[i].PruneProcess? <==> s.processes[i].PruneProcess?)
  {
  }

  /** While no publisher is between its stage check and its swap, pruners may delete what they like: nothing that a
      publisher of the run has put is exempt. */
  lemma {:induction false} PrunersAloneAreSpared(w: World, s: System, steps: seq<Step>)
    requires NoHolder(s.processes) && OnlyPruners(s, steps)
    ensures Spared(w, s, steps) && NoHolder(Run(w, false, s, steps).processes)
    ensures |Run(w, false, s, steps).processes| == |s.processes|
    ensures forall i :: 0 <= i < |s.processes| ==> (Run(w, false, s, steps).processes[i].PruneProcess? <==> s.processes[i].PruneProcess?)
    decreases |steps|
  {
    if steps != [] {
      var init, last := steps[..|steps| - 1], steps[|steps| - 1];
      assert OnlyPruners(s, init);
      PrunersAloneAreSpared(w, s, init);
      var before := Run(w, false, s, init);
      PrunerMoves(w, before, last);
      SparedNext(w, s, steps);
    }
  }

  // ---- the ordinary life of a bundle ----

  // The second pack is published, then the first over it.
  function LifeLog(c: Scene): Log {
    [Put(PackKey(c.pack), c.pack.bundle), Put(Active(V6, c.target), c.pack.generation),
     Put(PackKey(c.first), c.first.bundle), Put(Active(V6, c.target), c.first.generation)]
  }

  lemma LifeViews(w: World, c: Scene)
    requires SceneOk(w, c)
    ensures Now(LifeLog(c)[..0]) == map[] && Now(LifeLog(c)[..1]) == map[PackKey(c.pack) := Cell(c.pack.bundle, 2, 2)]
    ensures Now(LifeLog(c)[..2]) ==
      map[PackKey(c.pack) := Cell(c.pack.bundle, 2, 2), Active(V6, c.target) := Cell(c.pack.generation, 3, 3)]
    ensures Now(LifeLog(c)[..3]) == Now(LifeLog(c)[..2])[PackKey(c.first) := Cell(c.first.bundle, 4, 4)]
    ensures Now(LifeLog(c)) == Now(LifeLog(c)[..3])[Active(V6, c.target) := Cell(c.first.generation, 3, 5)]
  {
    var log := LifeLog(c);
    NowNext(log, 0);
    NowNext(log, 1);
    NowNext(log, 2);
    NowNext(log, 3);
    assert log[..4] == log;
  }

  lemma NowNext(log: Log, n: nat)
    requires n < |log|
    ensures Now(log[..n + 1]) == Apply(Now(log[..n]), log[n], n + 2)
  {
    NowAppend(log[..n], log[n]);
    assert log[..n + 1] == log[..n] + [log[n]];
  }

  function LifeStart(c: Scene): System { System([], Cast(c, PublishStart, PublishStart, PruneStart), map[]) }

  // The states of the scene's three processes.
  function Playing(c: Scene, log: Log, first: PublishState, second: PublishState, committer: map<nat, nat>): System {
    System(log, Cast(c, first, second, PruneStart), committer)
  }

  function Recorded(committer: map<nat, nat>, log: Log, log': Log, id: nat): map<nat, nat> {
    if |log'| > |log| && PutsPointer(log'[|log|]) then committer[Revision(log') := id] else committer
  }

  lemma FirstMove(w: World, s: System, c: Scene, n: nat, log: Log, first: PublishState, second: PublishState, committer: map<nat, nat>)
    requires Run(w, false, s, Times(0, [], n)) == Playing(c, log, first, second, committer)
    ensures var (log', first') := PublishStep(w, log, c.first, first);
      Run(w, false, s, Times(0, [], n + 1)) == Playing(c, log', first', second, Recorded(committer, log, log', 0))
  {
    RunTimes(w, s, 0, [], n);
    var first' := PublishStep(w, log, c.first, first).1;
    assert Cast(c, first, second, PruneStart)[0 := PublishProcess(c.first, first')] == Cast(c, first', second, PruneStart);
  }

  lemma SecondMove(w: World, s: System, c: Scene, n: nat, log: Log, first: PublishState, second: PublishState, committer: map<nat, nat>)
    requires Run(w, false, s, Times(1, [], n)) == Playing(c, log, first, second, committer)
    ensures var (log', second') := PublishStep(w, log, c.pack, second);
      Run(w, false, s, Times(1, [], n + 1)) == Playing(c, log', first, second', Recorded(committer, log, log', 1))
  {
    RunTimes(w, s, 1, [], n);
    var second' := PublishStep(w, log, c.pack, second).1;
    assert Cast(c, first, second, PruneStart)[1 := PublishProcess(c.pack, second')] == Cast(c, first, second', PruneStart);
  }

  lemma LifePrefixes(c: Scene)
    ensures LifeLog(c)[..0] == [] && LifeLog(c)[..1] == [LifeLog(c)[0]] && LifeLog(c)[..2] == LifeLog(c)[..1] + [LifeLog(c)[1]]
    ensures LifeLog(c)[..3] == LifeLog(c)[..2] + [LifeLog(c)[2]] && LifeLog(c) == LifeLog(c)[..3] + [LifeLog(c)[3]]
  {
  }

  lemma SecondSteps(w: World, c: Scene)
    requires SceneOk(w, c)
    ensures PublishStep(w, [], c.pack, PublishStart) == ([], PublishStage)
    ensures PublishStep(w, [], c.pack, PublishStage) == (LifeLog(c)[..1], PublishCapture)
    ensures PublishStep(w, LifeLog(c)[..1], c.pack, PublishCapture) == (LifeLog(c)[..1], PublishSwap(ABSENT))
    ensures PublishStep(w, LifeLog(c)[..1], c.pack, PublishSwap(ABSENT)) == (LifeLog(c)[..2], Published(ABSENT, 3))
  {
    LifeViews(w, c);
    LifePrefixes(c);
    assert [] + [LifeLog(c)[0]] == LifeLog(c)[..1];
  }

  lemma SecondLives(w: World, c: Scene)
    requires SceneOk(w, c)
    ensures Run(w, false, LifeStart(c), Times(1, [], 4)) == Playing(c, LifeLog(c)[..2], PublishStart, Published(ABSENT, 3), map[3 := 1])
  {
    var s, log := LifeStart(c), LifeLog(c);
    SecondSteps(w, c);
    LifePrefixes(c);
    SecondMove(w, s, c, 0, [], PublishStart, PublishStart, map[]);
    SecondMove(w, s, c, 1, [], PublishStart, PublishStage, map[]);
    SecondMove(w, s, c, 2, log[..1], PublishStart, PublishCapture, map[]);
    SecondMove(w, s, c, 3, log[..1], PublishStart, PublishSwap(ABSENT), map[]);
  }

  lemma FirstSteps(w: World, c: Scene)
    requires SceneOk(w, c)
    ensures PublishStep(w, LifeLog(c)[..2], c.first, PublishStart) == (LifeLog(c)[..2], PublishStage)
    ensures PublishStep(w, LifeLog(c)[..2], c.first, PublishStage) == (LifeLog(c)[..3], PublishCapture)
    ensures var captured := Condition(c.pack.generation, 3, true);
      PublishStep(w, LifeLog(c)[..3], c.first, PublishCapture) == (LifeLog(c)[..3], PublishSwap(captured)) &&
      PublishStep(w, LifeLog(c)[..3], c.first, PublishSwap(captured)) == (LifeLog(c), Published(captured, 5))
  {
    LifeViews(w, c);
    LifePrefixes(c);
  }

  lemma FirstPrepares(w: World, c: Scene, s: System)
    requires SceneOk(w, c) && s == Playing(c, LifeLog(c)[..2], PublishStart, Published(ABSENT, 3), map[3 := 1])
    ensures Run(w, false, s, Times(0, [], 3)) ==
      Playing(c, LifeLog(c)[..3], PublishSwap(Condition(c.pack.generation, 3, true)), Published(ABSENT, 3), map[3 := 1])
  {
    var log, second := LifeLog(c), Published(ABSENT, 3);
    FirstSteps(w, c);
    LifePrefixes(c);
    FirstMove(w, s, c, 0, log[..2], PublishStart, second, map[3 := 1]);
    FirstMove(w, s, c, 1, log[..2], PublishStage, second, map[3 := 1]);
    FirstMove(w, s, c, 2, log[..3], PublishCapture, second, map[3 := 1]);
  }

  lemma FirstFollows(w: World, c: Scene)
    requires SceneOk(w, c)
    ensures Run(w, false, Playing(c, LifeLog(c)[..2], PublishStart, Published(ABSENT, 3), map[3 := 1]), Times(0, [], 4))
      == Playing(c, LifeLog(c), Published(Condition(c.pack.generation, 3, true), 5), Published(ABSENT, 3), map[3 := 1, 5 := 0])
  {
    var log, second, captured := LifeLog(c), Published(ABSENT, 3), Condition(c.pack.generation, 3, true);
    var s := Playing(c, log[..2], PublishStart, second, map[3 := 1]);
    FirstPrepares(w, c, s);
    FirstSteps(w, c);
    LifePrefixes(c);
    FirstMove(w, s, c, 3, log[..3], PublishSwap(captured), second, map[3 := 1]);
  }

  function LifeSteps(c: Scene): seq<Step> {
    Times(1, [], 4) + Times(0, [], 4) + Times(2, ListedKeys(c), 7)
  }

  lemma QuietConcat(w: World, s: System, a: seq<Step>, b: seq<Step>)
    requires QuietRun(w, s, a) && QuietRun(w, Run(w, false, s, a), b)
    ensures QuietRun(w, s, a + b)
  {
    forall k | 0 <= k < |a + b| ensures Quiet(w, Run(w, false, s, (a + b)[..k]).processes) {
      QuietAt(w, s, a, b, k);
    }
  }

  lemma QuietAt(w: World, s: System, a: seq<Step>, b: seq<Step>, k: nat)
    requires QuietRun(w, s, a) && QuietRun(w, Run(w, false, s, a), b) && k < |a + b|
    ensures Quiet(w, Run(w, false, s, (a + b)[..k]).processes)
  {
    if k < |a| {
      assert (a + b)[..k] == a[..k];
    } else {
      assert (a + b)[..k] == a + b[..k - |a|];
      RunConcat(w, s, a, b[..k - |a|]);
    }
  }

  // The scene with a pruner that has not begun.
  predicate PrunerIdle(s: System) {
    |s.processes| == 3 && s.processes[0].PublishProcess? && s.processes[1].PublishProcess? &&
    s.processes[2].PruneProcess? && s.processes[2].prune == PruneStart
  }

  lemma {:induction false} IdlePrunerStays(w: World, s: System, steps: seq<Step>)
    requires PrunerIdle(s) && forall k :: 0 <= k < |steps| ==> steps[k].Move? && steps[k].id < 2
    ensures PrunerIdle(Run(w, false, s, steps))
    decreases |steps|
  {
    if steps != [] { IdlePrunerStays(w, s, steps[..|steps| - 1]); }
  }

  lemma IdlePrunerIsQuiet(w: World, s: System, steps: seq<Step>)
    requires PrunerIdle(s) && forall k :: 0 <= k < |steps| ==> steps[k].Move? && steps[k].id < 2
    ensures QuietRun(w, s, steps)
  {
    forall k | 0 <= k < |steps| ensures Quiet(w, Run(w, false, s, steps[..k]).processes) {
      IdlePrunerStays(w, s, steps[..k]);
    }
  }

  lemma PrunersAloneAreQuiet(w: World, s: System, steps: seq<Step>)
    requires NoHolder(s.processes) && OnlyPruners(s, steps)
    ensures QuietRun(w, s, steps)
  {
    forall k | 0 <= k < |steps| ensures Quiet(w, Run(w, false, s, steps[..k]).processes) {
      assert OnlyPruners(s, steps[..k]);
      PrunersAloneAreSpared(w, s, steps[..k]);
    }
  }

  lemma {:induction false} TimesMoves(id: nat, order: seq<Key>, n: nat)
    ensures |Times(id, order, n)| == n && forall k :: 0 <= k < n ==> Times(id, order, n)[k] == Move(id, order)
  {
    if n > 0 { TimesMoves(id, order, n - 1); }
  }

  lemma LifeEnds(w: World, c: Scene) returns (prune: PruneState)
    requires SceneOk(w, c)
    ensures Run(w, false, LifeStart(c), LifeSteps(c)) ==
      System(LifeLog(c) + [Delete(PackKey(c.pack))],
             Cast(c, Published(Condition(c.pack.generation, 3, true), 5), Published(ABSENT, 3), prune), map[3 := 1, 5 := 0])
    ensures Run(w, false, LifeStart(c), Times(1, [], 4) + Times(0, [], 4)) ==
      Playing(c, LifeLog(c), Published(Condition(c.pack.generation, 3, true), 5), Published(ABSENT, 3), map[3 := 1, 5 := 0])
  {
    var start, a, b, p := LifeStart(c), Times(1, [], 4), Times(0, [], 4), Times(2, ListedKeys(c), 7);
    SecondLives(w, c);
    FirstFollows(w, c);
    RunConcat(w, start, a, b);
    RunConcat(w, start, a + b, p);
    LifeStored(w, c);
    prune := PrunerRuns(w, Run(w, false, start, a + b), c, 5);
  }

  lemma LifeStored(w: World, c: Scene)
    requires SceneOk(w, c)
    ensures BothStored(c, LifeLog(c), 5)
  {
    LifeViews(w, c);
  }

  lemma LifeIsQuiet(w: World, c: Scene)
    requires SceneOk(w, c)
    ensures QuietRun(w, LifeStart(c), LifeSteps(c))
  {
    var start, ab, p := LifeStart(c), Times(1, [], 4) + Times(0, [], 4), Times(2, ListedKeys(c), 7);
    TimesMoves(1, [], 4);
    TimesMoves(0, [], 4);
    TimesMoves(2, ListedKeys(c), 7);
    var _ := LifeEnds(w, c);
    IdlePrunerIsQuiet(w, start, ab);
    PrunersAloneAreQuiet(w, Run(w, false, start, ab), p);
    QuietConcat(w, start, ab, p);
  }

  lemma LifeNoCollision(w: World, c: Scene)
    requires SceneOk(w, c)
    ensures NoCollision(w, LifeLog(c) + [Delete(PackKey(c.pack))])
  {
  }

  /** The ordinary life of a bundle lies within the proviso: a pack is published and reported, another is published
      over it, and a pruner that counts the first one as past retention deletes it. */
  lemma OrdinaryLife(w: World, c: Scene)
    requires SceneOk(w, c)
    ensures QuietRun(w, LifeStart(c), LifeSteps(c)) && NoCollision(w, Run(w, false, LifeStart(c), LifeSteps(c)).log)
    ensures Run(w, false, LifeStart(c), LifeSteps(c)).log == LifeLog(c) + [Delete(PackKey(c.pack))]
  {
    var _ := LifeEnds(w, c);
    LifeIsQuiet(w, c);
    LifeNoCollision(w, c);
  }

  lemma EmptyIsClean(w: World, processes: seq<Process>)
    requires forall p :: p in processes ==> Starting(p)
    ensures CleanStore(w, []) && SafeSystem(w, System([], processes, map[]))
  {
    assert Now([]) == map[];
    forall r | 1 <= r <= Revision([]) ensures PointersIntact(w, At([], r)) { AtNow([]); }
    CleanStart(w, [], processes);
  }

  // The end of that life, and the pointer at revision 3.
  lemma LifeAtThree(w: World, c: Scene, log: Log)
    requires SceneOk(w, c) && log == LifeLog(c) + [Delete(PackKey(c.pack))]
    ensures PackKey(c.pack) !in Now(log) && |log| == 5
    ensures At(log, 3) == map[PackKey(c.pack) := Cell(c.pack.bundle, 2, 2), Active(V6, c.target) := Cell(c.pack.generation, 3, 3)]
  {
    NowAppend(LifeLog(c), Delete(PackKey(c.pack)));
    LifeViews(w, c);
    assert log[..2] == LifeLog(c)[..2];
  }

  lemma LifeIsSpared(w: World, c: Scene)
    requires SceneOk(w, c)
    ensures CleanStore(w, []) && Spared(w, LifeStart(c), LifeSteps(c)) && forall p :: p in LifeStart(c).processes ==> Starting(p)
  {
    OrdinaryLife(w, c);
    EmptyIsClean(w, LifeStart(c).processes);
    QuietSpares(w, LifeStart(c), LifeSteps(c));
  }

  /** And what the agent was told to fetch is found, although it is gone by the end of that life. */
  lemma DeletedIsFetched(w: World, c: Scene)
    requires SceneOk(w, c)
    ensures var log := Run(w, false, LifeStart(c), LifeSteps(c)).log;
      PackKey(c.pack) !in Now(log) && |log| == 5 &&
      Active(V6, c.target) in At(log, 3) && At(log, 3)[Active(V6, c.target)].value == c.pack.generation &&
      PackKey(c.pack) in At(log, 3) && Valid(w, c.pack.generation, At(log, 3)[PackKey(c.pack)].value)
  {
    OrdinaryLife(w, c);
    LifeAtThree(w, c, Run(w, false, LifeStart(c), LifeSteps(c)).log);
    LifeIsSpared(w, c);
    FetchAtPointerRevisionFinds(w, [], LifeStart(c).processes, LifeSteps(c), 3, c.target);
    ValidIsSafe(w, c.pack);
    SafeNameIsTrimmed(c.pack.generation);
  }

  lemma ValidIsSafe(w: World, pack: Pack)
    requires WorldOk(w) && Valid(w, pack.generation, pack.bundle)
    ensures SafeName(pack.generation)
  {
  }
}
