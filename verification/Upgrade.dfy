/** A machine running alone: repeated steps, and the states a run passes. */
module Iteration {

  ghost function Iter<S>(step: S -> S, s: S, n: nat): S
    decreases n
  {
    if n == 0 then s else step(Iter(step, s, n - 1))
  }

  ghost predicate Reaches<S>(step: S -> S, a: S, b: S) {
    exists n: nat :: Iter(step, a, n) == b
  }

  lemma {:induction false} IterAdd<S>(step: S -> S, s: S, a: nat, b: nat)
    ensures Iter(step, s, a + b) == Iter(step, Iter(step, s, a), b)
    decreases b
  {
    if b > 0 { IterAdd(step, s, a, b - 1); }
  }

  lemma {:induction false} FixedStays<S>(step: S -> S, s: S, n: nat)
    requires step(s) == s
    ensures Iter(step, s, n) == s
    decreases n
  {
    if n > 0 { FixedStays(step, s, n - 1); }
  }

  lemma ReachesSelf<S>(step: S -> S, s: S)
    ensures Reaches(step, s, s)
  {
    assert Iter(step, s, 0) == s;
  }

  lemma ReachesStep<S>(step: S -> S, a: S, b: S)
    requires Reaches(step, a, b)
    ensures Reaches(step, a, step(b))
  {
    var n: nat :| Iter(step, a, n) == b;
    assert Iter(step, a, n + 1) == step(b);
  }

  lemma ReachesTrans<S>(step: S -> S, a: S, b: S, c: S)
    requires Reaches(step, a, b) && Reaches(step, b, c)
    ensures Reaches(step, a, c)
  {
    var m: nat :| Iter(step, a, m) == b;
    var n: nat :| Iter(step, b, n) == c;
    IterAdd(step, a, m, n);
  }

  // A run that ends in a final state passes every state it reaches, so each of those ends there too.
  lemma FinishFromMiddle<S>(step: S -> S, a: S, b: S, final: S)
    requires Reaches(step, a, b) && Reaches(step, a, final) && step(final) == final
    ensures Reaches(step, b, final)
  {
    var m: nat :| Iter(step, a, m) == b;
    var n: nat :| Iter(step, a, n) == final;
    if m <= n {
      IterAdd(step, a, m, n - m);
      assert Iter(step, b, n - m) == final;
    } else {
      IterAdd(step, a, n, m - n);
      FixedStays(step, final, m - n);
      ReachesSelf(step, final);
    }
  }

  // Steps that only append to a log keep every earlier log a prefix.
  lemma {:induction false} LogGrows<L(!new), S(!new)>(step: ((seq<L>, S)) -> (seq<L>, S), c: (seq<L>, S), m: nat, n: nat)
    requires m <= n && forall d: (seq<L>, S) :: d.0 <= step(d).0
    ensures Iter(step, c, m).0 <= Iter(step, c, n).0
    decreases n
  {
    if m < n { LogGrows(step, c, m, n - 1); }
  }

  // A run that comes back to the log it started from has written nothing on the way or after.
  lemma ReturnsUnwritten<L(!new), S(!new)>(step: ((seq<L>, S)) -> (seq<L>, S), c: (seq<L>, S), final: S, k: nat, m: nat)
    requires forall d: (seq<L>, S) :: d.0 <= step(d).0
    requires Iter(step, c, k) == (c.0, final) && step((c.0, final)) == (c.0, final)
    ensures Iter(step, c, m).0 == c.0
  {
    if m <= k {
      LogGrows(step, c, 0, m);
      LogGrows(step, c, m, k);
    } else {
      IterAdd(step, c, k, m - k);
      FixedStays(step, (c.0, final), m - k);
    }
  }
}

/** The upgrader running alone: it can be cut at any request and run again. */
module Resume {
  import opened Wrappers
  import opened Text
  import opened Etcd
  import opened Machines
  import opened Iteration
  import Safety

  type Config = (Log, UpgradeState)

  // The upgrader alone on the store: one request at a time, nobody else writing.
  ghost function Alone(w: World, o: UpgradeOptions): Config -> Config {
    (c: Config) => UpgradeStep(w, c.0, o, c.1)
  }

  ghost predicate Goes(w: World, o: UpgradeOptions, log: Log, st: UpgradeState, log': Log, st': UpgradeState) {
    Reaches(Alone(w, o), (log, st), (log', st'))
  }

  lemma GoesStep(w: World, o: UpgradeOptions, log: Log, st: UpgradeState, log1: Log, st1: UpgradeState)
    requires Goes(w, o, log, st, log1, st1)
    ensures Goes(w, o, log, st, UpgradeStep(w, log1, o, st1).0, UpgradeStep(w, log1, o, st1).1)
  {
    ReachesStep(Alone(w, o), (log, st), (log1, st1));
    assert Alone(w, o)((log1, st1)) == UpgradeStep(w, log1, o, st1);
  }

  lemma GoesSelf(w: World, o: UpgradeOptions, log: Log, st: UpgradeState)
    ensures Goes(w, o, log, st, log, st)
  {
    ReachesSelf(Alone(w, o), (log, st));
  }

  // ---- the store in the middle of an undisturbed upgrade ----

  function Unmarked(t: TargetPlan): TargetPlan { t.(alreadyMigrated := false) }

  ghost predicate NoV4(log: Log) {
    SnapshotOf(log, V4).Some? && SnapshotOf(log, V4).value.active == map[]
  }

  predicate Yields(w: World, o: UpgradeOptions, view: View, source: Pointer, t: TargetPlan) {
    PlanTarget(w, o, view, t.id, source, None) == Some(Unmarked(t))
  }

  // The v5 pointers and bundles yield the plan.
  ghost predicate SourceYields(w: World, o: UpgradeOptions, plan: Plan, view: View, source: map<string, Pointer>, ids: seq<string>) {
    source != map[] && o.targetTypes.Keys <= source.Keys && |plan.targets| == |ids| &&
    forall j :: 0 <= j < |ids| ==>
      ids[j] in source && plan.targets[j].id == ids[j] && Yields(w, o, view, source[ids[j]], plan.targets[j])
  }

  ghost predicate Migrated(view: View, t: TargetPlan) {
    Active(V6, t.id) in view && PlanKey(t) in view && view[PlanKey(t)].value == t.bundle
  }

  // Targets before `next` are migrated; the others are marked exactly when they have a pointer.
  ghost predicate DestinationFits(plan: Plan, view: View, next: nat) {
    next <= |plan.targets| &&
    (forall j :: 0 <= j < |plan.targets| && Active(V6, plan.targets[j].id) in view ==>
      PointerOf(view[Active(V6, plan.targets[j].id)]).generation == plan.targets[j].resultGeneration) &&
    (forall j :: 0 <= j < next ==> Migrated(view, plan.targets[j])) &&
    (forall j :: next <= j < |plan.targets| ==>
      (plan.targets[j].alreadyMigrated <==> Active(V6, plan.targets[j].id) in view))
  }

  ghost predicate Snapshots(log: Log, source: map<string, Pointer>, destination: map<string, Pointer>) {
    NoV4(log) && SnapshotOf(log, V5) == Some(Snapshot(Revision(log), source)) &&
    SnapshotOf(log, V6) == Some(Snapshot(Revision(log), destination)) && destination.Keys <= source.Keys
  }

  ghost predicate Midway(w: World, o: UpgradeOptions, plan: Plan, log: Log, next: nat) {
    exists source, destination :: Fits(w, o, plan, log, next, source, destination)
  }

  ghost predicate Fits(w: World, o: UpgradeOptions, plan: Plan, log: Log, next: nat,
                       source: map<string, Pointer>, destination: map<string, Pointer>) {
    Snapshots(log, source, destination) && SourceYields(w, o, plan, Now(log), source, Sorted(source.Keys)) && DestinationFits(plan, Now(log), next)
  }

  // The plan a fresh start makes from a store midway through another plan.
  ghost function Remade(plan: Plan, log: Log): Plan {
    Plan(Revision(log), seq(|plan.targets|, i requires 0 <= i < |plan.targets| =>
      plan.targets[i].(alreadyMigrated := Active(V6, plan.targets[i].id) in Now(log))))
  }

  lemma PlanTargetMarks(w: World, o: UpgradeOptions, view: View, source: Pointer, destination: Option<Pointer>, t: TargetPlan)
    requires Yields(w, o, view, source, t)
    requires destination.Some? ==> destination.value.generation == t.resultGeneration
    ensures PlanTarget(w, o, view, t.id, source, destination) == Some(t.(alreadyMigrated := destination.Some?))
  {
  }

  lemma {:induction false} PlanTargetsAre(w: World, o: UpgradeOptions, view: View, source: map<string, Pointer>,
                                          destination: map<string, Pointer>, ids: seq<string>, targets: seq<TargetPlan>)
    requires (forall id :: id in ids ==> id in source) && |targets| == |ids|
    requires forall i :: 0 <= i < |ids| ==>
      PlanTarget(w, o, view, ids[i], source[ids[i]], Captured(destination, ids[i])) == Some(targets[i])
    ensures PlanTargets(w, o, view, source, destination, ids) == Some(targets)
  {
    if ids != [] {
      PlanTargetsAre(w, o, view, source, destination, ids[..|ids| - 1], targets[..|ids| - 1]);
      assert targets == targets[..|ids| - 1] + [targets[|ids| - 1]];
      assert ids[|ids| - 1] in ids;
    }
  }

  lemma RemadeTarget(w: World, o: UpgradeOptions, plan: Plan, log: Log, next: nat, i: nat,
                     source: map<string, Pointer>, destination: map<string, Pointer>)
    requires Fits(w, o, plan, log, next, source, destination) && i < |plan.targets|
    ensures plan.targets[i].id in source
    ensures PlanTarget(w, o, Now(log), plan.targets[i].id, source[plan.targets[i].id], Captured(destination, plan.targets[i].id))
      == Some(Remade(plan, log).targets[i])
  {
    var t := plan.targets[i];
    SnapshotAt(log, V6, t.id);
    PlanTargetMarks(w, o, Now(log), source[t.id], Captured(destination, t.id), t);
  }

  lemma TargetsRemade(w: World, o: UpgradeOptions, plan: Plan, log: Log, next: nat,
                      source: map<string, Pointer>, destination: map<string, Pointer>)
    requires Fits(w, o, plan, log, next, source, destination)
    ensures PlanTargets(w, o, Now(log), source, destination, Sorted(source.Keys)) == Some(Remade(plan, log).targets)
  {
    var ids, targets := Sorted(source.Keys), Remade(plan, log).targets;
    forall i | 0 <= i < |ids|
      ensures ids[i] in source
      ensures PlanTarget(w, o, Now(log), ids[i], source[ids[i]], Captured(destination, ids[i])) == Some(targets[i])
    {
      RemadeTarget(w, o, plan, log, next, i, source, destination);
    }
    PlanTargetsAre(w, o, Now(log), source, destination, ids, targets);
  }

  // Planning again midway yields the same targets, with the migrated ones marked.
  lemma BuildsRemade(w: World, o: UpgradeOptions, plan: Plan, log: Log, next: nat,
                     source: map<string, Pointer>, destination: map<string, Pointer>)
    requires Fits(w, o, plan, log, next, source, destination)
    ensures BuildPlan(w, log, o, Snapshot(Revision(log), source), Snapshot(Revision(log), destination)) == Some(Remade(plan, log))
  {
    AtNow(log);
    TargetsRemade(w, o, plan, log, next, source, destination);
  }

  predicate Proceeds(o: UpgradeOptions) { !o.dryRun && (o.deleteOld ==> o.confirmDelete) }

  lemma PlanningStarts(w: World, o: UpgradeOptions, log: Log, source: map<string, Pointer>, destination: map<string, Pointer>)
    requires Proceeds(o) && Snapshots(log, source, destination)
    ensures UpgradeStep(w, log, o, UpgradeStart) == (log, UpgradeSource)
  {
  }

  lemma PlanningReads(w: World, o: UpgradeOptions, log: Log, source: map<string, Pointer>, destination: map<string, Pointer>)
    requires Snapshots(log, source, destination)
    ensures UpgradeStep(w, log, o, UpgradeSource) == (log, UpgradeDestination(Snapshot(Revision(log), source)))
  {
  }

  lemma PlanningBuilds(w: World, o: UpgradeOptions, log: Log, plan: Plan, source: map<string, Pointer>, destination: map<string, Pointer>)
    requires Proceeds(o) && Snapshots(log, source, destination)
    requires BuildPlan(w, log, o, Snapshot(Revision(log), source), Snapshot(Revision(log), destination)) == Some(plan)
    ensures UpgradeStep(w, log, o, UpgradeDestination(Snapshot(Revision(log), source))) == (log, StartTarget(plan, 0))
  {
  }

  lemma PlanningSteps(w: World, o: UpgradeOptions, log: Log, plan: Plan, source: map<string, Pointer>, destination: map<string, Pointer>)
    requires Proceeds(o) && Snapshots(log, source, destination)
    requires BuildPlan(w, log, o, Snapshot(Revision(log), source), Snapshot(Revision(log), destination)) == Some(plan)
    ensures UpgradeStep(w, log, o, UpgradeStart) == (log, UpgradeSource)
    ensures UpgradeStep(w, log, o, UpgradeSource) == (log, UpgradeDestination(Snapshot(Revision(log), source)))
    ensures UpgradeStep(w, log, o, UpgradeDestination(Snapshot(Revision(log), source))) == (log, StartTarget(plan, 0))
  {
    PlanningStarts(w, o, log, source, destination);
    PlanningReads(w, o, log, source, destination);
    PlanningBuilds(w, o, log, plan, source, destination);
  }

  lemma RestartPlans(w: World, o: UpgradeOptions, plan: Plan, log: Log, next: nat)
    requires Midway(w, o, plan, log, next) && Proceeds(o)
    ensures Goes(w, o, log, UpgradeStart, log, StartTarget(Remade(plan, log), 0))
  {
    var source, destination :| Fits(w, o, plan, log, next, source, destination);
    BuildsRemade(w, o, plan, log, next, source, destination);
    PlanningSteps(w, o, log, Remade(plan, log), source, destination);
    GoesSelf(w, o, log, UpgradeStart);
    GoesStep(w, o, log, UpgradeStart, log, UpgradeStart);
    GoesStep(w, o, log, UpgradeStart, log, UpgradeSource);
    GoesStep(w, o, log, UpgradeStart, log, UpgradeDestination(Snapshot(Revision(log), source)));
  }

  // A fresh run skips the targets already migrated without writing.
  lemma {:induction false} SkipsMigrated(w: World, o: UpgradeOptions, plan: Plan, log: Log, upto: nat)
    requires upto <= |plan.targets|
    requires forall j :: 0 <= j < upto ==> plan.targets[j].alreadyMigrated && Migrated(Now(log), plan.targets[j])
    ensures Goes(w, o, log, StartTarget(plan, 0), log, StartTarget(plan, upto))
  {
    var start := StartTarget(plan, 0);
    if upto == 0 {
      GoesSelf(w, o, log, start);
    } else {
      SkipsMigrated(w, o, plan, log, upto - 1);
      assert Migrated(Now(log), plan.targets[upto - 1]);
      GoesStep(w, o, log, start, log, UpgradeTarget(plan, upto - 1, Staging));
      GoesStep(w, o, log, start, log, UpgradeTarget(plan, upto - 1, Checking));
    }
  }

  // ---- a plan that differs only in marks before `next` runs the same from there ----

  ghost predicate SameFrom(a: Plan, b: Plan, next: nat) {
    |a.targets| == |b.targets| &&
    (forall j :: 0 <= j < |a.targets| ==> Unmarked(a.targets[j]) == Unmarked(b.targets[j])) &&
    (forall j :: next <= j < |a.targets| ==> a.targets[j] == b.targets[j])
  }

  predicate Beyond(st: UpgradeState, plan: Plan, next: nat) {
    match st
    case UpgradeTarget(p, n, _) => p == plan && next <= n
    case VerifySource(p) => p == plan
    case VerifyDestination(p, _) => p == plan
    case VerifyTarget(p, _, _, _) => p == plan
    case DeleteSource(p) => p == plan
    case UpgradeDone => true
    case UpgradeFailed => true
    case _ => false
  }

  function WithPlan(st: UpgradeState, plan: Plan): UpgradeState {
    match st
    case UpgradeTarget(_, n, phase) => UpgradeTarget(plan, n, phase)
    case VerifySource(_) => VerifySource(plan)
    case VerifyDestination(_, s) => VerifyDestination(plan, s)
    case VerifyTarget(_, s, d, n) => VerifyTarget(plan, s, d, n)
    case DeleteSource(_) => DeleteSource(plan)
    case _ => st
  }

  lemma StepSame(w: World, o: UpgradeOptions, log: Log, st: UpgradeState, a: Plan, b: Plan, next: nat)
    requires SameFrom(a, b, next) && Beyond(st, a, next)
    ensures var (log', st') := UpgradeStep(w, log, o, st);
      UpgradeStep(w, log, o, WithPlan(st, b)) == (log', WithPlan(st', b)) && Beyond(st', a, next)
  {
    match st
    case UpgradeTarget(_, n, phase) =>
      if n < |a.targets| { assert a.targets[n] == b.targets[n]; }
    case VerifyTarget(_, s, d, n) =>
      if n < |a.targets| { assert Unmarked(a.targets[n]) == Unmarked(b.targets[n]); }
    case _ =>
  }

  lemma {:induction false} IterSame(w: World, o: UpgradeOptions, log: Log, st: UpgradeState, a: Plan, b: Plan, next: nat, n: nat)
    requires SameFrom(a, b, next) && Beyond(st, a, next)
    ensures var (log', st') := Iter(Alone(w, o), (log, st), n);
      Iter(Alone(w, o), (log, WithPlan(st, b)), n) == (log', WithPlan(st', b)) && Beyond(st', a, next)
    decreases n
  {
    if n > 0 {
      IterSame(w, o, log, st, a, b, next, n - 1);
      var (log', st') := Iter(Alone(w, o), (log, st), n - 1);
      StepSame(w, o, log', st', a, b, next);
    }
  }

  lemma FinishSame(w: World, o: UpgradeOptions, log: Log, st: UpgradeState, a: Plan, b: Plan, next: nat, final: Log)
    requires SameFrom(a, b, next) && Beyond(st, a, next) && Goes(w, o, log, st, final, UpgradeDone)
    ensures Goes(w, o, log, WithPlan(st, b), final, UpgradeDone)
  {
    var n: nat :| Iter(Alone(w, o), (log, st), n) == (final, UpgradeDone);
    IterSame(w, o, log, st, a, b, next, n);
  }

  // ---- an undisturbed run stays midway ----

  lemma OtherKeyKeepsTargets(view: View, key: Key, cell: Cell, version: Version)
    requires !(key.Active? && key.version == version)
    ensures PointerTargets(view[key := cell], version) == PointerTargets(view, version)
  {
    forall t ensures Active(version, t) in view[key := cell] <==> Active(version, t) in view {}
    forall t ensures t in PointerTargets(view[key := cell], version) <==> t in PointerTargets(view, version) {
      TargetIs(view, version, t);
      TargetIs(view[key := cell], version, t);
    }
  }

  lemma TargetIs(view: View, version: Version, t: string)
    ensures t in PointerTargets(view, version) <==> Active(version, t) in view
  {
    assert Active(version, t).target == t;
  }

  lemma OtherKeyKeepsActive(view: View, key: Key, cell: Cell, version: Version)
    requires !(key.Active? && key.version == version)
    ensures ActiveOf(view[key := cell], version) == ActiveOf(view, version)
    ensures PointersSafe(view[key := cell], version) <==> PointersSafe(view, version)
  {
    var view' := view[key := cell];
    OtherKeyKeepsTargets(view, key, cell, version);
    forall t | t in PointerTargets(view, version) ensures view'[Active(version, t)] == view[Active(version, t)] {}
  }

  // A put on another key leaves a version's snapshot as it was, at the next revision.
  lemma SnapshotKept(log: Log, write: Write, version: Version, active: map<string, Pointer>)
    requires write.Put? && !(write.key.Active? && write.key.version == version)
    requires SnapshotOf(log, version) == Some(Snapshot(Revision(log), active))
    ensures SnapshotOf(log + [write], version) == Some(Snapshot(Revision(log + [write]), active))
  {
    NowAppend(log, write);
    OtherKeyKeepsActive(Now(log), write.key, Now(log + [write])[write.key], version);
  }

  lemma TargetsGain(view: View, version: Version, target: string, cell: Cell)
    ensures PointerTargets(view[Active(version, target) := cell], version) == PointerTargets(view, version) + {target}
  {
    var view' := view[Active(version, target) := cell];
    assert Active(version, target) in view';
    forall t | t in PointerTargets(view, version) ensures t in PointerTargets(view', version) { assert Active(version, t) in view'; }
    forall t | t in PointerTargets(view', version) && t != target ensures t in PointerTargets(view, version) { assert Active(version, t) in view; }
  }

  lemma PointersGain(view: View, version: Version, target: string, cell: Cell)
    requires SafeName(target) && SafeName(cell.value) && PointersSafe(view, version)
    ensures PointersSafe(view[Active(version, target) := cell], version)
    ensures ActiveOf(view[Active(version, target) := cell], version) == ActiveOf(view, version)[target := Pointer(cell.value, cell.mod)]
  {
    SafeNameIsTrimmed(cell.value);
    var view' := view[Active(version, target) := cell];
    TargetsGain(view, version, target, cell);
    ActiveGains(view, view', version, target, cell);
    forall t | t in PointerTargets(view', version) ensures SafePointer(view', Active(version, t)) {
      if t != target { assert SafePointer(view, Active(version, t)); }
    }
  }

  lemma ActiveGains(view: View, view': View, version: Version, target: string, cell: Cell)
    requires view' == view[Active(version, target) := cell] && TrimSpace(cell.value) == cell.value
    requires PointerTargets(view', version) == PointerTargets(view, version) + {target}
    ensures ActiveOf(view', version) == ActiveOf(view, version)[target := Pointer(cell.value, cell.mod)]
  {
    var after, expected := ActiveOf(view', version), ActiveOf(view, version)[target := Pointer(cell.value, cell.mod)];
    assert after.Keys == expected.Keys;
    forall t | t in after ensures after[t] == expected[t] {
      if t != target { assert view'[Active(version, t)] == view[Active(version, t)]; }
    }
  }

  // A first put on a pointer adds one entry to the snapshot.
  lemma SnapshotGains(log: Log, version: Version, target: string, generation: string, active: map<string, Pointer>)
    requires SnapshotOf(log, version) == Some(Snapshot(Revision(log), active))
    requires SafeName(target) && SafeName(generation)
    ensures var log' := log + [Put(Active(version, target), generation)];
      SnapshotOf(log', version) == Some(Snapshot(Revision(log'), active[target := Pointer(generation, Revision(log'))]))
  {
    var log' := log + [Put(Active(version, target), generation)];
    NowAppend(log, Put(Active(version, target), generation));
    PointersGain(Now(log), version, target, Now(log')[Active(version, target)]);
  }

  lemma SourceStable(w: World, o: UpgradeOptions, plan: Plan, view: View, source: map<string, Pointer>, ids: seq<string>, key: Key, cell: Cell)
    requires SourceYields(w, o, plan, view, source, ids) && key.version == V6
    ensures SourceYields(w, o, plan, view[key := cell], source, ids)
  {
    forall j | 0 <= j < |plan.targets| ensures Yields(w, o, view[key := cell], source[ids[j]], plan.targets[j]) {
      assert Yields(w, o, view, source[ids[j]], plan.targets[j]);
    }
  }

  lemma StagingFits(plan: Plan, view: View, next: nat, key: Key, cell: Cell)
    requires DestinationFits(plan, view, next) && key.Bundle? && key !in view
    ensures DestinationFits(plan, view[key := cell], next)
  {
    forall j | 0 <= j < next ensures Migrated(view[key := cell], plan.targets[j]) {
      assert Migrated(view, plan.targets[j]);
    }
  }

  lemma StagingKeepsSnapshots(log: Log, write: Write, source: map<string, Pointer>, destination: map<string, Pointer>)
    requires Snapshots(log, source, destination) && write.Put? && write.key.Bundle?
    ensures Snapshots(log + [write], source, destination)
  {
    SnapshotKept(log, write, V4, map[]);
    SnapshotKept(log, write, V5, source);
    SnapshotKept(log, write, V6, destination);
  }

  lemma StagingKeepsMidway(w: World, o: UpgradeOptions, plan: Plan, log: Log, next: nat, key: Key, value: string)
    requires Midway(w, o, plan, log, next) && key.Bundle? && key.version == V6 && key !in Now(log)
    ensures Midway(w, o, plan, log + [Put(key, value)], next)
  {
    var source, destination :| Fits(w, o, plan, log, next, source, destination);
    var write := Put(key, value);
    StagingKeepsSnapshots(log, write, source, destination);
    NowAppend(log, write);
    var cell := Now(log + [write])[key];
    assert Now(log + [write]) == Now(log)[key := cell];
    SourceStable(w, o, plan, Now(log), source, Sorted(source.Keys), key, cell);
    StagingFits(plan, Now(log), next, key, cell);
    assert Fits(w, o, plan, log + [write], next, source, destination);
  }

  lemma YieldsSafe(w: World, o: UpgradeOptions, view: View, source: Pointer, t: TargetPlan)
    requires WorldOk(w) && Yields(w, o, view, source, t)
    ensures SafeName(t.resultGeneration)
  {
  }

  lemma CommitFits(plan: Plan, view: View, next: nat, revision: nat)
    requires DestinationFits(plan, view, next) && next < |plan.targets| && Active(V6, plan.targets[next].id) !in view
    requires forall i, j :: 0 <= i < j < |plan.targets| ==> plan.targets[i].id != plan.targets[j].id
    requires PlanKey(plan.targets[next]) in view && view[PlanKey(plan.targets[next])].value == plan.targets[next].bundle
    requires SafeName(plan.targets[next].resultGeneration)
    ensures DestinationFits(plan, view[Active(V6, plan.targets[next].id) := Cell(plan.targets[next].resultGeneration, revision, revision)], next + 1)
  {
    SafeNameIsTrimmed(plan.targets[next].resultGeneration);
    var view' := view[Active(V6, plan.targets[next].id) := Cell(plan.targets[next].resultGeneration, revision, revision)];
    forall j | 0 <= j < next + 1 ensures Migrated(view', plan.targets[j]) {
      if j < next { assert Migrated(view, plan.targets[j]); }
    }
  }

  lemma CommitKeepsSnapshots(log: Log, id: string, generation: string, source: map<string, Pointer>, destination: map<string, Pointer>)
    requires Snapshots(log, source, destination) && id in source && SafeName(generation)
    ensures var log' := log + [Put(Active(V6, id), generation)];
      Snapshots(log', source, destination[id := Pointer(generation, Revision(log'))])
  {
    var write := Put(Active(V6, id), generation);
    SnapshotAt(log, V5, id);
    SnapshotKept(log, write, V4, map[]);
    SnapshotKept(log, write, V5, source);
    SnapshotGains(log, V6, id, generation, destination);
  }

  lemma CommitKeepsMidway(w: World, o: UpgradeOptions, plan: Plan, log: Log, next: nat)
    requires WorldOk(w) && Midway(w, o, plan, log, next) && next < |plan.targets|
    requires var t := plan.targets[next];
      PlanKey(t) in Now(log) && Now(log)[PlanKey(t)].value == t.bundle && Active(V6, t.id) !in Now(log)
    ensures Midway(w, o, plan, log + [Put(Active(V6, plan.targets[next].id), plan.targets[next].resultGeneration)], next + 1)
  {
    var source, destination :| Fits(w, o, plan, log, next, source, destination);
    var ids, t := Sorted(source.Keys), plan.targets[next];
    var write := Put(Active(V6, t.id), t.resultGeneration);
    YieldsSafe(w, o, Now(log), source[ids[next]], t);
    SortedDistinct(source.Keys);
    CommitKeepsSnapshots(log, t.id, t.resultGeneration, source, destination);
    NowAppend(log, write);
    var cell := Cell(t.resultGeneration, Revision(log) + 1, Revision(log) + 1);
    assert Now(log + [write]) == Now(log)[write.key := cell];
    SourceStable(w, o, plan, Now(log), source, ids, write.key, cell);
    CommitFits(plan, Now(log), next, Revision(log) + 1);
    assert Fits(w, o, plan, log + [write], next + 1, source, destination[t.id := Pointer(t.resultGeneration, Revision(log + [write]))]);
  }

  lemma SkipKeepsMidway(w: World, o: UpgradeOptions, plan: Plan, log: Log, next: nat)
    requires Midway(w, o, plan, log, next) && next < |plan.targets| && plan.targets[next].alreadyMigrated
    requires var t := plan.targets[next]; PlanKey(t) in Now(log) && Now(log)[PlanKey(t)].value == t.bundle
    ensures Midway(w, o, plan, log, next + 1)
  {
    var source, destination :| Fits(w, o, plan, log, next, source, destination);
    assert Migrated(Now(log), plan.targets[next]);
    assert Fits(w, o, plan, log, next + 1, source, destination);
  }

  // What has been established when a target is at a phase.
  predicate PhaseOk(log: Log, t: TargetPlan, phase: Phase) {
    (!phase.Staging? ==> PlanKey(t) in Now(log)) &&
    (phase.Sourcing? || phase.Probing? || phase.Committing? ==> Now(log)[PlanKey(t)].value == t.bundle && !t.alreadyMigrated) &&
    (phase.Probing? || phase.Committing? ==> Holds(Now(log), Active(V5, t.id), SourceCondition(t))) &&
    (phase.Committing? ==> Active(V6, t.id) !in Now(log))
  }

  ghost predicate Finished(w: World, o: UpgradeOptions, start: Log, plan: Plan, log: Log) {
    Proceeds(o) && Midway(w, o, plan, log, |plan.targets|) && Goes(w, o, start, UpgradeStart, log, VerifySource(plan))
  }

  // Every state of an undisturbed run from `start`, up to the deletion of the v5 keys.
  ghost predicate Along(w: World, o: UpgradeOptions, start: Log, log: Log, st: UpgradeState) {
    match st
    case UpgradeStart => log == start
    case UpgradeSource => log == start && NoV4(log) && (o.deleteOld && !o.dryRun ==> o.confirmDelete)
    case UpgradeDestination(source) =>
      log == start && NoV4(log) && (o.deleteOld && !o.dryRun ==> o.confirmDelete) && SnapshotOf(log, V5) == Some(source)
    case UpgradeTarget(plan, next, phase) =>
      Proceeds(o) && Midway(w, o, plan, log, next) && next < |plan.targets| && PhaseOk(log, plan.targets[next], phase)
    case VerifySource(plan) => Finished(w, o, start, plan, log)
    case VerifyDestination(plan, _) => Finished(w, o, start, plan, log)
    case VerifyTarget(plan, _, _, _) => Finished(w, o, start, plan, log)
    case DeleteSource(plan) => o.deleteOld && Finished(w, o, start, plan, log)
    case UpgradeDone => o.dryRun ==> log == start
    case UpgradeFailed => true
  }

  ghost predicate AlongOrDone(w: World, o: UpgradeOptions, start: Log, log: Log, st: UpgradeState) {
    Along(w, o, start, log, st) &&
    (st.UpgradeDone? && !o.deleteOld && !o.dryRun ==> exists plan :: Finished(w, o, start, plan, log))
  }

  // A state of the run through the targets, or the start of verification.
  ghost predicate InTargets(w: World, o: UpgradeOptions, plan: Plan, log: Log, st: UpgradeState) {
    match st
    case UpgradeTarget(p, n, phase) =>
      p == plan && n < |plan.targets| && Midway(w, o, plan, log, n) && PhaseOk(log, plan.targets[n], phase)
    case VerifySource(p) => p == plan && Midway(w, o, plan, log, |plan.targets|)
    case UpgradeFailed => true
    case _ => false
  }

  lemma StartsTarget(w: World, o: UpgradeOptions, plan: Plan, log: Log, next: nat)
    requires Midway(w, o, plan, log, next) && next <= |plan.targets|
    ensures InTargets(w, o, plan, log, StartTarget(plan, next))
  {
  }

  lemma AfterStageAlong(w: World, o: UpgradeOptions, plan: Plan, log: Log, next: nat)
    requires Midway(w, o, plan, log, next) && next < |plan.targets|
    requires var t := plan.targets[next]; PlanKey(t) in Now(log) && Now(log)[PlanKey(t)].value == t.bundle
    ensures InTargets(w, o, plan, log, AfterStage(plan, next))
  {
    if plan.targets[next].alreadyMigrated {
      SkipKeepsMidway(w, o, plan, log, next);
      StartsTarget(w, o, plan, log, next + 1);
    }
  }

  lemma StagingAlong(w: World, o: UpgradeOptions, plan: Plan, log: Log, next: nat)
    requires Midway(w, o, plan, log, next) && next < |plan.targets|
    ensures InTargets(w, o, plan, TargetStep(log, plan, next, Staging).0, TargetStep(log, plan, next, Staging).1)
  {
    var t := plan.targets[next];
    if PlanKey(t) !in Now(log) {
      StagingKeepsMidway(w, o, plan, log, next, PlanKey(t), t.bundle);
      NowAppend(log, Put(PlanKey(t), t.bundle));
      AfterStageAlong(w, o, plan, log + [Put(PlanKey(t), t.bundle)], next);
    }
  }

  lemma CommittingAlong(w: World, o: UpgradeOptions, plan: Plan, log: Log, next: nat)
    requires WorldOk(w) && Midway(w, o, plan, log, next) && next < |plan.targets|
    requires PhaseOk(log, plan.targets[next], Committing)
    ensures InTargets(w, o, plan, TargetStep(log, plan, next, Committing).0, TargetStep(log, plan, next, Committing).1)
  {
    var t := plan.targets[next];
    CommitKeepsMidway(w, o, plan, log, next);
    StartsTarget(w, o, plan, log + [Put(Active(V6, t.id), t.resultGeneration)], next + 1);
  }

  lemma TargetStaysAlong(w: World, o: UpgradeOptions, plan: Plan, log: Log, next: nat, phase: Phase)
    requires WorldOk(w) && Midway(w, o, plan, log, next) && next < |plan.targets| && PhaseOk(log, plan.targets[next], phase)
    ensures InTargets(w, o, plan, TargetStep(log, plan, next, phase).0, TargetStep(log, plan, next, phase).1)
  {
    match phase
    case Staging => StagingAlong(w, o, plan, log, next);
    case Checking =>
      if Now(log)[PlanKey(plan.targets[next])].value == plan.targets[next].bundle { AfterStageAlong(w, o, plan, log, next); }
    case Committing => CommittingAlong(w, o, plan, log, next);
    case _ =>
  }

  lemma FirstTarget(w: World, o: UpgradeOptions, log: Log, source: Pointer, destination: map<string, Pointer>, id: string, t: TargetPlan)
    requires SnapshotOf(log, V6) == Some(Snapshot(Revision(log), destination))
    requires PlanTarget(w, o, Now(log), id, source, Captured(destination, id)) == Some(t)
    ensures t.id == id && Yields(w, o, Now(log), source, t)
    ensures t.alreadyMigrated <==> Active(V6, id) in Now(log)
    ensures Active(V6, id) in Now(log) ==> PointerOf(Now(log)[Active(V6, id)]).generation == t.resultGeneration
  {
    SnapshotAt(log, V6, id);
  }

  // The first plan, made on the store the run starts from.
  lemma FirstPlanFits(w: World, o: UpgradeOptions, log: Log, source: map<string, Pointer>, destination: map<string, Pointer>, plan: Plan)
    requires NoV4(log) && SnapshotOf(log, V5) == Some(Snapshot(Revision(log), source))
    requires SnapshotOf(log, V6) == Some(Snapshot(Revision(log), destination))
    requires BuildPlan(w, log, o, Snapshot(Revision(log), source), Snapshot(Revision(log), destination)) == Some(plan)
    ensures Midway(w, o, plan, log, 0) && |plan.targets| > 0
  {
    var ids := Sorted(source.Keys);
    AtNow(log);
    assert source.Keys != {};
    Safety.PlanTargetsEach(w, o, Now(log), source, destination, ids);
    forall j | 0 <= j < |ids|
      ensures ids[j] in source && plan.targets[j].id == ids[j] && Yields(w, o, Now(log), source[ids[j]], plan.targets[j])
      ensures plan.targets[j].alreadyMigrated <==> Active(V6, plan.targets[j].id) in Now(log)
      ensures Active(V6, plan.targets[j].id) in Now(log) ==>
        PointerOf(Now(log)[Active(V6, plan.targets[j].id)]).generation == plan.targets[j].resultGeneration
    {
      assert ids[j] in ids;
      FirstTarget(w, o, log, source[ids[j]], destination, ids[j], plan.targets[j]);
    }
    assert DestinationFits(plan, Now(log), 0);
    assert Fits(w, o, plan, log, 0, source, destination);
  }

  lemma DestinationAlong(w: World, o: UpgradeOptions, log: Log, source: Snapshot)
    requires NoV4(log) && SnapshotOf(log, V5) == Some(source)
    ensures var (log', st') := UpgradeStep(w, log, o, UpgradeDestination(source));
      log' == log && ((st'.UpgradeDone? && o.dryRun) || (!o.dryRun && st'.UpgradeTarget? && InTargets(w, o, st'.plan, log, st')) || st'.UpgradeFailed?)
  {
    var destination := SnapshotOf(log, V6);
    if destination.Some? && BuildPlan(w, log, o, source, destination.value).Some? {
      var plan := BuildPlan(w, log, o, source, destination.value).value;
      FirstPlanFits(w, o, log, source.active, destination.value.active, plan);
      StartsTarget(w, o, plan, log, 0);
    }
  }

  // Verification writes nothing and ends by deleting, or by finishing when nothing is deleted.
  lemma VerifySteps(w: World, o: UpgradeOptions, plan: Plan, log: Log, st: UpgradeState)
    requires st.VerifySource? || st.VerifyDestination? || st.VerifyTarget?
    requires st.plan == plan
    ensures var (log', st') := UpgradeStep(w, log, o, st);
      log' == log &&
      match st'
      case VerifyDestination(p, _) => p == plan
      case VerifyTarget(p, _, _, _) => p == plan
      case DeleteSource(p) => p == plan && o.deleteOld
      case UpgradeDone => !o.deleteOld
      case UpgradeFailed => true
      case _ => false
  {
  }

  ghost predicate RunOk(w: World, o: UpgradeOptions, start: Log, log: Log, st: UpgradeState) {
    Goes(w, o, start, UpgradeStart, log, st) &&
    (AlongOrDone(w, o, start, log, st) || (st.UpgradeDone? && o.deleteOld && !o.dryRun))
  }

  lemma StepsTarget(w: World, o: UpgradeOptions, start: Log, log: Log, st: UpgradeState)
    requires WorldOk(w) && Goes(w, o, start, UpgradeStart, log, st) && AlongOrDone(w, o, start, log, st) && st.UpgradeTarget?
    ensures AlongOrDone(w, o, start, UpgradeStep(w, log, o, st).0, UpgradeStep(w, log, o, st).1)
  {
    GoesStep(w, o, start, UpgradeStart, log, st);
    TargetStaysAlong(w, o, st.plan, log, st.next, st.phase);
  }

  lemma StepsVerify(w: World, o: UpgradeOptions, start: Log, log: Log, st: UpgradeState)
    requires Along(w, o, start, log, st) && (st.VerifySource? || st.VerifyDestination? || st.VerifyTarget?)
    ensures AlongOrDone(w, o, start, UpgradeStep(w, log, o, st).0, UpgradeStep(w, log, o, st).1)
  {
    VerifySteps(w, o, st.plan, log, st);
    assert Finished(w, o, start, st.plan, log);
  }

  lemma StepsPlanning(w: World, o: UpgradeOptions, start: Log, log: Log, st: UpgradeState)
    requires Along(w, o, start, log, st) && st.UpgradeDestination?
    ensures AlongOrDone(w, o, start, UpgradeStep(w, log, o, st).0, UpgradeStep(w, log, o, st).1)
  {
    DestinationAlong(w, o, log, st.source);
  }

  lemma StepsAlong(w: World, o: UpgradeOptions, start: Log, log: Log, st: UpgradeState)
    requires WorldOk(w) && Goes(w, o, start, UpgradeStart, log, st) && AlongOrDone(w, o, start, log, st)
    requires !st.DeleteSource? && !st.UpgradeDone? && !st.UpgradeFailed?
    ensures AlongOrDone(w, o, start, UpgradeStep(w, log, o, st).0, UpgradeStep(w, log, o, st).1)
  {
    if st.UpgradeStart? || st.UpgradeSource? {
      StepsEarly(w, o, start, log, st);
    } else if st.UpgradeDestination? {
      StepsPlanning(w, o, start, log, st);
    } else if st.UpgradeTarget? {
      StepsTarget(w, o, start, log, st);
    } else {
      StepsVerify(w, o, start, log, st);
    }
  }

  lemma StepsRun(w: World, o: UpgradeOptions, start: Log, log: Log, st: UpgradeState)
    requires WorldOk(w) && RunOk(w, o, start, log, st)
    ensures RunOk(w, o, start, UpgradeStep(w, log, o, st).0, UpgradeStep(w, log, o, st).1)
  {
    GoesStep(w, o, start, UpgradeStart, log, st);
    if st.DeleteSource? || st.UpgradeDone? || st.UpgradeFailed? {
      StepsLast(w, o, start, log, st);
    } else {
      StepsAlong(w, o, start, log, st);
    }
  }

  lemma StepsEarly(w: World, o: UpgradeOptions, start: Log, log: Log, st: UpgradeState)
    requires Along(w, o, start, log, st) && (st.UpgradeStart? || st.UpgradeSource?)
    ensures AlongOrDone(w, o, start, UpgradeStep(w, log, o, st).0, UpgradeStep(w, log, o, st).1)
  {
  }

  // The old prefix is only deleted at the end of a run that was asked to.
  lemma StepsLast(w: World, o: UpgradeOptions, start: Log, log: Log, st: UpgradeState)
    requires RunOk(w, o, start, log, st) && (st.DeleteSource? || st.UpgradeDone? || st.UpgradeFailed?)
    ensures var (log', st') := UpgradeStep(w, log, o, st);
      AlongOrDone(w, o, start, log', st') || (st'.UpgradeDone? && o.deleteOld && !o.dryRun)
  {
    if st.DeleteSource? {
      StepsDelete(w, o, start, log, st.plan);
    } else {
      assert UpgradeStep(w, log, o, st) == (log, st);
    }
  }

  lemma StepsDelete(w: World, o: UpgradeOptions, start: Log, log: Log, plan: Plan)
    requires Along(w, o, start, log, DeleteSource(plan))
    ensures UpgradeStep(w, log, o, DeleteSource(plan)).1 == UpgradeDone && o.deleteOld && !o.dryRun
  {
  }

  lemma {:induction false} RunsAlong(w: World, o: UpgradeOptions, start: Log, k: nat)
    requires WorldOk(w)
    ensures var (log, st) := Iter(Alone(w, o), (start, UpgradeStart), k);
      RunOk(w, o, start, log, st)
    decreases k
  {
    if k == 0 {
      GoesSelf(w, o, start, UpgradeStart);
    } else {
      RunsAlong(w, o, start, k - 1);
      var (log, st) := Iter(Alone(w, o), (start, UpgradeStart), k - 1);
      StepsRun(w, o, start, log, st);
      assert Alone(w, o)((log, st)) == UpgradeStep(w, log, o, st);
    }
  }

  lemma RemadeSame(plan: Plan, log: Log, next: nat)
    requires DestinationFits(plan, Now(log), next)
    ensures SameFrom(plan, Remade(plan, log), next)
    ensures forall j :: 0 <= j < next ==> Remade(plan, log).targets[j].alreadyMigrated && Migrated(Now(log), Remade(plan, log).targets[j])
  {
    forall j | 0 <= j < next ensures Remade(plan, log).targets[j].alreadyMigrated && Migrated(Now(log), Remade(plan, log).targets[j]) {
      assert Migrated(Now(log), plan.targets[j]);
    }
  }

  // A fresh start from midway reaches the target the cut run was at.
  lemma RestartReaches(w: World, o: UpgradeOptions, plan: Plan, log: Log, next: nat)
    requires Midway(w, o, plan, log, next) && Proceeds(o)
    ensures Goes(w, o, log, UpgradeStart, log, StartTarget(Remade(plan, log), next))
    ensures SameFrom(plan, Remade(plan, log), next)
  {
    var source, destination :| Fits(w, o, plan, log, next, source, destination);
    RestartPlans(w, o, plan, log, next);
    RemadeSame(plan, log, next);
    SkipsMigrated(w, o, Remade(plan, log), log, next);
    ReachesTrans(Alone(w, o), (log, UpgradeStart), (log, StartTarget(Remade(plan, log), 0)), (log, StartTarget(Remade(plan, log), next)));
  }

  lemma PhaseReaches(w: World, o: UpgradeOptions, plan: Plan, log: Log, next: nat, phase: Phase)
    requires next < |plan.targets| && PhaseOk(log, plan.targets[next], phase)
    ensures Goes(w, o, log, UpgradeTarget(plan, next, Staging), log, UpgradeTarget(plan, next, phase))
  {
    var start := UpgradeTarget(plan, next, Staging);
    GoesSelf(w, o, log, start);
    if !phase.Staging? {
      GoesStep(w, o, log, start, log, start);
      if !phase.Checking? {
        GoesStep(w, o, log, start, log, UpgradeTarget(plan, next, Checking));
        if !phase.Sourcing? {
          GoesStep(w, o, log, start, log, UpgradeTarget(plan, next, Sourcing));
          if !phase.Probing? {
            GoesStep(w, o, log, start, log, UpgradeTarget(plan, next, Probing));
          }
        }
      }
    }
  }

  lemma FinishFrom(w: World, o: UpgradeOptions, log: Log, a: UpgradeState, log1: Log, b: UpgradeState, final: Log)
    requires Goes(w, o, log, a, log1, b) && Goes(w, o, log, a, final, UpgradeDone)
    ensures Goes(w, o, log1, b, final, UpgradeDone)
  {
    FinishFromMiddle(Alone(w, o), (log, a), (log1, b), (final, UpgradeDone));
  }

  lemma RestartFinishes(w: World, o: UpgradeOptions, start: Log, log: Log, st: UpgradeState, final: Log)
    requires RunOk(w, o, start, log, st)
    requires Goes(w, o, start, UpgradeStart, final, UpgradeDone)
    requires st.UpgradeDone? ==> !o.deleteOld || o.dryRun
    ensures Goes(w, o, log, UpgradeStart, final, UpgradeDone)
  {
    FinishFrom(w, o, start, UpgradeStart, log, st, final);
    if st.UpgradeTarget? {
      var remade := Remade(st.plan, log);
      RestartReaches(w, o, st.plan, log, st.next);
      PhaseReaches(w, o, remade, log, st.next, st.phase);
      FinishSame(w, o, log, st, st.plan, remade, st.next, final);
      ReachesTrans(Alone(w, o), (log, UpgradeStart), (log, StartTarget(remade, st.next)), (log, WithPlan(st, remade)));
      ReachesTrans(Alone(w, o), (log, UpgradeStart), (log, WithPlan(st, remade)), (final, UpgradeDone));
    } else if exists plan :: Finished(w, o, start, plan, log) {
      var plan :| Finished(w, o, start, plan, log);
      var remade, n := Remade(plan, log), |plan.targets|;
      FinishFrom(w, o, start, UpgradeStart, log, VerifySource(plan), final);
      RestartReaches(w, o, plan, log, n);
      FinishSame(w, o, log, VerifySource(plan), plan, remade, n, final);
      ReachesTrans(Alone(w, o), (log, UpgradeStart), (log, VerifySource(remade)), (final, UpgradeDone));
    } else if st.UpgradeFailed? {
      FailedStays(w, o, log, final);
    }
  }

  lemma FailedStays(w: World, o: UpgradeOptions, log: Log, final: Log)
    ensures !Goes(w, o, log, UpgradeFailed, final, UpgradeDone)
  {
    if Goes(w, o, log, UpgradeFailed, final, UpgradeDone) {
      var n: nat :| Iter(Alone(w, o), (log, UpgradeFailed), n) == (final, UpgradeDone);
      FixedStays(Alone(w, o), (log, UpgradeFailed), n);
    }
  }

  /** Cut after any request before the v5 keys are deleted, and run again with the same options,
      an upgrade ends exactly where the uncut run ends: the same log, so the same v6 pointers and
      bundle bytes. */
  lemma CutAndRerun(w: World, o: UpgradeOptions, start: Log, n: nat, k: nat)
    requires WorldOk(w)
    requires Iter(Alone(w, o), (start, UpgradeStart), n).1 == UpgradeDone
    requires Iter(Alone(w, o), (start, UpgradeStart), k).1 == UpgradeDone ==> !o.deleteOld || o.dryRun
    ensures var cut := Iter(Alone(w, o), (start, UpgradeStart), k).0;
      exists m: nat :: Iter(Alone(w, o), (cut, UpgradeStart), m) == Iter(Alone(w, o), (start, UpgradeStart), n)
  {
    var (cut, st) := Iter(Alone(w, o), (start, UpgradeStart), k);
    var (final, _) := Iter(Alone(w, o), (start, UpgradeStart), n);
    RunsAlong(w, o, start, k);
    assert Goes(w, o, start, UpgradeStart, final, UpgradeDone);
    RestartFinishes(w, o, start, cut, st, final);
  }

  lemma StepGrows(w: World, o: UpgradeOptions, log: Log, st: UpgradeState)
    ensures log <= UpgradeStep(w, log, o, st).0
  {
  }

  /** Once an upgrade that keeps the v5 keys has finished, another run writes nothing at all. */
  lemma RerunWritesNothing(w: World, o: UpgradeOptions, start: Log, n: nat, m: nat)
    requires WorldOk(w) && (!o.deleteOld || o.dryRun)
    requires Iter(Alone(w, o), (start, UpgradeStart), n).1 == UpgradeDone
    ensures var final := Iter(Alone(w, o), (start, UpgradeStart), n).0;
      Iter(Alone(w, o), (final, UpgradeStart), m).0 == final
  {
    var final := Iter(Alone(w, o), (start, UpgradeStart), n).0;
    CutAndRerun(w, o, start, n, n);
    var k: nat :| Iter(Alone(w, o), (final, UpgradeStart), k) == (final, UpgradeDone);
    forall c: Config ensures c.0 <= Alone(w, o)(c).0 { StepGrows(w, o, c.0, c.1); }
    ReturnsUnwritten(Alone(w, o), (final, UpgradeStart), UpgradeDone, k, m);
  }

  // Such a run stays before its plan.
  ghost predicate Unplanned(log: Log, empty: Snapshot, c: Config) {
    c.0 == log && (c.1 == UpgradeStart || c.1 == UpgradeSource || c.1 == UpgradeDestination(empty) || c.1 == UpgradeFailed)
  }

  // How far it has come.
  function Progress(st: UpgradeState): nat {
    if st.UpgradeStart? then 0 else if st.UpgradeSource? then 1 else if st.UpgradeDestination? then 2 else 3
  }

  lemma UnplannedStays(w: World, o: UpgradeOptions, log: Log, empty: Snapshot, c: Config)
    requires SnapshotOf(log, V5) == Some(empty) && empty.active == map[] && Unplanned(log, empty, c)
    ensures Unplanned(log, empty, UpgradeStep(w, c.0, o, c.1))
    ensures Progress(UpgradeStep(w, c.0, o, c.1).1) >= (if Progress(c.1) < 3 then Progress(c.1) + 1 else 3)
  {
  }

  lemma {:induction false} NoSourceRuns(w: World, o: UpgradeOptions, log: Log, empty: Snapshot, n: nat)
    requires SnapshotOf(log, V5) == Some(empty) && empty.active == map[]
    ensures Unplanned(log, empty, Iter(Alone(w, o), (log, UpgradeStart), n))
    ensures Progress(Iter(Alone(w, o), (log, UpgradeStart), n).1) >= if n < 3 then n else 3
    decreases n
  {
    if n > 0 {
      NoSourceRuns(w, o, log, empty, n - 1);
      IterNext(w, o, log, empty, n - 1, Iter(Alone(w, o), (log, UpgradeStart), n - 1));
    }
  }

  lemma IterNext(w: World, o: UpgradeOptions, log: Log, empty: Snapshot, n: nat, c: Config)
    requires SnapshotOf(log, V5) == Some(empty) && empty.active == map[] && Unplanned(log, empty, c)
    requires c == Iter(Alone(w, o), (log, UpgradeStart), n)
    ensures Iter(Alone(w, o), (log, UpgradeStart), n + 1) == UpgradeStep(w, c.0, o, c.1)
    ensures Unplanned(log, empty, UpgradeStep(w, c.0, o, c.1))
    ensures Progress(UpgradeStep(w, c.0, o, c.1).1) >= (if Progress(c.1) < 3 then Progress(c.1) + 1 else 3)
  {
    UnplannedStays(w, o, log, empty, c);
    assert Alone(w, o)(c) == UpgradeStep(w, c.0, o, c.1);
  }

  lemma NoSourceFails(w: World, o: UpgradeOptions, log: Log, n: nat)
    requires forall key :: key in Now(log) ==> key.version != V5
    ensures Iter(Alone(w, o), (log, UpgradeStart), n).0 == log
    ensures var st := Iter(Alone(w, o), (log, UpgradeStart), n).1;
      st != UpgradeDone && (n >= 3 ==> st == UpgradeFailed)
  {
    assert PointerTargets(Now(log), V5) == {};
    assert ActiveOf(Now(log), V5) == map[];
    var empty := Snapshot(Revision(log), map[]);
    assert SnapshotOf(log, V5) == Some(empty);
    NoSourceRuns(w, o, log, empty, n);
  }

  /** After the v5 keys are deleted another run is refused, after at most three requests, and writes nothing. */
  lemma RerunAfterDeleteWritesNothing(w: World, o: UpgradeOptions, log: Log, n: nat)
    ensures Iter(Alone(w, o), (RemoveOld(log), UpgradeStart), n).0 == RemoveOld(log)
    ensures var st := Iter(Alone(w, o), (RemoveOld(log), UpgradeStart), n).1;
      st != UpgradeDone && (n >= 3 ==> st == UpgradeFailed)
  {
    if RemoveOld(log) != log { NowAppend(log, DeleteOld); }
    NoSourceFails(w, o, RemoveOld(log), n);
  }
}
