/** What every step of every process keeps, and the safety of whole runs. */
module Safety {
  import opened Wrappers
  import opened Text
  import opened Etcd
  import opened Kinds
  import opened Machines

  // ---- facts about one view ----

  // Every stored v6 bundle decodes to its own generation.
  ghost predicate BundlesValid(w: World, view: View) {
    forall t, g :: Bundle(V6, t, g) in view ==> Valid(w, g, view[Bundle(V6, t, g)].value)
  }

  // The pointer of a target names an existing bundle that decodes to its generation.
  ghost predicate Intact(w: World, view: View, target: string)
    requires Active(V6, target) in view
  {
    var g := view[Active(V6, target)].value;
    Bundle(V6, target, g) in view && Valid(w, g, view[Bundle(V6, target, g)].value)
  }

  ghost predicate PointersIntact(w: World, view: View) {
    forall t :: Active(V6, t) in view ==> Intact(w, view, t)
  }

  // Pointers that still hold the value they were created with.
  ghost predicate CreatedIntact(w: World, view: View) {
    forall t :: Active(V6, t) in view && view[Active(V6, t)].create == view[Active(V6, t)].mod ==> Intact(w, view, t)
  }

  // What one process holds between its stage check and its commit: its bundle, unless the
  // target already has a pointer (only then can a pruner have removed the bundle).
  ghost predicate Held(log: Log, key: Key, data: string)
    requires key.Bundle?
  {
    Stored(log, key, data) || Active(V6, key.target) in Now(log)
  }

  ghost predicate Stored(log: Log, key: Key, data: string) {
    key in Now(log) && Now(log)[key].value == data
  }

  // ---- the writes the processes make ----

  // Bundles are written once and valid; a bundle is deleted only under an existing pointer
  // to another generation; v6 pointers are never deleted.
  ghost predicate Benign(w: World, log: Log, write: Write) {
    match write
    case Put(key, value) => key.version == V6 && key.Bundle? ==> Valid(w, key.generation, value) && key !in Now(log)
    case Delete(key) => key.version == V6 ==>
      key.Bundle? && Active(V6, key.target) in Now(log) && Now(log)[Active(V6, key.target)].value != key.generation
    case DeleteOld => true
  }

  ghost predicate Extends(w: World, log: Log, log': Log) {
    log' == log || (|log'| == |log| + 1 && log' == log + [log'[|log|]] && Benign(w, log, log'[|log|]))
  }

  // The write, if it moves a v6 pointer, names a stored bundle.
  ghost predicate Grounded(w: World, log: Log, write: Write) {
    PutsPointer(write) ==> exists data :: Stored(log, Bundle(V6, write.key.target, write.value), data) && Valid(w, write.value, data)
  }

  lemma BenignKeeps(w: World, log: Log, write: Write)
    requires Benign(w, log, write) && BundlesValid(w, Now(log))
    ensures BundlesValid(w, Now(log + [write]))
    ensures forall t :: Active(V6, t) in Now(log) ==> Active(V6, t) in Now(log + [write])
    ensures PointersIntact(w, Now(log)) && Grounded(w, log, write) ==> PointersIntact(w, Now(log + [write]))
    ensures CreatedIntact(w, Now(log)) && (Grounded(w, log, write) || (write.Put? && write.key in Now(log))) ==>
              CreatedIntact(w, Now(log + [write]))
  {
    NowAppend(log, write);
    var view, view' := Now(log), Now(log + [write]);
    forall t | Active(V6, t) in view && Intact(w, view, t) && write != Put(Active(V6, t), view'[Active(V6, t)].value)
      ensures Intact(w, view', t)
    {
      var key := Bundle(V6, t, view[Active(V6, t)].value);
      assert view'[Active(V6, t)].value == view[Active(V6, t)].value;
      assert key in view';
    }
    if write.Put? && write.key in view {
      CellBounds(log, write.key);
    }
  }

  // ---- what each process knows at each program point ----

  ghost predicate Committed(log: Log, pack: Pack, captured: Condition, commit: nat) {
    2 <= commit <= Revision(log) && log[commit - 2] == Put(Active(V6, pack.target), pack.generation) &&
    Holds(At(log, commit - 1), Active(V6, pack.target), captured) &&
    (captured.exists_ ==> captured.generation != pack.generation)
  }

  predicate Holding(st: PublishState) { st.PublishCapture? || st.PublishSwap? }

  ghost predicate PublishOk(w: World, log: Log, pack: Pack, st: PublishState) {
    (st.PublishStage? || st.PublishCheck? || Holding(st) ==> SafeName(pack.target) && Valid(w, pack.generation, pack.bundle)) &&
    (Holding(st) ==> Held(log, PackKey(pack), pack.bundle)) &&
    (st.PublishSwap? && st.captured.exists_ ==>
      st.captured.generation != pack.generation && st.captured.mod <= Revision(log)) &&
    (st.Published? ==> Committed(log, pack, st.captured, st.commit))
  }

  ghost predicate ActiveSeen(log: Log, active: map<string, Pointer>) {
    forall t :: t in active ==> Active(V6, t) in Now(log) && SafeName(active[t].generation)
  }

  ghost predicate RecordsSeen(log: Log, records: seq<Record>) {
    forall r :: r in records ==> Put(RecordKey(r), r.data) in log
  }

  ghost predicate PruneOk(log: Log, options: PruneOptions, st: PruneState) {
    (st.PruneList? || st.PruneRead? || st.PruneInspect? ==> options.retention >= 0) &&
    match st
    case PruneList(active) => ActiveSeen(log, active)
    case PruneRead(active, keys, records) =>
      ActiveSeen(log, active) && RecordsSeen(log, records) && (forall k :: k in keys ==> k.Bundle? && k.version == V6)
    case PruneInspect(active, records, _) => ActiveSeen(log, active) && RecordsSeen(log, records)
    case _ => true
  }

  // Where a planned target comes from: at the snapshot revision its v5 pointer had this
  // value and mod revision, and its new bundle converts the v5 bundle the pointer named.
  ghost predicate Planned(w: World, log: Log, revision: nat, t: TargetPlan) {
    1 <= revision <= Revision(log) &&
    var view := At(log, revision);
    Active(V5, t.id) in view && PointerOf(view[Active(V5, t.id)]) == Pointer(t.sourceGeneration, t.sourceMod) &&
    Bundle(V5, t.id, t.sourceGeneration) in view &&
    w.convert(t.sourceGeneration, view[Bundle(V5, t.id, t.sourceGeneration)].value, t.kind)
      == Some(Converted(t.resultGeneration, t.bundle))
  }

  ghost predicate PlanOk(w: World, log: Log, plan: Plan) {
    forall t :: t in plan.targets ==> Planned(w, log, plan.revision, t)
  }

  ghost predicate SourceSeen(log: Log, source: Snapshot) {
    1 <= source.revision <= Revision(log) &&
    forall t :: t in source.active ==>
      Active(V5, t) in At(log, source.revision) &&
      PointerOf(At(log, source.revision)[Active(V5, t)]) == source.active[t]
  }

  predicate PastStage(phase: Phase) { phase.Sourcing? || phase.Probing? || phase.Committing? }

  ghost predicate UpgradeOk(w: World, log: Log, st: UpgradeState) {
    match st
    case UpgradeDestination(source) => SourceSeen(log, source)
    case UpgradeTarget(plan, next, phase) =>
      PlanOk(w, log, plan) && next < |plan.targets| &&
      (PastStage(phase) ==> Held(log, PlanKey(plan.targets[next]), plan.targets[next].bundle))
    case _ => true
  }

  ghost predicate ProcessOk(w: World, log: Log, p: Process) {
    match p
    case PublishProcess(pack, st) => PublishOk(w, log, pack, st)
    case PruneProcess(options, st) => PruneOk(log, options, st)
    case UpgradeProcess(options, st) => UpgradeOk(w, log, st) && UpgradeKnows(log, options, st)
  }

  // ---- what an upgrader has asked for and seen ----

  ghost predicate TypesAsked(options: UpgradeOptions, plan: Plan) {
    forall t :: t in plan.targets ==> AskedKind(options, t.id, t.kind)
  }

  // A snapshot the log has had.
  ghost predicate Had(log: Log, version: Version, snapshot: Snapshot) {
    1 <= snapshot.revision <= Revision(log) && SnapshotOf(log[..snapshot.revision - 1], version) == Some(snapshot)
  }

  // The v5 pointer at one revision, and the v6 pointer at another, are as planned.
  ghost predicate PointersSeen(log: Log, r5: nat, r6: nat, t: TargetPlan) {
    1 <= r5 <= r6 <= Revision(log) &&
    Active(V5, t.id) in At(log, r5) && TrimSpace(At(log, r5)[Active(V5, t.id)].value) == t.sourceGeneration &&
    At(log, r5)[Active(V5, t.id)].mod == t.sourceMod &&
    Active(V6, t.id) in At(log, r6) && TrimSpace(At(log, r6)[Active(V6, t.id)].value) == t.resultGeneration
  }

  ghost predicate BundleSeen(log: Log, r: nat, t: TargetPlan) {
    1 <= r <= Revision(log) && Bundle(V6, t.id, t.resultGeneration) in At(log, r) &&
    At(log, r)[Bundle(V6, t.id, t.resultGeneration)].value == t.bundle
  }

  ghost predicate TargetSeen(log: Log, r5: nat, r6: nat, t: TargetPlan) {
    PointersSeen(log, r5, r6, t) && exists r :: r6 <= r && BundleSeen(log, r, t)
  }

  ghost predicate SeenUpTo(log: Log, plan: Plan, r5: nat, r6: nat, next: nat) {
    1 <= r5 <= r6 <= Revision(log) && |PointerTargets(At(log, r5), V5)| == |plan.targets| == |PointerTargets(At(log, r6), V6)| &&
    forall j :: 0 <= j < next && j < |plan.targets| ==> TargetSeen(log, r5, r6, plan.targets[j])
  }

  // Both sets of pointers had as many members as the plan, and each of its targets was seen as planned.
  ghost predicate AllSeen(log: Log, plan: Plan) {
    exists r5, r6 :: SeenUpTo(log, plan, r5, r6, |plan.targets|)
  }

  ghost predicate Looking(log: Log, plan: Plan, source: Snapshot, destination: Snapshot, next: nat) {
    Had(log, V5, source) && Had(log, V6, destination) && SeenUpTo(log, plan, source.revision, destination.revision, next)
  }

  // The first n targets of the plan are in the log: each bundle, and each pointer but those found in place.
  ghost predicate TargetWritten(log: Log, t: TargetPlan) {
    Put(PlanKey(t), t.bundle) in log && (!t.alreadyMigrated ==> Put(Active(V6, t.id), t.resultGeneration) in log)
  }

  ghost predicate WrittenUpTo(log: Log, plan: Plan, n: nat) {
    forall j :: 0 <= j < n && j < |plan.targets| ==> TargetWritten(log, plan.targets[j])
  }

  ghost predicate AtTarget(log: Log, plan: Plan, next: nat, phase: Phase) {
    next < |plan.targets| && WrittenUpTo(log, plan, next) &&
    (PastStage(phase) ==> !plan.targets[next].alreadyMigrated && Put(PlanKey(plan.targets[next]), plan.targets[next].bundle) in log)
  }

  ghost predicate UpgradeKnows(log: Log, options: UpgradeOptions, st: UpgradeState) {
    match st
    case UpgradeTarget(plan, next, phase) => TypesAsked(options, plan) && AtTarget(log, plan, next, phase)
    case VerifySource(plan) => TypesAsked(options, plan) && WrittenUpTo(log, plan, |plan.targets|)
    case VerifyDestination(plan, source) =>
      TypesAsked(options, plan) && WrittenUpTo(log, plan, |plan.targets|) && Had(log, V5, source)
    case VerifyTarget(plan, source, destination, next) =>
      TypesAsked(options, plan) && WrittenUpTo(log, plan, |plan.targets|) && Looking(log, plan, source, destination, next)
    case DeleteSource(plan) =>
      TypesAsked(options, plan) && WrittenUpTo(log, plan, |plan.targets|) && AllSeen(log, plan) && options.deleteOld
    case _ => true
  }

  lemma HadStable(log: Log, write: Write, version: Version, snapshot: Snapshot)
    requires Had(log, version, snapshot)
    ensures Had(log + [write], version, snapshot)
  {
    assert (log + [write])[..snapshot.revision - 1] == log[..snapshot.revision - 1];
  }

  lemma TargetSeenStable(log: Log, write: Write, r5: nat, r6: nat, t: TargetPlan)
    requires TargetSeen(log, r5, r6, t)
    ensures TargetSeen(log + [write], r5, r6, t)
  {
    AtAppend(log, write, r5);
    AtAppend(log, write, r6);
    var r :| r6 <= r && BundleSeen(log, r, t);
    AtAppend(log, write, r);
    assert BundleSeen(log + [write], r, t);
  }

  lemma SeenStable(log: Log, write: Write, plan: Plan, r5: nat, r6: nat, next: nat)
    requires SeenUpTo(log, plan, r5, r6, next)
    ensures SeenUpTo(log + [write], plan, r5, r6, next)
  {
    AtAppend(log, write, r5);
    AtAppend(log, write, r6);
    forall j | 0 <= j < next && j < |plan.targets| ensures TargetSeen(log + [write], r5, r6, plan.targets[j]) {
      TargetSeenStable(log, write, r5, r6, plan.targets[j]);
    }
  }

  lemma WrittenStable(log: Log, write: Write, plan: Plan, n: nat)
    requires WrittenUpTo(log, plan, n)
    ensures WrittenUpTo(log + [write], plan, n)
  {
    forall j | 0 <= j < n && j < |plan.targets| ensures TargetWritten(log + [write], plan.targets[j]) {
      assert TargetWritten(log, plan.targets[j]);
    }
  }

  lemma AllSeenStable(log: Log, write: Write, plan: Plan)
    requires AllSeen(log, plan)
    ensures AllSeen(log + [write], plan)
  {
    var r5, r6 :| SeenUpTo(log, plan, r5, r6, |plan.targets|);
    SeenStable(log, write, plan, r5, r6, |plan.targets|);
  }

  lemma LookingStable(log: Log, write: Write, plan: Plan, source: Snapshot, destination: Snapshot, next: nat)
    requires Looking(log, plan, source, destination, next)
    ensures Looking(log + [write], plan, source, destination, next)
  {
    HadStable(log, write, V5, source);
    HadStable(log, write, V6, destination);
    SeenStable(log, write, plan, source.revision, destination.revision, next);
  }

  lemma KnowsStable(log: Log, write: Write, options: UpgradeOptions, st: UpgradeState)
    requires UpgradeKnows(log, options, st)
    ensures UpgradeKnows(log + [write], options, st)
  {
    match st
    case UpgradeTarget(plan, next, _) => WrittenStable(log, write, plan, next);
    case VerifySource(plan) => WrittenStable(log, write, plan, |plan.targets|);
    case VerifyDestination(plan, source) =>
      WrittenStable(log, write, plan, |plan.targets|);
      HadStable(log, write, V5, source);
    case VerifyTarget(plan, source, destination, next) =>
      WrittenStable(log, write, plan, |plan.targets|);
      LookingStable(log, write, plan, source, destination, next);
    case DeleteSource(plan) =>
      WrittenStable(log, write, plan, |plan.targets|);
      AllSeenStable(log, write, plan);
    case _ =>
  }

  // ---- and what it sees next ----

  lemma HadNow(log: Log, version: Version)
    requires SnapshotOf(log, version).Some?
    ensures Had(log, version, SnapshotOf(log, version).value)
    ensures SnapshotOf(log, version).value.active.Keys == PointerTargets(Now(log), version)
  {
    assert log[..|log|] == log;
  }

  lemma HadPointer(log: Log, version: Version, snapshot: Snapshot, t: string)
    requires Had(log, version, snapshot) && t in snapshot.active
    ensures Active(version, t) in At(log, snapshot.revision)
    ensures PointerOf(At(log, snapshot.revision)[Active(version, t)]) == snapshot.active[t]
  {
    SnapshotAt(log[..snapshot.revision - 1], version, t);
  }

  lemma LooksAtDestination(log: Log, plan: Plan, source: Snapshot, destination: Snapshot)
    requires Had(log, V5, source) && SnapshotOf(log, V6) == Some(destination)
    requires |source.active| == |plan.targets| == |destination.active|
    ensures Looking(log, plan, source, destination, 0)
  {
    HadNow(log, V6);
    AtNow(log);
    HadNow(log[..source.revision - 1], V5);
    assert source.active.Keys == PointerTargets(At(log, source.revision), V5);
    assert |source.active.Keys| == |source.active| && |destination.active.Keys| == |destination.active|;
  }

  lemma LooksAtTarget(log: Log, plan: Plan, source: Snapshot, destination: Snapshot, next: nat)
    requires Looking(log, plan, source, destination, next) && next < |plan.targets|
    requires Verified(Now(log), plan.targets[next], source.active, destination.active)
    ensures Looking(log, plan, source, destination, next + 1)
  {
    var t := plan.targets[next];
    HadPointer(log, V5, source, t.id);
    HadPointer(log, V6, destination, t.id);
    AtNow(log);
    assert BundleSeen(log, Revision(log), t);
    assert TargetSeen(log, source.revision, destination.revision, t);
  }

  lemma VerifyKnows(w: World, log: Log, options: UpgradeOptions, st: UpgradeState)
    requires st.VerifySource? || st.VerifyDestination? || st.VerifyTarget?
    requires UpgradeKnows(log, options, st)
    ensures UpgradeStep(w, log, options, st).0 == log
    ensures UpgradeKnows(log, options, UpgradeStep(w, log, options, st).1)
  {
    match st
    case VerifySource(_) => if SnapshotOf(log, V5).Some? { HadNow(log, V5); }
    case VerifyDestination(plan, source) =>
      if SnapshotOf(log, V6).Some? && |source.active| == |plan.targets| == |SnapshotOf(log, V6).value.active| {
        LooksAtDestination(log, plan, source, SnapshotOf(log, V6).value);
      }
    case VerifyTarget(plan, source, destination, next) =>
      if next >= |plan.targets| {
        assert SeenUpTo(log, plan, source.revision, destination.revision, |plan.targets|);
      } else if Verified(Now(log), plan.targets[next], source.active, destination.active) {
        LooksAtTarget(log, plan, source, destination, next);
      }
  }

  lemma PlanAsked(w: World, log: Log, options: UpgradeOptions, source: Snapshot, destination: Snapshot)
    requires BuildPlan(w, log, options, source, destination).Some?
    ensures TypesAsked(options, BuildPlan(w, log, options, source, destination).value)
  {
    var ids := Sorted(source.active.Keys);
    var plan := BuildPlan(w, log, options, source, destination).value;
    PlanTargetsEach(w, options, At(log, source.revision), source.active, destination.active, ids);
    forall t | t in plan.targets ensures AskedKind(options, t.id, t.kind) {
      var i :| 0 <= i < |plan.targets| && plan.targets[i] == t;
      assert PlanTarget(w, options, At(log, source.revision), ids[i], source.active[ids[i]], Captured(destination.active, ids[i])) == Some(t);
    }
  }

  lemma WrittenNext(log: Log, log': Log, plan: Plan, next: nat)
    requires log <= log' && WrittenUpTo(log, plan, next) && next < |plan.targets| && TargetWritten(log', plan.targets[next])
    ensures WrittenUpTo(log', plan, next + 1)
  {
    forall j | 0 <= j < next + 1 ensures TargetWritten(log', plan.targets[j]) {
      if j < next { assert TargetWritten(log, plan.targets[j]); }
    }
  }

  // The bundle is stored once the target has been staged, or compared.
  lemma StageKnows(log: Log, plan: Plan, next: nat, phase: Phase)
    requires AtTarget(log, plan, next, phase) && (phase.Staging? || phase.Checking?)
    ensures var (log', st') := TargetStep(log, plan, next, phase);
      log <= log' &&
      ((st'.UpgradeTarget? && st'.phase.Checking?) || st'.UpgradeFailed? ||
       Put(PlanKey(plan.targets[next]), plan.targets[next].bundle) in log')
  {
    var t := plan.targets[next];
    if phase.Checking? && PlanKey(t) in Now(log) { StoredWasPut(log, PlanKey(t)); }
  }

  lemma TargetKnows(log: Log, options: UpgradeOptions, plan: Plan, next: nat, phase: Phase)
    requires TypesAsked(options, plan) && AtTarget(log, plan, next, phase)
    ensures UpgradeKnows(TargetStep(log, plan, next, phase).0, options, TargetStep(log, plan, next, phase).1)
  {
    var log', st' := TargetStep(log, plan, next, phase).0, TargetStep(log, plan, next, phase).1;
    if phase.Staging? || phase.Checking? { StageKnows(log, plan, next, phase); }
    if st' == StartTarget(plan, next + 1) { WrittenNext(log, log', plan, next); }
  }

  lemma DestinationKnows(w: World, log: Log, options: UpgradeOptions, source: Snapshot)
    ensures UpgradeKnows(log, options, UpgradeStep(w, log, options, UpgradeDestination(source)).1)
  {
    if SnapshotOf(log, V6).Some? && BuildPlan(w, log, options, source, SnapshotOf(log, V6).value).Some? {
      PlanAsked(w, log, options, source, SnapshotOf(log, V6).value);
    }
  }

  lemma StepKnows(w: World, log: Log, options: UpgradeOptions, st: UpgradeState)
    requires UpgradeKnows(log, options, st)
    ensures UpgradeKnows(UpgradeStep(w, log, options, st).0, options, UpgradeStep(w, log, options, st).1)
  {
    match st
    case UpgradeDestination(source) => DestinationKnows(w, log, options, source);
    case UpgradeTarget(plan, next, phase) => TargetKnows(log, options, plan, next, phase);
    case VerifySource(_) => VerifyKnows(w, log, options, st);
    case VerifyDestination(_, _) => VerifyKnows(w, log, options, st);
    case VerifyTarget(_, _, _, _) => VerifyKnows(w, log, options, st);
    case _ =>
  }

  // ---- stability: no write by anyone else breaks what a process knows ----

  lemma HeldStable(w: World, log: Log, write: Write, key: Key, data: string)
    requires Benign(w, log, write) && key.Bundle? && key.version == V6 && Held(log, key, data)
    ensures Held(log + [write], key, data)
  {
    NowAppend(log, write);
  }

  lemma PlannedStable(w: World, log: Log, write: Write, revision: nat, t: TargetPlan)
    requires Planned(w, log, revision, t)
    ensures Planned(w, log + [write], revision, t)
  {
    AtAppend(log, write, revision);
  }

  lemma ProcessStable(w: World, log: Log, write: Write, p: Process)
    requires Benign(w, log, write) && ProcessOk(w, log, p)
    ensures ProcessOk(w, log + [write], p)
  {
    NowAppend(log, write);
    match p
    case PublishProcess(pack, st) =>
      if Holding(st) { HeldStable(w, log, write, PackKey(pack), pack.bundle); }
      if st.Published? { AtAppend(log, write, st.commit - 1); }
    case PruneProcess(_, st) =>
    case UpgradeProcess(options, st) =>
      KnowsStable(log, write, options, st);
      match st
      case UpgradeDestination(source) => AtAppend(log, write, source.revision);
      case UpgradeTarget(plan, next, phase) =>
        forall t | t in plan.targets ensures Planned(w, log + [write], plan.revision, t) {
          PlannedStable(w, log, write, plan.revision, t);
        }
        if PastStage(phase) { HeldStable(w, log, write, PlanKey(plan.targets[next]), plan.targets[next].bundle); }
      case _ =>
  }

  // ---- each step keeps what its process knows and writes benignly ----

  lemma PublishKeeps(w: World, log: Log, pack: Pack, st: PublishState)
    requires PublishOk(w, log, pack, st)
    ensures var (log', st') := PublishStep(w, log, pack, st);
      Extends(w, log, log') && PublishOk(w, log', pack, st')
  {
    NowAppend(log, Put(PackKey(pack), pack.bundle));
    if st.PublishCapture? && Active(V6, pack.target) in Now(log) { CellBounds(log, Active(V6, pack.target)); }
    if st.PublishSwap? && Holds(Now(log), Active(V6, pack.target), st.captured) { SwapCommits(log, pack, st.captured); }
  }

  lemma SwapCommits(log: Log, pack: Pack, captured: Condition)
    requires Holds(Now(log), Active(V6, pack.target), captured) && (captured.exists_ ==> captured.generation != pack.generation)
    ensures Committed(Swap(log, Active(V6, pack.target), pack.generation, captured), pack, captured, Revision(log) + 1)
  {
    AtNow(log);
    AtAppend(log, Put(Active(V6, pack.target), pack.generation), Revision(log));
  }

  lemma StoredWasPut(log: Log, key: Key)
    requires key in Now(log)
    ensures Put(key, Now(log)[key].value) in log
  {
    CellBounds(log, key);
  }

  lemma PruneKeeps(w: World, log: Log, options: PruneOptions, st: PruneState, order: seq<Key>)
    requires PruneOk(log, options, st)
    ensures var (log', st') := PruneStep(w, log, options, st, order);
      Extends(w, log, log') && PruneOk(log', options, st')
  {
    match st
    case PruneStart =>
      if SnapshotOf(log, V6).Some? {
        forall t | t in SnapshotOf(log, V6).value.active ensures Active(V6, t) in Now(log) && SafeName(SnapshotOf(log, V6).value.active[t].generation) {
          SnapshotAt(log, V6, t);
        }
      }
    case PruneRead(active, keys, records) =>
      if keys != [] && keys[0] in Now(log) {
        StoredWasPut(log, keys[0]);
        assert keys[0] in keys;
      }
    case PruneInspect(active, records, result) =>
      if records != [] {
        NowAppend(log, Delete(RecordKey(records[0])));
      }
    case _ =>
  }

  lemma PlanTargetPlanned(w: World, log: Log, options: UpgradeOptions, revision: nat, id: string, source: Pointer,
                          destination: Option<Pointer>)
    requires 1 <= revision <= Revision(log) && Active(V5, id) in At(log, revision)
    requires PointerOf(At(log, revision)[Active(V5, id)]) == source
    requires PlanTarget(w, options, At(log, revision), id, source, destination).Some?
    ensures Planned(w, log, revision, PlanTarget(w, options, At(log, revision), id, source, destination).value)
  {
  }

  lemma {:induction false} PlanTargetsEach(w: World, options: UpgradeOptions, view: View, source: map<string, Pointer>,
                                            destination: map<string, Pointer>, ids: seq<string>)
    requires forall id :: id in ids ==> id in source
    requires PlanTargets(w, options, view, source, destination, ids).Some?
    ensures var targets := PlanTargets(w, options, view, source, destination, ids).value;
      |targets| == |ids| &&
      forall i :: 0 <= i < |ids| ==>
        PlanTarget(w, options, view, ids[i], source[ids[i]], Captured(destination, ids[i])) == Some(targets[i])
  {
    if ids != [] {
      PlanTargetsEach(w, options, view, source, destination, ids[..|ids| - 1]);
    }
  }

  lemma BuildPlanned(w: World, log: Log, options: UpgradeOptions, source: Snapshot, destination: Snapshot)
    requires SourceSeen(log, source) && BuildPlan(w, log, options, source, destination).Some?
    ensures PlanOk(w, log, BuildPlan(w, log, options, source, destination).value)
    ensures |BuildPlan(w, log, options, source, destination).value.targets| == |source.active.Keys| > 0
  {
    var ids := Sorted(source.active.Keys);
    var plan := BuildPlan(w, log, options, source, destination).value;
    assert source.active.Keys != {};
    PlanTargetsEach(w, options, At(log, source.revision), source.active, destination.active, ids);
    forall t | t in plan.targets ensures Planned(w, log, plan.revision, t) {
      var i :| 0 <= i < |plan.targets| && plan.targets[i] == t;
      assert ids[i] in source.active;
      PlanTargetPlanned(w, log, options, source.revision, ids[i], source.active[ids[i]], Captured(destination.active, ids[i]));
    }
  }

  lemma PlanStable(w: World, log: Log, write: Write, plan: Plan)
    requires PlanOk(w, log, plan)
    ensures PlanOk(w, log + [write], plan)
  {
    forall t | t in plan.targets ensures Planned(w, log + [write], plan.revision, t) {
      PlannedStable(w, log, write, plan.revision, t);
    }
  }

  lemma PlannedValid(w: World, log: Log, plan: Plan, next: nat)
    requires WorldOk(w) && PlanOk(w, log, plan) && next < |plan.targets|
    ensures Valid(w, plan.targets[next].resultGeneration, plan.targets[next].bundle)
  {
    assert Planned(w, log, plan.revision, plan.targets[next]);
  }

  lemma TargetKeeps(w: World, log: Log, plan: Plan, next: nat, phase: Phase)
    requires PlanOk(w, log, plan) && next < |plan.targets|
    requires Valid(w, plan.targets[next].resultGeneration, plan.targets[next].bundle)
    requires PastStage(phase) ==> Held(log, PlanKey(plan.targets[next]), plan.targets[next].bundle)
    ensures var (log', st') := TargetStep(log, plan, next, phase);
      Extends(w, log, log') && PlanOk(w, log', plan) &&
      (st'.UpgradeTarget? ==>
        st'.plan == plan && st'.next < |plan.targets| &&
        (PastStage(st'.phase) ==> Held(log', PlanKey(plan.targets[st'.next]), plan.targets[st'.next].bundle)))
  {
    var t := plan.targets[next];
    if phase.Staging? {
      NowAppend(log, Put(PlanKey(t), t.bundle));
      PlanStable(w, log, Put(PlanKey(t), t.bundle), plan);
    } else if phase.Committing? {
      PlanStable(w, log, Put(Active(V6, t.id), t.resultGeneration), plan);
    }
  }

  lemma SnapshotSeen(log: Log)
    requires SnapshotOf(log, V5).Some?
    ensures SourceSeen(log, SnapshotOf(log, V5).value)
  {
    AtNow(log);
    forall t | t in SnapshotOf(log, V5).value.active
      ensures Active(V5, t) in Now(log) && PointerOf(Now(log)[Active(V5, t)]) == SnapshotOf(log, V5).value.active[t]
    {
      SnapshotAt(log, V5, t);
    }
  }

  lemma DestinationKeeps(w: World, log: Log, options: UpgradeOptions, source: Snapshot)
    requires SourceSeen(log, source)
    requires SnapshotOf(log, V6).Some? && BuildPlan(w, log, options, source, SnapshotOf(log, V6).value).Some?
    ensures UpgradeOk(w, log, StartTarget(BuildPlan(w, log, options, source, SnapshotOf(log, V6).value).value, 0))
  {
    BuildPlanned(w, log, options, source, SnapshotOf(log, V6).value);
  }

  lemma UpgradeKeeps(w: World, log: Log, options: UpgradeOptions, st: UpgradeState)
    requires WorldOk(w) && UpgradeOk(w, log, st)
    ensures var (log', st') := UpgradeStep(w, log, options, st);
      Extends(w, log, log') && UpgradeOk(w, log', st')
  {
    match st
    case UpgradeSource =>
      if SnapshotOf(log, V5).Some? { SnapshotSeen(log); }
    case UpgradeDestination(source) =>
      if SnapshotOf(log, V6).Some? && BuildPlan(w, log, options, source, SnapshotOf(log, V6).value).Some? {
        DestinationKeeps(w, log, options, source);
      }
    case UpgradeTarget(plan, next, phase) =>
      PlannedValid(w, log, plan, next);
      TargetKeeps(w, log, plan, next, phase);
    case _ =>
  }

  // ---- the system ----

  ghost predicate SystemOk(w: World, s: System) {
    BundlesValid(w, Now(s.log)) && forall p :: p in s.processes ==> ProcessOk(w, s.log, p)
  }

  lemma ProcessKeeps(w: World, log: Log, p: Process, order: seq<Key>)
    requires WorldOk(w) && ProcessOk(w, log, p)
    ensures var (log', p') := ProcessStep(w, log, p, order);
      Extends(w, log, log') && ProcessOk(w, log', p')
  {
    match p
    case PublishProcess(pack, st) => PublishKeeps(w, log, pack, st);
    case PruneProcess(options, st) => PruneKeeps(w, log, options, st, order);
    case UpgradeProcess(options, st) =>
      UpgradeKeeps(w, log, options, st);
      StepKnows(w, log, options, st);
  }

  lemma OthersKeep(w: World, s: System, write: Write)
    requires Benign(w, s.log, write) && forall p :: p in s.processes ==> ProcessOk(w, s.log, p)
    ensures forall i :: 0 <= i < |s.processes| ==> ProcessOk(w, s.log + [write], s.processes[i])
  {
    forall i | 0 <= i < |s.processes| ensures ProcessOk(w, s.log + [write], s.processes[i]) {
      assert s.processes[i] in s.processes;
      ProcessStable(w, s.log, write, s.processes[i]);
    }
  }

  lemma AdvanceKeeps(w: World, rogue: bool, s: System, step: Step)
    requires WorldOk(w) && SystemOk(w, s)
    ensures SystemOk(w, Advance(w, rogue, s, step))
    ensures Extends(w, s.log, Advance(w, rogue, s, step).log)
  {
    match step
    case Move(id, order) =>
      if id < |s.processes| {
        assert s.processes[id] in s.processes;
        var (log, p) := ProcessStep(w, s.log, s.processes[id], order);
        ProcessKeeps(w, s.log, s.processes[id], order);
        if log != s.log {
          BenignKeeps(w, s.log, log[|s.log|]);
          OthersKeep(w, s, log[|s.log|]);
        }
      }
    case Outside(write) =>
      if OutsideAllowed(rogue, write) {
        BenignKeeps(w, s.log, write);
        OthersKeep(w, s, write);
      }
  }

  lemma {:induction false} RunKeeps(w: World, rogue: bool, s: System, steps: seq<Step>)
    requires WorldOk(w) && SystemOk(w, s)
    ensures SystemOk(w, Run(w, rogue, s, steps))
    decreases |steps|
  {
    if steps != [] {
      RunKeeps(w, rogue, s, steps[..|steps| - 1]);
      AdvanceKeeps(w, rogue, Run(w, rogue, s, steps[..|steps| - 1]), steps[|steps| - 1]);
    }
  }

  // ---- commits that create a pointer ----

  // An upgrader's commit, from what it knows just before: the target has no v6 pointer yet,
  // so the bundle it staged is still stored.
  lemma CommitGrounded(w: World, log: Log, plan: Plan, next: nat)
    requires next < |plan.targets|
    requires Valid(w, plan.targets[next].resultGeneration, plan.targets[next].bundle)
    requires Held(log, PlanKey(plan.targets[next]), plan.targets[next].bundle)
    requires TargetStep(log, plan, next, Committing).0 != log
    ensures var t := plan.targets[next];
      TargetStep(log, plan, next, Committing).0 == log + [Put(Active(V6, t.id), t.resultGeneration)] &&
      Holds(Now(log), Active(V5, t.id), SourceCondition(t)) &&
      Grounded(w, log, Put(Active(V6, t.id), t.resultGeneration)) &&
      Stored(log, PlanKey(t), t.bundle) && Active(V6, t.id) !in Now(log)
  {
  }

  // The put a process makes on a v6 pointer names a stored bundle if it creates the pointer.
  lemma CreationGrounded(w: World, log: Log, p: Process, order: seq<Key>)
    requires WorldOk(w) && ProcessOk(w, log, p)
    requires |ProcessStep(w, log, p, order).0| > |log|
    ensures var write := ProcessStep(w, log, p, order).0[|log|];
      PutsPointer(write) && write.key !in Now(log) ==> Grounded(w, log, write)
  {
    match p
    case PublishProcess(pack, st) =>
      assert st.PublishSwap? && !st.captured.exists_ && Active(V6, pack.target) !in Now(log) ==>
        Stored(log, PackKey(pack), pack.bundle);
    case PruneProcess(_, _) =>
    case UpgradeProcess(options, st) =>
      match st
      case UpgradeTarget(plan, next, phase) =>
        if phase.Committing? {
          PlannedValid(w, log, plan, next);
          CommitGrounded(w, log, plan, next);
        }
      case _ =>
  }

  lemma AdvanceKeepsCreated(w: World, s: System, step: Step)
    requires WorldOk(w) && SystemOk(w, s) && CreatedIntact(w, Now(s.log))
    ensures CreatedIntact(w, Now(Advance(w, false, s, step).log))
  {
    var s' := Advance(w, false, s, step);
    AdvanceKeeps(w, false, s, step);
    if s'.log != s.log {
      var write := s'.log[|s.log|];
      if step.Move? {
        assert s.processes[step.id] in s.processes;
        CreationGrounded(w, s.log, s.processes[step.id], step.order);
      }
      BenignKeeps(w, s.log, write);
    }
  }

  /** A pointer that still has the value it was created with never dangles, whatever the
      clocks and retentions of the pruners and however the processes interleave. */
  lemma {:induction false} CreatedNeverDangle(w: World, s: System, steps: seq<Step>)
    requires WorldOk(w) && SystemOk(w, s) && CreatedIntact(w, Now(s.log))
    ensures CreatedIntact(w, Now(Run(w, false, s, steps).log))
    decreases |steps|
  {
    if steps != [] {
      CreatedNeverDangle(w, s, steps[..|steps| - 1]);
      RunKeeps(w, false, s, steps[..|steps| - 1]);
      AdvanceKeepsCreated(w, Run(w, false, s, steps[..|steps| - 1]), steps[|steps| - 1]);
    }
  }

  // From the plan's snapshot revision on, the v5 pointer held one unchanged cell; the bundle
  // stored under the new generation converts the v5 bundle that cell named then.
  ghost predicate FaithfulCommit(w: World, log: Log, revision: nat, t: TargetPlan) {
    var source := Active(V5, t.id);
    1 <= revision <= Revision(log) && source in Now(log) && Now(log)[source].value == t.sourceGeneration &&
    (forall r :: revision <= r <= Revision(log) ==> source in At(log, r) && At(log, r)[source] == Now(log)[source]) &&
    Bundle(V5, t.id, t.sourceGeneration) in At(log, revision) &&
    w.convert(t.sourceGeneration, At(log, revision)[Bundle(V5, t.id, t.sourceGeneration)].value, t.kind)
      == Some(Converted(t.resultGeneration, t.bundle)) &&
    Stored(log, Bundle(V6, t.id, t.resultGeneration), t.bundle)
  }

  lemma SourceUnchanged(w: World, log: Log, revision: nat, t: TargetPlan, r: nat)
    requires Planned(w, log, revision, t) && Holds(Now(log), Active(V5, t.id), SourceCondition(t))
    requires revision <= r <= Revision(log)
    ensures Active(V5, t.id) in At(log, r) && At(log, r)[Active(V5, t.id)] == Now(log)[Active(V5, t.id)]
  {
    CellBounds(log[..revision - 1], Active(V5, t.id));
    ModFreezes(log, Active(V5, t.id), r);
  }

  lemma CommitFaithful(w: World, log: Log, plan: Plan, next: nat)
    requires WorldOk(w) && PlanOk(w, log, plan) && next < |plan.targets|
    requires Held(log, PlanKey(plan.targets[next]), plan.targets[next].bundle)
    requires TargetStep(log, plan, next, Committing).0 != log
    ensures FaithfulCommit(w, log, plan.revision, plan.targets[next])
  {
    var t := plan.targets[next];
    PlannedValid(w, log, plan, next);
    CommitGrounded(w, log, plan, next);
    assert Planned(w, log, plan.revision, t);
    forall r | plan.revision <= r <= Revision(log)
      ensures Active(V5, t.id) in At(log, r) && At(log, r)[Active(V5, t.id)] == Now(log)[Active(V5, t.id)]
    {
      SourceUnchanged(w, log, plan.revision, t, r);
    }
  }

  /** Every commit of an upgrader is faithful, with anything rewriting v5 keys and v6 pointers
      around it: the source cannot have moved between the plan's snapshot and the commit. */
  lemma UpgradeCommitsFaithfully(w: World, rogue: bool, s: System, steps: seq<Step>, id: nat, order: seq<Key>)
    requires WorldOk(w) && SystemOk(w, s)
    requires var r := Run(w, rogue, s, steps);
      id < |r.processes| && r.processes[id].UpgradeProcess? &&
      |Advance(w, rogue, r, Move(id, order)).log| > |r.log| &&
      PutsPointer(Advance(w, rogue, r, Move(id, order)).log[|r.log|])
    ensures var r := Run(w, rogue, s, steps);
      var st := r.processes[id].upgrade;
      st.UpgradeTarget? && st.next < |st.plan.targets| &&
      FaithfulCommit(w, r.log, st.plan.revision, st.plan.targets[st.next]) &&
      AskedKind(r.processes[id].upgradeOptions, st.plan.targets[st.next].id, st.plan.targets[st.next].kind) &&
      Advance(w, rogue, r, Move(id, order)).log ==
        r.log + [Put(Active(V6, st.plan.targets[st.next].id), st.plan.targets[st.next].resultGeneration)]
  {
    RunKeeps(w, rogue, s, steps);
    var run := Run(w, rogue, s, steps);
    assert run.processes[id] in run.processes;
    var st := run.processes[id].upgrade;
    assert UpgradeOk(w, run.log, st) && TypesAsked(run.processes[id].upgradeOptions, st.plan);
    CommitFaithful(w, run.log, st.plan, st.next);
  }

  /** The v5 keys are only deleted by an upgrader that was asked to, that planned the types it was asked for, whose every
      bundle and, but for those it found in place, every pointer has been put, and that has, at revisions of this log, seen as many pointers of both versions as it planned and every target as planned: the v5 pointer, then the
      v6 pointer, then the bundle. */
  lemma DeletesOnlyWhatItSaw(w: World, rogue: bool, s: System, steps: seq<Step>, id: nat, order: seq<Key>)
    requires WorldOk(w) && SystemOk(w, s)
    requires var r := Run(w, rogue, s, steps);
      id < |r.processes| && r.processes[id].UpgradeProcess? &&
      |Advance(w, rogue, r, Move(id, order)).log| > |r.log| &&
      Advance(w, rogue, r, Move(id, order)).log[|r.log|] == DeleteOld
    ensures var r := Run(w, rogue, s, steps);
      var o, st := r.processes[id].upgradeOptions, r.processes[id].upgrade;
      st.DeleteSource? && o.deleteOld && AllSeen(r.log, st.plan) && WrittenUpTo(r.log, st.plan, |st.plan.targets|) && forall t :: t in st.plan.targets ==> AskedKind(o, t.id, t.kind)
  {
    RunKeeps(w, rogue, s, steps);
    var run := Run(w, rogue, s, steps);
    assert ProcessOk(w, run.log, run.processes[id]);
    OnlyDeletes(w, run.log, run.processes[id].upgradeOptions, run.processes[id].upgrade);
  }

  lemma OnlyDeletes(w: World, log: Log, options: UpgradeOptions, st: UpgradeState)
    requires |UpgradeStep(w, log, options, st).0| > |log| && UpgradeStep(w, log, options, st).0[|log|] == DeleteOld
    ensures st.DeleteSource?
  {
  }

  // ---- no pointer dangles, at any revision ----

  predicate PastRetention(w: World, options: PruneOptions, data: string) {
    options.delete && options.retention >= 0 && w.decode(data).Some? &&
    var info := w.decode(data).value;
    info.kind != TRUST && info.notAfter != [] && Sub(options.now, Earliest(info.notAfter)) > options.retention
  }

  // No pruner inspecting records counts as past retention the bundle of a publisher that is
  // between its stage check and its swap.
  ghost predicate Quiet(w: World, processes: seq<Process>) {
    forall p, q :: p in processes && q in processes && p.PublishProcess? && q.PruneProcess? ==>
      Holding(p.publish) && q.prune.PruneInspect? ==> !PastRetention(w, q.options, p.pack.bundle)
  }

  // That, at every moment of a run.
  ghost predicate QuietRun(w: World, s: System, steps: seq<Step>) {
    forall k :: 0 <= k < |steps| ==> Quiet(w, Run(w, false, s, steps[..k]).processes)
  }

  // No two different values of one generation, as the SHA-256 digest in the name intends.
  ghost predicate NoCollision(w: World, log: Log) {
    forall t, g, a, b :: Put(Bundle(V6, t, g), a) in log && Put(Bundle(V6, t, g), b) in log ==> w.decode(a) == w.decode(b)
  }

  // A publisher past its stage check whose swap would still succeed: it has yet to capture the
  // pointer, or the pointer is as captured.
  ghost predicate Fresh(log: Log, pack: Pack, st: PublishState) {
    st.PublishCapture? || (st.PublishSwap? && Holds(Now(log), Active(V6, pack.target), st.captured))
  }

  // The bundle of such a publisher is stored.
  ghost predicate FreshStored(log: Log, processes: seq<Process>) {
    forall p :: p in processes && p.PublishProcess? && Fresh(log, p.pack, p.publish) ==> Stored(log, PackKey(p.pack), p.pack.bundle)
  }

  // The step deletes the bundle of such a publisher.
  ghost predicate Strikes(w: World, s: System, step: Step) {
    var log := Advance(w, false, s, step).log;
    |log| > |s.log| &&
    exists p :: p in s.processes && p.PublishProcess? && Fresh(s.log, p.pack, p.publish) && log[|s.log|] == Delete(PackKey(p.pack))
  }

  ghost predicate Spared(w: World, s: System, steps: seq<Step>) {
    forall k :: 0 <= k < |steps| ==> !Strikes(w, Run(w, false, s, steps[..k]), steps[k])
  }

  ghost predicate SafeSystem(w: World, s: System) {
    SystemOk(w, s) && FreshStored(s.log, s.processes) &&
    forall r :: 1 <= r <= Revision(s.log) ==> PointersIntact(w, At(s.log, r))
  }

  // A record a pruner read under a holder's key is as unexpired as the holder's own bundle.
  lemma RecordQuiet(w: World, s: System, q: Process, p: Process)
    requires WorldOk(w) && SystemOk(w, s) && FreshStored(s.log, s.processes) && Quiet(w, s.processes)
    requires q in s.processes && p in s.processes && p.PublishProcess? && Fresh(s.log, p.pack, p.publish)
    requires NoCollision(w, s.log)
    ensures q.PruneProcess? && q.prune.PruneInspect? && q.prune.records != [] &&
            RecordKey(q.prune.records[0]) == PackKey(p.pack) ==>
              !PastRetention(w, q.options, q.prune.records[0].data)
  {
    assert ProcessOk(w, s.log, p) && ProcessOk(w, s.log, q);
    if q.PruneProcess? && q.prune.PruneInspect? && q.prune.records != [] && RecordKey(q.prune.records[0]) == PackKey(p.pack) {
      assert q.prune.records[0] in q.prune.records;
      assert Put(PackKey(p.pack), q.prune.records[0].data) in s.log;
      StoredWasPut(s.log, PackKey(p.pack));
    }
  }

  // In a quiet moment a delete removes no bundle that a publisher is about to point at.
  lemma DeleteSpares(w: World, s: System, id: nat, order: seq<Key>, p: Process)
    requires WorldOk(w) && SystemOk(w, s) && FreshStored(s.log, s.processes) && Quiet(w, s.processes)
    requires id < |s.processes| && p in s.processes && p.PublishProcess? && Fresh(s.log, p.pack, p.publish)
    requires NoCollision(w, s.log)
    requires |ProcessStep(w, s.log, s.processes[id], order).0| > |s.log|
    ensures ProcessStep(w, s.log, s.processes[id], order).0[|s.log|] != Delete(PackKey(p.pack))
  {
    var q := s.processes[id];
    assert q in s.processes;
    RecordQuiet(w, s, q, p);
    assert ProcessOk(w, s.log, q);
  }

  lemma QuietStepSpares(w: World, s: System, step: Step)
    requires WorldOk(w) && SystemOk(w, s) && FreshStored(s.log, s.processes) && Quiet(w, s.processes) && NoCollision(w, s.log)
    ensures !Strikes(w, s, step)
  {
    var log := Advance(w, false, s, step).log;
    if |log| > |s.log| && step.Move? {
      forall p | p in s.processes && p.PublishProcess? && Fresh(s.log, p.pack, p.publish)
        ensures log[|s.log|] != Delete(PackKey(p.pack))
      {
        DeleteSpares(w, s, step.id, step.order, p);
      }
    }
  }

  lemma NoCollisionPrefix(w: World, log: Log, log': Log)
    requires NoCollision(w, log') && log <= log'
    ensures NoCollision(w, log)
  {
    assert forall x :: x in log ==> x in log';
  }

  lemma StoredKept(w: World, log: Log, log': Log, key: Key, data: string)
    requires Extends(w, log, log') && Stored(log, key, data) && key.Bundle? && key.version == V6
    requires |log'| > |log| ==> log'[|log|] != Delete(key)
    ensures Stored(log', key, data)
  {
    if log' != log { NowAppend(log, log'[|log|]); }
  }

  lemma PublishHolds(log: Log, w: World, pack: Pack, st: PublishState)
    requires Fresh(log, pack, st) ==> Stored(log, PackKey(pack), pack.bundle)
    ensures Fresh(PublishStep(w, log, pack, st).0, pack, PublishStep(w, log, pack, st).1) ==>
      Stored(PublishStep(w, log, pack, st).0, PackKey(pack), pack.bundle)
  {
    if st.PublishStage? && PackKey(pack) !in Now(log) { NowAppend(log, Put(PackKey(pack), pack.bundle)); }
  }

  // A captured state that no longer holds never holds again.
  lemma FreshWas(w: World, log: Log, log': Log, pack: Pack, st: PublishState)
    requires Extends(w, log, log') && PublishOk(w, log, pack, st) && Fresh(log', pack, st)
    ensures Fresh(log, pack, st)
  {
    if log' != log { NowAppend(log, log'[|log|]); }
  }

  // A publisher that does not move keeps its bundle.
  lemma WaiterKept(w: World, s: System, step: Step, p: Process)
    requires WorldOk(w) && SystemOk(w, s) && FreshStored(s.log, s.processes) && !Strikes(w, s, step)
    requires p in s.processes && p.PublishProcess? && Fresh(Advance(w, false, s, step).log, p.pack, p.publish)
    ensures Stored(Advance(w, false, s, step).log, PackKey(p.pack), p.pack.bundle)
  {
    AdvanceKeeps(w, false, s, step);
    assert ProcessOk(w, s.log, p);
    FreshWas(w, s.log, Advance(w, false, s, step).log, p.pack, p.publish);
    StoredKept(w, s.log, Advance(w, false, s, step).log, PackKey(p.pack), p.pack.bundle);
  }

  lemma HolderKept(w: World, s: System, step: Step, i: nat)
    requires WorldOk(w) && SystemOk(w, s) && FreshStored(s.log, s.processes) && !Strikes(w, s, step)
    requires i < |Advance(w, false, s, step).processes|
    ensures var s' := Advance(w, false, s, step);
      var p := s'.processes[i];
      p.PublishProcess? && Fresh(s'.log, p.pack, p.publish) ==> Stored(s'.log, PackKey(p.pack), p.pack.bundle)
  {
    var q := s.processes[i];
    assert q in s.processes;
    if step.Move? && step.id == i {
      if q.PublishProcess? { PublishHolds(s.log, w, q.pack, q.publish); }
    } else if q.PublishProcess? && Fresh(Advance(w, false, s, step).log, q.pack, q.publish) {
      WaiterKept(w, s, step, q);
    }
  }

  lemma HoldersKept(w: World, s: System, step: Step)
    requires WorldOk(w) && SystemOk(w, s) && FreshStored(s.log, s.processes) && !Strikes(w, s, step)
    ensures FreshStored(Advance(w, false, s, step).log, Advance(w, false, s, step).processes)
  {
    var s' := Advance(w, false, s, step);
    forall p | p in s'.processes && p.PublishProcess? && Fresh(s'.log, p.pack, p.publish)
      ensures Stored(s'.log, PackKey(p.pack), p.pack.bundle)
    {
      var i :| 0 <= i < |s'.processes| && s'.processes[i] == p;
      HolderKept(w, s, step, i);
    }
  }

  lemma AdvanceGrounded(w: World, s: System, step: Step)
    requires WorldOk(w) && SystemOk(w, s) && FreshStored(s.log, s.processes)
    requires |Advance(w, false, s, step).log| > |s.log|
    ensures Grounded(w, s.log, Advance(w, false, s, step).log[|s.log|])
  {
    if step.Move? {
      var p := s.processes[step.id];
      assert p in s.processes;
      CreationGrounded(w, s.log, p, step.order);
      if p.UpgradeProcess? && p.upgrade.UpgradeTarget? && p.upgrade.phase.Committing? {
        PlannedValid(w, s.log, p.upgrade.plan, p.upgrade.next);
        CommitGrounded(w, s.log, p.upgrade.plan, p.upgrade.next);
      }
    }
  }

  lemma AdvanceKeepsSafe(w: World, s: System, step: Step)
    requires WorldOk(w) && SafeSystem(w, s) && !Strikes(w, s, step)
    ensures SafeSystem(w, Advance(w, false, s, step))
  {
    var s' := Advance(w, false, s, step);
    AdvanceKeeps(w, false, s, step);
    HoldersKept(w, s, step);
    if s'.log != s.log {
      var write := s'.log[|s.log|];
      AdvanceGrounded(w, s, step);
      AtNow(s.log);
      AtNow(s'.log);
      BenignKeeps(w, s.log, write);
      forall r | 1 <= r <= Revision(s'.log) ensures PointersIntact(w, At(s'.log, r)) {
        if r <= Revision(s.log) { AtAppend(s.log, write, r); }
      }
    }
  }

  lemma SparedPrefix(w: World, s: System, steps: seq<Step>)
    requires steps != [] && Spared(w, s, steps)
    ensures Spared(w, s, steps[..|steps| - 1])
    ensures !Strikes(w, Run(w, false, s, steps[..|steps| - 1]), steps[|steps| - 1])
  {
    var before := steps[..|steps| - 1];
    forall k | 0 <= k < |before| ensures !Strikes(w, Run(w, false, s, before[..k]), before[k]) {
      assert before[..k] == steps[..k] && before[k] == steps[k];
    }
  }

  lemma SparedNext(w: World, s: System, steps: seq<Step>)
    requires steps != [] && Spared(w, s, steps[..|steps| - 1])
    requires !Strikes(w, Run(w, false, s, steps[..|steps| - 1]), steps[|steps| - 1])
    ensures Spared(w, s, steps)
  {
    forall k | 0 <= k < |steps| ensures !Strikes(w, Run(w, false, s, steps[..k]), steps[k]) {
      if k < |steps| - 1 { SparedAt(w, s, steps[..|steps| - 1], steps, k); }
    }
  }

  lemma SparedAt(w: World, s: System, before: seq<Step>, steps: seq<Step>, k: nat)
    requires before <= steps && Spared(w, s, before) && k < |before|
    ensures !Strikes(w, Run(w, false, s, steps[..k]), steps[k])
  {
    assert before[..k] == steps[..k] && before[k] == steps[k];
  }

  lemma {:induction false} RunSafe(w: World, s: System, steps: seq<Step>)
    requires WorldOk(w) && SafeSystem(w, s) && Spared(w, s, steps)
    ensures SafeSystem(w, Run(w, false, s, steps))
    decreases |steps|
  {
    if steps != [] {
      SparedPrefix(w, s, steps);
      RunSafe(w, s, steps[..|steps| - 1]);
      AdvanceKeepsSafe(w, Run(w, false, s, steps[..|steps| - 1]), steps[|steps| - 1]);
    }
  }

  /** A run that is quiet at every moment deletes no bundle that a publisher is about to point at, unless digests
      collide. */
  lemma {:induction false} QuietSpares(w: World, s: System, steps: seq<Step>)
    requires WorldOk(w) && SafeSystem(w, s) && QuietRun(w, s, steps) && NoCollision(w, Run(w, false, s, steps).log)
    ensures Spared(w, s, steps)
    decreases |steps|
  {
    if steps != [] {
      var init, last := steps[..|steps| - 1], steps[|steps| - 1];
      var before := Run(w, false, s, init);
      QuietPrefix(w, s, steps);
      RunKeeps(w, false, s, init);
      AdvanceKeeps(w, false, before, last);
      NoCollisionPrefix(w, before.log, Run(w, false, s, steps).log);
      QuietSpares(w, s, init);
      RunSafe(w, s, init);
      QuietStepSpares(w, before, last);
      SparedNext(w, s, steps);
    }
  }

  lemma QuietPrefix(w: World, s: System, steps: seq<Step>)
    requires steps != [] && QuietRun(w, s, steps)
    ensures QuietRun(w, s, steps[..|steps| - 1]) && Quiet(w, Run(w, false, s, steps[..|steps| - 1]).processes)
  {
    var before := steps[..|steps| - 1];
    forall k | 0 <= k < |before| ensures Quiet(w, Run(w, false, s, before[..k]).processes) {
      assert before[..k] == steps[..k];
    }
  }

  predicate Starting(p: Process) {
    match p
    case PublishProcess(_, st) => st == PublishStart
    case PruneProcess(_, st) => st == PruneStart
    case UpgradeProcess(_, st) => st == UpgradeStart
  }

  // A store whose bundles are valid and whose pointers are intact at every revision.
  ghost predicate CleanStore(w: World, log: Log) {
    BundlesValid(w, Now(log)) && forall r :: 1 <= r <= Revision(log) ==> PointersIntact(w, At(log, r))
  }

  lemma CleanStart(w: World, log: Log, processes: seq<Process>)
    requires CleanStore(w, log) && forall p :: p in processes ==> Starting(p)
    ensures SafeSystem(w, System(log, processes, map[]))
  {
  }

  /** Any interleaving of any publishers, pruners and upgraders over a clean store leaves every pointer of every
      revision on an existing bundle of its generation, if no step deletes the bundle of a publisher whose swap
      would still succeed. */
  lemma NoPointerDanglesSpared(w: World, log: Log, processes: seq<Process>, steps: seq<Step>, revision: nat)
    requires WorldOk(w) && CleanStore(w, log) && (forall p :: p in processes ==> Starting(p))
    requires Spared(w, System(log, processes, map[]), steps)
    requires 1 <= revision <= Revision(Run(w, false, System(log, processes, map[]), steps).log)
    ensures PointersIntact(w, At(Run(w, false, System(log, processes, map[]), steps).log, revision))
  {
    CleanStart(w, log, processes);
    RunSafe(w, System(log, processes, map[]), steps);
  }

  /** So it does if at no moment a pruner inspecting records counts as past retention a bundle that some publisher
      then holds between its stage check and its swap. */
  lemma NoPointerDangles(w: World, log: Log, processes: seq<Process>, steps: seq<Step>, revision: nat)
    requires WorldOk(w) && CleanStore(w, log) && (forall p :: p in processes ==> Starting(p))
    requires QuietRun(w, System(log, processes, map[]), steps)
    requires NoCollision(w, Run(w, false, System(log, processes, map[]), steps).log)
    requires 1 <= revision <= Revision(Run(w, false, System(log, processes, map[]), steps).log)
    ensures PointersIntact(w, At(Run(w, false, System(log, processes, map[]), steps).log, revision))
  {
    CleanStart(w, log, processes);
    QuietSpares(w, System(log, processes, map[]), steps);
    NoPointerDanglesSpared(w, log, processes, steps, revision);
  }

  /** Fetching a bundle at the revision of the pointer value that named it finds it, even if a pruner has deleted
      the key since. */
  lemma FetchAtPointerRevisionFinds(w: World, log: Log, processes: seq<Process>, steps: seq<Step>,
                                    revision: nat, target: string)
    requires WorldOk(w) && CleanStore(w, log) && (forall p :: p in processes ==> Starting(p))
    requires Spared(w, System(log, processes, map[]), steps)
    requires 1 <= revision <= Revision(Run(w, false, System(log, processes, map[]), steps).log)
    requires Active(V6, target) in At(Run(w, false, System(log, processes, map[]), steps).log, revision)
    ensures var view := At(Run(w, false, System(log, processes, map[]), steps).log, revision);
      var generation := PointerOf(view[Active(V6, target)]).generation;
      Bundle(V6, target, generation) in view && Valid(w, generation, view[Bundle(V6, target, generation)].value)
  {
    NoPointerDanglesSpared(w, log, processes, steps, revision);
    var view := At(Run(w, false, System(log, processes, map[]), steps).log, revision);
    assert Intact(w, view, target);
    SafeNameIsTrimmed(view[Active(V6, target)].value);
  }

  // ---- a proviso that can be checked before a run ----

  // No deleting pruner counts the bundle of any valid pack of any publisher as past retention.
  ghost predicate AlwaysQuiet(w: World, processes: seq<Process>) {
    forall p, q :: p in processes && q in processes && p.PublishProcess? && q.PruneProcess? ==>
      SafeName(p.pack.target) && Valid(w, p.pack.generation, p.pack.bundle) ==> !PastRetention(w, q.options, p.pack.bundle)
  }

  // A step changes no pack and no option.
  lemma AdvanceKeepsQuiet(w: World, s: System, step: Step)
    requires AlwaysQuiet(w, s.processes)
    ensures AlwaysQuiet(w, Advance(w, false, s, step).processes)
  {
    var s' := Advance(w, false, s, step);
    forall p, q | p in s'.processes && q in s'.processes && p.PublishProcess? && q.PruneProcess?
      ensures SafeName(p.pack.target) && Valid(w, p.pack.generation, p.pack.bundle) ==> !PastRetention(w, q.options, p.pack.bundle)
    {
      var i :| 0 <= i < |s'.processes| && s'.processes[i] == p;
      var j :| 0 <= j < |s'.processes| && s'.processes[j] == q;
      assert s.processes[i] in s.processes && s.processes[j] in s.processes;
    }
  }

  lemma {:induction false} RunKeepsQuiet(w: World, s: System, steps: seq<Step>)
    requires AlwaysQuiet(w, s.processes)
    ensures AlwaysQuiet(w, Run(w, false, s, steps).processes)
    decreases |steps|
  {
    if steps != [] {
      RunKeepsQuiet(w, s, steps[..|steps| - 1]);
      AdvanceKeepsQuiet(w, Run(w, false, s, steps[..|steps| - 1]), steps[|steps| - 1]);
    }
  }

  /** A caller who knows all packs and options in advance can check the proviso once. */
  lemma AlwaysQuietRuns(w: World, log: Log, processes: seq<Process>, steps: seq<Step>)
    requires WorldOk(w) && CleanStore(w, log) && (forall p :: p in processes ==> Starting(p)) && AlwaysQuiet(w, processes)
    ensures QuietRun(w, System(log, processes, map[]), steps)
  {
    var s := System(log, processes, map[]);
    CleanStart(w, log, processes);
    forall k | 0 <= k < |steps| ensures Quiet(w, Run(w, false, s, steps[..k]).processes) {
      RunKeeps(w, false, s, steps[..k]);
      RunKeepsQuiet(w, s, steps[..k]);
      AlwaysQuietNow(w, Run(w, false, s, steps[..k]));
    }
  }

  lemma AlwaysQuietNow(w: World, s: System)
    requires SystemOk(w, s) && AlwaysQuiet(w, s.processes)
    ensures Quiet(w, s.processes)
  {
    forall p | p in s.processes ensures ProcessOk(w, s.log, p) {}
  }
}
