/** Publishers, pruners and v5-to-v6 upgraders as step machines over one etcd log.
    One step is one request; steps of any number of processes interleave freely. */
module Machines {
  import opened Wrappers
  import opened Text
  import opened Etcd
  import opened Kinds

  // What decoding a v6 bundle value yields: its content-addressed generation, its type,
  // and the NotAfter of each certificate.
  datatype Info = Info(generation: string, kind: string, notAfter: seq<int>)
  datatype Converted = Converted(generation: string, bundle: string)

  // The bundle formats, as functions of a value; Instance supplies the real ones.
  datatype World = World(
    decode: string -> Option<Info>,
    convert: (string, string, string) -> Option<Converted>)

  predicate Valid(w: World, generation: string, data: string) {
    w.decode(data).Some? && w.decode(data).value.generation == generation
  }

  ghost predicate WorldOk(w: World) {
    (forall d :: w.decode(d).Some? ==> SafeName(w.decode(d).value.generation)) &&
    (forall g, d, k :: w.convert(g, d, k).Some? ==>
      Valid(w, w.convert(g, d, k).value.generation, w.convert(g, d, k).value.bundle))
  }

  const ABSENT := Condition("", 0, false)

  // ---- publisher ----

  datatype Pack = Pack(target: string, generation: string, bundle: string)

  datatype PublishState =
    | PublishStart
    | PublishStage
    | PublishCheck
    | PublishCapture
    | PublishSwap(captured: Condition)
    | Published(captured: Condition, commit: nat)
    | PublishNoOp
    | PublishFailed

  function PackKey(pack: Pack): Key { Bundle(V6, pack.target, pack.generation) }

  function PublishStep(w: World, log: Log, pack: Pack, st: PublishState): (Log, PublishState) {
    var bundleKey, activeKey := PackKey(pack), Active(V6, pack.target);
    match st
    case PublishStart =>
      (log, if SafeName(pack.target) && Valid(w, pack.generation, pack.bundle) then PublishStage else PublishFailed)
    case PublishStage =>
      (Stage(log, bundleKey, pack.bundle), if bundleKey in Now(log) then PublishCheck else PublishCapture)
    case PublishCheck =>
      (log, if bundleKey in Now(log) && Now(log)[bundleKey].value == pack.bundle then PublishCapture else PublishFailed)
    case PublishCapture =>
      (log, if activeKey !in Now(log) then PublishSwap(ABSENT) else
              var cell := Now(log)[activeKey];
              if !SafeName(cell.value) then PublishFailed
              else if cell.value == pack.generation then PublishNoOp
              else PublishSwap(Condition(cell.value, cell.mod, true)))
    case PublishSwap(captured) =>
      (Swap(log, activeKey, pack.generation, captured),
       if Holds(Now(log), activeKey, captured) then Published(captured, Revision(log) + 1) else PublishFailed)
    case _ => (log, st)
  }

  // ---- pruner ----

  datatype PruneOptions = PruneOptions(now: int, retention: int, delete: bool)

  datatype Item = Item(target: string, generation: string, kind: string, earliest: Option<int>,
                       eligible: bool, status: string)
  datatype PruneResult = PruneResult(scanned: nat, eligible: nat, deleted: nat, items: seq<Item>)

  datatype PruneState =
    | PruneStart
    | PruneList(active: map<string, Pointer>)
    | PruneRead(active: map<string, Pointer>, keys: seq<Key>, records: seq<Record>)
    | PruneInspect(active: map<string, Pointer>, records: seq<Record>, result: PruneResult)
    | PruneDone(result: PruneResult)
    | PruneFailed

  const MAX_DURATION := 0x7FFF_FFFF_FFFF_FFFF

  // time.Time.Sub saturates at the int64 nanosecond range.
  function Sub(a: int, b: int): int {
    if a - b > MAX_DURATION then MAX_DURATION
    else if a - b < -MAX_DURATION - 1 then -MAX_DURATION - 1
    else a - b
  }

  function Earliest(notAfter: seq<int>): int
    requires notAfter != []
  {
    var last := notAfter[|notAfter| - 1];
    if |notAfter| == 1 then last else
      var e := Earliest(notAfter[..|notAfter| - 1]);
      if last < e then last else e
  }

  // inspectRecord: None is an error, which stops the whole scan.
  function Inspect(w: World, record: Record, active: Option<Pointer>, options: PruneOptions): Option<Item> {
    if !Valid(w, record.generation, record.data) then None else
      var info := w.decode(record.data).value;
      var item := Item(record.target, record.generation, info.kind, None, false, "");
      if active.Some? && active.value.generation == record.generation then Some(item.(status := "active"))
      else if info.kind == TRUST then Some(item.(status := "trust-skipped"))
      else if active.None? then Some(item.(status := "no-active-pointer"))
      else if info.notAfter == [] then None
      else
        var e := Earliest(info.notAfter);
        if Sub(options.now, e) > options.retention then
          Some(item.(earliest := Some(e), eligible := true, status := "would-delete"))
        else Some(item.(earliest := Some(e), status := "retained"))
  }

  function Captured(active: map<string, Pointer>, target: string): Option<Pointer> {
    if target in active then Some(active[target]) else None
  }

  // What one record does to the report, once it has been inspected.
  function Tally(result: PruneResult, item: Item, delete: bool): PruneResult {
    var counted := result.(eligible := result.eligible + if item.eligible then 1 else 0);
    if item.eligible && delete then
      counted.(deleted := counted.deleted + 1, items := counted.items + [item.(status := "deleted")])
    else counted.(items := counted.items + [item])
  }

  ghost function PruneStep(w: World, log: Log, options: PruneOptions, st: PruneState, order: seq<Key>): (Log, PruneState) {
    match st
    case PruneStart =>
      if options.retention < 0 then (log, PruneFailed) else
        (log, if SnapshotOf(log, V6).Some? then PruneList(SnapshotOf(log, V6).value.active) else PruneFailed)
    case PruneList(active) =>
      (log, if !BundlesSafe(Now(log)) then PruneFailed
            else if Enumerates(order, BundleKeys(Now(log))) then PruneRead(active, order, []) else st)
    case PruneRead(active, keys, records) =>
      (log, if keys == [] then PruneInspect(active, records, PruneResult(|records|, 0, 0, [])) else
              PruneRead(active, keys[1..],
                records + if keys[0].Bundle? && keys[0] in Now(log)
                          then [Record(keys[0].target, keys[0].generation, Now(log)[keys[0]].value)] else []))
    case PruneInspect(active, records, result) =>
      if records == [] then (log, PruneDone(result)) else
        var record := records[0];
        var item := Inspect(w, record, Captured(active, record.target), options);
        if item.None? then (log, PruneFailed)
        else if !item.value.eligible || !options.delete then
          (log, PruneInspect(active, records[1..], Tally(result, item.value, options.delete)))
        else
          var expected := Condition(active[record.target].generation, active[record.target].mod, true);
          (RemoveIfActive(log, RecordKey(record), Active(V6, record.target), expected),
           if Holds(Now(log), Active(V6, record.target), expected)
           then PruneInspect(active, records[1..], Tally(result, item.value, options.delete)) else PruneFailed)
    case _ => (log, st)
  }

  // ---- upgrader ----

  datatype UpgradeOptions = UpgradeOptions(
    defaultType: string, targetTypes: map<string, string>, dryRun: bool, deleteOld: bool, confirmDelete: bool)

  datatype TargetPlan = TargetPlan(
    id: string, kind: string, sourceGeneration: string, sourceMod: nat,
    resultGeneration: string, bundle: string, alreadyMigrated: bool)

  datatype Plan = Plan(revision: nat, targets: seq<TargetPlan>)

  datatype Phase = Staging | Checking | Sourcing | Probing | Committing

  datatype UpgradeState =
    | UpgradeStart
    | UpgradeSource
    | UpgradeDestination(source: Snapshot)
    | UpgradeTarget(plan: Plan, next: nat, phase: Phase)
    | VerifySource(plan: Plan)
    | VerifyDestination(plan: Plan, source: Snapshot)
    | VerifyTarget(plan: Plan, source: Snapshot, destination: Snapshot, next: nat)
    | DeleteSource(plan: Plan)
    | UpgradeDone
    | UpgradeFailed

  function TypeFor(options: UpgradeOptions, id: string): string {
    if id in options.targetTypes then options.targetTypes[id] else options.defaultType
  }

  // The type a target is asked to become: its own, or the default.
  predicate AskedKind(options: UpgradeOptions, id: string, kind: string) {
    (id in options.targetTypes ==> kind == options.targetTypes[id]) && (id !in options.targetTypes ==> kind == options.defaultType)
  }

  // One target of the plan, from the historical v5 view and the v6 snapshot.
  function PlanTarget(w: World, options: UpgradeOptions, view: View, id: string, source: Pointer,
                      destination: Option<Pointer>): Option<TargetPlan>
  {
    var kind := TypeFor(options, id);
    var key := Bundle(V5, id, source.generation);
    if (kind != TLS_SERVER && kind != TLS_CLIENT) || key !in view then None else
      var converted := w.convert(source.generation, view[key].value, kind);
      if converted.None? then None
      else if destination.Some? && destination.value.generation != converted.value.generation then None
      else Some(TargetPlan(id, kind, source.generation, source.mod, converted.value.generation,
                           converted.value.bundle, destination.Some?))
  }

  function PlanTargets(w: World, options: UpgradeOptions, view: View, source: map<string, Pointer>,
                       destination: map<string, Pointer>, ids: seq<string>): Option<seq<TargetPlan>>
    requires forall id :: id in ids ==> id in source
  {
    if ids == [] then Some([]) else
      var last := ids[|ids| - 1];
      var first := PlanTargets(w, options, view, source, destination, ids[..|ids| - 1]);
      var target := PlanTarget(w, options, view, last, source[last], Captured(destination, last));
      if first.None? || target.None? then None else Some(first.value + [target.value])
  }

  ghost function BuildPlan(w: World, log: Log, options: UpgradeOptions, source: Snapshot, destination: Snapshot): Option<Plan> {
    if source.active == map[] || !(destination.active.Keys <= source.active.Keys) ||
       !(options.targetTypes.Keys <= source.active.Keys) || !(1 <= source.revision <= Revision(log)) then None
    else
      var targets := PlanTargets(w, options, At(log, source.revision), source.active, destination.active,
                                 Sorted(source.active.Keys));
      if targets.None? then None else Some(Plan(source.revision, targets.value))
  }

  function StartTarget(plan: Plan, next: nat): UpgradeState {
    if next < |plan.targets| then UpgradeTarget(plan, next, Staging) else VerifySource(plan)
  }

  function AfterStage(plan: Plan, next: nat): UpgradeState
    requires next < |plan.targets|
  {
    if plan.targets[next].alreadyMigrated then StartTarget(plan, next + 1) else UpgradeTarget(plan, next, Sourcing)
  }

  function PlanKey(t: TargetPlan): Key { Bundle(V6, t.id, t.resultGeneration) }
  function SourceCondition(t: TargetPlan): Condition { Condition(t.sourceGeneration, t.sourceMod, true) }

  function TargetStep(log: Log, plan: Plan, next: nat, phase: Phase): (Log, UpgradeState)
    requires next < |plan.targets|
  {
    var t := plan.targets[next];
    match phase
    case Staging =>
      (Stage(log, PlanKey(t), t.bundle),
       if PlanKey(t) in Now(log) then UpgradeTarget(plan, next, Checking) else AfterStage(plan, next))
    case Checking =>
      (log, if PlanKey(t) in Now(log) && Now(log)[PlanKey(t)].value == t.bundle then AfterStage(plan, next) else UpgradeFailed)
    case Sourcing =>
      (log, if Holds(Now(log), Active(V5, t.id), SourceCondition(t)) then UpgradeTarget(plan, next, Probing) else UpgradeFailed)
    case Probing =>
      (log, if Active(V6, t.id) in Now(log) then UpgradeFailed else UpgradeTarget(plan, next, Committing))
    case Committing =>
      (SwapFromSource(log, Active(V5, t.id), SourceCondition(t), Active(V6, t.id), t.resultGeneration, ABSENT),
       if Holds(Now(log), Active(V5, t.id), SourceCondition(t)) && Holds(Now(log), Active(V6, t.id), ABSENT)
       then StartTarget(plan, next + 1) else UpgradeFailed)
  }

  predicate Verified(view: View, t: TargetPlan, source: map<string, Pointer>, destination: map<string, Pointer>) {
    t.id in source && source[t.id] == Pointer(t.sourceGeneration, t.sourceMod) &&
    t.id in destination && destination[t.id].generation == t.resultGeneration &&
    PlanKey(t) in view && view[PlanKey(t)].value == t.bundle
  }

  ghost function UpgradeStep(w: World, log: Log, options: UpgradeOptions, st: UpgradeState): (Log, UpgradeState) {
    match st
    case UpgradeStart =>
      var refuse := options.deleteOld && !options.dryRun && !options.confirmDelete;
      (log, if !refuse && SnapshotOf(log, V4).Some? && SnapshotOf(log, V4).value.active == map[]
            then UpgradeSource else UpgradeFailed)
    case UpgradeSource =>
      (log, if SnapshotOf(log, V5).Some? then UpgradeDestination(SnapshotOf(log, V5).value) else UpgradeFailed)
    case UpgradeDestination(source) =>
      (log, if SnapshotOf(log, V6).None? then UpgradeFailed else
              var plan := BuildPlan(w, log, options, source, SnapshotOf(log, V6).value);
              if plan.None? then UpgradeFailed
              else if options.dryRun then UpgradeDone
              else StartTarget(plan.value, 0))
    case UpgradeTarget(plan, next, phase) =>
      if next < |plan.targets| then TargetStep(log, plan, next, phase) else (log, UpgradeFailed)
    case VerifySource(plan) =>
      (log, if SnapshotOf(log, V5).Some? then VerifyDestination(plan, SnapshotOf(log, V5).value) else UpgradeFailed)
    case VerifyDestination(plan, source) =>
      (log, if SnapshotOf(log, V6).Some? && |source.active| == |plan.targets| == |SnapshotOf(log, V6).value.active|
            then VerifyTarget(plan, source, SnapshotOf(log, V6).value, 0) else UpgradeFailed)
    case VerifyTarget(plan, source, destination, next) =>
      (log, if next >= |plan.targets| then (if options.deleteOld then DeleteSource(plan) else UpgradeDone)
            else if Verified(Now(log), plan.targets[next], source.active, destination.active)
            then VerifyTarget(plan, source, destination, next + 1) else UpgradeFailed)
    case DeleteSource(plan) => (RemoveOld(log), UpgradeDone)
    case _ => (log, st)
  }

  // ---- the system ----

  datatype Process =
    | PublishProcess(pack: Pack, publish: PublishState)
    | PruneProcess(options: PruneOptions, prune: PruneState)
    | UpgradeProcess(upgradeOptions: UpgradeOptions, upgrade: UpgradeState)

  // committer records which process put each v6 pointer, by revision.
  datatype System = System(log: Log, processes: seq<Process>, committer: map<nat, nat>)

  // A step of one process (order is the order of its next range read), or a write by
  // something outside the model: any v4 or v5 write, and any v6 pointer put when rogue.
  datatype Step = Move(id: nat, order: seq<Key>) | Outside(write: Write)

  predicate OutsideAllowed(rogue: bool, write: Write) {
    match write
    case Put(key, _) => key.version != V6 || (rogue && key.Active?)
    case Delete(key) => key.version != V6
    case DeleteOld => true
  }

  ghost function ProcessStep(w: World, log: Log, p: Process, order: seq<Key>): (Log, Process) {
    match p
    case PublishProcess(pack, st) =>
      var (log', st') := PublishStep(w, log, pack, st); (log', p.(publish := st'))
    case PruneProcess(options, st) =>
      var (log', st') := PruneStep(w, log, options, st, order); (log', p.(prune := st'))
    case UpgradeProcess(options, st) =>
      var (log', st') := UpgradeStep(w, log, options, st); (log', p.(upgrade := st'))
  }

  predicate PutsPointer(write: Write) {
    write.Put? && write.key.Active? && write.key.version == V6
  }

  ghost function Advance(w: World, rogue: bool, s: System, step: Step): System {
    match step
    case Move(id, order) =>
      if id >= |s.processes| then s else
        var (log, p) := ProcessStep(w, s.log, s.processes[id], order);
        System(log, s.processes[id := p],
          if |log| > |s.log| && PutsPointer(log[|s.log|]) then s.committer[Revision(log) := id] else s.committer)
    case Outside(write) =>
      if OutsideAllowed(rogue, write) then s.(log := s.log + [write]) else s
  }

  // Any interleaving is a sequence of steps.
  ghost function Run(w: World, rogue: bool, s: System, steps: seq<Step>): System {
    if steps == [] then s else Advance(w, rogue, Run(w, rogue, s, steps[..|steps| - 1]), steps[|steps| - 1])
  }
}
