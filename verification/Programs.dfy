/** The programs themselves, as methods that change a store they have to themselves.  Each is
    proved to go through exactly the states of its machine. */
module Publisher {
  import opened Wrappers
  import opened Text
  import opened Etcd
  import opened Machines
  import opened Iteration

  datatype Outcome = PublishedOutcome | NoOpOutcome | ErrorOutcome

  ghost function Alone(w: World, pack: Pack): ((Log, PublishState)) -> (Log, PublishState) {
    (c: (Log, PublishState)) => PublishStep(w, c.0, pack, c.1)
  }

  ghost predicate Goes(w: World, pack: Pack, log: Log, log': Log, st: PublishState) {
    Reaches(Alone(w, pack), (log, PublishStart), (log', st))
  }

  lemma GoesStep(w: World, pack: Pack, log: Log, log': Log, st: PublishState)
    requires Goes(w, pack, log, log', st)
    ensures Goes(w, pack, log, PublishStep(w, log', pack, st).0, PublishStep(w, log', pack, st).1)
  {
    ReachesStep(Alone(w, pack), (log, PublishStart), (log', st));
    assert Alone(w, pack)((log', st)) == PublishStep(w, log', pack, st);
  }

  // A safe target, a bundle of the pack's generation, and nothing else under its key.
  predicate Stageable(w: World, view: View, pack: Pack) {
    var key := Bundle(V6, pack.target, pack.generation);
    SafeName(pack.target) && w.decode(pack.bundle).Some? && w.decode(pack.bundle).value.generation == pack.generation &&
    (key in view ==> view[key].value == pack.bundle)
  }

  /** In any interleaving, a swap commits exactly when the pointer is still as captured, absence included; a swap that
      finds it changed fails without a write. */
  lemma SwapIs(w: World, log: Log, pack: Pack, captured: Condition)
    ensures var key := Active(V6, pack.target);
      var asCaptured := if captured.exists_ then
          key in Now(log) && Now(log)[key].value == captured.generation && Now(log)[key].mod == captured.mod
        else key !in Now(log);
      PublishStep(w, log, pack, PublishSwap(captured)) ==
        if asCaptured then (log + [Put(key, pack.generation)], Published(captured, |log| + 2)) else (log, PublishFailed)
  {
  }

  /** The same for staging: the bundle is put if its key is free, and must otherwise hold the pack's bytes. */
  lemma StagingIs(w: World, log: Log, pack: Pack)
    ensures var key := Bundle(V6, pack.target, pack.generation);
      PublishStep(w, log, pack, PublishStage) ==
        (if key in Now(log) then (log, PublishCheck) else (log + [Put(key, pack.bundle)], PublishCapture)) &&
      PublishStep(w, log, pack, PublishCheck) ==
        (log, if key in Now(log) && Now(log)[key].value == pack.bundle then PublishCapture else PublishFailed)
  {
  }

  // pack.Validate and the key checks are Valid and SafeName.
  method Publish(kv: Store, w: World, pack: Pack) returns (outcome: Outcome, ghost st: PublishState)
    modifies kv
    ensures Goes(w, pack, old(kv.log), kv.log, st)
    ensures match outcome
      case PublishedOutcome => st.Published?
      case NoOpOutcome => st.PublishNoOp?
      case ErrorOutcome => st.PublishFailed?
    ensures outcome == NoOpOutcome <==>
      Stageable(w, Now(old(kv.log)), pack) && Active(V6, pack.target) in Now(old(kv.log)) &&
      Now(old(kv.log))[Active(V6, pack.target)].value == pack.generation && SafeName(pack.generation)
    ensures outcome == PublishedOutcome <==>
      Stageable(w, Now(old(kv.log)), pack) &&
      (Active(V6, pack.target) in Now(old(kv.log)) ==>
        SafeName(Now(old(kv.log))[Active(V6, pack.target)].value) &&
        Now(old(kv.log))[Active(V6, pack.target)].value != pack.generation)
    ensures outcome != ErrorOutcome ==>
      Bundle(V6, pack.target, pack.generation) in Now(kv.log) &&
      Now(kv.log)[Bundle(V6, pack.target, pack.generation)].value == pack.bundle
    ensures outcome == PublishedOutcome ==>
      Active(V6, pack.target) in Now(kv.log) && Now(kv.log)[Active(V6, pack.target)].value == pack.generation
    ensures outcome != PublishedOutcome ==>
      Lookup(Now(kv.log), Active(V6, pack.target)) == Lookup(Now(old(kv.log)), Active(V6, pack.target))
    ensures forall key :: key != Active(V6, pack.target) && key != Bundle(V6, pack.target, pack.generation) ==>
      Lookup(Now(kv.log), key) == Lookup(Now(old(kv.log)), key)
    ensures Bundle(V6, pack.target, pack.generation) in Now(old(kv.log)) ==>
      Lookup(Now(kv.log), Bundle(V6, pack.target, pack.generation)) == Lookup(Now(old(kv.log)), Bundle(V6, pack.target, pack.generation))
  {
    ghost var log := kv.log;
    st := PublishStart;
    ReachesSelf(Alone(w, pack), (log, PublishStart));
    GoesStep(w, pack, log, kv.log, st);
    st := PublishStep(w, kv.log, pack, st).1;
    if !SafeName(pack.target) || !Valid(w, pack.generation, pack.bundle) {
      return ErrorOutcome, st;
    }
    GoesStep(w, pack, log, kv.log, st);
    st := PublishStep(w, kv.log, pack, st).1;
    NowAppend(log, Put(PackKey(pack), pack.bundle));
    var created := kv.StageBundleIfAbsent(PackKey(pack), pack.bundle);
    if !created {
      GoesStep(w, pack, log, kv.log, st);
      st := PublishStep(w, kv.log, pack, st).1;
      var same := RequireExistingBundle(kv, PackKey(pack), pack.bundle);
      if !same {
        return ErrorOutcome, st;
      }
    }
    GoesStep(w, pack, log, kv.log, st);
    st := PublishStep(w, kv.log, pack, st).1;
    var captured, safe := CaptureActive(kv, Active(V6, pack.target));
    if !safe {
      return ErrorOutcome, st;
    }
    if captured.exists_ && captured.generation == pack.generation {
      return NoOpOutcome, st;
    }
    GoesStep(w, pack, log, kv.log, st);
    st := PublishStep(w, kv.log, pack, st).1;
    NowAppend(kv.log, Put(Active(V6, pack.target), pack.generation));
    var updated := kv.SwapActive(Active(V6, pack.target), pack.generation, captured);
    outcome := if updated then PublishedOutcome else ErrorOutcome;
  }

  method RequireExistingBundle(kv: Store, key: Key, expected: string) returns (same: bool)
    ensures same <==> key in Now(kv.log) && Now(kv.log)[key].value == expected
  {
    var value := kv.Get(key);
    same := value.Some? && value.value.value == expected;
  }

  method CaptureActive(kv: Store, key: Key) returns (captured: Condition, safe: bool)
    ensures safe <==> key in Now(kv.log) ==> SafeName(Now(kv.log)[key].value)
    ensures Holds(Now(kv.log), key, captured)
    ensures key !in Now(kv.log) ==> captured == ABSENT
  {
    var value := kv.Get(key);
    captured := if value.Some? then Condition(value.value.value, value.value.mod, true) else ABSENT;
    safe := value.Some? ==> SafeName(value.value.value);
  }
}

module Upgrader {
  import opened Wrappers
  import opened Text
  import opened Etcd
  import opened Kinds
  import opened Machines
  import opened Iteration
  import opened Resume
  import opened Migration

  datatype TargetResult = TargetResult(target: string, kind: string, source: string, generation: string, status: string)

  function Status(t: TargetPlan, dryRun: bool): TargetResult {
    TargetResult(t.id, t.kind, t.sourceGeneration, t.resultGeneration,
      if t.alreadyMigrated then "already-migrated" else if dryRun then "would-migrate" else "migrated")
  }

  lemma {:induction false} NoneStays(w: World, o: UpgradeOptions, view: View, source: map<string, Pointer>,
                                      destination: map<string, Pointer>, ids: seq<string>, i: nat)
    requires (forall id :: id in ids ==> id in source) && i <= |ids|
    requires forall id :: id in ids[..i] ==> id in source
    requires PlanTargets(w, o, view, source, destination, ids[..i]).None?
    ensures PlanTargets(w, o, view, source, destination, ids).None?
    decreases |ids|
  {
    if i < |ids| {
      assert ids[..|ids| - 1][..i] == ids[..i];
      NoneStays(w, o, view, source, destination, ids[..|ids| - 1], i);
    } else {
      assert ids[..i] == ids;
    }
  }

  // The loop of buildPlan over the sorted targets: read each bundle at the snapshot revision.
  method PlanAll(kv: Store, w: World, o: UpgradeOptions, source: Snapshot, destination: Snapshot, ids: seq<string>)
    returns (targets: Option<seq<TargetPlan>>)
    requires 1 <= source.revision <= Revision(kv.log) && forall id :: id in ids ==> id in source.active
    ensures targets == PlanTargets(w, o, At(kv.log, source.revision), source.active, destination.active, ids)
  {
    var plans: seq<TargetPlan> := [];
    var errors := 0;
    ghost var view := At(kv.log, source.revision);
    for i := 0 to |ids|
      invariant errors >= 0
      invariant forall id :: id in ids[..i] ==> id in source.active
      invariant PlanTargets(w, o, view, source.active, destination.active, ids[..i]) == if errors == 0 then Some(plans) else None
    {
      var id := ids[i];
      assert id in ids && ids[..i + 1][..i] == ids[..i] && ids[..i + 1][i] == id;
      assert forall x :: x in ids[..i + 1] ==> x in ids;
      var pointer := source.active[id];
      var kind := TypeFor(o, id);
      if kind != TLS_SERVER && kind != TLS_CLIENT {
        errors := errors + 1;
      } else {
        var _, value := kv.GetAt(Bundle(V5, id, pointer.generation), source.revision);
        if value.None? {
          NoneStays(w, o, view, source.active, destination.active, ids, i + 1);
          return None;
        }
        var converted := w.convert(pointer.generation, value.value.value, kind);
        if converted.None? {
          errors := errors + 1;
        } else if id in destination.active && destination.active[id].generation != converted.value.generation {
          NoneStays(w, o, view, source.active, destination.active, ids, i + 1);
          return None;
        } else {
          plans := plans + [TargetPlan(id, kind, pointer.generation, pointer.mod, converted.value.generation,
                                       converted.value.bundle, id in destination.active)];
        }
      }
    }
    assert ids[..|ids|] == ids;
    targets := if errors == 0 then Some(plans) else None;
  }

  method PlanFrom(kv: Store, w: World, o: UpgradeOptions, source: Snapshot, destination: Snapshot) returns (plan: Option<Plan>)
    requires 1 <= source.revision <= Revision(kv.log)
    ensures plan == BuildPlan(w, kv.log, o, source, destination)
  {
    if source.active == map[] || !(destination.active.Keys <= source.active.Keys) || !(o.targetTypes.Keys <= source.active.Keys) {
      return None;
    }
    var ids := SortNames(source.active.Keys);
    var targets := PlanAll(kv, w, o, source, destination, ids);
    plan := if targets.None? then None else Some(Plan(source.revision, targets.value));
  }

  // buildPlan: None is an error.
  method MakePlan(kv: Store, w: World, o: UpgradeOptions) returns (plan: Option<Plan>)
    ensures plan == PlanFor(w, o, kv.log)
    ensures plan.Some? <==> Plannable(w, o, Now(kv.log))
    ensures plan.Some? ==> RightPlan(w, o, Now(kv.log), plan.value)
  {
    PlanIs(w, o, kv.log);
    var unsupported := kv.SnapshotActivePrefix(V4);
    if unsupported.None? || unsupported.value.active != map[] {
      return None;
    }
    var source := kv.SnapshotActivePrefix(V5);
    if source.None? {
      return None;
    }
    var destination := kv.SnapshotActivePrefix(V6);
    if destination.None? {
      return None;
    }
    plan := PlanFrom(kv, w, o, source.value, destination.value);
  }

  // applyPlan: stage, check, capture and commit target by target.
  method ApplyPlan(kv: Store, w: World, o: UpgradeOptions, plan: Plan, ghost start: Log) returns (ok: bool)
    requires Goes(w, o, start, UpgradeStart, kv.log, StartTarget(plan, 0))
    requires RightIds(Now(kv.log), Ids(plan))
    modifies kv
    ensures Goes(w, o, start, UpgradeStart, kv.log, if ok then VerifySource(plan) else UpgradeFailed)
    ensures PlanMoved(Now(old(kv.log)), plan, ok, Now(kv.log))
  {
    ghost var was := Now(kv.log);
    AppliedStart(was, plan);
    for i := 0 to |plan.targets|
      invariant Goes(w, o, start, UpgradeStart, kv.log, StartTarget(plan, i))
      invariant Applying(was, plan, i, Now(kv.log))
    {
      ghost var middle := Now(kv.log);
      assert StartTarget(plan, i) == UpgradeTarget(plan, i, Staging);
      ok := ApplyTarget(kv, w, o, plan, i, start);
      AppliedNext(was, plan, i, middle, ok, Now(kv.log));
      if !ok {
        return;
      }
    }
    ok := true;
    assert StartTarget(plan, |plan.targets|) == VerifySource(plan);
    AppliedAll(was, plan, Now(kv.log));
  }

  // Stage the bundle, and compare it when it is already there.
  method StageTarget(kv: Store, w: World, o: UpgradeOptions, plan: Plan, i: nat, ghost start: Log) returns (ok: bool)
    requires i < |plan.targets| && Goes(w, o, start, UpgradeStart, kv.log, UpgradeTarget(plan, i, Staging))
    modifies kv
    ensures Goes(w, o, start, UpgradeStart, kv.log, if ok then AfterStage(plan, i) else UpgradeFailed)
    ensures Staged(Now(old(kv.log)), plan.targets[i], ok, Now(kv.log))
  {
    var t := plan.targets[i];
    NowAppend(kv.log, Put(PlanKey(t), t.bundle));
    GoesStep(w, o, start, UpgradeStart, kv.log, UpgradeTarget(plan, i, Staging));
    var created := kv.StageBundleIfAbsent(PlanKey(t), t.bundle);
    if !created {
      GoesStep(w, o, start, UpgradeStart, kv.log, UpgradeTarget(plan, i, Checking));
      var existing := kv.Get(PlanKey(t));
      if existing.None? || existing.value.value != t.bundle {
        return false;
      }
    }
    ok := true;
  }

  // Look at both pointers, then commit on both.
  method CommitTarget(kv: Store, w: World, o: UpgradeOptions, plan: Plan, i: nat, ghost start: Log) returns (ok: bool)
    requires i < |plan.targets| && Goes(w, o, start, UpgradeStart, kv.log, UpgradeTarget(plan, i, Sourcing))
    modifies kv
    ensures Goes(w, o, start, UpgradeStart, kv.log, if ok then StartTarget(plan, i + 1) else UpgradeFailed)
    ensures Committed(Now(old(kv.log)), plan.targets[i], ok, Now(kv.log))
  {
    var t := plan.targets[i];
    NowAppend(kv.log, Put(Active(V6, t.id), t.resultGeneration));
    GoesStep(w, o, start, UpgradeStart, kv.log, UpgradeTarget(plan, i, Sourcing));
    var source := kv.Get(Active(V5, t.id));
    if source.None? || source.value.value != t.sourceGeneration || source.value.mod != t.sourceMod {
      return false;
    }
    GoesStep(w, o, start, UpgradeStart, kv.log, UpgradeTarget(plan, i, Probing));
    var destination := kv.Get(Active(V6, t.id));
    if destination.Some? {
      return false;
    }
    GoesStep(w, o, start, UpgradeStart, kv.log, UpgradeTarget(plan, i, Committing));
    var _, updated := kv.SwapActiveFromSource(Active(V5, t.id), SourceCondition(t), Active(V6, t.id), t.resultGeneration, ABSENT);
    ok := updated;
  }

  method ApplyTarget(kv: Store, w: World, o: UpgradeOptions, plan: Plan, i: nat, ghost start: Log) returns (ok: bool)
    requires i < |plan.targets| && Goes(w, o, start, UpgradeStart, kv.log, UpgradeTarget(plan, i, Staging))
    modifies kv
    ensures Goes(w, o, start, UpgradeStart, kv.log, if ok then StartTarget(plan, i + 1) else UpgradeFailed)
    ensures TargetMoved(Now(old(kv.log)), plan.targets[i], ok, Now(kv.log))
  {
    ghost var view := Now(kv.log);
    ok := StageTarget(kv, w, o, plan, i, start);
    ghost var staged, middle := ok, Now(kv.log);
    if ok && !plan.targets[i].alreadyMigrated {
      ok := CommitTarget(kv, w, o, plan, i, start);
    }
    StagedThenCommitted(view, plan.targets[i], staged, middle, ok, Now(kv.log));
  }

  method VerifyOne(kv: Store, t: TargetPlan, source: map<string, Pointer>, destination: map<string, Pointer>) returns (ok: bool)
    ensures ok <==> Verified(Now(kv.log), t, source, destination)
  {
    if t.id !in source || source[t.id] != Pointer(t.sourceGeneration, t.sourceMod) {
      return false;
    }
    if t.id !in destination || destination[t.id].generation != t.resultGeneration {
      return false;
    }
    var value := kv.Get(PlanKey(t));
    ok := value.Some? && value.value.value == t.bundle;
  }

  // The loop of verifyPlan; seen is how many targets were as planned.
  method VerifyTargets(kv: Store, plan: Plan, source: Snapshot, destination: Snapshot) returns (ok: bool, ghost seen: nat)
    ensures ok <==> seen == |plan.targets|
    ensures seen <= |plan.targets| && AllVerified(Now(kv.log), plan, source, destination, seen)
    ensures !ok ==> !Verified(Now(kv.log), plan.targets[seen], source.active, destination.active)
  {
    for i := 0 to |plan.targets|
      invariant AllVerified(Now(kv.log), plan, source, destination, i)
    {
      ok := VerifyOne(kv, plan.targets[i], source.active, destination.active);
      if !ok {
        return false, i;
      }
    }
    ok, seen := true, |plan.targets|;
  }

  predicate AllVerified(view: View, plan: Plan, source: Snapshot, destination: Snapshot, n: nat) {
    n <= |plan.targets| && forall i :: 0 <= i < n ==> Verified(view, plan.targets[i], source.active, destination.active)
  }

  lemma VerifyingAll(w: World, o: UpgradeOptions, plan: Plan, source: Snapshot, destination: Snapshot, start: Log, log: Log, n: nat)
    requires Goes(w, o, start, UpgradeStart, log, VerifyTarget(plan, source, destination, 0))
    requires AllVerified(Now(log), plan, source, destination, n)
    ensures Goes(w, o, start, UpgradeStart, log, VerifyTarget(plan, source, destination, n))
  {
    for i := 0 to n
      invariant Goes(w, o, start, UpgradeStart, log, VerifyTarget(plan, source, destination, i))
    {
      VerifyingNext(w, o, plan, source, destination, start, log, i);
    }
  }

  lemma VerifyingGoes(w: World, o: UpgradeOptions, plan: Plan, source: Snapshot, destination: Snapshot, start: Log, log: Log, n: nat)
    requires Goes(w, o, start, UpgradeStart, log, VerifyTarget(plan, source, destination, 0))
    requires AllVerified(Now(log), plan, source, destination, n)
    requires n < |plan.targets| ==> !Verified(Now(log), plan.targets[n], source.active, destination.active)
    ensures Goes(w, o, start, UpgradeStart, log,
      if n < |plan.targets| then UpgradeFailed else if o.deleteOld then DeleteSource(plan) else UpgradeDone)
  {
    VerifyingAll(w, o, plan, source, destination, start, log, n);
    if n < |plan.targets| {
      VerifyingNext(w, o, plan, source, destination, start, log, n);
    } else {
      VerifyingEnds(w, o, plan, source, destination, start, log);
    }
  }

  lemma StandingSeen(log: Log, plan: Plan, n: nat)
    requires SnapshotOf(log, V5).Some? && SnapshotOf(log, V6).Some?
    requires AllVerified(Now(log), plan, SnapshotOf(log, V5).value, SnapshotOf(log, V6).value, n)
    requires n < |plan.targets| ==>
      !Verified(Now(log), plan.targets[n], SnapshotOf(log, V5).value.active, SnapshotOf(log, V6).value.active)
    ensures n == |plan.targets| <==> AllStanding(Now(log), plan, |plan.targets|)
  {
    forall i | 0 <= i < n ensures Standing(Now(log), plan.targets[i]) { VerifiedIs(log, plan.targets[i]); }
    if n < |plan.targets| { VerifiedIs(log, plan.targets[n]); }
  }

  lemma VerifyingNext(w: World, o: UpgradeOptions, plan: Plan, source: Snapshot, destination: Snapshot, start: Log, log: Log, i: nat)
    requires Goes(w, o, start, UpgradeStart, log, VerifyTarget(plan, source, destination, i)) && i < |plan.targets|
    ensures Goes(w, o, start, UpgradeStart, log,
      if Verified(Now(log), plan.targets[i], source.active, destination.active) then VerifyTarget(plan, source, destination, i + 1)
      else UpgradeFailed)
  {
    GoesStep(w, o, start, UpgradeStart, log, VerifyTarget(plan, source, destination, i));
    VerifyingStep(w, o, plan, source, destination, log, i);
  }

  lemma VerifyingStep(w: World, o: UpgradeOptions, plan: Plan, source: Snapshot, destination: Snapshot, log: Log, i: nat)
    requires i < |plan.targets|
    ensures UpgradeStep(w, log, o, VerifyTarget(plan, source, destination, i)) ==
      (log, if Verified(Now(log), plan.targets[i], source.active, destination.active)
            then VerifyTarget(plan, source, destination, i + 1) else UpgradeFailed)
  {
  }

  lemma VerifyingEnds(w: World, o: UpgradeOptions, plan: Plan, source: Snapshot, destination: Snapshot, start: Log, log: Log)
    requires Goes(w, o, start, UpgradeStart, log, VerifyTarget(plan, source, destination, |plan.targets|))
    ensures Goes(w, o, start, UpgradeStart, log, if o.deleteOld then DeleteSource(plan) else UpgradeDone)
  {
    GoesStep(w, o, start, UpgradeStart, log, VerifyTarget(plan, source, destination, |plan.targets|));
  }

  lemma VerifyingSource(w: World, o: UpgradeOptions, plan: Plan, start: Log, log: Log)
    requires Goes(w, o, start, UpgradeStart, log, VerifySource(plan))
    ensures Goes(w, o, start, UpgradeStart, log,
      if SnapshotOf(log, V5).None? then UpgradeFailed else VerifyDestination(plan, SnapshotOf(log, V5).value))
  {
    GoesStep(w, o, start, UpgradeStart, log, VerifySource(plan));
  }

  lemma VerifyingDestination(w: World, o: UpgradeOptions, plan: Plan, source: Snapshot, start: Log, log: Log)
    requires Goes(w, o, start, UpgradeStart, log, VerifyDestination(plan, source))
    ensures Goes(w, o, start, UpgradeStart, log,
      if SnapshotOf(log, V6).Some? && |source.active| == |plan.targets| == |SnapshotOf(log, V6).value.active|
      then VerifyTarget(plan, source, SnapshotOf(log, V6).value, 0) else UpgradeFailed)
  {
    GoesStep(w, o, start, UpgradeStart, log, VerifyDestination(plan, source));
  }

  lemma CountsAre(log: Log)
    ensures SnapshotOf(log, V5).Some? ==> |SnapshotOf(log, V5).value.active| == |PointerTargets(Now(log), V5)|
    ensures SnapshotOf(log, V6).Some? ==> |SnapshotOf(log, V6).value.active| == |PointerTargets(Now(log), V6)|
  {
    assert ActiveOf(Now(log), V5).Keys == PointerTargets(Now(log), V5);
    assert ActiveOf(Now(log), V6).Keys == PointerTargets(Now(log), V6);
    KeysCount(ActiveOf(Now(log), V5));
    KeysCount(ActiveOf(Now(log), V6));
  }

  lemma {:induction false} KeysCount<T>(m: map<string, T>)
    ensures |m| == |m.Keys|
  {
  }

  // Read both snapshots again and look at every target.
  method VerifyPlan(kv: Store, w: World, o: UpgradeOptions, plan: Plan, ghost start: Log) returns (ok: bool)
    requires Goes(w, o, start, UpgradeStart, kv.log, VerifySource(plan))
    ensures Goes(w, o, start, UpgradeStart, kv.log,
      if !ok then UpgradeFailed else if o.deleteOld then DeleteSource(plan) else UpgradeDone)
    ensures ok <==> Passes(Now(kv.log), plan)
  {
    SnapshotsAre(kv.log);
    CountsAre(kv.log);
    VerifyingSource(w, o, plan, start, kv.log);
    var source := kv.SnapshotActivePrefix(V5);
    if source.None? {
      return false;
    }
    VerifyingDestination(w, o, plan, source.value, start, kv.log);
    var destination := kv.SnapshotActivePrefix(V6);
    if destination.None? || |source.value.active| != |plan.targets| || |destination.value.active| != |plan.targets| {
      return false;
    }
    ghost var seen;
    ok, seen := VerifyTargets(kv, plan, source.value, destination.value);
    VerifyingGoes(w, o, plan, source.value, destination.value, start, kv.log, seen);
    StandingSeen(kv.log, plan, seen);
  }

  function OldKeys(view: View): set<Key> {
    set key | key in view && key.version == V5
  }

  // Apply the plan and verify what came of it.
  method MoveAll(kv: Store, w: World, o: UpgradeOptions, plan: Plan, ghost start: Log) returns (ok: bool)
    requires Goes(w, o, start, UpgradeStart, kv.log, StartTarget(plan, 0))
    requires RightIds(Now(kv.log), Ids(plan))
    modifies kv
    ensures Goes(w, o, start, UpgradeStart, kv.log,
      if !ok then UpgradeFailed else if o.deleteOld then DeleteSource(plan) else UpgradeDone)
    ensures Executed(w, o, Now(old(kv.log)), plan, ok, Now(kv.log))
  {
    ghost var was := Now(kv.log);
    ok := ApplyPlan(kv, w, o, plan, start);
    ExecutedIs(w, o, was, plan, ok, Now(kv.log));
    if ok {
      ok := VerifyPlan(kv, w, o, plan, start);
    }
  }

  lemma Deleting(w: World, o: UpgradeOptions, plan: Plan, start: Log, log: Log)
    requires Goes(w, o, start, UpgradeStart, log, DeleteSource(plan))
    ensures Goes(w, o, start, UpgradeStart, RemoveOld(log), UpgradeDone)
  {
    GoesStep(w, o, start, UpgradeStart, log, DeleteSource(plan));
  }

  // before is the store just before the v5 keys are deleted, or the store at the end.
  method Execute(kv: Store, w: World, o: UpgradeOptions, plan: Plan, ghost start: Log)
    returns (ok: bool, deleted: nat, ghost before: Log)
    requires Goes(w, o, start, UpgradeStart, kv.log, StartTarget(plan, 0))
    requires RightIds(Now(kv.log), Ids(plan))
    modifies kv
    ensures Goes(w, o, start, UpgradeStart, kv.log, if ok then UpgradeDone else UpgradeFailed)
    ensures ok ==> Goes(w, o, start, UpgradeStart, before, if o.deleteOld then DeleteSource(plan) else UpgradeDone)
    ensures Executed(w, o, Now(old(kv.log)), plan, ok, Now(before))
    ensures ok && o.deleteOld ==> kv.log == RemoveOld(before) && deleted == |OldKeys(Now(before))|
    ensures !(ok && o.deleteOld) ==> kv.log == before && deleted == 0
  {
    deleted := 0;
    ok := MoveAll(kv, w, o, plan, start);
    before := kv.log;
    if ok && o.deleteOld {
      Deleting(w, o, plan, start, kv.log);
      deleted := kv.DeletePrefix();
    }
  }

  function Statuses(plan: Plan, dryRun: bool): seq<TargetResult> {
    seq(|plan.targets|, i requires 0 <= i < |plan.targets| => Status(plan.targets[i], dryRun))
  }

  method Report(plan: Plan, dryRun: bool) returns (results: seq<TargetResult>)
    ensures results == Statuses(plan, dryRun)
  {
    results := [];
    for i := 0 to |plan.targets|
      invariant results == Statuses(plan, dryRun)[..i]
    {
      results := results + [Status(plan.targets[i], dryRun)];
    }
  }

  // The report on one target: what it is asked to become, what it was, what it converts to, and how far it is.
  ghost predicate RightResult(w: World, o: UpgradeOptions, view: View, r: TargetResult) {
    (exists bundle :: Movable(w, o, view, r.target, r.kind, Converted(r.generation, bundle))) &&
    r.source == TrimSpace(view[Active(V5, r.target)].value) &&
    r.status == if Active(V6, r.target) in view then "already-migrated" else if o.dryRun then "would-migrate" else "migrated"
  }

  // One entry for each v5 target, in the order of the names.
  ghost predicate RightReport(w: World, o: UpgradeOptions, view: View, results: seq<TargetResult>) {
    RightIds(view, seq(|results|, i requires 0 <= i < |results| => results[i].target)) &&
    forall i :: 0 <= i < |results| ==> RightResult(w, o, view, results[i])
  }

  lemma ReportsPlan(w: World, o: UpgradeOptions, view: View, plan: Plan)
    requires RightPlan(w, o, view, plan)
    ensures RightReport(w, o, view, Statuses(plan, o.dryRun))
  {
    var results := Statuses(plan, o.dryRun);
    assert seq(|results|, i requires 0 <= i < |results| => results[i].target) == Ids(plan);
    forall i | 0 <= i < |results| ensures RightResult(w, o, view, results[i]) {
      var t := plan.targets[i];
      assert RightTarget(w, o, view, t);
      assert Movable(w, o, view, t.id, t.kind, Converted(t.resultGeneration, t.bundle));
    }
  }

  ghost predicate Confirmed(o: UpgradeOptions) { o.deleteOld && !o.dryRun ==> o.confirmDelete }

  /** What an undisturbed upgrade does to a store, by its keys: before is the store at the end, or just before the v5
      keys are deleted. */
  ghost predicate Upgraded(w: World, o: UpgradeOptions, view: View, ok: bool, results: seq<TargetResult>, before: View) {
    (ok <==> Confirmed(o) && Plannable(w, o, view) && (!o.dryRun ==> Committable(w, o, view))) &&
    (if Confirmed(o) && Plannable(w, o, view) then RightReport(w, o, view, results) else results == []) &&
    (ok && !o.dryRun ==> Moved(w, o, view, before)) && Keeps(view, before) &&
    (!(Confirmed(o) && Plannable(w, o, view)) || o.dryRun ==> before == view) &&
    forall key :: key in before && key !in view ==> IsNew(w, o, view, key)
  }

  lemma UpgradedIs(w: World, o: UpgradeOptions, view: View, plan: Plan, ok: bool, before: View)
    requires WorldOk(w) && !o.dryRun && Confirmed(o) && Plannable(w, o, view) && RightPlan(w, o, view, plan)
    requires Executed(w, o, view, plan, ok, before)
    ensures Upgraded(w, o, view, ok, Statuses(plan, o.dryRun), before)
  {
    FitsIffCommittable(w, o, view, plan);
    ReportsPlan(w, o, view, plan);
    if ok { MovedAfter(w, o, view, plan, before); }
    forall key | key in before && key !in view ensures IsNew(w, o, view, key) { NewAre(w, o, view, plan, key); }
  }

  lemma DryRunIs(w: World, o: UpgradeOptions, view: View, plan: Plan)
    requires o.dryRun && Plannable(w, o, view) && RightPlan(w, o, view, plan)
    ensures Upgraded(w, o, view, true, Statuses(plan, o.dryRun), view)
  {
    ReportsPlan(w, o, view, plan);
  }

  lemma RemovesOld(log: Log)
    ensures forall key :: Lookup(Now(RemoveOld(log)), key) == if key.version == V5 then None else Lookup(Now(log), key)
  {
    NowAppend(log, DeleteOld);
  }

  /** Upgrade goes through exactly the states of its machine, so the run theorems of Resume and
      Safety speak about it; alone on a store, it does what is written out above. */
  method Upgrade(kv: Store, w: World, o: UpgradeOptions)
    returns (ok: bool, results: seq<TargetResult>, deleted: nat, ghost before: Log)
    modifies kv
    ensures Goes(w, o, old(kv.log), UpgradeStart, kv.log, if ok then UpgradeDone else UpgradeFailed)
    ensures ok ==> PlanFor(w, o, old(kv.log)).Some? && results == Statuses(PlanFor(w, o, old(kv.log)).value, o.dryRun)
    ensures WorldOk(w) ==> Upgraded(w, o, Now(old(kv.log)), ok, results, Now(before))
    ensures ok && o.deleteOld && !o.dryRun ==>
      Goes(w, o, old(kv.log), UpgradeStart, before, DeleteSource(PlanFor(w, o, old(kv.log)).value)) &&
      kv.log == RemoveOld(before) && deleted == |set key | key in Now(before) && key.version == V5| &&
      forall key :: Lookup(Now(kv.log), key) == if key.version == V5 then None else Lookup(Now(before), key)
    ensures !(ok && o.deleteOld && !o.dryRun) ==> deleted == 0 && kv.log == before
  {
    ghost var start := kv.log;
    deleted, before := 0, kv.log;
    PlanIs(w, o, start);
    if o.deleteOld && !o.dryRun && !o.confirmDelete {
      Refused(w, o, start);
      return false, [], 0, start;
    }
    var plan := MakePlan(kv, w, o);
    Planning(w, o, start);
    if plan.None? {
      return false, [], 0, start;
    }
    results := Report(plan.value, o.dryRun);
    if o.dryRun {
      DryRunIs(w, o, Now(start), plan.value);
      return true, results, 0, start;
    }
    ok, deleted, before := Execute(kv, w, o, plan.value, start);
    if WorldOk(w) { UpgradedIs(w, o, Now(start), plan.value, ok, Now(before)); }
    RemovesOld(before);
  }

  lemma Refused(w: World, o: UpgradeOptions, log: Log)
    requires o.deleteOld && !o.dryRun && !o.confirmDelete
    ensures Goes(w, o, log, UpgradeStart, log, UpgradeFailed)
  {
    GoesSelf(w, o, log, UpgradeStart);
    GoesStep(w, o, log, UpgradeStart, log, UpgradeStart);
  }

  // The planning requests of one run, on a store nobody else changes.
  lemma Planning(w: World, o: UpgradeOptions, log: Log)
    requires o.deleteOld && !o.dryRun ==> o.confirmDelete
    ensures Goes(w, o, log, UpgradeStart, log,
      if PlanFor(w, o, log).None? then UpgradeFailed
      else if o.dryRun then UpgradeDone
      else StartTarget(PlanFor(w, o, log).value, 0))
  {
    GoesSelf(w, o, log, UpgradeStart);
    GoesStep(w, o, log, UpgradeStart, log, UpgradeStart);
    if NoV4(log) {
      GoesStep(w, o, log, UpgradeStart, log, UpgradeSource);
      if SnapshotOf(log, V5).Some? {
        GoesStep(w, o, log, UpgradeStart, log, UpgradeDestination(SnapshotOf(log, V5).value));
      }
    }
  }
}
