/** What an undisturbed upgrade does to a store, written out over its keys. */
module Migration {
  import opened Wrappers
  import opened Text
  import opened Etcd
  import opened Machines
  import opened Resume
  import Safety

  // A v5 target converts, to the type asked for, into a bundle that a v6 pointer already there names.
  ghost predicate Movable(w: World, o: UpgradeOptions, view: View, id: string, kind: string, c: Converted) {
    Active(V5, id) in view && AskedKind(o, id, kind) && (kind == "tls-server" || kind == "tls-client") &&
    var generation := TrimSpace(view[Active(V5, id)].value);
    Bundle(V5, id, generation) in view && w.convert(generation, view[Bundle(V5, id, generation)].value, kind) == Some(c) &&
    (Active(V6, id) in view ==> TrimSpace(view[Active(V6, id)].value) == c.generation)
  }

  ghost predicate CanMove(w: World, o: UpgradeOptions, view: View, id: string) {
    exists kind, c :: Movable(w, o, view, id, kind, c)
  }

  // Every pointer of a version has a safe name and, white space aside, a safe value.
  ghost predicate SafePointers(view: View, version: Version) {
    forall t :: Active(version, t) in view ==> SafeName(t) && SafeName(TrimSpace(view[Active(version, t)].value))
  }

  // What buildPlan checks before it looks at the targets.
  ghost predicate Checked(o: UpgradeOptions, view: View) {
    (forall t :: Active(V4, t) !in view) && SafePointers(view, V5) && SafePointers(view, V6) &&
    (exists t :: Active(V5, t) in view) && (forall t :: Active(V6, t) in view ==> Active(V5, t) in view) &&
    forall t :: t in o.targetTypes ==> Active(V5, t) in view
  }

  /** The stores that buildPlan accepts: safe pointers, no v4 target, some v5 target, no v6 target and no type
      override without a v5 target, and every v5 target convertible. */
  ghost predicate Plannable(w: World, o: UpgradeOptions, view: View) {
    Checked(o, view) && forall t :: Active(V5, t) in view ==> CanMove(w, o, view, t)
  }

  // Nothing else is under the new key, and a pointer still to be committed compares equal as it was read.
  ghost predicate CanCommit(view: View, id: string, c: Converted)
    requires Active(V5, id) in view
  {
    (Bundle(V6, id, c.generation) in view ==> view[Bundle(V6, id, c.generation)].value == c.bundle) &&
    (Active(V6, id) !in view ==> view[Active(V5, id)].value == TrimSpace(view[Active(V5, id)].value))
  }

  ghost predicate Committable(w: World, o: UpgradeOptions, view: View) {
    forall t, kind, c :: Movable(w, o, view, t, kind, c) ==> CanCommit(view, t, c)
  }

  // Every key that was there is as it was.
  ghost predicate Keeps(view: View, after: View) {
    forall key :: key in view ==> key in after && after[key] == view[key]
  }

  /** The store after the targets have been moved: every v5 target has its converted bundle and a pointer to it, what was
      there is as it was, and nothing else is new. */
  ghost predicate Moved(w: World, o: UpgradeOptions, view: View, after: View) {
    Keeps(view, after) &&
    (forall t, kind, c :: Movable(w, o, view, t, kind, c) ==>
      Bundle(V6, t, c.generation) in after && after[Bundle(V6, t, c.generation)].value == c.bundle &&
      Active(V6, t) in after && TrimSpace(after[Active(V6, t)].value) == c.generation) &&
    forall key :: key in after && key !in view ==> IsNew(w, o, view, key)
  }

  ghost predicate IsNew(w: World, o: UpgradeOptions, view: View, key: Key) {
    exists kind, c :: Movable(w, o, view, key.target, kind, c) &&
      (key == Active(V6, key.target) || key == Bundle(V6, key.target, c.generation))
  }

  // ---- plans ----

  ghost predicate RightTarget(w: World, o: UpgradeOptions, view: View, t: TargetPlan) {
    Movable(w, o, view, t.id, t.kind, Converted(t.resultGeneration, t.bundle)) &&
    t.sourceGeneration == TrimSpace(view[Active(V5, t.id)].value) && t.sourceMod == view[Active(V5, t.id)].mod &&
    (t.alreadyMigrated <==> Active(V6, t.id) in view)
  }

  // One entry for each v5 target, in the order of the names.
  ghost predicate RightIds(view: View, ids: seq<string>) {
    (forall t :: Active(V5, t) in view <==> t in ids) &&
    forall i, j :: 0 <= i < j < |ids| ==> ids[i] != ids[j] && Leq(ids[i], ids[j])
  }

  function Ids(plan: Plan): seq<string> { seq(|plan.targets|, i requires 0 <= i < |plan.targets| => plan.targets[i].id) }

  ghost predicate RightPlan(w: World, o: UpgradeOptions, view: View, plan: Plan) {
    RightIds(view, Ids(plan)) && forall i :: 0 <= i < |plan.targets| ==> RightTarget(w, o, view, plan.targets[i])
  }

  lemma TypeIsAsked(o: UpgradeOptions, id: string, kind: string)
    ensures AskedKind(o, id, kind) <==> kind == TypeFor(o, id)
  {
  }

  lemma MovableOnce(w: World, o: UpgradeOptions, view: View, id: string, kind: string, c: Converted, kind': string, c': Converted)
    requires Movable(w, o, view, id, kind, c) && Movable(w, o, view, id, kind', c')
    ensures kind == kind' && c == c'
  {
  }

  lemma PlanTargetIs(w: World, o: UpgradeOptions, view: View, id: string, destination: Option<Pointer>)
    requires Active(V5, id) in view
    requires if Active(V6, id) in view then destination == Some(PointerOf(view[Active(V6, id)])) else destination.None?
    ensures var t := PlanTarget(w, o, view, id, PointerOf(view[Active(V5, id)]), destination);
      (t.Some? <==> CanMove(w, o, view, id)) && (t.Some? ==> t.value.id == id && RightTarget(w, o, view, t.value))
  {
    var t := PlanTarget(w, o, view, id, PointerOf(view[Active(V5, id)]), destination);
    TypeIsAsked(o, id, TypeFor(o, id));
    if t.Some? {
      assert Movable(w, o, view, id, t.value.kind, Converted(t.value.resultGeneration, t.value.bundle));
    }
    if CanMove(w, o, view, id) {
      var kind, c :| Movable(w, o, view, id, kind, c);
      TypeIsAsked(o, id, kind);
    }
  }

  lemma {:induction false} AllPlanned(w: World, o: UpgradeOptions, view: View, source: map<string, Pointer>,
                                      destination: map<string, Pointer>, ids: seq<string>)
    requires forall id :: id in ids ==> id in source
    requires forall id :: id in ids ==> PlanTarget(w, o, view, id, source[id], Captured(destination, id)).Some?
    ensures PlanTargets(w, o, view, source, destination, ids).Some?
  {
    if ids != [] {
      assert ids[|ids| - 1] in ids;
      AllPlanned(w, o, view, source, destination, ids[..|ids| - 1]);
    }
  }

  // The plan buildPlan makes of a store.
  ghost function PlanFor(w: World, o: UpgradeOptions, log: Log): Option<Plan> {
    if !NoV4(log) || SnapshotOf(log, V5).None? || SnapshotOf(log, V6).None? then None
    else BuildPlan(w, log, o, SnapshotOf(log, V5).value, SnapshotOf(log, V6).value)
  }

  // The three snapshots of an undisturbed plan, by the keys.
  lemma SnapshotsAre(log: Log)
    ensures NoV4(log) <==> forall t :: Active(V4, t) !in Now(log)
    ensures SnapshotOf(log, V5).Some? <==> SafePointers(Now(log), V5)
    ensures SnapshotOf(log, V6).Some? <==> SafePointers(Now(log), V6)
  {
    NoneLeft(Now(log), V4);
    SafeAre(Now(log), V5);
    SafeAre(Now(log), V6);
  }

  lemma SafeAre(view: View, version: Version)
    ensures PointersSafe(view, version) <==> SafePointers(view, version)
  {
    forall t ensures t in PointerTargets(view, version) <==> Active(version, t) in view { TargetIs(view, version, t); }
  }

  lemma NoneLeft(view: View, version: Version)
    ensures ActiveOf(view, version) == map[] <==> forall t :: Active(version, t) !in view
    ensures ActiveOf(view, version) == map[] ==> PointersSafe(view, version)
  {
    var targets := PointerTargets(view, version);
    assert ActiveOf(view, version).Keys == targets;
    forall t ensures t in targets <==> Active(version, t) in view { TargetIs(view, version, t); }
    if forall t :: Active(version, t) !in view { assert targets == {}; }
  }

  lemma SnapshotKeys(log: Log, version: Version)
    requires SnapshotOf(log, version).Some?
    ensures var active := SnapshotOf(log, version).value.active;
      (active == map[] <==> forall t :: Active(version, t) !in Now(log)) &&
      forall t :: t in active <==> Active(version, t) in Now(log)
  {
    var active := SnapshotOf(log, version).value.active;
    forall t ensures t in active <==> Active(version, t) in Now(log) { SnapshotAt(log, version, t); }
    if forall t :: Active(version, t) !in Now(log) { assert active.Keys == {}; }
  }

  lemma PlanTargetAt(w: World, o: UpgradeOptions, log: Log, id: string)
    requires SnapshotOf(log, V5).Some? && SnapshotOf(log, V6).Some? && id in SnapshotOf(log, V5).value.active
    ensures var source, destination := SnapshotOf(log, V5).value.active, SnapshotOf(log, V6).value.active;
      var t := PlanTarget(w, o, Now(log), id, source[id], Captured(destination, id));
      Active(V5, id) in Now(log) && (t.Some? <==> CanMove(w, o, Now(log), id)) &&
      (t.Some? ==> t.value.id == id && RightTarget(w, o, Now(log), t.value))
  {
    SnapshotAt(log, V5, id);
    SnapshotAt(log, V6, id);
    PlanTargetIs(w, o, Now(log), id, Captured(SnapshotOf(log, V6).value.active, id));
  }

  lemma BuildPlanIs(w: World, o: UpgradeOptions, log: Log)
    requires SnapshotOf(log, V5).Some? && SnapshotOf(log, V6).Some?
    ensures var source, destination := SnapshotOf(log, V5).value, SnapshotOf(log, V6).value;
      BuildPlan(w, log, o, source, destination) ==
        if source.active == map[] || !(destination.active.Keys <= source.active.Keys) || !(o.targetTypes.Keys <= source.active.Keys) then None
        else
          var targets := PlanTargets(w, o, Now(log), source.active, destination.active, Sorted(source.active.Keys));
          if targets.None? then None else Some(Plan(Revision(log), targets.value))
  {
    AtNow(log);
  }

  lemma CheckedIs(o: UpgradeOptions, log: Log)
    ensures Checked(o, Now(log)) <==>
      NoV4(log) && SnapshotOf(log, V5).Some? && SnapshotOf(log, V6).Some? &&
      SnapshotOf(log, V5).value.active != map[] &&
      SnapshotOf(log, V6).value.active.Keys <= SnapshotOf(log, V5).value.active.Keys &&
      o.targetTypes.Keys <= SnapshotOf(log, V5).value.active.Keys
  {
    SnapshotsAre(log);
    if SnapshotOf(log, V5).Some? && SnapshotOf(log, V6).Some? {
      SnapshotKeys(log, V5);
      SnapshotKeys(log, V6);
    }
  }

  lemma SortedIsRight(view: View, ids: set<string>, plan: Plan)
    requires forall t :: t in ids <==> Active(V5, t) in view
    requires |plan.targets| == |Sorted(ids)| && forall i :: 0 <= i < |plan.targets| ==> plan.targets[i].id == Sorted(ids)[i]
    ensures RightIds(view, Ids(plan))
  {
    assert Ids(plan) == Sorted(ids);
    SortedDistinct(ids);
    forall i, j | 0 <= i < j < |Sorted(ids)| ensures Leq(Sorted(ids)[i], Sorted(ids)[j]) { SortedOrdered(ids, i, j); }
  }

  lemma PlansInOrder(w: World, o: UpgradeOptions, log: Log)
    requires PlanFor(w, o, log).Some?
    ensures SnapshotOf(log, V5).Some? && SnapshotOf(log, V6).Some?
    ensures var source, plan := SnapshotOf(log, V5).value.active, PlanFor(w, o, log).value;
      |plan.targets| == |Sorted(source.Keys)| &&
      forall i :: 0 <= i < |plan.targets| ==> PlannedAt(w, o, Now(log), plan.targets[i], Sorted(source.Keys)[i])
  {
    var source, destination, plan := SnapshotOf(log, V5).value.active, SnapshotOf(log, V6).value.active, PlanFor(w, o, log).value;
    var ids := Sorted(source.Keys);
    BuildPlanIs(w, o, log);
    Safety.PlanTargetsEach(w, o, Now(log), source, destination, ids);
    forall i | 0 <= i < |plan.targets| ensures PlannedAt(w, o, Now(log), plan.targets[i], ids[i]) {
      assert ids[i] in ids;
      PlanTargetAt(w, o, log, ids[i]);
    }
  }

  ghost predicate PlannedAt(w: World, o: UpgradeOptions, view: View, t: TargetPlan, id: string) {
    t.id == id && RightTarget(w, o, view, t) && CanMove(w, o, view, id)
  }

  lemma EachRight(w: World, o: UpgradeOptions, view: View, keys: set<string>, plan: Plan)
    requires forall t :: t in keys <==> Active(V5, t) in view
    requires |plan.targets| == |Sorted(keys)|
    requires forall i :: 0 <= i < |plan.targets| ==> PlannedAt(w, o, view, plan.targets[i], Sorted(keys)[i])
    ensures RightPlan(w, o, view, plan)
    ensures forall t :: Active(V5, t) in view ==> CanMove(w, o, view, t)
  {
    forall i | 0 <= i < |plan.targets| ensures plan.targets[i].id == Sorted(keys)[i] && RightTarget(w, o, view, plan.targets[i]) {
      assert PlannedAt(w, o, view, plan.targets[i], Sorted(keys)[i]);
    }
    SortedIsRight(view, keys, plan);
    forall t | Active(V5, t) in view ensures CanMove(w, o, view, t) {
      assert t in Sorted(keys);
      var i :| 0 <= i < |Sorted(keys)| && Sorted(keys)[i] == t;
      assert PlannedAt(w, o, view, plan.targets[i], t);
    }
  }

  lemma PlansRight(w: World, o: UpgradeOptions, log: Log)
    requires PlanFor(w, o, log).Some?
    ensures RightPlan(w, o, Now(log), PlanFor(w, o, log).value)
    ensures forall t :: Active(V5, t) in Now(log) ==> CanMove(w, o, Now(log), t)
  {
    PlansInOrder(w, o, log);
    SnapshotKeys(log, V5);
    EachRight(w, o, Now(log), SnapshotOf(log, V5).value.active.Keys, PlanFor(w, o, log).value);
  }

  lemma PlansChecked(w: World, o: UpgradeOptions, log: Log)
    requires PlanFor(w, o, log).Some?
    ensures Checked(o, Now(log))
  {
    BuildPlanIs(w, o, log);
    CheckedIs(o, log);
  }

  lemma CheckedPlans(w: World, o: UpgradeOptions, log: Log)
    requires Checked(o, Now(log))
    ensures SnapshotOf(log, V5).Some? && SnapshotOf(log, V6).Some?
    ensures var source, destination := SnapshotOf(log, V5).value.active, SnapshotOf(log, V6).value.active;
      PlanFor(w, o, log).Some? <==> PlanTargets(w, o, Now(log), source, destination, Sorted(source.Keys)).Some?
  {
    CheckedIs(o, log);
    BuildPlanIs(w, o, log);
  }

  lemma PlansWhenPlannable(w: World, o: UpgradeOptions, log: Log)
    requires Checked(o, Now(log)) && forall t :: Active(V5, t) in Now(log) ==> CanMove(w, o, Now(log), t)
    ensures PlanFor(w, o, log).Some?
  {
    CheckedPlans(w, o, log);
    EachPlanned(w, o, log);
    var source, destination := SnapshotOf(log, V5).value.active, SnapshotOf(log, V6).value.active;
    AllPlanned(w, o, Now(log), source, destination, Sorted(source.Keys));
  }

  lemma EachPlanned(w: World, o: UpgradeOptions, log: Log)
    requires SnapshotOf(log, V5).Some? && SnapshotOf(log, V6).Some?
    requires forall t :: Active(V5, t) in Now(log) ==> CanMove(w, o, Now(log), t)
    ensures var source, destination := SnapshotOf(log, V5).value.active, SnapshotOf(log, V6).value.active;
      forall id :: id in Sorted(source.Keys) ==>
        id in source && PlanTarget(w, o, Now(log), id, source[id], Captured(destination, id)).Some?
  {
    var source, destination := SnapshotOf(log, V5).value.active, SnapshotOf(log, V6).value.active;
    forall id | id in Sorted(source.Keys)
      ensures id in source && PlanTarget(w, o, Now(log), id, source[id], Captured(destination, id)).Some?
    {
      PlanTargetAt(w, o, log, id);
    }
  }

  /** buildPlan succeeds exactly on the stores written out above, and plans what is written out above. */
  lemma PlanIs(w: World, o: UpgradeOptions, log: Log)
    ensures PlanFor(w, o, log).Some? <==> Plannable(w, o, Now(log))
    ensures PlanFor(w, o, log).Some? ==> RightPlan(w, o, Now(log), PlanFor(w, o, log).value)
  {
    if PlanFor(w, o, log).Some? {
      PlansRight(w, o, log);
      PlansChecked(w, o, log);
    }
    if Plannable(w, o, Now(log)) { PlansWhenPlannable(w, o, log); }
  }

  /** In any interleaving, by the store alone: a bundle is put if its key is free and must otherwise hold the planned bytes;
      the commit happens exactly while the v5 pointer has the planned value and mod revision and there is no v6 pointer;
      whatever fails ends the upgrade without a write. */
  lemma TargetStepIs(log: Log, plan: Plan, next: nat, phase: Phase)
    requires next < |plan.targets|
    ensures var t, view, left := plan.targets[next], Now(log), StartTarget(plan, next + 1);
      var key, pointer := Bundle(V6, t.id, t.resultGeneration), Active(V6, t.id);
      var sourced := Active(V5, t.id) in view && view[Active(V5, t.id)].value == t.sourceGeneration &&
                     view[Active(V5, t.id)].mod == t.sourceMod;
      var staged := if t.alreadyMigrated then left else UpgradeTarget(plan, next, Sourcing);
      TargetStep(log, plan, next, phase) ==
        match phase
        case Staging =>
          if key in view then (log, UpgradeTarget(plan, next, Checking)) else (log + [Put(key, t.bundle)], staged)
        case Checking => (log, if key in view && view[key].value == t.bundle then staged else UpgradeFailed)
        case Sourcing => (log, if sourced then UpgradeTarget(plan, next, Probing) else UpgradeFailed)
        case Probing => (log, if pointer in view then UpgradeFailed else UpgradeTarget(plan, next, Committing))
        case Committing =>
          if sourced && pointer !in view then (log + [Put(pointer, t.resultGeneration)], left) else (log, UpgradeFailed)
  {
  }

  // ---- moving the targets ----

  // Nothing else is under the new key, and a target to commit has its v5 pointer as planned and no v6 pointer.
  ghost predicate TargetFits(view: View, t: TargetPlan) {
    (Bundle(V6, t.id, t.resultGeneration) in view ==> view[Bundle(V6, t.id, t.resultGeneration)].value == t.bundle) &&
    (!t.alreadyMigrated ==>
      Active(V5, t.id) in view && view[Active(V5, t.id)].value == t.sourceGeneration &&
      view[Active(V5, t.id)].mod == t.sourceMod && Active(V6, t.id) !in view)
  }

  ghost predicate InPlace(after: View, t: TargetPlan) {
    Bundle(V6, t.id, t.resultGeneration) in after && after[Bundle(V6, t.id, t.resultGeneration)].value == t.bundle &&
    (!t.alreadyMigrated ==> Active(V6, t.id) in after && after[Active(V6, t.id)].value == t.resultGeneration)
  }

  predicate OfTarget(t: TargetPlan, key: Key) {
    key == Active(V6, t.id) || key == Bundle(V6, t.id, t.resultGeneration)
  }

  // What staging and committing one target does to a store.
  ghost predicate TargetMoved(view: View, t: TargetPlan, ok: bool, after: View) {
    (ok <==> TargetFits(view, t)) && Keeps(view, after) && (ok ==> InPlace(after, t)) &&
    forall key :: key in after && key !in view ==> OfTarget(t, key)
  }

  ghost predicate OfTargets(plan: Plan, n: nat, key: Key) {
    exists j :: 0 <= j < n <= |plan.targets| && OfTarget(plan.targets[j], key)
  }

  // The store after the first n targets.
  ghost predicate Applied(view: View, plan: Plan, n: nat, after: View) {
    n <= |plan.targets| && Keeps(view, after) && (forall j :: 0 <= j < n ==> InPlace(after, plan.targets[j])) &&
    forall key :: key in after && key !in view ==> OfTargets(plan, n, key)
  }

  ghost predicate AllFit(view: View, plan: Plan, n: nat) {
    n <= |plan.targets| && forall j :: 0 <= j < n ==> TargetFits(view, plan.targets[j])
  }

  ghost predicate Staged(view: View, t: TargetPlan, ok: bool, after: View) {
    var key := Bundle(V6, t.id, t.resultGeneration);
    (ok <==> (key in view ==> view[key].value == t.bundle)) && Keeps(view, after) &&
    (ok ==> key in after && after[key].value == t.bundle) &&
    forall k :: k in after && k !in view ==> k == key
  }

  ghost predicate Committed(view: View, t: TargetPlan, ok: bool, after: View) {
    var pointer := Active(V6, t.id);
    (ok <==> Active(V5, t.id) in view && view[Active(V5, t.id)].value == t.sourceGeneration &&
             view[Active(V5, t.id)].mod == t.sourceMod && pointer !in view) &&
    if ok then
      pointer in after && after[pointer].value == t.resultGeneration &&
      forall key :: key != pointer ==> Lookup(after, key) == Lookup(view, key)
    else after == view
  }

  // A target staged, and then committed or left.
  lemma StagedThenCommitted(view: View, t: TargetPlan, staged: bool, middle: View, ok: bool, after: View)
    requires Staged(view, t, staged, middle)
    requires !staged || t.alreadyMigrated ==> after == middle && ok == staged
    requires staged && !t.alreadyMigrated ==> Committed(middle, t, ok, after)
    ensures TargetMoved(view, t, ok, after)
  {
    assert forall key: Key :: key.Active? ==> (key in view <==> key in middle);
    if staged && !t.alreadyMigrated && ok {
      forall key | key in middle ensures key in after && after[key] == middle[key] { assert Lookup(after, key) == Lookup(middle, key); }
      forall key | key in after && key !in view ensures OfTarget(t, key) {
        if key != Active(V6, t.id) { assert Lookup(after, key) == Lookup(middle, key); }
      }
    }
  }

  ghost predicate Applying(view: View, plan: Plan, n: nat, after: View) {
    AllFit(view, plan, n) && Applied(view, plan, n, after)
  }

  // What the loop over the targets does to a store.
  ghost predicate PlanMoved(view: View, plan: Plan, ok: bool, after: View) {
    (ok <==> AllFit(view, plan, |plan.targets|)) && (ok ==> Applied(view, plan, |plan.targets|, after)) &&
    Keeps(view, after) && forall key :: key in after && key !in view ==> OfTargets(plan, |plan.targets|, key)
  }

  lemma AppliedStart(view: View, plan: Plan)
    ensures Applying(view, plan, 0, view)
  {
  }

  lemma AppliedAll(view: View, plan: Plan, after: View)
    requires Applying(view, plan, |plan.targets|, after)
    ensures PlanMoved(view, plan, true, after)
  {
  }

  lemma OthersKeys(view: View, plan: Plan, n: nat, key: Key)
    requires n < |plan.targets| && RightIds(view, Ids(plan)) && OfTarget(plan.targets[n], key)
    ensures !OfTargets(plan, n, key)
  {
    forall j | 0 <= j < n ensures !OfTarget(plan.targets[j], key) { assert Ids(plan)[j] != Ids(plan)[n]; }
  }

  // The keys of a target are, when its turn comes, as they were at the start.
  lemma UntilItsTurn(view: View, plan: Plan, n: nat, middle: View)
    requires RightIds(view, Ids(plan)) && Applied(view, plan, n, middle) && n < |plan.targets|
    ensures TargetFits(view, plan.targets[n]) <==> TargetFits(middle, plan.targets[n])
  {
    var t := plan.targets[n];
    forall key | OfTarget(t, key) ensures key in view <==> key in middle { OthersKeys(view, plan, n, key); }
    assert OfTarget(t, Bundle(V6, t.id, t.resultGeneration)) && OfTarget(t, Active(V6, t.id));
    assert !exists j :: 0 <= j < n && OfTarget(plan.targets[j], Active(V5, t.id));
    assert Active(V5, t.id) in view <==> Active(V5, t.id) in middle;
  }

  lemma OfTargetsNext(view: View, plan: Plan, n: nat, middle: View, ok: bool, after: View)
    requires Applied(view, plan, n, middle) && n < |plan.targets| && TargetMoved(middle, plan.targets[n], ok, after)
    ensures forall key :: key in after && key !in view ==> OfTargets(plan, n + 1, key) && OfTargets(plan, |plan.targets|, key)
    ensures Keeps(view, after)
  {
    forall key | key in after && key !in view ensures OfTargets(plan, n + 1, key) && OfTargets(plan, |plan.targets|, key) {
      if key in middle {
        var j :| 0 <= j < n && OfTarget(plan.targets[j], key);
      } else {
        assert OfTarget(plan.targets[n], key);
      }
    }
  }

  lemma InPlaceNext(view: View, plan: Plan, n: nat, middle: View, after: View)
    requires Applied(view, plan, n, middle) && n < |plan.targets| && TargetMoved(middle, plan.targets[n], true, after)
    ensures forall j :: 0 <= j < n + 1 ==> InPlace(after, plan.targets[j])
  {
    forall j | 0 <= j < n ensures InPlace(after, plan.targets[j]) { assert InPlace(middle, plan.targets[j]); }
  }

  lemma AppliedNext(view: View, plan: Plan, n: nat, middle: View, ok: bool, after: View)
    requires RightIds(view, Ids(plan)) && Applying(view, plan, n, middle) && n < |plan.targets|
    requires TargetMoved(middle, plan.targets[n], ok, after)
    ensures if ok then Applying(view, plan, n + 1, after) else PlanMoved(view, plan, false, after)
  {
    UntilItsTurn(view, plan, n, middle);
    OfTargetsNext(view, plan, n, middle, ok, after);
    if ok {
      InPlaceNext(view, plan, n, middle, after);
      ApplyingNext(view, plan, n, after);
    } else {
      ApplyingStops(view, plan, n, after);
    }
  }

  lemma ApplyingNext(view: View, plan: Plan, n: nat, after: View)
    requires AllFit(view, plan, n) && n < |plan.targets| && TargetFits(view, plan.targets[n]) && Keeps(view, after)
    requires forall j :: 0 <= j < n + 1 ==> InPlace(after, plan.targets[j])
    requires forall key :: key in after && key !in view ==> OfTargets(plan, n + 1, key)
    ensures Applying(view, plan, n + 1, after)
  {
  }

  lemma ApplyingStops(view: View, plan: Plan, n: nat, after: View)
    requires n < |plan.targets| && !TargetFits(view, plan.targets[n]) && Keeps(view, after)
    requires forall key :: key in after && key !in view ==> OfTargets(plan, |plan.targets|, key)
    ensures PlanMoved(view, plan, false, after)
  {
  }

  // ---- looking at the store again ----

  // Both pointers and the bundle are as planned.
  ghost predicate Standing(view: View, t: TargetPlan) {
    Active(V5, t.id) in view && TrimSpace(view[Active(V5, t.id)].value) == t.sourceGeneration && view[Active(V5, t.id)].mod == t.sourceMod &&
    Active(V6, t.id) in view && TrimSpace(view[Active(V6, t.id)].value) == t.resultGeneration &&
    Bundle(V6, t.id, t.resultGeneration) in view && view[Bundle(V6, t.id, t.resultGeneration)].value == t.bundle
  }

  ghost predicate AllStanding(view: View, plan: Plan, n: nat) {
    n <= |plan.targets| && forall j :: 0 <= j < n ==> Standing(view, plan.targets[j])
  }

  /** What verification asks of one target, by the keys of the store it reads. */
  lemma VerifiedIs(log: Log, t: TargetPlan)
    requires SnapshotOf(log, V5).Some? && SnapshotOf(log, V6).Some?
    ensures Verified(Now(log), t, SnapshotOf(log, V5).value.active, SnapshotOf(log, V6).value.active) <==> Standing(Now(log), t)
  {
    SnapshotAt(log, V5, t.id);
    SnapshotAt(log, V6, t.id);
  }

  // The store that passes verification.
  ghost predicate Passes(view: View, plan: Plan) {
    SafePointers(view, V5) && SafePointers(view, V6) && AllStanding(view, plan, |plan.targets|) &&
    |PointerTargets(view, V5)| == |plan.targets| == |PointerTargets(view, V6)|
  }

  lemma TargetStands(w: World, o: UpgradeOptions, view: View, t: TargetPlan, after: View)
    requires WorldOk(w) && RightTarget(w, o, view, t) && InPlace(after, t) && Keeps(view, after)
    ensures Standing(after, t) && SafeName(t.resultGeneration)
  {
    SafeNameIsTrimmed(t.resultGeneration);
  }

  lemma {:induction false} CountIs(list: seq<string>, s: set<string>)
    requires Enumerates(list, s)
    ensures |s| == |list|
    decreases |list|
  {
    if list == [] {
      assert s == {};
    } else {
      var last := list[|list| - 1];
      assert last in list;
      var rest := list[..|list| - 1];
      forall x ensures x in rest <==> x in s - {last} {
        if x in s - {last} {
          var i :| 0 <= i < |list| && list[i] == x;
          assert rest[i] == x;
        }
      }
      CountIs(rest, s - {last});
    }
  }

  lemma PointersCounted(view: View, plan: Plan, version: Version)
    requires (forall t :: Active(version, t) in view <==> t in Ids(plan))
    requires forall i, j :: 0 <= i < j < |plan.targets| ==> Ids(plan)[i] != Ids(plan)[j]
    ensures |PointerTargets(view, version)| == |plan.targets|
  {
    forall t ensures t in PointerTargets(view, version) <==> t in Ids(plan) { TargetIs(view, version, t); }
    CountIs(Ids(plan), PointerTargets(view, version));
  }

  ghost predicate HasPlan(w: World, o: UpgradeOptions, view: View, plan: Plan) {
    WorldOk(w) && Checked(o, view) && RightPlan(w, o, view, plan)
  }

  lemma StandsAfter(w: World, o: UpgradeOptions, view: View, plan: Plan, after: View)
    requires HasPlan(w, o, view, plan) && Applied(view, plan, |plan.targets|, after)
    ensures forall j :: 0 <= j < |plan.targets| ==> Standing(after, plan.targets[j]) && SafeName(plan.targets[j].resultGeneration)
  {
    forall j | 0 <= j < |plan.targets| ensures Standing(after, plan.targets[j]) && SafeName(plan.targets[j].resultGeneration) {
      TargetStands(w, o, view, plan.targets[j], after);
    }
  }

  lemma OldPointerAfter(plan: Plan, view: View, after: View, id: string)
    requires Applied(view, plan, |plan.targets|, after)
    ensures Active(V5, id) in after <==> Active(V5, id) in view
    ensures Active(V5, id) in after ==> after[Active(V5, id)] == view[Active(V5, id)]
  {
    assert !OfTargets(plan, |plan.targets|, Active(V5, id));
  }

  lemma NewPointerAfter(w: World, o: UpgradeOptions, view: View, plan: Plan, after: View, id: string)
    requires HasPlan(w, o, view, plan) && Applied(view, plan, |plan.targets|, after) && Active(V6, id) in after
    ensures id in Ids(plan)
  {
    if Active(V6, id) !in view {
      var j :| 0 <= j < |plan.targets| && OfTarget(plan.targets[j], Active(V6, id));
      assert Ids(plan)[j] == id;
    }
  }

  lemma PlannedStands(w: World, o: UpgradeOptions, view: View, plan: Plan, after: View, id: string)
    requires HasPlan(w, o, view, plan) && Applied(view, plan, |plan.targets|, after) && id in Ids(plan)
    ensures Active(V5, id) in view && Active(V6, id) in after
    ensures SafeName(id) && SafeName(TrimSpace(after[Active(V6, id)].value))
  {
    StandsAfter(w, o, view, plan, after);
    var j :| 0 <= j < |plan.targets| && Ids(plan)[j] == id;
    assert Standing(after, plan.targets[j]);
  }

  lemma PointersAfter(w: World, o: UpgradeOptions, view: View, plan: Plan, after: View, id: string)
    requires HasPlan(w, o, view, plan) && Applied(view, plan, |plan.targets|, after)
    ensures Active(V5, id) in after <==> id in Ids(plan)
    ensures Active(V6, id) in after <==> id in Ids(plan)
    ensures Active(V5, id) in after ==> after[Active(V5, id)] == view[Active(V5, id)]
    ensures Active(V6, id) in after ==> SafeName(id) && SafeName(TrimSpace(after[Active(V6, id)].value))
  {
    OldPointerAfter(plan, view, after, id);
    if id in Ids(plan) { PlannedStands(w, o, view, plan, after, id); }
    if Active(V6, id) in after { NewPointerAfter(w, o, view, plan, after, id); }
  }

  /** Once every target has been moved, verification passes. */
  lemma PassesAfter(w: World, o: UpgradeOptions, view: View, plan: Plan, after: View)
    requires HasPlan(w, o, view, plan) && Applied(view, plan, |plan.targets|, after)
    ensures Passes(after, plan)
  {
    StandsAfter(w, o, view, plan, after);
    forall id
      ensures (Active(V5, id) in after <==> id in Ids(plan)) && (Active(V6, id) in after <==> id in Ids(plan))
      ensures Active(V5, id) in after ==> SafeName(id) && SafeName(TrimSpace(after[Active(V5, id)].value))
      ensures Active(V6, id) in after ==> SafeName(id) && SafeName(TrimSpace(after[Active(V6, id)].value))
    {
      PointersAfter(w, o, view, plan, after, id);
    }
    PointersCounted(after, plan, V5);
    PointersCounted(after, plan, V6);
  }

  // What applying and verifying a plan does to a store: after is the store before the v5 keys are deleted.
  ghost predicate Executed(w: World, o: UpgradeOptions, view: View, plan: Plan, ok: bool, after: View) {
    (HasPlan(w, o, view, plan) ==> (ok <==> AllFit(view, plan, |plan.targets|))) &&
    (ok ==> Applied(view, plan, |plan.targets|, after) && Passes(after, plan)) &&
    Keeps(view, after) && forall key :: key in after && key !in view ==> OfTargets(plan, |plan.targets|, key)
  }

  lemma ExecutedIs(w: World, o: UpgradeOptions, view: View, plan: Plan, moved: bool, after: View)
    requires PlanMoved(view, plan, moved, after)
    ensures Executed(w, o, view, plan, moved && Passes(after, plan), after)
  {
    if moved && HasPlan(w, o, view, plan) { PassesAfter(w, o, view, plan, after); }
  }

  lemma FitsIffCommittable(w: World, o: UpgradeOptions, view: View, plan: Plan)
    requires RightPlan(w, o, view, plan)
    ensures AllFit(view, plan, |plan.targets|) <==> Committable(w, o, view)
  {
    forall j | 0 <= j < |plan.targets|
      ensures TargetFits(view, plan.targets[j]) <==>
        CanCommit(view, plan.targets[j].id, Converted(plan.targets[j].resultGeneration, plan.targets[j].bundle))
      ensures Active(V5, plan.targets[j].id) in view
    {
      assert RightTarget(w, o, view, plan.targets[j]);
    }
    if AllFit(view, plan, |plan.targets|) {
      forall t, kind, c | Movable(w, o, view, t, kind, c) ensures CanCommit(view, t, c) {
        var j := PlannedFor(w, o, view, plan, t, kind, c);
        assert TargetFits(view, plan.targets[j]);
      }
    }
    if Committable(w, o, view) {
      forall j | 0 <= j < |plan.targets| ensures TargetFits(view, plan.targets[j]) {
        var t := plan.targets[j];
        assert Movable(w, o, view, t.id, t.kind, Converted(t.resultGeneration, t.bundle));
      }
    }
  }

  lemma PlannedFor(w: World, o: UpgradeOptions, view: View, plan: Plan, id: string, kind: string, c: Converted) returns (j: nat)
    requires RightPlan(w, o, view, plan) && Movable(w, o, view, id, kind, c)
    ensures j < |plan.targets|
    ensures plan.targets[j].id == id && plan.targets[j].kind == kind
    ensures Converted(plan.targets[j].resultGeneration, plan.targets[j].bundle) == c
  {
    assert id in Ids(plan);
    j :| 0 <= j < |plan.targets| && Ids(plan)[j] == id;
    var t := plan.targets[j];
    assert RightTarget(w, o, view, t);
    MovableOnce(w, o, view, id, kind, c, t.kind, Converted(t.resultGeneration, t.bundle));
  }

  lemma NewAre(w: World, o: UpgradeOptions, view: View, plan: Plan, key: Key)
    requires RightPlan(w, o, view, plan) && OfTargets(plan, |plan.targets|, key)
    ensures IsNew(w, o, view, key)
  {
    var j :| 0 <= j < |plan.targets| && OfTarget(plan.targets[j], key);
    var t := plan.targets[j];
    assert Movable(w, o, view, t.id, t.kind, Converted(t.resultGeneration, t.bundle));
  }

  /** The store is then as written out above. */
  lemma MovedAfter(w: World, o: UpgradeOptions, view: View, plan: Plan, after: View)
    requires HasPlan(w, o, view, plan) && Applied(view, plan, |plan.targets|, after)
    ensures Moved(w, o, view, after)
  {
    StandsAfter(w, o, view, plan, after);
    forall t, kind, c | Movable(w, o, view, t, kind, c)
      ensures Bundle(V6, t, c.generation) in after && after[Bundle(V6, t, c.generation)].value == c.bundle
      ensures Active(V6, t) in after && TrimSpace(after[Active(V6, t)].value) == c.generation
    {
      var j := PlannedFor(w, o, view, plan, t, kind, c);
      assert Standing(after, plan.targets[j]);
    }
    forall key | key in after && key !in view ensures IsNew(w, o, view, key) { NewAre(w, o, view, plan, key); }
  }
}
