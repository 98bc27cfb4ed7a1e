/** One target's reconciliation state: what a saved state says about the post-activation hook,
    over runs of reconciles and seeds with failures and crashes at any point. */
module HookRetry {
  import opened Wrappers

  // The persisted record of a target; a missing file reads as BLANK.
  datatype State = State(generation: string, digest: string, revision: int, hookError: string)

  const BLANK := State("", "", 0, "")

  // Everything local about one target.  current is the digest of the selected release, "" for
  // none.  blessed, hooks and switches are history: whether a hook has succeeded for that
  // release since the agent last switched to it (or seed put it there), and how many hook
  // runs and switches there have been.
  datatype Local = Local(current: string, saved: State, blessed: bool, hooks: nat, switches: nat)

  // How one call to Activate ends; a refused one fails before the switch, a broken one after it
  // (a prune or sync error, or a crash).
  datatype Deployment = Deployed | Broken | Refused

  // The outcomes of the steps of one reconcile, in order.  A crash is the failure of the
  // next step; hook is the error text of the hook run.
  datatype Fate = Fate(fetched: bool, accepted: bool, loaded: bool, deployment: Deployment, hook: Option<string>, saves: bool)

  datatype Event =
    | Reconcile(generation: string, revision: int, digest: string, fate: Fate)
    | Seed(digest: string, force: bool, deployment: Deployment)

  predicate Possible(event: Event) {
    event.digest != "" && (event.Reconcile? ==> event.fate.hook != Some(""))
  }

  // The effect of Activate on the release: whether it switches, and whether it returns a result.
  predicate Switches(s: Local, digest: string, deployment: Deployment) {
    s.current != digest && !deployment.Refused?
  }

  // An unchanged release is only verified; nothing can break after a switch that does not happen.
  predicate Returns(deployment: Deployment) { deployment.Deployed? }

  function Switch(s: Local, digest: string, blessed: bool): Local {
    s.(current := digest, blessed := blessed, switches := s.switches + 1)
  }

  function AfterHook(s: Local, e: Event): Local
    requires e.Reconcile?
  {
    var next := State(e.generation, e.digest, e.revision, if e.fate.hook.Some? then e.fate.hook.value else "");
    s.(hooks := s.hooks + 1, blessed := s.blessed || e.fate.hook.None?, saved := if e.fate.saves then next else s.saved)
  }

  function Step(dryRun: bool, s: Local, e: Event): Local {
    match e
    case Reconcile(generation, revision, digest, fate) =>
      if !fate.fetched || !fate.accepted || dryRun || !fate.loaded then s else
        var changed := Switches(s, digest, fate.deployment);
        var deployed := if changed then Switch(s, digest, false) else s;
        if !Returns(fate.deployment) then deployed
        else if !changed && s.saved.hookError == "" then
          if s.saved.generation == generation && s.saved.digest == digest then deployed
          else deployed.(saved := if fate.saves then State(generation, digest, revision, "") else s.saved)
        else AfterHook(deployed, e)
    case Seed(digest, force, deployment) =>
      if s.current != "" && s.current != digest && !force then s
      else if Switches(s, digest, deployment) then Switch(s, digest, true)
      else s
  }

  // Whether the call reports success.
  predicate Succeeds(dryRun: bool, s: Local, e: Event) {
    match e
    case Reconcile(generation, revision, digest, fate) =>
      fate.fetched && fate.accepted &&
      (dryRun ||
       (fate.loaded && Returns(fate.deployment) &&
        if !Switches(s, digest, fate.deployment) && s.saved.hookError == "" then
          (s.saved.generation == generation && s.saved.digest == digest) || fate.saves
        else fate.hook.None? && fate.saves))
    case Seed(digest, force, deployment) =>
      (s.current == "" || s.current == digest || force) && Returns(deployment)
  }

  /** A reconcile that reports success has the requested release current and recorded without a hook error. */
  lemma SuccessIsRecorded(s: Local, e: Event)
    requires e.Reconcile? && Possible(e) && Succeeds(false, s, e)
    ensures var end := Step(false, s, e);
      end.current == e.digest == end.saved.digest && end.saved.generation == e.generation && end.saved.hookError == ""
  {
  }

  // The call gets as far as the activation.
  predicate Reaches(dryRun: bool, e: Event) {
    e.Reconcile? && e.fate.fetched && e.fate.accepted && !dryRun && e.fate.loaded
  }

  // It switches the release, and it comes to run the hook.
  predicate DoesSwitch(dryRun: bool, s: Local, e: Event) {
    Reaches(dryRun, e) && s.current != e.digest && e.fate.deployment != Refused
  }

  predicate DoesHook(dryRun: bool, s: Local, e: Event) {
    Reaches(dryRun, e) && e.fate.deployment == Deployed && (s.current != e.digest || s.saved.hookError != "")
  }

  // It has only a new generation or digest to record.
  predicate DoesRecord(dryRun: bool, s: Local, e: Event) {
    Reaches(dryRun, e) && e.fate.deployment == Deployed && s.current == e.digest && s.saved.hookError == "" &&
    (s.saved.generation != e.generation || s.saved.digest != e.digest)
  }

  /** Everything a reconcile leaves behind.  A hook that ran is recorded, if the save succeeds, as exactly the requested
      generation, digest and revision with its error text; an unchanged release without a hook error only gets a new
      generation or digest recorded; in every other case, and whenever the save fails, the saved state stays. */
  lemma ReconcileOutcome(dryRun: bool, s: Local, e: Event)
    requires e.Reconcile?
    ensures var end := Step(dryRun, s, e);
      end.current == (if DoesSwitch(dryRun, s, e) then e.digest else s.current) &&
      end.switches == s.switches + (if DoesSwitch(dryRun, s, e) then 1 else 0) &&
      end.hooks == s.hooks + (if DoesHook(dryRun, s, e) then 1 else 0)
    ensures DoesHook(dryRun, s, e) && e.fate.saves ==>
      Step(dryRun, s, e).saved == State(e.generation, e.digest, e.revision, match e.fate.hook case None => "" case Some(text) => text)
    ensures DoesRecord(dryRun, s, e) && e.fate.saves ==>
      Step(dryRun, s, e).saved == State(e.generation, e.digest, e.revision, "")
    ensures !e.fate.saves || (!DoesHook(dryRun, s, e) && !DoesRecord(dryRun, s, e)) ==> Step(dryRun, s, e).saved == s.saved
    ensures Step(dryRun, s, e).blessed <==>
      (DoesHook(dryRun, s, e) && e.fate.hook.None?) || (s.blessed && !DoesSwitch(dryRun, s, e))
  {
  }

  /** When a reconcile reports success: exactly when it fetched an accepted bundle, and, unless this is a dry run,
      loaded the state, activated, had no failing hook, and saved whatever there was to save. */
  lemma SuccessIs(dryRun: bool, s: Local, e: Event)
    requires e.Reconcile?
    ensures Succeeds(dryRun, s, e) <==>
      e.fate.fetched && e.fate.accepted &&
      (dryRun ||
       (e.fate.loaded && e.fate.deployment == Deployed &&
        (DoesHook(dryRun, s, e) ==> e.fate.hook.None?) &&
        (DoesHook(dryRun, s, e) || s.saved.generation != e.generation || s.saved.digest != e.digest ==> e.fate.saves)))
  {
  }

  /** Everything a seed leaves behind: the release, and nothing recorded; without force only over no release or the
      same one. */
  lemma SeedOutcome(dryRun: bool, s: Local, e: Event)
    requires e.Seed?
    ensures var end, allowed := Step(dryRun, s, e), e.force || s.current == "" || s.current == e.digest;
      var switched := allowed && s.current != e.digest && e.deployment != Refused;
      end == s.(current := if switched then e.digest else s.current, blessed := s.blessed || switched,
                switches := s.switches + if switched then 1 else 0) &&
      (Succeeds(dryRun, s, e) <==> allowed && e.deployment == Deployed)
  {
  }

  function Run(dryRun: bool, s: Local, events: seq<Event>): Local {
    if events == [] then s
    else Step(dryRun, Run(dryRun, s, events[..|events| - 1]), events[|events| - 1])
  }

  // A state without a hook error belongs to a release whose hook has succeeded.
  predicate Honest(s: Local) {
    s.saved.hookError == "" && s.current != "" ==> s.blessed
  }

  // The one way to lose that: the release is switched, its hook does not succeed, and the
  // failure is not recorded over a state without a hook error.
  predicate Gap(dryRun: bool, s: Local, e: Event) {
    e.Reconcile? && e.fate.fetched && e.fate.accepted && !dryRun && e.fate.loaded &&
    Switches(s, e.digest, e.fate.deployment) && s.saved.hookError == "" &&
    (!Returns(e.fate.deployment) || (e.fate.hook.Some? && !e.fate.saves))
  }

  /** From an honest state, a step ends in a dishonest one exactly when it falls in the gap. */
  lemma DishonestIffGap(dryRun: bool, s: Local, e: Event)
    requires Possible(e) && Honest(s)
    ensures !Honest(Step(dryRun, s, e)) <==> Gap(dryRun, s, e)
  {
    if e.Reconcile? && Returns(e.fate.deployment) && e.fate.hook.Some? { assert e.fate.hook.value != ""; }
  }

  ghost predicate NoGap(dryRun: bool, s: Local, events: seq<Event>) {
    forall i :: 0 <= i < |events| ==> Possible(events[i]) && !Gap(dryRun, Run(dryRun, s, events[..i]), events[i])
  }

  /** Over any run with nothing in the gap, a saved state without a hook error whose digest is the current
      release means that a hook succeeded for that release, or seed put it there. */
  lemma {:induction false} SavedMeansHookSucceeded(dryRun: bool, s: Local, events: seq<Event>)
    requires Honest(s) && NoGap(dryRun, s, events)
    ensures Honest(Run(dryRun, s, events))
    ensures var end := Run(dryRun, s, events);
      end.saved.hookError == "" && end.saved.digest == end.current && end.current != "" ==> end.blessed
  {
    if events != [] {
      var before := events[..|events| - 1];
      forall i | 0 <= i < |before|
        ensures Possible(before[i]) && !Gap(dryRun, Run(dryRun, s, before[..i]), before[i])
      {
        assert events[i] == before[i] && events[..i] == before[..i];
      }
      SavedMeansHookSucceeded(dryRun, s, before);
      DishonestIffGap(dryRun, Run(dryRun, s, before), events[|events| - 1]);
    }
  }

  /** In a dishonest state, and only there among states whose release has had no successful hook, the next
      undisturbed reconcile of the current digest skips the hook and records success. */
  lemma SkippedIffDishonest(s: Local, generation: string, revision: int, hook: Option<string>)
    requires s.current != "" && !s.blessed && hook != Some("")
    ensures var end := Step(false, s, Reconcile(generation, revision, s.current, Fate(true, true, true, Deployed, hook, true)));
      (end.hooks == s.hooks <==> !Honest(s)) &&
      (!Honest(s) ==> end.saved.hookError == "" && end.saved.digest == end.current && end.saved.generation == generation &&
                      !end.blessed)
  {
  }

  /** A failed hook is run again by the next reconcile of that digest, without touching the release, and
      its success is then recorded. */
  lemma FailedHookRunsAgain(s: Local, generation: string, revision: int, hook: Option<string>, saves: bool)
    requires s.saved.hookError != "" && s.current != "" && hook != Some("")
    ensures var end := Step(false, s, Reconcile(generation, revision, s.current, Fate(true, true, true, Deployed, hook, saves)));
      end.hooks == s.hooks + 1 && end.switches == s.switches && end.current == s.current &&
      (hook.None? ==> end.blessed) && (hook.None? && saves ==> end.saved == State(generation, s.current, revision, "")) &&
      (hook.Some? || !saves ==> end.saved.hookError != "")
  {
  }

  /** The skipped hook, as a run: a clean activation, then one broken after the switch, then an undisturbed
      reconcile of the same digest. */
  lemma SkippedHookRun(a: string, b: string)
    requires a != "" && b != "" && a != b
    ensures var fine := Fate(true, true, true, Deployed, None, true);
      var events := [Reconcile("g1", 1, a, fine), Reconcile("g2", 2, b, fine.(deployment := Broken)), Reconcile("g2", 2, b, fine)];
      var end := Run(false, Local("", BLANK, false, 0, 0), events);
      end.saved == State("g2", b, 2, "") && end.current == b && end.hooks == 1 && !end.blessed &&
      NoGap(false, Local("", BLANK, false, 0, 0), events[..1])
  {
    var fine := Fate(true, true, true, Deployed, None, true);
    var events := [Reconcile("g1", 1, a, fine), Reconcile("g2", 2, b, fine.(deployment := Broken)), Reconcile("g2", 2, b, fine)];
    var start := Local("", BLANK, false, 0, 0);
    var first := Step(false, start, events[0]);
    assert first == Local(a, State("g1", a, 1, ""), true, 1, 1);
    var second := Step(false, first, events[1]);
    assert second == Local(b, State("g1", a, 1, ""), false, 1, 2);
    assert events[..2][..1] == events[..1] && events[..1][..0] == [] && events[..1] == [events[0]];
    assert Run(false, start, events[..1]) == Step(false, Run(false, start, []), events[0]);
    assert Run(false, start, events[..2]) == Step(false, Run(false, start, events[..1]), events[1]);
    assert Run(false, start, events) == Step(false, Run(false, start, events[..2]), events[2]);
  }

  /** The agent's side of one target, updated in place. */
  class Target {
    var current: string
    var saved: State
    ghost var blessed: bool
    ghost var hooks: nat
    ghost var switches: nat
    const dryRun: bool

    ghost function Now(): Local reads this { Local(current, saved, blessed, hooks, switches) }

    // Activate, as far as the digest goes.
    method Activate(digest: string, deployment: Deployment, ghost bySeed: bool) returns (ok: bool, changed: bool)
      modifies this
      ensures changed <==> Switches(old(Now()), digest, deployment)
      ensures Now() == if changed then Switch(old(Now()), digest, bySeed) else old(Now())
      ensures ok <==> Returns(deployment)
    {
      changed := current != digest && !deployment.Refused?;
      if changed {
        current, blessed, switches := digest, bySeed, switches + 1;
      }
      ok := deployment.Deployed?;
    }

    method Reconcile(generation: string, revision: int, digest: string, fate: Fate) returns (ok: bool)
      modifies this
      ensures Now() == Step(dryRun, old(Now()), Event.Reconcile(generation, revision, digest, fate))
      ensures ok <==> Succeeds(dryRun, old(Now()), Event.Reconcile(generation, revision, digest, fate))
    {
      if !fate.fetched || !fate.accepted { return false; }
      if dryRun { return true; }
      if !fate.loaded { return false; }
      var previous := saved;
      var deployed, changed := Activate(digest, fate.deployment, false);
      if !deployed { return false; }
      if !changed && previous.hookError == "" {
        if previous.generation != generation || previous.digest != digest {
          previous := previous.(generation := generation, digest := digest, revision := revision);
          if !fate.saves { return false; }
          saved := previous;
        }
        return true;
      }
      var next := State(generation, digest, revision, "");
      hooks := hooks + 1;
      if fate.hook.Some? {
        next := next.(hookError := fate.hook.value);
        if fate.saves { saved := next; }
        return false;
      }
      blessed := true;
      if !fate.saves { return false; }
      saved := next;
      ok := true;
    }

    method Seed(digest: string, force: bool, deployment: Deployment) returns (ok: bool)
      modifies this
      ensures Now() == Step(dryRun, old(Now()), Event.Seed(digest, force, deployment))
      ensures ok <==> Succeeds(dryRun, old(Now()), Event.Seed(digest, force, deployment))
    {
      if current != "" && current != digest && !force { return false; }
      var deployed, changed := Activate(digest, deployment, true);
      ok := deployed;
    }
  }
}
