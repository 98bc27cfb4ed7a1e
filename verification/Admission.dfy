/** Admission of concurrent reconciles: one lock per target, taken before one of a bounded number
    of slots, and the error channel of a snapshot pass. */
module Admission {
  import opened Wrappers

  // Where one call of Reconcile is.  A lock holder is waiting for a slot, running, or about to
  // unlock; deferred calls give the slot back before the lock.  A failed call of a snapshot
  // pass sends its error after it has returned.
  datatype Phase = Locking | Slotting | Running | Unlocking(failed: bool) | Sending | Done

  // reports: the call belongs to the snapshot pass.
  datatype Call = Call(target: string, reports: bool, phase: Phase)

  // max slots, and the configured and active targets of the snapshot pass.
  datatype Limits = Limits(max: nat, targets: set<string>, active: set<string>)

  // todo: targets the pass has still to visit; holders: the call holding each lock;
  // slots: slots taken; sent: errors in the channel, whose capacity is |targets|.
  datatype System = System(todo: seq<string>, calls: seq<Call>, holders: map<string, nat>, slots: nat, sent: nat)

  // The pass visits its next target (a deletion may be an error), another caller arrives,
  // or one call moves on: a wait for a slot may end by cancellation, a run may fail.
  datatype Step = Visit(error: bool) | Arrive(target: string) | Move(id: nat, cancelled: bool, fails: bool)

  predicate HoldsLock(phase: Phase) { phase.Slotting? || phase.Running? || phase.Unlocking? }

  function WithPhase(s: System, id: nat, phase: Phase): System
    requires id < |s.calls|
  {
    s.(calls := s.calls[id := s.calls[id].(phase := phase)])
  }

  // The state after one step; None when the step has to wait or does not exist.
  function Next(l: Limits, s: System, step: Step): Option<System> {
    match step
    case Visit(error) =>
      if s.todo == [] then None
      else if s.todo[0] in l.active then
        Some(s.(todo := s.todo[1..], calls := s.calls + [Call(s.todo[0], true, Locking)]))
      else if !error then Some(s.(todo := s.todo[1..]))
      else if s.sent < |l.targets| then Some(s.(todo := s.todo[1..], sent := s.sent + 1))
      else None
    case Arrive(target) =>
      Some(s.(calls := s.calls + [Call(target, false, if target in l.targets then Locking else Done)]))
    case Move(id, cancelled, fails) =>
      if id >= |s.calls| then None else MoveCall(l, s, id, cancelled, fails)
  }

  function MoveCall(l: Limits, s: System, id: nat, cancelled: bool, fails: bool): Option<System>
    requires id < |s.calls|
  {
    var call := s.calls[id];
    match call.phase
    case Locking =>
      if call.target in s.holders then None
      else Some(WithPhase(s, id, Slotting).(holders := s.holders[call.target := id]))
    case Slotting =>
      if cancelled then Some(WithPhase(s, id, Unlocking(true)))
      else if s.slots < l.max then Some(WithPhase(s, id, Running).(slots := s.slots + 1))
      else None
    case Running =>
      if s.slots == 0 then None else Some(WithPhase(s, id, Unlocking(fails)).(slots := s.slots - 1))
    case Unlocking(failed) =>
      Some(WithPhase(s, id, if failed && call.reports then Sending else Done).(holders := s.holders - {call.target}))
    case Sending =>
      if s.sent < |l.targets| then Some(WithPhase(s, id, Done).(sent := s.sent + 1)) else None
    case Done => None
  }

  // ---- sums over the calls ----

  function Sum(calls: seq<Call>, weight: Call -> nat): nat {
    if calls == [] then 0 else Sum(calls[..|calls| - 1], weight) + weight(calls[|calls| - 1])
  }

  lemma SumAppend(calls: seq<Call>, weight: Call -> nat, c: Call)
    ensures Sum(calls + [c], weight) == Sum(calls, weight) + weight(c)
  {
    assert (calls + [c])[..|calls|] == calls;
  }

  lemma {:induction false} SumUpdate(calls: seq<Call>, weight: Call -> nat, id: nat, c: Call)
    requires id < |calls|
    ensures Sum(calls[id := c], weight) + weight(calls[id]) == Sum(calls, weight) + weight(c)
    decreases |calls|
  {
    var n := |calls| - 1;
    if id == n {
      assert calls[id := c][..n] == calls[..n];
    } else {
      assert calls[id := c][..n] == calls[..n][id := c];
      SumUpdate(calls[..n], weight, id, c);
    }
  }

  lemma {:induction false} SumPositive(calls: seq<Call>, weight: Call -> nat) returns (id: nat)
    requires Sum(calls, weight) > 0
    ensures id < |calls| && weight(calls[id]) > 0
    decreases |calls|
  {
    if weight(calls[|calls| - 1]) > 0 { id := |calls| - 1; } else { id := SumPositive(calls[..|calls| - 1], weight); }
  }

  lemma {:induction false} SumAtLeast(calls: seq<Call>, weight: Call -> nat, id: nat)
    requires id < |calls|
    ensures Sum(calls, weight) >= weight(calls[id])
    decreases |calls|
  {
    if id < |calls| - 1 { SumAtLeast(calls[..|calls| - 1], weight, id); }
  }

  function RunningWeight(c: Call): nat { if c.phase.Running? then 1 else 0 }
  function ReportWeight(c: Call): nat { if c.reports && !c.phase.Done? then 1 else 0 }

  // How many moves a call has left at most.
  function Remaining(c: Call): nat {
    match c.phase
    case Locking => 5 case Slotting => 4 case Running => 3 case Unlocking(_) => 2 case Sending => 1 case Done => 0
  }

  function Rank(s: System): nat { 6 * |s.todo| + Sum(s.calls, Remaining) }

  // ---- the invariant ----

  predicate Owns(s: System, t: string, id: nat) {
    id < |s.calls| && s.calls[id].target == t && HoldsLock(s.calls[id].phase)
  }

  ghost predicate LocksOk(s: System) {
    (forall t :: t in s.holders ==> Owns(s, t, s.holders[t])) &&
    forall t, i :: Owns(s, t, i) ==> t in s.holders && s.holders[t] == i
  }

  ghost predicate SendersOk(s: System) {
    forall i :: 0 <= i < |s.calls| && s.calls[i].phase.Sending? ==> s.calls[i].reports
  }

  ghost predicate SlotsOk(l: Limits, s: System) {
    s.slots == Sum(s.calls, RunningWeight) && s.slots <= l.max
  }

  ghost predicate ChannelOk(l: Limits, s: System) {
    s.sent + |s.todo| + Sum(s.calls, ReportWeight) <= |l.targets|
  }

  ghost predicate Ok(l: Limits, s: System) {
    LocksOk(s) && SendersOk(s) && SlotsOk(l, s) && ChannelOk(l, s) && forall t :: t in s.todo ==> t in l.targets
  }

  // A pass about to start beside nothing else; others may arrive at any time.
  ghost predicate Start(l: Limits, s: System) {
    s.calls == [] && s.holders == map[] && s.slots == 0 && s.sent == 0 &&
    |s.todo| == |l.targets| && forall t :: t in s.todo <==> t in l.targets
  }

  // What a move does to the call and to the counters.
  lemma MoveChanges(l: Limits, s: System, step: Step)
    requires step.Move? && Next(l, s, step).Some?
    ensures var after := Next(l, s, step).value;
      step.id < |s.calls| && |after.calls| == |s.calls| && after.calls == s.calls[step.id := after.calls[step.id]] &&
      after.todo == s.todo && Remaining(after.calls[step.id]) < Remaining(s.calls[step.id]) &&
      after.slots + RunningWeight(s.calls[step.id]) == s.slots + RunningWeight(after.calls[step.id]) &&
      (s.slots <= l.max ==> after.slots <= l.max) &&
      (s.calls[step.id].phase.Sending? && s.calls[step.id].reports ==>
        after.sent + ReportWeight(after.calls[step.id]) == s.sent + ReportWeight(s.calls[step.id])) &&
      (!s.calls[step.id].phase.Sending? ==>
        after.sent == s.sent && ReportWeight(after.calls[step.id]) <= ReportWeight(s.calls[step.id]))
  {
  }

  lemma SlotsNext(l: Limits, s: System, step: Step)
    requires SlotsOk(l, s) && Next(l, s, step).Some?
    ensures SlotsOk(l, Next(l, s, step).value)
  {
    var after := Next(l, s, step).value;
    if step.Move? {
      MoveChanges(l, s, step);
      SumUpdate(s.calls, RunningWeight, step.id, after.calls[step.id]);
    } else if |after.calls| > |s.calls| {
      SumAppend(s.calls, RunningWeight, after.calls[|s.calls|]);
    }
  }

  lemma ChannelNext(l: Limits, s: System, step: Step)
    requires ChannelOk(l, s) && SendersOk(s) && Next(l, s, step).Some?
    ensures ChannelOk(l, Next(l, s, step).value)
  {
    var after := Next(l, s, step).value;
    if step.Move? {
      MoveChanges(l, s, step);
      SumUpdate(s.calls, ReportWeight, step.id, after.calls[step.id]);
    } else if |after.calls| > |s.calls| {
      SumAppend(s.calls, ReportWeight, after.calls[|s.calls|]);
    }
  }

  // One call changes its phase without taking or giving back its lock.
  lemma LocksKept(s: System, id: nat, phase: Phase, after: System)
    requires LocksOk(s) && id < |s.calls| && (HoldsLock(phase) <==> HoldsLock(s.calls[id].phase))
    requires after.calls == s.calls[id := s.calls[id].(phase := phase)] && after.holders == s.holders
    ensures LocksOk(after)
  {
    forall t, i ensures Owns(after, t, i) <==> Owns(s, t, i) {}
  }

  lemma LockTaken(s: System, id: nat, after: System)
    requires LocksOk(s) && id < |s.calls| && s.calls[id].target !in s.holders
    requires after.calls == s.calls[id := s.calls[id].(phase := Slotting)] && after.holders == s.holders[s.calls[id].target := id]
    ensures LocksOk(after)
  {
    forall t, i ensures Owns(after, t, i) <==> Owns(s, t, i) || (i == id && t == s.calls[id].target) {}
  }

  lemma LockGiven(s: System, id: nat, phase: Phase, after: System)
    requires LocksOk(s) && id < |s.calls| && HoldsLock(s.calls[id].phase) && !HoldsLock(phase)
    requires after.calls == s.calls[id := s.calls[id].(phase := phase)] && after.holders == s.holders - {s.calls[id].target}
    ensures LocksOk(after)
  {
    forall t, i ensures Owns(after, t, i) <==> Owns(s, t, i) && i != id {}
    assert Owns(s, s.calls[id].target, id);
  }

  lemma LocksArrive(s: System, c: Call, after: System)
    requires LocksOk(s) && !HoldsLock(c.phase) && after.calls == s.calls + [c] && after.holders == s.holders
    ensures LocksOk(after)
  {
    forall t, i ensures Owns(after, t, i) <==> Owns(s, t, i) {}
  }

  lemma LocksNext(l: Limits, s: System, step: Step)
    requires LocksOk(s) && Next(l, s, step).Some?
    ensures LocksOk(Next(l, s, step).value)
  {
    var after := Next(l, s, step).value;
    if step.Move? {
      var phase := s.calls[step.id].phase;
      if phase.Locking? {
        LockTaken(s, step.id, after);
      } else if phase.Unlocking? {
        LockGiven(s, step.id, after.calls[step.id].phase, after);
      } else {
        LocksKept(s, step.id, after.calls[step.id].phase, after);
      }
    } else if |after.calls| > |s.calls| {
      LocksArrive(s, after.calls[|s.calls|], after);
    } else {
      forall t, i ensures Owns(after, t, i) <==> Owns(s, t, i) {}
    }
  }

  lemma SendersNext(l: Limits, s: System, step: Step)
    requires SendersOk(s) && Next(l, s, step).Some?
    ensures SendersOk(Next(l, s, step).value)
  {
  }

  lemma OkNext(l: Limits, s: System, step: Step)
    requires Ok(l, s) && Next(l, s, step).Some?
    ensures Ok(l, Next(l, s, step).value)
  {
    LocksNext(l, s, step);
    SendersNext(l, s, step);
    SlotsNext(l, s, step);
    ChannelNext(l, s, step);
  }

  function RunningCalls(calls: seq<Call>): set<int> {
    set i | 0 <= i < |calls| && calls[i].phase.Running?
  }

  lemma {:induction false} RunningCount(calls: seq<Call>)
    ensures |RunningCalls(calls)| == Sum(calls, RunningWeight)
    decreases |calls|
  {
    if calls != [] {
      var n := |calls| - 1;
      RunningCount(calls[..n]);
      assert RunningCalls(calls) == RunningCalls(calls[..n]) + if calls[n].phase.Running? then {n} else {};
    }
  }

  /** Past admission there is at most one call per target, and at most max in all. */
  lemma AdmissionIsExclusive(l: Limits, s: System)
    requires Ok(l, s)
    ensures |RunningCalls(s.calls)| <= l.max
    ensures forall i, j :: i in RunningCalls(s.calls) && j in RunningCalls(s.calls) && i != j ==>
      s.calls[i].target != s.calls[j].target
  {
    RunningCount(s.calls);
    forall i | i in RunningCalls(s.calls) ensures Owns(s, s.calls[i].target, i) {}
  }

  /** A call that holds a slot, or has given it back, never waits. */
  lemma SlotHolderNeverWaits(l: Limits, s: System, id: nat, cancelled: bool, fails: bool)
    requires Ok(l, s) && id < |s.calls|
    requires s.calls[id].phase.Running? || s.calls[id].phase.Unlocking? || s.calls[id].phase.Sending?
    ensures Next(l, s, Move(id, cancelled, fails)).Some?
  {
    SumAtLeast(s.calls, RunningWeight, id);
    SumAtLeast(s.calls, ReportWeight, id);
  }

  lemma StartOk(l: Limits, s: System)
    requires Start(l, s)
    ensures Ok(l, s)
  {
  }

  // Work is left: a target to visit, or a call that has not finished.
  predicate Pending(s: System) {
    s.todo != [] || exists i :: 0 <= i < |s.calls| && !s.calls[i].phase.Done?
  }

  /** No reachable state is stuck: while work is left, some step other than an arrival can be taken,
      and a visit is never the step that waits. */
  lemma NeverStuck(l: Limits, s: System) returns (step: Step)
    requires Ok(l, s) && l.max > 0 && Pending(s)
    ensures !step.Arrive? && Next(l, s, step).Some?
    ensures s.todo != [] ==> forall error :: Next(l, s, Visit(error)).Some?
  {
    if s.todo != [] { return Visit(false); }
    var i :| 0 <= i < |s.calls| && !s.calls[i].phase.Done?;
    if s.calls[i].phase.Locking? && s.calls[i].target in s.holders {
      i := s.holders[s.calls[i].target];
    }
    if s.calls[i].phase.Slotting? && s.slots == l.max {
      i := SumPositive(s.calls, RunningWeight);
    }
    if !s.calls[i].phase.Locking? && !s.calls[i].phase.Slotting? { SlotHolderNeverWaits(l, s, i, false, false); }
    step := Move(i, false, false);
  }

  lemma RankFalls(l: Limits, s: System, step: Step)
    requires Next(l, s, step).Some?
    ensures if step.Arrive? then Rank(Next(l, s, step).value) <= Rank(s) + 5 else Rank(Next(l, s, step).value) < Rank(s)
  {
    var after := Next(l, s, step).value;
    if step.Move? {
      MoveChanges(l, s, step);
      SumUpdate(s.calls, Remaining, step.id, after.calls[step.id]);
    } else if |after.calls| > |s.calls| {
      SumAppend(s.calls, Remaining, after.calls[|s.calls|]);
    }
  }

  // A run: every step could be taken.
  ghost predicate Runs(l: Limits, s: System, steps: seq<Step>, end: System)
    decreases |steps|
  {
    if steps == [] then end == s
    else Next(l, s, steps[0]).Some? && Runs(l, Next(l, s, steps[0]).value, steps[1..], end)
  }

  function Arrivals(steps: seq<Step>): nat {
    if steps == [] then 0 else (if steps[0].Arrive? then 1 else 0) + Arrivals(steps[1..])
  }

  /** Every run keeps the invariant, sends no more errors than the channel holds, and is finite but for
      arrivals; one that cannot go on has finished every call. */
  lemma {:induction false} RunsFinish(l: Limits, s: System, steps: seq<Step>, end: System)
    requires Ok(l, s) && l.max > 0 && Runs(l, s, steps, end)
    ensures Ok(l, end) && end.sent <= |l.targets|
    ensures |steps| + Rank(end) <= Rank(s) + 6 * Arrivals(steps)
    ensures (forall step: Step :: !step.Arrive? ==> Next(l, end, step).None?) ==> !Pending(end)
    decreases |steps|
  {
    if steps == [] {
      if Pending(end) { var step := NeverStuck(l, end); }
    } else {
      OkNext(l, s, steps[0]);
      RankFalls(l, s, steps[0]);
      RunsFinish(l, Next(l, s, steps[0]).value, steps[1..], end);
    }
  }

  // ---- what a run has done ----

  // The calls that ran, were cancelled waiting for a slot, or failed, and the deletion errors of the pass.
  datatype History = History(ran: set<nat>, cancelled: set<nat>, failed: set<nat>, errors: nat)

  const NOTHING := History({}, {}, {}, 0)

  predicate At(s: System, step: Step, phase: Phase) { step.Move? && step.id < |s.calls| && s.calls[step.id].phase == phase }

  function Noted(l: Limits, s: System, h: History, step: Step): History {
    if At(s, step, Running) then
      h.(ran := h.ran + {step.id}, failed := if step.fails then h.failed + {step.id} else h.failed)
    else if At(s, step, Slotting) && step.cancelled then
      h.(cancelled := h.cancelled + {step.id}, failed := h.failed + {step.id})
    else if step == Visit(true) && s.todo != [] && s.todo[0] !in l.active then h.(errors := h.errors + 1)
    else h
  }

  function HistoryOf(l: Limits, s: System, h: History, steps: seq<Step>): History
    decreases |steps|
  {
    if steps == [] || Next(l, s, steps[0]).None? then h
    else HistoryOf(l, Next(l, s, steps[0]).value, Noted(l, s, h, steps[0]), steps[1..])
  }

  predicate Past(phase: Phase) { phase.Unlocking? || phase.Sending? || phase.Done? }

  // What the phase of one call says about what it has done.
  predicate CallKnown(l: Limits, c: Call, ran: bool, cancelled: bool, failed: bool) {
    (ran || cancelled || failed ==> Past(c.phase) && c.target in l.targets) && (cancelled ==> failed) &&
    (!c.phase.Done? ==> c.target in l.targets) &&
    (Past(c.phase) && c.target in l.targets ==> (ran <==> !cancelled)) &&
    (c.phase.Unlocking? ==> (c.phase.failed <==> failed)) && (c.phase.Sending? ==> failed && c.reports)
  }

  predicate KnownAt(l: Limits, s: System, h: History, i: nat) {
    i < |s.calls| && CallKnown(l, s.calls[i], i in h.ran, i in h.cancelled, i in h.failed)
  }

  // The failed calls of the pass that have finished.
  function Reported(s: System, h: History): set<nat> {
    set i | i in h.failed && i < |s.calls| && s.calls[i].reports && s.calls[i].phase.Done?
  }

  ghost predicate Known(l: Limits, s: System, h: History) {
    (forall i :: 0 <= i < |s.calls| ==> KnownAt(l, s, h, i)) &&
    (forall i :: i in h.ran + h.cancelled + h.failed ==> i < |s.calls|) &&
    s.sent == h.errors + |Reported(s, h)|
  }

  lemma MoveKnown(l: Limits, s: System, h: History, step: Step)
    requires Known(l, s, h) && SendersOk(s) && step.Move? && Next(l, s, step).Some?
    ensures KnownAt(l, Next(l, s, step).value, Noted(l, s, h, step), step.id)
  {
    assert KnownAt(l, s, h, step.id);
  }

  // One call changes its phase, and may join the failed ones; it is counted if it is then done.
  lemma ReportedMoves(s: System, h: History, id: nat, after: System, more: History)
    requires id < |s.calls| == |after.calls| && after.calls == s.calls[id := after.calls[id]]
    requires forall i :: i != id ==> (i in more.failed <==> i in h.failed)
    requires id !in Reported(s, h)
    ensures Reported(after, more) ==
      Reported(s, h) + if id in more.failed && after.calls[id].reports && after.calls[id].phase.Done? then {id} else {}
  {
    forall i: nat | i != id ensures i in Reported(after, more) <==> i in Reported(s, h) {
      if i < |s.calls| { assert after.calls[i] == s.calls[i]; }
    }
  }

  // A call is counted when it sends its error.
  lemma MoveCounts(l: Limits, s: System, h: History, step: Step)
    requires step.Move? && KnownAt(l, s, h, step.id) && Next(l, s, step).Some?
    ensures var after, more := Next(l, s, step).value, Noted(l, s, h, step);
      !s.calls[step.id].phase.Done? && after.calls == s.calls[step.id := after.calls[step.id]] && more.errors == h.errors &&
      (step.id in more.failed && after.calls[step.id].reports && after.calls[step.id].phase.Done? <==> s.calls[step.id].phase.Sending?) &&
      after.sent == s.sent + (if s.calls[step.id].phase.Sending? then 1 else 0)
  {
  }

  lemma MoveSends(l: Limits, s: System, h: History, step: Step)
    requires Known(l, s, h) && step.Move? && Next(l, s, step).Some?
    ensures Next(l, s, step).value.sent == Noted(l, s, h, step).errors + |Reported(Next(l, s, step).value, Noted(l, s, h, step))|
  {
    assert KnownAt(l, s, h, step.id);
    MoveCounts(l, s, h, step);
    ReportedMoves(s, h, step.id, Next(l, s, step).value, Noted(l, s, h, step));
    var was, id := Reported(s, h), step.id;
    assert |was + {}| == |was| && |was + {id}| == |was| + 1;
  }

  lemma KnownNext(l: Limits, s: System, h: History, step: Step)
    requires Known(l, s, h) && Ok(l, s) && Next(l, s, step).Some?
    ensures Known(l, Next(l, s, step).value, Noted(l, s, h, step))
  {
    var after, more := Next(l, s, step).value, Noted(l, s, h, step);
    if step.Move? {
      MoveKnown(l, s, h, step);
      MoveSends(l, s, h, step);
      forall i | i in more.ran + more.cancelled + more.failed ensures i < |after.calls| {
        assert i == step.id || i in h.ran + h.cancelled + h.failed;
      }
      forall i | 0 <= i < |after.calls| ensures KnownAt(l, after, more, i) {
        if i != step.id { assert KnownAt(l, s, h, i) && after.calls[i] == s.calls[i]; }
      }
    } else {
      VisitKnown(l, s, h, step);
    }
  }

  lemma VisitKnown(l: Limits, s: System, h: History, step: Step)
    requires (forall t :: t in s.todo ==> t in l.targets) && Known(l, s, h) && !step.Move? && Next(l, s, step).Some?
    ensures Known(l, Next(l, s, step).value, Noted(l, s, h, step))
  {
    var after, more := Next(l, s, step).value, Noted(l, s, h, step);
    assert |s.calls| !in h.ran + h.cancelled + h.failed;
    forall i | 0 <= i < |after.calls| ensures KnownAt(l, after, more, i) {
      if i < |s.calls| { assert KnownAt(l, s, h, i) && after.calls[i] == s.calls[i]; }
    }
    assert Reported(after, more) == Reported(s, h);
  }

  // The targets of the calls of the pass, and those of the targets still to visit that will get one.
  function PassTargets(calls: seq<Call>): seq<string> {
    if calls == [] then [] else
      PassTargets(calls[..|calls| - 1]) + if calls[|calls| - 1].reports then [calls[|calls| - 1].target] else []
  }

  function ActiveAmong(todo: seq<string>, active: set<string>): seq<string> {
    if todo == [] then [] else (if todo[0] in active then [todo[0]] else []) + ActiveAmong(todo[1..], active)
  }

  lemma {:induction false} PassTargetsMoved(calls: seq<Call>, others: seq<Call>)
    requires |calls| == |others|
    requires forall i :: 0 <= i < |calls| ==> others[i].target == calls[i].target && others[i].reports == calls[i].reports
    ensures PassTargets(others) == PassTargets(calls)
  {
    if calls != [] {
      var n := |calls| - 1;
      forall i | 0 <= i < n ensures others[..n][i].target == calls[..n][i].target && others[..n][i].reports == calls[..n][i].reports {
        assert others[i].target == calls[i].target;
      }
      PassTargetsMoved(calls[..n], others[..n]);
    }
  }

  lemma PassNext(l: Limits, s: System, step: Step)
    requires Next(l, s, step).Some?
    ensures var after := Next(l, s, step).value;
      PassTargets(after.calls) + ActiveAmong(after.todo, l.active) == PassTargets(s.calls) + ActiveAmong(s.todo, l.active)
  {
    var after := Next(l, s, step).value;
    if step.Move? {
      MoveChanges(l, s, step);
      PassTargetsMoved(s.calls, after.calls);
    } else if |after.calls| > |s.calls| {
      assert after.calls[..|s.calls|] == s.calls;
    }
  }

  lemma {:induction false} RunKnown(l: Limits, s: System, h: History, steps: seq<Step>, end: System)
    requires Ok(l, s) && Known(l, s, h) && Runs(l, s, steps, end)
    ensures Ok(l, end) && Known(l, end, HistoryOf(l, s, h, steps))
    ensures PassTargets(end.calls) + ActiveAmong(end.todo, l.active) == PassTargets(s.calls) + ActiveAmong(s.todo, l.active)
    decreases |steps|
  {
    if steps != [] {
      OkNext(l, s, steps[0]);
      KnownNext(l, s, h, steps[0]);
      PassNext(l, s, steps[0]);
      RunKnown(l, Next(l, s, steps[0]).value, Noted(l, s, h, steps[0]), steps[1..], end);
    }
  }

  /** What a finished pass has done, whoever else was calling: it made one call for each active target, in the order of
      its visits; every call for a configured target either ran, or was cancelled waiting for a slot, and no other ran; and the channel
      holds one error for each failed deletion and for each call of the pass that was cancelled or failed, no other. */
  lemma PassAccounted(l: Limits, s: System, steps: seq<Step>, end: System)
    requires Start(l, s) && Runs(l, s, steps, end) && !Pending(end)
    ensures PassTargets(end.calls) == ActiveAmong(s.todo, l.active)
    ensures var h := HistoryOf(l, s, NOTHING, steps);
      end.sent == h.errors + |set i | i in h.failed && i < |end.calls| && end.calls[i].reports| &&
      forall i :: 0 <= i < |end.calls| ==>
        (end.calls[i].target in l.targets ==> (i in h.ran <==> i !in h.cancelled)) &&
        (end.calls[i].target !in l.targets ==> i !in h.ran && i !in h.failed)
  {
    StartOk(l, s);
    assert Reported(s, NOTHING) == {};
    RunKnown(l, s, NOTHING, steps, end);
    assert PassTargets(end.calls) + [] == PassTargets(end.calls) && [] + ActiveAmong(s.todo, l.active) == ActiveAmong(s.todo, l.active);
    var h := HistoryOf(l, s, NOTHING, steps);
    assert Reported(end, h) == set i | i in h.failed && i < |end.calls| && end.calls[i].reports;
    forall i | 0 <= i < |end.calls|
      ensures end.calls[i].target in l.targets ==> (i in h.ran <==> i !in h.cancelled)
      ensures end.calls[i].target !in l.targets ==> i !in h.ran && i !in h.failed
    {
      assert KnownAt(l, end, h, i) && end.calls[i].phase.Done?;
    }
  }

  /** The controller's admission state, updated in place; one method for each step that can wait or
      change it. */
  class Controller {
    var todo: seq<string>
    var calls: seq<Call>
    var holders: map<string, nat>
    var slots: nat
    var sent: nat
    const limits: Limits

    function Now(): System reads this { System(todo, calls, holders, slots, sent) }

    constructor (limits: Limits, ids: seq<string>)
      requires |ids| == |limits.targets| && forall t :: t in ids <==> t in limits.targets
      ensures this.limits == limits && Start(limits, Now()) && Ok(limits, Now())
    {
      todo, calls, holders, slots, sent := ids, [], map[], 0, 0;
      this.limits := limits;
    }

    method SetPhase(id: nat, phase: Phase)
      requires id < |calls|
      modifies this`calls
      ensures Now() == WithPhase(old(Now()), id, phase)
    {
      calls := calls[id := calls[id].(phase := phase)];
    }

    method Lock(id: nat) returns (moved: bool)
      requires id < |calls| && calls[id].phase == Locking
      modifies this
      ensures Taken(limits, old(Now()), Move(id, false, false), moved, Now())
    {
      if calls[id].target in holders { return false; }
      holders := holders[calls[id].target := id];
      SetPhase(id, Slotting);
      moved := true;
    }

    // select: whichever of the slot and the cancellation is ready.
    method AcquireSlot(id: nat, cancelled: bool) returns (moved: bool)
      requires id < |calls| && calls[id].phase == Slotting
      modifies this
      ensures Taken(limits, old(Now()), Move(id, cancelled, false), moved, Now())
    {
      if cancelled {
        SetPhase(id, Unlocking(true));
        return true;
      }
      if slots >= limits.max { return false; }
      slots := slots + 1;
      SetPhase(id, Running);
      moved := true;
    }

    method ReleaseSlot(id: nat, fails: bool) returns (moved: bool)
      requires id < |calls| && calls[id].phase == Running && Ok(limits, Now())
      modifies this
      ensures moved && Taken(limits, old(Now()), Move(id, false, fails), moved, Now())
    {
      SumAtLeast(calls, RunningWeight, id);
      slots := slots - 1;
      SetPhase(id, Unlocking(fails));
      moved := true;
    }

    method Unlock(id: nat) returns (moved: bool)
      requires id < |calls| && calls[id].phase.Unlocking?
      modifies this
      ensures moved && Taken(limits, old(Now()), Move(id, false, false), moved, Now())
    {
      holders := holders - {calls[id].target};
      SetPhase(id, if calls[id].phase.failed && calls[id].reports then Sending else Done);
      moved := true;
    }

    method SendError(id: nat) returns (moved: bool)
      requires id < |calls| && calls[id].phase == Sending && Ok(limits, Now())
      modifies this
      ensures moved && Taken(limits, old(Now()), Move(id, false, false), moved, Now())
    {
      SumAtLeast(calls, ReportWeight, id);
      sent := sent + 1;
      SetPhase(id, Done);
      moved := true;
    }

    method Reconcile(target: string)
      modifies this
      ensures Taken(limits, old(Now()), Arrive(target), true, Now())
    {
      calls := calls + [Call(target, false, if target in limits.targets then Locking else Done)];
    }

    // One turn of the loop of ReconcileSnapshot.
    method VisitNext(error: bool) returns (moved: bool)
      requires todo != [] && Ok(limits, Now())
      modifies this
      ensures moved && Taken(limits, old(Now()), Visit(error), moved, Now())
    {
      var id := todo[0];
      todo := todo[1..];
      if id in limits.active {
        calls := calls + [Call(id, true, Locking)];
      } else if error {
        sent := sent + 1;
      }
      moved := true;
    }
  }

  // A step was taken, or had to wait and changed nothing.
  predicate Taken(l: Limits, before: System, step: Step, moved: bool, after: System) {
    (moved <==> Next(l, before, step).Some?) && after == if moved then Next(l, before, step).value else before
  }
}
