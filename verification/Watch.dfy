/** The agent's view of the store: one snapshot, then the pointer events after it, with
    restarts at any time. */
module Watch {
  import opened Wrappers
  import opened Text
  import opened Etcd

  datatype Event = Event(target: string, generation: string, revision: nat, deleted: bool)

  // The value of a target's pointer at a revision, trimmed as the agent reads it.
  ghost function PointerAt(log: Log, revision: nat, target: string): Option<string>
    requires 1 <= revision <= Revision(log)
  {
    var view := At(log, revision);
    if Active(V6, target) in view then Some(TrimSpace(view[Active(V6, target)].value)) else None
  }

  ghost function ActiveMap(log: Log, revision: nat): map<string, string>
    requires 1 <= revision <= Revision(log)
  {
    map t | t in PointerTargets(At(log, revision), V6) :: TrimSpace(At(log, revision)[Active(V6, t)].value)
  }

  // The event a watch on the active prefix receives for one revision, if any.
  ghost function EventAt(log: Log, revision: nat): Option<Event>
    requires 2 <= revision <= Revision(log)
  {
    match log[revision - 2]
    case Put(key, value) =>
      if key.Active? && key.version == V6 then Some(Event(key.target, TrimSpace(value), revision, false)) else None
    case Delete(key) =>
      if key.Active? && key.version == V6 then Some(Event(key.target, "", revision, true)) else None
    case DeleteOld => None
  }

  ghost function Arrivals(log: Log, after: nat, upto: nat): (r: seq<Option<Event>>)
    requires 1 <= after <= upto <= Revision(log)
    ensures |r| == upto - after
  {
    seq(upto - after, i requires 0 <= i < upto - after => EventAt(log, after + 1 + i))
  }

  // The events after one revision up to another, in revision order.
  ghost function Events(log: Log, after: nat, upto: nat): seq<Event>
    requires 1 <= after <= upto <= Revision(log)
  {
    Present(Arrivals(log, after, upto))
  }

  function Present(arrivals: seq<Option<Event>>): seq<Event> {
    if arrivals == [] then [] else
      Present(arrivals[..|arrivals| - 1]) +
        if arrivals[|arrivals| - 1].Some? then [arrivals[|arrivals| - 1].value] else []
  }

  function ReplayOne(active: map<string, string>, event: Event): map<string, string> {
    if event.deleted then active - {event.target} else active[event.target := event.generation]
  }

  function Replay(active: map<string, string>, events: seq<Event>): map<string, string> {
    if events == [] then active else ReplayOne(Replay(active, events[..|events| - 1]), events[|events| - 1])
  }

  lemma AtStep(log: Log, revision: nat)
    requires 2 <= revision <= Revision(log)
    ensures At(log, revision) == Apply(At(log, revision - 1), log[revision - 2], revision)
  {
    NowAppend(log[..revision - 2], log[revision - 2]);
    assert log[..revision - 1] == log[..revision - 2] + [log[revision - 2]];
  }

  lemma ActiveMapIs(log: Log, revision: nat, target: string)
    requires 1 <= revision <= Revision(log)
    ensures PointerAt(log, revision, target) ==
      if target in ActiveMap(log, revision) then Some(ActiveMap(log, revision)[target]) else None
  {
    if Active(V6, target) in At(log, revision) {
      assert target in PointerTargets(At(log, revision), V6);
    }
  }

  // One revision changes the pointer its event names, and no other.
  lemma PointerStep(log: Log, revision: nat, target: string)
    requires 2 <= revision <= Revision(log)
    ensures var event := EventAt(log, revision);
      PointerAt(log, revision, target) ==
        if event.None? || event.value.target != target then PointerAt(log, revision - 1, target)
        else if event.value.deleted then None else Some(event.value.generation)
  {
    AtStep(log, revision);
  }

  lemma ReplayAdds(active: map<string, string>, events: seq<Event>, event: Event)
    ensures Replay(active, events + [event]) == ReplayOne(Replay(active, events), event)
  {
    assert (events + [event])[..|events|] == events;
  }

  function Entry(active: map<string, string>, target: string): Option<string> {
    if target in active then Some(active[target]) else None
  }

  // What one revision does to one target.
  function FollowAt(value: Option<string>, event: Option<Event>, target: string): Option<string> {
    if event.None? || event.value.target != target then value
    else if event.value.deleted then None else Some(event.value.generation)
  }

  lemma ReplayLast(active: map<string, string>, before: seq<Option<Event>>, last: Option<Event>, all: seq<Option<Event>>, target: string)
    requires all == before + [last]
    ensures Entry(Replay(active, Present(all)), target) == FollowAt(Entry(Replay(active, Present(before)), target), last, target)
  {
    assert all[..|before|] == before;
    if last.Some? {
      ReplayAdds(active, Present(before), last.value);
    } else {
      assert Present(before) + [] == Present(before);
    }
  }

  // Values that follow one another by the arrivals are what the events replay to.
  lemma {:induction false} ReplayFollows(active: map<string, string>, values: seq<Option<string>>,
                                         arrivals: seq<Option<Event>>, target: string)
    requires Follows(values, arrivals, target) && values[0] == Entry(active, target)
    ensures Entry(Replay(active, Present(arrivals)), target) == values[|arrivals|]
    decreases |arrivals|
  {
    if arrivals != [] {
      var n := |arrivals| - 1;
      ReplayFollows(active, values[..n + 1], arrivals[..n], target);
      ReplayLast(active, arrivals[..n], arrivals[n], arrivals, target);
      assert values[n + 1] == FollowAt(values[n], arrivals[n], target);
    }
  }

  // The values of one pointer over a range of revisions.
  ghost function Values(log: Log, after: nat, upto: nat, target: string): (r: seq<Option<string>>)
    requires 1 <= after <= upto <= Revision(log)
    ensures |r| == upto - after + 1
  {
    seq(upto - after + 1, i requires 0 <= i <= upto - after => PointerAt(log, after + i, target))
  }

  lemma ValuesFollow(log: Log, after: nat, upto: nat, target: string, i: nat)
    requires 1 <= after <= upto <= Revision(log) && i < upto - after
    ensures Values(log, after, upto, target)[i + 1] ==
      FollowAt(Values(log, after, upto, target)[i], Arrivals(log, after, upto)[i], target)
  {
    PointerStep(log, after + 1 + i, target);
  }

  // The pointer follows the arrivals.
  ghost predicate Follows(values: seq<Option<string>>, arrivals: seq<Option<Event>>, target: string) {
    |values| == |arrivals| + 1 &&
    forall i {:trigger arrivals[i]} :: 0 <= i < |arrivals| ==> values[i + 1] == FollowAt(values[i], arrivals[i], target)
  }

  lemma PointerFollows(log: Log, after: nat, upto: nat, target: string)
    requires 1 <= after <= upto <= Revision(log)
    ensures Follows(Values(log, after, upto, target), Arrivals(log, after, upto), target)
  {
    forall i {:trigger Arrivals(log, after, upto)[i]} | 0 <= i < upto - after
      ensures Values(log, after, upto, target)[i + 1] ==
        FollowAt(Values(log, after, upto, target)[i], Arrivals(log, after, upto)[i], target)
    {
      ValuesFollow(log, after, upto, target, i);
    }
  }

  lemma ValuesEnds(log: Log, after: nat, upto: nat, target: string)
    requires 1 <= after <= upto <= Revision(log)
    ensures Values(log, after, upto, target)[0] == PointerAt(log, after, target)
    ensures Values(log, after, upto, target)[upto - after] == PointerAt(log, upto, target)
  {
  }

  lemma ReplayAt(log: Log, snapshot: nat, revision: nat, target: string)
    requires 1 <= snapshot <= revision <= Revision(log)
    ensures Entry(Replay(ActiveMap(log, snapshot), Events(log, snapshot, revision)), target) == PointerAt(log, revision, target)
  {
    var active, values, arrivals := ActiveMap(log, snapshot), Values(log, snapshot, revision, target), Arrivals(log, snapshot, revision);
    PointerFollows(log, snapshot, revision, target);
    ValuesEnds(log, snapshot, revision, target);
    ActiveMapIs(log, snapshot, target);
    ReplayFollows(active, values, arrivals, target);
  }

  /** Replaying the events after a snapshot on top of it gives the pointers of every later revision. */
  lemma ReplayIsStore(log: Log, snapshot: nat, revision: nat)
    requires 1 <= snapshot <= revision <= Revision(log)
    ensures Replay(ActiveMap(log, snapshot), Events(log, snapshot, revision)) == ActiveMap(log, revision)
  {
    var replayed, active := Replay(ActiveMap(log, snapshot), Events(log, snapshot, revision)), ActiveMap(log, revision);
    forall t ensures Entry(replayed, t) == Entry(active, t) {
      ReplayAt(log, snapshot, revision, t);
      ActiveMapIs(log, revision, t);
    }
    SameMap(replayed, active);
  }

  lemma SameMap(a: map<string, string>, b: map<string, string>)
    requires forall t :: Entry(a, t) == Entry(b, t)
    ensures a == b
  {
    forall t ensures (t in a <==> t in b) && (t in a ==> a[t] == b[t]) { assert Entry(a, t) == Entry(b, t); }
  }

  // ---- runWatch ----

  // What happens next, outside the agent's control: writes to the store, a failing or
  // succeeding snapshot read, one delivered event, or the watch ending (error or resync).
  datatype Act = Writes(writes: Log) | SnapshotFails | SnapshotReads | Deliver | WatchEnds

  datatype Call = Call(target: string, generation: string, revision: nat)

  ghost predicate Accurate(log: Log, configured: set<string>, call: Call) {
    call.target in configured && 1 <= call.revision <= Revision(log) &&
    PointerAt(log, call.revision, call.target) == Some(call.generation)
  }

  ghost predicate Monotone(calls: seq<Call>) {
    forall i, j :: 0 <= i < j < |calls| && calls[i].target == calls[j].target ==> calls[i].revision <= calls[j].revision
  }

  ghost function LastCall(calls: seq<Call>, target: string): Option<Call> {
    if calls == [] then None
    else if calls[|calls| - 1].target == target then Some(calls[|calls| - 1])
    else LastCall(calls[..|calls| - 1], target)
  }

  // The last call of every configured target that has a pointer at the revision names its value.
  ghost predicate Current(log: Log, revision: nat, configured: set<string>, calls: seq<Call>) {
    1 <= revision <= Revision(log) &&
    forall t :: t in configured && PointerAt(log, revision, t).Some? ==>
      LastCall(calls, t).Some? && LastCall(calls, t).value.generation == PointerAt(log, revision, t).value
  }

  ghost predicate CallsOk(log: Log, configured: set<string>, calls: seq<Call>, upto: nat) {
    Monotone(calls) && upto <= Revision(log) && forall c :: c in calls ==> Accurate(log, configured, c) && c.revision <= upto
  }

  lemma CallsStable(log: Log, writes: Log, configured: set<string>, calls: seq<Call>, upto: nat)
    requires CallsOk(log, configured, calls, upto)
    ensures CallsOk(log + writes, configured, calls, upto)
  {
    forall c | c in calls ensures Accurate(log + writes, configured, c) {
      assert (log + writes)[..c.revision - 1] == log[..c.revision - 1];
    }
  }

  lemma CurrentStable(log: Log, writes: Log, revision: nat, configured: set<string>, calls: seq<Call>)
    requires Current(log, revision, configured, calls)
    ensures Current(log + writes, revision, configured, calls)
  {
    assert (log + writes)[..revision - 1] == log[..revision - 1];
  }

  // One more call, at a revision no earlier than all before it.
  lemma CallAdds(log: Log, configured: set<string>, calls: seq<Call>, upto: nat, call: Call)
    requires CallsOk(log, configured, calls, upto) && Accurate(log, configured, call) && upto <= call.revision
    ensures CallsOk(log, configured, calls + [call], call.revision)
    ensures forall t :: LastCall(calls + [call], t) == if t == call.target then Some(call) else LastCall(calls, t)
  {
    assert (calls + [call])[..|calls|] == calls;
    forall i, j | 0 <= i < j < |calls + [call]| && (calls + [call])[i].target == (calls + [call])[j].target
      ensures (calls + [call])[i].revision <= (calls + [call])[j].revision
    {
      if j == |calls| { assert calls[i] in calls; }
    }
  }

  // The calls of one snapshot pass, in the order of the configured targets.
  function SnapshotCalls(active: map<string, Pointer>, revision: nat, ids: seq<string>): seq<Call> {
    if ids == [] then [] else
      var id := ids[|ids| - 1];
      SnapshotCalls(active, revision, ids[..|ids| - 1]) + if id in active then [Call(id, active[id].generation, revision)] else []
  }

  lemma SnapshotCallsNext(active: map<string, Pointer>, revision: nat, ids: seq<string>, i: nat)
    requires i < |ids|
    ensures SnapshotCalls(active, revision, ids[..i + 1]) ==
      SnapshotCalls(active, revision, ids[..i]) + if ids[i] in active then [Call(ids[i], active[ids[i]].generation, revision)] else []
  {
    assert ids[..i + 1][..i] == ids[..i];
  }

  // The first n targets have been handed their generation.
  ghost predicate Handed(revision: nat, active: map<string, Pointer>, ids: seq<string>, n: nat, calls: seq<Call>)
    requires n <= |ids|
  {
    forall j :: 0 <= j < n && ids[j] in active ==>
      Call(ids[j], active[ids[j]].generation, revision) in calls &&
      LastCall(calls, ids[j]) == Some(Call(ids[j], active[ids[j]].generation, revision))
  }

  lemma HandedOne(log: Log, configured: set<string>, snapshot: Snapshot, ids: seq<string>, i: nat, calls: seq<Call>)
    requires SnapshotOf(log, V6) == Some(snapshot) && CallsOk(log, configured, calls, Revision(log)) && i < |ids|
    requires (forall j :: 0 <= j < i ==> ids[j] != ids[i]) && Handed(Revision(log), snapshot.active, ids, i, calls)
    requires ids[i] in snapshot.active && ids[i] in configured
    ensures var all := calls + [Call(ids[i], snapshot.active[ids[i]].generation, Revision(log))];
      CallsOk(log, configured, all, Revision(log)) && Handed(Revision(log), snapshot.active, ids, i + 1, all)
  {
    AtNow(log);
    SnapshotAt(log, V6, ids[i]);
    CallAdds(log, configured, calls, Revision(log), Call(ids[i], snapshot.active[ids[i]].generation, Revision(log)));
  }

  lemma HandedAll(active: map<string, Pointer>, revision: nat, configured: set<string>, calls: seq<Call>, all: seq<Call>)
    requires Handed(revision, active, Sorted(configured), |Sorted(configured)|, all)
    ensures forall t :: t in configured ==> t in Sorted(configured)
    ensures forall t :: t in configured && t in active ==> Call(t, active[t].generation, revision) in all
  {
    forall t | t in configured && t in active ensures Call(t, active[t].generation, revision) in all {
      assert t in Sorted(configured);
      var j :| 0 <= j < |Sorted(configured)| && Sorted(configured)[j] == t;
    }
  }

  lemma HandedIsCurrent(log: Log, configured: set<string>, snapshot: Snapshot, ids: seq<string>, calls: seq<Call>)
    requires SnapshotOf(log, V6) == Some(snapshot) && Handed(Revision(log), snapshot.active, ids, |ids|, calls)
    requires forall t :: t in configured ==> t in ids
    ensures Current(log, Revision(log), configured, calls)
  {
    AtNow(log);
    forall t | t in configured && PointerAt(log, Revision(log), t).Some?
      ensures LastCall(calls, t).Some? && LastCall(calls, t).value.generation == PointerAt(log, Revision(log), t).value
    {
      var j :| 0 <= j < |ids| && ids[j] == t;
      SnapshotAt(log, V6, t);
    }
  }

  lemma {:induction false} PassCalls(log: Log, configured: set<string>, snapshot: Snapshot, ids: seq<string>, n: nat, calls: seq<Call>)
    requires SnapshotOf(log, V6) == Some(snapshot) && CallsOk(log, configured, calls, Revision(log)) && n <= |ids|
    requires (forall i, j :: 0 <= i < j < |ids| ==> ids[i] != ids[j]) && forall id :: id in ids ==> id in configured
    ensures var all := calls + SnapshotCalls(snapshot.active, Revision(log), ids[..n]);
      CallsOk(log, configured, all, Revision(log)) && Handed(Revision(log), snapshot.active, ids, n, all)
    decreases n
  {
    if n == 0 {
      assert calls + [] == calls;
    } else {
      PassCalls(log, configured, snapshot, ids, n - 1, calls);
      SnapshotCallsNext(snapshot.active, Revision(log), ids, n - 1);
      PassCallsNext(log, configured, snapshot, ids, n - 1, calls, SnapshotCalls(snapshot.active, Revision(log), ids[..n - 1]));
    }
  }

  lemma PassCallsNext(log: Log, configured: set<string>, snapshot: Snapshot, ids: seq<string>, i: nat, calls: seq<Call>, made: seq<Call>)
    requires SnapshotOf(log, V6) == Some(snapshot) && CallsOk(log, configured, calls + made, Revision(log)) && i < |ids|
    requires (forall i, j :: 0 <= i < j < |ids| ==> ids[i] != ids[j]) && ids[i] in configured
    requires Handed(Revision(log), snapshot.active, ids, i, calls + made)
    ensures var next := if ids[i] in snapshot.active then [Call(ids[i], snapshot.active[ids[i]].generation, Revision(log))] else [];
      CallsOk(log, configured, calls + (made + next), Revision(log)) && Handed(Revision(log), snapshot.active, ids, i + 1, calls + (made + next))
  {
    if ids[i] in snapshot.active {
      var next := [Call(ids[i], snapshot.active[ids[i]].generation, Revision(log))];
      HandedOne(log, configured, snapshot, ids, i, calls + made);
      assert calls + made + next == calls + (made + next);
    } else {
      assert made + [] == made;
    }
  }

  /** A snapshot pass hands every configured target of the snapshot its generation, at the snapshot's revision. */
  lemma PassHandsAll(log: Log, configured: set<string>, snapshot: Snapshot, calls: seq<Call>)
    requires SnapshotOf(log, V6) == Some(snapshot) && CallsOk(log, configured, calls, Revision(log))
    ensures var all := calls + SnapshotCalls(snapshot.active, Revision(log), Sorted(configured));
      CallsOk(log, configured, all, Revision(log)) && Current(log, Revision(log), configured, all) &&
      forall t :: t in configured && t in snapshot.active ==> Call(t, snapshot.active[t].generation, Revision(log)) in all
  {
    var ids := Sorted(configured);
    SortedDistinct(configured);
    PassCalls(log, configured, snapshot, ids, |ids|, calls);
    assert ids[..|ids|] == ids;
    var all := calls + SnapshotCalls(snapshot.active, Revision(log), ids);
    HandedAll(snapshot.active, Revision(log), configured, calls, all);
    HandedIsCurrent(log, configured, snapshot, ids, all);
  }

  lemma {:induction false} SnapshotCallsAre(active: map<string, Pointer>, revision: nat, ids: seq<string>, call: Call)
    ensures call in SnapshotCalls(active, revision, ids) <==>
      call.target in ids && call.target in active && call == Call(call.target, active[call.target].generation, revision)
  {
    if ids != [] {
      var before, id := ids[..|ids| - 1], ids[|ids| - 1];
      SnapshotCallsAre(active, revision, before, call);
      assert call.target in ids <==> call.target in before || call.target == id;
    }
  }

  lemma {:induction false} LastCallAmong(calls: seq<Call>, made: seq<Call>, target: string)
    requires exists c :: c in made && c.target == target
    ensures LastCall(calls + made, target).Some? && LastCall(calls + made, target).value in made
    ensures LastCall(calls + made, target).value.target == target
    decreases |made|
  {
    var before, last := made[..|made| - 1], made[|made| - 1];
    assert (calls + made)[..|calls + made| - 1] == calls + before && (calls + made)[|calls + made| - 1] == last;
    if last.target != target {
      assert forall c :: c in made <==> c in before || c == last;
      LastCallAmong(calls, before, target);
    }
  }

  // Calls of one pass are told apart by their targets.
  ghost predicate PassOf(snapshot: Snapshot, revision: nat, configured: set<string>, made: seq<Call>) {
    forall call: Call :: call in made <==>
      call.target in configured && call.target in snapshot.active &&
      call == Call(call.target, snapshot.active[call.target].generation, revision)
  }

  lemma PassCallsOk(log: Log, configured: set<string>, snapshot: Snapshot, calls: seq<Call>, made: seq<Call>)
    requires SnapshotOf(log, V6) == Some(snapshot) && CallsOk(log, configured, calls, Revision(log))
    requires PassOf(snapshot, Revision(log), configured, made)
    ensures CallsOk(log, configured, calls + made, Revision(log))
  {
    AtNow(log);
    forall c | c in calls + made ensures Accurate(log, configured, c) && c.revision <= Revision(log) {
      if c in made { SnapshotAt(log, V6, c.target); }
    }
    var all := calls + made;
    forall i, j | 0 <= i < j < |all| && all[i].target == all[j].target ensures all[i].revision <= all[j].revision {
      if j >= |calls| { assert all[j] in made && all[i] in all; }
    }
  }

  /** The reconciles of one pass run concurrently: in whatever order they come, the pass hands every configured target
      of the snapshot its generation and leaves every last call current. */
  lemma PassInAnyOrder(log: Log, configured: set<string>, snapshot: Snapshot, calls: seq<Call>, made: seq<Call>)
    requires SnapshotOf(log, V6) == Some(snapshot) && CallsOk(log, configured, calls, Revision(log))
    requires multiset(made) == multiset(SnapshotCalls(snapshot.active, Revision(log), Sorted(configured)))
    ensures CallsOk(log, configured, calls + made, Revision(log)) && Current(log, Revision(log), configured, calls + made)
    ensures forall t :: t in configured && t in snapshot.active ==>
      Call(t, snapshot.active[t].generation, Revision(log)) in calls + made
  {
    PassOfAnyOrder(snapshot, Revision(log), configured, made);
    PassCallsOk(log, configured, snapshot, calls, made);
    forall t | t in configured && PointerAt(log, Revision(log), t).Some?
      ensures LastCall(calls + made, t).Some? && LastCall(calls + made, t).value.generation == PointerAt(log, Revision(log), t).value
    {
      AtNow(log);
      SnapshotAt(log, V6, t);
      assert Call(t, snapshot.active[t].generation, Revision(log)) in made;
      LastCallAmong(calls, made, t);
    }
  }

  lemma PassOfAnyOrder(snapshot: Snapshot, revision: nat, configured: set<string>, made: seq<Call>)
    requires multiset(made) == multiset(SnapshotCalls(snapshot.active, revision, Sorted(configured)))
    ensures PassOf(snapshot, revision, configured, made)
  {
    var sorted := SnapshotCalls(snapshot.active, revision, Sorted(configured));
    forall call: Call ensures call in made <==>
      call.target in configured && call.target in snapshot.active &&
      call == Call(call.target, snapshot.active[call.target].generation, revision)
    {
      assert call in made <==> call in multiset(made);
      assert call in sorted <==> call in multiset(sorted);
      SnapshotCallsAre(snapshot.active, revision, Sorted(configured), call);
    }
  }

  method ReconcileSnapshot(configured: set<string>, snapshot: Snapshot, calls: seq<Call>) returns (all: seq<Call>)
    ensures all == calls + SnapshotCalls(snapshot.active, snapshot.revision, Sorted(configured))
  {
    all := calls;
    var ids := SortNames(configured);
    for i := 0 to |ids|
      invariant all == calls + SnapshotCalls(snapshot.active, snapshot.revision, ids[..i])
    {
      SnapshotCallsNext(snapshot.active, snapshot.revision, ids, i);
      if ids[i] in snapshot.active {
        all := all + [Call(ids[i], snapshot.active[ids[i]].generation, snapshot.revision)];
      }
    }
    assert ids[..|ids|] == ids;
  }

  // What activeEvent makes of one watched revision.
  datatype Received = Nothing | Unsafe | Good(event: Event)

  ghost function ReceivedAt(log: Log, revision: nat): Received
    requires 2 <= revision <= Revision(log)
  {
    match EventAt(log, revision)
    case None => Nothing
    case Some(event) =>
      if SafeName(event.target) && (event.deleted || SafeName(event.generation)) then Good(event) else Unsafe
  }

  method ReadEvent(log: Log, revision: nat) returns (received: Received)
    requires 2 <= revision <= Revision(log)
    ensures received == ReceivedAt(log, revision)
  {
    var write := log[revision - 2];
    if write.DeleteOld? || !write.key.Active? || write.key.version != V6 {
      return Nothing;
    }
    if !SafeName(write.key.target) {
      return Unsafe;
    }
    if write.Delete? {
      return Good(Event(write.key.target, "", revision, true));
    }
    var generation := Trim(write.value);
    received := if SafeName(generation) then Good(Event(write.key.target, generation, revision, false)) else Unsafe;
  }

  // The call an event leads to, if any.
  function EventCalls(configured: set<string>, received: Received): seq<Call> {
    if received.Good? && received.event.target in configured && !received.event.deleted then
      [Call(received.event.target, received.event.generation, received.event.revision)]
    else []
  }

  // One delivered event: reconcile it if it puts the pointer of a configured target.
  method HandleEvent(log: Log, configured: set<string>, revision: nat, calls: seq<Call>) returns (restart: bool, all: seq<Call>)
    requires 2 <= revision <= Revision(log)
    ensures restart == ReceivedAt(log, revision).Unsafe? && all == calls + EventCalls(configured, ReceivedAt(log, revision))
  {
    var received := ReadEvent(log, revision);
    restart, all := received.Unsafe?, calls;
    if received.Good? && received.event.target in configured && !received.event.deleted {
      all := calls + [Call(received.event.target, received.event.generation, received.event.revision)];
    }
  }

  // The calls made for one event keep every target's last call at its pointer.
  lemma EventKeeps(log: Log, configured: set<string>, revision: nat, calls: seq<Call>)
    requires 2 <= revision <= Revision(log)
    requires CallsOk(log, configured, calls, revision - 1) && Current(log, revision - 1, configured, calls)
    ensures var all := calls + EventCalls(configured, ReceivedAt(log, revision));
      CallsOk(log, configured, all, revision) && (!ReceivedAt(log, revision).Unsafe? ==> Current(log, revision, configured, all))
  {
    var received := ReceivedAt(log, revision);
    var all := calls + EventCalls(configured, received);
    forall t ensures PointerEvent(log, revision, t) { PointerStep(log, revision, t); }
    if EventCalls(configured, received) == [] {
      assert all == calls;
    } else {
      var call := Call(received.event.target, received.event.generation, received.event.revision);
      assert PointerEvent(log, revision, received.event.target);
      CallAdds(log, configured, calls, revision - 1, call);
    }
    if !received.Unsafe? {
      forall t | t in configured && PointerAt(log, revision, t).Some?
        ensures LastCall(all, t).Some? && LastCall(all, t).value.generation == PointerAt(log, revision, t).value
      {
        assert PointerEvent(log, revision, t);
      }
    }
  }

  ghost predicate PointerEvent(log: Log, revision: nat, target: string)
    requires 2 <= revision <= Revision(log)
  {
    PointerAt(log, revision, target) ==
      (var event := EventAt(log, revision);
       if event.None? || event.value.target != target then PointerAt(log, revision - 1, target)
       else if event.value.deleted then None else Some(event.value.generation))
  }

  // The agent between two acts: the store, the calls made, the revisions of its snapshot
  // passes, and the next revision its watch will look at.
  datatype Agent = Agent(log: Log, calls: seq<Call>, passes: seq<nat>, watching: bool, next: nat)

  // A snapshot read, with the reconciles of its pass; unsafe pointers make it fail.
  ghost function AfterSnapshot(configured: set<string>, a: Agent): Agent {
    if SnapshotOf(a.log, V6).None? then a else
      var revision := Revision(a.log);
      Agent(a.log, a.calls + SnapshotCalls(SnapshotOf(a.log, V6).value.active, revision, Sorted(configured)),
            a.passes + [revision], true, revision + 1)
  }

  // One event of the watch, with its reconcile; an unsafe event ends the watch.
  ghost function AfterEvent(configured: set<string>, a: Agent): Agent
    requires 2 <= a.next <= Revision(a.log)
  {
    var received := ReceivedAt(a.log, a.next);
    Agent(a.log, a.calls + EventCalls(configured, received), a.passes, !received.Unsafe?, a.next + 1)
  }

  ghost function AfterAct(configured: set<string>, a: Agent, act: Act): Agent {
    match act
    case Writes(writes) => a.(log := a.log + writes)
    case Deliver => if a.watching && 2 <= a.next <= Revision(a.log) then AfterEvent(configured, a) else a
    case SnapshotReads => if a.watching then a.(watching := false) else AfterSnapshot(configured, a)
    case _ => a.(watching := false)
  }

  // The agent after a script of outside acts; while it watches, any other act ends the watch.
  ghost function Watched(configured: set<string>, store: Log, script: seq<Act>): Agent {
    if script == [] then Agent(store, [], [], false, 2)
    else AfterAct(configured, Watched(configured, store, script[..|script| - 1]), script[|script| - 1])
  }

  lemma WatchedNext(configured: set<string>, store: Log, script: seq<Act>, i: nat)
    requires i < |script|
    ensures Watched(configured, store, script[..i + 1]) == AfterAct(configured, Watched(configured, store, script[..i]), script[i])
  {
    assert script[..i + 1][..i] == script[..i];
  }

  ghost predicate AgentOk(configured: set<string>, a: Agent) {
    2 <= a.next <= Revision(a.log) + 1 &&
    CallsOk(a.log, configured, a.calls, if a.watching then a.next - 1 else Revision(a.log)) &&
    PassesOk(a.log, configured, a.calls, a.passes) &&
    (a.watching ==> Current(a.log, a.next - 1, configured, a.calls))
  }

  lemma WritesKeep(configured: set<string>, a: Agent, writes: Log)
    requires AgentOk(configured, a)
    ensures AgentOk(configured, a.(log := a.log + writes))
  {
    CallsStable(a.log, writes, configured, a.calls, if a.watching then a.next - 1 else Revision(a.log));
    PassesStable(a.log, writes, configured, a.calls, a.passes);
    if a.watching { CurrentStable(a.log, writes, a.next - 1, configured, a.calls); }
  }

  lemma StopKeeps(configured: set<string>, a: Agent)
    requires AgentOk(configured, a)
    ensures AgentOk(configured, a.(watching := false))
  {
  }

  lemma AfterSnapshotOk(configured: set<string>, a: Agent)
    requires AgentOk(configured, a) && !a.watching
    ensures AgentOk(configured, AfterSnapshot(configured, a))
  {
    if SnapshotOf(a.log, V6).Some? {
      var snapshot := SnapshotOf(a.log, V6).value;
      PassHandsAll(a.log, configured, snapshot, a.calls);
      PassAdds(a.log, configured, a.calls, a.calls + SnapshotCalls(snapshot.active, Revision(a.log), Sorted(configured)), a.passes, snapshot);
    }
  }

  lemma AfterEventOk(configured: set<string>, a: Agent)
    requires AgentOk(configured, a) && a.watching && a.next <= Revision(a.log)
    ensures AgentOk(configured, AfterEvent(configured, a))
  {
    EventKeeps(a.log, configured, a.next, a.calls);
    PassesGrow(a.log, configured, a.calls, AfterEvent(configured, a).calls, a.passes);
  }

  lemma AfterActOk(configured: set<string>, a: Agent, act: Act)
    requires AgentOk(configured, a)
    ensures AgentOk(configured, AfterAct(configured, a, act)) && a.log <= AfterAct(configured, a, act).log
  {
    match act
    case Writes(writes) => WritesKeep(configured, a, writes);
    case Deliver => if a.watching && a.next <= Revision(a.log) { AfterEventOk(configured, a); }
    case SnapshotReads => if a.watching { StopKeeps(configured, a); } else { AfterSnapshotOk(configured, a); }
    case _ => StopKeeps(configured, a);
  }

  lemma {:induction false} WatchedOk(configured: set<string>, store: Log, script: seq<Act>)
    ensures AgentOk(configured, Watched(configured, store, script)) && store <= Watched(configured, store, script).log
    decreases |script|
  {
    if script != [] {
      WatchedOk(configured, store, script[..|script| - 1]);
      AfterActOk(configured, Watched(configured, store, script[..|script| - 1]), script[|script| - 1]);
    }
  }

  /** Over any sequence of outside acts, however often the agent restarts: the revisions it reconciles never
      decrease per target and each call names what the pointer was at that revision; every snapshot pass covers
      every configured present target; and while a watch goes on, each target's last call is its pointer at
      the last revision looked at. */
  lemma WatchSound(configured: set<string>, store: Log, script: seq<Act>)
    ensures var a := Watched(configured, store, script);
      store <= a.log && Monotone(a.calls) && (forall c :: c in a.calls ==> Accurate(a.log, configured, c)) &&
      PassesOk(a.log, configured, a.calls, a.passes) &&
      (a.watching ==> 2 <= a.next <= Revision(a.log) + 1 && Current(a.log, a.next - 1, configured, a.calls))
  {
    WatchedOk(configured, store, script);
  }

  // ---- what each act does, written out ----

  predicate SafeEvent(e: Event) { SafeName(e.target) && (e.deleted || SafeName(e.generation)) }

  /** Outside acts one by one.  A snapshot read that succeeds starts a watch at the next revision, after one call for
      each configured target it holds; a delivered safe event leads to one call if it puts the pointer of a configured
      target, and moves the watch on by one revision; an unsafe event, and any other act, ends a watch. */
  lemma ActIs(configured: set<string>, a: Agent, act: Act)
    requires 2 <= a.next
    ensures var b := AfterAct(configured, a, act);
      match act
      case Writes(writes) => b == a.(log := a.log + writes)
      case SnapshotReads =>
        if a.watching then b == a.(watching := false)
        else if !PointersSafe(Now(a.log), V6) then b == a
        else b.log == a.log && b.watching && b.next == Revision(a.log) + 1 && b.passes == a.passes + [Revision(a.log)] &&
             a.calls <= b.calls && HandsOver(a.log, configured, b.calls[|a.calls|..])
      case Deliver =>
        if !a.watching || a.next > Revision(a.log) then b == a
        else
          b.log == a.log && b.passes == a.passes && b.next == a.next + 1 &&
          (b.watching <==> EventAt(a.log, a.next).Some? ==> SafeEvent(EventAt(a.log, a.next).value)) &&
          b.calls == a.calls + CallsFor(configured, if b.watching && EventAt(a.log, a.next).Some? then [EventAt(a.log, a.next).value] else [])
      case _ => b == a.(watching := false)
  {
    if act.SnapshotReads? && !a.watching && PointersSafe(Now(a.log), V6) { PassHandsOver(a.log, configured); }
    if act.Deliver? && a.watching && a.next <= Revision(a.log) { assert CallsFor(configured, []) == []; }
  }

  // Exactly one call, in the order of the names, for each configured target that has a pointer.
  ghost predicate HandsOver(log: Log, configured: set<string>, made: seq<Call>) {
    DistinctTargets(made) &&
    (forall c :: c in made ==> c.revision == Revision(log)) &&
    forall t, g :: Call(t, g, Revision(log)) in made <==>
      t in configured && Active(V6, t) in Now(log) && g == TrimSpace(Now(log)[Active(V6, t)].value)
  }

  ghost predicate DistinctTargets(calls: seq<Call>) {
    forall i, j :: 0 <= i < j < |calls| ==> calls[i].target != calls[j].target
  }

  lemma {:induction false} SnapshotCallsDistinct(active: map<string, Pointer>, revision: nat, ids: seq<string>)
    requires forall i, j :: 0 <= i < j < |ids| ==> ids[i] != ids[j]
    ensures DistinctTargets(SnapshotCalls(active, revision, ids))
  {
    if ids != [] {
      var before, id := ids[..|ids| - 1], ids[|ids| - 1];
      SnapshotCallsDistinct(active, revision, before);
      var made := SnapshotCalls(active, revision, before);
      forall i | 0 <= i < |made| ensures made[i].target != id {
        assert made[i] in made;
        SnapshotCallsAre(active, revision, before, made[i]);
      }
      assert made + [] == made;
      if id in active { NewTarget(made, Call(id, active[id].generation, revision)); }
    }
  }

  lemma NewTarget(made: seq<Call>, call: Call)
    requires DistinctTargets(made) && forall i :: 0 <= i < |made| ==> made[i].target != call.target
    ensures DistinctTargets(made + [call])
  {
  }

  lemma PassHandsOver(log: Log, configured: set<string>)
    requires SnapshotOf(log, V6).Some?
    ensures HandsOver(log, configured, SnapshotCalls(SnapshotOf(log, V6).value.active, Revision(log), Sorted(configured)))
  {
    var active := SnapshotOf(log, V6).value.active;
    var made := SnapshotCalls(active, Revision(log), Sorted(configured));
    SortedDistinct(configured);
    SnapshotCallsDistinct(active, Revision(log), Sorted(configured));
    forall c: Call ensures c in made <==> c.target in configured && c.target in active && c == Call(c.target, active[c.target].generation, Revision(log)) {
      SnapshotCallsAre(active, Revision(log), Sorted(configured), c);
    }
    forall t, g ensures Call(t, g, Revision(log)) in made <==>
      t in configured && Active(V6, t) in Now(log) && g == TrimSpace(Now(log)[Active(V6, t)].value)
    {
      SnapshotAt(log, V6, t);
      assert Call(t, g, Revision(log)).target == t;
    }
  }

  // The calls that a stretch of events leads to: the puts of configured targets, in order.
  function CallsFor(configured: set<string>, events: seq<Event>): seq<Call> {
    if events == [] then [] else
      var e := events[|events| - 1];
      CallsFor(configured, events[..|events| - 1]) +
        if !e.deleted && e.target in configured then [Call(e.target, e.generation, e.revision)] else []
  }

  // ---- a watch that goes on ----

  ghost function AfterActs(configured: set<string>, a: Agent, script: seq<Act>): Agent {
    if script == [] then a
    else AfterAct(configured, AfterActs(configured, a, script[..|script| - 1]), script[|script| - 1])
  }

  function Deliveries(script: seq<Act>): nat {
    if script == [] then 0 else Deliveries(script[..|script| - 1]) + if script[|script| - 1].Deliver? then 1 else 0
  }

  // Only writes, and deliveries of safe events that are there to be delivered.
  ghost predicate Flowing(configured: set<string>, a: Agent, script: seq<Act>) {
    script == [] ||
    (Flowing(configured, a, script[..|script| - 1]) &&
     var b := AfterActs(configured, a, script[..|script| - 1]);
     match script[|script| - 1]
     case Writes(_) => true
     case Deliver => 2 <= b.next <= Revision(b.log) && (EventAt(b.log, b.next).Some? ==> SafeEvent(EventAt(b.log, b.next).value))
     case _ => false)
  }

  lemma EventsNext(log: Log, after: nat, upto: nat)
    requires 1 <= after <= upto < Revision(log)
    ensures Events(log, after, upto + 1) == Events(log, after, upto) + if EventAt(log, upto + 1).Some? then [EventAt(log, upto + 1).value] else []
  {
    var all := Arrivals(log, after, upto + 1);
    assert all[..|all| - 1] == Arrivals(log, after, upto);
  }

  lemma EventStable(log: Log, writes: Log, revision: nat)
    requires 2 <= revision <= Revision(log)
    ensures EventAt(log + writes, revision) == EventAt(log, revision)
  {
    assert (log + writes)[revision - 2] == log[revision - 2];
  }

  lemma EventsStable(log: Log, writes: Log, after: nat, upto: nat)
    requires 1 <= after <= upto <= Revision(log)
    ensures Events(log + writes, after, upto) == Events(log, after, upto)
  {
    var longer, shorter := Arrivals(log + writes, after, upto), Arrivals(log, after, upto);
    forall i | 0 <= i < |longer| ensures longer[i] == shorter[i] { EventStable(log, writes, after + 1 + i); }
    assert longer == shorter;
  }

  lemma CallsForNext(configured: set<string>, events: seq<Event>, more: seq<Event>)
    requires |more| <= 1
    ensures CallsFor(configured, events + more) == CallsFor(configured, events) + CallsFor(configured, more)
  {
    if more == [] {
      assert events + more == events;
    } else {
      assert (events + more)[..|events|] == events && more[..0] == [];
    }
  }

  // Where a flowing watch has got to.
  ghost predicate Flowed(configured: set<string>, a: Agent, n: nat, b: Agent) {
    a.log <= b.log && b.watching && b.next == a.next + n && 2 <= a.next && b.next <= Revision(b.log) + 1 && b.passes == a.passes &&
    b.calls == a.calls + CallsFor(configured, Events(b.log, a.next - 1, a.next - 1 + n))
  }

  lemma WritesFlow(configured: set<string>, a: Agent, n: nat, b: Agent, writes: Log)
    requires Flowed(configured, a, n, b)
    ensures Flowed(configured, a, n, b.(log := b.log + writes))
  {
    EventsStable(b.log, writes, a.next - 1, a.next - 1 + n);
  }

  lemma DeliveryFlows(configured: set<string>, a: Agent, n: nat, b: Agent, c: Agent)
    requires Flowed(configured, a, n, b) && b.next <= Revision(b.log)
    requires c == Delivered(configured, b)
    ensures Flowed(configured, a, n + 1, c)
  {
    var upto := a.next - 1 + n;
    assert b.next == upto + 1;
    CallsForEvents(configured, b.log, a.next - 1, upto);
    FlowedNext(configured, a, n, b, c, CallsFor(configured, if EventAt(b.log, upto + 1).Some? then [EventAt(b.log, upto + 1).value] else []), upto);
  }

  // The delivery of a safe event.
  ghost function Delivered(configured: set<string>, b: Agent): Agent
    requires 2 <= b.next <= Revision(b.log)
  {
    Agent(b.log, b.calls + CallsFor(configured, if EventAt(b.log, b.next).Some? then [EventAt(b.log, b.next).value] else []),
          b.passes, true, b.next + 1)
  }

  lemma DeliveryIs(configured: set<string>, b: Agent)
    requires b.watching && 2 <= b.next <= Revision(b.log) && (EventAt(b.log, b.next).Some? ==> SafeEvent(EventAt(b.log, b.next).value))
    ensures AfterAct(configured, b, Deliver) == Delivered(configured, b)
  {
    ActIs(configured, b, Deliver);
  }

  lemma FlowedNext(configured: set<string>, a: Agent, n: nat, b: Agent, c: Agent, more: seq<Call>, upto: nat)
    requires Flowed(configured, a, n, b) && b.next <= Revision(b.log) && c == Agent(b.log, b.calls + more, b.passes, true, b.next + 1)
    requires upto == a.next - 1 + n
    requires CallsFor(configured, Events(b.log, a.next - 1, upto + 1)) == CallsFor(configured, Events(b.log, a.next - 1, upto)) + more
    ensures Flowed(configured, a, n + 1, c)
  {
    var made := CallsFor(configured, Events(b.log, a.next - 1, upto));
    assert a.calls + made + more == a.calls + (made + more);
    assert a.next - 1 + (n + 1) == upto + 1;
  }

  lemma CallsForEvents(configured: set<string>, log: Log, after: nat, upto: nat)
    requires 1 <= after <= upto < Revision(log)
    ensures CallsFor(configured, Events(log, after, upto + 1)) == CallsFor(configured, Events(log, after, upto)) +
      CallsFor(configured, if EventAt(log, upto + 1).Some? then [EventAt(log, upto + 1).value] else [])
  {
    EventsNext(log, after, upto);
    CallsForNext(configured, Events(log, after, upto), if EventAt(log, upto + 1).Some? then [EventAt(log, upto + 1).value] else []);
  }

  /** From a watch at some revision, writes and deliveries leave the watch going, further by exactly the number of
      deliveries, and its further calls are exactly the puts of configured targets among these events, in order. */
  lemma {:induction false} DeliveriesReconcile(configured: set<string>, a: Agent, script: seq<Act>)
    requires a.watching && 2 <= a.next <= Revision(a.log) + 1 && Flowing(configured, a, script)
    ensures Flowed(configured, a, Deliveries(script), AfterActs(configured, a, script))
    decreases |script|
  {
    if script == [] {
      FlowedSelf(configured, a);
    } else {
      var init := script[..|script| - 1];
      DeliveriesReconcile(configured, a, init);
      var b := AfterActs(configured, a, init);
      match script[|script| - 1]
      case Writes(writes) => WritesFlow(configured, a, Deliveries(init), b, writes);
      case Deliver =>
        DeliveryIs(configured, b);
        DeliveryFlows(configured, a, Deliveries(init), b, Delivered(configured, b));
      case _ =>
    }
  }

  lemma FlowedSelf(configured: set<string>, a: Agent)
    requires a.watching && 2 <= a.next <= Revision(a.log) + 1
    ensures Flowed(configured, a, 0, a)
  {
    assert Arrivals(a.log, a.next - 1, a.next - 1) == [];
    assert a.calls + [] == a.calls;
  }

  lemma {:induction false} WatchedConcat(configured: set<string>, store: Log, script: seq<Act>, more: seq<Act>)
    ensures Watched(configured, store, script + more) == AfterActs(configured, Watched(configured, store, script), more)
    decreases |more|
  {
    if more == [] {
      assert script + more == script;
    } else {
      var all := script + more;
      assert all[..|all| - 1] == script + more[..|more| - 1] && all[|all| - 1] == more[|more| - 1];
      WatchedConcat(configured, store, script, more[..|more| - 1]);
    }
  }

  // From a, a snapshot read leads to b, and n deliveries lead to end.
  ghost predicate WholeWatch(configured: set<string>, a: Agent, b: Agent, n: nat, end: Agent) {
    var r := Revision(a.log);
    b.log == a.log && a.calls <= b.calls && HandsOver(a.log, configured, b.calls[|a.calls|..]) &&
    end.watching && end.next == r + n + 1 && r + n <= Revision(end.log) &&
    end.calls == b.calls + CallsFor(configured, Events(end.log, r, r + n)) &&
    (r + n == Revision(end.log) ==> Current(end.log, Revision(end.log), configured, end.calls))
  }

  /** A whole watch.  After a snapshot read at revision R, writes and n deliveries of safe events, the agent watches at
      revision R + n + 1 and has called, after the calls of the snapshot, exactly for the puts of configured targets among
      the events after R up to R + n; once these are all, every configured target that has a pointer was last called with
      its current value. */
  lemma WatchDelivers(configured: set<string>, store: Log, before: seq<Act>, more: seq<Act>)
    requires var a := Watched(configured, store, before); !a.watching && PointersSafe(Now(a.log), V6)
    requires Flowing(configured, Watched(configured, store, before + [SnapshotReads]), more)
    ensures WholeWatch(configured, Watched(configured, store, before), Watched(configured, store, before + [SnapshotReads]),
                       Deliveries(more), Watched(configured, store, before + [SnapshotReads] + more))
  {
    SnapshotStarts(configured, store, before);
    WatchGoesOn(configured, store, before + [SnapshotReads], more);
  }

  lemma SnapshotStarts(configured: set<string>, store: Log, before: seq<Act>)
    requires var a := Watched(configured, store, before); !a.watching && PointersSafe(Now(a.log), V6)
    ensures var a, b := Watched(configured, store, before), Watched(configured, store, before + [SnapshotReads]);
      b.log == a.log && b.watching && b.next == Revision(a.log) + 1 && a.calls <= b.calls && HandsOver(a.log, configured, b.calls[|a.calls|..])
  {
    WatchedOk(configured, store, before);
    assert (before + [SnapshotReads])[..|before|] == before;
    ActIs(configured, Watched(configured, store, before), SnapshotReads);
  }

  lemma WatchGoesOn(configured: set<string>, store: Log, script: seq<Act>, more: seq<Act>)
    requires var b := Watched(configured, store, script); b.watching && Flowing(configured, b, more)
    ensures var b, end := Watched(configured, store, script), Watched(configured, store, script + more);
      Flowed(configured, b, Deliveries(more), end) &&
      (end.next == Revision(end.log) + 1 ==> Current(end.log, Revision(end.log), configured, end.calls))
  {
    WatchedOk(configured, store, script);
    WatchedOk(configured, store, script + more);
    WatchedConcat(configured, store, script, more);
    GoesOnFrom(configured, Watched(configured, store, script), more, Watched(configured, store, script + more));
  }

  lemma GoesOnFrom(configured: set<string>, b: Agent, more: seq<Act>, end: Agent)
    requires b.watching && AgentOk(configured, b) && AgentOk(configured, end)
    requires Flowing(configured, b, more) && end == AfterActs(configured, b, more)
    ensures Flowed(configured, b, Deliveries(more), end)
    ensures end.next == Revision(end.log) + 1 ==> Current(end.log, Revision(end.log), configured, end.calls)
  {
    DeliveriesReconcile(configured, b, more);
  }

  method TakeSnapshot(configured: set<string>, a: Agent) returns (b: Agent)
    ensures b == AfterSnapshot(configured, a)
  {
    var safe, snapshot := ReadSnapshot(a.log);
    if !safe {
      return a;
    }
    var calls := ReconcileSnapshot(configured, snapshot, a.calls);
    b := Agent(a.log, calls, a.passes + [snapshot.revision], true, snapshot.revision + 1);
  }

  method TakeEvent(configured: set<string>, a: Agent) returns (b: Agent)
    requires 2 <= a.next <= Revision(a.log)
    ensures b == AfterEvent(configured, a)
  {
    var restart, all := HandleEvent(a.log, configured, a.next, a.calls);
    b := Agent(a.log, all, a.passes, !restart, a.next + 1);
  }

  /** The agent's main loop. */
  method RunWatch(configured: set<string>, store: Log, script: seq<Act>) returns (a: Agent)
    ensures a == Watched(configured, store, script)
  {
    a := Agent(store, [], [], false, 2);
    var i := 0;
    while i < |script|
      invariant i <= |script| && !a.watching && a == Watched(configured, store, script[..i])
      decreases |script| - i
    {
      var act := script[i];
      WatchedNext(configured, store, script, i);
      i := i + 1;
      match act
      case Writes(writes) =>
        a := a.(log := a.log + writes);
      case SnapshotReads =>
        a := TakeSnapshot(configured, a);
        if a.watching {
          i, a := FollowWatch(configured, store, a, script, i);
          if a.watching {
            assert script[..i] == script;
            return;
          }
        }
      case _ =>
    }
    assert script[..i] == script;
  }

  // The inner loop: events from the revision after the snapshot, until the watch ends.
  method FollowWatch(configured: set<string>, ghost store: Log, start: Agent, script: seq<Act>, from: nat)
    returns (i: nat, a: Agent)
    requires from <= |script| && start.watching && start == Watched(configured, store, script[..from])
    ensures from <= i <= |script| && (a.watching ==> i == |script|) && a == Watched(configured, store, script[..i])
  {
    i, a := from, start;
    while a.watching && i < |script|
      invariant from <= i <= |script| && a == Watched(configured, store, script[..i])
      decreases |script| - i
    {
      WatchedNext(configured, store, script, i);
      match script[i] {
        case Writes(writes) =>
          a := a.(log := a.log + writes);
        case Deliver =>
          if 2 <= a.next <= Revision(a.log) {
            a := TakeEvent(configured, a);
          }
        case _ =>
          a := a.(watching := false);
      }
      i := i + 1;
    }
  }

  method ReadSnapshot(log: Log) returns (safe: bool, snapshot: Snapshot)
    ensures safe <==> SnapshotOf(log, V6).Some?
    ensures safe ==> SnapshotOf(log, V6) == Some(snapshot)
  {
    var store := new Store();
    store.log := log;
    var read := store.SnapshotActivePrefix(V6);
    safe := read.Some?;
    snapshot := if safe then read.value else Snapshot(0, map[]);
  }

  ghost predicate PassesOk(log: Log, configured: set<string>, calls: seq<Call>, passes: seq<nat>) {
    forall r :: r in passes ==> PassOk(log, configured, calls, r)
  }

  ghost predicate PassOk(log: Log, configured: set<string>, calls: seq<Call>, r: nat) {
    1 <= r <= Revision(log) &&
    forall t :: t in configured && PointerAt(log, r, t).Some? ==> Call(t, PointerAt(log, r, t).value, r) in calls
  }

  lemma PassesStable(log: Log, writes: Log, configured: set<string>, calls: seq<Call>, passes: seq<nat>)
    requires PassesOk(log, configured, calls, passes)
    ensures PassesOk(log + writes, configured, calls, passes)
  {
    forall r | r in passes ensures PassOk(log + writes, configured, calls, r) {
      assert (log + writes)[..r - 1] == log[..r - 1];
      assert PassOk(log, configured, calls, r);
    }
  }

  lemma PassesGrow(log: Log, configured: set<string>, calls: seq<Call>, all: seq<Call>, passes: seq<nat>)
    requires PassesOk(log, configured, calls, passes) && calls <= all
    ensures PassesOk(log, configured, all, passes)
  {
    forall r | r in passes ensures PassOk(log, configured, all, r) { assert PassOk(log, configured, calls, r); }
  }

  lemma PassAdds(log: Log, configured: set<string>, calls: seq<Call>, all: seq<Call>, passes: seq<nat>, snapshot: Snapshot)
    requires PassesOk(log, configured, calls, passes) && calls <= all && SnapshotOf(log, V6) == Some(snapshot)
    requires forall t :: t in configured && t in snapshot.active ==> Call(t, snapshot.active[t].generation, Revision(log)) in all
    ensures PassesOk(log, configured, all, passes + [Revision(log)])
  {
    PassesGrow(log, configured, calls, all, passes);
    AtNow(log);
    forall t | t in configured && PointerAt(log, Revision(log), t).Some?
      ensures Call(t, PointerAt(log, Revision(log), t).value, Revision(log)) in all
    {
      SnapshotAt(log, V6, t);
    }
    assert PassOk(log, configured, all, Revision(log));
  }

  /** Once a pointer stops changing, one snapshot pass hands it its final generation. */
  lemma PassConverges(log: Log, configured: set<string>, calls: seq<Call>, pass: nat, target: string)
    requires PassOk(log, configured, calls, pass) && target in configured && Active(V6, target) in Now(log)
    requires forall i :: pass - 1 <= i < |log| ==> !Touches(log[i], Active(V6, target))
    ensures Call(target, TrimSpace(Now(log)[Active(V6, target)].value), pass) in calls
  {
    Frame(log, pass - 1, Active(V6, target));
  }
}
