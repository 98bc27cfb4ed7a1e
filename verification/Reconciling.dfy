/** One target's reconcile over the real activation: what the agent's record calls deployed, broken
    or refused is where the file-system operations ended. */
module Reconciling {
  import opened Wrappers
  import opened ReleaseTree
  import Deploy
  import HookRetry

  // The digest an agent reads off the current link, "" for none.
  function DigestOf(link: Deploy.Link): string {
    if link.Managed? then link.digest else ""
  }

  // How a call ended: returned, or stopped by an error or a crash, before or after the switch.
  function Outcome(ok: bool, done: bool, end: Deploy.Link, digest: string): HookRetry.Deployment {
    if done then (if ok then HookRetry.Deployed else HookRetry.Refused)
    else if end == Deploy.Managed(digest) then HookRetry.Broken
    else HookRetry.Refused
  }

  function OutcomeOf(c: Deploy.Call, done: bool): HookRetry.Deployment {
    Outcome(c.ok, done, c.resumed.disk.current, c.q.material.digest)
  }

  // What a call, stopped anywhere, leaves as the current link.
  lemma LinkAfter(c: Deploy.Call, requests: set<Deploy.Request>, umask: Perm, outside: Path -> Option<Node>)
    requires Deploy.Called(c, requests, umask, outside)
    ensures c.resumed.disk.current == c.start.disk.current || c.resumed.disk.current == Deploy.Managed(c.q.material.digest)
    ensures if c.ok then c.end.disk.current == Deploy.Managed(c.q.material.digest) else c.end == c.start
  {
    Deploy.CalledFine(c, requests, umask, outside);
  }

  /** The current digest after an activation that returned, failed, or was stopped after any operation, is the one
      that the agent's record computes from its outcome. */
  lemma OutcomeAgrees(c: Deploy.Call, done: bool, s: HookRetry.Local, requests: set<Deploy.Request>, umask: Perm,
                      outside: Path -> Option<Node>)
    requires Deploy.Called(c, requests, umask, outside) && (done ==> c.resumed == c.end)
    requires s.current == DigestOf(c.start.disk.current) && c.q.material.digest != ""
    ensures var d := c.q.material.digest;
      DigestOf(c.resumed.disk.current) == (if HookRetry.Switches(s, d, OutcomeOf(c, done)) then d else s.current)
    ensures HookRetry.Returns(OutcomeOf(c, done)) <==> done && c.ok
  {
    LinkAfter(c, requests, umask, outside);
  }

  /** A call that had a switch to make is broken exactly when it was stopped after the switch: in the pruning of old
      releases, or in the removal of one. */
  lemma BrokenIffStoppedAfterSwitch(c: Deploy.Call, done: bool, requests: set<Deploy.Request>, umask: Perm,
                                    outside: Path -> Option<Node>)
    requires Deploy.Called(c, requests, umask, outside) && (done ==> c.resumed == c.end)
    requires c.start.disk.current != Deploy.Managed(c.q.material.digest)
    ensures OutcomeOf(c, done).Broken? <==> !done && c.resumed.disk.current == Deploy.Managed(c.q.material.digest)
    ensures OutcomeOf(c, done).Refused? <==> c.resumed.disk.current == c.start.disk.current && !(done && c.ok)
  {
    LinkAfter(c, requests, umask, outside);
  }

  // The activation of a reconcile, stopped after any number of operations.
  method Activate(fs: Deploy.FileSystem, q: Deploy.Request, now: int, cut: Option<nat>, ghost s: HookRetry.Local,
                  ghost requests: set<Deploy.Request>)
    returns (deployment: HookRetry.Deployment)
    requires q in requests && Clean(q.output) && Hex(q.material.digest) && Deploy.Safe(fs.Now(), requests, fs.umask)
    requires s.current == DigestOf(fs.disk.current)
    modifies fs
    ensures Deploy.Safe(fs.Now(), requests, fs.umask)
    ensures DigestOf(fs.disk.current) == if HookRetry.Switches(s, q.material.digest, deployment) then q.material.digest else s.current
    ensures cut.None? ==>
      (deployment.Deployed? <==> Deploy.Readable(old(fs.disk), fs.outside) && Deploy.Accepts(old(fs.disk), q)) && !deployment.Broken?
  {
    var activated, done;
    ghost var call;
    activated, done, call := fs.RunCall(q, now, cut, requests);
    deployment := Outcome(activated, done, fs.disk.current, q.material.digest);
    OutcomeAgrees(call, done, s, requests, fs.umask, fs.outside);
    CallOk(call, requests, fs.umask, fs.outside);
  }

  lemma CallOk(c: Deploy.Call, requests: set<Deploy.Request>, umask: Perm, outside: Path -> Option<Node>)
    requires Deploy.Called(c, requests, umask, outside)
    ensures c.ok <==> Deploy.Readable(c.start.disk, outside) && Deploy.Accepts(c.start.disk, c.q)
  {
  }

  /** One reconcile of a target on its disk, with the activation stopped after any number of operations: the record
      goes through HookRetry.Step with the outcome of the operations, and keeps agreeing with the disk. */
  method Reconcile(fs: Deploy.FileSystem, t: HookRetry.Target, q: Deploy.Request, now: int, generation: string, revision: int,
                   fetched: bool, accepted: bool, loaded: bool, cut: Option<nat>, hook: Option<string>, saves: bool,
                   ghost requests: set<Deploy.Request>)
    returns (ok: bool, deployment: HookRetry.Deployment)
    requires q in requests && Clean(q.output) && Hex(q.material.digest) && Deploy.Safe(fs.Now(), requests, fs.umask)
    requires t.current == DigestOf(fs.disk.current)
    modifies fs, t
    ensures Deploy.Safe(fs.Now(), requests, fs.umask) && t.current == DigestOf(fs.disk.current)
    ensures var e := HookRetry.Event.Reconcile(generation, revision, q.material.digest,
                       HookRetry.Fate(fetched, accepted, loaded, deployment, hook, saves));
      t.Now() == HookRetry.Step(t.dryRun, old(t.Now()), e) && (ok <==> HookRetry.Succeeds(t.dryRun, old(t.Now()), e))
    ensures !fetched || !accepted || t.dryRun || !loaded ==> fs.Now() == old(fs.Now())
    ensures fetched && accepted && !t.dryRun && loaded && cut.None? ==>
      (deployment.Deployed? <==> Deploy.Readable(old(fs.disk), fs.outside) && Deploy.Accepts(old(fs.disk), q)) && !deployment.Broken?
  {
    deployment := HookRetry.Refused;
    if fetched && accepted && !t.dryRun && loaded {
      deployment := Activate(fs, q, now, cut, t.Now(), requests);
    }
    ok := t.Reconcile(generation, revision, q.material.digest,
                      HookRetry.Fate(fetched, accepted, loaded, deployment, hook, saves));
  }
}
