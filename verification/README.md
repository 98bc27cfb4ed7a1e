# pemcast: a verified model

pemcast distributes TLS certificate bundles through etcd. Publishers stage an immutable bundle
and move an active pointer by compare-and-swap; pruners delete expired bundles; an upgrader moves
a namespace from protocol v5 to v6; an agent follows the pointers, installs releases on disk,
switches a symbolic link and runs a hook. This project models that behaviour in Dafny and proves
what the programs rely on, over all inputs and all runs.

| file | what it models |
|---|---|
| `Text.dfy` | white space, safe names, the byte order of sorting |
| `Etcd.dfy` | the store: a log of single-key writes, views at every revision, the atomic requests as methods of a class |
| `Protocol.dfy` | publisher, pruner and upgrader as step machines that interleave freely |
| `Safety.dfy` | the invariant of every step; pointers never dangle; commits are faithful |
| `History.dfy` | no lost update; the run that strands a pointer |
| `Upgrade.dfy` | cutting an upgrade anywhere and running it again |
| `Migration.dfy` | what an undisturbed upgrade does to a store, written out over its keys |
| `Programs.dfy` | `Publish` and `Upgrade` as methods that go through the states of their machines, with their outcomes |
| `Prune.dfy` | `Prune` as a method: its machine, its exact effect and its report |
| `Watch.dfy` | snapshot plus events equal the store; the agent's loop over arbitrary restarts |
| `Admission.dfy` | per-target locks, the slot semaphore and the error channel of concurrent reconciles |
| `HookRetry.dfy` | what a saved state says about the hook, over runs with failures and seeds |
| `ReleaseTree.dfy` | the tree of one release: what verifying accepts, what building makes |
| `Deploy.dfy` | activation as file-system operations that a crash can cut anywhere; pruning of releases |
| `Keyspace.dfy` | prefix normalisation, printing and parsing of keys, prefix reads and deletes |
| `Encoding.dfy` | hexadecimal and base64 (RFC 4648, section 4) |
| `Format.dfy`, `Content.dfy` | the v6 manifest, its digest, encoding and decoding; what the digest identifies |
| `Legacy.dfy` | the v5 format and its conversion |
| `Shapes.dfy` | both bundle formats written out: which values are bundles, what they hold, what their digests hash |
| `Packs.dfy` | building and validating packs |
| `Reconciling.dfy` | one reconcile over the real activation, joining `HookRetry.dfy` and `Deploy.dfy` |
| `Seeds.dfy` | seeding a target from a local pack |
| `Instance.dfy` | the protocol theorems over the real formats, and the agent's fetch |

How it is put together. An operation is stated twice. A step function says what it does one request
at a time, and the run theorems are about that; beside it stands its outcome in terms of the store, the
disk or the record alone (`Publisher.Publish`, `Upgrader.Upgraded`, `Pruner.ItemTells`, `Watch.ActIs`,
`HookRetry.ReconcileOutcome`, `ReleaseTree.RightRelease`, `Shapes.DecodeIs`), which does not name
the step function. The protocol proofs see the bundle formats only as a record of two
functions (`Machines.World`); `Instance.FormatsOk` shows that the real formats meet what they ask
of it. The store holds structured keys; `Keyspace.PrintInjective` and the prefix lemmas beside it
justify that for every accepted namespace. SHA-256, JSON text, PEM and X.509 parsing are fields of
`Format.Crypto`; the only facts assumed of them are in
`Format.CryptoOk`, which `Content.CryptoExists` shows can be met, and freedom from
collisions appears only as a hypothesis about the finitely many strings a statement is about,
since no function into 32 bytes is injective on all strings. `committer` in the system, `trace` and
`doubtful` in the file system, and `blessed`, `hooks` and `switches` of a target are history:
nothing but their own update reads them, and `FileSystem.Restart`, which cuts a call short.

What turned out not to hold as first stated, and exactly when it does:

- A pointer can dangle when a pruner deletes the bundle of a publisher that is between its stage
  check and its swap. `Safety.NoPointerDangles` rules it out for every run in which no inspecting
  pruner counts such a bundle as past retention at that moment; `Stranding.DanglesIffStruck` shows
  that a pointer can dangle exactly when such a deletion can happen, and
  `Stranding.PastRetentionStrands` builds the run for every pair of pack and pruner that allows it.
- A failed hook is not always retried: if anything fails between the switch of the link and the
  save of the state, and the hook has not succeeded, over a state without a hook error, the next
  reconcile skips the hook and records success. README.md of the program promises the retry
  (lines 32 and 373).
  `HookRetry.DishonestIffGap` and `HookRetry.SkippedIffDishonest` give the exact condition.
- A pack that `Build` has just made fails `Validate` exactly when the normalised prefix ends in
  white space (`Packs.BuildValidates`). The upgrader normalises its prefix twice
  (internal/upgrade/upgrade.go:91 and :154), so such a prefix would also send it to two namespaces.
- A freshly built release is accepted exactly when the umask cleared no bit that the release
  uses and no mapping has mode zero (`ReleaseTree.FreshReleaseVerifies`). Otherwise the call that
  builds it succeeds, and the next call for it is refused (`Deploy.RerunSucceeds`).
- Deleting `<prefix>/v5/` spares every other key of its own namespace, but not a namespace whose
  keys lie below that path (`Keyspace.DeletePrefixAcross`).
- `Validate` of a v6 manifest lets a file with an unexpected name pass if its role is empty
  (`Format.LooseValidate`); decoding rejects it all the same (`Format.DecodedNames`).
- Pruning with the largest representable retention never deletes anything, because the elapsed
  time saturates there (`Pruner.InspectTells`); and a pointer with white space around its value
  makes a deleting prune fail on that target (`Pruner.Scannable`), and an upgrade fail that has
  it to commit (`Migration.CanCommit`).

## Model

| member | source | states |
|---|---|---|
| Etcd.ModFreezes | internal/etcdsource/kv.go:145-153 | a key whose current mod revision is at most r was not touched after r and had the same cell at r: why comparing value and mod revision detects every write in between |
| Etcd.Store.GetAt | internal/etcdsource/kv.go:47-67 | one key at a past revision, the current view for a revision of zero or less, an error for a future one |
| Etcd.Store.StageBundleIfAbsent | internal/etcdsource/kv.go:70-82 | creates exactly when the key is absent, and otherwise writes nothing |
| Etcd.Store.SwapActive | internal/etcdsource/kv.go:84-101 | puts the generation exactly when the captured pointer state still holds |
| Etcd.Store.SwapActiveFromSource | internal/etcdsource/kv.go:103-131 | one atomic write, made exactly when both pointers compare equal in value and mod revision, or in absence; refuses an absent source |
| Etcd.Store.DeletePrefix | internal/etcdsource/kv.go:133-143 | removes every v5 key in one write, counts them, and writes nothing when there are none |
| Etcd.Store.SnapshotActivePrefix | internal/etcdsource/snapshot.go:45-80 | every pointer of one version at one revision, trimmed, or an error if a name is unsafe |
| Etcd.Store.ListBundleRecords | internal/etcdsource/bundles.go:23-62 | succeeds exactly when every listed key is safe; one record for every bundle, in some order |
| Etcd.Store.DeleteBundleIfActiveUnchanged | internal/etcdsource/bundles.go:64-84 | deletes the bundle only while the captured pointer holds |
| Safety.RunKeeps | internal/etcdsource/kv.go:68-131 | every interleaving of any processes keeps the invariant that carries each process's program point and what it knows there |
| Safety.NoPointerDangles | internal/publisher/publisher.go:54-78 | at every revision of every run, each v6 pointer names a stored bundle of its generation, if at no moment a pruner inspecting records counts as past retention a bundle that some publisher then holds between its stage check and its swap |
| Safety.NoPointerDanglesSpared | internal/etcdsource/bundles.go:64-84 | the same under the weakest proviso: no step deletes the bundle of a publisher whose swap would still succeed; nothing is asked about retention or collisions |
| Safety.QuietSpares | internal/prune/prune.go:154-176 | the first proviso implies the second, unless digests collide |
| Safety.AlwaysQuietRuns | internal/prune/prune.go:154-176 | a proviso on the packs and options alone, which a caller can check before the run, implies the first |
| Stranding.DanglesIffStruck | internal/publisher/publisher.go:64-78 | the weakest proviso is exact: from a clean store, given processes can reach a dangling pointer if and only if they can reach the deletion of the bundle of a publisher whose swap would still succeed |
| Stranding.StrikeStrands | internal/publisher/publisher.go:64-78 | after such a deletion in any reachable state, the publisher's own next one or two steps strand its pointer |
| Stranding.PrunersAloneAreSpared | internal/prune/prune.go:85-122 | while no publisher is between its stage check and its swap, pruners may delete anything |
| Stranding.OrdinaryLife | internal/prune/prune.go:85-122 | publish a pack, publish another over it, prune the first: this run lies within the proviso and deletes the published bundle |
| Stranding.DeletedIsFetched | internal/etcdsource/snapshot.go:82-102 | and at the revision where the pointer named it, that bundle is still found |
| Stranding.PastRetentionStrands | internal/prune/prune.go:76-115 | without that proviso: for every such pair of pack and pruner there is a run from the empty store that ends with a dangling pointer |
| Instance.RealScene | internal/prune/prune.go:154-176 | any two identities of different generations that can be packed give such a pair, if the pruner counts the second as past retention |
| Instance.SceneExists | internal/prune/prune.go:154-176 | such pairs over the real formats exist |
| Safety.CreatedNeverDangle | internal/upgrade/upgrade.go:261-307 | a pointer that still has the value it was created with never dangles, with pruners of any clock and retention running |
| Safety.UpgradeCommitsFaithfully | internal/upgrade/upgrade.go:280-306 | when an upgrader commits, its v5 pointer held one unchanged cell from the plan's snapshot to the commit, and the stored v6 bundle converts, to the type asked for this target, the v5 bundle named there, under arbitrary rewrites of v5 keys and v6 pointers |
| Safety.DeletesOnlyWhatItSaw | internal/upgrade/upgrade.go:309-341 | in any interleaving, the v5 keys are deleted only by an upgrader that was asked to and that has, at revisions of the log, seen as many pointers of both versions as it planned and, for every target, the planned v5 pointer, then v6 pointer, then bundle bytes |
| Instance.UpgradeKeepsBytes | internal/upgrade/legacy/legacy.go:104-130 | over the real formats: that v6 bundle is of the type asked for the target and decodes to exactly the certificate and key bytes of the v5 bundle |
| Safety.FetchAtPointerRevisionFinds | internal/etcdsource/snapshot.go:82-102 | in every run within the weakest proviso, at the revision of a pointer value its bundle is there and valid, even if it has been deleted since |
| Instance.AgentFetchSucceeds | internal/appcmd/agent/application.go:90-165 | in every run of the store within the weakest proviso and every run of an agent over it, with any restarts and any safe targets, every call the agent makes fetches and decodes its bundle |
| Instance.FetchBundle | internal/etcdsource/snapshot.go:82-121 | returns exactly the contents of a bundle stored at that revision that has one of the two written shapes and hashes to the requested generation, for safe names and a revision that exists |
| Instance.DescribeIs | internal/prune/prune.go:125-160 | what an inspection sees: the generation, type and, certificate by certificate, the end of validity of a v6 bundle; nothing of other values |
| Instance.ConvertDataIff | internal/upgrade/legacy/legacy.go:61-130 | what converts, exactly: a v5 bundle of the named generation, to a TLS type, whose contents are an identity of that type; and into which v6 bundle and generation |
| Instance.FormatsOk | internal/bundle/manifest.go:241-252 | generations are safe names and a conversion yields a bundle that decodes to its generation |
| Instance.ShaCleanNoCollision | internal/bundle/manifest.go:213-239 | if SHA-256 does not collide on the bundles written, two values of one generation have the same type, files and expiry dates |
| History.CommitReplaces | internal/etcdsource/kv.go:84-101 | a commit over a captured pointer replaces exactly the captured put, untouched in between, by another value; over an absence only absence is sure |
| History.PublishedOneToOne | internal/publisher/publisher.go:64-78 | over any run: each pointer put has one committer, never a pruner; a publisher among them reports exactly this entry, its generation over exactly what it captured; an upgrader's put replaces an absence; and each "published" report stands for exactly one entry |
| Resume.CutAndRerun | internal/upgrade/upgrade.go:147-341 | an upgrade cut after any request before the old prefix is deleted, then run again with the same options, ends with the very log of the uncut run |
| Resume.RerunWritesNothing | internal/upgrade/upgrade.go:261-341 | one more run after a finished one writes nothing |
| Resume.RerunAfterDeleteWritesNothing | internal/upgrade/upgrade.go:174-181 | after the v5 keys are gone another run writes nothing, never finishes, and has been refused after three requests |
| Publisher.Publish | internal/publisher/publisher.go:34-79 | over the store before and after: a no-op exactly when the pack can be staged and the pointer already names it; published exactly when it can be staged and the pointer is absent or names another safe generation; an error otherwise; then which keys hold what; and it goes through the states of the publisher machine |
| Publisher.SwapIs | internal/publisher/publisher.go:64-78 | in any interleaving the swap commits exactly when the pointer is as captured, and a swap that finds it changed fails and writes nothing |
| Publisher.RequireExistingBundle | internal/publisher/publisher.go:81-93 | true exactly when the stored bytes are the expected ones |
| Publisher.CaptureActive | internal/publisher/publisher.go:95-108 | captures a condition that holds, absence included, and rejects an unsafe generation |
| Upgrader.PlanAll | internal/upgrade/upgrade.go:195-258 | the loop over the sorted v5 targets yields the plan of the machine, or an error if any target fails |
| Migration.PlanIs | internal/upgrade/upgrade.go:147-259 | a plan is made exactly when every pointer is safe, there is no v4 target, some v5 target, no v6 target or type override without one, and each v5 target converts, to its own type or the default, into what a v6 pointer already there names; it has each v5 target once, in name order, with that type, source, bundle and mark |
| Upgrader.MakePlan | internal/upgrade/upgrade.go:147-259 | returns that plan exactly on those stores, and an error on all others |
| Upgrader.StageTarget | internal/upgrade/upgrade.go:261-279 | succeeds exactly when nothing else is under the new key, which then holds the planned bytes; no other key changes |
| Upgrader.CommitTarget | internal/upgrade/upgrade.go:280-306 | succeeds exactly when the v5 pointer has the planned value and mod revision and there is no v6 pointer, which then names the new generation; no other key changes, and on failure none |
| Upgrader.ApplyPlan | internal/upgrade/upgrade.go:261-307 | succeeds exactly when every target fits the store at the start; keeps every key, adds only the planned pointers and bundles, and on success all of them |
| Upgrader.VerifyOne | internal/upgrade/upgrade.go:321-339 | accepts a target exactly when both pointers and the stored bytes are as planned |
| Upgrader.VerifyPlan | internal/upgrade/upgrade.go:309-341 | accepts exactly when all pointers are safe, both versions have as many as were planned, and for every target both pointers and the bundle bytes are as planned |
| Migration.PassesAfter | internal/upgrade/upgrade.go:309-341 | undisturbed, it accepts whatever the plan was applied to |
| Upgrader.Report | internal/upgrade/upgrade.go:106-135 | one status per target: already migrated, would migrate or migrated |
| Upgrader.Upgrade | internal/upgrade/upgrade.go:86-145 | alone on a store: succeeds exactly when the deletion is confirmed, the store can be planned and, unless this is a dry run, every target committed; reports each v5 target in order with its type, generations and status; then every v5 target has its converted bundle and a pointer to it, all other keys are as they were, and deletion takes exactly the v5 keys; it goes through the states of the upgrader machine |
| Pruner.InspectTells | internal/prune/prune.go:125-176 | when a record can be read, and then its item field by field: eligible exactly when it is an identity whose target has another active generation and some certificate expired more than the retention ago; the earliest expiry; the status of each case |
| Pruner.InspectRecord | internal/prune/prune.go:125-176 | the loop for the earliest expiry and every status of the item |
| Pruner.ScanOne | internal/prune/prune.go:93-117 | fails exactly on an invalid record or, when deleting, on a pointer that differs from the captured one |
| Pruner.Prune | internal/prune/prune.go:56-123 | by the keys of the store: when it succeeds; one item per bundle in order of target and generation, with type, status and earliest expiry; eligible is the count of expendable bundles; delete mode removes exactly these and a dry run nothing; the states are those of the pruner machine |
| Pruner.NothingLeft | internal/prune/prune.go:85-122 | after the deletion nothing is eligible under the same options |
| Text.LeqIs | internal/prune/prune.go:116-121 | the order of the report: a prefix first, else by the first different character |
| Watch.ReplayIsStore | internal/etcdsource/watch.go:21-83 | replaying the events after a snapshot on top of it gives the pointers of every later revision |
| Watch.ReadEvent | internal/etcdsource/watch.go:63-82 | the event of one revision, none for other keys, or an error for unsafe names |
| Watch.HandleEvent | internal/appcmd/agent/application.go:125-148 | one call for a put of a configured target, none for a delete; an unsafe event ends the watch |
| Watch.EventKeeps | internal/appcmd/agent/application.go:125-148 | after a safe event each configured target's last call is its pointer at that revision, if it was before |
| Watch.ReconcileSnapshot | internal/reconcile/controller.go:172-197 | one call for each configured target present in the snapshot, in name order, at its revision |
| Watch.PassHandsAll | internal/reconcile/controller.go:172-197 | such a pass leaves every configured target's last call at its pointer and keeps revisions monotone |
| Watch.PassInAnyOrder | internal/reconcile/controller.go:184-189 | so does the same pass with its concurrent reconciles in any order |
| Watch.RunWatch | internal/appcmd/agent/application.go:90-165 | over any script of writes, failures, deliveries and restarts, the nested loops compute the fold of the single acts |
| Watch.ActIs | internal/appcmd/agent/application.go:90-165 | what each act does: a snapshot read calls once for each configured target it holds and starts a watch at the next revision; a delivered safe event calls if it puts a configured target's pointer and moves the watch on by one; an unsafe event and any other act end a watch |
| Watch.DeliveriesReconcile | internal/appcmd/agent/application.go:125-148 | after n deliveries of safe events among writes the watch is n revisions further and has called exactly for the puts of configured targets among these events, in order |
| Watch.WatchDelivers | internal/appcmd/agent/application.go:90-165 | a whole watch, from a snapshot at R through n deliveries: the calls are those of the snapshot and then of the events up to R + n, and once these are all the events every configured target that has a pointer was last called with its current value |
| Watch.WatchSound | internal/appcmd/agent/application.go:90-165 | over any such run revisions never decrease per target, every call names the pointer at its revision, every snapshot pass covers every present target, and a live watch is current |
| Watch.PassConverges | internal/appcmd/agent/application.go:92-105 | once a pointer stops changing, one snapshot pass hands the target its final generation |
| Admission.AdmissionIsExclusive | internal/reconcile/controller.go:83-95 | at most one call per target and at most the configured number in all are past admission |
| Admission.SlotHolderNeverWaits | internal/reconcile/controller.go:90-95 | a call holding or having given back a slot can always move on, the sending of its error included |
| Admission.NeverStuck | internal/reconcile/controller.go:88-95 | while work is left some step can be taken, in every reachable state |
| Admission.RunsFinish | internal/reconcile/controller.go:172-197 | runs are finite but for arrivals, send no more errors than the channel holds, and end with every call finished |
| Admission.PassAccounted | internal/reconcile/controller.go:172-197 | a finished pass, whoever else was calling, made one call for each active target in the order of its visits; every call for a configured target ran or was cancelled waiting for a slot, and no other ran; the channel holds one error for each failed deletion and each failed or cancelled call of the pass, no more |
| Admission.Controller.constructor | internal/reconcile/controller.go:56-65 | a controller starts in a state that satisfies the invariant |
| Admission.Controller.Lock | internal/reconcile/controller.go:83-89 | takes the lock of a target exactly when it is free |
| Admission.Controller.AcquireSlot | internal/reconcile/controller.go:90-95 | takes a slot, waits, or gives up on cancellation |
| Admission.Controller.ReleaseSlot | internal/reconcile/controller.go:92-92 | the deferred release of the slot, before the lock |
| Admission.Controller.Unlock | internal/reconcile/controller.go:89-89 | the deferred unlock; a failed call of a pass goes on to report |
| Admission.Controller.SendError | internal/reconcile/controller.go:184-188 | the send to the error channel never waits |
| Admission.Controller.VisitNext | internal/reconcile/controller.go:176-189 | one turn of the loop over the targets never waits either |
| HookRetry.DishonestIffGap | internal/reconcile/controller.go:116-161 | from a state whose missing hook error means a successful hook, a step ends in one where it does not exactly when it fails in the gap between switch and save |
| HookRetry.SavedMeansHookSucceeded | internal/reconcile/controller.go:116-161 | over any run of reconciles and seeds with nothing in the gap, a saved state without hook error for the current release means that its hook succeeded or that seed put it there |
| HookRetry.SkippedIffDishonest | internal/reconcile/controller.go:124-134 | the next reconcile of the current digest skips the hook and records success exactly in a state left by such a gap |
| HookRetry.FailedHookRunsAgain | internal/reconcile/controller.go:148-159 | a failed hook runs again on the next reconcile of the digest, the release is not switched again, and success clears the error |
| HookRetry.SkippedHookRun | internal/deploy/deployer.go:99-105 | a run of three reconciles that ends with a recorded success and no hook for the current release |
| HookRetry.SuccessIsRecorded | internal/reconcile/controller.go:124-160 | a reconcile that reports success has its digest current and recorded without a hook error |
| HookRetry.ReconcileOutcome | internal/reconcile/controller.go:96-161 | what a reconcile leaves behind: a hook that ran is recorded, if the save succeeds, as the requested generation, digest and revision with exactly its error text; an unchanged release only gets a new generation or digest recorded; else, or if the save fails, the saved state stays; and when it switches and runs the hook |
| HookRetry.SuccessIs | internal/reconcile/controller.go:96-161 | when it reports success, exactly |
| HookRetry.SeedOutcome | internal/seed/seed.go:110-128 | what a seed leaves behind: the release, nothing recorded, and a different current release only by force |
| HookRetry.Target.Activate | internal/deploy/deployer.go:77-105 | whether the current digest changes, and whether the call returns a result, for each way the file-system work can end |
| Reconciling.OutcomeAgrees | internal/reconcile/controller.go:120-123 | after an activation that returned, failed or was stopped after any operation, the current digest on disk is the one the target's record computes |
| Reconciling.BrokenIffStoppedAfterSwitch | internal/deploy/deployer.go:99-105 | a call with a switch to make counts as broken exactly when it was stopped after the switch, as by a failing prune or a crash |
| Reconciling.Reconcile | internal/reconcile/controller.go:116-161 | one reconcile over the real file-system operations, stopped anywhere: the record steps by their outcome and keeps agreeing with the disk |
| HookRetry.Target.Reconcile | internal/reconcile/controller.go:96-160 | the new saved state, hook runs, current digest and the result for every outcome of every step |
| HookRetry.Target.Seed | internal/seed/seed.go:110-128 | a different current release is replaced only by force; the state is not written |
| ReleaseTree.AddParents | internal/deploy/deployer.go:185-187 | the walk up from a file adds exactly its proper ancestors and ends |
| ReleaseTree.CheckMappings | internal/deploy/deployer.go:173-207 | the loop over the mappings, also when a path leads through a symbolic link to anything outside |
| ReleaseTree.Walk | internal/deploy/deployer.go:209-250 | accepts exactly when every entry is the root, an implied directory or an expected file |
| ReleaseTree.Counted | internal/deploy/deployer.go:251-257 | seen within expected and equally many means that the tree matches |
| ReleaseTree.VerifyRelease | internal/deploy/deployer.go:153-258 | accepts exactly the trees with the directory, the marker with mode 0600 and the digest, each mapped file with the bundle's bytes and its mode, the directories above these with theirs, and nothing else |
| ReleaseTree.MatchesIsRight | internal/deploy/deployer.go:153-258 | the specification the walk is proved against says the same |
| ReleaseTree.ExactBuildIsRight | internal/deploy/deployer.go:114-137 | and the one that staging is proved against means a tree with the marker text, each mapped file with the bundle's bytes, and the modes the umask leaves |
| ReleaseTree.FreshReleaseVerifies | internal/deploy/deployer.go:114-145 | a freshly built tree is accepted exactly when the umask cleared no bit in use and no mode is zero |
| Deploy.LinkRoundTrip | internal/deploy/deployer.go:46-60 | a link target reads as a digest exactly when it is `.pemcast/releases/sha256-` and that digest, not empty and without slashes |
| Deploy.FileSystem.CurrentDigest | internal/deploy/deployer.go:34-70 | empty exactly without a link; a digest exactly when the link leads to it and a marker file there says the same, white space aside; an error otherwise |
| Deploy.FileSystem.RemoveAll | internal/deploy/deployer.go:317-320 | entry by entry; at every moment only that directory differs and it is known to be in doubt |
| Deploy.FileSystem.WriteReleaseFile | internal/deploy/deployer.go:260-277 | fails exactly when something is at the path or a file is above it; creates missing directories and the file |
| Deploy.FileSystem.Stage | internal/deploy/deployer.go:114-137 | succeeds exactly when the mapped files exist and no path gets in another's way; the staged tree then holds each mapped file with the bundle's bytes, and is exactly the release |
| Deploy.FileSystem.EnsureRelease | internal/deploy/deployer.go:108-145 | verifies a release in place or installs a new one, with the right bytes, by one rename; on failure nothing is left |
| Deploy.FileSystem.SwitchSymlink | internal/deploy/deployer.go:279-293 | a leftover link is removed, a new one made and renamed into place; at every moment the current link has its old or its new value |
| Deploy.FileSystem.PruneReleases | internal/deploy/deployer.go:295-322 | keeps the active release, every other entry, and the newest inactive releases, exactly as many as are retained |
| Deploy.FileSystem.Activate | internal/deploy/deployer.go:72-106 | succeeds exactly when the current release can be read and the requested one verifies or can be built; the selected release then holds every mapped file with the bundle's bytes; what changed, what pruning kept, and every moment in between |
| Deploy.SessionSafe | internal/deploy/deployer.go:72-145 | any sequence of activations, each cut at any operation, passes only through moments at which `current` is absent, and was absent at the start, or selects a complete release |
| Deploy.FileSystem.RunCall | internal/deploy/deployer.go:72-106 | one activation, cut after any number of operations, with the moments it passed through |
| Deploy.FileSystem.RunCalls | internal/deploy/deployer.go:72-106 | any list of activations, each cut anywhere or not at all, is a session to which the following rows apply |
| Deploy.RerunSucceeds | internal/deploy/deployer.go:72-145 | a call that would have succeeded, cut anywhere and run again, reaches the requested release, except, and then always, when the cut call had built it under a umask that cleared a mode bit it uses (or with a zero mode); then it is refused and nothing changes |
| Deploy.UndoubtedAccepts | internal/deploy/deployer.go:108-113 | a call can fail only at a directory in doubt or at an obstacle, if one digest always means one material and layout |
| Deploy.TornReleaseRefused | internal/deploy/deployer.go:108-113 | a directory from which an interrupted removal has taken anything makes the call for its digest fail and leaves `current` alone |
| Deploy.AtMostRetainedAndActive | internal/deploy/deployer.go:315-320 | after pruning at most one more release directory than is retained is left |
| Deploy.RetainedEntries | internal/deploy/deployer.go:295-322 | pruning by the entries: only inactive release directories go, none newer by modification time than one that stays, and only when more than the retained number are there, which then stay |
| Seeds.CheckFits | internal/seed/seed.go:40-65 | a valid pack for this namespace, target and type |
| Seeds.Material | internal/seed/seed.go:33-97 | the decoded pack, exactly when it fits and meets policy and mappings |
| Seeds.Install | internal/seed/seed.go:110-128 | refuses an unreadable or, without force, a different current release; otherwise it is one activation, with its crash safety |
| Seeds.Apply | internal/seed/seed.go:99-129 | succeeds exactly when the pack is valid, for this namespace, target and type, meets policy and mappings, no other release is current or force is given, and the activation is accepted; it then selects the pack's release with its bytes, and otherwise changes nothing |
| Keyspace.RootIs | internal/keyspace/keys.go:58-59 | joining a protocol root adds one component, also below "/" |
| Keyspace.PrintInjective | internal/keyspace/keys.go:61-84 | safe keys print injectively; active and bundle keys never meet |
| Keyspace.ParseBundleRoundTrip | internal/etcdsource/bundles.go:34-43 | reading a key below the bundle prefix gives a key exactly when that key prints to it |
| Keyspace.ParseActiveRoundTrip | internal/etcdsource/snapshot.go:69-80 | the same below an active prefix |
| Keyspace.DeletePrefixHitsOnlyOld | internal/upgrade/upgrade.go:136-153 | the deleted prefix covers exactly the v5 keys of the namespace |
| Keyspace.DeletePrefixAcross | internal/upgrade/upgrade.go:136-153 | which keys of another namespace it covers |
| Keyspace.ActiveReadIs | internal/keyspace/keys.go:61-69 | the active prefix covers exactly the pointers of its version |
| Keyspace.BundleReadIs | internal/keyspace/keys.go:71-84 | the bundle prefix covers exactly the bundles of its version |
| Keyspace.NewKeysNamespace | internal/keyspace/keys.go:22-45 | every accepted prefix is the rooted path of safe components |
| Keyspace.NewKeysAgain | internal/keyspace/keys.go:22-45 | normalising again changes nothing exactly when the prefix does not end in white space |
| Keyspace.NewKeysIff | internal/keyspace/keys.go:22-45 | which prefixes are accepted and what they become: white space aside, a rooted path without a dot component or a backslash; empty components are dropped |
| Keyspace.PrintedText | internal/keyspace/keys.go:58-84 | every key as it is written, also below "/" |
| Encoding.HexInjective | internal/bundle/manifest.go:424-427 | distinct sums have distinct texts |
| Encoding.HexAt | internal/bundle/manifest.go:424-427 | two lower-case digits for each byte, the high one first |
| Encoding.RoundTrip | internal/bundle/manifest.go:76-81 | base64 decoding undoes encoding |
| Encoding.UnusedBitsIgnored | internal/bundle/manifest.go:260-263 | decoding is not strict, so the text of given bytes is not unique |
| Encoding.Vectors | internal/bundle/manifest.go:76-81 | the alphabet and padding, by the test vectors of RFC 4648 |
| Format.ValidateManifest | internal/bundle/manifest.go:151-185 | accepts exactly the manifests with the right schema, type, count, names, roles, sums and encoding |
| Format.ValidateFiles | internal/bundle/manifest.go:187-211 | accepts exactly the files that match the declared names and sums and the meaning of the type |
| Format.DecodeManifestFiles | internal/bundle/manifest.go:254-273 | the decoded files, or an error; the second check never fails |
| Format.ReadFiles | internal/bundle/manifest.go:258-268 | the decoding loop: each file's bytes, or an error for bad base64 or a wrong sum |
| Format.EncodeManifest | internal/bundle/manifest.go:104-118 | encodes exactly the manifests that decode, within the size limit |
| Format.ManifestDigest | internal/bundle/manifest.go:213-239 | the loop hashes schema, type and, in name order, the name, role and sum of every file |
| Format.EncodeDecode | internal/bundle/manifest.go:104-134 | decoding an encoded manifest gives the manifest, its files and its digest |
| Format.DecodedNames | internal/bundle/manifest.go:187-211 | a decoded bundle has exactly the files its type expects |
| Format.LooseValidate | internal/bundle/manifest.go:172-174 | Validate alone accepts an unexpected name with an empty role |
| Shapes.DecodeIs | internal/bundle/manifest.go:120-273 | which values are v6 bundles, with which files and digest: at most one mebibyte, a manifest with exactly the files, roles, sums and encoding of its type, a chain of one leaf and authorities that the key fits, or authorities only; the digest hashes a text written out literally |
| Shapes.EncodeIs | internal/bundle/manifest.go:104-118 | which manifests are encoded, by the same shapes |
| Content.PreimageUnique | internal/bundle/manifest.go:213-239 | what is hashed can be read back: schema, type, and every name, role and sum |
| Content.DigestIdentifies | internal/bundle/manifest.go:213-239 | equal digests of decoded bundles mean equal types and files, and conversely, unless SHA-256 collides on them |
| Content.DigestIgnoresOrder | internal/bundle/manifest.go:221-229 | the order of the files in the manifest does not matter |
| Content.BuiltTls | internal/bundle/manifest.go:71-89 | a built TLS manifest decodes to its raw bytes exactly when they are a valid identity |
| Content.BuiltTrust | internal/bundle/manifest.go:91-102 | the same for trust |
| Content.NewTlsManifest | internal/bundle/manifest.go:71-89 | the manifest and digest of raw material |
| Content.SameGenerationSameBytes | internal/bundle/manifest.go:71-118 | identity bundles built from raw material have equal generations exactly when they are the same bytes |
| Content.GenerationSafe | internal/bundle/manifest.go:241-244 | every generation is a safe name |
| Legacy.ValidateOld | internal/upgrade/legacy/legacy.go:132-182 | accepts exactly the canonical v5 shape |
| Legacy.ContentDigest | internal/upgrade/legacy/legacy.go:184-202 | the loop hashes the v5 schema and, in name order, each name and sum |
| Legacy.DecodeOldBundle | internal/upgrade/legacy/legacy.go:61-102 | the files of a v5 bundle whose generation is its content digest, or an error |
| Legacy.ConvertTls | internal/upgrade/legacy/legacy.go:104-130 | the encoded v6 bundle and its digest, only for a TLS type |
| Legacy.ConversionKeepsFiles | internal/upgrade/legacy/legacy.go:61-130 | the converted bundle decodes to exactly the files of the v5 bundle |
| OldShapes.DecodeOldIs | internal/upgrade/legacy/legacy.go:61-202 | which values are v5 bundles, of which generation and with which files, written out literally |
| OldShapes.ConvertIs | internal/upgrade/legacy/legacy.go:104-130 | a pair of contents converts exactly to a TLS type whose identity it is, within the size limit, into the manifest of the same contents |
| Legacy.OldAndNewDiffer | internal/upgrade/legacy/legacy.go:184-202 | no v5 preimage is a v6 preimage |
| Legacy.OldGenerationIsNotNew | internal/upgrade/legacy/legacy.go:91-97 | so no v5 generation is a v6 generation, unless SHA-256 collides |
| Packs.NewKeys | internal/keyspace/keys.go:21-45 | the checks and the normal form of a prefix |
| Packs.DecodeBundle | internal/bundle/manifest.go:120-134 | decoding, with the size limit |
| Packs.Validate | internal/pack/pack.go:141-203 | accepts exactly the metadata that follow from the prefix, the target and the bundle: every field is pinned but the spelling of the prefix |
| Packs.ValidIs | internal/pack/pack.go:141-203 | which packs these are, field by field: schema, type, generation, both sums, size, both keys as text, and one role and sum for each file |
| Packs.MetadataFiles | internal/pack/pack.go:302-308 | one role and sum per file, whatever the order |
| Packs.BuildPack | internal/pack/pack.go:58-114 | the pack of the material, or an error in each case that the source refuses |
| Packs.BuildIs | internal/pack/pack.go:58-114 | from which material a pack is built, exactly, and what it records |
| Packs.BuildValidates | internal/pack/pack.go:58-114 | a built pack validates exactly when its normalised prefix does not end in white space |
| Packs.TrailingBlank | internal/keyspace/keys.go:22-45 | for every component ending in a blank there is such a prefix |

## Left out

- Timeouts, cancellation inside a request and lost replies: a process that stops before or after any step covers them, since any process may simply not be scheduled again.
- etcd compaction, authentication and TLS: reads at a past revision always succeed, transactions are atomic and watch delivery is ordered.
- Keys below the active or bundle prefixes that no program writes (more slashes, unsafe names are modelled only as far as structured keys can hold them): a prefix read that meets one fails in the source.
- `Machines.OutsideAllowed`: writers outside the model may change any v4 or v5 key at any time; only for the theorem about upgrade commits may they also put v6 pointers.
- Error texts and error joining: an error is a failed outcome; of several only the fact is kept.
- Prefixes whose normal form ends in white space: the store model has one namespace, while the upgrader would then use two.
- Retry delays, jitter and the resync timer: the script of `Watch.RunWatch` decides when a restart happens.
- The content of JSON documents: marshalling and parsing are functions of which only the round trip is assumed.
- X.509, PEM, key parsing, host names and the validity policy: certificates are records, and whether a chain fits its key is a function of the bytes.
- The hook process, its environment and output: one run is a success or an error with a text; the text is never empty because every error of the runner starts with words.
- The stage transaction text for etcdctl, writing and reading pack directories, the status report, configuration loading and the command line: plumbing.
- Output-root locks and overlapping output roots: one writer per root and disjoint roots are taken for granted.
- Permissions, full disks and other I/O errors of single file operations in `Deploy`: a failing operation is a cut there; what follows from one after the switch is in `HookRetry`.
- Durability of completed operations (fsync): assumed, as is the atomicity of rename.
- `Deploy.Operation`: file-system operations are those that activation uses; what each needs and leaves is written there.
- Deploy.FileSystem.RemoveAll: the order in which entries go is any order that takes the contents of a directory first; modification times of directories being filled or emptied are not tracked.
- Watch.ReconcileSnapshot: makes the calls of a pass one after another, where the source starts them concurrently; that any order does is `Watch.PassInAnyOrder`, and that concurrent ones keep to one per target is in `Admission`, but the three are not joined into one state.
- Watch.HandleEvent: the outcome of a reconcile does not influence the loop, as in the source, so it is not part of the agent's state there.
