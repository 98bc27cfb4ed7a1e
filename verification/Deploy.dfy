/** Activating releases: staging, rename, symbolic link switch and pruning, with the disk
    recorded after every file-system operation so that a crash can stop at any of them. */
module Deploy {
  import opened Wrappers
  import opened Text
  import opened ReleaseTree

  // A name below `.pemcast/releases`: `sha256-<digest>`, or any other.
  datatype Name = Release(digest: string) | Plain(name: string)

  // Obstacle is anything but a directory.
  datatype Entry = Directory(tree: Tree, modTime: int) | Obstacle

  // The current path: absent, a link to `.pemcast/releases/sha256-<digest>`, or anything else.
  datatype Link = NoLink | Managed(digest: string) | Foreign

  // One output root: the releases, the current link, and the link being prepared.
  datatype Disk = Disk(releases: map<Name, Entry>, current: Link, temporary: Option<Link>)

  datatype Request = Request(material: Material, output: Output, retain: nat)

  // doubtful holds the digests of release directories not known to be whole: present before
  // the model began, or with a removal under way.
  datatype Moment = Moment(disk: Disk, doubtful: set<string>)

  // ---- names and links as strings ----

  const RELEASES := ".pemcast/releases/"
  const PREFIX := "sha256-"

  function PrintName(name: Name): string {
    match name
    case Release(digest) => PREFIX + digest
    case Plain(n) => n
  }

  function ParseName(s: string): Name {
    if PREFIX <= s then Release(s[|PREFIX|..]) else Plain(s)
  }

  predicate PlainDigest(digest: string) {
    digest != "" && '/' !in digest && '\\' !in digest
  }

  // A symbolic link by its target: one of the managed shape is relative and clean.
  function ParseLink(target: string): Link {
    if !(RELEASES <= target) then Foreign else
      match ParseName(target[|RELEASES|..])
      case Release(digest) => if PlainDigest(digest) then Managed(digest) else Foreign
      case Plain(_) => Foreign
  }

  /** Reading a link target gives a digest exactly when the target is the relative path that Activate writes for it. */
  lemma LinkRoundTrip(target: string, digest: string)
    ensures ParseLink(target) == Managed(digest) <==>
      target == ".pemcast/releases/sha256-" + digest && digest != "" && '/' !in digest && '\\' !in digest
    ensures PrintName(Release(digest)) == "sha256-" + digest
  {
    var name := PrintName(Release(digest));
    assert (RELEASES + name)[|RELEASES|..] == name && name[|PREFIX|..] == digest;
    assert RELEASES + name == ".pemcast/releases/sha256-" + digest;
    if ParseLink(target) == Managed(digest) {
      assert target == RELEASES + target[|RELEASES|..];
      assert target[|RELEASES|..] == PREFIX + digest;
    }
  }

  lemma NameRoundTrip(s: string)
    ensures PrintName(ParseName(s)) == s
  {
    if PREFIX <= s { assert s == PREFIX + s[|PREFIX|..]; }
  }

  // ---- what a release directory holds ----

  ghost predicate Proper(tree: Tree) {
    WellFormed(tree) && [] in tree && tree[[]].Dir?
  }

  ghost predicate Sane(disk: Disk) {
    forall n :: n in disk.releases && disk.releases[n].Directory? ==> Proper(disk.releases[n].tree)
  }

  predicate HasRelease(disk: Disk, digest: string) {
    Release(digest) in disk.releases && disk.releases[Release(digest)].Directory?
  }

  ghost predicate Whole(tree: Tree, q: Request, umask: Perm) {
    Matches(tree, q.material, q.output) || Exact(tree, q.material, q.output, umask)
  }

  ghost predicate Complete(tree: Tree, digest: string, requests: set<Request>, umask: Perm) {
    exists q :: q in requests && q.material.digest == digest && Whole(tree, q, umask)
  }

  // Every release directory that is not in doubt is the whole release of some request.
  ghost predicate Sound(m: Moment, requests: set<Request>, umask: Perm) {
    forall d :: HasRelease(m.disk, d) && d !in m.doubtful ==>
      Complete(m.disk.releases[Release(d)].tree, d, requests, umask)
  }

  // The current link is absent, or leads to a release directory that is not in doubt.
  predicate CurrentOk(m: Moment) {
    m.disk.current.NoLink? ||
    (m.disk.current.Managed? && m.disk.current.digest != "" && HasRelease(m.disk, m.disk.current.digest) &&
     m.disk.current.digest !in m.doubtful)
  }

  ghost predicate Safe(m: Moment, requests: set<Request>, umask: Perm) {
    Sane(m.disk) && Sound(m, requests, umask) && CurrentOk(m)
  }

  // ---- frames ----

  // m differs from base in one release entry at most.
  ghost predicate OnlyAt(base: Moment, name: Name, m: Moment) {
    m.disk.current == base.disk.current && m.disk.temporary == base.disk.temporary &&
    (forall n :: n != name ==> Same(base.disk, m.disk, n)) &&
    (name in m.disk.releases ==> m.disk.releases[name].Directory? && Proper(m.disk.releases[name].tree)) &&
    forall d :: Release(d) != name ==> (d in m.doubtful <==> d in base.doubtful)
  }

  predicate Same(a: Disk, b: Disk, n: Name) {
    (n in a.releases <==> n in b.releases) && (n in a.releases ==> a.releases[n] == b.releases[n])
  }

  // Changing an entry that is not the current release, and is in doubt if it is a release, is safe.
  lemma SafeElsewhere(base: Moment, name: Name, m: Moment, requests: set<Request>, umask: Perm)
    requires Safe(base, requests, umask) && OnlyAt(base, name, m)
    requires name.Release? ==> (name in m.disk.releases ==> name.digest in m.doubtful) && base.disk.current != Managed(name.digest)
    ensures Safe(m, requests, umask)
  {
    forall n ensures n != name ==> Same(base.disk, m.disk, n) {}
    forall n | n in m.disk.releases && m.disk.releases[n].Directory? ensures Proper(m.disk.releases[n].tree) {
      if n != name { assert Same(base.disk, m.disk, n); }
    }
    forall d | HasRelease(m.disk, d) && d !in m.doubtful
      ensures Complete(m.disk.releases[Release(d)].tree, d, requests, umask)
    {
      if Release(d) != name { assert Same(base.disk, m.disk, Release(d)); }
    }
    if m.disk.current.Managed? {
      assert Same(base.disk, m.disk, Release(m.disk.current.digest));
    }
  }

  // ---- the outcome of an activation ----

  // The condition under which Activate succeeds.
  ghost predicate Accepts(disk: Disk, q: Request) {
    var name := Release(q.material.digest);
    if name in disk.releases then
      disk.releases[name].Directory? && Matches(disk.releases[name].tree, q.material, q.output)
    else Buildable(q.material, q.output)
  }

  // What reading the marker through the current link yields; a symbolic link below it leads outside.
  function MarkerData(disk: Disk, outside: Path -> Option<Node>, digest: string): Option<string> {
    if Release(digest) !in disk.releases then None else
      var entry := disk.releases[Release(digest)];
      if entry.Directory? && MARKER !in entry.tree then None else
        var node := if entry.Obstacle? || entry.tree[MARKER].Other? then outside(MARKER) else Some(entry.tree[MARKER]);
        if node.Some? && node.value.File? then Some(node.value.data) else None
  }

  // A marker file with this text is read: in the release, or where an obstacle or a symbolic link leads.
  ghost predicate MarkerSays(disk: Disk, outside: Path -> Option<Node>, digest: string, text: string) {
    Release(digest) in disk.releases &&
    match disk.releases[Release(digest)]
    case Directory(tree, _) =>
      MARKER in tree &&
      ((tree[MARKER].File? && tree[MARKER].data == text) ||
       (tree[MARKER].Other? && outside(MARKER).Some? && outside(MARKER).value.File? && outside(MARKER).value.data == text))
    case Obstacle => outside(MARKER).Some? && outside(MARKER).value.File? && outside(MARKER).value.data == text
  }

  lemma MarkerDataIs(disk: Disk, outside: Path -> Option<Node>, digest: string, text: string)
    ensures MarkerData(disk, outside, digest) == Some(text) <==> MarkerSays(disk, outside, digest, text)
  {
  }

  // The current link is absent, or leads to a release whose marker agrees.
  ghost predicate Readable(disk: Disk, outside: Path -> Option<Node>) {
    disk.current.NoLink? ||
    (disk.current.Managed? && disk.current.digest != "" && MarkerData(disk, outside, disk.current.digest).Some? &&
     TrimSpace(MarkerData(disk, outside, disk.current.digest).value) == disk.current.digest)
  }

  lemma ReadableIs(disk: Disk, outside: Path -> Option<Node>)
    ensures forall want :: want != "" && disk.current == Managed(want) ==>
      (Readable(disk, outside) <==> exists text :: MarkerSays(disk, outside, want, text) && TrimSpace(text) == want)
  {
    forall want, text ensures MarkerData(disk, outside, want) == Some(text) <==> MarkerSays(disk, outside, want, text) {
      MarkerDataIs(disk, outside, want, text);
    }
  }

  lemma CompleteMarker(tree: Tree, digest: string, requests: set<Request>, umask: Perm)
    requires Complete(tree, digest, requests, umask)
    ensures MARKER in tree && tree[MARKER].File? && TrimSpace(tree[MARKER].data) == digest
  {
  }

  lemma MarkedReadable(disk: Disk, outside: Path -> Option<Node>, digest: string)
    requires disk.current == Managed(digest) && digest != "" && HasRelease(disk, digest)
    requires var tree := disk.releases[Release(digest)].tree;
      MARKER in tree && tree[MARKER].File? && TrimSpace(tree[MARKER].data) == digest
    ensures Readable(disk, outside)
  {
  }

  lemma SafeReadable(m: Moment, requests: set<Request>, umask: Perm, outside: Path -> Option<Node>)
    requires Safe(m, requests, umask)
    ensures Readable(m.disk, outside)
  {
    if !m.disk.current.NoLink? {
      var digest := m.disk.current.digest;
      CompleteMarker(m.disk.releases[Release(digest)].tree, digest, requests, umask);
      MarkedReadable(m.disk, outside, digest);
    }
  }

  /** When no umask bit gets in the way and one digest always means one material and layout, every
      release directory that is not in doubt is accepted; an activation then fails only at a
      directory in doubt or at an obstacle. */
  lemma UndoubtedAccepts(m: Moment, requests: set<Request>, umask: Perm, q: Request)
    requires Safe(m, requests, umask) && q in requests && Buildable(q.material, q.output)
    requires forall r :: r in requests && r.material.digest == q.material.digest ==>
      r.material == q.material && r.output == q.output
    requires KeepsModes(q.output, umask) && NonZero(q.output.mappings)
    ensures !Accepts(m.disk, q) ==>
      Release(q.material.digest) in m.disk.releases &&
      (m.disk.releases[Release(q.material.digest)].Obstacle? || q.material.digest in m.doubtful)
  {
    var d := q.material.digest;
    if HasRelease(m.disk, d) && d !in m.doubtful {
      var tree := m.disk.releases[Release(d)].tree;
      var r :| r in requests && r.material.digest == d && Whole(tree, r, umask);
      if Exact(tree, q.material, q.output, umask) { FreshReleaseVerifies(tree, q.material, q.output, umask); }
    }
  }

  // ---- the operations ----

  function PutEntry(disk: Disk, name: Name, entry: Entry): Disk {
    disk.(releases := disk.releases[name := entry])
  }

  function DropEntry(disk: Disk, name: Name): Disk {
    disk.(releases := disk.releases - {name})
  }

  // ---- file-system operations ----

  // Make a release directory; make or change one path in one; remove one; remove an empty directory; rename a directory;
  // and, for the current link, remove the link being prepared, make it, and rename it into place.
  datatype Operation =
    | MakeRelease(name: Name, mode: Perm, time: int)
    | Put(name: Name, path: Path, node: Node)
    | Remove(name: Name, path: Path)
    | RemoveRelease(name: Name)
    | RenameRelease(name: Name, to: Name)
    | RemoveLink
    | MakeLink(digest: string)
    | RenameLink

  predicate Above(tree: Tree, path: Path) {
    path != [] && path[..|path| - 1] in tree && tree[path[..|path| - 1]].Dir?
  }

  // The operation can be done: nothing is in its way, and what it works on is there.
  predicate CanDo(disk: Disk, op: Operation) {
    match op
    case MakeRelease(name, _, _) => name !in disk.releases
    case Put(name, path, node) =>
      name in disk.releases && disk.releases[name].Directory? &&
      var tree := disk.releases[name].tree;
      if path in tree then (tree[path].Dir? && node.Dir?) || (tree[path].File? && node.File?)
      else Above(tree, path) && (node.Dir? || (node.File? && node.data == ""))
    case Remove(name, path) =>
      name in disk.releases && disk.releases[name].Directory? && path != [] && path in disk.releases[name].tree &&
      forall p :: p in disk.releases[name].tree ==> !(path < p)
    case RemoveRelease(name) => name in disk.releases && disk.releases[name].Directory? && disk.releases[name].tree.Keys == {[]}
    case RenameRelease(name, to) => name in disk.releases && to !in disk.releases
    case RemoveLink => disk.temporary.Some?
    case MakeLink(_) => disk.temporary.None?
    case RenameLink => disk.temporary.Some?
  }

  // What it leaves.
  function Perform(disk: Disk, op: Operation): Disk
    requires CanDo(disk, op)
  {
    match op
    case MakeRelease(name, mode, time) => PutEntry(disk, name, Directory(map[[] := Dir(mode)], time))
    case Put(name, path, node) =>
      PutEntry(disk, name, Directory(disk.releases[name].tree[path := node], disk.releases[name].modTime))
    case Remove(name, path) =>
      PutEntry(disk, name, Directory(disk.releases[name].tree - {path}, disk.releases[name].modTime))
    case RemoveRelease(name) => DropEntry(disk, name)
    case RenameRelease(name, to) => PutEntry(DropEntry(disk, name), to, disk.releases[name])
    case RemoveLink => disk.(temporary := None)
    case MakeLink(digest) => disk.(temporary := Some(Managed(digest)))
    case RenameLink => disk.(current := disk.temporary.value, temporary := None)
  }

  lemma PutTwice(disk: Disk, name: Name, a: Entry, b: Entry)
    ensures PutEntry(PutEntry(disk, name, a), name, b) == PutEntry(disk, name, b)
    ensures name in PutEntry(disk, name, a).releases && PutEntry(disk, name, a).releases[name] == a
    ensures DropEntry(PutEntry(disk, name, a), name) == DropEntry(disk, name)
  {
    assert disk.releases[name := a][name := b] == disk.releases[name := b];
    assert disk.releases[name := a] - {name} == disk.releases - {name};
  }

  lemma PutSame(disk: Disk, name: Name)
    requires name in disk.releases
    ensures PutEntry(disk, name, disk.releases[name]) == disk
  {
    assert disk.releases[name := disk.releases[name]] == disk.releases;
  }

  function Doubt(doubtful: set<string>, name: Name): set<string> {
    if name.Release? then doubtful + {name.digest} else doubtful
  }

  function Settle(doubtful: set<string>, name: Name): set<string> {
    if name.Release? then doubtful - {name.digest} else doubtful
  }

  // A release that is being changed is in doubt.
  predicate InDoubt(name: Name, m: Moment) {
    name.Release? && name in m.disk.releases ==> name.digest in m.doubtful
  }

  // Every moment after the first n differs from base only at a name in doubt.
  ghost predicate ChangesAt(trace: seq<Moment>, n: nat, base: Moment, name: Name) {
    forall i :: n <= i < |trace| ==> OnlyAt(base, name, trace[i]) && InDoubt(name, trace[i])
  }

  lemma PutChanges(base: Moment, name: Name, entry: Entry, m: Moment)
    requires m.disk == PutEntry(base.disk, name, entry) && entry.Directory? && Proper(entry.tree)
    requires m.doubtful == Doubt(base.doubtful, name)
    ensures OnlyAt(base, name, m) && InDoubt(name, m)
  {
  }

  lemma DropChanges(base: Moment, name: Name, m: Moment)
    requires m.disk == DropEntry(base.disk, name) && m.doubtful == Settle(base.doubtful, name)
    ensures OnlyAt(base, name, m) && InDoubt(name, m)
  {
  }

  lemma {:induction false} LongestExists(nodes: set<Path>) returns (leaf: Path)
    requires nodes != {}
    ensures leaf in nodes && forall p :: p in nodes ==> |p| <= |leaf|
    decreases nodes
  {
    leaf :| leaf in nodes;
    if nodes != {leaf} {
      var other := LongestExists(nodes - {leaf});
      if |other| > |leaf| { leaf := other; }
    }
  }

  // Some entry of a directory tree with nothing below it.
  method PickLeaf(tree: Tree) returns (leaf: Path)
    requires Proper(tree) && tree.Keys != {[]}
    ensures leaf in tree && leaf != [] && Proper(tree - {leaf}) && forall p :: p in tree ==> !(leaf < p)
  {
    var nodes := tree.Keys - {[]};
    assert nodes + {[]} == tree.Keys;
    ghost var longest := LongestExists(nodes);
    assert forall p :: p in tree.Keys ==> !(longest < p);
    leaf :| leaf in nodes && forall p :: p in tree.Keys ==> !(leaf < p);
    forall p | p in tree - {leaf} && p != [] ensures p[..|p| - 1] in tree - {leaf} {
      assert p[..|p| - 1] < p;
    }
  }

  lemma ChangesTrans(base: Moment, now: Moment, name: Name, m: Moment)
    requires OnlyAt(base, name, now) && OnlyAt(now, name, m)
    ensures OnlyAt(base, name, m)
  {
    forall n | n != name ensures Same(base.disk, m.disk, n) {
      assert Same(base.disk, now.disk, n) && Same(now.disk, m.disk, n);
    }
  }

  lemma CanWriteIs(tree: Tree, path: Path)
    ensures CanWrite(tree, path) <==> path !in tree && OpenTo(tree, path, |path|)
  {
  }

  // Putting a fresh entry and dropping it changes nothing.
  lemma PutDrop(disk: Disk, name: Name, entry: Entry)
    requires name !in disk.releases
    ensures DropEntry(PutEntry(disk, name, entry), name) == disk
  {
    assert disk.releases[name := entry] - {name} == disk.releases;
  }

  lemma MarkerBlocked(tree: Tree, material: Material, output: Output, umask: Perm)
    requires Partial(tree, material, output.mappings, output.mode, umask) && !CanWrite(tree, MARKER)
    ensures !Buildable(material, output)
  {
  }

  // The first n mappings have been written.
  ghost predicate Staged(tree: Tree, q: Request, n: nat, umask: Perm)
    requires n <= |q.output.mappings|
  {
    Partial(tree, q.material, q.output.mappings[..n], q.output.mode, umask) && Clear(q.output.mappings[..n]) &&
    RemotesPresent(q, n)
  }

  ghost predicate RemotesPresent(q: Request, n: nat)
    requires n <= |q.output.mappings|
  {
    forall j :: 0 <= j < n ==> q.output.mappings[j].remote in q.material.files
  }

  lemma StagedNext(tree: Tree, q: Request, i: nat, umask: Perm, after: Tree)
    requires i < |q.output.mappings| && Clean(q.output) && Staged(tree, q, i, umask) && CanWrite(tree, q.output.mappings[i].local)
    requires q.output.mappings[i].remote in q.material.files
    requires Written(tree, q.output.mappings[i].local, Filed(q.material, q.output.mappings[i], umask), Dir(q.output.mode & !umask), after)
    ensures Staged(after, q, i + 1, umask)
  {
    var mappings := q.output.mappings;
    assert mappings[..i + 1] == mappings[..i] + [mappings[i]];
    OneMoreMapping(tree, q.material, mappings[..i], mappings[i], q.output.mode, umask, after, mappings[..i + 1]);
    RemotesNext(q, i);
  }

  lemma RemotesNext(q: Request, i: nat)
    requires i < |q.output.mappings| && q.output.mappings[i].remote in q.material.files
    requires RemotesPresent(q, i)
    ensures RemotesPresent(q, i + 1)
  {
  }

  lemma OneMoreMapping(tree: Tree, material: Material, before: seq<Mapping>, m: Mapping, mode: Perm, umask: Perm, after: Tree,
                       more: seq<Mapping>)
    requires m.local != [] && Partial(tree, material, before, mode, umask) && Clear(before) && CanWrite(tree, m.local)
    requires Written(tree, m.local, Filed(material, m, umask), Dir(mode & !umask), after) && more == before + [m]
    ensures Partial(after, material, more, mode, umask) && Clear(more)
  {
    WrittenClear(tree, material, before, m, mode, umask);
    WrittenOneMore(tree, material, before, m, mode, umask, after);
  }

  lemma StagedMarker(tree: Tree, q: Request, umask: Perm, after: Tree)
    requires Hex(q.material.digest) && Staged(tree, q, |q.output.mappings|, umask) && CanWrite(tree, MARKER)
    requires Written(tree, MARKER, File(q.material.digest + "\n", PRIVATE & !umask), Dir(q.output.mode & !umask), after)
    ensures Exact(after, q.material, q.output, umask) && Buildable(q.material, q.output)
    ensures RightBuild(after, q.material, q.output, umask)
  {
    assert q.output.mappings[..|q.output.mappings|] == q.output.mappings;
    MarkerCompletes(tree, q.material, q.output, umask, after);
    ExactBuildIsRight(after, q.material, q.output, umask);
  }

  lemma StagedMarkerBlocked(tree: Tree, q: Request, umask: Perm)
    requires Staged(tree, q, |q.output.mappings|, umask) && !CanWrite(tree, MARKER)
    ensures !Buildable(q.material, q.output)
  {
    assert q.output.mappings[..|q.output.mappings|] == q.output.mappings;
    MarkerBlocked(tree, q.material, q.output, umask);
  }

  lemma StagedBlocked(tree: Tree, q: Request, i: nat, umask: Perm)
    requires i < |q.output.mappings| && Clean(q.output) && Staged(tree, q, i, umask) && !CanWrite(tree, q.output.mappings[i].local)
    ensures !Buildable(q.material, q.output)
  {
    BlockedNotClear(tree, q.material, q.output.mappings, i, q.output.mode, umask);
  }

  // os.MkdirTemp tries names until one is free.
  method FreshStaging(releases: map<Name, Entry>) returns (name: Name)
    ensures name.Plain? && name !in releases
  {
    var s := ".staging-";
    var rest := releases.Keys;
    while Plain(s) in releases
      invariant rest <= releases.Keys && forall t: string :: Plain(t) in releases && |t| >= |s| ==> Plain(t) in rest
      decreases rest
    {
      rest := rest - {Plain(s)};
      s := s + "0";
    }
    name := Plain(s);
  }

  // Two stretches of changes at one name.
  lemma ChangesChain(before: seq<Moment>, after: seq<Moment>, n: nat, base: Moment, now: Moment, name: Name)
    requires n <= |before| && before <= after && ChangesAt(before, n, base, name)
    requires OnlyAt(base, name, now) && ChangesAt(after, |before|, now, name)
    ensures ChangesAt(after, n, base, name)
  {
    forall i | n <= i < |after| ensures OnlyAt(base, name, after[i]) && InDoubt(name, after[i]) {
      if i < |before| { assert after[i] == before[i]; } else { ChangesTrans(base, now, name, after[i]); }
    }
  }

  // Every moment after the first n is one of staging, or the last.
  ghost predicate Installs(trace: seq<Moment>, n: nat, base: Moment, staging: Name, last: Moment) {
    staging.Plain? && staging !in base.disk.releases &&
    forall i :: n <= i < |trace| ==> OnlyAt(base, staging, trace[i]) || trace[i] == last
  }

  lemma RenameIs(disk: Disk, staging: Name, entry: Entry, digest: string)
    requires staging.Plain? && staging !in disk.releases
    ensures PutEntry(DropEntry(PutEntry(disk, staging, entry), staging), Release(digest), entry) == PutEntry(disk, Release(digest), entry)
  {
    PutDrop(disk, staging, entry);
  }

  // The release of a request is in place, whole and not in doubt, and nothing else has changed.
  ghost predicate Ensured(base: Moment, q: Request, umask: Perm, m: Moment) {
    var name := Release(q.material.digest);
    HasRelease(m.disk, q.material.digest) && Whole(m.disk.releases[name].tree, q, umask) && Proper(m.disk.releases[name].tree) &&
    m.disk == PutEntry(base.disk, name, m.disk.releases[name]) && m.doubtful == base.doubtful - {q.material.digest} &&
    if HasRelease(base.disk, q.material.digest) then m.disk == base.disk
    else Exact(m.disk.releases[name].tree, q.material, q.output, umask) && RightBuild(m.disk.releases[name].tree, q.material, q.output, umask)
  }

  // The moments of the switch: only the two links have changed.
  ghost predicate Switches(trace: seq<Moment>, n: nat, base: Moment, digest: string) {
    forall i :: n <= i < |trace| ==>
      trace[i].disk.releases == base.disk.releases && trace[i].doubtful == base.doubtful &&
      (trace[i].disk.current == base.disk.current || trace[i].disk.current == Managed(digest))
  }

  // Only directories lie above a path.
  ghost predicate OpenTo(tree: Tree, path: Path, n: nat) {
    forall p :: p in tree && p < path && |p| < n ==> tree[p].Dir?
  }

  // The directories above a path down to depth n, made where missing.
  ghost predicate ParentsMade(tree: Tree, path: Path, n: nat, dir: Node, after: Tree) {
    (forall p :: p in after <==> p in tree || (p != [] && p < path && |p| < n)) &&
    forall p :: p in after ==> after[p] == if p in tree then tree[p] else dir
  }

  lemma PrefixOf(path: Path, n: nat)
    requires 0 < n < |path|
    ensures forall p :: p < path && |p| == n <==> p == path[..n]
    ensures path[..n][..n - 1] == path[..n - 1] && path[..n - 1] < path
  {
  }

  lemma ProperAdds(tree: Tree, p: Path, node: Node)
    requires Proper(tree) && p !in tree && p != [] && p[..|p| - 1] in tree && tree[p[..|p| - 1]].Dir?
    ensures Proper(tree[p := node])
  {
    forall q | q in tree[p := node] && q != []
      ensures q[..|q| - 1] in tree && q[..|q| - 1] != p && tree[q[..|q| - 1]].Dir? {}
  }

  lemma MadeHere(tree: Tree, path: Path, n: nat, dir: Node, after: Tree)
    requires 0 < n < |path| && ParentsMade(tree, path, n, dir, after) && Proper(after) && OpenTo(tree, path, n) && dir.Dir?
    requires Proper(tree) && path[..n] !in after
    ensures ParentsMade(tree, path, n + 1, dir, after[path[..n] := dir]) && Proper(after[path[..n] := dir]) && OpenTo(tree, path, n + 1)
  {
    PrefixOf(path, n);
    var parent := path[..n - 1];
    assert parent in after && after[parent].Dir?;
    ProperAdds(after, path[..n], dir);
  }

  lemma FoundHere(tree: Tree, path: Path, n: nat, dir: Node, after: Tree)
    requires 0 < n < |path| && ParentsMade(tree, path, n, dir, after) && OpenTo(tree, path, n) && path[..n] in after
    ensures ParentsMade(tree, path, n + 1, dir, after) && path[..n] in tree && after[path[..n]] == tree[path[..n]]
    ensures tree[path[..n]].Dir? <==> OpenTo(tree, path, n + 1)
  {
    PrefixOf(path, n);
  }

  lemma FileWritten(tree: Tree, path: Path, dir: Node, made: Tree, file: Node)
    requires Proper(tree) && path != [] && ParentsMade(tree, path, |path|, dir, made) && Proper(made) && path !in made && dir.Dir?
    requires OpenTo(tree, path, |path|) && file.File?
    ensures Written(tree, path, file, dir, made[path := file]) && Proper(made[path := file])
  {
    var parent := path[..|path| - 1];
    assert parent < path && parent in made;
    if parent in tree { assert made[parent] == tree[parent]; }
    ProperAdds(made, path, file);
    WrittenIs(tree, path, dir, made, file);
  }

  lemma WrittenIs(tree: Tree, path: Path, dir: Node, made: Tree, file: Node)
    requires ParentsMade(tree, path, |path|, dir, made) && path !in made
    ensures Written(tree, path, file, dir, made[path := file])
  {
    forall p | p < path ensures |p| < |path| {}
  }

  // ---- pruning ----

  // The release directories other than the active one.
  function Inactive(disk: Disk, active: string): set<string> {
    set n | n in disk.releases && n.Release? && n.digest != active && disk.releases[n].Directory? :: n.digest
  }

  lemma InactiveIs(disk: Disk, active: string, d: string)
    ensures d in Inactive(disk, active) <==> d != active && HasRelease(disk, d)
  {
    if d != active && HasRelease(disk, d) { assert Release(d).digest == d; }
  }

  function Age(disk: Disk, d: string): int
    requires HasRelease(disk, d)
  {
    disk.releases[Release(d)].modTime
  }

  function DropAll(disk: Disk, gone: set<string>): Disk {
    disk.(releases := map n | n in disk.releases && !(n.Release? && n.digest in gone) :: disk.releases[n])
  }

  lemma DropOneMore(disk: Disk, gone: set<string>, d: string)
    ensures DropEntry(DropAll(disk, gone), Release(d)) == DropAll(disk, gone + {d})
  {
    assert DropEntry(DropAll(disk, gone), Release(d)).releases == DropAll(disk, gone + {d}).releases;
  }

  /** What pruning leaves: the active release and every entry that is not a release as they were, and the
      newest of the others, as many as are retained. */
  ghost predicate Retained(base: Disk, after: Disk, active: string, retain: nat) {
    after.current == base.current && after.temporary == base.temporary &&
    Inactive(after, active) <= Inactive(base, active) &&
    (forall d :: d in Inactive(base, active) - Inactive(after, active) ==> Release(d) !in after.releases) &&
    (forall n: Name :: !(n.Release? && n.digest in Inactive(base, active) - Inactive(after, active)) ==> Same(base, after, n)) &&
    |Inactive(after, active)| == (if retain < |Inactive(base, active)| then retain else |Inactive(base, active)|) &&
    OldestGo(base, Inactive(base, active) - Inactive(after, active), Inactive(after, active))
  }

  /** After pruning at most one release directory more than is retained is left. */
  lemma AtMostRetainedAndActive(base: Disk, after: Disk, active: string, retain: nat)
    requires Retained(base, after, active, retain)
    ensures |Inactive(after, active) + {active}| <= retain + 1
    ensures forall d :: HasRelease(after, d) ==> d in Inactive(after, active) + {active}
  {
    forall d | HasRelease(after, d) ensures d in Inactive(after, active) + {active} { InactiveIs(after, active, d); }
  }

  predicate InactiveRelease(disk: Disk, active: string, digest: string) {
    digest != active && Release(digest) in disk.releases && disk.releases[Release(digest)].Directory?
  }

  /** The same by the entries: only inactive release directories go, the oldest by modification time, and only when more
      than the retained number are there; that number then stays. */
  lemma RetainedEntries(base: Disk, after: Disk, active: string, retain: nat)
    requires Retained(base, after, active, retain)
    ensures forall n :: n in after.releases ==> n in base.releases && after.releases[n] == base.releases[n]
    ensures forall n :: n in base.releases && n !in after.releases ==> n.Release? && InactiveRelease(base, active, n.digest)
    ensures forall d, k :: InactiveRelease(base, active, d) && Release(d) !in after.releases && InactiveRelease(after, active, k) ==>
      Release(k) in base.releases && base.releases[Release(k)].Directory? &&
      base.releases[Release(d)].modTime <= base.releases[Release(k)].modTime
    ensures var left := set n | n in after.releases && n.Release? && InactiveRelease(after, active, n.digest);
      |left| <= retain && (|left| < retain ==> after.releases == base.releases)
  {
    forall d ensures InactiveRelease(base, active, d) <==> d in Inactive(base, active) { InactiveIs(base, active, d); }
    forall d ensures InactiveRelease(after, active, d) <==> d in Inactive(after, active) { InactiveIs(after, active, d); }
    forall n | n in base.releases && n !in after.releases ensures n.Release? && InactiveRelease(base, active, n.digest) {
      assert !Same(base, after, n);
    }
    forall n | n in after.releases ensures n in base.releases && after.releases[n] == base.releases[n] { KeptSame(base, after, active, retain, n); }
    LeftCounted(after, active);
    if |Inactive(after, active)| < retain {
      SameCount(Inactive(after, active), Inactive(base, active));
      assert forall n :: Same(base, after, n);
    }
  }

  lemma SameCount(a: set<string>, b: set<string>)
    requires a <= b && |a| == |b|
    ensures a == b
  {
    assert |b - a| == 0;
  }

  lemma KeptSame(base: Disk, after: Disk, active: string, retain: nat, n: Name)
    requires Retained(base, after, active, retain) && n in after.releases
    ensures n in base.releases && after.releases[n] == base.releases[n]
  {
    assert !(n.Release? && n.digest in Inactive(base, active) - Inactive(after, active));
    assert Same(base, after, n);
  }

  lemma LeftCounted(disk: Disk, active: string)
    ensures |set n | n in disk.releases && n.Release? && InactiveRelease(disk, active, n.digest)| == |Inactive(disk, active)|
  {
    var names := set n | n in disk.releases && n.Release? && InactiveRelease(disk, active, n.digest);
    forall d ensures d in Inactive(disk, active) <==> Release(d) in names { InactiveIs(disk, active, d); }
    NamesCounted(names, Inactive(disk, active));
  }

  lemma {:induction false} NamesCounted(names: set<Name>, digests: set<string>)
    requires (forall n :: n in names ==> n.Release?) && forall d :: d in digests <==> Release(d) in names
    ensures |names| == |digests|
    decreases digests
  {
    forall n | n in names ensures n.digest in digests { assert n == Release(n.digest); }
    if digests == {} {
      assert names == {};
    } else {
      var d :| d in digests;
      NamesCounted(names - {Release(d)}, digests - {d});
    }
  }

  ghost predicate OldestGo(base: Disk, gone: set<string>, kept: set<string>) {
    forall r, k :: r in gone && k in kept && HasRelease(base, r) && HasRelease(base, k) ==> Age(base, r) <= Age(base, k)
  }

  ghost predicate NewestFirst(base: Disk, list: seq<string>) {
    forall i, j :: 0 <= i < j < |list| && HasRelease(base, list[i]) && HasRelease(base, list[j]) ==>
      Age(base, list[j]) <= Age(base, list[i])
  }

  function Elements(list: seq<string>): set<string> {
    set i | 0 <= i < |list| :: list[i]
  }

  lemma ElementsAppend(list: seq<string>, d: string, x: string)
    ensures x in Elements(list + [d]) <==> x in Elements(list) || x == d
  {
    var more := list + [d];
    assert more[|list|] == d;
    if x in Elements(list) {
      var i :| 0 <= i < |list| && list[i] == x;
      assert more[i] == x;
    }
    if x in Elements(more) {
      var i :| 0 <= i < |more| && more[i] == x;
      if i < |list| { assert list[i] == x; }
    }
  }

  lemma ElementsHas(list: seq<string>, d: string)
    ensures d in Elements(list) <==> d in list
  {
  }

  lemma {:induction false} ElementsSize(list: seq<string>)
    requires forall i, j :: 0 <= i < j < |list| ==> list[i] != list[j]
    ensures |Elements(list)| == |list|
  {
    if list != [] {
      var last, rest := list[|list| - 1], list[..|list| - 1];
      ElementsSize(rest);
      ElementsHas(rest, last);
      assert list == rest + [last];
      forall x ensures x in Elements(list) <==> x in Elements(rest) + {last} { ElementsAppend(rest, last, x); }
      assert Elements(list) == Elements(rest) + {last};
    }
  }

  lemma SplitList(list: seq<string>, n: nat, all: set<string>)
    requires Enumerates(list, all) && n <= |list|
    ensures Elements(list[n..]) == all - Elements(list[..n]) && Elements(list[..n]) <= all
    ensures |Elements(list[..n])| == n && |all| == |list|
  {
    forall d ensures d in all <==> d in Elements(list[n..]) + Elements(list[..n]) { ListedOnce(list, n, d); }
    forall d ensures d in Elements(list[n..]) ==> d !in Elements(list[..n]) { ListedOnce(list, n, d); }
    ElementsSize(list[..n]);
    ElementsSize(list);
    forall d ensures d in all <==> d in Elements(list) {
      ListedOnce(list, 0, d);
      assert list[0..] == list;
      assert Elements(list[..0]) == {};
    }
    assert all == Elements(list);
  }

  lemma SuffixOldest(base: Disk, list: seq<string>, n: nat)
    requires NewestFirst(base, list) && n <= |list|
    ensures OldestGo(base, Elements(list[n..]), Elements(list[..n]))
  {
    var gone, kept := Elements(list[n..]), Elements(list[..n]);
    forall r, k | r in gone && k in kept && HasRelease(base, r) && HasRelease(base, k) ensures Age(base, r) <= Age(base, k) {
      var j :| 0 <= j < |list[n..]| && list[n..][j] == r;
      var i :| 0 <= i < n && list[..n][i] == k;
      assert list[n + j] == r && list[i] == k;
    }
  }

  lemma DroppedInactive(base: Disk, active: string, gone: set<string>)
    ensures Inactive(DropAll(base, gone), active) == Inactive(base, active) - gone
  {
    forall d ensures d in Inactive(DropAll(base, gone), active) <==> d in Inactive(base, active) - gone {
      InactiveIs(base, active, d);
      InactiveIs(DropAll(base, gone), active, d);
    }
  }

  // Dropping all but the first of the list, newest first, is what is promised.
  lemma DroppedSuffix(base: Disk, active: string, list: seq<string>, n: nat, retain: nat)
    requires Enumerates(list, Inactive(base, active)) && NewestFirst(base, list)
    requires n == if retain < |list| then retain else |list|
    ensures Retained(base, DropAll(base, Elements(list[n..])), active, retain)
  {
    var gone, kept := Elements(list[n..]), Elements(list[..n]);
    SplitList(list, n, Inactive(base, active));
    SuffixOldest(base, list, n);
    DroppedInactive(base, active, gone);
    DroppedRetained(base, active, gone, kept, retain);
  }

  lemma DroppedRetained(base: Disk, active: string, gone: set<string>, kept: set<string>, retain: nat)
    requires gone == Inactive(base, active) - kept && kept <= Inactive(base, active)
    requires Inactive(DropAll(base, gone), active) == Inactive(base, active) - gone
    requires |kept| == if retain < |Inactive(base, active)| then retain else |Inactive(base, active)|
    requires OldestGo(base, gone, kept)
    ensures Retained(base, DropAll(base, gone), active, retain)
  {
    assert Inactive(base, active) - gone == kept;
  }

  lemma ListedOnce(list: seq<string>, n: nat, d: string)
    requires n <= |list| && forall i, j :: 0 <= i < j < |list| ==> list[i] != list[j]
    ensures d in list <==> d in Elements(list[n..]) + Elements(list[..n])
    ensures d in Elements(list[n..]) ==> d !in Elements(list[..n])
  {
    if d in list {
      var i :| 0 <= i < |list| && list[i] == d;
      if i < n { assert list[..n][i] == d; } else { assert list[n..][i - n] == d; }
    }
  }

  // A moment of pruning: nothing but inactive releases has changed, and those still there are
  // in doubt or untouched.
  ghost predicate PrunedAt(base: Moment, active: string, m: Moment) {
    m.disk.current == base.disk.current &&
    (forall n: Name :: !(n.Release? && n.digest in Inactive(base.disk, active)) ==> Same(base.disk, m.disk, n)) &&
    (forall d :: d in Inactive(base.disk, active) && Release(d) in m.disk.releases ==>
      (Same(base.disk, m.disk, Release(d)) && (d in base.doubtful ==> d in m.doubtful)) ||
      (d in m.doubtful && m.disk.releases[Release(d)].Directory? && Proper(m.disk.releases[Release(d)].tree))) &&
    forall d :: d !in Inactive(base.disk, active) ==> (d in m.doubtful <==> d in base.doubtful)
  }

  ghost predicate Prunes(trace: seq<Moment>, n: nat, base: Moment, active: string) {
    forall i :: n <= i < |trace| ==> PrunedAt(base, active, trace[i])
  }

  // Removing one more release, after some are gone, is a moment of pruning.
  lemma RemovingIsPruning(base: Moment, active: string, gone: set<string>, now: Moment, d: string, m: Moment)
    requires gone <= Inactive(base.disk, active) && d in Inactive(base.disk, active)
    requires now.disk == DropAll(base.disk, gone) && now.doubtful == base.doubtful - gone
    requires OnlyAt(now, Release(d), m) && InDoubt(Release(d), m)
    ensures PrunedAt(base, active, m)
  {
    forall n: Name | !(n.Release? && n.digest in Inactive(base.disk, active)) ensures Same(base.disk, m.disk, n) {
      assert Same(now.disk, m.disk, n);
    }
    forall e | e in Inactive(base.disk, active) && e != d && Release(e) in m.disk.releases
      ensures Same(base.disk, m.disk, Release(e)) && (e in base.doubtful ==> e in m.doubtful)
    {
      assert Same(now.disk, m.disk, Release(e));
      assert e !in gone;
    }
  }

  lemma RemovalsPrune(before: seq<Moment>, after: seq<Moment>, n: nat, base: Moment, active: string, gone: set<string>,
                      now: Moment, d: string)
    requires n <= |before| && before <= after && Prunes(before, n, base, active)
    requires gone <= Inactive(base.disk, active) && d in Inactive(base.disk, active)
    requires now.disk == DropAll(base.disk, gone) && now.doubtful == base.doubtful - gone
    requires ChangesAt(after, |before|, now, Release(d))
    ensures Prunes(after, n, base, active)
  {
    forall i | n <= i < |after| ensures PrunedAt(base, active, after[i]) {
      if i < |before| { assert after[i] == before[i]; } else { RemovingIsPruning(base, active, gone, now, d, after[i]); }
    }
  }

  lemma PrunedSafe(base: Moment, active: string, m: Moment, requests: set<Request>, umask: Perm)
    requires Safe(base, requests, umask) && base.disk.current == Managed(active) && PrunedAt(base, active, m)
    ensures Safe(m, requests, umask)
  {
    InactiveIs(base.disk, active, active);
    assert Same(base.disk, m.disk, Release(active));
    forall n | n in m.disk.releases && m.disk.releases[n].Directory? ensures Proper(m.disk.releases[n].tree) {
      if !(n.Release? && n.digest in Inactive(base.disk, active)) { assert Same(base.disk, m.disk, n); }
    }
    forall d | HasRelease(m.disk, d) && d !in m.doubtful ensures Complete(m.disk.releases[Release(d)].tree, d, requests, umask) {
      if d !in Inactive(base.disk, active) { assert Same(base.disk, m.disk, Release(d)); }
    }
  }

  // ---- a moment of an activation ----

  // From a safe disk the moment is safe, `current` has its old or its new value, and the
  // requested release is as it was or as it was built.
  ghost predicate Fine(start: Moment, m: Moment, q: Request, requests: set<Request>, umask: Perm) {
    (Safe(start, requests, umask) && q in requests ==> Safe(m, requests, umask)) &&
    (m.disk.current == start.disk.current || m.disk.current == Managed(q.material.digest)) &&
    (Accepts(start.disk, q) ==> Held(start.disk, m.disk, q, umask))
  }

  // A release that was there is untouched; a new one is exactly what building makes.
  ghost predicate Held(start: Disk, disk: Disk, q: Request, umask: Perm) {
    var name := Release(q.material.digest);
    if name in start.releases then Same(start, disk, name)
    else name in disk.releases ==>
      disk.releases[name].Directory? && Exact(disk.releases[name].tree, q.material, q.output, umask)
  }

  // Such a release is still accepted, except that a newly built one must have kept its modes.
  lemma HeldAccepts(start: Disk, disk: Disk, q: Request, umask: Perm)
    requires Accepts(start, q) && Held(start, disk, q, umask)
    ensures Accepts(disk, q) <==>
      Release(q.material.digest) in start.releases || Release(q.material.digest) !in disk.releases || Keeps(q, umask)
  {
    var name := Release(q.material.digest);
    if name !in start.releases && name in disk.releases {
      FreshReleaseVerifies(disk.releases[name].tree, q.material, q.output, umask);
    }
  }

  ghost predicate Keeps(q: Request, umask: Perm) {
    KeepsModes(q.output, umask) && NonZero(q.output.mappings)
  }

  ghost predicate AllFine(trace: seq<Moment>, n: nat, start: Moment, q: Request, requests: set<Request>, umask: Perm) {
    forall i :: n <= i < |trace| ==> Fine(start, trace[i], q, requests, umask)
  }

  /** What one call of Activate does: the moments it passes through, the last one, and the outcome. */
  ghost predicate Activation(start: Moment, during: seq<Moment>, end: Moment, ok: bool, q: Request, requests: set<Request>,
                             umask: Perm, outside: Path -> Option<Node>)
  {
    var d := q.material.digest;
    (ok <==> Readable(start.disk, outside) && Accepts(start.disk, q)) &&
    (!ok ==> end == start) &&
    (ok ==> end.disk.current == Managed(d) && HasRelease(end.disk, d) && Whole(end.disk.releases[Release(d)].tree, q, umask)) &&
    AllFine(during, 0, start, q, requests, umask) && Fine(start, end, q, requests, umask)
  }

  // One call in a session, and the moment the next call starts from: the end, or any moment
  // at which the call was cut.
  datatype Call = Call(q: Request, start: Moment, during: seq<Moment>, end: Moment, ok: bool, resumed: Moment)

  ghost predicate Called(c: Call, requests: set<Request>, umask: Perm, outside: Path -> Option<Node>) {
    c.q in requests && Activation(c.start, c.during, c.end, c.ok, c.q, requests, umask, outside) &&
    (c.resumed in c.during || c.resumed == c.end || c.resumed == c.start)
  }

  ghost predicate Session(calls: seq<Call>, requests: set<Request>, umask: Perm, outside: Path -> Option<Node>) {
    (forall i :: 0 <= i < |calls| ==> Called(calls[i], requests, umask, outside)) &&
    forall i :: 0 < i < |calls| ==> calls[i].start == calls[i - 1].resumed
  }

  predicate Selected(m: Moment) { !m.disk.current.NoLink? }

  // The current link is absent or leads to a complete release of its digest.
  ghost predicate SelectsComplete(m: Moment, requests: set<Request>, umask: Perm) {
    m.disk.current.NoLink? ||
    (m.disk.current.Managed? && HasRelease(m.disk, m.disk.current.digest) &&
     Complete(m.disk.releases[Release(m.disk.current.digest)].tree, m.disk.current.digest, requests, umask))
  }

  /** Any sequence of activations, each cut at any file-system operation or not at all, passes only through
      moments at which `current` is absent, and was absent at the start, or selects a complete release. */
  lemma {:induction false} SessionSafe(calls: seq<Call>, requests: set<Request>, umask: Perm, outside: Path -> Option<Node>, i: nat)
    requires Session(calls, requests, umask, outside) && i < |calls| && Safe(calls[0].start, requests, umask)
    ensures Safe(calls[i].start, requests, umask) && (Selected(calls[0].start) ==> Selected(calls[i].start))
    ensures forall m :: m in calls[i].during || m == calls[i].end || m == calls[i].resumed ==>
      Safe(m, requests, umask) && SelectsComplete(m, requests, umask) && (Selected(calls[0].start) ==> Selected(m))
  {
    if i > 0 { SessionSafe(calls, requests, umask, outside, i - 1); }
    var c := calls[i];
    forall m | m in c.during ensures Fine(c.start, m, c.q, requests, umask) {
      var k :| 0 <= k < |c.during| && c.during[k] == m;
    }
  }

  lemma CalledFine(c: Call, requests: set<Request>, umask: Perm, outside: Path -> Option<Node>)
    requires Called(c, requests, umask, outside)
    ensures Fine(c.start, c.resumed, c.q, requests, umask)
  {
    if c.resumed in c.during { var k :| 0 <= k < |c.during| && c.during[k] == c.resumed; }
  }

  /** A call that would have succeeded, cut at any moment and run again, reaches the requested release; except, and
      then always, when the release had been newly built by the cut call under a umask that cleared a mode bit it
      uses: that one is refused, and `current` is left alone. */
  lemma RerunSucceeds(first: Call, again: Call, requests: set<Request>, umask: Perm, outside: Path -> Option<Node>)
    requires Called(first, requests, umask, outside) && Called(again, requests, umask, outside)
    requires first.q == again.q && again.start == first.resumed
    requires Safe(first.start, requests, umask) && Accepts(first.start.disk, first.q)
    ensures again.ok <==>
      Release(first.q.material.digest) in first.start.disk.releases ||
      Release(first.q.material.digest) !in again.start.disk.releases || Keeps(first.q, umask)
    ensures again.ok ==>
      again.end.disk.current == Managed(first.q.material.digest) && HasRelease(again.end.disk, first.q.material.digest) &&
      Complete(again.end.disk.releases[Release(first.q.material.digest)].tree, first.q.material.digest, requests, umask)
    ensures !again.ok ==> again.end == again.start
  {
    CalledFine(first, requests, umask, outside);
    SafeReadable(again.start, requests, umask, outside);
    HeldAccepts(first.start.disk, again.start.disk, first.q, umask);
  }

  /** A directory from which an interrupted removal has taken anything makes the call for its digest fail,
      and leaves `current` and everything else alone. */
  lemma TornReleaseRefused(call: Call, requests: set<Request>, umask: Perm, outside: Path -> Option<Node>, whole: Tree)
    requires Called(call, requests, umask, outside) && HasRelease(call.start.disk, call.q.material.digest)
    requires Matches(whole, call.q.material, call.q.output)
    requires call.start.disk.releases[Release(call.q.material.digest)].tree.Keys < whole.Keys
    ensures !call.ok && call.end == call.start
  {
    var torn := call.start.disk.releases[Release(call.q.material.digest)].tree;
    if Matches(torn, call.q.material, call.q.output) { SamePaths(torn, whole, call.q.material, call.q.output); }
  }

  lemma SamePaths(a: Tree, b: Tree, material: Material, output: Output)
    requires Matches(a, material, output) && Matches(b, material, output)
    ensures a.Keys == b.Keys
  {
    forall p ensures p in a.Keys <==> p in b.Keys {}
  }

  lemma FineStaging(trace: seq<Moment>, n: nat, start: Moment, staging: Name, last: Moment, q: Request,
                    requests: set<Request>, umask: Perm)
    requires Installs(trace, n, start, staging, last) && (last == start || Fine(start, last, q, requests, umask))
    ensures AllFine(trace, n, start, q, requests, umask)
  {
    forall i | n <= i < |trace| ensures Fine(start, trace[i], q, requests, umask) {
      if OnlyAt(start, staging, trace[i]) {
        assert Same(start.disk, trace[i].disk, Release(q.material.digest));
        if Safe(start, requests, umask) { SafeElsewhere(start, staging, trace[i], requests, umask); }
      }
    }
  }

  lemma FineEnsured(start: Moment, ensured: Moment, q: Request, requests: set<Request>, umask: Perm)
    requires Ensured(start, q, umask, ensured) && Accepts(start.disk, q)
    ensures Fine(start, ensured, q, requests, umask)
  {
    if Safe(start, requests, umask) && q in requests {
      EnsuredSound(start, ensured, q, requests, umask);
    }
  }

  lemma EnsuredSound(start: Moment, ensured: Moment, q: Request, requests: set<Request>, umask: Perm)
    requires Ensured(start, q, umask, ensured) && Safe(start, requests, umask) && q in requests
    ensures Safe(ensured, requests, umask)
  {
    forall d | HasRelease(ensured.disk, d) && d !in ensured.doubtful
      ensures Complete(ensured.disk.releases[Release(d)].tree, d, requests, umask)
    {
      if d != q.material.digest { assert HasRelease(start.disk, d); }
    }
  }

  lemma FineSwitch(before: seq<Moment>, after: seq<Moment>, n: nat, start: Moment, ensured: Moment, q: Request,
                   requests: set<Request>, umask: Perm)
    requires n <= |before| && before <= after && AllFine(before, n, start, q, requests, umask)
    requires Ensured(start, q, umask, ensured) && Fine(start, ensured, q, requests, umask)
    requires Switches(after, |before|, ensured, q.material.digest) && q.material.digest != ""
    ensures AllFine(after, n, start, q, requests, umask)
  {
    forall i | n <= i < |after| ensures Fine(start, after[i], q, requests, umask) {
      if i < |before| { assert after[i] == before[i]; } else { FineSwitched(start, ensured, after[i], q, requests, umask); }
    }
  }

  lemma FineSwitched(start: Moment, ensured: Moment, m: Moment, q: Request, requests: set<Request>, umask: Perm)
    requires Ensured(start, q, umask, ensured) && Fine(start, ensured, q, requests, umask)
    requires m.disk.releases == ensured.disk.releases && m.doubtful == ensured.doubtful && q.material.digest != ""
    requires m.disk.current == ensured.disk.current || m.disk.current == Managed(q.material.digest)
    ensures Fine(start, m, q, requests, umask)
  {
    assert forall d :: HasRelease(m.disk, d) <==> HasRelease(ensured.disk, d);
  }

  lemma FinePrune(before: seq<Moment>, after: seq<Moment>, n: nat, start: Moment, switched: Moment, q: Request,
                  requests: set<Request>, umask: Perm)
    requires n <= |before| && before <= after && AllFine(before, n, start, q, requests, umask)
    requires switched.disk.current == Managed(q.material.digest) && Fine(start, switched, q, requests, umask)
    requires Prunes(after, |before|, switched, q.material.digest)
    ensures AllFine(after, n, start, q, requests, umask)
  {
    forall i | n <= i < |after| ensures Fine(start, after[i], q, requests, umask) {
      if i < |before| { assert after[i] == before[i]; } else { FinePruned(start, switched, after[i], q, requests, umask); }
    }
  }

  lemma FinePruned(start: Moment, switched: Moment, m: Moment, q: Request, requests: set<Request>, umask: Perm)
    requires switched.disk.current == Managed(q.material.digest) && Fine(start, switched, q, requests, umask)
    requires PrunedAt(switched, q.material.digest, m)
    ensures Fine(start, m, q, requests, umask)
    ensures Same(switched.disk, m.disk, Release(q.material.digest))
  {
    InactiveIs(switched.disk, q.material.digest, q.material.digest);
    assert Same(switched.disk, m.disk, Release(q.material.digest));
    if Safe(switched, requests, umask) { PrunedSafe(switched, q.material.digest, m, requests, umask); }
  }

  class FileSystem {
    var disk: Disk
    // A record for the proofs and for cutting a call short: which releases are in doubt, and every
    // moment so far.  No operation looks at it.
    var doubtful: set<string>
    var trace: seq<Moment>
    const umask: Perm
    const outside: Path -> Option<Node>

    function Now(): Moment reads this { Moment(disk, doubtful) }

    // One file-system operation.
    method Do(op: Operation, doubt: set<string>)
      requires CanDo(disk, op)
      modifies this
      ensures disk == Perform(old(disk), op) && doubtful == doubt && trace == old(trace) + [Now()]
    {
      disk, doubtful := Perform(disk, op), doubt;
      trace := trace + [Moment(disk, doubt)];
    }

    // os.RemoveAll: entries go one at a time, the contents of a directory before the directory.
    method RemoveAll(name: Name)
      requires name in disk.releases && disk.releases[name].Directory? && Proper(disk.releases[name].tree)
      modifies this
      ensures disk == DropEntry(old(disk), name) && doubtful == Settle(old(doubtful), name)
      ensures old(trace) <= trace && ChangesAt(trace, |old(trace)|, old(Now()), name)
    {
      var base := Now();
      var modTime, tree := disk.releases[name].modTime, disk.releases[name].tree;
      var start := disk;
      PutSame(start, name);
      while tree.Keys != {[]}
        invariant Proper(tree) && disk == PutEntry(start, name, Directory(tree, modTime))
        invariant doubtful == base.doubtful || doubtful == Doubt(base.doubtful, name)
        invariant old(trace) <= trace && ChangesAt(trace, |old(trace)|, base, name)
        decreases tree.Keys
      {
        var leaf := PickLeaf(tree);
        PutTwice(start, name, Directory(tree, modTime), Directory(tree - {leaf}, modTime));
        tree := tree - {leaf};
        Do(Remove(name, leaf), Doubt(base.doubtful, name));
        PutChanges(base, name, Directory(tree, modTime), Now());
      }
      PutTwice(start, name, Directory(tree, modTime), Directory(tree, modTime));
      Do(RemoveRelease(name), Settle(base.doubtful, name));
      DropChanges(base, name, Now());
    }

    ghost predicate Staging(name: Name)
      reads this
    {
      name.Plain? && name in disk.releases && disk.releases[name].Directory? && Proper(disk.releases[name].tree)
    }

    ghost function TreeAt(name: Name): Tree
      reads this
      requires Staging(name)
    {
      disk.releases[name].tree
    }

    // os.MkdirAll of the directory of a path.
    method MakeParents(name: Name, path: Path, mode: Perm) returns (ok: bool)
      requires Staging(name) && path != []
      modifies this
      ensures Staging(name) && doubtful == old(doubtful)
      ensures disk == PutEntry(old(disk), name, Directory(TreeAt(name), old(disk).releases[name].modTime))
      ensures ok <==> OpenTo(old(TreeAt(name)), path, |path|)
      ensures ok ==> ParentsMade(old(TreeAt(name)), path, |path|, Dir(mode & !umask), TreeAt(name))
      ensures old(trace) <= trace && ChangesAt(trace, |old(trace)|, old(Now()), name)
    {
      var start, tree := disk, disk.releases[name].tree;
      ghost var before, base := tree, Now();
      var dir := Dir(mode & !umask);
      var n := 1;
      while n < |path|
        invariant 1 <= n <= |path|
        invariant Staging(name) && TreeAt(name) == tree && Proper(tree)
        invariant disk == PutEntry(start, name, Directory(tree, start.releases[name].modTime)) && doubtful == base.doubtful
        invariant Proper(before) && OpenTo(before, path, n) && ParentsMade(before, path, n, dir, tree)
        invariant old(trace) <= trace && ChangesAt(trace, |old(trace)|, base, name)
      {
        if path[..n] !in tree {
          MadeHere(before, path, n, dir, tree);
          PutTwice(start, name, Directory(tree, start.releases[name].modTime),
                   Directory(tree[path[..n] := dir], start.releases[name].modTime));
          tree := tree[path[..n] := dir];
          Do(Put(name, path[..n], dir), doubtful);
          PutChanges(base, name, Directory(tree, start.releases[name].modTime), Now());
        } else {
          FoundHere(before, path, n, dir, tree);
          if !tree[path[..n]].Dir? {
            NotOpen(before, path, n);
            return false;
          }
        }
        n := n + 1;
      }
      ok := true;
    }

    // A new file appears empty, then gets its content.
    method CreateFile(name: Name, path: Path, content: string, mode: Perm)
      requires Staging(name) && path !in TreeAt(name)
      requires Proper(TreeAt(name)[path := File("", mode)]) && Proper(TreeAt(name)[path := File(content, mode)])
      modifies this
      ensures Staging(name) && doubtful == old(doubtful) && TreeAt(name) == old(TreeAt(name))[path := File(content, mode)]
      ensures disk == PutEntry(old(disk), name, Directory(TreeAt(name), old(disk).releases[name].modTime))
      ensures old(trace) <= trace && ChangesAt(trace, |old(trace)|, old(Now()), name)
    {
      ghost var base := Now();
      var start, tree, modTime := disk, disk.releases[name].tree, disk.releases[name].modTime;
      PutTwice(start, name, Directory(tree[path := File("", mode)], modTime), Directory(tree[path := File(content, mode)], modTime));
      assert tree[path := File("", mode)][path := File(content, mode)] == tree[path := File(content, mode)];
      Do(Put(name, path, File("", mode)), doubtful);
      PutChanges(base, name, Directory(tree[path := File("", mode)], modTime), Now());
      Do(Put(name, path, File(content, mode)), doubtful);
      PutChanges(base, name, Directory(tree[path := File(content, mode)], modTime), Now());
    }

    // writeReleaseFile: the file must not exist.
    method WriteReleaseFile(name: Name, path: Path, content: string, mode: Perm, dirMode: Perm) returns (ok: bool)
      requires Staging(name) && path != []
      modifies this
      ensures Staging(name) && doubtful == old(doubtful)
      ensures disk == PutEntry(old(disk), name, Directory(TreeAt(name), old(disk).releases[name].modTime))
      ensures ok <==> CanWrite(old(TreeAt(name)), path)
      ensures ok ==> Written(old(TreeAt(name)), path, File(content, mode & !umask), Dir(dirMode & !umask), TreeAt(name))
      ensures old(trace) <= trace && ChangesAt(trace, |old(trace)|, old(Now()), name)
    {
      ghost var before, base := TreeAt(name), Now();
      CanWriteIs(before, path);
      ok := MakeParents(name, path, dirMode);
      if !ok { return; }
      if path in disk.releases[name].tree { return false; }
      ghost var made, mid, now := TreeAt(name), trace, Now();
      FileWritten(before, path, Dir(dirMode & !umask), made, File("", mode & !umask));
      FileWritten(before, path, Dir(dirMode & !umask), made, File(content, mode & !umask));
      PutChanges(base, name, disk.releases[name], now);
      CreateFile(name, path, content, mode & !umask);
      ChangesChain(mid, trace, |old(trace)|, base, now, name);
    }

    // A staging directory is being filled; nothing else has changed since base.
    ghost predicate Building(name: Name, now: int, base: Moment, before: seq<Moment>)
      reads this
    {
      Staging(name) && doubtful == base.doubtful && disk == PutEntry(base.disk, name, Directory(TreeAt(name), now)) &&
      before <= trace && ChangesAt(trace, |before|, base, name)
    }

    method StageFile(name: Name, path: Path, content: string, mode: Perm, dirMode: Perm, ghost now: int, ghost base: Moment,
                     ghost before: seq<Moment>)
      returns (ok: bool)
      requires Building(name, now, base, before) && path != []
      modifies this
      ensures Building(name, now, base, before)
      ensures ok <==> CanWrite(old(TreeAt(name)), path)
      ensures ok ==> Written(old(TreeAt(name)), path, File(content, mode & !umask), Dir(dirMode & !umask), TreeAt(name))
    {
      ghost var mid, was := trace, Now();
      PutChanges(base, name, disk.releases[name], was);
      ok := WriteReleaseFile(name, path, content, mode, dirMode);
      ChangesChain(mid, trace, |before|, base, was, name);
    }

    method StartStaging(name: Name, mode: Perm, now: int)
      requires name.Plain? && name !in disk.releases
      modifies this
      ensures Building(name, now, old(Now()), old(trace)) && TreeAt(name) == map[[] := Dir(mode)]
    {
      ghost var base := Now();
      var start := disk;
      var private := map[[] := Dir(0x1C0 & !umask)];
      PutTwice(start, name, Directory(private, now), Directory(map[[] := Dir(mode)], now));
      assert private[[] := Dir(mode)] == map[[] := Dir(mode)];
      Do(MakeRelease(name, 0x1C0 & !umask, now), doubtful);
      PutChanges(base, name, disk.releases[name], Now());
      Do(Put(name, [], Dir(mode)), doubtful);
      PutChanges(base, name, disk.releases[name], Now());
    }

    method StageMapping(name: Name, q: Request, i: nat, ghost now: int, ghost base: Moment, ghost before: seq<Moment>)
      returns (ok: bool)
      requires i < |q.output.mappings| && Clean(q.output) && Building(name, now, base, before) && Staged(TreeAt(name), q, i, umask)
      modifies this
      ensures Building(name, now, base, before)
      ensures if ok then Staged(TreeAt(name), q, i + 1, umask) else !Buildable(q.material, q.output)
    {
      var mapping := q.output.mappings[i];
      if mapping.remote !in q.material.files { return false; }
      ghost var tree := TreeAt(name);
      ok := StageFile(name, mapping.local, q.material.files[mapping.remote], mapping.mode, q.output.mode, now, base, before);
      if ok {
        StagedNext(tree, q, i, umask, TreeAt(name));
      } else {
        StagedBlocked(tree, q, i, umask);
      }
    }

    method StageMarker(name: Name, q: Request, ghost now: int, ghost base: Moment, ghost before: seq<Moment>)
      returns (ok: bool)
      requires Hex(q.material.digest) && Building(name, now, base, before) && Staged(TreeAt(name), q, |q.output.mappings|, umask)
      modifies this
      ensures Building(name, now, base, before)
      ensures ok <==> Buildable(q.material, q.output)
      ensures ok ==> Exact(TreeAt(name), q.material, q.output, umask) && RightBuild(TreeAt(name), q.material, q.output, umask)
    {
      ghost var tree := TreeAt(name);
      ok := StageFile(name, MARKER, q.material.digest + "\n", PRIVATE, q.output.mode, now, base, before);
      if ok {
        StagedMarker(tree, q, umask, TreeAt(name));
      } else {
        StagedMarkerBlocked(tree, q, umask);
      }
    }

    // The staging directory, with the mapped files and then the marker.
    method Stage(name: Name, q: Request, now: int) returns (ok: bool)
      requires name.Plain? && name !in disk.releases && Clean(q.output) && Hex(q.material.digest)
      modifies this
      ensures Building(name, now, old(Now()), old(trace))
      ensures ok <==> Buildable(q.material, q.output)
      ensures ok ==> Exact(TreeAt(name), q.material, q.output, umask) && RightBuild(TreeAt(name), q.material, q.output, umask)
    {
      ghost var base, start := Now(), trace;
      StartStaging(name, q.output.mode, now);
      for i := 0 to |q.output.mappings|
        invariant Building(name, now, base, start) && Staged(TreeAt(name), q, i, umask)
      {
        ok := StageMapping(name, q, i, now, base, start);
        if !ok { return; }
      }
      ok := StageMarker(name, q, now, base, start);
    }

    // CurrentDigest: None is an error.
    method CurrentDigest() returns (digest: Option<string>)
      ensures digest.Some? <==> Readable(disk, outside)
      ensures digest.Some? ==> digest.value == if disk.current.NoLink? then "" else disk.current.digest
      ensures digest == Some("") <==> disk.current == NoLink
      ensures forall want :: want != "" ==>
        (digest == Some(want) <==>
          disk.current == Managed(want) && exists text :: MarkerSays(disk, outside, want, text) && TrimSpace(text) == want)
    {
      ReadableIs(disk, outside);
      match disk.current
      case NoLink => digest := Some("");
      case Foreign => digest := None;
      case Managed(want) =>
        var data := MarkerData(disk, outside, want);
        if data.None? { return None; }
        var trimmed := Trim(data.value);
        digest := if trimmed != "" && trimmed == want then Some(want) else None;
    }

    // Staging failed, or the rename did: the deferred removal of the staging directory.
    method Discard(name: Name, ghost now: int, ghost base: Moment, ghost before: seq<Moment>)
      requires Building(name, now, base, before) && name !in base.disk.releases
      modifies this
      ensures Now() == base && before <= trace && ChangesAt(trace, |before|, base, name)
    {
      ghost var mid, was := trace, Now();
      PutDrop(base.disk, name, disk.releases[name]);
      PutChanges(base, name, disk.releases[name], was);
      RemoveAll(name);
      ChangesChain(mid, trace, |before|, base, was, name);
    }

    method Commit(name: Name, digest: string, ghost now: int, ghost base: Moment, ghost before: seq<Moment>)
      requires Building(name, now, base, before) && name !in base.disk.releases && Release(digest) !in base.disk.releases
      modifies this
      ensures disk == PutEntry(base.disk, Release(digest), Directory(old(TreeAt(name)), now)) && doubtful == base.doubtful - {digest}
      ensures before <= trace && Installs(trace, |before|, base, name, Now())
    {
      RenameIs(base.disk, name, disk.releases[name], digest);
      Do(RenameRelease(name, Release(digest)), doubtful - {digest});
    }

    method InstallNew(q: Request, free: Name, now: int) returns (ok: bool)
      requires Clean(q.output) && Hex(q.material.digest) && free.Plain? && free !in disk.releases
      requires !HasRelease(disk, q.material.digest)
      modifies this
      ensures ok <==> Accepts(old(disk), q)
      ensures if ok then Ensured(old(Now()), q, umask, Now()) else Now() == old(Now())
      ensures old(trace) <= trace && Installs(trace, |old(trace)|, old(Now()), free, Now())
    {
      ghost var base, before := Now(), trace;
      ok := Stage(free, q, now);
      if !ok || Release(q.material.digest) in disk.releases {
        ok := false;
        Discard(free, now, base, before);
      } else {
        Commit(free, q.material.digest, now, base, before);
      }
    }

    method Verifies(tree: Tree, q: Request) returns (ok: bool)
      requires WellFormed(tree) && Clean(q.output)
      ensures ok <==> Matches(tree, q.material, q.output)
    {
      ok := VerifyRelease(tree, outside, q.material, q.output);
    }

    method VerifyExisting(q: Request) returns (ok: bool)
      requires Sane(disk) && Clean(q.output) && HasRelease(disk, q.material.digest)
      modifies this`doubtful
      ensures ok <==> Accepts(old(disk), q)
      ensures if ok then Ensured(old(Now()), q, umask, Now()) else Now() == old(Now())
    {
      ghost var base := Now();
      ok := Verifies(disk.releases[Release(q.material.digest)].tree, q);
      if ok {
        VerifiedEnsured(base, q, umask);
        doubtful := doubtful - {q.material.digest};
      }
    }

    method EnsureRelease(q: Request, now: int) returns (ok: bool, ghost staging: Name)
      requires Sane(disk) && Clean(q.output) && Hex(q.material.digest)
      modifies this
      ensures ok <==> Accepts(old(disk), q)
      ensures if ok then Ensured(old(Now()), q, umask, Now()) else Now() == old(Now())
      ensures old(trace) <= trace && Installs(trace, |old(trace)|, old(Now()), staging, Now())
    {
      var free := FreshStaging(disk.releases);
      staging := free;
      if Release(q.material.digest) in disk.releases && disk.releases[Release(q.material.digest)].Directory? {
        ok := VerifyExisting(q);
      } else {
        ok := InstallNew(q, free, now);
      }
    }

    method SwitchSymlink(digest: string)
      modifies this
      ensures disk == old(disk).(current := Managed(digest), temporary := None) && doubtful == old(doubtful)
      ensures old(trace) <= trace && Switches(trace, |old(trace)|, old(Now()), digest)
    {
      if disk.temporary.Some? { Do(RemoveLink, doubtful); }
      Do(MakeLink(digest), doubtful);
      Do(RenameLink, doubtful);
    }

    method Newest(names: set<string>) returns (newest: string)
      requires names != {} && forall d :: d in names ==> HasRelease(disk, d)
      ensures newest in names && forall d :: d in names ==> Age(disk, d) <= Age(disk, newest)
    {
      newest :| newest in names;
      var rest := names;
      while rest != {}
        invariant newest in names && rest <= names
        invariant forall d :: d in names && d !in rest ==> Age(disk, d) <= Age(disk, newest)
        decreases rest
      {
        var d :| d in rest;
        if Age(disk, d) > Age(disk, newest) { newest := d; }
        rest := rest - {d};
      }
    }

    // sort.Slice by modification time, newest first; equal times stay in any order.
    method NewestFirstOf(names: set<string>) returns (list: seq<string>)
      requires forall d :: d in names ==> HasRelease(disk, d)
      ensures Enumerates(list, names) && NewestFirst(disk, list)
    {
      list := [];
      var rest := names;
      while rest != {}
        invariant rest <= names && (forall d :: d in list <==> d in names - rest)
        invariant forall i, j :: 0 <= i < j < |list| ==> list[i] != list[j]
        invariant NewestFirst(disk, list)
        invariant forall i, d :: 0 <= i < |list| && d in rest ==> list[i] in names && Age(disk, d) <= Age(disk, list[i])
        decreases rest
      {
        var d := Newest(rest);
        assert forall e :: e in list + [d] <==> e in list || e == d;
        list := list + [d];
        rest := rest - {d};
      }
    }

    // Some inactive releases are gone since base; nothing else has changed.
    ghost predicate Pruning(base: Moment, before: seq<Moment>, active: string, gone: set<string>)
      reads this
    {
      disk == DropAll(base.disk, gone) && doubtful == base.doubtful - gone &&
      before <= trace && Prunes(trace, |before|, base, active)
    }

    method RemoveNext(list: seq<string>, n: nat, i: nat, ghost base: Moment, ghost before: seq<Moment>, ghost active: string)
      requires Enumerates(list, Inactive(base.disk, active)) && n <= i < |list| && Sane(base.disk)
      requires Pruning(base, before, active, Elements(list[n..i]))
      modifies this
      ensures Pruning(base, before, active, Elements(list[n..i + 1]))
    {
      ghost var gone, mid, now := Elements(list[n..i]), trace, Now();
      NextRemoval(base.disk, active, list, n, i);
      RemoveAll(Release(list[i]));
      RemovalsPrune(mid, trace, |before|, base, active, gone, now, list[i]);
      DropOneMore(base.disk, gone, list[i]);
    }

    method PruneReleases(active: string, retain: nat)
      requires Sane(disk)
      modifies this
      ensures Retained(old(disk), disk, active, retain)
      ensures PrunedAt(old(Now()), active, Now())
      ensures old(trace) <= trace && Prunes(trace, |old(trace)|, old(Now()), active)
    {
      ghost var base, before := Now(), trace;
      var list := NewestFirstOf(Inactive(disk, active));
      var n := if retain < |list| then retain else |list|;
      DropNone(disk);
      for i := n to |list|
        invariant Pruning(base, before, active, Elements(list[n..i]))
      {
        RemoveNext(list, n, i, base, before, active);
      }
      assert list[n..|list|] == list[n..];
      DroppedSuffix(base.disk, active, list, n, retain);
      AllPruned(base, active, list, n, Now());
    }

    // The rest of an activation, once the release is in place.
    method SwitchAndPrune(q: Request, ghost base: Moment, ghost before: seq<Moment>, ghost requests: set<Request>)
      requires Sane(disk) && Ensured(base, q, umask, Now()) && Fine(base, Now(), q, requests, umask) && q.material.digest != ""
      requires before <= trace && AllFine(trace, |before|, base, q, requests, umask)
      modifies this
      ensures disk.current == Managed(q.material.digest)
      ensures Same(old(disk), disk, Release(q.material.digest)) && Fine(base, Now(), q, requests, umask)
      ensures Retained(Switched(old(disk), q.material.digest), disk, q.material.digest, q.retain)
      ensures before <= trace && AllFine(trace, |before|, base, q, requests, umask)
    {
      var d := q.material.digest;
      ghost var ensured, mid := Now(), trace;
      SwitchSymlink(d);
      FineSwitch(mid, trace, |before|, base, ensured, q, requests, umask);
      ghost var switched, mid2 := Now(), trace;
      FineSwitched(base, ensured, switched, q, requests, umask);
      PruneReleases(d, q.retain);
      FinePrune(mid2, trace, |before|, base, switched, q, requests, umask);
      FinePruned(base, switched, Now(), q, requests, umask);
    }

    // current already selects the requested digest.
    method VerifyCurrent(q: Request) returns (ok: bool)
      requires Sane(disk) && Clean(q.output)
      ensures ok <==> HasRelease(disk, q.material.digest) && Matches(disk.releases[Release(q.material.digest)].tree, q.material, q.output)
    {
      if !HasRelease(disk, q.material.digest) { return false; }
      ok := Verifies(disk.releases[Release(q.material.digest)].tree, q);
    }

    // The requested release is not the current one.
    method ActivateOther(q: Request, now: int, ghost requests: set<Request>) returns (ok: bool, ghost ensured: Moment)
      requires Sane(disk) && Clean(q.output) && Hex(q.material.digest) && Readable(disk, outside)
      modifies this
      ensures old(trace) <= trace
      ensures Activation(old(Now()), trace[|old(trace)|..], Now(), ok, q, requests, umask, outside)
      ensures !ok ==> Now() == old(Now())
      ensures ok ==> Ensured(old(Now()), q, umask, ensured)
      ensures ok ==> Same(ensured.disk, disk, Release(q.material.digest))
      ensures ok ==> Retained(Switched(ensured.disk, q.material.digest), disk, q.material.digest, q.retain)
    {
      ghost var base, before := Now(), trace;
      ghost var staging;
      ok, staging := EnsureRelease(q, now);
      ensured := Now();
      if !ok {
        FineStaging(trace, |before|, base, staging, ensured, q, requests, umask);
        return;
      }
      FineEnsured(base, ensured, q, requests, umask);
      FineStaging(trace, |before|, base, staging, ensured, q, requests, umask);
      EnsuredSane(base, q, umask, ensured);
      SwitchAndPrune(q, base, before, requests);
    }

    /** Activate. It succeeds exactly when the current release can be read and the requested one is either
        in place and verified or can be built; a crash after any operation leaves a safe disk, on which the
        same call still succeeds. */
    method Activate(q: Request, now: int, ghost requests: set<Request>) returns (ok: bool, changed: bool, ghost ensured: Moment)
      requires Sane(disk) && Clean(q.output) && Hex(q.material.digest)
      modifies this
      ensures old(trace) <= trace
      ensures Activation(old(Now()), trace[|old(trace)|..], Now(), ok, q, requests, umask, outside)
      ensures changed <==> ok && old(disk).current != Managed(q.material.digest)
      ensures !changed ==> Now() == old(Now())
      ensures changed ==> Ensured(old(Now()), q, umask, ensured)
      ensures ok ==> forall i :: 0 <= i < |q.output.mappings| ==> HasBytes(disk.releases[Release(q.material.digest)].tree, q.material, q.output.mappings[i])
      ensures ok && !HasRelease(old(disk), q.material.digest) ==>
        RightBuild(disk.releases[Release(q.material.digest)].tree, q.material, q.output, umask)
      ensures changed ==> Retained(Switched(ensured.disk, q.material.digest), disk, q.material.digest, q.retain)
    {
      ensured, changed := Now(), false;
      var current := CurrentDigest();
      if current.None? { return false, false, ensured; }
      if current.value == q.material.digest {
        ok := VerifyCurrent(q);
      } else {
        ok, ensured := ActivateOther(q, now, requests);
        changed := ok;
      }
      if ok { WholeBytes(disk.releases[Release(q.material.digest)].tree, q, umask); }
    }

    // A crash: the disk is what it was at some recorded moment.
    method Restart(n: nat)
      requires n < |trace|
      modifies this`disk, this`doubtful
      ensures Now() == trace[n]
    {
      disk, doubtful := trace[n].disk, trace[n].doubtful;
    }

    // A crash after so many of the operations since, if there are that many.
    method CutAt(before: nat, cut: Option<nat>) returns (done: bool)
      requires before <= |trace|
      modifies this`disk, this`doubtful
      ensures done <==> cut.None? || cut.value >= |trace| - before
      ensures Now() == if done then old(Now()) else trace[before + cut.value]
    {
      done := cut.None? || cut.value >= |trace| - before;
      if !done {
        Restart(before + cut.value);
      }
    }

    method Attempt(q: Request, now: int, ghost requests: set<Request>) returns (ok: bool)
      requires Clean(q.output) && Hex(q.material.digest) && Sane(disk)
      modifies this
      ensures old(trace) <= trace
      ensures Activation(old(Now()), trace[|old(trace)|..], Now(), ok, q, requests, umask, outside)
    {
      var changed;
      ghost var ensured;
      ok, changed, ensured := Activate(q, now, requests);
    }

    // One call of Activate, cut after the given number of operations if it gets that far.
    method RunCall(q: Request, now: int, cut: Option<nat>, ghost requests: set<Request>) returns (ok: bool, done: bool, ghost call: Call)
      requires q in requests && Clean(q.output) && Hex(q.material.digest) && Safe(Now(), requests, umask)
      modifies this
      ensures Called(call, requests, umask, outside) && call.q == q && call.start == old(Now()) && call.ok == ok
      ensures call.resumed == Now() && Safe(Now(), requests, umask)
      ensures done <==> cut.None? || cut.value >= |call.during|
      ensures call.resumed == if done then call.end else call.during[cut.value]
      ensures old(trace) <= trace && call.during == trace[|old(trace)|..]
    {
      ghost var start := Now();
      var before := |trace|;
      ok := Attempt(q, now, requests);
      ghost var during, end := trace[before..], Now();
      done := CutAt(before, cut);
      call := Call(q, start, during, end, ok, Now());
      CallCut(call, trace, before, cut, requests, umask, outside);
    }

    /** Any list of activations, each cut anywhere or not at all, is a session: so SessionSafe and RerunSucceeds are
        about what the operations do. */
    method RunCalls(queue: seq<Request>, nows: seq<int>, cuts: seq<Option<nat>>, ghost requests: set<Request>)
      returns (ghost calls: seq<Call>)
      requires |queue| == |nows| == |cuts| && Safe(Now(), requests, umask)
      requires forall q :: q in queue ==> q in requests && Clean(q.output) && Hex(q.material.digest)
      modifies this
      ensures |calls| == |queue| && Session(calls, requests, umask, outside)
      ensures RanAs(calls, queue, cuts)
      ensures calls != [] ==> calls[0].start == old(Now()) && calls[|calls| - 1].resumed == Now()
      ensures Safe(Now(), requests, umask)
    {
      calls := [];
      ghost var start := Now();
      for i := 0 to |queue|
        invariant |calls| == i && Session(calls, requests, umask, outside) && Safe(Now(), requests, umask)
        invariant RanAs(calls, queue[..i], cuts[..i])
        invariant if i == 0 then Now() == start else calls[0].start == start && calls[i - 1].resumed == Now()
      {
        assert queue[i] in queue;
        ghost var call;
        var ok, done;
        ok, done, call := RunCall(queue[i], nows[i], cuts[i], requests);
        SessionNext(calls, call, requests, umask, outside);
        RanNext(calls, call, queue, cuts, i);
        calls := calls + [call];
      }
      assert queue[..|queue|] == queue && cuts[..|cuts|] == cuts;
    }
  }

  ghost predicate RanAs(calls: seq<Call>, queue: seq<Request>, cuts: seq<Option<nat>>) {
    |calls| == |queue| == |cuts| && forall i :: 0 <= i < |calls| ==> calls[i].q == queue[i] && CutAs(calls[i], cuts[i])
  }

  lemma RanNext(calls: seq<Call>, call: Call, queue: seq<Request>, cuts: seq<Option<nat>>, i: nat)
    requires i < |queue| == |cuts| && RanAs(calls, queue[..i], cuts[..i]) && call.q == queue[i] && CutAs(call, cuts[i])
    ensures RanAs(calls + [call], queue[..i + 1], cuts[..i + 1])
  {
    assert queue[..i + 1] == queue[..i] + [queue[i]] && cuts[..i + 1] == cuts[..i] + [cuts[i]];
  }

  lemma SessionNext(calls: seq<Call>, call: Call, requests: set<Request>, umask: Perm, outside: Path -> Option<Node>)
    requires Session(calls, requests, umask, outside) && Called(call, requests, umask, outside)
    requires calls != [] ==> call.start == calls[|calls| - 1].resumed
    ensures Session(calls + [call], requests, umask, outside)
  {
    var all := calls + [call];
    forall i | 0 <= i < |all| ensures Called(all[i], requests, umask, outside) {
      if i < |calls| { assert all[i] == calls[i]; }
    }
    forall i | 0 < i < |all| ensures all[i].start == all[i - 1].resumed {
      assert all[i - 1] == calls[i - 1];
      if i < |calls| { assert all[i] == calls[i]; }
    }
  }

  lemma VerifiedEnsured(base: Moment, q: Request, umask: Perm)
    requires Sane(base.disk) && HasRelease(base.disk, q.material.digest)
    requires Matches(base.disk.releases[Release(q.material.digest)].tree, q.material, q.output)
    ensures Ensured(base, q, umask, Moment(base.disk, base.doubtful - {q.material.digest}))
  {
    PutSame(base.disk, Release(q.material.digest));
  }

  // A call that ended, or that a restart took back to one of the moments recorded since it began.
  lemma CallCut(c: Call, trace: seq<Moment>, before: nat, cut: Option<nat>, requests: set<Request>, umask: Perm,
                outside: Path -> Option<Node>)
    requires before <= |trace| && c.during == trace[before..] && c.q in requests && Safe(c.start, requests, umask)
    requires Activation(c.start, c.during, c.end, c.ok, c.q, requests, umask, outside)
    requires c.resumed == if cut.None? || cut.value >= |trace| - before then c.end else trace[before + cut.value]
    ensures Called(c, requests, umask, outside) && Safe(c.resumed, requests, umask) && CutAs(c, cut)
  {
    if cut.Some? && cut.value < |trace| - before { assert c.during[cut.value] == trace[before + cut.value]; }
    CallIsCalled(c, requests, umask, outside);
  }

  lemma CallIsCalled(c: Call, requests: set<Request>, umask: Perm, outside: Path -> Option<Node>)
    requires c.q in requests && Activation(c.start, c.during, c.end, c.ok, c.q, requests, umask, outside)
    requires (c.resumed in c.during || c.resumed == c.end) && Safe(c.start, requests, umask)
    ensures Called(c, requests, umask, outside) && Safe(c.resumed, requests, umask)
  {
    CalledFine(c, requests, umask, outside);
  }

  // The call ended, or stopped after so many operations.
  ghost predicate CutAs(call: Call, cut: Option<nat>) {
    call.resumed == if cut.None? || cut.value >= |call.during| then call.end else call.during[cut.value]
  }

  lemma WholeBytes(tree: Tree, q: Request, umask: Perm)
    requires Whole(tree, q, umask)
    ensures forall i :: 0 <= i < |q.output.mappings| ==> HasBytes(tree, q.material, q.output.mappings[i])
  {
    if Exact(tree, q.material, q.output, umask) {
      ExactFiles(tree, q.material, q.output, umask);
    } else {
      ExactFiles(tree, q.material, q.output, 0);
    }
  }

  lemma EnsuredSane(base: Moment, q: Request, umask: Perm, ensured: Moment)
    requires Sane(base.disk) && Ensured(base, q, umask, ensured)
    ensures Sane(ensured.disk)
  {
  }

  // The disk after the switch.
  function Switched(disk: Disk, digest: string): Disk {
    disk.(current := Managed(digest), temporary := None)
  }

  lemma DropNone(disk: Disk)
    ensures DropAll(disk, {}) == disk
  {
  }

  lemma NextRemoval(disk: Disk, active: string, list: seq<string>, n: nat, i: nat)
    requires Enumerates(list, Inactive(disk, active)) && n <= i < |list| && Sane(disk)
    ensures var gone := Elements(list[n..i]);
      gone <= Inactive(disk, active) && list[i] in Inactive(disk, active) && list[i] !in gone &&
      Elements(list[n..i + 1]) == gone + {list[i]} && HasRelease(DropAll(disk, gone), list[i]) &&
      Proper(DropAll(disk, gone).releases[Release(list[i])].tree)
  {
    var some := list[n..i];
    assert list[n..i + 1] == some + [list[i]];
    forall d ensures d in Elements(some + [list[i]]) <==> d in Elements(some) || d == list[i] {
      assert (some + [list[i]])[|some|] == list[i];
      if d in Elements(some) {
        var k :| 0 <= k < |some| && some[k] == d;
        assert (some + [list[i]])[k] == d;
      }
    }
    forall d | d in Elements(some) ensures d in Inactive(disk, active) && d != list[i] {
      var k :| 0 <= k < |some| && some[k] == d;
      assert list[n + k] == d;
    }
    assert list[i] in list;
    InactiveIs(disk, active, list[i]);
  }

  lemma AllPruned(base: Moment, active: string, list: seq<string>, n: nat, m: Moment)
    requires Enumerates(list, Inactive(base.disk, active)) && n <= |list|
    requires m.disk == DropAll(base.disk, Elements(list[n..])) && m.doubtful == base.doubtful - Elements(list[n..])
    ensures PrunedAt(base, active, m)
  {
    SplitList(list, n, Inactive(base.disk, active));
  }

  lemma NotOpen(tree: Tree, path: Path, n: nat)
    requires n < |path| && !OpenTo(tree, path, n + 1)
    ensures !OpenTo(tree, path, |path|)
  {
  }
}
