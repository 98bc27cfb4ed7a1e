/** The tree of one local release: what building it makes and what verifying it accepts. */
module ReleaseTree {
  import opened Wrappers
  import opened Text

  // A path below the release directory, by components; [] is the directory itself.
  type Path = seq<string>
  // Permission bits, after Mode.Perm().
  type Perm = bv9

  const MARKER: Path := [".pemcast-digest"]
  const PRIVATE: Perm := 0x180

  // Other is a symbolic link or a special file.
  datatype Node = File(data: string, mode: Perm) | Dir(mode: Perm) | Other
  type Tree = map<Path, Node>

  datatype Mapping = Mapping(remote: string, local: Path, mode: Perm)
  datatype Output = Output(mappings: seq<Mapping>, mode: Perm)
  datatype Material = Material(digest: string, files: map<string, string>)

  // Every node but the release directory lies in a directory.
  ghost predicate WellFormed(tree: Tree) {
    forall p :: p in tree && p != [] ==> p[..|p| - 1] in tree && tree[p[..|p| - 1]].Dir?
  }

  // Configuration refuses a local path that is empty or ".".
  predicate Clean(output: Output) {
    forall i :: 0 <= i < |output.mappings| ==> output.mappings[i].local != []
  }

  // A missing remote file reads as empty.
  function Content(files: map<string, string>, remote: string): string {
    if remote in files then files[remote] else ""
  }

  ghost predicate IsLocal(mappings: seq<Mapping>, p: Path) {
    exists i :: 0 <= i < |mappings| && mappings[i].local == p
  }

  ghost predicate IsParent(mappings: seq<Mapping>, p: Path) {
    p != [] && exists i :: 0 <= i < |mappings| && p < mappings[i].local
  }

  ghost predicate Distinct(mappings: seq<Mapping>) {
    (forall i, j :: 0 <= i < j < |mappings| ==> mappings[i].local != mappings[j].local) &&
    forall i :: 0 <= i < |mappings| ==> mappings[i].local != MARKER
  }

  ghost predicate NonZero(mappings: seq<Mapping>) {
    forall i :: 0 <= i < |mappings| ==> mappings[i].mode != 0
  }

  // The marker, each mapped file and the directories these imply, and nothing else.
  ghost predicate Exact(tree: Tree, material: Material, output: Output, umask: Perm) {
    (forall p :: p in tree <==> p == [] || p == MARKER || IsLocal(output.mappings, p) || IsParent(output.mappings, p)) &&
    tree[[]] == Dir(output.mode) &&
    tree[MARKER].File? && tree[MARKER].mode == PRIVATE & !umask && TrimSpace(tree[MARKER].data) == material.digest &&
    (forall i {:trigger output.mappings[i]} :: 0 <= i < |output.mappings| ==>
      tree[output.mappings[i].local] == Filed(material, output.mappings[i], umask)) &&
    forall p :: IsParent(output.mappings, p) ==> tree[p] == Dir(output.mode & !umask)
  }

  function Filed(material: Material, mapping: Mapping, umask: Perm): Node {
    File(Content(material.files, mapping.remote), mapping.mode & !umask)
  }

  // What verifyRelease is for.
  ghost predicate Matches(tree: Tree, material: Material, output: Output) {
    Distinct(output.mappings) && NonZero(output.mappings) && Exact(tree, material, output, 0)
  }

  /** What an accepted release holds, written out: the directory, the marker with mode 0600, each mapped file with
      its bytes and mode (no bytes where the bundle has no such file), the directories above these, nothing else. */
  ghost predicate RightRelease(tree: Tree, material: Material, output: Output) {
    (forall i, j :: 0 <= i < j < |output.mappings| ==> output.mappings[i].local != output.mappings[j].local) &&
    (forall i :: 0 <= i < |output.mappings| ==> output.mappings[i].local != [".pemcast-digest"] && output.mappings[i].mode != 0) &&
    [] in tree && tree[[]] == Dir(output.mode) &&
    [".pemcast-digest"] in tree && tree[[".pemcast-digest"]].File? && tree[[".pemcast-digest"]].mode == 0x180 &&
    TrimSpace(tree[[".pemcast-digest"]].data) == material.digest &&
    (forall i :: 0 <= i < |output.mappings| ==> RightFile(tree, material, output.mappings[i], 0)) &&
    RightPlaces(tree, output, 0)
  }

  // A mapped file with its bytes and mode.
  ghost predicate RightFile(tree: Tree, material: Material, m: Mapping, umask: Perm) {
    m.local in tree && tree[m.local].File? && tree[m.local].mode == m.mode & !umask &&
    (m.remote in material.files ==> tree[m.local].data == material.files[m.remote]) &&
    (m.remote !in material.files ==> tree[m.local].data == "")
  }

  // A mapped file with its bytes, whatever its mode.
  ghost predicate HasBytes(tree: Tree, material: Material, m: Mapping) {
    m.local in tree && tree[m.local].File? &&
    (m.remote in material.files ==> tree[m.local].data == material.files[m.remote]) &&
    (m.remote !in material.files ==> tree[m.local].data == "")
  }

  ghost predicate RightPlaces(tree: Tree, output: Output, umask: Perm) {
    (forall p :: p in tree && p != [] && p != [".pemcast-digest"] ==> Leads(output, p)) &&
    forall i :: 0 <= i < |output.mappings| ==> DirectoriesAbove(tree, output.mappings[i].local, Dir(output.mode & !umask))
  }

  // A path is a mapped path or lies above one.
  ghost predicate Leads(output: Output, p: Path) {
    exists i :: 0 <= i < |output.mappings| && p <= output.mappings[i].local
  }

  ghost predicate DirectoriesAbove(tree: Tree, local: Path, dir: Node) {
    forall p :: p != [] && p < local ==> p in tree && tree[p] == dir
  }

  /** What building makes, written out. */
  ghost predicate RightBuild(tree: Tree, material: Material, output: Output, umask: Perm) {
    [] in tree && tree[[]] == Dir(output.mode) &&
    [".pemcast-digest"] in tree && tree[[".pemcast-digest"]] == File(material.digest + "\n", 0x180 & !umask) &&
    (forall i :: 0 <= i < |output.mappings| ==>
      output.mappings[i].remote in material.files && RightFile(tree, material, output.mappings[i], umask)) &&
    RightPlaces(tree, output, umask)
  }

  lemma ExactFiles(tree: Tree, material: Material, output: Output, umask: Perm)
    requires Exact(tree, material, output, umask)
    ensures forall i :: 0 <= i < |output.mappings| ==> RightFile(tree, material, output.mappings[i], umask)
  {
    forall i | 0 <= i < |output.mappings| ensures RightFile(tree, material, output.mappings[i], umask) {
      assert IsLocal(output.mappings, output.mappings[i].local);
    }
  }

  lemma ExactPlaces(tree: Tree, material: Material, output: Output, umask: Perm)
    requires Exact(tree, material, output, umask)
    ensures RightPlaces(tree, output, umask)
  {
    forall i | 0 <= i < |output.mappings| ensures DirectoriesAbove(tree, output.mappings[i].local, Dir(output.mode & !umask)) {
      forall p | p != [] && p < output.mappings[i].local ensures p in tree && tree[p] == Dir(output.mode & !umask) {
        assert IsParent(output.mappings, p);
      }
    }
    forall p | p in tree && p != [] && p != MARKER ensures Leads(output, p) {
      LeadsIs(output, p);
    }
  }

  lemma LeadsIs(output: Output, p: Path)
    ensures p != [] ==> (Leads(output, p) <==> IsLocal(output.mappings, p) || IsParent(output.mappings, p))
  {
    if IsLocal(output.mappings, p) {
      var i :| 0 <= i < |output.mappings| && output.mappings[i].local == p;
      assert p <= output.mappings[i].local;
    }
    if IsParent(output.mappings, p) {
      var i :| 0 <= i < |output.mappings| && p < output.mappings[i].local;
      assert p <= output.mappings[i].local;
    }
    if Leads(output, p) {
      var i :| 0 <= i < |output.mappings| && p <= output.mappings[i].local;
      assert p == output.mappings[i].local || p < output.mappings[i].local;
    }
  }

  lemma RightPlaced(tree: Tree, material: Material, output: Output, p: Path)
    requires RightPlaces(tree, output, 0) && [] in tree && MARKER in tree
    requires forall i :: 0 <= i < |output.mappings| ==> RightFile(tree, material, output.mappings[i], 0)
    ensures p in tree <==> p == [] || p == MARKER || IsLocal(output.mappings, p) || IsParent(output.mappings, p)
  {
    LeadsIs(output, p);
    if IsLocal(output.mappings, p) {
      var i :| 0 <= i < |output.mappings| && output.mappings[i].local == p;
      assert RightFile(tree, material, output.mappings[i], 0);
    }
    if IsParent(output.mappings, p) { RightParent(tree, output, p); }
  }

  lemma RightParent(tree: Tree, output: Output, p: Path)
    requires RightPlaces(tree, output, 0) && IsParent(output.mappings, p)
    ensures p in tree && tree[p] == Dir(output.mode & !0)
  {
    var i :| 0 <= i < |output.mappings| && p < output.mappings[i].local;
    assert DirectoriesAbove(tree, output.mappings[i].local, Dir(output.mode & !0));
  }

  lemma RightFiled(tree: Tree, material: Material, m: Mapping)
    requires RightFile(tree, material, m, 0)
    ensures m.local in tree && tree[m.local] == Filed(material, m, 0)
  {
  }

  lemma RightIsExact(tree: Tree, material: Material, output: Output)
    requires RightRelease(tree, material, output) && Clean(output)
    ensures Exact(tree, material, output, 0)
  {
    ClearsNone(PRIVATE);
    forall p ensures p in tree <==> p == [] || p == MARKER || IsLocal(output.mappings, p) || IsParent(output.mappings, p) {
      RightPlaced(tree, material, output, p);
    }
    forall i {:trigger output.mappings[i]} | 0 <= i < |output.mappings|
      ensures output.mappings[i].local in tree && tree[output.mappings[i].local] == Filed(material, output.mappings[i], 0)
    {
      RightFiled(tree, material, output.mappings[i]);
    }
    forall p | IsParent(output.mappings, p) ensures p in tree && tree[p] == Dir(output.mode & !0) {
      RightParent(tree, output, p);
    }
  }

  lemma MatchesIsRight(tree: Tree, material: Material, output: Output)
    requires Clean(output)
    ensures Matches(tree, material, output) <==> RightRelease(tree, material, output)
  {
    ClearsNone(PRIVATE);
    if Matches(tree, material, output) {
      ExactFiles(tree, material, output, 0);
      ExactPlaces(tree, material, output, 0);
    }
    if RightRelease(tree, material, output) { RightIsExact(tree, material, output); }
  }

  // ---- verifyRelease ----

  // A path through a symbolic link leads out of the tree, to whatever is there.
  ghost predicate ThroughLink(tree: Tree, p: Path) {
    exists k :: 0 <= k < |p| && p[..k] in tree && tree[p[..k]].Other?
  }

  method Lookup(tree: Tree, beyond: Path -> Option<Node>, p: Path) returns (node: Option<Node>)
    ensures node == if p in tree then Some(tree[p]) else if ThroughLink(tree, p) then beyond(p) else None
  {
    if p in tree { return Some(tree[p]); }
    for k := 0 to |p|
      invariant forall j :: 0 <= j < k ==> !(p[..j] in tree && tree[p[..j]].Other?)
    {
      if p[..k] in tree && tree[p[..k]].Other? { return beyond(p); }
    }
    return None;
  }

  lemma {:induction false} AncestorsAreDirectories(tree: Tree, p: Path, k: nat)
    requires WellFormed(tree) && p in tree && k < |p|
    ensures p[..k] in tree && tree[p[..k]].Dir?
    decreases |p|
  {
    var parent := p[..|p| - 1];
    if k < |parent| {
      AncestorsAreDirectories(tree, parent, k);
      assert parent[..k] == p[..k];
    } else {
      assert p[..k] == parent;
    }
  }

  lemma SameSizeSubset<T>(a: set<T>, b: set<T>)
    requires a <= b && |a| == |b|
    ensures a == b
  {
    if x :| x in b && x !in a {
      assert a <= b - {x};
      CardinalityMonotone(a, b - {x});
    }
  }

  lemma {:induction false} CardinalityMonotone<T>(a: set<T>, b: set<T>)
    requires a <= b
    ensures |a| <= |b|
    decreases a
  {
    if a != {} {
      var x :| x in a;
      CardinalityMonotone(a - {x}, b - {x});
    }
  }

  // The directories above a path, added to those known.
  method AddParents(dirs: set<Path>, local: Path) returns (all: set<Path>)
    requires local != []
    ensures forall p :: p in all <==> p in dirs || (p != [] && p < local)
  {
    all := dirs;
    var directory := local[..|local| - 1];
    while directory != []
      invariant directory < local
      invariant forall p :: p in all <==> p in dirs || (directory < p < local)
    {
      ghost var before, was := all, directory;
      all := all + {directory};
      directory := directory[..|directory| - 1];
      forall p ensures p in all <==> p in dirs || (directory < p < local) {
        assert was < local;
        if directory < p && p < local {
          assert p == local[..|p|] && was == local[..|was|];
        }
      }
    }
  }

  // One mapping has been checked.
  ghost predicate Checked(tree: Tree, material: Material, mapping: Mapping) {
    mapping.local in tree ==> tree[mapping.local] == Filed(material, mapping, 0)
  }

  // One node of the walk has been accepted.
  ghost predicate Allowed(tree: Tree, output: Output, p: Path)
    requires p in tree
  {
    if p == [] then tree[p] == Dir(output.mode)
    else if tree[p].Dir? then tree[p].mode == output.mode && IsParent(output.mappings, p)
    else p == MARKER || IsLocal(output.mappings, p)
  }

  lemma ParentsPresent(tree: Tree, output: Output, p: Path)
    requires WellFormed(tree) && IsParent(output.mappings, p)
    requires forall i :: 0 <= i < |output.mappings| ==> output.mappings[i].local in tree
    requires forall q :: q in tree ==> Allowed(tree, output, q)
    ensures p in tree && tree[p] == Dir(output.mode)
  {
    var i :| 0 <= i < |output.mappings| && p < output.mappings[i].local;
    AncestorsAreDirectories(tree, output.mappings[i].local, |p|);
    assert output.mappings[i].local[..|p|] == p;
    assert Allowed(tree, output, p);
  }

  lemma AllowedPlace(tree: Tree, output: Output, p: Path)
    requires p in tree && Allowed(tree, output, p)
    ensures p == [] || p == MARKER || IsLocal(output.mappings, p) || IsParent(output.mappings, p)
  {
  }

  lemma WalkDecides(tree: Tree, material: Material, output: Output)
    requires WellFormed(tree) && Clean(output) && Distinct(output.mappings) && NonZero(output.mappings)
    requires MARKER in tree && tree[MARKER].File? && tree[MARKER].mode == PRIVATE && TrimSpace(tree[MARKER].data) == material.digest
    requires forall i {:trigger output.mappings[i]} :: 0 <= i < |output.mappings| ==>
      output.mappings[i].local in tree && tree[output.mappings[i].local] == Filed(material, output.mappings[i], 0)
    requires [] in tree && forall p :: p in tree ==> Allowed(tree, output, p)
    ensures Matches(tree, material, output)
  {
    ClearsNone(PRIVATE);
    ClearsNone(output.mode);
    forall p | IsParent(output.mappings, p) ensures p in tree && tree[p] == Dir(output.mode & !0) {
      ParentsPresent(tree, output, p);
    }
    forall p ensures p in tree <==> p == [] || p == MARKER || IsLocal(output.mappings, p) || IsParent(output.mappings, p) {
      if p in tree { AllowedPlace(tree, output, p); }
    }
    assert Allowed(tree, output, []);
  }

  lemma MatchesAllows(tree: Tree, material: Material, output: Output, p: Path)
    requires Matches(tree, material, output) && Clean(output) && p in tree
    ensures Allowed(tree, output, p)
  {
    if p != [] && p != MARKER && !IsParent(output.mappings, p) {
      assert IsLocal(output.mappings, p);
      var i :| 0 <= i < |output.mappings| && output.mappings[i].local == p;
    }
  }

  // The walk over every entry of the release directory.
  method Walk(tree: Tree, output: Output, expected: map<Path, Perm>, expectedDirs: set<Path>) returns (ok: bool, seen: set<Path>)
    requires forall p :: p in expected <==> p == MARKER || IsLocal(output.mappings, p)
    requires forall p :: p in expectedDirs <==> IsParent(output.mappings, p)
    ensures ok <==> [] in tree && forall p :: p in tree ==> Allowed(tree, output, p)
    ensures ok ==> seen <= expected.Keys && forall p :: p in seen <==> p in tree && p != [] && !tree[p].Dir?
  {
    seen := {};
    if [] !in tree { return false, {}; }
    var rest := tree.Keys;
    while rest != {}
      invariant rest <= tree.Keys && seen <= expected.Keys
      invariant forall p :: p in tree && p !in rest ==> Allowed(tree, output, p)
      invariant forall p :: p in seen <==> p in tree && p !in rest && p != [] && !tree[p].Dir?
      decreases rest
    {
      var p :| p in rest;
      if p == [] {
        if tree[p] != Dir(output.mode) { return false, {}; }
      } else if tree[p].Dir? {
        if tree[p].mode != output.mode || p !in expectedDirs { return false, {}; }
      } else {
        if p !in expected { return false, {}; }
        seen := seen + {p};
      }
      rest := rest - {p};
    }
    ok := true;
  }

  // The loop over the mappings: every one is distinct, has a mode, and holds the right file if it lies in the tree.
  ghost predicate MappingsPass(tree: Tree, material: Material, mappings: seq<Mapping>) {
    Distinct(mappings) && NonZero(mappings) &&
    forall j :: 0 <= j < |mappings| ==> Checked(tree, material, mappings[j])
  }

  method CheckMappings(tree: Tree, beyond: Path -> Option<Node>, material: Material, output: Output)
    returns (ok: bool, expected: map<Path, Perm>, expectedDirs: set<Path>)
    requires Clean(output)
    ensures ok ==> MappingsPass(tree, material, output.mappings)
    ensures !ok ==> !Matches(tree, material, output)
    ensures ok ==> forall p :: p in expected <==> p == MARKER || IsLocal(output.mappings, p)
    ensures ok ==> forall p :: p in expectedDirs <==> IsParent(output.mappings, p)
  {
    var mappings := output.mappings;
    expected, expectedDirs := map[MARKER := PRIVATE], {};
    for i := 0 to |mappings|
      invariant forall p :: p in expected <==> p == MARKER || IsLocal(mappings[..i], p)
      invariant forall p :: p in expectedDirs <==> IsParent(mappings[..i], p)
      invariant MappingsPass(tree, material, mappings[..i])
    {
      var mapping := mappings[i];
      if mapping.local in expected || mapping.mode == 0 {
        RefusedMapping(mappings, i);
        return false, expected, expectedDirs;
      }
      expected := expected[mapping.local := mapping.mode];
      expectedDirs := AddParents(expectedDirs, mapping.local);
      var node := Lookup(tree, beyond, mapping.local);
      if node != Some(Filed(material, mapping, 0)) {
        return false, expected, expectedDirs;
      }
      OneMore(mappings, i);
      OnePasses(tree, material, mappings, i);
    }
    assert mappings[..|mappings|] == mappings;
    ok := true;
  }

  lemma OnePasses(tree: Tree, material: Material, mappings: seq<Mapping>, i: nat)
    requires i < |mappings| && MappingsPass(tree, material, mappings[..i]) && mappings[i].mode != 0
    requires Distinct(mappings[..i + 1]) && Checked(tree, material, mappings[i])
    ensures MappingsPass(tree, material, mappings[..i + 1])
  {
    assert mappings[..i + 1] == mappings[..i] + [mappings[i]];
  }

  /** verifyRelease accepts exactly the trees that match. */
  method VerifyRelease(tree: Tree, beyond: Path -> Option<Node>, material: Material, output: Output) returns (ok: bool)
    requires WellFormed(tree) && Clean(output)
    ensures ok <==> Matches(tree, material, output)
    ensures ok <==> RightRelease(tree, material, output)
  {
    MatchesIsRight(tree, material, output);
    ClearsNone(PRIVATE);
    var marker := Lookup(tree, beyond, MARKER);
    if marker.None? || !marker.value.File? { return false; }
    var digest := Trim(marker.value.data);
    if digest != material.digest || marker.value.mode != PRIVATE { return false; }
    var checked, expected, expectedDirs := CheckMappings(tree, beyond, material, output);
    if !checked { return false; }
    var walked, seen := Walk(tree, output, expected, expectedDirs);
    if !walked {
      WalkRefuses(tree, material, output);
      return false;
    }
    Counted(tree, material, output, expected.Keys, seen);
    ok := |seen| == |expected|;
  }

  lemma WalkRefuses(tree: Tree, material: Material, output: Output)
    requires Clean(output) && !([] in tree && forall p :: p in tree ==> Allowed(tree, output, p))
    ensures !Matches(tree, material, output)
  {
    if Matches(tree, material, output) {
      forall p | p in tree ensures Allowed(tree, output, p) { MatchesAllows(tree, material, output, p); }
    }
  }

  lemma RefusedMapping(mappings: seq<Mapping>, i: nat)
    requires i < |mappings|
    requires mappings[i].local == MARKER || IsLocal(mappings[..i], mappings[i].local) || mappings[i].mode == 0
    ensures !(Distinct(mappings) && NonZero(mappings))
  {
    if IsLocal(mappings[..i], mappings[i].local) {
      var j :| 0 <= j < i && mappings[..i][j].local == mappings[i].local;
    }
  }

  lemma LocalAppend(mappings: seq<Mapping>, m: Mapping, p: Path)
    ensures IsLocal(mappings + [m], p) <==> IsLocal(mappings, p) || p == m.local
  {
    var more := mappings + [m];
    assert more[|mappings|] == m;
    if IsLocal(mappings, p) {
      var j :| 0 <= j < |mappings| && mappings[j].local == p;
      assert more[j].local == p;
    }
  }

  lemma ParentAppend(mappings: seq<Mapping>, m: Mapping, p: Path)
    ensures IsParent(mappings + [m], p) <==> IsParent(mappings, p) || (p != [] && p < m.local)
  {
    var more := mappings + [m];
    assert more[|mappings|] == m;
    if IsParent(mappings, p) {
      var j :| 0 <= j < |mappings| && p < mappings[j].local;
      assert p < more[j].local;
    }
  }

  lemma OneMore(mappings: seq<Mapping>, i: nat)
    requires i < |mappings|
    ensures mappings[..i + 1] == mappings[..i] + [mappings[i]]
    ensures forall p :: IsLocal(mappings[..i + 1], p) <==> IsLocal(mappings[..i], p) || p == mappings[i].local
    ensures forall p :: IsParent(mappings[..i + 1], p) <==> IsParent(mappings[..i], p) || (p != [] && p < mappings[i].local)
    ensures Distinct(mappings[..i]) && !IsLocal(mappings[..i], mappings[i].local) && mappings[i].local != MARKER ==>
      Distinct(mappings[..i + 1])
  {
    var fewer := mappings[..i];
    assert mappings[..i + 1] == fewer + [mappings[i]];
    forall p ensures IsLocal(mappings[..i + 1], p) <==> IsLocal(fewer, p) || p == mappings[i].local {
      LocalAppend(fewer, mappings[i], p);
    }
    forall p ensures IsParent(mappings[..i + 1], p) <==> IsParent(fewer, p) || (p != [] && p < mappings[i].local) {
      ParentAppend(fewer, mappings[i], p);
    }
    DistinctAppend(fewer, mappings[i]);
  }

  lemma DistinctAppend(mappings: seq<Mapping>, m: Mapping)
    ensures Distinct(mappings) && !IsLocal(mappings, m.local) && m.local != MARKER ==> Distinct(mappings + [m])
  {
    if !IsLocal(mappings, m.local) {
      assert forall j :: 0 <= j < |mappings| ==> mappings[j].local != m.local;
    }
  }

  // Entries seen within those expected, and as many, are those expected.
  lemma Counted(tree: Tree, material: Material, output: Output, expected: set<Path>, seen: set<Path>)
    requires WellFormed(tree) && Clean(output)
    requires forall p :: p in expected <==> p == MARKER || IsLocal(output.mappings, p)
    requires [] in tree && forall p :: p in tree ==> Allowed(tree, output, p)
    requires seen <= expected && forall p :: p in seen <==> p in tree && p != [] && !tree[p].Dir?
    requires MARKER in tree ==> tree[MARKER].File? && tree[MARKER].mode == PRIVATE && TrimSpace(tree[MARKER].data) == material.digest
    requires MappingsPass(tree, material, output.mappings)
    ensures |seen| == |expected| <==> Matches(tree, material, output)
  {
    if |seen| == |expected| {
      SameSizeSubset(seen, expected);
      forall i {:trigger output.mappings[i]} | 0 <= i < |output.mappings| 
        ensures output.mappings[i].local in tree && tree[output.mappings[i].local] == Filed(material, output.mappings[i], 0)
      {
        assert IsLocal(output.mappings, output.mappings[i].local) && Checked(tree, material, output.mappings[i]);
      }
      assert MARKER in expected;
      WalkDecides(tree, material, output);
    }
    if Matches(tree, material, output) {
      forall p | p in expected ensures p in seen {
        if p != MARKER {
          var i :| 0 <= i < |output.mappings| && output.mappings[i].local == p;
          assert tree[p] == Filed(material, output.mappings[i], 0);
        }
      }
      assert seen == expected;
    }
  }

  // ---- a freshly built release ----

  lemma ExactBuildIsRight(tree: Tree, material: Material, output: Output, umask: Perm)
    requires Exact(tree, material, output, umask) && Buildable(material, output)
    requires tree[MARKER] == File(material.digest + "\n", PRIVATE & !umask)
    ensures RightBuild(tree, material, output, umask)
  {
    ExactFiles(tree, material, output, umask);
    ExactPlaces(tree, material, output, umask);
  }

  // No mapped path repeats another or lies below it.
  ghost predicate Clear(mappings: seq<Mapping>) {
    (forall i, j :: 0 <= i < j < |mappings| ==> mappings[i].local != mappings[j].local) &&
    forall i :: 0 <= i < |mappings| ==> !IsParent(mappings, mappings[i].local)
  }

  // The mapped files exist and their paths do not get in one another's way, nor in the marker's.
  ghost predicate Buildable(material: Material, output: Output) {
    (forall i :: 0 <= i < |output.mappings| ==> output.mappings[i].remote in material.files) &&
    Clear(output.mappings) && !IsLocal(output.mappings, MARKER) && !IsParent(output.mappings, MARKER)
  }

  // A release under construction: the first mappings have been written.
  ghost predicate Partial(tree: Tree, material: Material, mappings: seq<Mapping>, mode: Perm, umask: Perm) {
    (forall p :: p in tree <==> p == [] || IsLocal(mappings, p) || IsParent(mappings, p)) &&
    tree[[]] == Dir(mode) &&
    (forall i {:trigger mappings[i]} :: 0 <= i < |mappings| ==> tree[mappings[i].local] == Filed(material, mappings[i], umask)) &&
    forall p :: IsParent(mappings, p) ==> tree[p] == Dir(mode & !umask)
  }

  // A file can be created at a path: nothing is there, and only directories are above it.
  ghost predicate CanWrite(tree: Tree, path: Path) {
    path !in tree && forall p :: p in tree && p < path ==> tree[p].Dir?
  }

  // A file written with the directories above it that were missing.
  ghost predicate Written(tree: Tree, path: Path, node: Node, dir: Node, after: Tree) {
    (forall p :: p in after <==> p in tree || p == path || (p != [] && p < path)) &&
    after[path] == node &&
    (forall p :: p in tree && p != path ==> after[p] == tree[p]) &&
    forall p :: p != [] && p < path && p !in tree ==> after[p] == dir
  }

  lemma WrittenClear(tree: Tree, material: Material, mappings: seq<Mapping>, m: Mapping, mode: Perm, umask: Perm)
    requires Clear(mappings) && m.local != []
    requires Partial(tree, material, mappings, mode, umask) && CanWrite(tree, m.local)
    ensures Clear(mappings + [m])
  {
    var more := mappings + [m];
    forall j | 0 <= j < |mappings| ensures mappings[j].local != m.local && !(mappings[j].local < m.local) {
      assert IsLocal(mappings, mappings[j].local);
      assert tree[mappings[j].local] == Filed(material, mappings[j], umask);
    }
    forall j | 0 <= j < |more| ensures !IsParent(more, more[j].local) {
      ParentAppend(mappings, m, more[j].local);
    }
  }

  lemma WrittenOneMore(tree: Tree, material: Material, mappings: seq<Mapping>, m: Mapping, mode: Perm, umask: Perm, after: Tree)
    requires Partial(tree, material, mappings, mode, umask) && CanWrite(tree, m.local) && m.local != []
    requires Written(tree, m.local, Filed(material, m, umask), Dir(mode & !umask), after)
    ensures Partial(after, material, mappings + [m], mode, umask)
  {
    var more := mappings + [m];
    forall p ensures p in after <==> p == [] || IsLocal(more, p) || IsParent(more, p) {
      LocalAppend(mappings, m, p);
      ParentAppend(mappings, m, p);
    }
    forall j {:trigger more[j]} | 0 <= j < |more| ensures after[more[j].local] == Filed(material, more[j], umask) {
      if j < |mappings| { assert more[j] == mappings[j] && IsLocal(mappings, mappings[j].local); }
    }
    forall p | IsParent(more, p) ensures after[p] == Dir(mode & !umask) {
      ParentAppend(mappings, m, p);
      if p in tree && !IsParent(mappings, p) { LocalIsFile(tree, material, mappings, mode, umask, p); }
    }
  }

  lemma LocalIsFile(tree: Tree, material: Material, mappings: seq<Mapping>, mode: Perm, umask: Perm, p: Path)
    requires Partial(tree, material, mappings, mode, umask)
    ensures IsLocal(mappings, p) ==> tree[p].File?
  {
  }

  lemma FileAbove(tree: Tree, material: Material, mappings: seq<Mapping>, i: nat, mode: Perm, umask: Perm)
    requires i < |mappings| && Partial(tree, material, mappings[..i], mode, umask)
    requires exists p :: p in tree && p < mappings[i].local && !tree[p].Dir?
    ensures !Clear(mappings)
  {
    var p :| p in tree && p < mappings[i].local && !tree[p].Dir?;
    assert IsLocal(mappings[..i], p);
    var j :| 0 <= j < i && mappings[..i][j].local == p;
    assert mappings[j].local == p && IsParent(mappings, p);
  }

  // A path that cannot be written repeats a mapped path or gets in its way.
  lemma BlockedNotClear(tree: Tree, material: Material, mappings: seq<Mapping>, i: nat, mode: Perm, umask: Perm)
    requires i < |mappings| && mappings[i].local != [] && Partial(tree, material, mappings[..i], mode, umask)
    requires !CanWrite(tree, mappings[i].local)
    ensures !Clear(mappings)
  {
    var fewer, path := mappings[..i], mappings[i].local;
    if IsLocal(fewer, path) {
      var j :| 0 <= j < |fewer| && fewer[j].local == path;
      assert mappings[j].local == mappings[i].local;
    } else if IsParent(fewer, path) {
      var j :| 0 <= j < |fewer| && path < fewer[j].local;
      assert path < mappings[j].local;
      assert IsParent(mappings, path);
    } else {
      FileAbove(tree, material, mappings, i, mode, umask);
    }
  }

  // The marker comes last.
  lemma MarkerCompletes(tree: Tree, material: Material, output: Output, umask: Perm, after: Tree)
    requires Partial(tree, material, output.mappings, output.mode, umask) && CanWrite(tree, MARKER)
    requires Written(tree, MARKER, File(material.digest + "\n", PRIVATE & !umask), Dir(output.mode & !umask), after)
    requires Hex(material.digest)
    ensures Exact(after, material, output, umask) && after[MARKER] == File(material.digest + "\n", PRIVATE & !umask)
    ensures !IsLocal(output.mappings, MARKER) && !IsParent(output.mappings, MARKER)
  {
    HexLineTrims(material.digest);
    assert forall i :: 0 <= i < |output.mappings| ==> IsLocal(output.mappings, output.mappings[i].local);
  }

  predicate Hex(digest: string) {
    |digest| == 64 && forall i :: 0 <= i < |digest| ==> '0' <= digest[i] <= '9' || 'a' <= digest[i] <= 'f'
  }

  lemma HexLineTrims(digest: string)
    requires Hex(digest)
    ensures TrimSpace(digest + "\n") == digest && '/' !in digest && '\\' !in digest
  {
    var line := digest + "\n";
    assert line[0] == digest[0] && line[63] == digest[63];
    assert TrimBounds(line, 0, 64);
    TrimSpaceIs(line, 0, 64);
    assert line[0..64] == digest;
  }

  // The process umask clears no bit of a mode the release uses.
  ghost predicate KeepsModes(output: Output, umask: Perm) {
    PRIVATE & !umask == PRIVATE &&
    (forall i :: 0 <= i < |output.mappings| ==> output.mappings[i].mode & !umask == output.mappings[i].mode) &&
    ((exists p :: IsParent(output.mappings, p)) ==> output.mode & !umask == output.mode)
  }

  /** A freshly built release is accepted exactly when the umask cleared nothing and no mode is zero. */
  lemma FreshReleaseVerifies(tree: Tree, material: Material, output: Output, umask: Perm)
    requires Buildable(material, output) && Exact(tree, material, output, umask)
    ensures Matches(tree, material, output) <==> KeepsModes(output, umask) && NonZero(output.mappings)
  {
    FileModes(tree, material, output, umask);
    DirectoryModes(tree, material, output, umask);
  }

  lemma ClearsNone(mode: Perm)
    ensures mode & !0 == mode
  {
  }

  lemma FileModes(tree: Tree, material: Material, output: Output, umask: Perm)
    requires Exact(tree, material, output, umask)
    ensures Exact(tree, material, output, 0) ==>
      forall i :: 0 <= i < |output.mappings| ==> output.mappings[i].mode & !umask == output.mappings[i].mode
    ensures (forall i :: 0 <= i < |output.mappings| ==> output.mappings[i].mode & !umask == output.mappings[i].mode) ==>
      forall i {:trigger output.mappings[i]} :: 0 <= i < |output.mappings| ==>
        tree[output.mappings[i].local] == Filed(material, output.mappings[i], 0)
  {
    forall i {:trigger output.mappings[i]} | 0 <= i < |output.mappings| ensures output.mappings[i].mode & !0 == output.mappings[i].mode {
      ClearsNone(output.mappings[i].mode);
    }
  }

  lemma DirectoryModes(tree: Tree, material: Material, output: Output, umask: Perm)
    requires Exact(tree, material, output, umask)
    ensures Exact(tree, material, output, 0) ==>
      PRIVATE & !umask == PRIVATE && ((exists p :: IsParent(output.mappings, p)) ==> output.mode & !umask == output.mode)
    ensures ((exists p :: IsParent(output.mappings, p)) ==> output.mode & !umask == output.mode) ==>
      forall p :: IsParent(output.mappings, p) ==> tree[p] == Dir(output.mode & !0)
    ensures PRIVATE & !umask == PRIVATE ==> tree[MARKER].mode == PRIVATE & !0
  {
    ClearsNone(output.mode);
    ClearsNone(PRIVATE);
  }
}
