/** The etcd keys of one namespace: prefix normalisation, printing and parsing. */
module Keyspace {
  import opened Wrappers
  import opened Text
  import opened Etcd

  // strings.Split(s, "/")
  function Split(s: string): (parts: seq<string>)
    ensures parts != []
  {
    if s == "" then [""] else
      Extend(Split(s[..|s| - 1]), s[|s| - 1])
  }

  function Extend(parts: seq<string>, c: char): (longer: seq<string>)
    requires parts != []
    ensures longer != []
  {
    if c == '/' then parts + [""] else parts[..|parts| - 1] + [parts[|parts| - 1] + [c]]
  }

  // A slash in front of every component.
  function Slashed(parts: seq<string>): string {
    if parts == [] then "" else Slashed(parts[..|parts| - 1]) + "/" + parts[|parts| - 1]
  }

  // A rooted path by its components.
  function Rooted(parts: seq<string>): string {
    if parts == [] then "/" else Slashed(parts)
  }

  // The components that path.Clean leaves of a rooted path.
  function CleanParts(parts: seq<string>): seq<string> {
    if parts == [] then [] else
      var rest, part := CleanParts(parts[..|parts| - 1]), parts[|parts| - 1];
      if part == "" || part == "." then rest
      else if part == ".." then (if rest == [] then [] else rest[..|rest| - 1])
      else rest + [part]
  }

  // path.Clean of a rooted path.
  function Clean(s: string): string {
    Rooted(CleanParts(Split(s)))
  }

  // path.Join of a rooted prefix and one more rooted path.
  function Join(prefix: string, below: string): string {
    Clean(prefix + "/" + below)
  }

  predicate NoSlash(part: string) { '/' !in part }
  predicate SafePart(part: string) { part != "" && part != "." && part != ".." && '/' !in part && '\\' !in part }
  predicate SafeParts(parts: seq<string>) { forall i :: 0 <= i < |parts| ==> SafePart(parts[i]) }

  datatype Keys = Keys(prefix: string)

  ghost function NewKeys(prefix: string): Option<Keys> {
    var trimmed := TrimSpace(prefix);
    if trimmed == "" || trimmed[0] != '/' || "." in Split(trimmed) || ".." in Split(trimmed) then None else
      var clean := Clean(trimmed);
      if clean != "/" && !SafeParts(Split(clean[1..])) then None else Some(Keys(clean))
  }

  function VersionBelow(version: Version): string {
    match version case V4 => "/v4" case V5 => "/v5" case V6 => "/v6"
  }

  function Root(keys: Keys, version: Version): string {
    Join(keys.prefix, VersionBelow(version))
  }

  function ActivePrefix(keys: Keys, version: Version): string { Root(keys, version) + "/active/" }
  function BundlePrefix(keys: Keys, version: Version): string { Root(keys, version) + "/bundles/" }

  function Print(keys: Keys, key: Key): string {
    match key
    case Active(version, target) => ActivePrefix(keys, version) + target
    case Bundle(version, target, generation) => BundlePrefix(keys, version) + target + "/" + generation
  }

  // strings.Cut(s, "/")
  function Cut(s: string): Option<(string, string)> {
    if s == "" then None
    else if s[0] == '/' then Some(("", s[1..]))
    else
      var rest := Cut(s[1..]);
      if rest.None? then None else Some(([s[0]] + rest.value.0, rest.value.1))
  }

  function TrimPrefix(s: string, prefix: string): string {
    if prefix <= s then s[|prefix|..] else s
  }

  // How ListBundleRecords reads a key found below the bundle prefix.
  function ParseBundle(keys: Keys, s: string): Option<Key> {
    var cut := Cut(TrimPrefix(s, BundlePrefix(keys, V6)));
    if cut.Some? && SafeName(cut.value.0) && SafeName(cut.value.1) then Some(Bundle(V6, cut.value.0, cut.value.1)) else None
  }

  // How a snapshot or a watch event reads a key found below an active prefix.
  function ParseActive(keys: Keys, version: Version, s: string): Option<Key> {
    var target := TrimPrefix(s, ActivePrefix(keys, version));
    if SafeName(target) then Some(Active(version, target)) else None
  }

  // ---- components and strings ----

  ghost predicate NoSlashes(parts: seq<string>) { forall i :: 0 <= i < |parts| ==> NoSlash(parts[i]) }

  lemma {:induction false} SplitPlain(s: string)
    requires NoSlash(s)
    ensures Split(s) == [s]
  {
    if s != "" {
      SplitPlain(s[..|s| - 1]);
      assert s[..|s| - 1] + [s[|s| - 1]] == s;
    }
  }

  lemma ExtendAppend(a: seq<string>, b: seq<string>, c: char)
    requires b != []
    ensures Extend(a + b, c) == a + Extend(b, c)
  {
    assert (a + b)[..|a + b| - 1] == a + b[..|b| - 1];
  }

  lemma SplitLast(s: string, c: char, longer: string)
    requires longer == s + [c]
    ensures Split(longer) == Extend(Split(s), c)
  {
    assert longer[..|longer| - 1] == s && longer[|longer| - 1] == c;
  }

  // Split takes strings joined by a slash apart.
  lemma {:induction false} SplitConcat(a: string, b: string)
    ensures Split(a + "/" + b) == Split(a) + Split(b)
    decreases |b|
  {
    if b == "" {
      SplitLast(a, '/', a + "/" + b);
      assert Split(a) + Split("") == Extend(Split(a), '/');
    } else {
      var b', c := b[..|b| - 1], b[|b| - 1];
      assert b == b' + [c] && a + "/" + b == a + "/" + b' + [c];
      SplitConcat(a, b');
      SplitLast(a + "/" + b', c, a + "/" + b);
      SplitLast(b', c, b);
      ExtendAppend(Split(a), Split(b'), c);
    }
  }

  lemma {:induction false} SplitSlashed(parts: seq<string>)
    requires NoSlashes(parts)
    ensures Split(Slashed(parts)) == [""] + parts
  {
    if parts != [] {
      var before, last := parts[..|parts| - 1], parts[|parts| - 1];
      SplitSlashed(before);
      SplitConcat(Slashed(before), last);
      SplitPlain(last);
      assert [""] + before + [last] == [""] + (before + [last]) && parts == before + [last];
    }
  }

  lemma {:induction false} SlashedAppend(a: seq<string>, b: seq<string>)
    ensures Slashed(a + b) == Slashed(a) + Slashed(b)
    decreases |b|
  {
    if b == [] {
      assert a + b == a;
    } else {
      var n := |b| - 1;
      assert (a + b)[..|a + b| - 1] == a + b[..n] && (a + b)[|a + b| - 1] == b[n];
      SlashedAppend(a, b[..n]);
    }
  }

  // Printing components without slashes is injective.
  lemma SlashedInjective(a: seq<string>, b: seq<string>)
    requires NoSlashes(a) && NoSlashes(b)
    ensures Slashed(a) == Slashed(b) ==> a == b
  {
    SplitSlashed(a);
    SplitSlashed(b);
    if Slashed(a) == Slashed(b) {
      assert ([""] + a)[1..] == a && ([""] + b)[1..] == b;
    }
  }

  // One printed path with a slash begins another exactly when its components begin the other's.
  lemma {:induction false} SlashedPrefix(a: seq<string>, b: seq<string>)
    requires NoSlashes(a) && NoSlashes(b)
    ensures Slashed(a) + "/" <= Slashed(b) <==> a < b
    decreases |b|
  {
    if a < b {
      var rest := b[|a| + 1..];
      assert b == (a + [b[|a|]]) + rest;
      SlashedAppend(a + [b[|a|]], rest);
      assert (a + [b[|a|]])[..|a|] == a;
      assert Slashed(b) == (Slashed(a) + "/") + (b[|a|] + Slashed(rest));
    }
    if Slashed(a) + "/" <= Slashed(b) && b != [] {
      var before, last := b[..|b| - 1], b[|b| - 1];
      SlashedPrefix(a, before);
      SlashAt(Slashed(a), Slashed(before), last);
      if Slashed(a) == Slashed(before) { SlashedInjective(a, before); }
    }
  }

  lemma AfterSlash(before: string, last: string)
    ensures forall k :: |before| < k < |before + "/" + last| ==> (before + "/" + last)[k] in last
  {
  }

  lemma SlashAt(a: string, before: string, last: string)
    requires NoSlash(last) && a + "/" <= before + "/" + last
    ensures a == before || a + "/" <= before
  {
    var whole, n := before + "/" + last, |a|;
    assert whole[n] == (a + "/")[n] == '/';
    AfterSlash(before, last);
    assert whole[..n] == (a + "/")[..n] == a;
    if n < |before| { assert whole[..n + 1] == a + "/"; assert before[..n + 1] == whole[..n + 1]; }
  }

  // ---- normalisation ----

  // Components a cleaned path drops or keeps as they are.
  ghost predicate Undotted(parts: seq<string>) {
    forall i :: 0 <= i < |parts| ==> parts[i] != "." && parts[i] != ".."
  }

  function NonEmpty(parts: seq<string>): seq<string> {
    if parts == [] then [] else NonEmpty(parts[..|parts| - 1]) + if parts[|parts| - 1] == "" then [] else [parts[|parts| - 1]]
  }

  lemma {:induction false} CleanUndotted(parts: seq<string>)
    requires Undotted(parts)
    ensures CleanParts(parts) == NonEmpty(parts)
  {
    if parts != [] { CleanUndotted(parts[..|parts| - 1]); }
  }

  lemma {:induction false} NonEmptyAppend(a: seq<string>, b: seq<string>)
    ensures NonEmpty(a + b) == NonEmpty(a) + NonEmpty(b)
    decreases |b|
  {
    if b == [] {
      assert a + b == a;
    } else {
      var n := |b| - 1;
      assert (a + b)[..|a + b| - 1] == a + b[..n] && (a + b)[|a + b| - 1] == b[n];
      NonEmptyAppend(a, b[..n]);
    }
  }

  // A path without dots, by the components that cleaning leaves.
  ghost predicate Decomposes(s: string, parts: seq<string>) {
    Undotted(Split(s)) && NonEmpty(Split(s)) == parts
  }

  lemma CleanIs(s: string, parts: seq<string>)
    requires Decomposes(s, parts)
    ensures Clean(s) == Rooted(parts)
  {
    CleanUndotted(Split(s));
  }

  lemma ConcatDecomposes(a: string, partsA: seq<string>, b: string, partsB: seq<string>)
    requires Decomposes(a, partsA) && Decomposes(b, partsB)
    ensures Decomposes(a + "/" + b, partsA + partsB)
  {
    SplitConcat(a, b);
    NonEmptyAppend(Split(a), Split(b));
  }

  lemma PartDecomposes(part: string)
    requires part == "" || SafePart(part)
    ensures Decomposes(part, if part == "" then [] else [part])
  {
    SplitPlain(part);
    assert [part][..0] == [];
  }

  lemma {:induction false} SlashedDecomposes(parts: seq<string>)
    requires SafeParts(parts)
    ensures Decomposes(Slashed(parts), parts)
  {
    if parts == [] {
      PartDecomposes("");
    } else {
      var n := |parts| - 1;
      SlashedDecomposes(parts[..n]);
      PartDecomposes(parts[n]);
      ConcatDecomposes(Slashed(parts[..n]), parts[..n], parts[n], [parts[n]]);
      assert parts[..n] + [parts[n]] == parts;
    }
  }

  lemma RootedDecomposes(parts: seq<string>)
    requires SafeParts(parts)
    ensures Decomposes(Rooted(parts), parts)
  {
    if parts == [] {
      PartDecomposes("");
      ConcatDecomposes("", [], "", []);
      assert "" + "/" + "" == "/";
    } else {
      SlashedDecomposes(parts);
    }
  }

  lemma JoinIs(parts: seq<string>, part: string, below: string)
    requires SafeParts(parts) && SafePart(part) && below == "/" + part
    ensures Join(Rooted(parts), below) == Slashed(parts + [part])
  {
    PartDecomposes("");
    PartDecomposes(part);
    ConcatDecomposes("", [], part, [part]);
    assert "" + "/" + part == below && [] + [part] == [part];
    RootedDecomposes(parts);
    ConcatDecomposes(Rooted(parts), parts, below, [part]);
    CleanIs(Rooted(parts) + "/" + below, parts + [part]);
  }

  /** Joining a protocol root to a namespace adds one component, also below the root namespace "/". */
  lemma RootIs(parts: seq<string>, version: Version)
    requires SafeParts(parts)
    ensures Root(Keys(Rooted(parts)), version) == Slashed(parts + [VersionPart(version)])
  {
    JoinIs(parts, VersionPart(version), VersionBelow(version));
  }

  function VersionPart(version: Version): string {
    match version case V4 => "v4" case V5 => "v5" case V6 => "v6"
  }

  // ---- keys ----

  ghost predicate Namespace(keys: Keys, parts: seq<string>) {
    SafeParts(parts) && keys.prefix == Rooted(parts)
  }

  predicate SafeKey(key: Key) {
    SafeName(key.target) && (key.Bundle? ==> SafeName(key.generation))
  }

  function KeyTail(key: Key): seq<string> {
    match key
    case Active(version, target) => [VersionPart(version), "active", target]
    case Bundle(version, target, generation) => [VersionPart(version), "bundles", target, generation]
  }

  lemma SlashedNext(parts: seq<string>, part: string)
    ensures Slashed(parts + [part]) == Slashed(parts) + "/" + part
  {
    assert (parts + [part])[..|parts|] == parts;
  }

  lemma PrefixIs(keys: Keys, parts: seq<string>, version: Version, kind: string)
    requires Namespace(keys, parts)
    ensures Root(keys, version) + "/" + kind + "/" == Slashed(parts + [VersionPart(version), kind]) + "/"
  {
    RootIs(parts, version);
    SlashedNext(parts + [VersionPart(version)], kind);
    assert parts + [VersionPart(version)] + [kind] == parts + [VersionPart(version), kind];
  }

  lemma PrefixesAre(keys: Keys, parts: seq<string>, version: Version)
    requires Namespace(keys, parts)
    ensures ActivePrefix(keys, version) == Slashed(parts + [VersionPart(version), "active"]) + "/"
    ensures BundlePrefix(keys, version) == Slashed(parts + [VersionPart(version), "bundles"]) + "/"
  {
    PrefixIs(keys, parts, version, "active");
    PrefixIs(keys, parts, version, "bundles");
    KindPrefix(Root(keys, version), "active", "/active/");
    KindPrefix(Root(keys, version), "bundles", "/bundles/");
  }

  lemma KindPrefix(root: string, kind: string, below: string)
    requires below == "/" + kind + "/"
    ensures root + below == root + "/" + kind + "/"
  {
  }

  lemma PrintIs(keys: Keys, parts: seq<string>, key: Key)
    requires Namespace(keys, parts)
    ensures Print(keys, key) == Slashed(parts + KeyTail(key))
  {
    PrefixesAre(keys, parts, key.version);
    match key
    case Active(version, target) =>
      SlashedNext(parts + [VersionPart(version), "active"], target);
      assert parts + [VersionPart(version), "active"] + [target] == parts + KeyTail(key);
    case Bundle(version, target, generation) =>
      BundleTail(parts, VersionPart(version), target, generation);
  }

  lemma BundleTail(parts: seq<string>, version: string, target: string, generation: string)
    ensures Slashed(parts + [version, "bundles"]) + "/" + target + "/" + generation ==
      Slashed(parts + [version, "bundles", target, generation])
  {
    var front := parts + [version, "bundles"];
    SlashedNext(front, target);
    SlashedNext(front + [target], generation);
    assert front + [target] + [generation] == parts + [version, "bundles", target, generation];
  }

  lemma PartsAreSlashless(parts: seq<string>, key: Key)
    requires SafeParts(parts) && SafeKey(key)
    ensures NoSlashes(parts + KeyTail(key))
  {
    SafeNameIsTrimmed(key.target);
    if key.Bundle? { SafeNameIsTrimmed(key.generation); }
  }

  /** Keys with safe names print injectively: no active key is a bundle key, and no two protocol versions meet. */
  lemma PrintInjective(keys: Keys, parts: seq<string>, a: Key, b: Key)
    requires Namespace(keys, parts) && SafeKey(a) && SafeKey(b)
    ensures Print(keys, a) == Print(keys, b) ==> a == b
  {
    PrintIs(keys, parts, a);
    PrintIs(keys, parts, b);
    PartsAreSlashless(parts, a);
    PartsAreSlashless(parts, b);
    SlashedInjective(parts + KeyTail(a), parts + KeyTail(b));
    if Print(keys, a) == Print(keys, b) {
      assert (parts + KeyTail(a))[|parts|..] == KeyTail(a) && (parts + KeyTail(b))[|parts|..] == KeyTail(b);
      TailInjective(a, b);
    }
  }

  lemma TailInjective(a: Key, b: Key)
    requires KeyTail(a) == KeyTail(b)
    ensures a == b
  {
    assert KeyTail(a)[0] == KeyTail(b)[0] && KeyTail(a)[2] == KeyTail(b)[2];
    assert a.Bundle? && b.Bundle? ==> KeyTail(a)[3] == KeyTail(b)[3];
  }

  lemma {:induction false} CutIs(a: string, b: string)
    requires NoSlash(a)
    ensures Cut(a + "/" + b) == Some((a, b))
  {
    var s := a + "/" + b;
    if a == "" {
      assert s[1..] == b;
    } else {
      assert s[1..] == a[1..] + "/" + b;
      CutIs(a[1..], b);
      assert [a[0]] + a[1..] == a;
    }
  }

  lemma {:induction false} CutInverse(s: string)
    requires Cut(s).Some?
    ensures s == Cut(s).value.0 + "/" + Cut(s).value.1
  {
    if s[0] != '/' {
      CutInverse(s[1..]);
      assert s == [s[0]] + s[1..];
    } else {
      assert s == "/" + s[1..];
    }
  }

  lemma CutOnly(s: string, a: string, b: string)
    requires NoSlash(a)
    ensures Cut(s) == Some((a, b)) <==> s == a + "/" + b
  {
    if Cut(s) == Some((a, b)) { CutInverse(s); }
    if s == a + "/" + b { CutIs(a, b); }
  }

  lemma BelowPrefix(prefix: string, s: string, rest: string)
    requires prefix <= s
    ensures TrimPrefix(s, prefix) == rest <==> s == prefix + rest
  {
    assert s == prefix + s[|prefix|..];
  }

  /** Reading a key found below the bundle prefix gives exactly the key that prints to it. */
  lemma ParseBundleRoundTrip(keys: Keys, s: string, key: Key)
    requires BundlePrefix(keys, V6) <= s && key.Bundle? && key.version == V6 && SafeKey(key)
    ensures ParseBundle(keys, s) == Some(key) <==> Print(keys, key) == s
  {
    var prefix := BundlePrefix(keys, V6);
    var rest := key.target + "/" + key.generation;
    SafeNameIsTrimmed(key.target);
    CutOnly(TrimPrefix(s, prefix), key.target, key.generation);
    BelowPrefix(prefix, s, rest);
    assert prefix + rest == prefix + key.target + "/" + key.generation;
  }

  /** The same for keys below an active prefix. */
  lemma ParseActiveRoundTrip(keys: Keys, version: Version, s: string, key: Key)
    requires ActivePrefix(keys, version) <= s && key.Active? && key.version == version && SafeKey(key)
    ensures ParseActive(keys, version, s) == Some(key) <==> Print(keys, key) == s
  {
    BelowPrefix(ActivePrefix(keys, version), s, key.target);
  }

  // ---- prefix reads and the prefix deletion ----

  lemma BelowIs(keys: Keys, parts: seq<string>, front: seq<string>, key: Key)
    requires Namespace(keys, parts) && SafeKey(key) && NoSlashes(front)
    ensures Slashed(front) + "/" <= Print(keys, key) <==> front < parts + KeyTail(key)
  {
    PrintIs(keys, parts, key);
    PartsAreSlashless(parts, key);
    SlashedPrefix(front, parts + KeyTail(key));
  }

  lemma BelowHere(parts: seq<string>, front: seq<string>, tail: seq<string>)
    ensures parts + front < parts + tail <==> front < tail
  {
    assert (parts + tail)[|parts|..] == tail && (parts + front)[|parts|..] == front;
    if parts + front < parts + tail {
      assert (parts + tail)[|parts|..|parts + front|] == front;
      assert tail[..|front|] == front;
    }
    if front < tail { assert tail == front + tail[|front|..]; assert parts + tail == parts + front + tail[|front|..]; }
  }

  /** Deleting `<prefix>/v5/` removes every v5 key of the namespace and no other, also when the prefix is "/". */
  lemma DeletePrefixHitsOnlyOld(keys: Keys, parts: seq<string>, key: Key)
    requires Namespace(keys, parts) && SafeKey(key)
    ensures Root(keys, V5) + "/" <= Print(keys, key) <==> key.version == V5
  {
    RootIs(parts, V5);
    BelowIs(keys, parts, parts + ["v5"], key);
    BelowHere(parts, ["v5"], KeyTail(key));
    assert KeyTail(key)[0] == VersionPart(key.version);
    assert ["v5"] < KeyTail(key) <==> VersionPart(key.version) == "v5";
  }

  /** The prefix read of the active pointers of a version returns those, and no other key. */
  lemma ActiveReadIs(keys: Keys, parts: seq<string>, version: Version, key: Key)
    requires Namespace(keys, parts) && SafeKey(key)
    ensures ActivePrefix(keys, version) <= Print(keys, key) <==> key.Active? && key.version == version
  {
    PrefixesAre(keys, parts, version);
    BelowKind(keys, parts, version, "active", key);
  }

  /** The same for the prefix read of the bundles. */
  lemma BundleReadIs(keys: Keys, parts: seq<string>, version: Version, key: Key)
    requires Namespace(keys, parts) && SafeKey(key)
    ensures BundlePrefix(keys, version) <= Print(keys, key) <==> key.Bundle? && key.version == version
  {
    PrefixesAre(keys, parts, version);
    BelowKind(keys, parts, version, "bundles", key);
  }

  lemma BelowKind(keys: Keys, parts: seq<string>, version: Version, kind: string, key: Key)
    requires Namespace(keys, parts) && SafeKey(key) && NoSlash(kind)
    ensures Slashed(parts + [VersionPart(version), kind]) + "/" <= Print(keys, key) <==>
      version == key.version && kind == if key.Active? then "active" else "bundles"
  {
    BelowIs(keys, parts, parts + [VersionPart(version), kind], key);
    BelowHere(parts, [VersionPart(version), kind], KeyTail(key));
    TailPrefix(key, version, kind);
  }

  lemma TailPrefix(key: Key, version: Version, kind: string)
    ensures [VersionPart(version), kind] < KeyTail(key) <==>
      version == key.version && kind == if key.Active? then "active" else "bundles"
  {
    var tail := KeyTail(key);
    assert tail[0] == VersionPart(key.version) && tail[1] == if key.Active? then "active" else "bundles";
    assert [VersionPart(version), kind] < tail <==> VersionPart(version) == tail[0] && kind == tail[1];
  }

  /** Between two namespaces, the deletion reaches a key exactly when the path `<prefix>/v5` lies on the
      way to it: one namespace below another's `v5` is not protected. */
  lemma DeletePrefixAcross(keys: Keys, parts: seq<string>, other: Keys, otherParts: seq<string>, key: Key)
    requires Namespace(keys, parts) && Namespace(other, otherParts) && SafeKey(key)
    ensures Root(keys, V5) + "/" <= Print(other, key) <==> parts + ["v5"] < otherParts + KeyTail(key)
  {
    RootIs(parts, V5);
    BelowIs(other, otherParts, parts + ["v5"], key);
  }

  // ---- NewKeys ----

  lemma {:induction false} SplitHasNoSlash(s: string)
    ensures NoSlashes(Split(s))
  {
    if s != "" { SplitHasNoSlash(s[..|s| - 1]); }
  }

  lemma {:induction false} NonEmptyKeeps(parts: seq<string>)
    requires NoSlashes(parts)
    ensures NoSlashes(NonEmpty(parts)) && forall i :: 0 <= i < |NonEmpty(parts)| ==> NonEmpty(parts)[i] != ""
  {
    if parts != [] { NonEmptyKeeps(parts[..|parts| - 1]); }
  }

  // The normalised prefix before its components are checked.
  lemma CleanSplit(s: string)
    requires Undotted(Split(s))
    ensures var parts := NonEmpty(Split(s));
      Clean(s) == Rooted(parts) && (parts != [] ==> Clean(s) != "/" && Split(Clean(s)[1..]) == parts)
  {
    var parts := NonEmpty(Split(s));
    CleanUndotted(Split(s));
    SplitHasNoSlash(s);
    NonEmptyKeeps(Split(s));
    if parts != [] {
      SlashedRest(parts);
    }
  }

  lemma {:induction false} SlashedFirst(parts: seq<string>)
    requires parts != []
    ensures Slashed(parts) == "/" + parts[0] + Slashed(parts[1..])
  {
    var first, rest := [parts[0]], parts[1..];
    assert parts == first + rest;
    SlashedAppend(first, rest);
    SlashedNext([], parts[0]);
    assert [] + [parts[0]] == first;
  }

  lemma SlashedRest(parts: seq<string>)
    requires parts != [] && NoSlashes(parts) && forall i :: 0 <= i < |parts| ==> parts[i] != ""
    ensures Slashed(parts) != "/" && Slashed(parts) != "" && Split(Slashed(parts)[1..]) == parts
  {
    SlashedFirst(parts);
    SplitSlashed(parts);
    RestOf(Slashed(parts), parts[0], Slashed(parts[1..]), parts);
  }

  lemma RestOf(s: string, first: string, more: string, parts: seq<string>)
    requires s == "/" + first + more && first != "" && Split(s) == [""] + parts
    ensures s != "/" && s != "" && Split(s[1..]) == parts
  {
    SplitAfterSlash(s, first + more);
    SameTail(Split(s[1..]), parts);
  }

  lemma SplitAfterSlash(s: string, rest: string)
    requires s == "/" + rest
    ensures s[1..] == rest && Split(s) == [""] + Split(s[1..])
  {
    SplitConcat("", rest);
    assert s == "" + "/" + rest;
  }

  lemma SameTail(a: seq<string>, b: seq<string>)
    requires [""] + a == [""] + b
    ensures a == b
  {
    assert ([""] + a)[1..] == a && ([""] + b)[1..] == b;
  }

  /** Every accepted prefix is the rooted path of safe components. */
  lemma NewKeysNamespace(prefix: string)
    requires NewKeys(prefix).Some?
    ensures exists parts :: Namespace(NewKeys(prefix).value, parts)
  {
    var trimmed := TrimSpace(prefix);
    assert Undotted(Split(trimmed));
    CleanSplit(trimmed);
    var parts := NonEmpty(Split(trimmed));
    assert Namespace(NewKeys(prefix).value, parts);
  }

  lemma {:induction false} SlashedSplit(s: string)
    ensures |Slashed(Split(s))| == |s| + 1
  {
    if s != "" {
      var n := |s| - 1;
      SlashedSplit(s[..n]);
      SlashedExtend(Split(s[..n]), s[n]);
    } else {
      assert [""][..0] == [];
    }
  }

  lemma SlashedExtend(parts: seq<string>, c: char)
    requires parts != []
    ensures |Slashed(Extend(parts, c))| == |Slashed(parts)| + 1
  {
    if c == '/' {
      SlashedNext(parts, "");
    } else {
      var n := |parts| - 1;
      SlashedNext(parts[..n], parts[n] + [c]);
      SlashedNext(parts[..n], parts[n]);
      assert parts[..n] + [parts[n]] == parts;
    }
  }

  lemma {:induction false} NonEmptyShorter(parts: seq<string>)
    ensures |Slashed(NonEmpty(parts))| <= |Slashed(parts)|
    ensures "" in parts ==> |Slashed(NonEmpty(parts))| < |Slashed(parts)|
  {
    if parts != [] {
      var n := |parts| - 1;
      NonEmptyShorter(parts[..n]);
      assert parts == parts[..n] + [parts[n]];
      SlashedNext(NonEmpty(parts[..n]), parts[n]);
      assert NonEmpty(parts[..n]) + [] == NonEmpty(parts[..n]);
    }
  }

  lemma FirstPartEmpty(s: string)
    requires s != "" && s[0] == '/'
    ensures "" in Split(s)
  {
    SplitAfterSlash(s, s[1..]);
    assert ([""] + Split(s[1..]))[0] == "";
  }

  lemma CleanNoLonger(s: string)
    requires s != "" && s[0] == '/' && Undotted(Split(s))
    ensures |Clean(s)| <= |s|
  {
    CleanUndotted(Split(s));
    FirstPartEmpty(s);
    SlashedSplit(s);
    NonEmptyShorter(Split(s));
  }

  lemma RootedStarts(parts: seq<string>)
    ensures Rooted(parts) != "" && Rooted(parts)[0] == '/'
  {
    if parts != [] { SlashedFirst(parts); }
  }

  /** Normalising a normalised prefix gives it back exactly when it does not end in white space. */
  lemma NewKeysAgain(keys: Keys, parts: seq<string>)
    requires Namespace(keys, parts)
    ensures NewKeys(keys.prefix) == Some(keys) <==> !IsSpace(keys.prefix[|keys.prefix| - 1])
  {
    var prefix := keys.prefix;
    RootedStarts(parts);
    TrimSpaceFixed(prefix);
    if IsSpace(prefix[|prefix| - 1]) {
      TrimShorter(prefix);
      if NewKeys(prefix).Some? {
        assert Undotted(Split(TrimSpace(prefix)));
        CleanNoLonger(TrimSpace(prefix));
      }
    } else {
      RootedDecomposes(parts);
      CleanIs(prefix, parts);
      assert Undotted(Split(prefix));
      if parts != [] { SlashedRest(parts); }
    }
  }

  lemma TrimShorter(s: string)
    ensures |TrimSpace(s)| <= |s| && (|TrimSpace(s)| == |s| ==> TrimSpace(s) == s)
  {
  }

  // ---- the texts themselves ----

  // The namespace in front of a protocol root; "/" adds nothing.
  function Base(keys: Keys): string { if keys.prefix == "/" then "" else keys.prefix }

  function VersionText(version: Version): string {
    match version case V4 => "/v4" case V5 => "/v5" case V6 => "/v6"
  }

  function KeyText(keys: Keys, key: Key): string {
    match key
    case Active(version, target) => Base(keys) + VersionText(version) + "/active/" + target
    case Bundle(version, target, generation) => Base(keys) + VersionText(version) + "/bundles/" + target + "/" + generation
  }

  lemma BaseIs(keys: Keys, parts: seq<string>)
    requires Namespace(keys, parts)
    ensures Base(keys) == Slashed(parts)
  {
    if parts != [] { SlashedRest(parts); }
  }

  /** Each key as it is written: the namespace, the version, the kind, the target and the generation. */
  lemma PrintedText(keys: Keys, parts: seq<string>, key: Key)
    requires Namespace(keys, parts)
    ensures Print(keys, key) == KeyText(keys, key)
  {
    BaseIs(keys, parts);
    RootIs(parts, key.version);
    SlashedNext(parts, VersionPart(key.version));
    assert "/" + VersionPart(key.version) == VersionText(key.version);
    assert Slashed(parts) + "/" + VersionPart(key.version) == Slashed(parts) + VersionText(key.version);
  }

  lemma {:induction false} SlashedSplitIs(s: string)
    ensures Slashed(Split(s)) == "/" + s
  {
    if s == "" {
      SlashedNext([], "");
      assert [] + [""] == [""];
    } else {
      var n := |s| - 1;
      SlashedSplitIs(s[..n]);
      ExtendedText(Split(s[..n]), s[n]);
      assert s == s[..n] + [s[n]];
    }
  }

  lemma ExtendedText(parts: seq<string>, c: char)
    requires parts != []
    ensures Slashed(Extend(parts, c)) == Slashed(parts) + [c]
  {
    if c == '/' {
      SlashedNext(parts, "");
    } else {
      var n := |parts| - 1;
      SlashedNext(parts[..n], parts[n] + [c]);
      SlashedNext(parts[..n], parts[n]);
      assert parts[..n] + [parts[n]] == parts;
    }
  }

  // A rooted path as written, by the components between its slashes, empty ones included.
  ghost predicate Written(s: string, parts: seq<string>) {
    parts != [] && NoSlashes(parts) && s == Slashed(parts)
  }

  // No component is a dot or two, and none holds a backslash.
  ghost predicate PlainParts(parts: seq<string>) {
    forall i :: 0 <= i < |parts| ==> parts[i] != "." && parts[i] != ".." && '\\' !in parts[i]
  }

  lemma {:induction false} NonEmptyHas(parts: seq<string>)
    ensures forall part :: part in NonEmpty(parts) <==> part in parts && part != ""
  {
    if parts != [] {
      NonEmptyHas(parts[..|parts| - 1]);
      assert parts == parts[..|parts| - 1] + [parts[|parts| - 1]];
    }
  }

  lemma PlainIsSafe(parts: seq<string>)
    requires NoSlashes(parts) && Undotted(parts)
    ensures PlainParts(parts) <==> SafeParts(NonEmpty(parts))
  {
    NonEmptyHas(parts);
    var left := NonEmpty(parts);
    if PlainParts(parts) {
      forall i | 0 <= i < |left| ensures SafePart(left[i]) { assert left[i] in left && left[i] in parts; }
    }
    if SafeParts(left) {
      forall i | 0 <= i < |parts| ensures '\\' !in parts[i] {
        if parts[i] != "" {
          assert parts[i] in parts && parts[i] in left;
        }
      }
    }
  }

  lemma WrittenSplits(s: string, parts: seq<string>)
    requires Written(s, parts)
    ensures s != "" && s[0] == '/' && Split(s) == [""] + parts && NonEmpty(Split(s)) == NonEmpty(parts)
    ensures Undotted(Split(s)) <==> Undotted(parts)
    ensures Undotted(parts) <==> "." !in Split(s) && ".." !in Split(s)
  {
    SplitSlashed(parts);
    SlashedFirst(parts);
    NonEmptyAppend([""], parts);
    assert NonEmpty([""]) == [] by { assert [""][..0] == []; }
    FirstAside(parts);
  }

  lemma FirstAside(parts: seq<string>)
    ensures Undotted([""] + parts) <==> Undotted(parts)
    ensures Undotted(parts) <==> "." !in [""] + parts && ".." !in [""] + parts
  {
    var all := [""] + parts;
    assert forall i :: 0 <= i < |parts| ==> all[i + 1] == parts[i];
    if Undotted(parts) {
      forall i | 0 <= i < |all| ensures all[i] != "." && all[i] != ".." { if i > 0 { assert all[i] == parts[i - 1]; } }
    }
    if !Undotted(parts) {
      var i :| 0 <= i < |parts| && (parts[i] == "." || parts[i] == "..");
      assert all[i + 1] in all;
    }
  }

  // For a path as written, NewKeys by its components.
  lemma NewKeysOf(prefix: string, parts: seq<string>)
    requires Written(TrimSpace(prefix), parts)
    ensures NewKeys(prefix) == if PlainParts(parts) then Some(Keys(Rooted(NonEmpty(parts)))) else None
  {
    WrittenSplits(TrimSpace(prefix), parts);
    if Undotted(parts) {
      CleanSplit(TrimSpace(prefix));
      PlainIsSafe(parts);
    }
  }

  /** Which prefixes are accepted, and their normal form: white space aside, a rooted path without a dot component or a
      backslash; empty components are dropped. */
  lemma NewKeysIff(prefix: string, keys: Keys)
    ensures NewKeys(prefix) == Some(keys) <==>
      exists parts :: Written(TrimSpace(prefix), parts) && PlainParts(parts) && keys.prefix == Rooted(NonEmpty(parts))
  {
    var s := TrimSpace(prefix);
    forall parts | Written(s, parts)
      ensures NewKeys(prefix) == if PlainParts(parts) then Some(Keys(Rooted(NonEmpty(parts)))) else None
    {
      NewKeysOf(prefix, parts);
    }
    if NewKeys(prefix) == Some(keys) {
      SlashedSplitIs(s[1..]);
      SplitHasNoSlash(s[1..]);
      assert s == "/" + s[1..];
      assert Written(s, Split(s[1..]));
    }
  }
}
