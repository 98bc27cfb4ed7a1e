/** What the content digest identifies, and the bundles built from raw material. */
module Content {
  import opened Wrappers
  import opened Text
  import opened Kinds
  import opened Format
  import Encoding

  predicate NoNul(s: string) { '\0' !in s }

  // A field ended by a zero byte can be read back.
  lemma FieldUnique(a: string, x: string, b: string, y: string)
    requires NoNul(a) && NoNul(b) && a + "\0" + x == b + "\0" + y
    ensures a == b && x == y
  {
    var s, t := a + "\0" + x, b + "\0" + y;
    FirstNul(a, x, b);
    FirstNul(b, y, a);
    assert |a| == |b|;
    assert a == s[..|a|] && b == t[..|b|] && x == s[|a| + 1..] && y == t[|b| + 1..];
  }

  lemma FirstNul(a: string, x: string, b: string)
    requires NoNul(b) && b <= a + "\0" + x
    ensures |b| <= |a|
  {
    var s := a + "\0" + x;
    assert s[|a|] == '\0';
    assert forall i :: 0 <= i < |b| ==> s[i] == b[i] && b[i] in b;
  }

  predicate PlainLine(l: Line) { NoNul(l.name) && NoNul(l.role) && |l.sum| == 32 }

  lemma EntryUnique(l: Line, x: string, k: Line, y: string)
    requires PlainLine(l) && PlainLine(k) && Entry(l) + x == Entry(k) + y
    ensures l == k && x == y
  {
    Regroup(l, x);
    Regroup(k, y);
    FieldUnique(l.name, l.role + "\0" + (l.sum + x), k.name, k.role + "\0" + (k.sum + y));
    FieldUnique(l.role, l.sum + x, k.role, k.sum + y);
    assert l.sum == (l.sum + x)[..32] && k.sum == (k.sum + y)[..32];
    assert x == (l.sum + x)[32..] && y == (k.sum + y)[32..];
  }

  lemma Regroup(l: Line, x: string)
    ensures Entry(l) + x == l.name + "\0" + (l.role + "\0" + (l.sum + x))
  {
  }

  lemma {:induction false} LinesUnique(a: seq<Line>, b: seq<Line>)
    requires (forall i :: 0 <= i < |a| ==> PlainLine(a[i])) && (forall i :: 0 <= i < |b| ==> PlainLine(b[i]))
    requires Lines(a) == Lines(b)
    ensures a == b
  {
    LinesEmpty(a);
    LinesEmpty(b);
    if a != [] && b != [] {
      EntryUnique(a[0], Lines(a[1..]), b[0], Lines(b[1..]));
      LinesUnique(a[1..], b[1..]);
      assert a == [a[0]] + a[1..] && b == [b[0]] + b[1..];
    }
  }

  lemma LinesEmpty(list: seq<Line>)
    ensures Lines(list) == "" <==> list == []
  {
    assert list != [] ==> |Entry(list[0])| > 0;
  }

  lemma {:induction false} LinesAt(c: Crypto, m: Manifest, files: map<string, string>, names: seq<string>)
    ensures |LinesOf(c, m, files, names)| == |names|
    ensures forall i :: 0 <= i < |names| ==>
      LinesOf(c, m, files, names)[i] == Line(names[i], RoleOf(m.files, names[i]), c.sha(FileAt(files, names[i])))
  {
    if names != [] { LinesAt(c, m, files, names[..|names| - 1]); }
  }

  // A manifest and its files write fields that can be read back.
  ghost predicate PlainFields(m: Manifest, files: map<string, string>) {
    NoNul(m.schema) && NoNul(m.kind) && forall name :: name in files ==> NoNul(name) && NoNul(RoleOf(m.files, name))
  }

  lemma AllLinesPlain(c: Crypto, m: Manifest, files: map<string, string>)
    requires CryptoOk(c) && PlainFields(m, files)
    ensures forall i :: 0 <= i < |AllLines(c, m, files)| ==> PlainLine(AllLines(c, m, files)[i])
  {
    var names := Sorted(files.Keys);
    LinesAt(c, m, files, names);
    forall i | 0 <= i < |names| ensures PlainLine(AllLines(c, m, files)[i]) { assert names[i] in names; }
  }

  /** What is hashed can be read back: schema, type, and the name, role and content sum of every file. */
  lemma PreimageUnique(c: Crypto, m: Manifest, files: map<string, string>, n: Manifest, others: map<string, string>)
    requires CryptoOk(c) && PlainFields(m, files) && PlainFields(n, others)
    requires Preimage(c, m, files) == Preimage(c, n, others)
    ensures m.schema == n.schema && m.kind == n.kind && AllLines(c, m, files) == AllLines(c, n, others)
    ensures files.Keys == others.Keys
    ensures forall name :: name in files ==> RoleOf(m.files, name) == RoleOf(n.files, name) && c.sha(files[name]) == c.sha(others[name])
  {
    HeaderUnique(m, Lines(AllLines(c, m, files)), n, Lines(AllLines(c, n, others)));
    AllLinesPlain(c, m, files);
    AllLinesPlain(c, n, others);
    LinesUnique(AllLines(c, m, files), AllLines(c, n, others));
    SameLinesSameNames(c, m, files, n, others);
    forall name | name in files
      ensures RoleOf(m.files, name) == RoleOf(n.files, name) && c.sha(files[name]) == c.sha(others[name])
    {
      SameLinesSameFile(c, m, files, n, others, name);
    }
  }

  lemma HeaderUnique(m: Manifest, x: string, n: Manifest, y: string)
    requires NoNul(m.schema) && NoNul(m.kind) && NoNul(n.schema) && NoNul(n.kind)
    requires m.schema + "\0" + m.kind + "\0" + x == n.schema + "\0" + n.kind + "\0" + y
    ensures m.schema == n.schema && m.kind == n.kind && x == y
  {
    assert m.schema + "\0" + m.kind + "\0" + x == m.schema + "\0" + (m.kind + "\0" + x);
    assert n.schema + "\0" + n.kind + "\0" + y == n.schema + "\0" + (n.kind + "\0" + y);
    FieldUnique(m.schema, m.kind + "\0" + x, n.schema, n.kind + "\0" + y);
    FieldUnique(m.kind, x, n.kind, y);
  }

  lemma LinesNames(c: Crypto, m: Manifest, files: map<string, string>, a: seq<string>,
                   n: Manifest, others: map<string, string>, b: seq<string>)
    requires LinesOf(c, m, files, a) == LinesOf(c, n, others, b)
    ensures a == b
  {
    LinesAt(c, m, files, a);
    LinesAt(c, n, others, b);
    forall i | 0 <= i < |a| ensures a[i] == b[i] {
      assert LinesOf(c, m, files, a)[i].name == LinesOf(c, n, others, b)[i].name;
    }
  }

  lemma SameLinesSameNames(c: Crypto, m: Manifest, files: map<string, string>, n: Manifest, others: map<string, string>)
    requires AllLines(c, m, files) == AllLines(c, n, others)
    ensures Sorted(files.Keys) == Sorted(others.Keys) && files.Keys == others.Keys
  {
    LinesNames(c, m, files, Sorted(files.Keys), n, others, Sorted(others.Keys));
    SortedSame(files.Keys, others.Keys);
  }

  lemma SortedSame(a: set<string>, b: set<string>)
    requires Sorted(a) == Sorted(b)
    ensures a == b
  {
    assert forall x :: x in a <==> x in Sorted(a);
    assert forall x :: x in b <==> x in Sorted(b);
  }

  lemma SameLinesSameFile(c: Crypto, m: Manifest, files: map<string, string>, n: Manifest, others: map<string, string>, name: string)
    requires AllLines(c, m, files) == AllLines(c, n, others) && Sorted(files.Keys) == Sorted(others.Keys) && name in files
    ensures RoleOf(m.files, name) == RoleOf(n.files, name) && c.sha(FileAt(files, name)) == c.sha(FileAt(others, name))
  {
    var names := Sorted(files.Keys);
    LinesAt(c, m, files, names);
    LinesAt(c, n, others, names);
    assert name in names;
    var i :| 0 <= i < |names| && names[i] == name;
    assert AllLines(c, m, files)[i] == AllLines(c, n, others)[i];
  }

  // No two of these strings have the same sum.  Over all strings this could not hold.
  ghost predicate NoCollision(c: Crypto, s: set<string>) {
    forall x, y :: x in s && y in s && c.sha(x) == c.sha(y) ==> x == y
  }

  // The strings whose sums the digest of a bundle depends on.
  ghost function Hashed(c: Crypto, m: Manifest, files: map<string, string>): set<string> {
    files.Values + {Preimage(c, m, files)}
  }

  lemma RoleForPlain(kind: string, name: string)
    ensures NoNul(RoleFor(kind, name)) && (name in Expected(kind) ==> NoNul(name))
    ensures IsTls(kind) || kind == TRUST ==> NoNul(kind)
  {
  }

  lemma DecodedPlain(c: Crypto, m: Manifest)
    requires CryptoOk(c) && DecodeFiles(c, m).Some?
    ensures PlainFields(m, DecodeFiles(c, m).value)
  {
    DecodedNames(c, m);
    RoleForPlain(m.kind, "");
    forall name | name in DecodeFiles(c, m).value ensures NoNul(name) && NoNul(RoleOf(m.files, name)) {
      DecodedRoles(c, m, name);
      RoleForPlain(m.kind, name);
    }
  }

  /** Two decoded bundles have equal digests exactly when they have the same type and the same files; schema and
      roles then agree too. */
  lemma DigestIdentifies(c: Crypto, m: Manifest, n: Manifest)
    requires CryptoOk(c) && DecodeFiles(c, m).Some? && DecodeFiles(c, n).Some?
    requires NoCollision(c, Hashed(c, m, DecodeFiles(c, m).value) + Hashed(c, n, DecodeFiles(c, n).value))
    ensures Digest(c, m, DecodeFiles(c, m).value) == Digest(c, n, DecodeFiles(c, n).value) <==>
      m.kind == n.kind && DecodeFiles(c, m).value == DecodeFiles(c, n).value
  {
    var files, others := DecodeFiles(c, m).value, DecodeFiles(c, n).value;
    if Digest(c, m, files) == Digest(c, n, others) {
      DecodedPlain(c, m);
      DecodedPlain(c, n);
      DigestUnique(c, m, files, n, others);
    }
    if m.kind == n.kind && files == others {
      forall name ensures RoleOf(m.files, name) == RoleOf(n.files, name) {
        DecodedRoles(c, m, name);
        DecodedRoles(c, n, name);
      }
      SameRolesSamePreimage(c, m, n, files);
    }
  }

  lemma DigestUnique(c: Crypto, m: Manifest, files: map<string, string>, n: Manifest, others: map<string, string>)
    requires CryptoOk(c) && PlainFields(m, files) && PlainFields(n, others)
    requires NoCollision(c, Hashed(c, m, files) + Hashed(c, n, others))
    requires Digest(c, m, files) == Digest(c, n, others)
    ensures m.kind == n.kind && files == others
  {
    Encoding.HexInjective(c.sha(Preimage(c, m, files)), c.sha(Preimage(c, n, others)));
    assert Preimage(c, m, files) in Hashed(c, m, files) && Preimage(c, n, others) in Hashed(c, n, others);
    PreimageUnique(c, m, files, n, others);
    SameSumsSameFiles(c, files, others);
  }

  lemma SameSumsSameFiles(c: Crypto, files: map<string, string>, others: map<string, string>)
    requires files.Keys == others.Keys && forall name :: name in files ==> c.sha(files[name]) == c.sha(others[name])
    requires NoCollision(c, files.Values + others.Values)
    ensures files == others
  {
    forall name | name in files ensures files[name] == others[name] {
      assert files[name] in files.Values && others[name] in others.Values;
    }
  }

  lemma {:induction false} SameRolesSameLines(c: Crypto, m: Manifest, n: Manifest, files: map<string, string>, names: seq<string>)
    requires forall name :: RoleOf(m.files, name) == RoleOf(n.files, name)
    ensures LinesOf(c, m, files, names) == LinesOf(c, n, files, names)
  {
    if names != [] { SameRolesSameLines(c, m, n, files, names[..|names| - 1]); }
  }

  lemma SameRolesSamePreimage(c: Crypto, m: Manifest, n: Manifest, files: map<string, string>)
    requires m.schema == n.schema && m.kind == n.kind && forall name :: RoleOf(m.files, name) == RoleOf(n.files, name)
    ensures Preimage(c, m, files) == Preimage(c, n, files)
  {
    SameRolesSameLines(c, m, n, files, Sorted(files.Keys));
  }

  lemma {:induction false} RoleOfDistinct(files: seq<ManifestFile>, i: nat)
    requires DistinctNames(files) && i < |files|
    ensures RoleOf(files, files[i].name) == files[i].role
    decreases |files|
  {
    var n := |files| - 1;
    if i < n {
      RoleOfDistinct(files[..n], i);
      assert files[..n][i] == files[i];
    }
  }

  lemma {:induction false} RoleOfAbsent(files: seq<ManifestFile>, name: string)
    requires !HasName(files, name)
    ensures RoleOf(files, name) == ""
  {
    if files != [] {
      HasNameLast(files, name);
      RoleOfAbsent(files[..|files| - 1], name);
    }
  }

  /** The digest does not depend on the order of the files in the manifest. */
  lemma DigestIgnoresOrder(c: Crypto, m: Manifest, n: Manifest, files: map<string, string>)
    requires m.schema == n.schema && m.kind == n.kind && DistinctNames(m.files) && DistinctNames(n.files)
    requires multiset(m.files) == multiset(n.files)
    ensures Digest(c, m, files) == Digest(c, n, files)
  {
    forall name ensures RoleOf(m.files, name) == RoleOf(n.files, name) {
      SameRole(m.files, n.files, name);
    }
    SameRolesSamePreimage(c, m, n, files);
  }

  lemma SameNames(a: seq<ManifestFile>, b: seq<ManifestFile>, name: string)
    requires multiset(a) == multiset(b) && HasName(a, name)
    ensures exists i, j :: 0 <= i < |a| && 0 <= j < |b| && a[i] == b[j] && a[i].name == name
  {
    var i :| 0 <= i < |a| && a[i].name == name;
    assert a[i] in multiset(a) && a[i] in multiset(b);
    assert a[i] in b;
    var j :| 0 <= j < |b| && b[j] == a[i];
  }

  lemma SameRole(a: seq<ManifestFile>, b: seq<ManifestFile>, name: string)
    requires DistinctNames(a) && DistinctNames(b) && multiset(a) == multiset(b)
    ensures RoleOf(a, name) == RoleOf(b, name)
  {
    if HasName(a, name) {
      SameNames(a, b, name);
      var i, j :| 0 <= i < |a| && 0 <= j < |b| && a[i] == b[j] && a[i].name == name;
      RoleOfDistinct(a, i);
      RoleOfDistinct(b, j);
    } else if HasName(b, name) {
      SameNames(b, a, name);
    } else {
      RoleOfAbsent(a, name);
      RoleOfAbsent(b, name);
    }
  }

  // ---- bundles built from raw material ----

  function BuiltFile(c: Crypto, name: string, role: string, content: string): ManifestFile {
    ManifestFile(name, role, Hash(c, content), BASE64, Encoding.Encode(content))
  }

  // NewTLSManifest; the names are in sorted order.
  function TlsManifest(c: Crypto, kind: string, chain: string, key: string): Manifest {
    Manifest(SCHEMA, kind, [BuiltFile(c, CHAIN, ROLE_CHAIN, chain), BuiltFile(c, KEY, ROLE_KEY, key)])
  }

  function TrustManifest(c: Crypto, data: string): Manifest {
    Manifest(SCHEMA, TRUST, [BuiltFile(c, CA, ROLE_CA, data)])
  }

  function TlsFiles(chain: string, key: string): map<string, string> { map[CHAIN := chain, KEY := key] }

  lemma HashShape(c: Crypto, s: string)
    requires CryptoOk(c)
    ensures ShaText(Hash(c, s))
  {
    Encoding.HexShape(c.sha(s));
  }

  lemma BuiltFileValid(c: Crypto, kind: string, name: string, role: string, content: string)
    requires CryptoOk(c) && SafeName(name) && role == RoleFor(kind, name)
    ensures ValidFile(kind, BuiltFile(c, name, role, content))
  {
    HashShape(c, content);
  }

  lemma FilesOfOne(c: Crypto, before: seq<ManifestFile>, name: string, role: string, content: string)
    requires CryptoOk(c) && Encoding.IsBytes(content) && FilesOf(c, before).Some?
    ensures FilesOf(c, before + [BuiltFile(c, name, role, content)]) == Some(FilesOf(c, before).value[name := content])
  {
    Encoding.RoundTrip(content);
    assert (before + [BuiltFile(c, name, role, content)])[..|before|] == before;
  }

  lemma TlsFilesOf(c: Crypto, kind: string, chain: string, key: string)
    requires CryptoOk(c) && Encoding.IsBytes(chain) && Encoding.IsBytes(key)
    ensures FilesOf(c, TlsManifest(c, kind, chain, key).files) == Some(TlsFiles(chain, key))
  {
    var first := [BuiltFile(c, CHAIN, ROLE_CHAIN, chain)];
    FilesOfOne(c, [], CHAIN, ROLE_CHAIN, chain);
    FilesOfOne(c, first, KEY, ROLE_KEY, key);
    assert [] + first == first && TlsManifest(c, kind, chain, key).files == first + [BuiltFile(c, KEY, ROLE_KEY, key)];
  }

  lemma NamesDiffer()
    ensures CHAIN != KEY && SafeName(CHAIN) && SafeName(KEY) && SafeName(CA)
  {
    assert CHAIN[0] != KEY[0];
  }

  lemma TlsValid(c: Crypto, kind: string, chain: string, key: string)
    requires CryptoOk(c) && IsTls(kind)
    ensures ValidManifest(TlsManifest(c, kind, chain, key))
  {
    NamesDiffer();
    BuiltFileValid(c, kind, CHAIN, ROLE_CHAIN, chain);
    BuiltFileValid(c, kind, KEY, ROLE_KEY, key);
  }

  /** A TLS manifest built from raw bytes decodes to these bytes, exactly when they are a valid identity of a TLS type. */
  lemma BuiltTls(c: Crypto, kind: string, chain: string, key: string)
    requires CryptoOk(c) && Encoding.IsBytes(chain) && Encoding.IsBytes(key)
    ensures DecodeFiles(c, TlsManifest(c, kind, chain, key)) ==
      if IsTls(kind) && ValidIdentity(c, kind, chain, key) then Some(TlsFiles(chain, key)) else None
  {
    TlsFilesOf(c, kind, chain, key);
    NamesDiffer();
    if IsTls(kind) { TlsValid(c, kind, chain, key); }
  }

  /** The same for trust. */
  lemma BuiltTrust(c: Crypto, data: string)
    requires CryptoOk(c) && Encoding.IsBytes(data)
    ensures DecodeFiles(c, TrustManifest(c, data)) == if ValidTrust(c, data) then Some(map[CA := data]) else None
  {
    FilesOfOne(c, [], CA, ROLE_CA, data);
    assert [] + [BuiltFile(c, CA, ROLE_CA, data)] == TrustManifest(c, data).files;
    BuiltFileValid(c, TRUST, CA, ROLE_CA, data);
  }

  /** Two identity bundles built from raw material and encoded have equal generations exactly when they are the
      same bytes. */
  lemma SameGenerationSameBytes(c: Crypto, kind: string, chain: string, key: string, kind': string, chain': string, key': string)
    requires CryptoOk(c) && Encoding.IsBytes(chain) && Encoding.IsBytes(key) && Encoding.IsBytes(chain') && Encoding.IsBytes(key')
    requires Encode(c, TlsManifest(c, kind, chain, key)).Some? && Encode(c, TlsManifest(c, kind', chain', key')).Some?
    requires NoCollision(c, Hashed(c, TlsManifest(c, kind, chain, key), TlsFiles(chain, key)) +
                            Hashed(c, TlsManifest(c, kind', chain', key'), TlsFiles(chain', key')))
    ensures Generation(Digest(c, TlsManifest(c, kind, chain, key), TlsFiles(chain, key))) ==
            Generation(Digest(c, TlsManifest(c, kind', chain', key'), TlsFiles(chain', key'))) <==>
            Encode(c, TlsManifest(c, kind, chain, key)) == Encode(c, TlsManifest(c, kind', chain', key'))
  {
    var m, n := TlsManifest(c, kind, chain, key), TlsManifest(c, kind', chain', key');
    BuiltTls(c, kind, chain, key);
    BuiltTls(c, kind', chain', key');
    DigestIdentifies(c, m, n);
    GenerationInjective(Digest(c, m, TlsFiles(chain, key)), Digest(c, n, TlsFiles(chain', key')));
    if TlsFiles(chain, key) == TlsFiles(chain', key') {
      assert TlsFiles(chain, key)[CHAIN] == TlsFiles(chain', key')[CHAIN] && TlsFiles(chain, key)[KEY] == TlsFiles(chain', key')[KEY];
    }
    if Encode(c, m) == Encode(c, n) {
      assert c.unmarshal(c.marshal(m)) == c.unmarshal(c.marshal(n));
    }
  }

  lemma GenerationInjective(a: string, b: string)
    ensures Generation(a) == Generation(b) ==> a == b
  {
    assert Generation(a)[7..] == a && Generation(b)[7..] == b;
  }

  lemma GenerationSafe(c: Crypto, s: string)
    requires CryptoOk(c)
    ensures SafeName(Generation(Hash(c, s)))
  {
    Encoding.HexShape(c.sha(s));
    var g := Generation(Hash(c, s));
    assert g[0] == 's';
    forall i | 0 <= i < |g| ensures SafeChar(i == 0, g[i]) {
      if i >= 7 { assert g[i] == Hash(c, s)[i - 7]; }
    }
  }

  method NewTlsManifest(c: Crypto, kind: string, chain: string, key: string) returns (m: Manifest, digest: string)
    ensures m == TlsManifest(c, kind, chain, key) && digest == Digest(c, m, TlsFiles(chain, key))
  {
    m := TlsManifest(c, kind, chain, key);
    digest := ManifestDigest(c, m, TlsFiles(chain, key));
  }

  // ---- the assumptions can be met ----

  predicate NulFreeFile(f: ManifestFile) {
    NoNul(f.name) && NoNul(f.role) && NoNul(f.sha256) && NoNul(f.encoding) && NoNul(f.data)
  }

  ghost predicate NulFree(m: Manifest) {
    NoNul(m.schema) && NoNul(m.kind) && forall i :: 0 <= i < |m.files| ==> NulFreeFile(m.files[i])
  }

  function RenderFile(f: ManifestFile): string {
    f.name + "\0" + (f.role + "\0" + (f.sha256 + "\0" + (f.encoding + "\0" + (f.data + "\0"))))
  }

  function RenderFiles(files: seq<ManifestFile>): string {
    if files == [] then "" else RenderFile(files[0]) + RenderFiles(files[1..])
  }

  // A text of a manifest, for the sake of the argument.
  function Render(m: Manifest): string {
    m.schema + "\0" + (m.kind + "\0" + RenderFiles(m.files))
  }

  lemma RenderFileUnique(f: ManifestFile, x: string, g: ManifestFile, y: string)
    requires NulFreeFile(f) && NulFreeFile(g) && RenderFile(f) + x == RenderFile(g) + y
    ensures f == g && x == y
  {
    RenderFileRest(f, x);
    RenderFileRest(g, y);
    FieldUnique(f.name, Rest1(f, x), g.name, Rest1(g, y));
    FieldUnique(f.role, Rest2(f, x), g.role, Rest2(g, y));
    FieldUnique(f.sha256, Rest3(f, x), g.sha256, Rest3(g, y));
    FieldUnique(f.encoding, f.data + "\0" + x, g.encoding, g.data + "\0" + y);
    FieldUnique(f.data, x, g.data, y);
  }

  function Rest3(f: ManifestFile, x: string): string { f.encoding + "\0" + (f.data + "\0" + x) }
  function Rest2(f: ManifestFile, x: string): string { f.sha256 + "\0" + Rest3(f, x) }
  function Rest1(f: ManifestFile, x: string): string { f.role + "\0" + Rest2(f, x) }

  lemma RenderFileRest(f: ManifestFile, x: string)
    ensures RenderFile(f) + x == f.name + "\0" + Rest1(f, x)
  {
    Regrouped(f.encoding, f.data + "\0", x);
    Regrouped(f.sha256, f.encoding + "\0" + (f.data + "\0"), x);
    Regrouped(f.role, f.sha256 + "\0" + (f.encoding + "\0" + (f.data + "\0")), x);
    Regrouped(f.name, f.role + "\0" + (f.sha256 + "\0" + (f.encoding + "\0" + (f.data + "\0"))), x);
  }

  lemma Regrouped(a: string, b: string, x: string)
    ensures a + "\0" + b + x == a + "\0" + (b + x)
  {
  }

  lemma RenderFileNonEmpty(f: ManifestFile)
    ensures RenderFile(f) != ""
  {
  }

  lemma {:induction false} RenderFilesUnique(a: seq<ManifestFile>, b: seq<ManifestFile>)
    requires (forall i :: 0 <= i < |a| ==> NulFreeFile(a[i])) && (forall i :: 0 <= i < |b| ==> NulFreeFile(b[i]))
    requires RenderFiles(a) == RenderFiles(b)
    ensures a == b
  {
    if a != [] { RenderFileNonEmpty(a[0]); }
    if b != [] { RenderFileNonEmpty(b[0]); }
    if a != [] && b != [] {
      RenderFileUnique(a[0], RenderFiles(a[1..]), b[0], RenderFiles(b[1..]));
      RenderFilesUnique(a[1..], b[1..]);
      assert a == [a[0]] + a[1..] && b == [b[0]] + b[1..];
    }
  }

  lemma RenderUnique(m: Manifest, n: Manifest)
    requires NulFree(m) && NulFree(n) && Render(m) == Render(n)
    ensures m == n
  {
    FieldUnique(m.schema, m.kind + "\0" + RenderFiles(m.files), n.schema, n.kind + "\0" + RenderFiles(n.files));
    FieldUnique(m.kind, RenderFiles(m.files), n.kind, RenderFiles(n.files));
    RenderFilesUnique(m.files, n.files);
  }

  lemma {:induction false} GroupsNoNul(s: string)
    requires Encoding.Groups(s).Some?
    ensures NoNul(s)
  {
    if |s| >= 4 {
      assert s == s[..2] + s[2..] && s[2..] == [s[2]] + s[3..];
      if Encoding.Value(s[2]) != 64 && Encoding.Value(s[3]) != 64 {
        GroupsNoNul(s[4..]);
        assert s == [s[0], s[1], s[2], s[3]] + s[4..];
      } else {
        assert |s| == 4;
      }
    }
  }

  lemma {:induction false} StripKeeps(s: string)
    ensures '\0' in s ==> '\0' in Encoding.Strip(s)
  {
    if s != "" {
      StripKeeps(s[1..]);
      assert s == [s[0]] + s[1..];
    }
  }

  lemma {:induction false} DecodedDataPlain(c: Crypto, files: seq<ManifestFile>)
    requires FilesOf(c, files).Some?
    ensures forall i :: 0 <= i < |files| ==> NoNul(files[i].data)
  {
    if files != [] {
      var n := |files| - 1;
      DecodedDataPlain(c, files[..n]);
      assert forall i :: 0 <= i < n ==> files[..n][i] == files[i];
      StripKeeps(files[n].data);
      GroupsNoNul(Encoding.Strip(files[n].data));
    }
  }

  lemma ValidPlain(c: Crypto, m: Manifest)
    requires ValidManifest(m) && FilesOf(c, m.files).Some?
    ensures NulFree(m)
  {
    DecodedDataPlain(c, m.files);
    RoleForPlain(m.kind, "");
    forall i | 0 <= i < |m.files| ensures NulFreeFile(m.files[i]) {
      assert ValidFile(m.kind, m.files[i]);
      SafeNameIsTrimmed(m.files[i].name);
      RoleForPlain(m.kind, m.files[i].name);
    }
  }

  ghost function ReadText(s: string): Option<Manifest> {
    if exists m :: NulFree(m) && Render(m) == s then
      var m :| NulFree(m) && Render(m) == s;
      Some(m)
    else None
  }

  // Functions outside the model that meet what is asked of them, around any hash into 32 bytes: one
  // certificate that never was an authority, and any key for it.
  ghost function CryptoWith(sha: string -> string): Crypto {
    Crypto(
      sha,
      m => Render(m),
      s => ReadText(s),
      s => if s == "" then None else Some([Cert(false, 0, 0)]),
      (kind, chain, key) => key != "")
  }

  lemma CryptoWithOk(sha: string -> string)
    requires forall s :: |sha(s)| == 32 && Encoding.IsBytes(sha(s))
    ensures CryptoOk(CryptoWith(sha))
  {
    var c := CryptoWith(sha);
    forall m | ValidManifest(m) && FilesOf(c, m.files).Some? ensures c.unmarshal(c.marshal(m)) == Some(m) {
      ValidPlain(c, m);
      ReadTextIs(m);
    }
  }

  /** What CryptoOk asks of the functions outside the model can be met. */
  lemma CryptoExists()
    ensures exists c :: CryptoOk(c)
  {
    var zeros := seq(32, _ => '0');
    CryptoWithOk(s => zeros);
  }

  lemma ReadTextIs(m: Manifest)
    requires NulFree(m)
    ensures ReadText(Render(m)) == Some(m)
  {
    RenderUnique(m, ReadText(Render(m)).value);
  }
}
