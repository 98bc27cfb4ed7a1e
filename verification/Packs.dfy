/** Local packs: a bundle with the metadata that publishing and seeding check. */
module Packs {
  import opened Wrappers
  import opened Text
  import opened Kinds
  import opened Etcd
  import opened Format
  import opened Content
  import Encoding
  import Keyspace
  import opened Shapes

  const METADATA_SCHEMA := "pemcast-pack/v6"

  datatype MetadataFile = MetadataFile(role: string, sha256: string)

  datatype Metadata = Metadata(
    schema: string, kind: string, prefix: string, target: string, generation: string, bundleSha: string, valueSha: string,
    size: nat, activeKey: string, bundleKey: string, files: map<string, MetadataFile>)

  datatype Pack = Pack(metadata: Metadata, bundle: string)

  // The options of one packing operation, and the source files as read; None is a read error.
  datatype Options = Options(kind: string, target: string, prefix: string,
                             chain: Option<string>, key: Option<string>, ca: Option<string>)

  function FileSums(files: seq<ManifestFile>): map<string, MetadataFile> {
    if files == [] then map[] else
      var last := files[|files| - 1];
      FileSums(files[..|files| - 1])[last.name := MetadataFile(last.role, last.sha256)]
  }

  function ActiveKey(keys: Keyspace.Keys, target: string): string { Keyspace.Print(keys, Active(V6, target)) }
  function BundleKey(keys: Keyspace.Keys, target: string, generation: string): string {
    Keyspace.Print(keys, Bundle(V6, target, generation))
  }

  // The manifest of the material, and its files.
  function Material(c: Crypto, o: Options): Option<(Manifest, map<string, string>)> {
    if IsTls(o.kind) then
      if o.chain.None? || o.key.None? then None
      else Some((TlsManifest(c, o.kind, o.chain.value, o.key.value), TlsFiles(o.chain.value, o.key.value)))
    else if o.kind == TRUST then
      if o.ca.None? then None else Some((TrustManifest(c, o.ca.value), map[CA := o.ca.value]))
    else None
  }

  // Every metadata field as it follows from a prefix, a target, a manifest and an encoded bundle.
  function Derived(c: Crypto, prefix: string, keys: Keyspace.Keys, target: string, m: Manifest, digest: string, bundle: string): Metadata {
    Metadata(METADATA_SCHEMA, m.kind, prefix, target, Generation(digest), digest, Hash(c, bundle), |bundle|,
             ActiveKey(keys, target), BundleKey(keys, target, Generation(digest)), FileSums(m.files))
  }

  ghost function Build(c: Crypto, o: Options): Option<Pack> {
    if !SafeName(o.target) || Keyspace.NewKeys(o.prefix).None? || Material(c, o).None? then None else
      var keys := Keyspace.NewKeys(o.prefix).value;
      var (m, files) := Material(c, o).value;
      if Encode(c, m).None? then None
      else Some(Pack(Derived(c, keys.prefix, keys, o.target, m, Digest(c, m, files), Encode(c, m).value), Encode(c, m).value))
  }

  // What Validate accepts: exactly the metadata that follow from its prefix, its target and its bundle.
  ghost predicate ValidPack(c: Crypto, p: Pack) {
    Keyspace.NewKeys(p.metadata.prefix).Some? && SafeName(p.metadata.target) && Decode(c, p.bundle).Some? &&
    p.metadata == Derived(c, p.metadata.prefix, Keyspace.NewKeys(p.metadata.prefix).value, p.metadata.target,
                          Decode(c, p.bundle).value.manifest, Decode(c, p.bundle).value.digest, p.bundle)
  }

  // ---- Validate ----

  method NewKeys(prefix: string) returns (keys: Option<Keyspace.Keys>)
    ensures keys == Keyspace.NewKeys(prefix)
  {
    var trimmed := Trim(prefix);
    if trimmed == "" || trimmed[0] != '/' { return None; }
    var parts := Keyspace.Split(trimmed);
    if "." in parts || ".." in parts { return None; }
    var clean := Keyspace.Clean(trimmed);
    if clean != "/" && !Keyspace.SafeParts(Keyspace.Split(clean[1..])) { return None; }
    keys := Some(Keyspace.Keys(clean));
  }

  method DecodeBundle(c: Crypto, data: string) returns (result: Option<Decoded>)
    ensures result == Decode(c, data)
  {
    if |data| > MAX_ENCODED || c.unmarshal(data).None? { return None; }
    var m := c.unmarshal(data).value;
    var files := DecodeManifestFiles(c, m);
    if files.None? { return None; }
    var digest := ManifestDigest(c, m, files.value);
    result := Some(Decoded(m, files.value, digest));
  }

  ghost predicate SumsMatch(sums: map<string, MetadataFile>, files: seq<ManifestFile>) {
    forall i :: 0 <= i < |files| ==> files[i].name in sums && sums[files[i].name] == MetadataFile(files[i].role, files[i].sha256)
  }

  lemma {:induction false} FileSumsNames(files: seq<ManifestFile>, name: string)
    ensures name in FileSums(files) <==> HasName(files, name)
  {
    if files != [] {
      FileSumsNames(files[..|files| - 1], name);
      HasNameLast(files, name);
    }
  }

  lemma {:induction false} FileSumsSize(files: seq<ManifestFile>)
    requires DistinctNames(files)
    ensures |FileSums(files)| == |files|
  {
    if files != [] {
      var before, last := files[..|files| - 1], files[|files| - 1];
      FileSumsSize(before);
      FileSumsNames(before, last.name);
      assert FileSums(files).Keys == FileSums(before).Keys + {last.name};
    }
  }

  lemma {:induction false} FileSumsAt(files: seq<ManifestFile>, i: nat)
    requires DistinctNames(files) && i < |files|
    ensures files[i].name in FileSums(files) && FileSums(files)[files[i].name] == MetadataFile(files[i].role, files[i].sha256)
    decreases |files|
  {
    var n := |files| - 1;
    if i < n {
      FileSumsAt(files[..n], i);
      assert files[..n][i] == files[i];
    }
  }

  // As many sums as files, each file with its own: these are the sums.
  lemma SumsPinned(sums: map<string, MetadataFile>, files: seq<ManifestFile>)
    requires DistinctNames(files)
    ensures |sums| == |files| && SumsMatch(sums, files) <==> sums == FileSums(files)
  {
    FileSumsSize(files);
    forall i | 0 <= i < |files|
      ensures files[i].name in FileSums(files) && FileSums(files)[files[i].name] == MetadataFile(files[i].role, files[i].sha256)
    {
      FileSumsAt(files, i);
    }
    if |sums| == |files| && SumsMatch(sums, files) {
      var own := FileSums(files);
      forall name | name in own ensures name in sums && sums[name] == own[name] {
        FileSumsNames(files, name);
        var i :| 0 <= i < |files| && files[i].name == name;
      }
      SameKeys(own.Keys, sums.Keys);
      assert sums == own;
    }
  }

  lemma SameKeys(a: set<string>, b: set<string>)
    requires a <= b && |a| == |b|
    ensures a == b
  {
    assert |b - a| == 0;
  }

  method CheckSums(sums: map<string, MetadataFile>, kind: string, files: seq<ManifestFile>) returns (ok: bool)
    requires HasExpected(kind, files)
    ensures ok <==> SumsMatch(sums, files)
  {
    for i := 0 to |files|
      invariant SumsMatch(sums, files[..i])
    {
      var file := files[i];
      if file.name !in sums || sums[file.name].role != file.role || sums[file.name].sha256 != file.sha256 { return false; }
      if file.name !in Expected(kind) || file.role != Expected(kind)[file.name] { return false; }
    }
    assert files[..|files|] == files;
    ok := true;
  }

  ghost predicate HasExpected(kind: string, files: seq<ManifestFile>) {
    forall i :: 0 <= i < |files| ==> files[i].name in Expected(kind) && files[i].role == Expected(kind)[files[i].name]
  }

  lemma DecodedExpected(c: Crypto, data: string)
    requires CryptoOk(c) && Decode(c, data).Some?
    ensures var m := Decode(c, data).value.manifest;
      DistinctNames(m.files) && |Expected(m.kind)| == |m.files| == |Decode(c, data).value.files| && HasExpected(m.kind, m.files)
  {
    FilesExpected(c, Decode(c, data).value.manifest);
  }

  lemma FilesExpected(c: Crypto, m: Manifest)
    requires CryptoOk(c) && DecodeFiles(c, m).Some?
    ensures |Expected(m.kind)| == |m.files| == |DecodeFiles(c, m).value| && HasExpected(m.kind, m.files)
  {
    var files := DecodeFiles(c, m).value;
    DecodedNames(c, m);
    FilesOfSize(c, m.files);
    forall i | 0 <= i < |m.files| ensures m.files[i].name in files { FilesOfKeys(c, m.files, m.files[i].name); }
    SameCount(files, Expected(m.kind));
  }

  lemma SameCount(a: map<string, string>, b: map<string, string>)
    requires a.Keys == b.Keys
    ensures |a| == |b|
  {
    assert |a| == |a.Keys| && |b| == |b.Keys|;
  }

  /** Validate accepts a pack exactly when its metadata are those its prefix, target and bundle give: it pins
      every field but the spelling of the prefix. */
  method Validate(c: Crypto, p: Pack) returns (ok: bool)
    requires CryptoOk(c)
    ensures ok <==> ValidPack(c, p)
  {
    var metadata := p.metadata;
    if metadata.schema != METADATA_SCHEMA { return false; }
    var keys := NewKeys(metadata.prefix);
    if keys.None? || !SafeName(metadata.target) { return false; }
    if metadata.valueSha != Hash(c, p.bundle) || metadata.size != |p.bundle| { return false; }
    var decoded := DecodeBundle(c, p.bundle);
    if decoded.None? { return false; }
    var m, digest := decoded.value.manifest, decoded.value.digest;
    if digest != metadata.bundleSha || metadata.generation != Generation(digest) { return false; }
    if metadata.activeKey != ActiveKey(keys.value, metadata.target) { return false; }
    if metadata.bundleKey != BundleKey(keys.value, metadata.target, metadata.generation) { return false; }
    if metadata.kind != m.kind { return false; }
    DecodedExpected(c, p.bundle);
    SumsPinned(metadata.files, m.files);
    var count := |Expected(m.kind)|;
    if |decoded.value.files| != count || |m.files| != count || |metadata.files| != count { return false; }
    ok := CheckSums(metadata.files, m.kind, m.files);
  }

  // ---- Build, then Validate ----

  // metadataFiles
  method MetadataFiles(m: Manifest) returns (files: map<string, MetadataFile>)
    ensures files == FileSums(m.files)
  {
    files := map[];
    for i := 0 to |m.files|
      invariant files == FileSums(m.files[..i])
    {
      assert m.files[..i + 1][..i] == m.files[..i];
      files := files[m.files[i].name := MetadataFile(m.files[i].role, m.files[i].sha256)];
    }
    assert m.files[..|m.files|] == m.files;
  }

  method BuildPack(c: Crypto, o: Options) returns (p: Option<Pack>)
    ensures p == Build(c, o)
  {
    if !SafeName(o.target) { return None; }
    var keys := NewKeys(o.prefix);
    if keys.None? || Material(c, o).None? { return None; }
    var (m, files) := Material(c, o).value;
    var digest := ManifestDigest(c, m, files);
    var encoded := EncodeManifest(c, m);
    if encoded.None? { return None; }
    var sums := MetadataFiles(m);
    p := Some(Pack(
      Metadata(METADATA_SCHEMA, m.kind, keys.value.prefix, o.target, Generation(digest), digest, Hash(c, encoded.value),
               |encoded.value|, ActiveKey(keys.value, o.target), BundleKey(keys.value, o.target, Generation(digest)), sums),
      encoded.value));
  }

  ghost predicate BytesOk(o: Options) {
    (o.chain.Some? ==> Encoding.IsBytes(o.chain.value)) && (o.key.Some? ==> Encoding.IsBytes(o.key.value)) &&
    (o.ca.Some? ==> Encoding.IsBytes(o.ca.value))
  }

  lemma MaterialDecodes(c: Crypto, o: Options)
    requires CryptoOk(c) && BytesOk(o) && Material(c, o).Some? && DecodeFiles(c, Material(c, o).value.0).Some?
    ensures DecodeFiles(c, Material(c, o).value.0) == Some(Material(c, o).value.1) && Material(c, o).value.0.kind == o.kind
  {
    if IsTls(o.kind) { BuiltTls(c, o.kind, o.chain.value, o.key.value); } else { BuiltTrust(c, o.ca.value); }
  }

  lemma BuildDecodes(c: Crypto, o: Options)
    requires CryptoOk(c) && BytesOk(o) && Build(c, o).Some?
    ensures var (m, files) := Material(c, o).value;
      Decode(c, Build(c, o).value.bundle) == Some(Decoded(m, files, Digest(c, m, files)))
  {
    MaterialDecodes(c, o);
    EncodeDecode(c, Material(c, o).value.0);
  }

  // Different namespaces have different active keys.
  lemma ActiveKeysDiffer(a: Keyspace.Keys, partsA: seq<string>, b: Keyspace.Keys, partsB: seq<string>, target: string)
    requires Keyspace.Namespace(a, partsA) && Keyspace.Namespace(b, partsB)
    requires ActiveKey(a, target) == ActiveKey(b, target)
    ensures a == b
  {
    var tail := "/v6/active/" + target;
    ActiveKeyIs(a, partsA, target);
    ActiveKeyIs(b, partsB, target);
    var x, y := Keyspace.Slashed(partsA), Keyspace.Slashed(partsB);
    assert |x + tail| == |y + tail|;
    assert x == (x + tail)[..|x|] && y == (y + tail)[..|y|];
    SlashedEmpty(partsA);
    SlashedEmpty(partsB);
  }

  lemma SlashedEmpty(parts: seq<string>)
    ensures Keyspace.Rooted(parts) == if Keyspace.Slashed(parts) == "" then "/" else Keyspace.Slashed(parts)
  {
    Keyspace.RootedStarts(parts);
  }

  lemma ActiveKeyIs(keys: Keyspace.Keys, parts: seq<string>, target: string)
    requires Keyspace.Namespace(keys, parts)
    ensures ActiveKey(keys, target) == Keyspace.Slashed(parts) + ("/v6/active/" + target)
  {
    Keyspace.RootIs(parts, V6);
    Keyspace.SlashedNext(parts, "v6");
    assert "/" + "v6" + "/active/" == "/v6/active/";
  }

  /** A pack that Build made passes Validate exactly when its normalised prefix does not end in white space. */
  lemma BuildValidates(c: Crypto, o: Options)
    requires CryptoOk(c) && BytesOk(o) && Build(c, o).Some?
    ensures var p := Build(c, o).value;
      p.metadata.prefix != "" && (ValidPack(c, p) <==> !IsSpace(p.metadata.prefix[|p.metadata.prefix| - 1]))
  {
    var p, keys := Build(c, o).value, Keyspace.NewKeys(o.prefix).value;
    Keyspace.NewKeysNamespace(o.prefix);
    var parts :| Keyspace.Namespace(keys, parts);
    Keyspace.RootedStarts(parts);
    Keyspace.NewKeysAgain(keys, parts);
    BuildDecodes(c, o);
    SameKeysOrInvalid(c, p, keys, parts);
  }

  lemma SameKeysOrInvalid(c: Crypto, p: Pack, keys: Keyspace.Keys, parts: seq<string>)
    requires Keyspace.Namespace(keys, parts) && Decode(c, p.bundle).Some? && SafeName(p.metadata.target)
    requires p.metadata == Derived(c, keys.prefix, keys, p.metadata.target, Decode(c, p.bundle).value.manifest,
                                   Decode(c, p.bundle).value.digest, p.bundle)
    ensures ValidPack(c, p) <==> Keyspace.NewKeys(keys.prefix) == Some(keys)
  {
    if ValidPack(c, p) {
      var again := Keyspace.NewKeys(keys.prefix).value;
      Keyspace.NewKeysNamespace(keys.prefix);
      var others :| Keyspace.Namespace(again, others);
      ActiveKeysDiffer(keys, parts, again, others, p.metadata.target);
    }
  }

  /** Such prefixes exist: "/a /" is accepted, its normal form ends in a blank, and its packs do not validate. */
  lemma TrailingBlank(part: string, prefix: string)
    requires Keyspace.SafePart(part) && IsSpace(part[|part| - 1]) && prefix == "/" + part
    ensures Keyspace.NewKeys(prefix + "/") == Some(Keyspace.Keys(prefix))
    ensures Keyspace.NewKeys(prefix) != Some(Keyspace.Keys(prefix))
  {
    var given := prefix + "/";
    TrimSpaceFixed(given);
    TrailingDecomposes(part, prefix);
    Keyspace.CleanIs(given, [part]);
    SlashedOne(part);
    Keyspace.SplitPlain(part);
    assert prefix[1..] == part;
    Keyspace.NewKeysAgain(Keyspace.Keys(prefix), [part]);
  }

  lemma SlashedOne(part: string)
    ensures Keyspace.Slashed([part]) == "/" + part
  {
    Keyspace.SlashedNext([], part);
    assert [] + [part] == [part];
  }

  lemma TrailingDecomposes(part: string, prefix: string)
    requires Keyspace.SafePart(part) && prefix == "/" + part
    ensures Keyspace.Decomposes(prefix + "/", [part])
  {
    Keyspace.PartDecomposes("");
    Keyspace.PartDecomposes(part);
    Keyspace.ConcatDecomposes("", [], part, [part]);
    assert "" + "/" + part == prefix && [] + [part] == [part];
    Keyspace.ConcatDecomposes(prefix, [part], "", []);
    assert prefix + "/" + "" == prefix + "/" && [part] + [] == [part];
  }

  // ---- packs, written out ----

  // The sum and role of each file of the manifest, and no other.
  ghost predicate SumsOf(sums: map<string, MetadataFile>, m: Manifest) {
    |sums| == |m.files| &&
    forall i :: 0 <= i < |m.files| ==>
      m.files[i].name in sums && sums[m.files[i].name].role == m.files[i].role && sums[m.files[i].name].sha256 == m.files[i].sha256
  }

  // Every metadata field but the prefix and target themselves.
  ghost predicate Tells(c: Crypto, p: Pack, keys: Keyspace.Keys, m: Manifest, digest: string) {
    var d := p.metadata;
    d.schema == "pemcast-pack/v6" && d.kind == m.kind && d.generation == "sha256-" + digest && d.bundleSha == digest &&
    d.valueSha == Encoding.Hex(c.sha(p.bundle)) && d.size == |p.bundle| && SumsOf(d.files, m) &&
    d.activeKey == Keyspace.Base(keys) + "/v6" + "/active/" + d.target &&
    d.bundleKey == Keyspace.Base(keys) + "/v6" + "/bundles/" + d.target + "/" + d.generation
  }

  lemma KeyTexts(prefix: string, keys: Keyspace.Keys, target: string, generation: string)
    requires Keyspace.NewKeys(prefix) == Some(keys)
    ensures ActiveKey(keys, target) == Keyspace.Base(keys) + "/v6" + "/active/" + target
    ensures BundleKey(keys, target, generation) == Keyspace.Base(keys) + "/v6" + "/bundles/" + target + "/" + generation
  {
    Keyspace.NewKeysNamespace(prefix);
    var parts :| Keyspace.Namespace(keys, parts);
    Keyspace.PrintedText(keys, parts, Active(V6, target));
    Keyspace.PrintedText(keys, parts, Bundle(V6, target, generation));
  }

  lemma DerivedTells(c: Crypto, p: Pack, prefix: string, keys: Keyspace.Keys, m: Manifest, digest: string)
    requires Keyspace.NewKeys(prefix) == Some(keys) && DistinctNames(m.files)
    ensures p.metadata == Derived(c, p.metadata.prefix, keys, p.metadata.target, m, digest, p.bundle) <==> Tells(c, p, keys, m, digest)
  {
    KeyTexts(prefix, keys, p.metadata.target, Generation(digest));
    SumsPinned(p.metadata.files, m.files);
    assert SumsOf(p.metadata.files, m) <==> |p.metadata.files| == |m.files| && SumsMatch(p.metadata.files, m.files);
  }

  // A bundle of at most one mebibyte, decoded.
  ghost predicate Holds(c: Crypto, data: string, m: Manifest, files: map<string, string>, digest: string) {
    |data| <= 1_048_576 && c.unmarshal(data) == Some(m) && IsBundle(c, m, files, digest)
  }

  /** Which packs are valid: those with an accepted prefix, a safe target and a v6 bundle, each of whose other fields is
      what these determine. */
  lemma ValidIs(c: Crypto, p: Pack)
    requires CryptoOk(c)
    ensures ValidPack(c, p) <==>
      SafeName(p.metadata.target) &&
      exists keys, m, files, digest ::
        Keyspace.NewKeys(p.metadata.prefix) == Some(keys) && Holds(c, p.bundle, m, files, digest) && Tells(c, p, keys, m, digest)
  {
    forall m, files, digest
      ensures Decode(c, p.bundle) == Some(Decoded(m, files, digest)) <==> Holds(c, p.bundle, m, files, digest)
    {
      DecodeIs(c, p.bundle, m, files, digest);
    }
    if Keyspace.NewKeys(p.metadata.prefix).Some? && Decode(c, p.bundle).Some? {
      var keys, d := Keyspace.NewKeys(p.metadata.prefix).value, Decode(c, p.bundle).value;
      assert Holds(c, p.bundle, d.manifest, d.files, d.digest);
      DerivedTells(c, p, p.metadata.prefix, keys, d.manifest, d.digest);
    }
  }

  // What a build records besides the bundle.
  ghost predicate Recorded(c: Crypto, o: Options, p: Pack, m: Manifest, digest: string) {
    SafeName(o.target) && p.metadata.target == o.target && |p.bundle| <= 1_048_576 && p.bundle == c.marshal(m) &&
    exists keys :: Keyspace.NewKeys(o.prefix) == Some(keys) && p.metadata.prefix == keys.prefix && Tells(c, p, keys, m, digest)
  }

  // What is packed: an identity of the given type and contents, or the given authorities.
  ghost predicate Packs(c: Crypto, o: Options, m: Manifest, digest: string) {
    ((o.kind == "tls-server" || o.kind == "tls-client") && o.chain.Some? && o.key.Some? &&
     Identity(c, o.kind, o.chain.value, o.key.value) && m == TlsManifest(c, o.kind, o.chain.value, o.key.value) &&
     digest == Encoding.Hex(c.sha(TlsText(c, o.kind, o.chain.value, o.key.value)))) ||
    (o.kind == "trust" && o.ca.Some? && Authorities(c, o.ca.value) && m == TrustManifest(c, o.ca.value) &&
     digest == Encoding.Hex(c.sha(TrustText(c, o.ca.value))))
  }

  lemma PacksTls(c: Crypto, o: Options)
    requires CryptoOk(c) && BytesOk(o) && IsTls(o.kind) && o.chain.Some? && o.key.Some?
    ensures var m := TlsManifest(c, o.kind, o.chain.value, o.key.value);
      (DecodeFiles(c, m).Some? <==> Identity(c, o.kind, o.chain.value, o.key.value)) &&
      (DecodeFiles(c, m).Some? ==>
        Digest(c, m, TlsFiles(o.chain.value, o.key.value)) == Encoding.Hex(c.sha(TlsText(c, o.kind, o.chain.value, o.key.value))))
  {
    var m, chain, key := TlsManifest(c, o.kind, o.chain.value, o.key.value), o.chain.value, o.key.value;
    BuiltTls(c, o.kind, chain, key);
    IdentityIs(c, o.kind, chain, key);
    if DecodeFiles(c, m).Some? {
      TlsDecodesShape(c, m, chain, key);
      TlsDigest(c, m, chain, key);
    }
  }

  lemma PacksTrust(c: Crypto, o: Options)
    requires CryptoOk(c) && BytesOk(o) && o.ca.Some?
    ensures var m := TrustManifest(c, o.ca.value);
      (DecodeFiles(c, m).Some? <==> Authorities(c, o.ca.value)) &&
      (DecodeFiles(c, m).Some? ==> Digest(c, m, map["ca-bundle.pem" := o.ca.value]) == Encoding.Hex(c.sha(TrustText(c, o.ca.value))))
  {
    var m := TrustManifest(c, o.ca.value);
    BuiltTrust(c, o.ca.value);
    AuthoritiesIs(c, o.ca.value);
    TrustDecodesIff(c, m, o.ca.value);
    if DecodeFiles(c, m).Some? { TrustDigest(c, m, o.ca.value); }
  }

  // The material of a build that encodes.
  lemma MaterialPacks(c: Crypto, o: Options, m: Manifest, digest: string)
    requires CryptoOk(c) && BytesOk(o)
    ensures Packs(c, o, m, digest) <==>
      Material(c, o).Some? && Material(c, o).value.0 == m && DecodeFiles(c, m).Some? && Digest(c, m, Material(c, o).value.1) == digest
  {
    if IsTls(o.kind) && o.chain.Some? && o.key.Some? { PacksTls(c, o); }
    if o.kind == TRUST && o.ca.Some? { PacksTrust(c, o); }
  }

  lemma DistinctBuilt(c: Crypto, o: Options)
    requires Material(c, o).Some?
    ensures DistinctNames(Material(c, o).value.0.files)
  {
    NamesDiffer();
  }

  /** What Build makes: with a safe target and an accepted prefix, exactly of an identity or of authorities within the
      size limit, the pack that records them. */
  lemma BuildIs(c: Crypto, o: Options, p: Pack)
    requires CryptoOk(c) && BytesOk(o)
    ensures Build(c, o) == Some(p) <==> exists m, digest :: Packs(c, o, m, digest) && Recorded(c, o, p, m, digest)
  {
    forall m, digest
      ensures Packs(c, o, m, digest) <==>
        Material(c, o).Some? && Material(c, o).value.0 == m && DecodeFiles(c, m).Some? && Digest(c, m, Material(c, o).value.1) == digest
    {
      MaterialPacks(c, o, m, digest);
    }
    if Material(c, o).Some? {
      DistinctBuilt(c, o);
      BuildsOf(c, o, p, Material(c, o).value.0, Material(c, o).value.1);
    }
  }

  lemma BuildsOf(c: Crypto, o: Options, p: Pack, m: Manifest, files: map<string, string>)
    requires Material(c, o) == Some((m, files)) && DistinctNames(m.files)
    ensures Build(c, o) == Some(p) <==> DecodeFiles(c, m).Some? && Recorded(c, o, p, m, Digest(c, m, files))
  {
    if Keyspace.NewKeys(o.prefix).Some? {
      DerivedTells(c, p, o.prefix, Keyspace.NewKeys(o.prefix).value, m, Digest(c, m, files));
    }
  }
}
