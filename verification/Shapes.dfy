/** The two bundle formats, written out: which values are bundles, what they hold, and what their generations hash. */
module Shapes {
  import opened Wrappers
  import opened Text
  import opened Kinds
  import opened Format
  import opened Content
  import Encoding

  // ---- one file ----

  // A file of this name and role that carries this content.
  ghost predicate Carries(c: Crypto, f: ManifestFile, name: string, role: string, content: string) {
    f.name == name && f.role == role && f.encoding == "base64" && f.sha256 == Encoding.Hex(c.sha(content)) &&
    Encoding.Decode(f.data) == Some(content)
  }

  // The first certificate is no authority, all others are, and the key belongs to the chain.
  ghost predicate Identity(c: Crypto, kind: string, chain: string, key: string) {
    exists certificates: seq<Cert> :: c.certificates(chain) == Some(certificates) && certificates != [] && !certificates[0].ca &&
      (forall i :: 1 <= i < |certificates| ==> certificates[i].ca) && c.keyPair(kind, chain, key)
  }

  ghost predicate Authorities(c: Crypto, data: string) {
    exists certificates: seq<Cert> :: c.certificates(data) == Some(certificates) && forall i :: 0 <= i < |certificates| ==> certificates[i].ca
  }

  // The two files of an identity, in either order.
  ghost predicate CarriesPair(c: Crypto, files: seq<ManifestFile>, role: string, chain: string, key: string) {
    |files| == 2 &&
    ((Carries(c, files[0], "fullchain.pem", role, chain) && Carries(c, files[1], "privkey.pem", "private-key", key)) ||
     (Carries(c, files[0], "privkey.pem", "private-key", key) && Carries(c, files[1], "fullchain.pem", role, chain)))
  }

  ghost predicate TlsShape(c: Crypto, m: Manifest, chain: string, key: string) {
    m.schema == "pemcast/v6" && (m.kind == "tls-server" || m.kind == "tls-client") &&
    CarriesPair(c, m.files, "certificate-chain", chain, key) && Identity(c, m.kind, chain, key)
  }

  ghost predicate TrustShape(c: Crypto, m: Manifest, data: string) {
    m.schema == "pemcast/v6" && m.kind == "trust" && |m.files| == 1 &&
    Carries(c, m.files[0], "ca-bundle.pem", "ca-certificate", data) && Authorities(c, data)
  }

  function TlsText(c: Crypto, kind: string, chain: string, key: string): string {
    "pemcast/v6\0" + kind + "\0" + "fullchain.pem\0certificate-chain\0" + c.sha(chain) + "privkey.pem\0private-key\0" + c.sha(key)
  }

  function TrustText(c: Crypto, data: string): string {
    "pemcast/v6\0trust\0" + "ca-bundle.pem\0ca-certificate\0" + c.sha(data)
  }

  lemma FilesOfPair(c: Crypto, f: ManifestFile, g: ManifestFile)
    ensures FilesOf(c, [f, g]) ==
      var x, y := Encoding.Decode(f.data), Encoding.Decode(g.data);
      if x.None? || y.None? || Hash(c, x.value) != f.sha256 || Hash(c, y.value) != g.sha256 then None
      else Some(map[f.name := x.value][g.name := y.value])
  {
    assert [f, g][..1] == [f] && [f][..0] == [];
    FilesOfSingle(c, f);
  }

  lemma FilesOfSingle(c: Crypto, f: ManifestFile)
    ensures FilesOf(c, [f]) ==
      var x := Encoding.Decode(f.data);
      if x.None? || Hash(c, x.value) != f.sha256 then None else Some(map[f.name := x.value])
  {
    assert [f][..0] == [];
    assert FilesOf(c, []) == Some(map[]);
  }

  lemma CarriesIs(c: Crypto, kind: string, f: ManifestFile, name: string, role: string, content: string)
    requires CryptoOk(c) && SafeName(name) && role == RoleFor(kind, name)
    ensures Carries(c, f, name, role, content) <==>
      f.name == name && ValidFile(kind, f) && Encoding.Decode(f.data) == Some(content) && Hash(c, content) == f.sha256
  {
    HashShape(c, content);
  }

  lemma Names()
    ensures SafeName("fullchain.pem") && SafeName("privkey.pem") && SafeName("ca-bundle.pem") && "fullchain.pem" != "privkey.pem"
  {
    NamesDiffer();
  }

  lemma IdentityIs(c: Crypto, kind: string, chain: string, key: string)
    ensures Identity(c, kind, chain, key) <==> ValidIdentity(c, kind, chain, key)
  {
    if ValidIdentity(c, kind, chain, key) { assert c.certificates(chain) == Some(c.certificates(chain).value); }
  }

  lemma AuthoritiesIs(c: Crypto, data: string)
    ensures Authorities(c, data) <==> ValidTrust(c, data)
  {
    if ValidTrust(c, data) { assert c.certificates(data) == Some(c.certificates(data).value); }
  }

  lemma PairFiles(c: Crypto, f: ManifestFile, g: ManifestFile, x: string, y: string)
    requires f.name != g.name
    ensures FilesOf(c, [f, g]) == Some(map[f.name := x, g.name := y]) <==>
      Encoding.Decode(f.data) == Some(x) && Hash(c, x) == f.sha256 && Encoding.Decode(g.data) == Some(y) && Hash(c, y) == g.sha256
  {
    FilesOfPair(c, f, g);
    var files := map[f.name := x, g.name := y];
    assert files[f.name] == x && files[g.name] == y;
    if FilesOf(c, [f, g]) == Some(files) {
      assert FilesOf(c, [f, g]).value[f.name] == Encoding.Decode(f.data).value;
    }
  }

  // Two files in this order.
  lemma PairIs(c: Crypto, kind: string, f: ManifestFile, role: string, x: string, g: ManifestFile, role': string, y: string)
    requires CryptoOk(c) && f.name != g.name && SafeName(f.name) && SafeName(g.name)
    requires role == RoleFor(kind, f.name) && role' == RoleFor(kind, g.name)
    ensures Carries(c, f, f.name, role, x) && Carries(c, g, g.name, role', y) <==>
      ValidFile(kind, f) && ValidFile(kind, g) && FilesOf(c, [f, g]) == Some(map[f.name := x, g.name := y])
  {
    CarriesIs(c, kind, f, f.name, role, x);
    CarriesIs(c, kind, g, g.name, role', y);
    PairFiles(c, f, g, x, y);
  }

  lemma TlsRoles(kind: string)
    requires IsTls(kind)
    ensures RoleFor(kind, "fullchain.pem") == "certificate-chain" && RoleFor(kind, "privkey.pem") == "private-key"
    ensures SafeName("fullchain.pem") && SafeName("privkey.pem") && "fullchain.pem" != "privkey.pem"
  {
    Names();
  }

  lemma Commuted(chain: string, key: string)
    ensures map["privkey.pem" := key, "fullchain.pem" := chain] == TlsFiles(chain, key)
    ensures TlsFiles(chain, key) == map["fullchain.pem" := chain, "privkey.pem" := key]
  {
  }

  predicate NamedPair(files: seq<ManifestFile>) {
    |files| == 2 &&
    ((files[0].name == "fullchain.pem" && files[1].name == "privkey.pem") ||
     (files[0].name == "privkey.pem" && files[1].name == "fullchain.pem"))
  }

  // The files of an identity, in either order.
  lemma PairOfIs(c: Crypto, kind: string, files: seq<ManifestFile>, chain: string, key: string)
    requires CryptoOk(c) && IsTls(kind)
    requires NamedPair(files)
    ensures CarriesPair(c, files, "certificate-chain", chain, key) <==>
      ValidFile(kind, files[0]) && ValidFile(kind, files[1]) && FilesOf(c, files) == Some(TlsFiles(chain, key))
  {
    TlsRoles(kind);
    Commuted(chain, key);
    assert files == [files[0], files[1]];
    if files[0].name == "fullchain.pem" {
      PairIs(c, kind, files[0], "certificate-chain", chain, files[1], "private-key", key);
    } else {
      PairIs(c, kind, files[0], "private-key", key, files[1], "certificate-chain", chain);
    }
  }

  // A decoded identity has its two files under the two names.
  lemma PairNames(c: Crypto, m: Manifest)
    requires CryptoOk(c) && DecodeFiles(c, m).Some? && IsTls(m.kind)
    ensures NamedPair(m.files)
  {
    DecodedNames(c, m);
    FilesOfKeys(c, m.files, m.files[0].name);
    FilesOfKeys(c, m.files, m.files[1].name);
  }

  lemma PairValid(c: Crypto, m: Manifest)
    requires m.schema == SCHEMA && IsTls(m.kind) && NamedPair(m.files)
    requires ValidFile(m.kind, m.files[0]) && ValidFile(m.kind, m.files[1])
    ensures ValidManifest(m)
  {
    Names();
  }

  lemma TlsShapeDecodes(c: Crypto, m: Manifest, chain: string, key: string)
    requires CryptoOk(c) && TlsShape(c, m, chain, key)
    ensures DecodeFiles(c, m) == Some(TlsFiles(chain, key))
  {
    PairOfIs(c, m.kind, m.files, chain, key);
    PairValid(c, m);
    IdentityIs(c, m.kind, chain, key);
    TlsFilesAt(chain, key);
  }

  lemma TlsFilesAt(chain: string, key: string)
    ensures FileAt(TlsFiles(chain, key), CHAIN) == chain && FileAt(TlsFiles(chain, key), KEY) == key
  {
    Names();
  }

  lemma TlsDecodesShape(c: Crypto, m: Manifest, chain: string, key: string)
    requires CryptoOk(c) && IsTls(m.kind) && DecodeFiles(c, m) == Some(TlsFiles(chain, key))
    ensures TlsShape(c, m, chain, key)
  {
    TlsRoles(m.kind);
    PairNames(c, m);
    assert ValidFile(m.kind, m.files[0]) && ValidFile(m.kind, m.files[1]);
    PairOfIs(c, m.kind, m.files, chain, key);
    IdentityIs(c, m.kind, chain, key);
    TlsFilesAt(chain, key);
  }

  lemma TrustDecodesIff(c: Crypto, m: Manifest, data: string)
    requires CryptoOk(c)
    ensures DecodeFiles(c, m) == Some(map["ca-bundle.pem" := data]) && m.kind == "trust" <==> TrustShape(c, m, data)
  {
    Names();
    AuthoritiesIs(c, data);
    if m.kind == "trust" && |m.files| == 1 {
      assert m.files == [m.files[0]];
      FilesOfSingle(c, m.files[0]);
      CarriesIs(c, m.kind, m.files[0], "ca-bundle.pem", "ca-certificate", data);
      SingleMaps(m.files[0].name, Encoding.Decode(m.files[0].data), "ca-bundle.pem", data);
    }
  }

  lemma SingleMaps(a: string, x: Option<string>, b: string, y: string)
    ensures x.Some? && map[a := x.value] == map[b := y] <==> a == b && x == Some(y)
  {
    if x.Some? && map[a := x.value] == map[b := y] {
      assert a in map[a := x.value] && map[b := y][a] == x.value;
    }
  }

  // ---- what is hashed ----

  lemma SortedTwo(a: string, b: string)
    requires a != b && Leq(a, b)
    ensures Sorted({a, b}) == [a, b]
  {
    var ids := Sorted({a, b});
    assert |{a, b}| == 2;
    SortedDistinct({a, b});
    SortedOrdered({a, b}, 0, 1);
    assert ids[0] in ids && ids[1] in ids;
    LeqTotal(a, b);
  }

  lemma SortedOne(a: string)
    ensures Sorted({a}) == [a]
  {
    assert |{a}| == 1;
    assert Sorted({a})[0] in Sorted({a});
  }

  lemma LinesOfTwo(c: Crypto, m: Manifest, files: map<string, string>, a: string, b: string)
    ensures Lines(LinesOf(c, m, files, [a, b])) ==
      a + "\0" + RoleOf(m.files, a) + "\0" + c.sha(FileAt(files, a)) + (b + "\0" + RoleOf(m.files, b) + "\0" + c.sha(FileAt(files, b)))
  {
    var list := LinesOf(c, m, files, [a, b]);
    LinesAt(c, m, files, [a, b]);
    assert list == [list[0], list[1]];
    assert list[1..] == [list[1]] && list[1..][1..] == [];
    assert Lines(list[1..]) == Entry(list[1]) + "";
  }

  lemma LinesOfOne(c: Crypto, m: Manifest, files: map<string, string>, a: string)
    ensures Lines(LinesOf(c, m, files, [a])) == a + "\0" + RoleOf(m.files, a) + "\0" + c.sha(FileAt(files, a))
  {
    var list := LinesOf(c, m, files, [a]);
    LinesAt(c, m, files, [a]);
    assert list == [list[0]] && list[1..] == [];
    assert Lines(list) == Entry(list[0]) + "";
  }

  lemma ChainBeforeKey()
    ensures Leq("fullchain.pem", "privkey.pem")
  {
    assert "fullchain.pem"[0] == 'f' && "privkey.pem"[0] == 'p';
  }

  lemma TlsDigest(c: Crypto, m: Manifest, chain: string, key: string)
    requires CryptoOk(c) && TlsShape(c, m, chain, key)
    ensures Digest(c, m, TlsFiles(chain, key)) == Encoding.Hex(c.sha(TlsText(c, m.kind, chain, key)))
  {
    var files := TlsFiles(chain, key);
    TlsShapeDecodes(c, m, chain, key);
    TlsRoles(m.kind);
    DecodedRoles(c, m, "fullchain.pem");
    DecodedRoles(c, m, "privkey.pem");
    ChainBeforeKey();
    assert files.Keys == {"fullchain.pem", "privkey.pem"};
    SortedTwo("fullchain.pem", "privkey.pem");
    LinesOfTwo(c, m, files, "fullchain.pem", "privkey.pem");
    TlsFilesAt(chain, key);
    TlsTextIs(c, m.kind, chain, key);
  }

  lemma TlsTextIs(c: Crypto, kind: string, chain: string, key: string)
    ensures "pemcast/v6" + "\0" + kind + "\0" +
      ("fullchain.pem" + "\0" + "certificate-chain" + "\0" + c.sha(chain) + ("privkey.pem" + "\0" + "private-key" + "\0" + c.sha(key)))
      == TlsText(c, kind, chain, key)
  {
    assert "pemcast/v6" + "\0" == "pemcast/v6\0";
    assert "fullchain.pem" + "\0" + "certificate-chain" + "\0" == "fullchain.pem\0certificate-chain\0";
    assert "privkey.pem" + "\0" + "private-key" + "\0" == "privkey.pem\0private-key\0";
  }

  lemma TrustDigest(c: Crypto, m: Manifest, data: string)
    requires CryptoOk(c) && TrustShape(c, m, data)
    ensures Digest(c, m, map["ca-bundle.pem" := data]) == Encoding.Hex(c.sha(TrustText(c, data)))
  {
    var files := map["ca-bundle.pem" := data];
    TrustDecodesIff(c, m, data);
    DecodedRoles(c, m, "ca-bundle.pem");
    assert files.Keys == {"ca-bundle.pem"};
    SortedOne("ca-bundle.pem");
    LinesOfOne(c, m, files, "ca-bundle.pem");
    TrustTextIs(c, data);
  }

  lemma TrustTextIs(c: Crypto, data: string)
    ensures "pemcast/v6" + "\0" + "trust" + "\0" + ("ca-bundle.pem" + "\0" + "ca-certificate" + "\0" + c.sha(data)) == TrustText(c, data)
  {
    assert "pemcast/v6" + "\0" + "trust" + "\0" == "pemcast/v6\0trust\0";
    assert "ca-bundle.pem" + "\0" + "ca-certificate" + "\0" == "ca-bundle.pem\0ca-certificate\0";
  }

  // ---- the v6 bundle ----

  ghost predicate IsIdentity(c: Crypto, m: Manifest, files: map<string, string>, digest: string, chain: string, key: string) {
    TlsShape(c, m, chain, key) && files == map["fullchain.pem" := chain, "privkey.pem" := key] &&
    digest == Encoding.Hex(c.sha(TlsText(c, m.kind, chain, key)))
  }

  ghost predicate IsTrust(c: Crypto, m: Manifest, files: map<string, string>, digest: string, data: string) {
    TrustShape(c, m, data) && files == map["ca-bundle.pem" := data] && digest == Encoding.Hex(c.sha(TrustText(c, data)))
  }

  // An identity or trust manifest with its files and digest.
  ghost predicate IsBundle(c: Crypto, m: Manifest, files: map<string, string>, digest: string) {
    (exists chain, key :: IsIdentity(c, m, files, digest, chain, key)) || (exists data :: IsTrust(c, m, files, digest, data))
  }

  lemma TlsOfKeys(files: map<string, string>)
    requires files.Keys == {CHAIN, KEY}
    ensures files == TlsFiles(files[CHAIN], files[KEY])
  {
  }

  lemma DecodedIsTrust(c: Crypto, m: Manifest, files: map<string, string>)
    requires CryptoOk(c) && DecodeFiles(c, m) == Some(files) && m.kind == TRUST
    ensures CA in files && IsTrust(c, m, files, Digest(c, m, files), files[CA])
  {
    DecodedNames(c, m);
    assert files == map["ca-bundle.pem" := files[CA]];
    TrustDecodesIff(c, m, files[CA]);
    TrustDigest(c, m, files[CA]);
  }

  lemma DecodedIsIdentity(c: Crypto, m: Manifest, files: map<string, string>)
    requires CryptoOk(c) && DecodeFiles(c, m) == Some(files) && m.kind != TRUST
    ensures CHAIN in files && KEY in files && IsIdentity(c, m, files, Digest(c, m, files), files[CHAIN], files[KEY])
  {
    DecodedNames(c, m);
    TlsOfKeys(files);
    TlsDecodesShape(c, m, files[CHAIN], files[KEY]);
    TlsDigest(c, m, files[CHAIN], files[KEY]);
  }

  lemma DecodedIsBundle(c: Crypto, m: Manifest)
    requires CryptoOk(c) && DecodeFiles(c, m).Some?
    ensures IsBundle(c, m, DecodeFiles(c, m).value, Digest(c, m, DecodeFiles(c, m).value))
  {
    var files := DecodeFiles(c, m).value;
    if m.kind == TRUST {
      DecodedIsTrust(c, m, files);
    } else {
      DecodedIsIdentity(c, m, files);
    }
  }

  lemma BundleDecodes(c: Crypto, m: Manifest, files: map<string, string>, digest: string)
    requires CryptoOk(c) && IsBundle(c, m, files, digest)
    ensures DecodeFiles(c, m) == Some(files) && Digest(c, m, files) == digest
  {
    if chain, key :| IsIdentity(c, m, files, digest, chain, key) {
      TlsShapeDecodes(c, m, chain, key);
      TlsDigest(c, m, chain, key);
    } else {
      var data :| IsTrust(c, m, files, digest, data);
      TrustDecodesIff(c, m, data);
      TrustDigest(c, m, data);
    }
  }

  /** Which values are v6 bundles, with which files and digest: exactly those of at most one mebibyte whose text is a
      manifest of one of the two shapes written out above. */
  lemma DecodeIs(c: Crypto, data: string, m: Manifest, files: map<string, string>, digest: string)
    requires CryptoOk(c)
    ensures Decode(c, data) == Some(Decoded(m, files, digest)) <==>
      |data| <= 1_048_576 && c.unmarshal(data) == Some(m) && IsBundle(c, m, files, digest)
  {
    if Decode(c, data) == Some(Decoded(m, files, digest)) { DecodedIsBundle(c, m); }
    if IsBundle(c, m, files, digest) { BundleDecodes(c, m, files, digest); }
  }

  /** Which manifests are encoded. */
  lemma EncodeIs(c: Crypto, m: Manifest, data: string)
    requires CryptoOk(c)
    ensures Encode(c, m) == Some(data) <==>
      data == c.marshal(m) && |data| <= 1_048_576 && exists files, digest :: IsBundle(c, m, files, digest)
  {
    if Encode(c, m) == Some(data) { DecodedIsBundle(c, m); }
    if files, digest :| IsBundle(c, m, files, digest) { BundleDecodes(c, m, files, digest); }
  }

  /** What the builders write into a manifest. */
  lemma BuiltAre(c: Crypto, kind: string, chain: string, key: string, data: string)
    ensures TlsManifest(c, kind, chain, key) == Manifest("pemcast/v6", kind, [
      ManifestFile("fullchain.pem", "certificate-chain", Encoding.Hex(c.sha(chain)), "base64", Encoding.Encode(chain)),
      ManifestFile("privkey.pem", "private-key", Encoding.Hex(c.sha(key)), "base64", Encoding.Encode(key))])
    ensures TrustManifest(c, data) == Manifest("pemcast/v6", "trust", [
      ManifestFile("ca-bundle.pem", "ca-certificate", Encoding.Hex(c.sha(data)), "base64", Encoding.Encode(data))])
  {
  }
}

/** The v5 format, written out, and what converting from it yields. */
module OldShapes {
  import opened Wrappers
  import opened Text
  import opened Kinds
  import opened Format
  import opened Content
  import opened Legacy
  import opened Shapes
  import Encoding

  ghost predicate OldShape(c: Crypto, m: OldManifest, chain: string, key: string) {
    m.schema == "pemcast/v5" && m.pairs == [Pair("fullchain.pem", "privkey.pem")] && CarriesPair(c, m.files, "certificate", chain, key)
  }

  function OldText(c: Crypto, chain: string, key: string): string {
    "pemcast/v5\0" + "fullchain.pem\0" + c.sha(chain) + "privkey.pem\0" + c.sha(key)
  }

  lemma OldFileIs(c: Crypto, f: ManifestFile, name: string, role: string, content: string)
    requires CryptoOk(c) && SafeName(name) && role == OldKind(name)
    ensures Carries(c, f, name, role, content) <==>
      f.name == name && PlainFile(f) && f.role == OldKind(f.name) && Encoding.Decode(f.data) == Some(content) && Hash(c, content) == f.sha256
  {
    HashShape(c, content);
  }

  lemma OldPairIs(c: Crypto, f: ManifestFile, role: string, x: string, g: ManifestFile, role': string, y: string)
    requires CryptoOk(c) && f.name != g.name && SafeName(f.name) && SafeName(g.name)
    requires role == OldKind(f.name) && role' == OldKind(g.name)
    ensures Carries(c, f, f.name, role, x) && Carries(c, g, g.name, role', y) <==>
      PlainFile(f) && PlainFile(g) && f.role == role && g.role == role' && FilesOf(c, [f, g]) == Some(map[f.name := x, g.name := y])
  {
    OldFileIs(c, f, f.name, role, x);
    OldFileIs(c, g, g.name, role', y);
    PairFiles(c, f, g, x, y);
  }

  predicate OldRoles(files: seq<ManifestFile>)
    requires |files| == 2
  {
    files[0].role == OldKind(files[0].name) && files[1].role == OldKind(files[1].name)
  }

  lemma OldPairOfIs(c: Crypto, files: seq<ManifestFile>, chain: string, key: string)
    requires CryptoOk(c) && NamedPair(files)
    ensures CarriesPair(c, files, "certificate", chain, key) <==>
      PlainFile(files[0]) && PlainFile(files[1]) && OldRoles(files) && FilesOf(c, files) == Some(TlsFiles(chain, key))
  {
    Names();
    Commuted(chain, key);
    assert files == [files[0], files[1]];
    if files[0].name == "fullchain.pem" {
      OldPairIs(c, files[0], "certificate", chain, files[1], "private-key", key);
    } else {
      OldPairIs(c, files[0], "private-key", key, files[1], "certificate", chain);
    }
  }

  lemma OldValidIs(m: OldManifest)
    ensures ValidOld(m) <==>
      m.schema == "pemcast/v5" && m.pairs == [Pair("fullchain.pem", "privkey.pem")] && NamedPair(m.files) &&
      PlainFile(m.files[0]) && PlainFile(m.files[1]) && OldRoles(m.files)
  {
    Names();
  }

  // A v5 manifest is read exactly when it has this shape.
  lemma OldReadIff(c: Crypto, m: OldManifest, chain: string, key: string)
    requires CryptoOk(c)
    ensures ValidOld(m) && FilesOf(c, m.files) == Some(TlsFiles(chain, key)) <==> OldShape(c, m, chain, key)
  {
    OldValidIs(m);
    if NamedPair(m.files) { OldPairOfIs(c, m.files, chain, key); }
  }

  lemma OldLinesOfTwo(c: Crypto, files: map<string, string>, a: string, b: string)
    ensures OldLines(c, files, [a, b]) == a + "\0" + c.sha(FileAt(files, a)) + (b + "\0" + c.sha(FileAt(files, b)))
  {
    assert [a, b][..1] == [a] && [a][..0] == [];
    assert OldLines(c, files, [a]) == "" + (a + "\0" + c.sha(FileAt(files, a)));
  }

  lemma OldPreimageIs(c: Crypto, chain: string, key: string)
    ensures OldPreimage(c, TlsFiles(chain, key)) == OldText(c, chain, key)
  {
    var files := TlsFiles(chain, key);
    assert files.Keys == {"fullchain.pem", "privkey.pem"};
    Names();
    ChainBeforeKey();
    SortedTwo("fullchain.pem", "privkey.pem");
    OldLinesOfTwo(c, files, "fullchain.pem", "privkey.pem");
    TlsFilesAt(chain, key);
    assert "pemcast/v5" + "\0" == "pemcast/v5\0" && "fullchain.pem" + "\0" == "fullchain.pem\0" && "privkey.pem" + "\0" == "privkey.pem\0";
  }

  /** Which values are v5 bundles, and of which generation: exactly those of at most one mebibyte, under safe names,
      whose text is a manifest of the shape written out above and whose generation hashes the text written out above. */
  lemma DecodeOldIs(c: Crypto, parse: string -> Option<OldManifest>, target: string, generation: string, data: string,
                    files: map<string, string>)
    requires CryptoOk(c)
    ensures DecodeOld(c, parse, target, generation, data) == Some(files) <==>
      SafeName(target) && SafeName(generation) && |data| <= 1_048_576 &&
      exists m, chain, key :: parse(data) == Some(m) && OldShape(c, m, chain, key) &&
        files == map["fullchain.pem" := chain, "privkey.pem" := key] &&
        generation == "sha256-" + Encoding.Hex(c.sha(OldText(c, chain, key)))
  {
    if DecodeOld(c, parse, target, generation, data) == Some(files) {
      var m := parse(data).value;
      OldFiles(c, m, files);
      OldReadIff(c, m, files[CHAIN], files[KEY]);
      OldPreimageIs(c, files[CHAIN], files[KEY]);
      assert parse(data) == Some(m) && OldShape(c, m, files[CHAIN], files[KEY]);
    }
    forall m, chain, key | parse(data) == Some(m) && OldShape(c, m, chain, key)
      ensures ValidOld(m) && FilesOf(c, m.files) == Some(TlsFiles(chain, key)) && OldPreimage(c, TlsFiles(chain, key)) == OldText(c, chain, key)
    {
      OldReadIff(c, m, chain, key);
      OldPreimageIs(c, chain, key);
    }
  }

  lemma BuiltDigest(c: Crypto, kind: string, chain: string, key: string)
    requires CryptoOk(c) && Encoding.IsBytes(chain) && Encoding.IsBytes(key) && IsTls(kind) && ValidIdentity(c, kind, chain, key)
    ensures Digest(c, TlsManifest(c, kind, chain, key), TlsFiles(chain, key)) == Encoding.Hex(c.sha(TlsText(c, kind, chain, key)))
  {
    BuiltTls(c, kind, chain, key);
    TlsDecodesShape(c, TlsManifest(c, kind, chain, key), chain, key);
    TlsDigest(c, TlsManifest(c, kind, chain, key), chain, key);
  }

  lemma BuiltEncodes(c: Crypto, kind: string, chain: string, key: string)
    requires CryptoOk(c) && Encoding.IsBytes(chain) && Encoding.IsBytes(key)
    ensures var text := c.marshal(TlsManifest(c, kind, chain, key));
      Encode(c, TlsManifest(c, kind, chain, key)) ==
        if IsTls(kind) && ValidIdentity(c, kind, chain, key) && |text| <= 1_048_576 then Some(text) else None
  {
    BuiltTls(c, kind, chain, key);
  }

  lemma ConvertsPair(c: Crypto, kind: string, chain: string, key: string)
    ensures Convert(c, kind, TlsFiles(chain, key)) ==
      var encoded := Encode(c, TlsManifest(c, kind, chain, key));
      if !IsTls(kind) || encoded.None? then None
      else Some((encoded.value, Digest(c, TlsManifest(c, kind, chain, key), TlsFiles(chain, key))))
  {
    Names();
    assert TlsFiles(chain, key)[CHAIN] == chain && TlsFiles(chain, key)[KEY] == key;
  }

  /** A v5 bundle converts exactly to a TLS type, when its chain and key are an identity of that type and the result is at
      most one mebibyte; the result is then the manifest of the same two contents, and its digest hashes the v6 text. */
  lemma ConvertIs(c: Crypto, kind: string, chain: string, key: string, data: string, digest: string)
    requires CryptoOk(c) && Encoding.IsBytes(chain) && Encoding.IsBytes(key)
    ensures Convert(c, kind, map["fullchain.pem" := chain, "privkey.pem" := key]) == Some((data, digest)) <==>
      (kind == "tls-server" || kind == "tls-client") && Identity(c, kind, chain, key) &&
      data == c.marshal(TlsManifest(c, kind, chain, key)) && |data| <= 1_048_576 &&
      digest == Encoding.Hex(c.sha(TlsText(c, kind, chain, key)))
  {
    Commuted(chain, key);
    IdentityIs(c, kind, chain, key);
    ConvertsPair(c, kind, chain, key);
    BuiltEncodes(c, kind, chain, key);
    if IsTls(kind) && ValidIdentity(c, kind, chain, key) { BuiltDigest(c, kind, chain, key); }
  }
}
