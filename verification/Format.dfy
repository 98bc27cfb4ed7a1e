/** The bundle types. */
module Kinds {
  const TLS_SERVER := "tls-server"
  const TLS_CLIENT := "tls-client"
  const TRUST := "trust"

  predicate IsTls(kind: string) { kind == TLS_SERVER || kind == TLS_CLIENT }
}

/** The v6 bundle: manifest, content digest, encoding and decoding. */
module Format {
  import opened Wrappers
  import opened Text
  import opened Kinds
  import Encoding

  const SCHEMA := "pemcast/v6"
  const BASE64 := "base64"
  const CHAIN := "fullchain.pem"
  const KEY := "privkey.pem"
  const CA := "ca-bundle.pem"
  const ROLE_CHAIN := "certificate-chain"
  const ROLE_KEY := "private-key"
  const ROLE_CA := "ca-certificate"
  const MAX_ENCODED := 0x10_0000

  datatype ManifestFile = ManifestFile(name: string, role: string, sha256: string, encoding: string, data: string)
  datatype Manifest = Manifest(schema: string, kind: string, files: seq<ManifestFile>)

  // A parsed certificate, as far as the checks look at it.
  datatype Cert = Cert(ca: bool, notBefore: int, notAfter: int)

  // What is computed outside the model: SHA-256, the JSON text of a manifest, PEM and X.509
  // parsing, and the check that a chain of certificates is signed in order, allows the use and
  // belongs to a private key.
  datatype Crypto = Crypto(
    sha: string -> string,
    marshal: Manifest -> string,
    unmarshal: string -> Option<Manifest>,
    certificates: string -> Option<seq<Cert>>,
    keyPair: (string, string, string) -> bool)

  ghost predicate CryptoOk(c: Crypto) {
    (forall s :: |c.sha(s)| == 32 && Encoding.IsBytes(c.sha(s))) &&
    (forall m :: ValidManifest(m) && FilesOf(c, m.files).Some? ==> c.unmarshal(c.marshal(m)) == Some(m)) &&
    (forall s :: c.certificates(s).Some? ==> s != "" && c.certificates(s).value != []) &&
    forall kind, chain, key :: c.keyPair(kind, chain, key) ==> key != ""
  }

  function Hash(c: Crypto, s: string): string { Encoding.Hex(c.sha(s)) }

  // ---- the manifest ----

  function Expected(kind: string): map<string, string> {
    if IsTls(kind) then map[CHAIN := ROLE_CHAIN, KEY := ROLE_KEY]
    else if kind == TRUST then map[CA := ROLE_CA]
    else map[]
  }

  // A name that the type does not expect has the empty role in the source's map.
  function RoleFor(kind: string, name: string): string {
    if name in Expected(kind) then Expected(kind)[name] else ""
  }

  predicate ShaText(s: string) { |s| == 64 && Encoding.IsHex(s) }

  predicate ValidFile(kind: string, f: ManifestFile) {
    SafeName(f.name) && f.role == RoleFor(kind, f.name) && ShaText(f.sha256) && f.encoding == BASE64
  }

  ghost predicate DistinctNames(files: seq<ManifestFile>) {
    forall i, j :: 0 <= i < j < |files| ==> files[i].name != files[j].name
  }

  // Manifest.Validate
  ghost predicate ValidManifest(m: Manifest) {
    m.schema == SCHEMA && (IsTls(m.kind) || m.kind == TRUST) && |m.files| == (if m.kind == TRUST then 1 else 2) &&
    DistinctNames(m.files) && forall i :: 0 <= i < |m.files| ==> ValidFile(m.kind, m.files[i])
  }

  method ValidateManifest(m: Manifest) returns (ok: bool)
    ensures ok <==> ValidManifest(m)
  {
    if m.schema != SCHEMA || !(IsTls(m.kind) || m.kind == TRUST) { return false; }
    if |m.files| != (if m.kind == TRUST then 1 else 2) { return false; }
    var seen: map<string, string> := map[];
    for index := 0 to |m.files|
      invariant forall name :: name in seen <==> exists j :: 0 <= j < index && m.files[j].name == name
      invariant DistinctNames(m.files[..index])
      invariant forall j :: 0 <= j < index ==> ValidFile(m.kind, m.files[j])
    {
      var file := m.files[index];
      if !SafeName(file.name) || file.name in seen || file.role != RoleFor(m.kind, file.name) || !ShaText(file.sha256) ||
         file.encoding != BASE64
      {
        return false;
      }
      seen := seen[file.name := file.role];
    }
    assert m.files[..|m.files|] == m.files;
    ok := true;
  }

  // ---- the files ----

  // Each file's data, decoded and compared with its sum.
  function FilesOf(c: Crypto, files: seq<ManifestFile>): Option<map<string, string>> {
    if files == [] then Some(map[]) else
      var before, last := FilesOf(c, files[..|files| - 1]), files[|files| - 1];
      var content := Encoding.Decode(last.data);
      if before.None? || content.None? || Hash(c, content.value) != last.sha256 then None
      else Some(before.value[last.name := content.value])
  }

  function FileAt(files: map<string, string>, name: string): string {
    if name in files then files[name] else ""
  }

  predicate ValidIdentity(c: Crypto, kind: string, chain: string, key: string) {
    c.certificates(chain).Some? && c.certificates(chain).value != [] && !c.certificates(chain).value[0].ca &&
    (forall i :: 1 <= i < |c.certificates(chain).value| ==> c.certificates(chain).value[i].ca) && c.keyPair(kind, chain, key)
  }

  predicate ValidTrust(c: Crypto, data: string) {
    c.certificates(data).Some? && forall i :: 0 <= i < |c.certificates(data).value| ==> c.certificates(data).value[i].ca
  }

  predicate Semantics(c: Crypto, kind: string, files: map<string, string>) {
    if IsTls(kind) then ValidIdentity(c, kind, FileAt(files, CHAIN), FileAt(files, KEY))
    else kind == TRUST && ValidTrust(c, FileAt(files, CA))
  }

  // decodeManifestFiles
  ghost function DecodeFiles(c: Crypto, m: Manifest): Option<map<string, string>> {
    if !ValidManifest(m) then None else
      var files := FilesOf(c, m.files);
      if files.None? || !Semantics(c, m.kind, files.value) then None else files
  }

  ghost predicate HasName(files: seq<ManifestFile>, name: string) {
    exists i :: 0 <= i < |files| && files[i].name == name
  }

  lemma HasNameLast(files: seq<ManifestFile>, name: string)
    requires files != []
    ensures HasName(files, name) <==> HasName(files[..|files| - 1], name) || files[|files| - 1].name == name
  {
    var before := files[..|files| - 1];
    if HasName(before, name) {
      var i :| 0 <= i < |before| && before[i].name == name;
      assert files[i].name == name;
    }
    if HasName(files, name) && files[|files| - 1].name != name {
      var i :| 0 <= i < |files| && files[i].name == name;
      assert before[i].name == name;
    }
  }

  lemma {:induction false} FilesOfKeys(c: Crypto, files: seq<ManifestFile>, name: string)
    requires FilesOf(c, files).Some?
    ensures name in FilesOf(c, files).value <==> HasName(files, name)
  {
    if files != [] {
      FilesOfKeys(c, files[..|files| - 1], name);
      HasNameLast(files, name);
    }
  }

  lemma {:induction false} FilesOfSize(c: Crypto, files: seq<ManifestFile>)
    requires FilesOf(c, files).Some? && DistinctNames(files)
    ensures |FilesOf(c, files).value| == |files|
  {
    if files != [] {
      var before, last := files[..|files| - 1], files[|files| - 1];
      FilesOfSize(c, before);
      FilesOfKeys(c, before, last.name);
      Grows(FilesOf(c, before).value, last.name, Encoding.Decode(last.data).value);
    }
  }

  lemma Grows(files: map<string, string>, name: string, content: string)
    requires name !in files
    ensures |files[name := content]| == |files| + 1
  {
    assert files[name := content].Keys == files.Keys + {name};
  }

  lemma {:induction false} FilesOfSum(c: Crypto, files: seq<ManifestFile>, i: nat)
    requires FilesOf(c, files).Some? && DistinctNames(files) && i < |files|
    ensures files[i].name in FilesOf(c, files).value && Hash(c, FilesOf(c, files).value[files[i].name]) == files[i].sha256
  {
    var n := |files| - 1;
    if i < n {
      FilesOfSum(c, files[..n], i);
      assert files[..n][i] == files[i];
    }
  }

  ghost predicate SumsAgree(c: Crypto, declared: seq<ManifestFile>, files: map<string, string>) {
    forall i :: 0 <= i < |declared| ==> declared[i].name in files && Hash(c, files[declared[i].name]) == declared[i].sha256
  }

  lemma FilesAgree(c: Crypto, declared: seq<ManifestFile>)
    requires FilesOf(c, declared).Some? && DistinctNames(declared)
    ensures |FilesOf(c, declared).value| == |declared| && SumsAgree(c, declared, FilesOf(c, declared).value)
  {
    FilesOfSize(c, declared);
    forall j | 0 <= j < |declared|
      ensures declared[j].name in FilesOf(c, declared).value && Hash(c, FilesOf(c, declared).value[declared[j].name]) == declared[j].sha256
    {
      FilesOfSum(c, declared, j);
    }
  }

  // ValidateFiles looks at names and sums again, and accepts them again.
  method ValidateFiles(c: Crypto, m: Manifest, files: map<string, string>) returns (ok: bool)
    ensures ok <==> ValidManifest(m) && |files| == |m.files| && Semantics(c, m.kind, files) && SumsAgree(c, m.files, files)
  {
    var valid := ValidateManifest(m);
    if !valid || |files| != |m.files| { return false; }
    for i := 0 to |m.files|
      invariant forall j :: 0 <= j < i ==> m.files[j].name in files && Hash(c, files[m.files[j].name]) == m.files[j].sha256
    {
      if m.files[i].name !in files || Hash(c, files[m.files[i].name]) != m.files[i].sha256 { return false; }
    }
    ok := Semantics(c, m.kind, files);
  }

  lemma {:induction false} FilesOfPrefix(c: Crypto, files: seq<ManifestFile>, n: nat)
    requires n <= |files| && FilesOf(c, files[..n]).None?
    ensures FilesOf(c, files).None?
    decreases |files|
  {
    if n < |files| {
      var before := files[..|files| - 1];
      assert before[..n] == files[..n];
      FilesOfPrefix(c, before, n);
    } else {
      assert files[..n] == files;
    }
  }

  method DecodeManifestFiles(c: Crypto, m: Manifest) returns (result: Option<map<string, string>>)
    ensures result == DecodeFiles(c, m)
  {
    var valid := ValidateManifest(m);
    if !valid { return None; }
    var files := ReadFiles(c, m.files);
    if files.None? { return None; }
    FilesAgree(c, m.files);
    var again := ValidateFiles(c, m, files.value);
    result := if again then files else None;
  }

  // The decoding loop, the same for both formats.
  method ReadFiles(c: Crypto, declared: seq<ManifestFile>) returns (result: Option<map<string, string>>)
    ensures result == FilesOf(c, declared)
  {
    var files: map<string, string> := map[];
    for i := 0 to |declared|
      invariant FilesOf(c, declared[..i]) == Some(files)
    {
      assert declared[..i + 1][..i] == declared[..i];
      var content := Encoding.Decode(declared[i].data);
      if content.None? || Hash(c, content.value) != declared[i].sha256 {
        FilesOfPrefix(c, declared, i + 1);
        return None;
      }
      files := files[declared[i].name := content.value];
    }
    assert declared[..|declared|] == declared;
    result := Some(files);
  }

  // ---- the digest ----

  datatype Line = Line(name: string, role: string, sum: string)

  function Entry(l: Line): string { l.name + "\0" + l.role + "\0" + l.sum }

  function Lines(list: seq<Line>): string {
    if list == [] then "" else Entry(list[0]) + Lines(list[1..])
  }

  // The declared role of a name: the last declaration counts.
  function RoleOf(files: seq<ManifestFile>, name: string): string {
    if files == [] then "" else
      var last := files[|files| - 1];
      if last.name == name then last.role else RoleOf(files[..|files| - 1], name)
  }

  function LinesOf(c: Crypto, m: Manifest, files: map<string, string>, names: seq<string>): seq<Line> {
    if names == [] then [] else
      LinesOf(c, m, files, names[..|names| - 1]) +
        [Line(names[|names| - 1], RoleOf(m.files, names[|names| - 1]), c.sha(FileAt(files, names[|names| - 1])))]
  }

  ghost function AllLines(c: Crypto, m: Manifest, files: map<string, string>): seq<Line> {
    LinesOf(c, m, files, Sorted(files.Keys))
  }

  // What ManifestDigest writes into the hash.
  ghost function Preimage(c: Crypto, m: Manifest, files: map<string, string>): string {
    m.schema + "\0" + m.kind + "\0" + Lines(AllLines(c, m, files))
  }

  ghost function Digest(c: Crypto, m: Manifest, files: map<string, string>): string {
    Hash(c, Preimage(c, m, files))
  }

  lemma {:induction false} LinesAppend(list: seq<Line>, l: Line)
    ensures Lines(list + [l]) == Lines(list) + Entry(l)
  {
    if list == [] {
      assert Lines([l]) == Entry(l) + Lines([]) by { assert [l][1..] == []; }
    } else {
      assert (list + [l])[1..] == list[1..] + [l];
      LinesAppend(list[1..], l);
    }
  }

  method ManifestDigest(c: Crypto, m: Manifest, files: map<string, string>) returns (digest: string)
    ensures digest == Digest(c, m, files)
  {
    var header, body := m.schema + "\0" + m.kind + "\0", "";
    var names := SortNames(files.Keys);
    for i := 0 to |names|
      invariant body == Lines(LinesOf(c, m, files, names[..i]))
    {
      body := WriteEntry(c, m, files, names, i, body);
    }
    assert names[..|names|] == names;
    digest := Hash(c, header + body);
  }

  method WriteEntry(c: Crypto, m: Manifest, files: map<string, string>, names: seq<string>, i: nat, body: string)
    returns (more: string)
    requires i < |names| && body == Lines(LinesOf(c, m, files, names[..i]))
    ensures more == Lines(LinesOf(c, m, files, names[..i + 1]))
  {
    assert names[..i + 1][..i] == names[..i];
    var l := Line(names[i], RoleOf(m.files, names[i]), c.sha(FileAt(files, names[i])));
    LinesAppend(LinesOf(c, m, files, names[..i]), l);
    more := body + Entry(l);
  }

  // ---- encoding and decoding ----

  datatype Decoded = Decoded(manifest: Manifest, files: map<string, string>, digest: string)

  ghost function Encode(c: Crypto, m: Manifest): Option<string> {
    if DecodeFiles(c, m).None? || |c.marshal(m)| > MAX_ENCODED then None else Some(c.marshal(m))
  }

  ghost function Decode(c: Crypto, data: string): Option<Decoded> {
    if |data| > MAX_ENCODED || c.unmarshal(data).None? then None else
      var m := c.unmarshal(data).value;
      var files := DecodeFiles(c, m);
      if files.None? then None else Some(Decoded(m, files.value, Digest(c, m, files.value)))
  }

  method EncodeManifest(c: Crypto, m: Manifest) returns (encoded: Option<string>)
    ensures encoded == Encode(c, m)
  {
    var files := DecodeManifestFiles(c, m);
    if files.None? { return None; }
    var data := c.marshal(m);
    encoded := if |data| > MAX_ENCODED then None else Some(data);
  }

  function Generation(digest: string): string { "sha256-" + digest }

  /** Decoding an encoded manifest gives it back with its files and digest. */
  lemma EncodeDecode(c: Crypto, m: Manifest)
    requires CryptoOk(c) && Encode(c, m).Some?
    ensures Decode(c, Encode(c, m).value) == Some(Decoded(m, DecodeFiles(c, m).value, Digest(c, m, DecodeFiles(c, m).value)))
  {
  }

  /** A decoded bundle has exactly the files its type expects, in their roles: Validate alone lets a name with
      an empty role pass, but the files then fail as an identity or as trust. */
  lemma DecodedNames(c: Crypto, m: Manifest)
    requires CryptoOk(c) && DecodeFiles(c, m).Some?
    ensures DecodeFiles(c, m).value.Keys == Expected(m.kind).Keys
  {
    var files := DecodeFiles(c, m).value;
    FilesOfSize(c, m.files);
    if m.kind == TRUST {
      assert CA in files;
      OnlyKey(files, CA);
    } else {
      assert CHAIN in files && KEY in files;
      OnlyKeys(files, CHAIN, KEY);
    }
  }

  lemma DecodedRoles(c: Crypto, m: Manifest, name: string)
    requires CryptoOk(c) && DecodeFiles(c, m).Some?
    ensures RoleOf(m.files, name) == RoleFor(m.kind, name)
  {
    DecodedNames(c, m);
    FilesOfKeys(c, m.files, name);
    RolesAre(m.kind, m.files, name);
  }

  lemma {:induction false} RolesAre(kind: string, files: seq<ManifestFile>, name: string)
    requires forall i :: 0 <= i < |files| ==> ValidFile(kind, files[i])
    ensures RoleOf(files, name) == if HasName(files, name) then RoleFor(kind, name) else ""
  {
    if files != [] {
      RolesAre(kind, files[..|files| - 1], name);
      HasNameLast(files, name);
    }
  }

  lemma OnlyKey(files: map<string, string>, a: string)
    requires |files| == 1 && a in files
    ensures files.Keys == {a}
  {
    assert |files.Keys - {a}| == 0;
  }

  lemma OnlyKeys(files: map<string, string>, a: string, b: string)
    requires |files| == 2 && a in files && b in files && a != b
    ensures files.Keys == {a, b}
  {
    assert |files.Keys - {a, b}| == 0;
  }

  lemma LooseValidate()
    ensures exists m :: ValidManifest(m) && m.kind == TRUST && m.files[0].name == "other"
  {
    var sum := seq(64, _ => '0');
    var m := Manifest(SCHEMA, TRUST, [ManifestFile("other", "", sum, BASE64, "")]);
    assert ValidFile(TRUST, m.files[0]);
    assert ValidManifest(m);
  }
}
