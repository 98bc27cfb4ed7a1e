/** The previous bundle format, as far as the upgrade reads it. */
module Legacy {
  import opened Wrappers
  import opened Text
  import opened Kinds
  import opened Format
  import opened Content
  import Encoding

  const OLD_SCHEMA := "pemcast/v5"

  // A v5 file has the fields of a v6 one, with a kind in the place of the role.
  datatype Pair = Pair(certificate: string, privateKey: string)
  datatype OldManifest = OldManifest(schema: string, files: seq<ManifestFile>, pairs: seq<Pair>)

  function OldKind(name: string): string {
    if name == KEY then "private-key" else "certificate"
  }

  predicate PlainFile(f: ManifestFile) {
    SafeName(f.name) && f.encoding == BASE64 && ShaText(f.sha256)
  }

  ghost predicate Declares(files: seq<ManifestFile>, name: string) {
    exists i :: 0 <= i < |files| && files[i].name == name && files[i].role == OldKind(name)
  }

  // Manifest.Validate of v5: one certificate and one private key under their fixed names.
  ghost predicate ValidOld(m: OldManifest) {
    m.schema == OLD_SCHEMA && |m.files| == 2 && DistinctNames(m.files) &&
    (forall i :: 0 <= i < 2 ==> PlainFile(m.files[i])) && Declares(m.files, CHAIN) && Declares(m.files, KEY) &&
    m.pairs == [Pair(CHAIN, KEY)]
  }

  ghost predicate Collected(declared: seq<ManifestFile>, n: nat, files: map<string, ManifestFile>)
    requires n <= |declared|
  {
    (forall name :: name in files <==> exists j :: 0 <= j < n && declared[j].name == name) &&
    (forall j :: 0 <= j < n ==> PlainFile(declared[j]) && files[declared[j].name] == declared[j]) &&
    forall j, k :: 0 <= j < k < n ==> declared[j].name != declared[k].name
  }

  method CollectOld(declared: seq<ManifestFile>) returns (ok: bool, files: map<string, ManifestFile>)
    ensures ok ==> Collected(declared, |declared|, files)
    ensures !ok ==> !(DistinctNames(declared) && forall i :: 0 <= i < |declared| ==> PlainFile(declared[i]))
  {
    files := map[];
    for i := 0 to |declared|
      invariant Collected(declared, i, files)
    {
      if !PlainFile(declared[i]) || declared[i].name in files { return false, files; }
      files := files[declared[i].name := declared[i]];
    }
    ok := true;
  }

  method ValidateOld(m: OldManifest) returns (ok: bool)
    ensures ok <==> ValidOld(m)
  {
    if m.schema != OLD_SCHEMA || |m.files| != 2 || |m.pairs| != 1 { return false; }
    var files;
    ok, files := CollectOld(m.files);
    if !ok { return; }
    ok := IsDeclared(m.files, files, CHAIN);
    if !ok { return; }
    ok := IsDeclared(m.files, files, KEY);
    if !ok { return; }
    ok := m.pairs[0] == Pair(CHAIN, KEY);
    assert ok ==> m.pairs == [Pair(CHAIN, KEY)];
  }

  method IsDeclared(declared: seq<ManifestFile>, files: map<string, ManifestFile>, name: string) returns (ok: bool)
    requires forall name :: name in files <==> exists j :: 0 <= j < |declared| && declared[j].name == name
    requires forall j :: 0 <= j < |declared| ==> files[declared[j].name] == declared[j]
    ensures ok <==> Declares(declared, name)
  {
    ok := name in files && files[name].role == OldKind(name);
  }

  function OldLines(c: Crypto, files: map<string, string>, names: seq<string>): string {
    if names == [] then "" else
      OldLines(c, files, names[..|names| - 1]) + (names[|names| - 1] + "\0" + c.sha(FileAt(files, names[|names| - 1])))
  }

  // What ContentDigest writes into the hash.
  ghost function OldPreimage(c: Crypto, files: map<string, string>): string {
    OLD_SCHEMA + "\0" + OldLines(c, files, Sorted(files.Keys))
  }

  method ContentDigest(c: Crypto, files: map<string, string>) returns (digest: string)
    ensures digest == Hash(c, OldPreimage(c, files))
  {
    var body := "";
    var names := SortNames(files.Keys);
    for i := 0 to |names|
      invariant body == OldLines(c, files, names[..i])
    {
      body := WriteOld(c, files, names, i, body);
    }
    assert names[..|names|] == names;
    digest := Hash(c, OLD_SCHEMA + "\0" + body);
  }

  method WriteOld(c: Crypto, files: map<string, string>, names: seq<string>, i: nat, body: string) returns (more: string)
    requires i < |names| && body == OldLines(c, files, names[..i])
    ensures more == OldLines(c, files, names[..i + 1])
  {
    assert names[..i + 1][..i] == names[..i];
    more := body + (names[i] + "\0" + c.sha(FileAt(files, names[i])));
  }

  // Decode of v5: the files, or None for any error.
  ghost function DecodeOld(c: Crypto, parse: string -> Option<OldManifest>, target: string, generation: string, data: string):
    Option<map<string, string>>
  {
    if !SafeName(target) || !SafeName(generation) || |data| > MAX_ENCODED || parse(data).None? || !ValidOld(parse(data).value) then
      None
    else
      var files := FilesOf(c, parse(data).value.files);
      if files.None? || generation != Generation(Hash(c, OldPreimage(c, files.value))) then None else files
  }

  // ConvertTLS: the v6 bundle and its digest.
  ghost function Convert(c: Crypto, kind: string, files: map<string, string>): Option<(string, string)> {
    if !IsTls(kind) || CHAIN !in files || KEY !in files then None else
      var m := TlsManifest(c, kind, files[CHAIN], files[KEY]);
      if Encode(c, m).None? then None
      else Some((Encode(c, m).value, Digest(c, m, TlsFiles(files[CHAIN], files[KEY]))))
  }

  method DecodeOldBundle(c: Crypto, parse: string -> Option<OldManifest>, target: string, generation: string, data: string)
    returns (files: Option<map<string, string>>)
    ensures files == DecodeOld(c, parse, target, generation, data)
  {
    if !SafeName(target) || !SafeName(generation) || |data| > MAX_ENCODED || parse(data).None? { return None; }
    var valid := ValidateOld(parse(data).value);
    if !valid { return None; }
    files := ReadFiles(c, parse(data).value.files);
    if files.None? { return; }
    var digest := ContentDigest(c, files.value);
    if generation != Generation(digest) { return None; }
  }

  method ConvertTls(c: Crypto, kind: string, files: map<string, string>) returns (result: Option<(string, string)>)
    ensures result == Convert(c, kind, files)
  {
    if !IsTls(kind) || CHAIN !in files || KEY !in files { return None; }
    var m, digest := NewTlsManifest(c, kind, files[CHAIN], files[KEY]);
    var encoded := EncodeManifest(c, m);
    if encoded.None? { return None; }
    result := Some((encoded.value, digest));
  }

  lemma {:induction false} GroupsAreBytes(s: string)
    ensures Encoding.Groups(s).Some? ==> Encoding.IsBytes(Encoding.Groups(s).value)
  {
    if |s| >= 4 { GroupsAreBytes(s[4..]); }
  }

  lemma {:induction false} FilesAreBytes(c: Crypto, files: seq<ManifestFile>, name: string)
    requires FilesOf(c, files).Some? && name in FilesOf(c, files).value
    ensures Encoding.IsBytes(FilesOf(c, files).value[name])
  {
    var last := files[|files| - 1];
    GroupsAreBytes(Encoding.Strip(last.data));
    if name != last.name { FilesAreBytes(c, files[..|files| - 1], name); }
  }

  lemma OldNames(c: Crypto, m: OldManifest)
    requires ValidOld(m) && FilesOf(c, m.files).Some?
    ensures FilesOf(c, m.files).value.Keys == {CHAIN, KEY}
  {
    NamesDiffer();
    FilesOfSize(c, m.files);
    FilesOfKeys(c, m.files, CHAIN);
    FilesOfKeys(c, m.files, KEY);
    OnlyKeys(FilesOf(c, m.files).value, CHAIN, KEY);
  }

  lemma OldFiles(c: Crypto, m: OldManifest, files: map<string, string>)
    requires ValidOld(m) && FilesOf(c, m.files) == Some(files)
    ensures CHAIN in files && KEY in files && files == TlsFiles(files[CHAIN], files[KEY])
    ensures Encoding.IsBytes(files[CHAIN]) && Encoding.IsBytes(files[KEY])
  {
    OldNames(c, m);
    FilesAreBytes(c, m.files, CHAIN);
    FilesAreBytes(c, m.files, KEY);
  }

  lemma BuiltDecodes(c: Crypto, kind: string, chain: string, key: string)
    requires CryptoOk(c) && Encoding.IsBytes(chain) && Encoding.IsBytes(key)
    requires Encode(c, TlsManifest(c, kind, chain, key)).Some?
    ensures Decode(c, Encode(c, TlsManifest(c, kind, chain, key)).value) ==
      Some(Decoded(TlsManifest(c, kind, chain, key), TlsFiles(chain, key),
                   Digest(c, TlsManifest(c, kind, chain, key), TlsFiles(chain, key))))
  {
    BuiltTls(c, kind, chain, key);
    EncodeDecode(c, TlsManifest(c, kind, chain, key));
  }

  /** The converted bundle decodes to exactly the files of the v5 bundle: the same certificate and key bytes,
      under the same names, and nothing else. */
  lemma ConversionKeepsFiles(c: Crypto, parse: string -> Option<OldManifest>, target: string, generation: string, data: string,
                             kind: string)
    requires CryptoOk(c) && DecodeOld(c, parse, target, generation, data).Some?
    requires Convert(c, kind, DecodeOld(c, parse, target, generation, data).value).Some?
    ensures var files := DecodeOld(c, parse, target, generation, data).value;
      var (encoded, digest) := Convert(c, kind, files).value;
      Decode(c, encoded) == Some(Decoded(TlsManifest(c, kind, files[CHAIN], files[KEY]), files, digest))
  {
    var files := DecodeOld(c, parse, target, generation, data).value;
    OldFiles(c, parse(data).value, files);
    ConvertDecodes(c, kind, files);
  }

  lemma ConvertDecodes(c: Crypto, kind: string, files: map<string, string>)
    requires CryptoOk(c) && CHAIN in files && KEY in files && files == TlsFiles(files[CHAIN], files[KEY])
    requires Encoding.IsBytes(files[CHAIN]) && Encoding.IsBytes(files[KEY]) && Convert(c, kind, files).Some?
    ensures Decode(c, Convert(c, kind, files).value.0) ==
      Some(Decoded(TlsManifest(c, kind, files[CHAIN], files[KEY]), files, Convert(c, kind, files).value.1))
  {
    BuiltDecodes(c, kind, files[CHAIN], files[KEY]);
  }

  /** What the two protocols hash never coincides. */
  lemma OldAndNewDiffer(c: Crypto, files: map<string, string>, m: Manifest, others: map<string, string>)
    requires m.schema == SCHEMA
    ensures OldPreimage(c, files) != Preimage(c, m, others)
  {
    var x, y := OldLines(c, files, Sorted(files.Keys)), m.kind + "\0" + Lines(AllLines(c, m, others));
    assert Preimage(c, m, others) == SCHEMA + "\0" + y;
    if OLD_SCHEMA + "\0" + x == SCHEMA + "\0" + y {
      SchemasDiffer();
      FieldUnique(OLD_SCHEMA, x, SCHEMA, y);
    }
  }

  lemma SchemasDiffer()
    ensures OLD_SCHEMA != SCHEMA && NoNul(OLD_SCHEMA) && NoNul(SCHEMA)
  {
    assert OLD_SCHEMA[9] != SCHEMA[9];
  }

  /** So a v5 generation is never the generation of a v6 bundle, unless SHA-256 collides. */
  lemma OldGenerationIsNotNew(c: Crypto, files: map<string, string>, m: Manifest, others: map<string, string>)
    requires CryptoOk(c) && m.schema == SCHEMA && NoCollision(c, {OldPreimage(c, files), Preimage(c, m, others)})
    ensures Generation(Hash(c, OldPreimage(c, files))) != Generation(Digest(c, m, others))
  {
    OldAndNewDiffer(c, files, m, others);
    Encoding.HexInjective(c.sha(OldPreimage(c, files)), c.sha(Preimage(c, m, others)));
    GenerationInjective(Hash(c, OldPreimage(c, files)), Digest(c, m, others));
  }
}
