/** The protocols over the real bundle formats, and what the agent fetches. */
module Instance {
  import opened Wrappers
  import opened Text
  import opened Etcd
  import opened Machines
  import opened Content
  import Kinds
  import Encoding
  import Format
  import Legacy
  import Safety
  import Watch
  import Packs
  import Stranding
  import opened Shapes
  import opened OldShapes

  type Parse = string -> Option<Legacy.OldManifest>

  // The certificates inspectRecord looks at.
  function NotAfters(certificates: seq<Format.Cert>): seq<int> {
    seq(|certificates|, i requires 0 <= i < |certificates| => certificates[i].notAfter)
  }

  function Certificates(c: Format.Crypto, kind: string, files: map<string, string>): seq<Format.Cert> {
    var parsed := c.certificates(Format.FileAt(files, if Kinds.IsTls(kind) then Format.CHAIN else Format.CA));
    if parsed.None? then [] else parsed.value
  }

  ghost function Describe(c: Format.Crypto, data: string): Option<Info> {
    var d := Format.Decode(c, data);
    if d.None? then None
    else Some(Info(Format.Generation(d.value.digest), d.value.manifest.kind,
                   NotAfters(Certificates(c, d.value.manifest.kind, d.value.files))))
  }

  // Any safe target will do: decoding a v5 bundle only checks that the target is safe.
  const ANY_TARGET := "target"

  ghost function ConvertData(c: Format.Crypto, parse: Parse, generation: string, data: string, kind: string): Option<Converted> {
    var files := Legacy.DecodeOld(c, parse, ANY_TARGET, generation, data);
    if files.None? || Legacy.Convert(c, kind, files.value).None? then None
    else
      var (encoded, digest) := Legacy.Convert(c, kind, files.value).value;
      Some(Converted(Format.Generation(digest), encoded))
  }

  lemma AnySafeTarget(c: Format.Crypto, parse: Parse, target: string, generation: string, data: string)
    requires SafeName(target)
    ensures Legacy.DecodeOld(c, parse, target, generation, data) == Legacy.DecodeOld(c, parse, ANY_TARGET, generation, data)
  {
  }

  ghost function Formats(c: Format.Crypto, parse: Parse): World {
    World(data => Describe(c, data), (generation, data, kind) => ConvertData(c, parse, generation, data, kind))
  }

  // ---- what the real formats read and convert, written out ----

  // The value is a v6 bundle of this generation.
  ghost predicate IsStored(c: Format.Crypto, data: string, generation: string, m: Format.Manifest, files: map<string, string>, digest: string) {
    |data| <= 1_048_576 && c.unmarshal(data) == Some(m) && IsBundle(c, m, files, digest) && generation == "sha256-" + digest
  }

  // The certificates of an identity's chain or of a trust file.
  ghost predicate Certified(c: Format.Crypto, m: Format.Manifest, files: map<string, string>, certificates: seq<Format.Cert>) {
    (m.kind == "trust" ==> "ca-bundle.pem" in files && c.certificates(files["ca-bundle.pem"]) == Some(certificates)) &&
    (m.kind != "trust" ==> "fullchain.pem" in files && c.certificates(files["fullchain.pem"]) == Some(certificates))
  }

  lemma CertifiedIs(c: Format.Crypto, m: Format.Manifest, files: map<string, string>, digest: string)
    requires Format.CryptoOk(c) && IsBundle(c, m, files, digest)
    ensures Certified(c, m, files, Certificates(c, m.kind, files))
  {
    Names();
    BundleDecodes(c, m, files, digest);
    Format.DecodedNames(c, m);
    AuthoritiesIs(c, Format.FileAt(files, Format.CA));
    IdentityIs(c, m.kind, Format.FileAt(files, Format.CHAIN), Format.FileAt(files, Format.KEY));
  }

  /** What an inspection sees of a value: of a v6 bundle its generation, its type, and when each of its certificates ends;
      nothing of any other value. */
  lemma DescribeIs(c: Format.Crypto, data: string)
    requires Format.CryptoOk(c)
    ensures Describe(c, data).Some? <==> exists generation, m, files, digest :: IsStored(c, data, generation, m, files, digest)
    ensures forall generation, m, files, digest :: IsStored(c, data, generation, m, files, digest) ==>
      var info := Describe(c, data).value;
      info.generation == generation && info.kind == m.kind &&
      exists certificates: seq<Format.Cert> :: Certified(c, m, files, certificates) && |certificates| == |info.notAfter| &&
        forall i :: 0 <= i < |certificates| ==> info.notAfter[i] == certificates[i].notAfter
  {
    if Describe(c, data).Some? {
      var d := Format.Decode(c, data).value;
      DecodeIs(c, data, d.manifest, d.files, d.digest);
      assert IsStored(c, data, "sha256-" + d.digest, d.manifest, d.files, d.digest);
    }
    forall generation, m, files, digest | IsStored(c, data, generation, m, files, digest)
      ensures Format.Decode(c, data) == Some(Format.Decoded(m, files, digest)) && Certified(c, m, files, Certificates(c, m.kind, files))
    {
      DecodeIs(c, data, m, files, digest);
      CertifiedIs(c, m, files, digest);
    }
  }

  // The value is a v5 bundle of this generation, with these contents.
  ghost predicate IsOld(c: Format.Crypto, parse: Parse, generation: string, data: string, chain: string, key: string) {
    SafeName(generation) && |data| <= 1_048_576 && parse(data).Some? && OldShape(c, parse(data).value, chain, key) &&
    generation == "sha256-" + Encoding.Hex(c.sha(OldText(c, chain, key)))
  }

  // The v6 bundle of these contents.
  ghost predicate IsNew(c: Format.Crypto, kind: string, chain: string, key: string, converted: Converted) {
    (kind == "tls-server" || kind == "tls-client") && Identity(c, kind, chain, key) &&
    converted.bundle == c.marshal(TlsManifest(c, kind, chain, key)) && |converted.bundle| <= 1_048_576 &&
    converted.generation == "sha256-" + Encoding.Hex(c.sha(TlsText(c, kind, chain, key)))
  }

  lemma OldContents(c: Format.Crypto, parse: Parse, generation: string, data: string, chain: string, key: string)
    requires Format.CryptoOk(c)
    ensures IsOld(c, parse, generation, data, chain, key) <==>
      Legacy.DecodeOld(c, parse, ANY_TARGET, generation, data) == Some(map["fullchain.pem" := chain, "privkey.pem" := key])
    ensures IsOld(c, parse, generation, data, chain, key) ==> Encoding.IsBytes(chain) && Encoding.IsBytes(key)
  {
    var files := map["fullchain.pem" := chain, "privkey.pem" := key];
    DecodeOldIs(c, parse, ANY_TARGET, generation, data, files);
    forall x, y | files == map["fullchain.pem" := x, "privkey.pem" := y] ensures x == chain && y == key { SamePair(chain, key, x, y); }
    if Legacy.DecodeOld(c, parse, ANY_TARGET, generation, data) == Some(files) { OldBytes(c, parse, generation, data, files); }
  }

  lemma SamePair(chain: string, key: string, x: string, y: string)
    requires map["fullchain.pem" := chain, "privkey.pem" := key] == map["fullchain.pem" := x, "privkey.pem" := y]
    ensures x == chain && y == key
  {
    Names();
    var files := map["fullchain.pem" := chain, "privkey.pem" := key];
    assert files["fullchain.pem"] == chain && files["privkey.pem"] == key;
  }

  lemma OldBytes(c: Format.Crypto, parse: Parse, generation: string, data: string, files: map<string, string>)
    requires Legacy.DecodeOld(c, parse, ANY_TARGET, generation, data) == Some(files)
    ensures "fullchain.pem" in files && "privkey.pem" in files
    ensures Encoding.IsBytes(files["fullchain.pem"]) && Encoding.IsBytes(files["privkey.pem"])
  {
    Legacy.OldFiles(c, parse(data).value, files);
  }

  /** What converts: exactly a v5 bundle of the named generation, to a TLS type, with contents that are an identity of that
      type, and into the v6 bundle of the same contents. */
  lemma ConvertDataIff(c: Format.Crypto, parse: Parse, generation: string, data: string, kind: string, converted: Converted)
    requires Format.CryptoOk(c)
    ensures ConvertData(c, parse, generation, data, kind) == Some(converted) <==>
      exists chain, key :: IsOld(c, parse, generation, data, chain, key) && IsNew(c, kind, chain, key, converted)
  {
    if ConvertData(c, parse, generation, data, kind) == Some(converted) {
      var files := Legacy.DecodeOld(c, parse, ANY_TARGET, generation, data).value;
      Legacy.OldFiles(c, parse(data).value, files);
      var chain, key := files["fullchain.pem"], files["privkey.pem"];
      OldContents(c, parse, generation, data, chain, key);
      ConvertsTo(c, parse, generation, data, kind, converted, chain, key);
    }
    forall chain, key | IsOld(c, parse, generation, data, chain, key) && IsNew(c, kind, chain, key, converted)
      ensures ConvertData(c, parse, generation, data, kind) == Some(converted)
    {
      ConvertsTo(c, parse, generation, data, kind, converted, chain, key);
    }
  }

  lemma ConvertsTo(c: Format.Crypto, parse: Parse, generation: string, data: string, kind: string, converted: Converted,
                   chain: string, key: string)
    requires Format.CryptoOk(c) && IsOld(c, parse, generation, data, chain, key)
    ensures ConvertData(c, parse, generation, data, kind) == Some(converted) <==> IsNew(c, kind, chain, key, converted)
  {
    OldContents(c, parse, generation, data, chain, key);
    var digest := Encoding.Hex(c.sha(TlsText(c, kind, chain, key)));
    var files := map["fullchain.pem" := chain, "privkey.pem" := key];
    ConvertIs(c, kind, chain, key, converted.bundle, digest);
    if Legacy.Convert(c, kind, files).Some? {
      ConvertIs(c, kind, chain, key, Legacy.Convert(c, kind, files).value.0, Legacy.Convert(c, kind, files).value.1);
    }
  }

  lemma ConvertDataIs(c: Format.Crypto, parse: Parse, generation: string, data: string, kind: string)
    requires Format.CryptoOk(c) && ConvertData(c, parse, generation, data, kind).Some?
    ensures var converted := ConvertData(c, parse, generation, data, kind).value;
      var files := Legacy.DecodeOld(c, parse, ANY_TARGET, generation, data);
      var decoded := Format.Decode(c, converted.bundle);
      files.Some? && decoded.Some? && decoded.value.files == files.value && decoded.value.manifest.kind == kind &&
      Format.Generation(decoded.value.digest) == converted.generation
  {
    Legacy.ConversionKeepsFiles(c, parse, ANY_TARGET, generation, data, kind);
  }

  /** The real formats meet what the protocol proofs ask of them. */
  lemma FormatsOk(c: Format.Crypto, parse: Parse)
    requires Format.CryptoOk(c)
    ensures WorldOk(Formats(c, parse))
  {
    var w := Formats(c, parse);
    forall d | w.decode(d).Some? ensures SafeName(w.decode(d).value.generation) {
      var decoded := Format.Decode(c, d).value;
      GenerationSafe(c, Format.Preimage(c, decoded.manifest, decoded.files));
    }
    forall g, d, k | w.convert(g, d, k).Some?
      ensures Valid(w, w.convert(g, d, k).value.generation, w.convert(g, d, k).value.bundle)
    {
      ConvertDataIs(c, parse, g, d, k);
    }
  }

  /** Whatever an upgrader commits, under arbitrary concurrent rewrites of v5 keys and v6 pointers, the bundle its
      new pointer names holds exactly the files of the v5 bundle named at the plan's snapshot: the same
      certificate and key bytes. */
  lemma UpgradeKeepsBytes(c: Format.Crypto, parse: Parse, rogue: bool, s: System, steps: seq<Step>, id: nat, order: seq<Key>)
    requires Format.CryptoOk(c) && Safety.SystemOk(Formats(c, parse), s)
    requires var r := Run(Formats(c, parse), rogue, s, steps);
      id < |r.processes| && r.processes[id].UpgradeProcess? &&
      |Advance(Formats(c, parse), rogue, r, Move(id, order)).log| > |r.log| &&
      PutsPointer(Advance(Formats(c, parse), rogue, r, Move(id, order)).log[|r.log|])
    ensures var r := Run(Formats(c, parse), rogue, s, steps);
      var st := r.processes[id].upgrade;
      st.UpgradeTarget? && st.next < |st.plan.targets| && KeepsBytes(c, parse, r.log, st.plan.revision, st.plan.targets[st.next]) &&
      AskedKind(r.processes[id].upgradeOptions, st.plan.targets[st.next].id, st.plan.targets[st.next].kind)
  {
    FormatsOk(c, parse);
    Safety.UpgradeCommitsFaithfully(Formats(c, parse), rogue, s, steps, id, order);
    var r := Run(Formats(c, parse), rogue, s, steps);
    FaithfulKeepsBytes(c, parse, r.log, r.processes[id].upgrade.plan.revision,
                       r.processes[id].upgrade.plan.targets[r.processes[id].upgrade.next]);
  }

  ghost predicate KeepsBytes(c: Format.Crypto, parse: Parse, log: Log, revision: nat, t: TargetPlan) {
    1 <= revision <= Revision(log) &&
    var oldKey, newKey := Bundle(V5, t.id, t.sourceGeneration), Bundle(V6, t.id, t.resultGeneration);
    oldKey in At(log, revision) && newKey in Now(log) &&
    var files := Legacy.DecodeOld(c, parse, ANY_TARGET, t.sourceGeneration, At(log, revision)[oldKey].value);
    var decoded := Format.Decode(c, Now(log)[newKey].value);
    files.Some? && decoded.Some? && decoded.value.files == files.value && decoded.value.manifest.kind == t.kind &&
    Format.Generation(decoded.value.digest) == t.resultGeneration
  }

  lemma FaithfulKeepsBytes(c: Format.Crypto, parse: Parse, log: Log, revision: nat, t: TargetPlan)
    requires Format.CryptoOk(c) && Safety.FaithfulCommit(Formats(c, parse), log, revision, t)
    ensures KeepsBytes(c, parse, log, revision, t)
  {
    ConvertDataIs(c, parse, t.sourceGeneration, At(log, revision)[Bundle(V5, t.id, t.sourceGeneration)].value, t.kind);
  }

  // ---- collisions ----

  // No two decodable values hash different strings to one sum.
  ghost predicate ShaClean(c: Format.Crypto, values: set<string>) {
    forall a, b :: a in values && b in values && Format.Decode(c, a).Some? && Format.Decode(c, b).Some? ==>
      NoCollision(c, Hashed(c, Format.Decode(c, a).value.manifest, Format.Decode(c, a).value.files) +
                     Hashed(c, Format.Decode(c, b).value.manifest, Format.Decode(c, b).value.files))
  }

  lemma SameGenerationSameInfo(c: Format.Crypto, values: set<string>, a: string, b: string)
    requires Format.CryptoOk(c) && ShaClean(c, values) && a in values && b in values && Describe(c, a).Some? && Describe(c, b).Some?
    ensures Describe(c, a).value.generation == Describe(c, b).value.generation <==>
      Format.Decode(c, a).value.manifest.kind == Format.Decode(c, b).value.manifest.kind &&
      Format.Decode(c, a).value.files == Format.Decode(c, b).value.files
    ensures Describe(c, a).value.generation == Describe(c, b).value.generation ==> Describe(c, a) == Describe(c, b)
  {
    var x, y := Format.Decode(c, a).value, Format.Decode(c, b).value;
    DigestIdentifies(c, x.manifest, y.manifest);
    GenerationInjective(x.digest, y.digest);
  }

  /** If SHA-256 does not collide on the bundles written, two values of one generation read the same. */
  lemma ShaCleanNoCollision(c: Format.Crypto, parse: Parse, log: Log, values: set<string>)
    requires Format.CryptoOk(c) && ShaClean(c, values)
    requires forall t, g, a :: Put(Bundle(V6, t, g), a) in log ==> a in values && Valid(Formats(c, parse), g, a)
    ensures Safety.NoCollision(Formats(c, parse), log)
  {
    forall t, g, a, b | Put(Bundle(V6, t, g), a) in log && Put(Bundle(V6, t, g), b) in log
      ensures Formats(c, parse).decode(a) == Formats(c, parse).decode(b)
    {
      SameValidSameInfo(c, parse, values, g, a, b);
    }
  }

  lemma SameValidSameInfo(c: Format.Crypto, parse: Parse, values: set<string>, generation: string, a: string, b: string)
    requires Format.CryptoOk(c) && ShaClean(c, values) && a in values && b in values
    requires Valid(Formats(c, parse), generation, a) && Valid(Formats(c, parse), generation, b)
    ensures Formats(c, parse).decode(a) == Formats(c, parse).decode(b)
  {
    assert Formats(c, parse).decode(a) == Describe(c, a) && Formats(c, parse).decode(b) == Describe(c, b);
    SameGenerationSameInfo(c, values, a, b);
  }

  // ---- the agent's fetch ----

  // materialFromValue
  ghost function MaterialOf(c: Format.Crypto, generation: string, data: string): Option<Format.Decoded> {
    var decoded := Format.Decode(c, data);
    if decoded.None? || generation != Format.Generation(decoded.value.digest) then None else decoded
  }

  method ReadMaterial(c: Format.Crypto, generation: string, data: string) returns (material: Option<Format.Decoded>)
    ensures material == MaterialOf(c, generation, data)
  {
    var decoded := Packs.DecodeBundle(c, data);
    if decoded.None? || generation != Format.Generation(decoded.value.digest) { return None; }
    var manifest, files := decoded.value.manifest, decoded.value.files;
    Format.FilesAgree(c, manifest.files);
    var valid := Format.ValidateFiles(c, manifest, files);
    if !valid { return None; }
    material := decoded;
  }

  // FetchBundle at a revision, by its outcome.
  ghost function Fetch(c: Format.Crypto, log: Log, target: string, generation: string, revision: int): Option<Format.Decoded> {
    if !SafeName(target) || !SafeName(generation) || revision > Revision(log) then None else
      var cell := Lookup(if revision <= 0 then Now(log) else At(log, revision), Bundle(V6, target, generation));
      if cell.None? then None else MaterialOf(c, generation, cell.value.value)
  }

  method FetchBundle(c: Format.Crypto, store: Store, target: string, generation: string, revision: int)
    returns (material: Option<Format.Decoded>)
    ensures material == Fetch(c, store.log, target, generation, revision)
    ensures Format.CryptoOk(c) ==> forall m, files, digest ::
      material == Some(Format.Decoded(m, files, digest)) <==>
        SafeName(target) && SafeName(generation) && revision <= Revision(store.log) &&
        var view := if revision <= 0 then Now(store.log) else At(store.log, revision);
        Bundle(V6, target, generation) in view &&
        IsStored(c, view[Bundle(V6, target, generation)].value, generation, m, files, digest)
  {
    if Format.CryptoOk(c) {
      forall data, m, files, digest
        ensures MaterialOf(c, generation, data) == Some(Format.Decoded(m, files, digest)) <==>
          IsStored(c, data, generation, m, files, digest)
      {
        DecodeIs(c, data, m, files, digest);
      }
    }
    if !SafeName(target) || !SafeName(generation) { return None; }
    var ok, value := store.GetAt(Bundle(V6, target, generation), revision);
    if !ok || value.None? { return None; }
    material := ReadMaterial(c, generation, value.value.value);
  }

  // The store's run in the real formats.
  ghost function StoreRun(c: Format.Crypto, parse: Parse, log: Log, processes: seq<Process>, steps: seq<Step>): Log {
    Run(Formats(c, parse), false, System(log, processes, map[]), steps).log
  }

  /** Every reconcile an agent starts finds its bundle.  Over any run of publishers, pruners and upgraders that
      deletes no bundle a publisher is about to point at, and any run of an agent over that store, with any restarts
      and any configured targets, every call the agent makes fetches and decodes a bundle of its generation, also
      when the pointer has moved and the bundle has been deleted since. */
  lemma AgentFetchSucceeds(c: Format.Crypto, parse: Parse, log: Log, processes: seq<Process>, steps: seq<Step>,
                           configured: set<string>, store: Log, script: seq<Watch.Act>)
    requires Format.CryptoOk(c) && Safety.CleanStore(Formats(c, parse), log) && (forall p :: p in processes ==> Safety.Starting(p))
    requires Safety.Spared(Formats(c, parse), System(log, processes, map[]), steps)
    requires Watch.Watched(configured, store, script).log == StoreRun(c, parse, log, processes, steps)
    requires forall t :: t in configured ==> SafeName(t)
    ensures forall call :: call in Watch.Watched(configured, store, script).calls ==>
      Fetch(c, StoreRun(c, parse, log, processes, steps), call.target, call.generation, call.revision).Some?
  {
    Watch.WatchSound(configured, store, script);
    var a := Watch.Watched(configured, store, script);
    forall call | call in a.calls
      ensures Fetch(c, StoreRun(c, parse, log, processes, steps), call.target, call.generation, call.revision).Some?
    {
      assert Watch.Accurate(a.log, configured, call);
      AccurateFetchSucceeds(c, parse, log, processes, steps, configured, call);
    }
  }

  lemma AccurateFetchSucceeds(c: Format.Crypto, parse: Parse, log: Log, processes: seq<Process>, steps: seq<Step>,
                              configured: set<string>, call: Watch.Call)
    requires Format.CryptoOk(c) && Safety.CleanStore(Formats(c, parse), log) && (forall p :: p in processes ==> Safety.Starting(p))
    requires Safety.Spared(Formats(c, parse), System(log, processes, map[]), steps)
    requires Watch.Accurate(StoreRun(c, parse, log, processes, steps), configured, call) && SafeName(call.target)
    ensures Fetch(c, StoreRun(c, parse, log, processes, steps), call.target, call.generation, call.revision).Some?
  {
    FormatsOk(c, parse);
    Safety.FetchAtPointerRevisionFinds(Formats(c, parse), log, processes, steps, call.revision, call.target);
    FetchFinds(c, parse, StoreRun(c, parse, log, processes, steps), call);
  }

  lemma FetchFinds(c: Format.Crypto, parse: Parse, log: Log, call: Watch.Call)
    requires Format.CryptoOk(c) && SafeName(call.target) && 1 <= call.revision <= Revision(log)
    requires var view := At(log, call.revision);
      Bundle(V6, call.target, call.generation) in view &&
      Valid(Formats(c, parse), call.generation, view[Bundle(V6, call.target, call.generation)].value)
    ensures Fetch(c, log, call.target, call.generation, call.revision).Some?
  {
    FormatsOk(c, parse);
    var data := At(log, call.revision)[Bundle(V6, call.target, call.generation)].value;
    assert Formats(c, parse).decode(data) == Describe(c, data);
  }

  // ---- the stranding run over real bundles ----

  ghost function GenerationOf(c: Format.Crypto, kind: string, chain: string, key: string): string {
    Format.Generation(Format.Digest(c, TlsManifest(c, kind, chain, key), TlsFiles(chain, key)))
  }

  ghost function PackOf(c: Format.Crypto, target: string, kind: string, chain: string, key: string): Pack {
    Pack(target, GenerationOf(c, kind, chain, key), c.marshal(TlsManifest(c, kind, chain, key)))
  }

  // Material that can be packed: an identity within the size limit.
  ghost predicate Packable(c: Format.Crypto, kind: string, chain: string, key: string) {
    Encoding.IsBytes(chain) && Encoding.IsBytes(key) && Format.Encode(c, TlsManifest(c, kind, chain, key)).Some?
  }

  lemma PackDescribed(c: Format.Crypto, kind: string, chain: string, key: string)
    requires Format.CryptoOk(c) && Packable(c, kind, chain, key)
    ensures Kinds.IsTls(kind) && Describe(c, c.marshal(TlsManifest(c, kind, chain, key))) ==
      Some(Info(GenerationOf(c, kind, chain, key), kind, NotAfters(Certificates(c, kind, TlsFiles(chain, key)))))
  {
    Legacy.BuiltDecodes(c, kind, chain, key);
    BuiltTls(c, kind, chain, key);
  }

  /** Any two identities of different generations that can be packed give a scene of Stranding, if the pruner counts
      the second as past retention: the stranding run, and the ordinary life, are about bundles that the programs
      make and accept. */
  lemma RealScene(c: Format.Crypto, parse: Parse, target: string, kind: string, chain: string, key: string,
                  kind': string, chain': string, key': string, options: PruneOptions)
    requires Format.CryptoOk(c) && SafeName(target) && Packable(c, kind, chain, key) && Packable(c, kind', chain', key')
    requires GenerationOf(c, kind, chain, key) != GenerationOf(c, kind', chain', key')
    requires options.delete && options.retention >= 0
    requires var ends := NotAfters(Certificates(c, kind', TlsFiles(chain', key')));
      ends != [] && Sub(options.now, Earliest(ends)) > options.retention
    ensures Stranding.SceneOk(Formats(c, parse),
      Stranding.Scene(target, PackOf(c, target, kind, chain, key), PackOf(c, target, kind', chain', key'), options))
  {
    FormatsOk(c, parse);
    PackValid(c, parse, kind, chain, key);
    PackValid(c, parse, kind', chain', key');
    PastRetentionOf(c, parse, kind', chain', key', options);
  }

  lemma PackValid(c: Format.Crypto, parse: Parse, kind: string, chain: string, key: string)
    requires Format.CryptoOk(c) && Packable(c, kind, chain, key)
    ensures Valid(Formats(c, parse), GenerationOf(c, kind, chain, key), c.marshal(TlsManifest(c, kind, chain, key)))
  {
    PackDescribed(c, kind, chain, key);
    var data := c.marshal(TlsManifest(c, kind, chain, key));
    assert Formats(c, parse).decode(data) == Describe(c, data);
  }

  lemma PastRetentionOf(c: Format.Crypto, parse: Parse, kind: string, chain: string, key: string, options: PruneOptions)
    requires Format.CryptoOk(c) && Packable(c, kind, chain, key) && options.delete && options.retention >= 0
    requires var ends := NotAfters(Certificates(c, kind, TlsFiles(chain, key)));
      ends != [] && Sub(options.now, Earliest(ends)) > options.retention
    ensures Safety.PastRetention(Formats(c, parse), options, c.marshal(TlsManifest(c, kind, chain, key)))
  {
    PackDescribed(c, kind, chain, key);
    var data := c.marshal(TlsManifest(c, kind, chain, key));
    assert Formats(c, parse).decode(data) == Describe(c, data);
  }

  const CLIENT_HEADER := Format.SCHEMA + "\0" + Kinds.TLS_CLIENT

  // A hash that tells server from client bundles.
  function KindSha(s: string): string {
    seq(32, _ => if CLIENT_HEADER <= s then '1' else '0')
  }

  lemma KindShaDiffers(c: Format.Crypto, chain: string, key: string)
    requires c.sha == (s => KindSha(s))
    ensures GenerationOf(c, Kinds.TLS_CLIENT, chain, key) != GenerationOf(c, Kinds.TLS_SERVER, chain, key)
  {
    var client, server := TlsManifest(c, Kinds.TLS_CLIENT, chain, key), TlsManifest(c, Kinds.TLS_SERVER, chain, key);
    var p, q := Format.Preimage(c, client, TlsFiles(chain, key)), Format.Preimage(c, server, TlsFiles(chain, key));
    PreimageHeader(c, client, TlsFiles(chain, key));
    PreimageHeader(c, server, TlsFiles(chain, key));
    KindsDiffer();
    HashDiffers(c, p, q);
  }

  lemma KindsDiffer()
    ensures Kinds.TLS_CLIENT != Kinds.TLS_SERVER && |Kinds.TLS_CLIENT| == |Kinds.TLS_SERVER|
  {
    assert Kinds.TLS_CLIENT[4] != Kinds.TLS_SERVER[4];
  }

  lemma HashDiffers(c: Format.Crypto, p: string, q: string)
    requires c.sha == (s => KindSha(s)) && CLIENT_HEADER <= p && !(CLIENT_HEADER <= q)
    ensures Format.Generation(Format.Hash(c, p)) != Format.Generation(Format.Hash(c, q))
  {
    assert KindSha(p)[0] == '1' && KindSha(q)[0] == '0';
    Encoding.HexInjective(KindSha(p), KindSha(q));
    GenerationInjective(Format.Hash(c, p), Format.Hash(c, q));
  }

  lemma PreimageHeader(c: Format.Crypto, m: Format.Manifest, files: map<string, string>)
    requires m.schema == Format.SCHEMA && |m.kind| == |Kinds.TLS_CLIENT|
    ensures CLIENT_HEADER <= Format.Preimage(c, m, files) <==> m.kind == Kinds.TLS_CLIENT
  {
    var rest := "\0" + Format.Lines(Format.AllLines(c, m, files));
    assert Format.Preimage(c, m, files) == Format.SCHEMA + "\0" + m.kind + rest;
    HeaderOf(m.kind, rest, Format.Preimage(c, m, files));
  }

  lemma HeaderOf(kind: string, rest: string, preimage: string)
    requires preimage == Format.SCHEMA + "\0" + kind + rest && |kind| == |Kinds.TLS_CLIENT|
    ensures CLIENT_HEADER <= preimage <==> kind == Kinds.TLS_CLIENT
  {
    var n := |Format.SCHEMA| + 1;
    assert preimage[n..n + |kind|] == kind;
    assert CLIENT_HEADER[n..] == Kinds.TLS_CLIENT;
    if CLIENT_HEADER <= preimage { assert preimage[..|CLIENT_HEADER|][n..] == CLIENT_HEADER[n..]; }
  }

  lemma ShortPackable(sha: string -> string, kind: string)
    requires (forall s :: |sha(s)| == 32 && Encoding.IsBytes(sha(s))) && Kinds.IsTls(kind)
    ensures Packable(CryptoWith(sha), kind, "a", "k")
  {
    var c := CryptoWith(sha);
    CryptoWithOk(sha);
    BuiltTls(c, kind, "a", "k");
    ShortText(c, kind);
  }

  lemma ShortFile(c: Format.Crypto, name: string, role: string, content: string)
    requires Format.CryptoOk(c) && |content| == 1 && |name| < 20 && |role| < 20
    ensures |RenderFile(BuiltFile(c, name, role, content))| < 200
  {
    Encoding.HexShape(c.sha(content));
  }

  lemma ShortText(c: Format.Crypto, kind: string)
    requires Format.CryptoOk(c) && Kinds.IsTls(kind)
    ensures |Render(TlsManifest(c, kind, "a", "k"))| < 1000
  {
    var m := TlsManifest(c, kind, "a", "k");
    ShortFile(c, Format.CHAIN, Format.ROLE_CHAIN, "a");
    ShortFile(c, Format.KEY, Format.ROLE_KEY, "k");
    TwoFiles(m.files[0], m.files[1]);
    assert m.files == [m.files[0], m.files[1]];
  }

  lemma TwoFiles(f: Format.ManifestFile, g: Format.ManifestFile)
    ensures RenderFiles([f, g]) == RenderFile(f) + RenderFile(g)
  {
    assert [f, g][1..] == [g] && [g][1..] == [];
    assert RenderFiles([g]) == RenderFile(g) + RenderFiles([]);
  }

  lemma ShortExpired(sha: string -> string)
    ensures NotAfters(Certificates(CryptoWith(sha), Kinds.TLS_SERVER, TlsFiles("a", "k"))) == [0]
    ensures Sub(1, Earliest([0])) > 0 && SafeName("t")
  {
    var c := CryptoWith(sha);
    assert Format.FileAt(TlsFiles("a", "k"), Format.CHAIN) == "a" by { NamesDiffer(); }
    assert c.certificates("a") == Some([Format.Cert(false, 0, 0)]);
  }

  lemma ShortScene(parse: Parse, sha: string -> string)
    requires sha == (s => KindSha(s))
    ensures var c := CryptoWith(sha);
      Format.CryptoOk(c) &&
      Stranding.SceneOk(Formats(c, parse),
        Stranding.Scene("t", PackOf(c, "t", Kinds.TLS_CLIENT, "a", "k"), PackOf(c, "t", Kinds.TLS_SERVER, "a", "k"), PruneOptions(1, 0, true)))
  {
    ShaOk();
    CryptoWithOk(sha);
    ShortPackable(sha, Kinds.TLS_CLIENT);
    ShortPackable(sha, Kinds.TLS_SERVER);
    KindShaDiffers(CryptoWith(sha), "a", "k");
    ShortExpired(sha);
    RealScene(CryptoWith(sha), parse, "t", Kinds.TLS_CLIENT, "a", "k", Kinds.TLS_SERVER, "a", "k", PruneOptions(1, 0, true));
  }

  lemma ShaOk()
    ensures forall s :: |KindSha(s)| == 32 && Encoding.IsBytes(KindSha(s))
  {
  }

  /** Such scenes over the real formats exist. */
  lemma SceneExists(parse: Parse) returns (c: Format.Crypto, scene: Stranding.Scene)
    ensures Format.CryptoOk(c) && Stranding.SceneOk(Formats(c, parse), scene)
  {
    var sha := s => KindSha(s);
    c := CryptoWith(sha);
    ShortScene(parse, sha);
    scene := Stranding.Scene("t", PackOf(c, "t", Kinds.TLS_CLIENT, "a", "k"), PackOf(c, "t", Kinds.TLS_SERVER, "a", "k"), PruneOptions(1, 0, true));
  }
}
