/** Seeding one target from a local pack: the other writer of the release tree. */
module Seeds {
  import opened Wrappers
  import opened Text
  import opened ReleaseTree
  import opened Deploy
  import Encoding
  import Format
  import Keyspace
  import Packs

  // The configured target; policy is the check of validity and server names.
  datatype Target = Target(id: string, kind: string, output: Output, retain: nat, policy: Format.Decoded -> bool)

  predicate MappingsPresent(mappings: seq<Mapping>, files: map<string, string>) {
    forall i :: 0 <= i < |mappings| ==> mappings[i].remote in files
  }

  // The pack is valid and meant for this target of this namespace.
  ghost predicate Fits(c: Format.Crypto, p: Packs.Pack, prefix: string, target: Target) {
    Packs.ValidPack(c, p) && Keyspace.NewKeys(prefix) == Some(Keyspace.Keys(p.metadata.prefix)) &&
    p.metadata.target == target.id && p.metadata.kind == target.kind
  }

  predicate Usable(d: Format.Decoded, target: Target) {
    target.policy(d) && MappingsPresent(target.output.mappings, d.files)
  }

  // What Material returns: the decoded pack, if it fits and its files meet policy and mappings.
  ghost function Accepted(c: Format.Crypto, p: Packs.Pack, prefix: string, target: Target): Option<Format.Decoded> {
    if !Fits(c, p, prefix, target) || Format.Decode(c, p.bundle).None? || !Usable(Format.Decode(c, p.bundle).value, target) then None
    else Format.Decode(c, p.bundle)
  }

  function RequestOf(d: Format.Decoded, target: Target): Request {
    Request(ReleaseTree.Material(d.digest, d.files), target.output, target.retain)
  }

  lemma DigestIsHex(c: Format.Crypto, data: string)
    requires Format.CryptoOk(c) && Format.Decode(c, data).Some?
    ensures ReleaseTree.Hex(Format.Decode(c, data).value.digest)
  {
    var d := Format.Decode(c, data).value;
    Encoding.HexShape(c.sha(Format.Preimage(c, d.manifest, d.files)));
  }

  method CheckFits(c: Format.Crypto, p: Packs.Pack, prefix: string, target: Target) returns (ok: bool)
    requires Format.CryptoOk(c)
    ensures ok <==> Fits(c, p, prefix, target)
  {
    var valid := Packs.Validate(c, p);
    if !valid { return false; }
    var keys := Packs.NewKeys(prefix);
    ok := keys.Some? && p.metadata.prefix == keys.value.prefix && p.metadata.target == target.id && p.metadata.kind == target.kind;
  }

  method CheckMappings(mappings: seq<Mapping>, files: map<string, string>) returns (ok: bool)
    ensures ok <==> MappingsPresent(mappings, files)
  {
    for i := 0 to |mappings|
      invariant MappingsPresent(mappings[..i], files)
    {
      if mappings[i].remote !in files { return false; }
    }
    assert mappings[..|mappings|] == mappings;
    ok := true;
  }

  lemma FitsDigest(c: Format.Crypto, p: Packs.Pack, prefix: string, target: Target)
    requires Fits(c, p, prefix, target)
    ensures Format.Decode(c, p.bundle).Some? && Format.Decode(c, p.bundle).value.digest == p.metadata.bundleSha
  {
  }

  method Material(c: Format.Crypto, p: Packs.Pack, prefix: string, target: Target) returns (material: Option<Format.Decoded>)
    requires Format.CryptoOk(c)
    ensures material == Accepted(c, p, prefix, target)
  {
    var fits := CheckFits(c, p, prefix, target);
    if !fits { return None; }
    FitsDigest(c, p, prefix, target);
    material := Packs.DecodeBundle(c, p.bundle);
    if material.None? || material.value.digest != p.metadata.bundleSha || !target.policy(material.value) { return None; }
    var present := CheckMappings(target.output.mappings, material.value.files);
    if !present { return None; }
  }

  // The current release can be read, and a different one is replaced only by force.
  ghost predicate MayReplace(disk: Disk, outside: Path -> Option<Node>, digest: string, force: bool) {
    Readable(disk, outside) && (disk.current.NoLink? || disk.current == Managed(digest) || force)
  }

  // The rest of Apply, once the pack has been accepted.
  method Install(fs: FileSystem, d: Format.Decoded, target: Target, force: bool, now: int, ghost requests: set<Request>)
    returns (ok: bool, changed: bool)
    requires Sane(fs.disk) && Clean(target.output) && ReleaseTree.Hex(d.digest)
    modifies fs
    ensures old(fs.trace) <= fs.trace
    ensures
      if MayReplace(old(fs.disk), fs.outside, d.digest, force) then
        Activation(old(fs.Now()), fs.trace[|old(fs.trace)|..], fs.Now(), ok, RequestOf(d, target), requests, fs.umask, fs.outside)
      else !ok && fs.Now() == old(fs.Now()) && fs.trace == old(fs.trace)
    ensures ok ==> HasRelease(fs.disk, d.digest) && forall i :: 0 <= i < |target.output.mappings| ==>
      HasBytes(fs.disk.releases[Release(d.digest)].tree, ReleaseTree.Material(d.digest, d.files), target.output.mappings[i])
  {
    var current := fs.CurrentDigest();
    if current.None? || (current.value != "" && current.value != d.digest && !force) { return false, false; }
    ghost var ensured;
    ok, changed, ensured := fs.Activate(RequestOf(d, target), now, requests);
  }

  lemma ActivationOutcome(start: Moment, during: seq<Moment>, end: Moment, ok: bool, q: Request, requests: set<Request>,
                          umask: Perm, outside: Path -> Option<Node>)
    requires Activation(start, during, end, ok, q, requests, umask, outside)
    ensures ok <==> Readable(start.disk, outside) && Accepts(start.disk, q)
    ensures !ok ==> end == start
    ensures ok ==> end.disk.current == Managed(q.material.digest)
  {
  }

  // The pack is valid and for this namespace, target and type; its bundle meets the policy and has every mapped file.
  ghost predicate Acceptable(c: Format.Crypto, p: Packs.Pack, prefix: string, target: Target, d: Format.Decoded) {
    Packs.ValidPack(c, p) && Keyspace.NewKeys(prefix) == Some(Keyspace.Keys(p.metadata.prefix)) &&
    p.metadata.target == target.id && p.metadata.kind == target.kind &&
    target.policy(d) && forall m :: m in target.output.mappings ==> m.remote in d.files
  }

  // No release is current, or one whose marker agrees; without force it is the pack's own.
  ghost predicate Replaceable(disk: Disk, outside: Path -> Option<Node>, digest: string, force: bool) {
    match disk.current
    case NoLink => true
    case Foreign => false
    case Managed(current) =>
      current != "" && (exists text :: MarkerSays(disk, outside, current, text) && TrimSpace(text) == current) &&
      (force || current == digest)
  }

  lemma AcceptableIs(c: Format.Crypto, p: Packs.Pack, prefix: string, target: Target)
    requires Format.Decode(c, p.bundle).Some?
    ensures Acceptable(c, p, prefix, target, Format.Decode(c, p.bundle).value) <==> Accepted(c, p, prefix, target).Some?
    ensures Accepted(c, p, prefix, target).Some? ==> Accepted(c, p, prefix, target) == Format.Decode(c, p.bundle)
  {
    var mappings, files := target.output.mappings, Format.Decode(c, p.bundle).value.files;
    assert MappingsPresent(mappings, files) <==> forall m :: m in mappings ==> m.remote in files;
  }

  lemma ReplaceableIs(disk: Disk, outside: Path -> Option<Node>, digest: string, force: bool)
    ensures Replaceable(disk, outside, digest, force) <==> MayReplace(disk, outside, digest, force)
  {
    ReadableIs(disk, outside);
  }

  /** Apply. It succeeds exactly when the pack fits, the current release can be read and may be replaced, and the
      activation is accepted; it then selects the pack's release, and otherwise changes nothing. */
  method Apply(fs: FileSystem, c: Format.Crypto, p: Packs.Pack, prefix: string, target: Target, force: bool, now: int,
               ghost requests: set<Request>)
    returns (ok: bool, changed: bool)
    requires Format.CryptoOk(c) && Sane(fs.disk) && Clean(target.output)
    modifies fs
    ensures ok <==>
      Format.Decode(c, p.bundle).Some? &&
      var d := Format.Decode(c, p.bundle).value;
      Acceptable(c, p, prefix, target, d) && Replaceable(old(fs.disk), fs.outside, d.digest, force) &&
      Accepts(old(fs.disk), Request(ReleaseTree.Material(d.digest, d.files), target.output, target.retain))
    ensures !ok ==> fs.disk == old(fs.disk)
    ensures ok ==> fs.disk.current == Managed(Format.Decode(c, p.bundle).value.digest)
    ensures ok ==>
      var d := Format.Decode(c, p.bundle).value;
      Release(d.digest) in fs.disk.releases && fs.disk.releases[Release(d.digest)].Directory? &&
      forall i :: 0 <= i < |target.output.mappings| ==>
        HasBytes(fs.disk.releases[Release(d.digest)].tree, ReleaseTree.Material(d.digest, d.files), target.output.mappings[i])
  {
    if Format.Decode(c, p.bundle).Some? {
      AcceptableIs(c, p, prefix, target);
      ReplaceableIs(fs.disk, fs.outside, Format.Decode(c, p.bundle).value.digest, force);
    }
    var material := Material(c, p, prefix, target);
    if material.None? { return false, false; }
    DigestIsHex(c, p.bundle);
    ghost var start, before := fs.Now(), |fs.trace|;
    ok, changed := Install(fs, material.value, target, force, now, requests);
    if MayReplace(start.disk, fs.outside, material.value.digest, force) {
      ActivationOutcome(start, fs.trace[before..], fs.Now(), ok, RequestOf(material.value, target), requests, fs.umask, fs.outside);
    }
  }
}
