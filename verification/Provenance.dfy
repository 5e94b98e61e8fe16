// Detaching BuildKit evidence from a two-platform runnable archive and replaying
// it (scripts/release_provenance.py).
module Provenance {
  import opened Wrappers
  import opened OciGraph
  import opened OciFootprint
  import opened OciAccepted

  const BLANK := Doc(0, None, None, None, None, None, None, Platform(OtherOs(""), OtherArch(""), None, false), None, None, None, None)

  function IndexDoc(ds: seq<Descriptor>): Doc {
    BLANK.(schema := 2, media := Some(IndexMedia), manifests := Some(ds))
  }

  const LAYOUT_DOC := BLANK.(layoutVersion := Some("1.0.0"))

  // ---- runtime_metadata ----

  function InnerIndex(c: Codec, ds: map<Arch, Descriptor>): Bytes
    requires Amd64 in ds && Arm64 in ds
  {
    c.encode(IndexDoc([ds[Amd64], ds[Arm64]]))
  }

  function InnerDescriptor(c: Codec, ds: map<Arch, Descriptor>): Descriptor
    requires Amd64 in ds && Arm64 in ds
  {
    Descriptor(IndexMedia, c.sha(InnerIndex(c, ds)), |InnerIndex(c, ds)|, true, None, None, None, None)
  }

  function RootIndex(c: Codec, ds: map<Arch, Descriptor>): Bytes
    requires Amd64 in ds && Arm64 in ds
  {
    c.encode(IndexDoc([InnerDescriptor(c, ds)]))
  }

  function Generated(c: Codec, ds: map<Arch, Descriptor>): Members
    requires Amd64 in ds && Arm64 in ds
  {
    map[LayoutFile := c.encode(LAYOUT_DOC), IndexFile := RootIndex(c, ds),
        InnerDescriptor(c, ds).File() := InnerIndex(c, ds)]
  }

  // ---- collect_runtime_inputs ----

  // One opened native input: its members and what the walk found.
  datatype Native = Native(members: Members, walked: Walked)

  function FirstLeaf(leaves: seq<Descriptor>, digest: Digest): Option<Descriptor> {
    if leaves == [] then None
    else if leaves[0].digest == digest then Some(leaves[0])
    else FirstLeaf(leaves[1..], digest)
  }

  predicate HasParts(c: Codec, m: Members, d: Descriptor) {
    DocAt(c, m, d).Some? && DocAt(c, m, d).value.config.Some? && DocAt(c, m, d).value.layers.Some?
  }

  // The names a runnable platform needs: manifest, config and layers.
  function RunnableNames(c: Codec, m: Members, d: Descriptor): set<Name> {
    if HasParts(c, m, d) then {d.File(), ConfigOf(c, m, d).File()} + Files(LayersOf(c, m, d)) else {}
  }

  function Part(m: Members, names: set<Name>): Members {
    map name | name in names && name in m :: m[name]
  }

  function EvidencePart(n: Native): Members {
    map name | name in n.walked.metadataNames && name in n.members && name.BlobFile? :: n.members[name]
  }

  datatype Collected = Collected(descriptors: map<Arch, Descriptor>, runtime: Members, metadata: Members, originals: seq<Original>)

  // The raw index and layout of one platform's original archive.
  datatype Original = Original(arch: Arch, index: Bytes, layout: Bytes)

  // One iteration of the collecting loop; None is the source's ValueError.
  function CollectStep(c: Codec, arch: Arch, n: Native, so: Collected): (r: Option<Collected>) {
    if !HasProvenance(n.walked) || n.walked.images == [] then None else
    var leaf := FirstLeaf(n.walked.leaves, n.walked.images[0].descriptor.digest);
    if leaf.None? then None else
    var d := leaf.value;
    var manifest := ReadJson(c, n.members, d.File(), MAX_JSON, n.walked);
    if manifest.None? || manifest.value.0.config.None? || manifest.value.0.layers.None?
       || !(RunnableNames(c, n.members, d) <= n.members.Keys)
       || !RawReadable(n, IndexFile) || !RawReadable(n, LayoutFile)
       || !(forall name :: name in n.walked.metadataNames && name.BlobFile? ==>
              RawReadable(n, name) && (name in so.metadata ==> so.metadata[name] == n.members[name]))
    then None
    else Some(Collected(so.descriptors[arch := d],
                        so.runtime + Part(n.members, RunnableNames(c, n.members, d)),
                        so.metadata + EvidencePart(n),
                        so.originals + [Original(arch, n.members[IndexFile], n.members[LayoutFile])]))
  }

  // read_raw: attestation statements have the larger limit.
  predicate RawReadable(n: Native, name: Name) {
    name in n.members && |n.members[name]| <= if name in n.walked.attestationNames then MAX_ATTESTATION_JSON else MAX_JSON
  }

  function Collect(c: Codec, archs: seq<Arch>, inputs: map<Arch, Native>): (r: Option<Collected>)
    requires forall i :: 0 <= i < |archs| ==> archs[i] in inputs
  {
    if archs == [] then Some(Collected(map[], map[], map[], [])) else
    var last := archs[|archs| - 1];
    var so := Collect(c, archs[..|archs| - 1], inputs);
    if so.None? then None else CollectStep(c, last, inputs[last], so.value)
  }

  // The collecting loop itself, over the platforms in order.
  method CollectRuntimeInputs(c: Codec, archs: seq<Arch>, inputs: map<Arch, Native>) returns (r: Option<Collected>)
    requires forall i :: 0 <= i < |archs| ==> archs[i] in inputs
    ensures r == Collect(c, archs, inputs)
  {
    var so := Collected(map[], map[], map[], []);
    for i := 0 to |archs|
      invariant Collect(c, archs[..i], inputs) == Some(so)
    {
      assert archs[..i + 1][..i] == archs[..i];
      var step := CollectStep(c, archs[i], inputs[archs[i]], so);
      if step.None? {
        CollectFails(c, archs, inputs, i + 1);
        return None;
      }
      so := step.value;
    }
    assert archs[..|archs|] == archs;
    return Some(so);
  }

  // Once an input is rejected no later input can repair the collection.
  lemma {:induction false} CollectFails(c: Codec, archs: seq<Arch>, inputs: map<Arch, Native>, k: nat)
    requires forall i :: 0 <= i < |archs| ==> archs[i] in inputs
    requires k <= |archs| && Collect(c, archs[..k], inputs).None?
    ensures Collect(c, archs, inputs).None?
  {
    if k == |archs| {
      assert archs[..k] == archs;
    } else {
      assert archs[..|archs| - 1][..k] == archs[..k];
      CollectFails(c, archs[..|archs| - 1], inputs, k);
    }
  }

  // ---- detach ----

  datatype Binding = Binding(archive: Digest, index: Digest)
  datatype Sidecar = Sidecar(binding: Binding, originals: seq<Original>, blobs: map<Digest, Bytes>)
  datatype Pair = Pair(runtime: Members, sidecar: Sidecar)

  function BlobMap(m: Members): (r: map<Digest, Bytes>) {
    map name | name in m && name.BlobFile? :: name.digest := m[name]
  }

  function Detach(c: Codec, inputs: map<Arch, Native>): (r: Option<Pair>)
    requires inputs.Keys == {Amd64, Arm64}
  {
    var so := Collect(c, PLATFORMS, inputs);
    if so.None? || !(Amd64 in so.value.descriptors && Arm64 in so.value.descriptors) then None else
    var runtime := so.value.runtime + Generated(c, so.value.descriptors);
    Some(Pair(runtime,
              Sidecar(Binding(c.tar(runtime), InnerDescriptor(c, so.value.descriptors).digest),
                      so.value.originals, BlobMap(so.value.metadata))))
  }

  // ---- verify_pair ----

  function Restored(blobs: map<Digest, Bytes>): (r: Members) {
    map d | d in blobs :: BlobFile(d) := blobs[d]
  }

  function Overlay(runtime: Members, blobs: map<Digest, Bytes>, o: Original): Members {
    runtime + Restored(blobs) + map[IndexFile := o.index, LayoutFile := o.layout]
  }

  // EvidenceArchive: the original graph over raw metadata and runtime layers.
  function Replay(c: Codec, pair: Pair, i: nat, version: string, revision: string): (r: Option<Walked>)
    requires i < |pair.sidecar.originals|
  {
    var o := pair.sidecar.originals[i];
    Open(c, Overlay(pair.runtime, pair.sidecar.blobs, o), NativeKind(o.arch, version, revision))
  }

  ghost function TotalSize(blobs: map<Digest, Bytes>): nat
    decreases |blobs|
  {
    if blobs == map[] then 0
    else
      var d :| d in blobs;
      |blobs[d]| + TotalSize(blobs - {d})
  }

  ghost predicate DecodeFits(s: Sidecar) {
    && |s.blobs| <= 4096
    && (forall d :: d in s.blobs ==> 0 < |s.blobs[d]| <= MAX_ATTESTATION_JSON)
    && |s.originals| == 2
    && (forall i :: 0 <= i < 2 ==> 0 < |s.originals[i].index| <= MAX_JSON && 0 < |s.originals[i].layout| <= MAX_JSON)
    && TotalSize(s.blobs) + |s.originals[0].index| + |s.originals[0].layout|
       + |s.originals[1].index| + |s.originals[1].layout| <= MAX_JSON_TOTAL
  }

  ghost predicate RuntimeAccepted(c: Codec, m: Members, version: string, revision: string) {
    && Inventory(c, m)
    && var w := Open(c, m, RuntimeKind(version, revision));
    && w.Some?
    && Amd64 in w.value.descriptors && Arm64 in w.value.descriptors
    && (forall name :: name in Generated(c, w.value.descriptors) ==>
          name in m && m[name] == Generated(c, w.value.descriptors)[name])
    && m.Keys == w.value.metadataNames + w.value.contentNames
  }

  ghost function RuntimeDescriptors(c: Codec, m: Members, version: string, revision: string): (r: map<Arch, Descriptor>)
    requires RuntimeAccepted(c, m, version, revision)
    ensures Amd64 in r && Arm64 in r
  {
    Open(c, m, RuntimeKind(version, revision)).value.descriptors
  }

  ghost predicate ReplayAccepted(descriptors: map<Arch, Descriptor>, arch: Arch, replay: Option<Walked>) {
    && replay.Some? && arch in descriptors && |replay.value.images| > 0
    && replay.value.images[0].descriptor == descriptors[arch].Key()
    && HasProvenance(replay.value)
  }

  ghost predicate AllUsed(blobs: map<Digest, Bytes>, first: Option<Walked>, second: Option<Walked>) {
    first.Some? && second.Some? && Restored(blobs).Keys <= first.value.metadataNames + second.value.metadataNames
  }

  ghost predicate VerifyPair(c: Codec, pair: Pair, version: string, revision: string) {
    var s := pair.sidecar;
    && DecodeFits(s)
    && (forall d :: d in s.blobs ==> c.sha(s.blobs[d]) == d)
    && s.originals[0].arch == Amd64 && s.originals[1].arch == Arm64
    && RuntimeAccepted(c, pair.runtime, version, revision)
    && var descriptors := RuntimeDescriptors(c, pair.runtime, version, revision);
    && s.binding == Binding(c.tar(pair.runtime), InnerDescriptor(c, descriptors).digest)
    && ReplayAccepted(descriptors, Amd64, Replay(c, pair, 0, version, revision))
    && ReplayAccepted(descriptors, Arm64, Replay(c, pair, 1, version, revision))
    && AllUsed(s.blobs, Replay(c, pair, 0, version, revision), Replay(c, pair, 1, version, revision))
  }
}
