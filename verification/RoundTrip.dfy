// detach followed by verify_pair: whatever detach builds from accepted inputs is
// accepted, and each replay rebuilds exactly the original walk.
module RoundTrip {
  import opened Wrappers
  import opened OciGraph
  import opened OciFootprint
  import opened OciAccepted
  import opened Provenance

  ghost predicate AcceptedInput(c: Codec, arch: Arch, n: Native, version: string, revision: string) {
    && arch in {Amd64, Arm64}
    && Inventory(c, n.members)
    && Open(c, n.members, NativeKind(arch, version, revision)) == Some(n.walked)
    && HasProvenance(n.walked)
  }

  ghost predicate AcceptedInputs(c: Codec, inputs: map<Arch, Native>, version: string, revision: string) {
    && inputs.Keys == {Amd64, Arm64}
    && AcceptedInput(c, Amd64, inputs[Amd64], version, revision)
    && AcceptedInput(c, Arm64, inputs[Arm64], version, revision)
  }

  // What collecting, assembling and replaying need to know about an accepted
  // input whose one runnable manifest is described by d.
  ghost predicate Prepared(c: Codec, n: Native, d: Descriptor) {
    && Inventory(c, n.members) && HasProvenance(n.walked)
    && |n.walked.images| == 1 && n.walked.images[0].descriptor == d.Key()
    && FirstLeaf(n.walked.leaves, d.digest) == Some(d)
    && HasParts(c, n.members, d)
    && (forall name :: name in RunnableNames(c, n.members, d) ==> name.BlobFile? && name in n.members)
    && {LayoutFile, IndexFile, d.File()} <= n.walked.metadataNames <= n.members.Keys
    && (forall name :: name in n.walked.metadataNames ==> (name.BlobFile? || name in {LayoutFile, IndexFile}) && RawReadable(n, name))
    && n.walked.contentNames <= RunnableNames(c, n.members, d)
    && 0 < |n.members[d.File()]| <= MAX_JSON
  }

  lemma {:induction false} FirstLeafFound(leaves: seq<Descriptor>, d: Descriptor)
    requires d in leaves
    requires forall i, j :: 0 <= i < j < |leaves| ==> leaves[i].digest != leaves[j].digest
    ensures FirstLeaf(leaves, d.digest) == Some(d)
  {
    if leaves[0] != d {
      var k :| 0 <= k < |leaves| && leaves[k] == d;
      assert leaves[0].digest != leaves[k].digest;
      FirstLeafFound(leaves[1..], d);
    }
  }

  lemma RunnablePresent(c: Codec, m: Members, arch: Arch, version: string, revision: string, d: Descriptor)
    requires AcceptedImage(c, m, arch, version, revision, d)
    ensures HasParts(c, m, d)
    ensures forall name :: name in RunnableNames(c, m, d) ==> name.BlobFile? && name in m
  {
    var layers := LayersOf(c, m, d);
    var details := DocAt(c, m, ConfigOf(c, m, d)).value;
    forall name | name in Files(layers) ensures name in m {
      var i :| 0 <= i < |layers| && layers[i].File() == name;
      assert LayerFits(c, m, layers[i], details.diffIds.value[i]);
    }
  }

  // Content used without being metadata is a layer of the one image, or its manifest.
  lemma ContentIsRunnable(c: Codec, m: Members, kind: Kind, w: Walked, d: Descriptor, name: Name)
    requires kind.NativeKind? && CompleteGraph(kind, w) && HasParts(c, m, d)
    requires w.images[0].descriptor == d.Key() && ContentExplained(c, m, w, name)
    ensures name in RunnableNames(c, m, d)
  {
    if a :| a in w.attestations && name == BlobFile(a.subject.digest) {
      assert a.subject == d.Key();
    } else {
      var e :| e in w.leaves && DocAt(c, m, e).Some? && DocAt(c, m, e).value.layers.Some?
               && (exists i :: 0 <= i < |w.images| && w.images[i].descriptor == e.Key())
               && name in Files(LayersOf(c, m, e));
      assert e.File() == d.File();
    }
  }

  // The walk reads no extension file.
  lemma OnlyKnownFiles(c: Codec, m: Members, kind: Kind)
    requires Open(c, m, kind).Some?
    ensures forall name :: name in Open(c, m, kind).value.metadataNames ==> name.BlobFile? || name in {LayoutFile, IndexFile}
  {
    var layout := ReadJson(c, m, LayoutFile, MAX_JSON, START).value;
    var index := ReadJson(c, m, IndexFile, MAX_JSON, layout.1).value;
    WalkAllReadsBlobs(c, m, kind, index.0.manifests.value, 0, index.1);
  }

  ghost predicate OnlyBlobsAdded(w: Walked, w': Walked) {
    forall name :: name in w'.metadataNames ==> name in w.metadataNames || name.BlobFile?
  }

  lemma {:induction false} StatementsReadBlobs(c: Codec, m: Members, subject: Digest, layers: seq<Descriptor>, w: Walked)
    requires Statements(c, m, subject, layers, w).Some?
    ensures OnlyBlobsAdded(w, Statements(c, m, subject, layers, w).value.1)
  {
    if layers != [] {
      StatementsReadBlobs(c, m, subject, layers[..|layers| - 1], w);
    }
  }

  lemma {:induction false} WalkReadsBlobs(c: Codec, m: Members, kind: Kind, d: Descriptor, depth: nat, w: Walked)
    requires depth <= MAX_DEPTH + 1 && Walk(c, m, kind, d, depth, w).Some?
    ensures OnlyBlobsAdded(w, Walk(c, m, kind, d, depth, w).value)
    decreases MAX_DEPTH + 1 - depth, 0, 0
  {
    var read := ReadBlob(c, m, d, {IndexMedia, ManifestMedia}, w.(visited := w.visited + 1)).value;
    if d.media == IndexMedia {
      WalkAllReadsBlobs(c, m, kind, read.0.manifests.value, depth + 1, read.1);
    } else if IsAttestation(d, read.0) {
      var subject := SubjectStep(c, m, kind.arch, d, read.0, read.1).value;
      StatementsReadBlobs(c, m, subject.0.digest, read.0.layers.value, subject.1);
    }
  }

  lemma {:induction false} WalkAllReadsBlobs(c: Codec, m: Members, kind: Kind, ds: seq<Descriptor>, depth: nat, w: Walked)
    requires depth <= MAX_DEPTH + 1 && WalkAll(c, m, kind, ds, depth, w).Some?
    ensures OnlyBlobsAdded(w, WalkAll(c, m, kind, ds, depth, w).value)
    decreases MAX_DEPTH + 1 - depth, 1, |ds|
  {
    if ds != [] {
      WalkAllReadsBlobs(c, m, kind, ds[..|ds| - 1], depth, w);
      WalkReadsBlobs(c, m, kind, ds[|ds| - 1], depth, WalkAll(c, m, kind, ds[..|ds| - 1], depth, w).value);
    }
  }

  // An accepted input has exactly one runnable manifest, whose checks all passed.
  lemma Prepare(c: Codec, arch: Arch, n: Native, version: string, revision: string) returns (d: Descriptor)
    requires AcceptedInput(c, arch, n, version, revision)
    ensures Prepared(c, n, d) && AcceptedImage(c, n.members, arch, version, revision, d)
  {
    var kind := NativeKind(arch, version, revision);
    OpenIsGood(c, n.members, kind);
    OnlyKnownFiles(c, n.members, kind);
    assert HasLeaf(c, n.members, kind, n.walked, n.walked.images[0]);
    d :| ImageHeld(c, n.members, kind, n.walked, n.walked.images[0], d);
    FirstLeafFound(n.walked.leaves, d);
    RunnablePresent(c, n.members, arch, version, revision, d);
    PreparedFrom(c, n, kind, d);
  }

  lemma PreparedFrom(c: Codec, n: Native, kind: Kind, d: Descriptor)
    requires kind.NativeKind? && Good(c, n.members, kind, n.walked) && CompleteGraph(kind, n.walked)
    requires Inventory(c, n.members) && HasProvenance(n.walked)
    requires n.walked.images[0].descriptor == d.Key() && d.File() in n.walked.metadataNames
    requires FirstLeaf(n.walked.leaves, d.digest) == Some(d) && HasParts(c, n.members, d)
    requires d.File() in n.members && 0 < |n.members[d.File()]| <= MAX_JSON
    requires forall name :: name in RunnableNames(c, n.members, d) ==> name.BlobFile? && name in n.members
    requires {LayoutFile, IndexFile} <= n.walked.metadataNames
    requires forall name :: name in n.walked.metadataNames ==> name.BlobFile? || name in {LayoutFile, IndexFile}
    ensures Prepared(c, n, d)
  {
    forall name | name in n.walked.contentNames ensures name in RunnableNames(c, n.members, d) {
      ContentIsRunnable(c, n.members, kind, n.walked, d, name);
    }
  }

  // ---- collection ----

  function Runnable(c: Codec, m: Members, d: Descriptor): Members {
    Part(m, RunnableNames(c, m, d))
  }

  function BytesAt(m: Members, name: Name): Bytes {
    if name in m then m[name] else ""
  }

  function OriginalOf(arch: Arch, n: Native): Original {
    Original(arch, BytesAt(n.members, IndexFile), BytesAt(n.members, LayoutFile))
  }

  // Reading the manifest a second time while collecting counts again.
  predicate CollectFits(n: Native, d: Descriptor) {
    d.File() in n.members && n.walked.metadataBytes + |n.members[d.File()]| <= MAX_JSON_TOTAL
  }

  lemma CollectStepSucceeds(c: Codec, arch: Arch, n: Native, d: Descriptor, so: Collected)
    requires Lawful(c) && Prepared(c, n, d) && CollectFits(n, d) && Inventory(c, so.metadata)
    ensures CollectStep(c, arch, n, so) ==
            Some(Collected(so.descriptors[arch := d], so.runtime + Runnable(c, n.members, d),
                           so.metadata + EvidencePart(n), so.originals + [OriginalOf(arch, n)]))
    ensures Inventory(c, so.metadata + EvidencePart(n))
  {
    forall name | name in n.walked.metadataNames && name.BlobFile? && name in so.metadata
      ensures so.metadata[name] == n.members[name]
    {
      assert c.sha(so.metadata[name]) == c.sha(n.members[name]);
    }
    assert ReadJson(c, n.members, d.File(), MAX_JSON, n.walked).Some?;
  }

  lemma CollectStepNeeds(c: Codec, arch: Arch, n: Native, d: Descriptor, so: Collected)
    requires Prepared(c, n, d) && !CollectFits(n, d)
    ensures CollectStep(c, arch, n, so).None?
  {
    assert FirstLeaf(n.walked.leaves, n.walked.images[0].descriptor.digest) == Some(d);
    assert d.File() in n.members;
    assert ReadJson(c, n.members, d.File(), MAX_JSON, n.walked).None?;
  }

  // ---- the runnable archive ----

  // The size budgets of the new archive, in terms of the inputs.
  predicate RuntimeFits(c: Codec, a: Members, b: Members, da: Descriptor, db: Descriptor) {
    var ds := map[Amd64 := da, Arm64 := db];
    && HasParts(c, a, da) && HasParts(c, b, db)
    && |c.encode(LAYOUT_DOC)| <= MAX_JSON && |RootIndex(c, ds)| <= MAX_JSON && |InnerIndex(c, ds)| <= MAX_JSON
    && |c.encode(LAYOUT_DOC)| + |RootIndex(c, ds)| + |InnerIndex(c, ds)|
       + da.size + ConfigOf(c, a, da).size + db.size + ConfigOf(c, b, db).size <= MAX_JSON_TOTAL
    && LayersSize(c, a, LayersOf(c, a, da)) + LayersSize(c, b, LayersOf(c, b, db)) <= MAX_ROOTFS_BYTES
  }

  // Copying the runnable names is enough to keep an image acceptable.
  lemma AcceptedTransfers(c: Codec, m: Members, n: Members, arch: Arch, version: string, revision: string, d: Descriptor)
    requires AcceptedImage(c, m, arch, version, revision, d) && Agree(m, n, RunnableNames(c, m, d))
    ensures AcceptedImage(c, n, arch, version, revision, d)
    ensures DocAt(c, n, d) == DocAt(c, m, d)
    ensures LayersSize(c, n, LayersOf(c, m, d)) == LayersSize(c, m, LayersOf(c, m, d))
  {
    var layers := LayersOf(c, m, d);
    var details := DocAt(c, m, ConfigOf(c, m, d)).value;
    assert d.File() in RunnableNames(c, m, d) && ConfigOf(c, m, d).File() in RunnableNames(c, m, d);
    forall i | 0 <= i < |layers| ensures LayerFits(c, n, layers[i], details.diffIds.value[i]) {
      assert LayerFits(c, m, layers[i], details.diffIds.value[i]);
      assert layers[i].File() in RunnableNames(c, m, d);
    }
    LayersSizeAgree(c, m, n, layers);
  }

  function RuntimeLeaf(c: Codec, m: Members, arch: Arch, d: Descriptor, w: Walked): Walked
    requires DocAt(c, m, d).Some? && DocAt(c, m, d).value.config.Some? && DocAt(c, m, d).value.layers.Some?
  {
    w.(leaves := w.leaves + [d], images := w.images + [Image(d.Key(), ConfigOf(c, m, d).digest)],
       visited := w.visited + 1, metadataBytes := w.metadataBytes + d.size + ConfigOf(c, m, d).size,
       metadataNames := w.metadataNames + {d.File()} + {ConfigOf(c, m, d).File()},
       rootfsBytes := w.rootfsBytes + LayersSize(c, m, LayersOf(c, m, d)),
       contentNames := w.contentNames + Files(LayersOf(c, m, d)),
       descriptors := w.descriptors[arch := d])
  }

  lemma RuntimeLeafWalk(c: Codec, m: Members, arch: Arch, version: string, revision: string, d: Descriptor, w: Walked)
    requires arch in PLATFORMS && AcceptedImage(c, m, arch, version, revision, d)
    requires arch !in w.descriptors && !Listed(w.leaves, d.digest) && w.visited + 1 <= MAX_VISITED
    requires w.metadataBytes + d.size + ConfigOf(c, m, d).size <= MAX_JSON_TOTAL
    requires w.rootfsBytes + LayersSize(c, m, LayersOf(c, m, d)) <= MAX_ROOTFS_BYTES
    ensures Walk(c, m, RuntimeKind(version, revision), d, 1, w) == Some(RuntimeLeaf(c, m, arch, d, w))
  {
    var w2 := AfterManifest(d, w);
    LeafReads(c, m, arch, version, revision, d, w);
    LeafImage(c, m, arch, version, revision, d, w);
    hide ImageStep, AcceptedImage, LayersSize, ReadBlob;
    assert RuntimeImageStep(c, m, version, revision, d, DocAt(c, m, d).value, w2)
        == Some(RuntimeLeaf(c, m, arch, d, w).(leaves := w.leaves));
  }

  // The accumulator after reading a leaf's manifest.
  function AfterManifest(d: Descriptor, w: Walked): Walked {
    w.(visited := w.visited + 1, metadataNames := w.metadataNames + {d.File()}, metadataBytes := w.metadataBytes + d.size)
  }

  lemma LeafReads(c: Codec, m: Members, arch: Arch, version: string, revision: string, d: Descriptor, w: Walked)
    requires AcceptedImage(c, m, arch, version, revision, d)
    ensures ReadBlob(c, m, d, {IndexMedia, ManifestMedia}, w.(visited := w.visited + 1))
      == if w.metadataBytes + d.size <= MAX_JSON_TOTAL then Some((DocAt(c, m, d).value, AfterManifest(d, w))) else None
    ensures d.media == ManifestMedia && SchemaFits(DocAt(c, m, d).value, d.media) && PlainImage(d, DocAt(c, m, d).value)
    ensures !IsAttestation(d, DocAt(c, m, d).value)
    ensures d.platform.Some? && d.platform.value.os == Linux && d.platform.value.arch == arch
  {
    hide LayersFit, LayersSize;
  }

  lemma LeafImage(c: Codec, m: Members, arch: Arch, version: string, revision: string, d: Descriptor, w: Walked)
    requires AcceptedImage(c, m, arch, version, revision, d)
    ensures ImageStep(c, m, arch, version, revision, d, DocAt(c, m, d).value, AfterManifest(d, w))
      == if w.metadataBytes + d.size + ConfigOf(c, m, d).size <= MAX_JSON_TOTAL
            && w.rootfsBytes + LayersSize(c, m, LayersOf(c, m, d)) <= MAX_ROOTFS_BYTES
         then Some(RuntimeLeaf(c, m, arch, d, w).(leaves := w.leaves, descriptors := w.descriptors)) else None
  {
    hide LayersFit, LayersSize, ImageFits, HasBlob;
    var manifest := DocAt(c, m, d).value;
    var w2 := AfterManifest(d, w);
    var w3 := w2.(metadataNames := w2.metadataNames + {manifest.config.value.File()},
                  metadataBytes := w2.metadataBytes + manifest.config.value.size);
    ConfigRead(c, m, arch, version, revision, d, w2);
    hide ReadBlob, Readable;
    if w2.metadataBytes + manifest.config.value.size <= MAX_JSON_TOTAL {
      assert ReadBlob(c, m, manifest.config.value, {ConfigMedia}, w2) == Some((DocAt(c, m, manifest.config.value).value, w3));
    }
  }

  lemma ConfigRead(c: Codec, m: Members, arch: Arch, version: string, revision: string, d: Descriptor, w: Walked)
    requires AcceptedImage(c, m, arch, version, revision, d)
    ensures var config := ConfigOf(c, m, d);
      ReadBlob(c, m, config, {ConfigMedia}, w)
      == if w.metadataBytes + config.size <= MAX_JSON_TOTAL then
           Some((DocAt(c, m, config).value,
                 w.(metadataNames := w.metadataNames + {config.File()}, metadataBytes := w.metadataBytes + config.size)))
         else None
  {
    hide LayersFit, LayersSize, ImageFits;
  }

  // A leaf that is accepted was within its budgets.
  lemma RuntimeLeafNeeds(c: Codec, m: Members, arch: Arch, version: string, revision: string, d: Descriptor, w: Walked)
    requires AcceptedImage(c, m, arch, version, revision, d) && Walk(c, m, RuntimeKind(version, revision), d, 1, w).Some?
    ensures w.metadataBytes + d.size + ConfigOf(c, m, d).size <= MAX_JSON_TOTAL
    ensures w.rootfsBytes + LayersSize(c, m, LayersOf(c, m, d)) <= MAX_ROOTFS_BYTES
    ensures w.visited + 1 <= MAX_VISITED && arch !in w.descriptors && !Listed(w.leaves, d.digest)
  {
    LeafReads(c, m, arch, version, revision, d, w);
    LeafImage(c, m, arch, version, revision, d, w);
    hide ImageStep, AcceptedImage, LayersSize, ReadBlob;
    var step := RuntimeImageStep(c, m, version, revision, d, DocAt(c, m, d).value, AfterManifest(d, w));
    assert LeafStep(c, m, RuntimeKind(version, revision), d, DocAt(c, m, d).value, AfterManifest(d, w)).Some?;
    assert step.Some? && step.value.leaves == w.leaves;
  }

  // The two platforms' manifests cannot be the same blob: its one config names
  // one architecture.
  lemma DistinctManifests(c: Codec, m: Members, version: string, revision: string, a: Descriptor, b: Descriptor)
    requires AcceptedImage(c, m, Amd64, version, revision, a) && AcceptedImage(c, m, Arm64, version, revision, b)
    ensures a.digest != b.digest
  {
  }

  ghost predicate RuntimeShaped(c: Codec, m: Members, version: string, revision: string, ds: map<Arch, Descriptor>) {
    && ds.Keys == {Amd64, Arm64}
    && AcceptedImage(c, m, Amd64, version, revision, ds[Amd64]) && AcceptedImage(c, m, Arm64, version, revision, ds[Arm64])
    && (forall name :: name in Generated(c, ds) ==> name in m && m[name] == Generated(c, ds)[name])
  }

  predicate RuntimeBudget(c: Codec, m: Members, ds: map<Arch, Descriptor>) {
    && ds.Keys == {Amd64, Arm64} && HasParts(c, m, ds[Amd64]) && HasParts(c, m, ds[Arm64])
    && |c.encode(LAYOUT_DOC)| <= MAX_JSON && |RootIndex(c, ds)| <= MAX_JSON && |InnerIndex(c, ds)| <= MAX_JSON
    && |c.encode(LAYOUT_DOC)| + |RootIndex(c, ds)| + |InnerIndex(c, ds)|
       + ds[Amd64].size + ConfigOf(c, m, ds[Amd64]).size + ds[Arm64].size + ConfigOf(c, m, ds[Arm64]).size <= MAX_JSON_TOTAL
    && LayersSize(c, m, LayersOf(c, m, ds[Amd64])) + LayersSize(c, m, LayersOf(c, m, ds[Arm64])) <= MAX_ROOTFS_BYTES
  }

  ghost predicate RuntimeReady(c: Codec, m: Members, version: string, revision: string, ds: map<Arch, Descriptor>) {
    RuntimeShaped(c, m, version, revision, ds) && RuntimeBudget(c, m, ds)
  }

  // The accumulator after the layout, the root index and the inner index.
  function AfterLayout(c: Codec): Walked {
    START.(metadataNames := {LayoutFile}, metadataBytes := |c.encode(LAYOUT_DOC)|)
  }

  function AfterRoot(c: Codec, ds: map<Arch, Descriptor>): Walked
    requires Amd64 in ds && Arm64 in ds
  {
    var w := AfterLayout(c);
    w.(metadataNames := w.metadataNames + {IndexFile}, metadataBytes := w.metadataBytes + |RootIndex(c, ds)|)
  }

  function AfterInner(c: Codec, ds: map<Arch, Descriptor>): Walked
    requires Amd64 in ds && Arm64 in ds
  {
    var w := AfterRoot(c, ds);
    w.(visited := 1, metadataNames := w.metadataNames + {InnerDescriptor(c, ds).File()},
       metadataBytes := w.metadataBytes + |InnerIndex(c, ds)|)
  }

  lemma RuntimeReads(c: Codec, m: Members, version: string, revision: string, ds: map<Arch, Descriptor>)
    requires Lawful(c) && RuntimeReady(c, m, version, revision, ds)
    ensures ReadJson(c, m, LayoutFile, MAX_JSON, START) == Some((LAYOUT_DOC, AfterLayout(c)))
    ensures ReadJson(c, m, IndexFile, MAX_JSON, AfterLayout(c)) == Some((IndexDoc([InnerDescriptor(c, ds)]), AfterRoot(c, ds)))
    ensures ReadBlob(c, m, InnerDescriptor(c, ds), {IndexMedia, ManifestMedia}, AfterRoot(c, ds).(visited := 1))
         == Some((IndexDoc([ds[Amd64], ds[Arm64]]), AfterInner(c, ds)))
  {
    GeneratedRead(c, m, version, revision, ds);
    hide ReadBlob, ReadJson, RuntimeShaped, InnerIndex, RootIndex;
  }

  function RuntimeResult(c: Codec, m: Members, ds: map<Arch, Descriptor>): Walked
    requires Amd64 in ds && DocAt(c, m, ds[Amd64]).Some?
    requires DocAt(c, m, ds[Amd64]).value.config.Some? && DocAt(c, m, ds[Amd64]).value.layers.Some?
    requires Arm64 in ds && DocAt(c, m, ds[Arm64]).Some?
    requires DocAt(c, m, ds[Arm64]).value.config.Some? && DocAt(c, m, ds[Arm64]).value.layers.Some?
  {
    RuntimeLeaf(c, m, Arm64, ds[Arm64], RuntimeLeaf(c, m, Amd64, ds[Amd64], AfterInner(c, ds)))
  }

  lemma RuntimeLeaves(c: Codec, m: Members, version: string, revision: string, ds: map<Arch, Descriptor>)
    requires Lawful(c) && RuntimeReady(c, m, version, revision, ds)
    ensures WalkAll(c, m, RuntimeKind(version, revision), [ds[Amd64], ds[Arm64]], 1, AfterInner(c, ds)) == Some(RuntimeResult(c, m, ds))
  {
    var w := AfterInner(c, ds);
    RuntimeLeafWalk(c, m, Amd64, version, revision, ds[Amd64], w);
    DistinctManifests(c, m, version, revision, ds[Amd64], ds[Arm64]);
    RuntimeLeafWalk(c, m, Arm64, version, revision, ds[Arm64], RuntimeLeaf(c, m, Amd64, ds[Amd64], w));
    PairWalk(c, m, RuntimeKind(version, revision), ds[Amd64], ds[Arm64], 1, w);
  }

  lemma RuntimeInner(c: Codec, m: Members, version: string, revision: string, ds: map<Arch, Descriptor>)
    requires Lawful(c) && RuntimeReady(c, m, version, revision, ds)
    ensures WalkIndex(c, m, RuntimeKind(version, revision), IndexDoc([InnerDescriptor(c, ds)]), 0, AfterRoot(c, ds))
         == Some(RuntimeResult(c, m, ds))
  {
    var kind := RuntimeKind(version, revision);
    RuntimeReads(c, m, version, revision, ds);
    RuntimeLeaves(c, m, version, revision, ds);
    SingleWalk(c, m, kind, InnerDescriptor(c, ds), 0, AfterRoot(c, ds));
    assert Walk(c, m, kind, InnerDescriptor(c, ds), 0, AfterRoot(c, ds))
        == WalkIndex(c, m, kind, IndexDoc([ds[Amd64], ds[Arm64]]), 1, AfterInner(c, ds));
  }

  lemma LeafTouches(c: Codec, m: Members, arch: Arch, d: Descriptor, w: Walked)
    requires HasParts(c, m, d)
    ensures RuntimeLeaf(c, m, arch, d, w).Touched() == w.Touched() + RunnableNames(c, m, d)
  {
  }

  lemma RuntimeTouches(c: Codec, m: Members, version: string, revision: string, ds: map<Arch, Descriptor>)
    requires Lawful(c) && RuntimeReady(c, m, version, revision, ds)
    ensures RuntimeResult(c, m, ds).descriptors == ds && |RuntimeResult(c, m, ds).images| == 2
    ensures RuntimeResult(c, m, ds).Touched() ==
            Generated(c, ds).Keys + RunnableNames(c, m, ds[Amd64]) + RunnableNames(c, m, ds[Arm64])
  {
    assert HasParts(c, m, ds[Amd64]) && HasParts(c, m, ds[Arm64]);
    var w := AfterInner(c, ds);
    hide AcceptedImage, RuntimeBudget, RuntimeShaped;
    LeafTouches(c, m, Amd64, ds[Amd64], w);
    LeafTouches(c, m, Arm64, ds[Arm64], RuntimeLeaf(c, m, Amd64, ds[Amd64], w));
    hide RunnableNames, RootIndex, InnerIndex;
    assert w.Touched() == Generated(c, ds).Keys;
  }

  // The runnable archive's own validator succeeds and touches exactly the
  // generated metadata and the two images.
  lemma RuntimeOpens(c: Codec, m: Members, version: string, revision: string, ds: map<Arch, Descriptor>)
    requires Lawful(c) && RuntimeReady(c, m, version, revision, ds)
    ensures Open(c, m, RuntimeKind(version, revision)) == Some(RuntimeResult(c, m, ds))
  {
    RuntimeReads(c, m, version, revision, ds);
    RuntimeInner(c, m, version, revision, ds);
    RuntimeTouches(c, m, version, revision, ds);
  }

  // The validator succeeds only within the budgets.
  lemma RuntimeOpenNeeds(c: Codec, m: Members, version: string, revision: string, ds: map<Arch, Descriptor>)
    requires Lawful(c) && RuntimeShaped(c, m, version, revision, ds) && Open(c, m, RuntimeKind(version, revision)).Some?
    ensures RuntimeBudget(c, m, ds)
  {
    var kind := RuntimeKind(version, revision);
    GeneratedRead(c, m, version, revision, ds);
    assert ReadJson(c, m, LayoutFile, MAX_JSON, START).Some?;
    assert ReadJson(c, m, IndexFile, MAX_JSON, AfterLayout(c)).Some?;
    assert WalkIndex(c, m, kind, IndexDoc([InnerDescriptor(c, ds)]), 0, AfterRoot(c, ds)).Some?;
    SingleWalk(c, m, kind, InnerDescriptor(c, ds), 0, AfterRoot(c, ds));
    hide Open, Generated, AcceptedImage;
    InnerNeeds(c, m, version, revision, ds);
    LeavesNeed(c, m, version, revision, ds);
  }

  // What reading the generated members comes to.
  lemma GeneratedRead(c: Codec, m: Members, version: string, revision: string, ds: map<Arch, Descriptor>)
    requires Lawful(c) && RuntimeShaped(c, m, version, revision, ds)
    ensures ReadJson(c, m, LayoutFile, MAX_JSON, START)
         == if |c.encode(LAYOUT_DOC)| <= MAX_JSON then Some((LAYOUT_DOC, AfterLayout(c))) else None
    ensures ReadJson(c, m, IndexFile, MAX_JSON, AfterLayout(c))
         == if |RootIndex(c, ds)| <= MAX_JSON && AfterRoot(c, ds).metadataBytes <= MAX_JSON_TOTAL
            then Some((IndexDoc([InnerDescriptor(c, ds)]), AfterRoot(c, ds))) else None
    ensures ReadBlob(c, m, InnerDescriptor(c, ds), {IndexMedia, ManifestMedia}, AfterRoot(c, ds).(visited := 1))
         == if |InnerIndex(c, ds)| <= MAX_JSON && AfterInner(c, ds).metadataBytes <= MAX_JSON_TOTAL
            then Some((IndexDoc([ds[Amd64], ds[Arm64]]), AfterInner(c, ds))) else None
  {
    hide AcceptedImage;
    assert LayoutFile in Generated(c, ds) && IndexFile in Generated(c, ds) && InnerDescriptor(c, ds).File() in Generated(c, ds);
    assert c.parse(c.encode(LAYOUT_DOC)) == Some(LAYOUT_DOC);
    assert c.parse(RootIndex(c, ds)) == Some(IndexDoc([InnerDescriptor(c, ds)]));
    assert c.parse(InnerIndex(c, ds)) == Some(IndexDoc([ds[Amd64], ds[Arm64]]));
    assert START.metadataNames + {LayoutFile} == {LayoutFile};
  }

  lemma InnerNeeds(c: Codec, m: Members, version: string, revision: string, ds: map<Arch, Descriptor>)
    requires Lawful(c) && RuntimeShaped(c, m, version, revision, ds)
    requires Walk(c, m, RuntimeKind(version, revision), InnerDescriptor(c, ds), 0, AfterRoot(c, ds)).Some?
    ensures |InnerIndex(c, ds)| <= MAX_JSON
    ensures WalkAll(c, m, RuntimeKind(version, revision), [ds[Amd64], ds[Arm64]], 1, AfterInner(c, ds)).Some?
  {
    GeneratedRead(c, m, version, revision, ds);
    hide ReadBlob, Generated, AcceptedImage, InnerIndex, RootIndex;
  }

  lemma LeavesNeed(c: Codec, m: Members, version: string, revision: string, ds: map<Arch, Descriptor>)
    requires Lawful(c) && RuntimeShaped(c, m, version, revision, ds)
    requires WalkAll(c, m, RuntimeKind(version, revision), [ds[Amd64], ds[Arm64]], 1, AfterInner(c, ds)).Some?
    ensures HasParts(c, m, ds[Amd64]) && HasParts(c, m, ds[Arm64])
    ensures |c.encode(LAYOUT_DOC)| + |RootIndex(c, ds)| + |InnerIndex(c, ds)|
       + ds[Amd64].size + ConfigOf(c, m, ds[Amd64]).size + ds[Arm64].size + ConfigOf(c, m, ds[Arm64]).size <= MAX_JSON_TOTAL
    ensures LayersSize(c, m, LayersOf(c, m, ds[Amd64])) + LayersSize(c, m, LayersOf(c, m, ds[Arm64])) <= MAX_ROOTFS_BYTES
  {
    var kind, w := RuntimeKind(version, revision), AfterInner(c, ds);
    hide Generated, InnerIndex, RootIndex, Walk;
    assert [ds[Amd64], ds[Arm64]][..1] == [ds[Amd64]];
    SingleWalk(c, m, kind, ds[Amd64], 1, w);
    RuntimeLeafNeeds(c, m, Amd64, version, revision, ds[Amd64], w);
    RuntimeLeafWalk(c, m, Amd64, version, revision, ds[Amd64], w);
    PairWalk(c, m, kind, ds[Amd64], ds[Arm64], 1, w);
    RuntimeLeafNeeds(c, m, Arm64, version, revision, ds[Arm64], RuntimeLeaf(c, m, Amd64, ds[Amd64], w));
  }

  lemma SingleWalk(c: Codec, m: Members, kind: Kind, a: Descriptor, depth: nat, w: Walked)
    requires depth <= MAX_DEPTH
    ensures WalkAll(c, m, kind, [a], depth, w) == Walk(c, m, kind, a, depth, w)
  {
    assert [a][..0] == [];
  }

  lemma PairWalk(c: Codec, m: Members, kind: Kind, a: Descriptor, b: Descriptor, depth: nat, w: Walked)
    requires depth <= MAX_DEPTH && Walk(c, m, kind, a, depth, w).Some?
    ensures WalkAll(c, m, kind, [a, b], depth, w) == Walk(c, m, kind, b, depth, Walk(c, m, kind, a, depth, w).value)
  {
    assert [a, b][..1] == [a];
    SingleWalk(c, m, kind, a, depth, w);
  }

  // ---- what detach builds ----

  function RuntimeOf(c: Codec, a: Members, b: Members, da: Descriptor, db: Descriptor): Members {
    Runnable(c, a, da) + Runnable(c, b, db) + Generated(c, map[Amd64 := da, Arm64 := db])
  }

  lemma CollectUnrolls(c: Codec, inputs: map<Arch, Native>)
    requires inputs.Keys == {Amd64, Arm64}
    ensures Collect(c, PLATFORMS, inputs) ==
            var start := Collected(map[], map[], map[], []);
            var first := CollectStep(c, Amd64, inputs[Amd64], start);
            if first.None? then None else CollectStep(c, Arm64, inputs[Arm64], first.value)
  {
    hide CollectStep;
    assert PLATFORMS[..1] == [Amd64] && PLATFORMS[..1][..0] == [];
    assert Collect(c, PLATFORMS[..1], inputs) == CollectStep(c, Amd64, inputs[Amd64], Collected(map[], map[], map[], []));
  }

  lemma CollectPair(c: Codec, inputs: map<Arch, Native>, da: Descriptor, db: Descriptor)
    requires Lawful(c) && inputs.Keys == {Amd64, Arm64}
    requires Prepared(c, inputs[Amd64], da) && Prepared(c, inputs[Arm64], db)
    requires CollectFits(inputs[Amd64], da) && CollectFits(inputs[Arm64], db)
    ensures Collect(c, PLATFORMS, inputs) ==
            Some(Collected(map[Amd64 := da, Arm64 := db],
                           Runnable(c, inputs[Amd64].members, da) + Runnable(c, inputs[Arm64].members, db),
                           EvidencePart(inputs[Amd64]) + EvidencePart(inputs[Arm64]),
                           [OriginalOf(Amd64, inputs[Amd64]), OriginalOf(Arm64, inputs[Arm64])]))
  {
    hide Prepared, CollectStep, Collect, Runnable, EvidencePart;
    CollectUnrolls(c, inputs);
    var start := Collected(map[], map[], map[], []);
    CollectStepSucceeds(c, Amd64, inputs[Amd64], da, start);
    var first := CollectStep(c, Amd64, inputs[Amd64], start).value;
    CollectStepSucceeds(c, Arm64, inputs[Arm64], db, first);
    var so := CollectStep(c, Arm64, inputs[Arm64], first).value;
    assert so.descriptors == map[Amd64 := da, Arm64 := db];
    assert so.originals == [OriginalOf(Amd64, inputs[Amd64]), OriginalOf(Arm64, inputs[Arm64])];
    assert start.runtime + Runnable(c, inputs[Amd64].members, da) == Runnable(c, inputs[Amd64].members, da);
    assert start.runtime + EvidencePart(inputs[Amd64]) == EvidencePart(inputs[Amd64]);
  }

  lemma DetachBuilds(c: Codec, inputs: map<Arch, Native>, da: Descriptor, db: Descriptor)
    requires Lawful(c) && inputs.Keys == {Amd64, Arm64}
    requires Prepared(c, inputs[Amd64], da) && Prepared(c, inputs[Arm64], db)
    requires CollectFits(inputs[Amd64], da) && CollectFits(inputs[Arm64], db)
    ensures var a, b := inputs[Amd64], inputs[Arm64];
            var runtime := RuntimeOf(c, a.members, b.members, da, db);
            Detach(c, inputs) ==
            Some(Pair(runtime, Sidecar(Binding(c.tar(runtime), InnerDescriptor(c, map[Amd64 := da, Arm64 := db]).digest),
                                       [OriginalOf(Amd64, a), OriginalOf(Arm64, b)],
                                       BlobMap(EvidencePart(a) + EvidencePart(b)))))
  {
    hide Prepared, CollectStep, Collect;
    CollectPair(c, inputs, da, db);
  }

  lemma DetachNeeds(c: Codec, inputs: map<Arch, Native>, da: Descriptor, db: Descriptor)
    requires Lawful(c) && inputs.Keys == {Amd64, Arm64}
    requires Prepared(c, inputs[Amd64], da) && Prepared(c, inputs[Arm64], db)
    requires !CollectFits(inputs[Amd64], da) || !CollectFits(inputs[Arm64], db)
    ensures Detach(c, inputs).None?
  {
    hide Prepared, CollectStep, Collect;
    CollectUnrolls(c, inputs);
    var start := Collected(map[], map[], map[], []);
    if !CollectFits(inputs[Amd64], da) {
      CollectStepNeeds(c, Amd64, inputs[Amd64], da, start);
    } else {
      CollectStepSucceeds(c, Amd64, inputs[Amd64], da, start);
      CollectStepNeeds(c, Arm64, inputs[Arm64], db, CollectStep(c, Amd64, inputs[Amd64], start).value);
    }
  }

  // Runnable blobs keep their bytes in the assembled archive: equal names are
  // equal digests.
  lemma UnionAgrees(c: Codec, m: Members, part: Members, x: Members, y: Members, names: set<Name>)
    requires Lawful(c) && Inventory(c, m) && Inventory(c, x) && Inventory(c, y)
    requires part == Part(m, names)
    requires forall name :: name in names ==> name.BlobFile? && name in m
    ensures Inventory(c, x + part + y) && Inventory(c, part + x + y)
    ensures Agree(m, x + part + y, names) && Agree(m, part + x + y, names)
  {
    assert Inventory(c, part) && part.Keys == names;
    assert Inventory(c, x + part + y) && Inventory(c, part + x + y);
    forall name | name in names ensures (x + part + y)[name] == m[name] && (part + x + y)[name] == m[name] {
      assert c.sha((x + part + y)[name]) == c.sha(m[name]) == c.sha((part + x + y)[name]);
    }
  }

  lemma RuntimeHolds(c: Codec, a: Native, b: Native, da: Descriptor, db: Descriptor)
    requires Lawful(c) && Prepared(c, a, da) && Prepared(c, b, db)
    ensures Inventory(c, RuntimeOf(c, a.members, b.members, da, db))
    ensures Agree(a.members, RuntimeOf(c, a.members, b.members, da, db), RunnableNames(c, a.members, da))
    ensures Agree(b.members, RuntimeOf(c, a.members, b.members, da, db), RunnableNames(c, b.members, db))
  {
    hide RunnableNames, HasParts, FirstLeaf, RawReadable, HasProvenance, InnerIndex, RootIndex;
    var ra, rb := Runnable(c, a.members, da), Runnable(c, b.members, db);
    var g := Generated(c, map[Amd64 := da, Arm64 := db]);
    assert Inventory(c, ra) && Inventory(c, rb) && Inventory(c, g);
    UnionAgrees(c, a.members, ra, rb, g, RunnableNames(c, a.members, da));
    UnionAgrees(c, b.members, rb, ra, g, RunnableNames(c, b.members, db));
  }

  lemma RuntimeIsShaped(c: Codec, a: Members, b: Members, da: Descriptor, db: Descriptor, version: string, revision: string)
    requires AcceptedImage(c, a, Amd64, version, revision, da) && AcceptedImage(c, b, Arm64, version, revision, db)
    requires Agree(a, RuntimeOf(c, a, b, da, db), RunnableNames(c, a, da))
    requires Agree(b, RuntimeOf(c, a, b, da, db), RunnableNames(c, b, db))
    requires HasParts(c, a, da) && HasParts(c, b, db)
    ensures var runtime, ds := RuntimeOf(c, a, b, da, db), map[Amd64 := da, Arm64 := db];
      && RuntimeShaped(c, runtime, version, revision, ds) && (RuntimeBudget(c, runtime, ds) <==> RuntimeFits(c, a, b, da, db))
      && RunnableNames(c, runtime, da) == RunnableNames(c, a, da) && RunnableNames(c, runtime, db) == RunnableNames(c, b, db)
  {
    hide AcceptedImage, Runnable, InnerIndex, RootIndex;
    var runtime := RuntimeOf(c, a, b, da, db);
    AcceptedTransfers(c, a, runtime, Amd64, version, revision, da);
    AcceptedTransfers(c, b, runtime, Arm64, version, revision, db);
    assert map[Amd64 := da, Arm64 := db].Keys == {Amd64, Arm64};
  }

  // The runnable archive passes its own validator exactly within its size budgets.
  lemma RuntimeAcceptedIff(c: Codec, a: Native, b: Native, da: Descriptor, db: Descriptor, version: string, revision: string)
    requires Lawful(c) && Prepared(c, a, da) && Prepared(c, b, db)
    requires AcceptedImage(c, a.members, Amd64, version, revision, da)
    requires AcceptedImage(c, b.members, Arm64, version, revision, db)
    ensures var runtime := RuntimeOf(c, a.members, b.members, da, db);
      && (RuntimeAccepted(c, runtime, version, revision) <==> RuntimeFits(c, a.members, b.members, da, db))
      && (RuntimeAccepted(c, runtime, version, revision) ==>
            RuntimeDescriptors(c, runtime, version, revision) == map[Amd64 := da, Arm64 := db])
  {
    hide AcceptedImage, Open, RuntimeShaped, RuntimeBudget, RuntimeFits, RuntimeOf, RunnableNames;
    var runtime, ds := RuntimeOf(c, a.members, b.members, da, db), map[Amd64 := da, Arm64 := db];
    RuntimeHolds(c, a, b, da, db);
    RuntimeIsShaped(c, a.members, b.members, da, db, version, revision);
    if RuntimeFits(c, a.members, b.members, da, db) {
      RuntimeIsAccepted(c, a, b, da, db, version, revision);
    } else if Open(c, runtime, RuntimeKind(version, revision)).Some? {
      RuntimeOpenNeeds(c, runtime, version, revision, ds);
    }
  }

  lemma RuntimeIsAccepted(c: Codec, a: Native, b: Native, da: Descriptor, db: Descriptor, version: string, revision: string)
    requires Lawful(c) && Prepared(c, a, da) && Prepared(c, b, db)
    requires AcceptedImage(c, a.members, Amd64, version, revision, da)
    requires AcceptedImage(c, b.members, Arm64, version, revision, db)
    requires RuntimeFits(c, a.members, b.members, da, db)
    ensures RuntimeAccepted(c, RuntimeOf(c, a.members, b.members, da, db), version, revision)
    ensures RuntimeDescriptors(c, RuntimeOf(c, a.members, b.members, da, db), version, revision) == map[Amd64 := da, Arm64 := db]
  {
    var runtime, ds := RuntimeOf(c, a.members, b.members, da, db), map[Amd64 := da, Arm64 := db];
    RuntimeKeys(c, a.members, b.members, da, db);
    hide AcceptedImage, Open, RuntimeResult, RuntimeBudget, RuntimeShaped, RuntimeAccepted, RunnableNames, RuntimeOf, RuntimeFits;
    RuntimeHolds(c, a, b, da, db);
    RuntimeIsShaped(c, a.members, b.members, da, db, version, revision);
    ReadyIsAccepted(c, runtime, version, revision, ds);
  }

  lemma ReadyIsAccepted(c: Codec, m: Members, version: string, revision: string, ds: map<Arch, Descriptor>)
    requires Lawful(c) && Inventory(c, m) && RuntimeReady(c, m, version, revision, ds)
    requires m.Keys == Generated(c, ds).Keys + RunnableNames(c, m, ds[Amd64]) + RunnableNames(c, m, ds[Arm64])
    ensures RuntimeAccepted(c, m, version, revision) && RuntimeDescriptors(c, m, version, revision) == ds
  {
    assert forall name :: name in Generated(c, ds) ==> name in m && m[name] == Generated(c, ds)[name];
    hide AcceptedImage, Open, RuntimeBudget, RuntimeShaped, RunnableNames, Generated, Inventory, Lawful;
    var w := RuntimeFound(c, m, version, revision, ds);
  }

  lemma RuntimeFound(c: Codec, m: Members, version: string, revision: string, ds: map<Arch, Descriptor>) returns (w: Walked)
    requires Lawful(c) && RuntimeReady(c, m, version, revision, ds)
    ensures Open(c, m, RuntimeKind(version, revision)) == Some(w) && w.descriptors == ds
    ensures w.Touched() == Generated(c, ds).Keys + RunnableNames(c, m, ds[Amd64]) + RunnableNames(c, m, ds[Arm64])
  {
    assert HasParts(c, m, ds[Amd64]) && HasParts(c, m, ds[Arm64]);
    hide AcceptedImage, Open, RuntimeBudget, RuntimeShaped, RuntimeResult, RunnableNames, Generated, Lawful;
    RuntimeOpens(c, m, version, revision, ds);
    RuntimeTouches(c, m, version, revision, ds);
    w := RuntimeResult(c, m, ds);
  }

  lemma RuntimeKeys(c: Codec, a: Members, b: Members, da: Descriptor, db: Descriptor)
    requires forall name :: name in RunnableNames(c, a, da) ==> name in a
    requires forall name :: name in RunnableNames(c, b, db) ==> name in b
    ensures RuntimeOf(c, a, b, da, db).Keys
         == Generated(c, map[Amd64 := da, Arm64 := db]).Keys + RunnableNames(c, a, da) + RunnableNames(c, b, db)
  {
    hide RunnableNames, Generated;
    assert Runnable(c, a, da).Keys == RunnableNames(c, a, da);
    assert Runnable(c, b, db).Keys == RunnableNames(c, b, db);
  }

  // ---- replay ----

  // A blob found in the overlay has the bytes its digest names.
  lemma OverlayBlob(c: Codec, runtime: Members, blobs: map<Digest, Bytes>, original: Original, name: Name)
    requires Inventory(c, runtime) && name.BlobFile? && (name in runtime || name.digest in blobs)
    requires forall digest :: digest in blobs ==> c.sha(blobs[digest]) == digest
    ensures var overlay := Overlay(runtime, blobs, original); name in overlay && c.sha(overlay[name]) == name.digest
  {
    assert Inventory(c, Restored(blobs));
  }

  // Everything the original walk touched is present, with the original bytes, in
  // the overlay of stored metadata over runnable layers.
  lemma OverlayAgrees(c: Codec, n: Native, d: Descriptor, runtime: Members, blobs: map<Digest, Bytes>, arch: Arch)
    requires Lawful(c) && Prepared(c, n, d) && Inventory(c, runtime)
    requires Agree(n.members, runtime, RunnableNames(c, n.members, d))
    requires forall digest :: digest in blobs ==> c.sha(blobs[digest]) == digest
    requires forall name :: name in EvidencePart(n) ==> name.digest in blobs
    ensures Agree(n.members, Overlay(runtime, blobs, OriginalOf(arch, n)), n.walked.Touched())
  {
    hide RunnableNames, HasParts, FirstLeaf, RawReadable, HasProvenance;
    var overlay := Overlay(runtime, blobs, OriginalOf(arch, n));
    forall name | name in n.walked.Touched() ensures name in n.members && name in overlay && overlay[name] == n.members[name] {
      if name.BlobFile? {
        assert name in n.members && (name in EvidencePart(n) || name in RunnableNames(c, n.members, d));
        OverlayBlob(c, runtime, blobs, OriginalOf(arch, n), name);
      }
    }
  }

  lemma EvidenceKept(c: Codec, a: Native, b: Native, blobs: map<Digest, Bytes>)
    requires Inventory(c, a.members) && Inventory(c, b.members)
    requires blobs == BlobMap(EvidencePart(a) + EvidencePart(b))
    ensures forall digest :: digest in blobs ==> c.sha(blobs[digest]) == digest
    ensures forall name :: name in EvidencePart(a) || name in EvidencePart(b) ==> name.digest in blobs
    ensures Restored(blobs).Keys <= a.walked.metadataNames + b.walked.metadataNames
  {
    var both := EvidencePart(a) + EvidencePart(b);
    assert Inventory(c, both);
    forall name | name in both ensures name.digest in blobs {
    }
    forall digest | digest in blobs ensures BlobFile(digest) in both {
    }
  }

  lemma ReplayRebuilds(c: Codec, arch: Arch, n: Native, d: Descriptor, runtime: Members, blobs: map<Digest, Bytes>,
                       version: string, revision: string)
    requires Lawful(c) && Prepared(c, n, d) && Inventory(c, runtime)
    requires Open(c, n.members, NativeKind(arch, version, revision)) == Some(n.walked)
    requires Agree(n.members, runtime, RunnableNames(c, n.members, d))
    requires forall digest :: digest in blobs ==> c.sha(blobs[digest]) == digest
    requires forall name :: name in EvidencePart(n) ==> name.digest in blobs
    ensures Open(c, Overlay(runtime, blobs, OriginalOf(arch, n)), NativeKind(arch, version, revision)) == Some(n.walked)
  {
    hide Open, Prepared, Agree;
    OverlayAgrees(c, n, d, runtime, blobs, arch);
    OpenFootprint(c, n.members, Overlay(runtime, blobs, OriginalOf(arch, n)), NativeKind(arch, version, revision));
  }

  // ---- main results ----

  // The one runnable manifest of an opened input.
  function RunnableOf(n: Native): Option<Descriptor> {
    if n.walked.images == [] then None else FirstLeaf(n.walked.leaves, n.walked.images[0].descriptor.digest)
  }

  // For every pair of accepted single-platform archives carrying provenance: detach
  // collects them exactly when each re-read manifest still fits its archive's budget;
  // then its two replays are exactly the original walks (same image, leaves and
  // attestations), and verify_pair accepts the pair exactly when the runnable archive
  // and the sidecar's decoded metadata fit theirs. Acceptance includes that every
  // stored metadata blob is used by a replay.
  lemma DetachReplayRoundTrip(c: Codec, inputs: map<Arch, Native>, version: string, revision: string)
    returns (da: Descriptor, db: Descriptor)
    requires Lawful(c) && AcceptedInputs(c, inputs, version, revision)
    ensures RunnableOf(inputs[Amd64]) == Some(da) && RunnableOf(inputs[Arm64]) == Some(db)
    ensures Detach(c, inputs).Some? <==> CollectFits(inputs[Amd64], da) && CollectFits(inputs[Arm64], db)
    ensures Detach(c, inputs).Some? ==>
      var pair := Detach(c, inputs).value;
      && |pair.sidecar.originals| == 2
      && Replay(c, pair, 0, version, revision) == Some(inputs[Amd64].walked)
      && Replay(c, pair, 1, version, revision) == Some(inputs[Arm64].walked)
      && (VerifyPair(c, pair, version, revision)
          <==> RuntimeFits(c, inputs[Amd64].members, inputs[Arm64].members, da, db) && DecodeFits(pair.sidecar))
  {
    hide Open, Good, AcceptedImage, Detach, RuntimeOf, Overlay, InnerDescriptor, CollectFits, RuntimeFits, RuntimeAccepted, DecodeFits;
    var a, b := inputs[Amd64], inputs[Arm64];
    da := Prepare(c, Amd64, a, version, revision);
    db := Prepare(c, Arm64, b, version, revision);
    if CollectFits(a, da) && CollectFits(b, db) {
      DetachReplays(c, inputs, da, db, version, revision);
    } else {
      DetachNeeds(c, inputs, da, db);
    }
  }

  lemma DetachReplays(c: Codec, inputs: map<Arch, Native>, da: Descriptor, db: Descriptor, version: string, revision: string)
    requires Lawful(c) && AcceptedInputs(c, inputs, version, revision)
    requires Prepared(c, inputs[Amd64], da) && AcceptedImage(c, inputs[Amd64].members, Amd64, version, revision, da)
    requires Prepared(c, inputs[Arm64], db) && AcceptedImage(c, inputs[Arm64].members, Arm64, version, revision, db)
    requires CollectFits(inputs[Amd64], da) && CollectFits(inputs[Arm64], db)
    ensures Detach(c, inputs).Some?
    ensures var pair := Detach(c, inputs).value;
      && |pair.sidecar.originals| == 2
      && Replay(c, pair, 0, version, revision) == Some(inputs[Amd64].walked)
      && Replay(c, pair, 1, version, revision) == Some(inputs[Arm64].walked)
      && (VerifyPair(c, pair, version, revision)
          <==> RuntimeFits(c, inputs[Amd64].members, inputs[Arm64].members, da, db) && DecodeFits(pair.sidecar))
  {
    hide Open, Good, AcceptedImage, Detach, RuntimeOf, Overlay, InnerDescriptor, CollectFits, RuntimeFits, RuntimeAccepted, DecodeFits;
    var a, b := inputs[Amd64], inputs[Arm64];
    DetachBuilds(c, inputs, da, db);
    var pair := Detach(c, inputs).value;
    RuntimeHolds(c, a, b, da, db);
    EvidenceKept(c, a, b, pair.sidecar.blobs);
    ReplayRebuilds(c, Amd64, a, da, pair.runtime, pair.sidecar.blobs, version, revision);
    ReplayRebuilds(c, Arm64, b, db, pair.runtime, pair.sidecar.blobs, version, revision);
    RuntimeAcceptedIff(c, a, b, da, db, version, revision);
    if RuntimeFits(c, a.members, b.members, da, db) {
      VerifyFollows(c, pair, a.walked, b.walked, da, db, version, revision);
    }
  }

  lemma VerifyFollows(c: Codec, pair: Pair, wa: Walked, wb: Walked, da: Descriptor, db: Descriptor, version: string, revision: string)
    requires RuntimeAccepted(c, pair.runtime, version, revision)
    requires RuntimeDescriptors(c, pair.runtime, version, revision) == map[Amd64 := da, Arm64 := db]
    requires |pair.sidecar.originals| == 2 && pair.sidecar.originals[0].arch == Amd64 && pair.sidecar.originals[1].arch == Arm64
    requires pair.sidecar.binding == Binding(c.tar(pair.runtime), InnerDescriptor(c, map[Amd64 := da, Arm64 := db]).digest)
    requires Replay(c, pair, 0, version, revision) == Some(wa) && Replay(c, pair, 1, version, revision) == Some(wb)
    requires HasProvenance(wa) && |wa.images| > 0 && wa.images[0].descriptor == da.Key()
    requires HasProvenance(wb) && |wb.images| > 0 && wb.images[0].descriptor == db.Key()
    requires forall digest :: digest in pair.sidecar.blobs ==> c.sha(pair.sidecar.blobs[digest]) == digest
    requires Restored(pair.sidecar.blobs).Keys <= wa.metadataNames + wb.metadataNames
    ensures VerifyPair(c, pair, version, revision) <==> DecodeFits(pair.sidecar)
  {
    hide RuntimeAccepted, Replay, Open, InnerDescriptor, Restored, HasProvenance;
  }

  // Nothing else can be replayed for the same original index: any two accepted
  // pairs that store the same index and layout rebuild the same walk.
  lemma ReplayUnique(c: Codec, p: Pair, q: Pair, i: nat, version: string, revision: string)
    requires Lawful(c) && VerifyPair(c, p, version, revision) && VerifyPair(c, q, version, revision)
    requires i < |p.sidecar.originals| && i < |q.sidecar.originals| && p.sidecar.originals[i] == q.sidecar.originals[i]
    ensures Replay(c, p, i, version, revision) == Replay(c, q, i, version, revision)
  {
    hide VerifyPair, Open, Inventory, Overlay, Lawful;
    VerifiedReplays(c, p, version, revision);
    VerifiedReplays(c, q, version, revision);
    var o := p.sidecar.originals[i];
    VerifiedOverlay(c, p.runtime, p.sidecar.blobs, o);
    VerifiedOverlay(c, q.runtime, q.sidecar.blobs, o);
    OverlaysCoincide(c, p.runtime, p.sidecar.blobs, q.runtime, q.sidecar.blobs, o, NativeKind(o.arch, version, revision));
  }

  lemma OverlaysCoincide(c: Codec, r: Members, rb: map<Digest, Bytes>, s: Members, sb: map<Digest, Bytes>, o: Original, kind: Kind)
    requires Lawful(c) && Inventory(c, Overlay(r, rb, o)) && Inventory(c, Overlay(s, sb, o))
    requires Open(c, Overlay(r, rb, o), kind).Some? && Open(c, Overlay(s, sb, o), kind).Some?
    ensures Open(c, Overlay(r, rb, o), kind) == Open(c, Overlay(s, sb, o), kind)
  {
    hide Open, Inventory, Lawful;
    OpenUnique(c, Overlay(r, rb, o), Overlay(s, sb, o), kind);
  }

  lemma VerifiedReplays(c: Codec, p: Pair, version: string, revision: string)
    requires VerifyPair(c, p, version, revision)
    ensures |p.sidecar.originals| == 2 && Inventory(c, p.runtime)
    ensures forall digest :: digest in p.sidecar.blobs ==> c.sha(p.sidecar.blobs[digest]) == digest
    ensures Replay(c, p, 0, version, revision).Some? && Replay(c, p, 1, version, revision).Some?
  {
    hide Open, Replay, RuntimeDescriptors, InnerDescriptor, AllUsed, TotalSize, HasProvenance, Generated;
  }

  lemma VerifiedOverlay(c: Codec, runtime: Members, blobs: map<Digest, Bytes>, o: Original)
    requires Inventory(c, runtime) && forall digest :: digest in blobs ==> c.sha(blobs[digest]) == digest
    ensures Inventory(c, Overlay(runtime, blobs, o))
  {
    assert Inventory(c, Restored(blobs));
  }

  lemma OpenUnique(c: Codec, m: Members, n: Members, kind: Kind)
    requires Lawful(c) && Inventory(c, m) && Inventory(c, n)
    requires LayoutFile in m && LayoutFile in n && m[LayoutFile] == n[LayoutFile]
    requires IndexFile in m && IndexFile in n && m[IndexFile] == n[IndexFile]
    requires Open(c, m, kind).Some? && Open(c, n, kind).Some?
    ensures Open(c, m, kind) == Open(c, n, kind)
  {
    var layout := ReadJson(c, m, LayoutFile, MAX_JSON, START).value;
    var index := ReadJson(c, m, IndexFile, MAX_JSON, layout.1).value;
    WalkAllUnique(c, m, n, kind, index.0.manifests.value, 0, index.1);
  }
}
