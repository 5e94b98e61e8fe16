// The Archive object of scripts/merge_oci_archives.py: fields filled in place by
// the recursive walk, with the layer cache the source keeps beside them. Every
// method is proved to compute the specification in OciGraph; a rejected check
// (ValueError) is ok == false.
module OciArchive {
  import opened Wrappers
  import opened OciGraph

  class Archive {
    const codec: Codec
    const members: Members
    const kind: Kind
    var leaves: seq<Descriptor>
    var images: seq<Image>
    var attestations: seq<Attestation>
    var visited: nat
    var metadataBytes: nat
    var metadataNames: set<Name>
    var attestationNames: set<Name>
    var rootfsBytes: nat
    ghost var contentNames: set<Name>
    var descriptors: map<Arch, Descriptor>
    // layer_identities: expanded digest and size by (digest, media type).
    var layerIdentities: map<(Digest, Media), Expanded>

    ghost function View(): Walked
      reads this
    {
      Walked(leaves, images, attestations, visited, metadataBytes, metadataNames, attestationNames, rootfsBytes,
             contentNames, descriptors)
    }

    // Cached identities are those the blob would expand to again.
    ghost predicate Valid()
      reads this
    {
      forall k :: k in layerIdentities ==>
        && BlobFile(k.0) in members
        && codec.expand(members[BlobFile(k.0)], k.1) == Some(layerIdentities[k])
        && layerIdentities[k].size <= MAX_LAYER_BYTES
    }

    constructor (codec: Codec, members: Members, kind: Kind)
      ensures Valid() && View() == START
      ensures this.codec == codec && this.members == members && this.kind == kind
    {
      this.codec, this.members, this.kind := codec, members, kind;
      leaves, images, attestations, visited, metadataBytes := [], [], [], 0, 0;
      metadataNames, attestationNames, rootfsBytes, contentNames := {}, {}, 0, {};
      descriptors, layerIdentities := map[], map[];
    }

    method ReadJson(name: Name, limit: nat) returns (ok: bool, doc: Doc)
      requires Valid()
      modifies this
      ensures Valid()
      ensures ok <==> OciGraph.ReadJson(codec, members, name, limit, old(View())).Some?
      ensures ok ==> OciGraph.ReadJson(codec, members, name, limit, old(View())) == Some((doc, View()))
      ensures rootfsBytes == old(rootfsBytes)
    {
      doc := Doc(0, None, None, None, None, None, None, Platform(Linux, Amd64, None, false), None, None, None, None);
      metadataNames := metadataNames + {name};
      if name !in members || !(0 < |members[name]| <= limit) {
        return false, doc;
      }
      var raw := members[name];
      metadataBytes := metadataBytes + |raw|;
      if metadataBytes > MAX_JSON_TOTAL {
        return false, doc;
      }
      match codec.parse(raw) {
        case None => return false, doc;
        case Some(parsed) => return true, parsed;
      }
    }

    method ReadBlob(d: Descriptor, media: set<Media>) returns (ok: bool, doc: Doc)
      requires Valid()
      modifies this
      ensures Valid()
      ensures ok <==> OciGraph.ReadBlob(codec, members, d, media, old(View())).Some?
      ensures ok ==> OciGraph.ReadBlob(codec, members, d, media, old(View())) == Some((doc, View()))
      ensures rootfsBytes == old(rootfsBytes)
    {
      if HasBlob(members, d, media) {
        ok, doc := ReadJson(d.File(), MAX_JSON);
      } else {
        ok, doc := false, Doc(0, None, None, None, None, None, None, Platform(Linux, Amd64, None, false), None, None, None, None);
      }
    }

    // layer_digest: expand once per (digest, media type), add to the rootfs total
    // every time.
    method LayerDigest(d: Descriptor) returns (ok: bool, identity: Digest)
      requires Valid() && d.File() in members
      modifies this`rootfsBytes, this`layerIdentities
      ensures Valid()
      ensures var e := codec.expand(members[d.File()], d.media);
              ok <==> e.Some? && e.value.size <= MAX_LAYER_BYTES && old(rootfsBytes) + e.value.size <= MAX_ROOTFS_BYTES
      ensures ok ==> identity == codec.expand(members[d.File()], d.media).value.identity
      ensures ok ==> rootfsBytes == old(rootfsBytes) + codec.expand(members[d.File()], d.media).value.size
    {
      var key := (d.digest, d.media);
      if key in layerIdentities {
        var checked := layerIdentities[key];
        rootfsBytes := rootfsBytes + checked.size;
        return rootfsBytes <= MAX_ROOTFS_BYTES, checked.identity;
      }
      match codec.expand(members[d.File()], d.media) {
        case None => return false, d.digest;
        case Some(checked) =>
          if checked.size > MAX_LAYER_BYTES || rootfsBytes + checked.size > MAX_ROOTFS_BYTES {
            return false, d.digest;
          }
          rootfsBytes := rootfsBytes + checked.size;
          layerIdentities := layerIdentities[key := checked];
          return true, checked.identity;
      }
    }

    // The digest loop of image().
    method CheckLayers(layers: seq<Descriptor>, diffIds: seq<Digest>) returns (ok: bool)
      requires Valid() && |layers| == |diffIds|
      requires forall i :: 0 <= i < |layers| ==> HasBlob(members, layers[i], LAYER_TYPES)
      requires rootfsBytes <= MAX_ROOTFS_BYTES
      modifies this`rootfsBytes, this`layerIdentities
      ensures Valid()
      ensures ok <==> LayersFit(codec, members, layers, diffIds)
                      && old(rootfsBytes) + LayersSize(codec, members, layers) <= MAX_ROOTFS_BYTES
      ensures ok ==> rootfsBytes == old(rootfsBytes) + LayersSize(codec, members, layers)
    {
      for i := 0 to |layers|
        invariant Valid()
        invariant forall j :: 0 <= j < i ==> LayerFits(codec, members, layers[j], diffIds[j])
        invariant rootfsBytes == old(rootfsBytes) + LayersSize(codec, members, layers[..i]) <= MAX_ROOTFS_BYTES
      {
        var fits, identity := LayerDigest(layers[i]);
        assert layers[..i + 1][..i] == layers[..i];
        if !fits || identity != diffIds[i] {
          if LayerFits(codec, members, layers[i], diffIds[i]) {
            LayersSizeGrows(codec, members, layers, i + 1);
          }
          return false;
        }
      }
      assert layers[..|layers|] == layers;
      return true;
    }

    // The blob checks of image(), before any layer is expanded.
    method CheckBlobs(layers: seq<Descriptor>, diffIds: seq<Digest>) returns (ok: bool)
      requires |layers| == |diffIds|
      ensures ok <==> forall j :: 0 <= j < |layers| ==> HasBlob(members, layers[j], LAYER_TYPES)
      ensures !ok ==> !LayersFit(codec, members, layers, diffIds)
    {
      for i := 0 to |layers|
        invariant forall j :: 0 <= j < i ==> HasBlob(members, layers[j], LAYER_TYPES)
      {
        if !HasBlob(members, layers[i], LAYER_TYPES) {
          assert !LayerFits(codec, members, layers[i], diffIds[i]);
          return false;
        }
      }
      return true;
    }

    // The layer loops of image(), and what an accepted image records.
    method TakeLayers(image: Image, layers: seq<Descriptor>, diffIds: seq<Digest>) returns (ok: bool)
      requires Valid() && rootfsBytes <= MAX_ROOTFS_BYTES && |layers| == |diffIds|
      modifies this
      ensures Valid()
      ensures ok <==> LayersFit(codec, members, layers, diffIds)
                      && old(rootfsBytes) + LayersSize(codec, members, layers) <= MAX_ROOTFS_BYTES
      ensures ok ==> View() == old(View()).(rootfsBytes := old(rootfsBytes) + LayersSize(codec, members, layers),
                                            images := old(images) + [image], contentNames := old(contentNames) + Files(layers))
    {
      hide LayersSize, LayersFit, LayerFits, HasBlob, Files;
      var present := CheckBlobs(layers, diffIds);
      if !present {
        return false;
      }
      ok := CheckLayers(layers, diffIds);
      if ok {
        images := images + [image];
        contentNames := contentNames + Files(layers);
      }
    }

    method CheckImage(arch: Arch, version: string, revision: string, d: Descriptor, manifest: Doc) returns (ok: bool)
      requires Valid() && rootfsBytes <= MAX_ROOTFS_BYTES
      modifies this
      ensures Valid()
      ensures ok <==> ImageStep(codec, members, arch, version, revision, d, manifest, old(View())).Some?
      ensures ok ==> ImageStep(codec, members, arch, version, revision, d, manifest, old(View())) == Some(View())
      ensures ok ==> rootfsBytes <= MAX_ROOTFS_BYTES
    {
      hide LayersSize, LayersFit, Files, OciGraph.ReadBlob;
      if manifest.config.None? {
        return false;
      }
      var read, details := ReadBlob(manifest.config.value, {ConfigMedia});
      if !read || !ImageFits(arch, version, revision, d, manifest, details) {
        return false;
      }
      ok := TakeLayers(Image(d.Key(), manifest.config.value.digest), manifest.layers.value, details.diffIds.value);
    }

    method CheckRuntimeImage(version: string, revision: string, d: Descriptor, manifest: Doc) returns (ok: bool)
      requires Valid() && rootfsBytes <= MAX_ROOTFS_BYTES
      modifies this
      ensures Valid()
      ensures ok <==> RuntimeImageStep(codec, members, version, revision, d, manifest, old(View())).Some?
      ensures ok ==> RuntimeImageStep(codec, members, version, revision, d, manifest, old(View())) == Some(View())
      ensures ok ==> rootfsBytes <= MAX_ROOTFS_BYTES
    {
      if d.platform.None? || d.platform.value.os != Linux || d.platform.value.arch !in PLATFORMS
         || d.platform.value.arch in descriptors {
        return false;
      }
      ok := CheckImage(d.platform.value.arch, version, revision, d, manifest);
      if ok {
        descriptors := descriptors[d.platform.value.arch := d];
      }
    }

    method CheckStatements(subject: Digest, layers: seq<Descriptor>) returns (ok: bool, predicates: set<Predicate>)
      requires Valid()
      modifies this
      ensures Valid()
      ensures ok <==> Statements(codec, members, subject, layers, old(View())).Some?
      ensures ok ==> Statements(codec, members, subject, layers, old(View())) == Some((predicates, View()))
      ensures ok ==> rootfsBytes == old(rootfsBytes)
    {
      predicates := {};
      for i := 0 to |layers|
        invariant Valid() && rootfsBytes == old(rootfsBytes)
        invariant Statements(codec, members, subject, layers[..i], old(View())) == Some((predicates, View()))
      {
        assert layers[..i + 1][..i] == layers[..i];
        ghost var before := View();
        var read, statement := false, Doc(0, None, None, None, None, None, None, Platform(Linux, Amd64, None, false), None, None, None, None);
        if HasBlob(members, layers[i], {InTotoMedia}) {
          read, statement := ReadJson(layers[i].File(), MAX_ATTESTATION_JSON);
        }
        if !read || statement.statement.None? || subject !in statement.statement.value.subjects {
          assert StatementStep(codec, members, subject, layers[i], before).None?;
          StatementsFail(codec, members, subject, layers, old(View()), i + 1);
          return false, predicates;
        }
        predicates := predicates + {statement.statement.value.predicateType};
        attestationNames := attestationNames + {layers[i].File()};
      }
      assert layers[..|layers|] == layers;
      return true, predicates;
    }

    // The subject an attestation manifest names, in its OCI-artifact or legacy form.
    method FindSubject(arch: Arch, d: Descriptor, manifest: Doc) returns (ok: bool, subject: ContentKey)
      requires Valid()
      modifies this
      ensures Valid() && (ok ==> rootfsBytes == old(rootfsBytes))
      ensures ok <==> SubjectStep(codec, members, arch, d, manifest, old(View())).Some?
      ensures ok ==> SubjectStep(codec, members, arch, d, manifest, old(View())) == Some((subject, View()))
    {
      subject := d.Key();
      if manifest.config.None? {
        return false, subject;
      }
      var config := manifest.config.value;
      if manifest.artifactType.Some? {
        if manifest.artifactType != Some(AttestationArtifact) || d.artifactType !in {None, Some(AttestationArtifact)} {
          return false, subject;
        }
        var read, _ := ReadBlob(config, {EmptyMedia});
        if !read || config.size != |codec.emptyJson| || config.digest != codec.sha(codec.emptyJson)
           || manifest.subject.None? || !HasBlob(members, manifest.subject.value, {ManifestMedia})
           || !SubjectPlatformFits(manifest.subject.value, arch)
           || d.referenceDigest !in {None, Some(manifest.subject.value.digest)} {
          return false, subject;
        }
        subject := manifest.subject.value.Key();
      } else {
        if d.artifactType.Some? || manifest.subject.Some? {
          return false, subject;
        }
        var read, details := ReadBlob(config, {ConfigMedia});
        if !read || details.platform.os != UnknownOs || details.platform.arch != UnknownArch
           || d.referenceDigest.None? || BlobFile(d.referenceDigest.value) !in members {
          return false, subject;
        }
        subject := ContentKey(ManifestMedia, d.referenceDigest.value, |members[BlobFile(d.referenceDigest.value)]|);
      }
      contentNames := contentNames + {BlobFile(subject.digest)};
      return true, subject;
    }

    method CheckAttestation(arch: Arch, d: Descriptor, manifest: Doc) returns (ok: bool)
      requires Valid()
      modifies this
      ensures Valid()
      ensures ok <==> AttestationStep(codec, members, arch, d, manifest, old(View())).Some?
      ensures ok ==> AttestationStep(codec, members, arch, d, manifest, old(View())) == Some(View())
      ensures ok ==> rootfsBytes == old(rootfsBytes)
    {
      hide SubjectStep, Statements;
      if d.platform.None? || d.platform.value.os != UnknownOs || d.platform.value.arch != UnknownArch
         || d.reference !in {None, Some(AttestationManifest)} {
        return false;
      }
      var named, subject := FindSubject(arch, d, manifest);
      if !named || manifest.layers.None? || !(0 < |manifest.layers.value| <= 4096) {
        return false;
      }
      var found, predicates := CheckStatements(subject.digest, manifest.layers.value);
      if !found {
        return false;
      }
      attestations := attestations + [Attestation(d.digest, subject, predicates)];
      return true;
    }

    method CheckLeaf(d: Descriptor, manifest: Doc) returns (ok: bool)
      requires Valid() && rootfsBytes <= MAX_ROOTFS_BYTES
      modifies this
      ensures Valid()
      ensures ok <==> LeafStep(codec, members, kind, d, manifest, old(View())).Some?
      ensures ok ==> LeafStep(codec, members, kind, d, manifest, old(View())) == Some(View())
      ensures ok ==> rootfsBytes <= MAX_ROOTFS_BYTES
    {
      hide ImageStep, RuntimeImageStep, AttestationStep, HasBlob, LayersFit;
      if IsAttestation(d, manifest) {
        match kind {
          case NativeKind(arch, _, _) => ok := CheckAttestation(arch, d, manifest);
          case RuntimeKind(_, _) => ok := false;
        }
      } else if !PlainImage(d, manifest) {
        ok := false;
      } else {
        match kind {
          case NativeKind(arch, version, revision) => ok := CheckImage(arch, version, revision, d, manifest);
          case RuntimeKind(version, revision) => ok := CheckRuntimeImage(version, revision, d, manifest);
        }
      }
      if ok && Listed(leaves, d.digest) {
        ok := false;
      }
      if ok {
        leaves := leaves + [d];
      }
    }

    method WalkIndex(doc: Doc, depth: nat) returns (ok: bool)
      requires Valid() && rootfsBytes <= MAX_ROOTFS_BYTES && depth <= MAX_DEPTH + 1
      modifies this
      ensures Valid() && (ok ==> rootfsBytes <= MAX_ROOTFS_BYTES)
      ensures ok <==> OciGraph.WalkIndex(codec, members, kind, doc, depth, old(View())).Some?
      ensures ok ==> OciGraph.WalkIndex(codec, members, kind, doc, depth, old(View())) == Some(View())
      decreases MAX_DEPTH + 1 - depth, 1
    {
      if !SchemaFits(doc, IndexMedia) || doc.subject.Some? || doc.artifactType.Some?
         || doc.manifests.None? || !(0 < |doc.manifests.value| <= 1024) {
        return false;
      }
      var children := doc.manifests.value;
      for i := 0 to |children|
        invariant Valid() && rootfsBytes <= MAX_ROOTFS_BYTES
        invariant WalkAll(codec, members, kind, children[..i], depth, old(View())) == Some(View())
      {
        assert children[..i + 1][..i] == children[..i];
        var walked := Walk(children[i], depth);
        if !walked {
          WalkAllFails(codec, members, kind, children, depth, old(View()), i + 1);
          return false;
        }
      }
      assert children[..|children|] == children;
      return true;
    }

    method Walk(d: Descriptor, depth: nat) returns (ok: bool)
      requires Valid() && rootfsBytes <= MAX_ROOTFS_BYTES && depth <= MAX_DEPTH + 1
      modifies this
      ensures Valid() && (ok ==> rootfsBytes <= MAX_ROOTFS_BYTES)
      ensures ok <==> OciGraph.Walk(codec, members, kind, d, depth, old(View())).Some?
      ensures ok ==> OciGraph.Walk(codec, members, kind, d, depth, old(View())) == Some(View())
      decreases MAX_DEPTH + 1 - depth, 0
    {
      hide LeafStep;
      visited := visited + 1;
      if depth > MAX_DEPTH || visited > MAX_VISITED {
        return false;
      }
      var read, doc := ReadBlob(d, {IndexMedia, ManifestMedia});
      if !read || !SchemaFits(doc, d.media) {
        return false;
      }
      if d.media == IndexMedia {
        ok := WalkIndex(doc, depth + 1);
      } else {
        ok := CheckLeaf(d, doc);
      }
    }

    // Archive.__init__ from the layout file to the completeness check.
    method Open() returns (ok: bool)
      requires Valid() && View() == START
      modifies this
      ensures ok <==> OciGraph.Open(codec, members, kind).Some?
      ensures ok ==> OciGraph.Open(codec, members, kind) == Some(View())
    {
      hide OciGraph.WalkIndex;
      var read, layout := ReadJson(LayoutFile, MAX_JSON);
      if !read || layout.layoutVersion != Some("1.0.0") {
        return false;
      }
      var found, root := ReadJson(IndexFile, MAX_JSON);
      if !found {
        return false;
      }
      var walked := WalkIndex(root, 0);
      if !walked {
        return false;
      }
      match kind {
        case NativeKind(_, _, _) =>
          return |images| == 1 && forall i :: 0 <= i < |attestations| ==> attestations[i].subject == images[0].descriptor;
        case RuntimeKind(_, _) =>
          return descriptors.Keys == {Amd64, Arm64} && |images| == 2;
      }
    }
  }

  lemma {:induction false} WalkAllFails(c: Codec, m: Members, kind: Kind, ds: seq<Descriptor>, depth: nat, w: Walked, k: nat)
    requires depth <= MAX_DEPTH + 1 && k <= |ds| && WalkAll(c, m, kind, ds[..k], depth, w).None?
    ensures WalkAll(c, m, kind, ds, depth, w).None?
    decreases |ds|
  {
    if k == |ds| {
      assert ds[..k] == ds;
    } else {
      assert ds[..|ds| - 1][..k] == ds[..k];
      WalkAllFails(c, m, kind, ds[..|ds| - 1], depth, w, k);
    }
  }

  lemma {:induction false} LayersSizeGrows(c: Codec, m: Members, layers: seq<Descriptor>, k: nat)
    requires k <= |layers|
    ensures LayersSize(c, m, layers[..k]) <= LayersSize(c, m, layers)
  {
    if k == |layers| {
      assert layers[..k] == layers;
    } else {
      assert layers[..|layers| - 1][..k] == layers[..k];
      LayersSizeGrows(c, m, layers[..|layers| - 1], k);
    }
  }

  // A rejected statement rejects the whole list.
  lemma {:induction false} StatementsFail(c: Codec, m: Members, subject: Digest, layers: seq<Descriptor>, w: Walked, k: nat)
    requires k <= |layers| && Statements(c, m, subject, layers[..k], w).None?
    ensures Statements(c, m, subject, layers, w).None?
  {
    if k == |layers| {
      assert layers[..k] == layers;
    } else {
      assert layers[..|layers| - 1][..k] == layers[..k];
      StatementsFail(c, m, subject, layers[..|layers| - 1], w, k);
    }
  }
}
