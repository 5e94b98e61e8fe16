// The walk depends only on the members it touches, and content addressing makes
// its outcome unique.
module OciFootprint {
  import opened Wrappers
  import opened OciGraph

  ghost predicate Agree(m: Members, n: Members, names: set<Name>) {
    forall name :: name in names ==> name in m && name in n && m[name] == n[name]
  }

  // ---- accumulators only grow ----

  lemma {:induction false} StatementsGrow(c: Codec, m: Members, subject: Digest, layers: seq<Descriptor>, w: Walked)
    requires Statements(c, m, subject, layers, w).Some?
    ensures w.Touched() <= Statements(c, m, subject, layers, w).value.1.Touched()
  {
    if layers != [] {
      StatementsGrow(c, m, subject, layers[..|layers| - 1], w);
    }
  }

  lemma AttestationGrows(c: Codec, m: Members, arch: Arch, d: Descriptor, manifest: Doc, w: Walked)
    requires AttestationStep(c, m, arch, d, manifest, w).Some?
    ensures w.Touched() <= AttestationStep(c, m, arch, d, manifest, w).value.Touched()
  {
    var subject := SubjectStep(c, m, arch, d, manifest, w).value;
    StatementsGrow(c, m, subject.0.digest, manifest.layers.value, subject.1);
  }

  lemma LeafGrows(c: Codec, m: Members, kind: Kind, d: Descriptor, manifest: Doc, w: Walked)
    requires LeafStep(c, m, kind, d, manifest, w).Some?
    ensures w.Touched() <= LeafStep(c, m, kind, d, manifest, w).value.Touched()
  {
    if IsAttestation(d, manifest) {
      AttestationGrows(c, m, kind.arch, d, manifest, w);
    }
  }

  lemma {:induction false} WalkGrows(c: Codec, m: Members, kind: Kind, d: Descriptor, depth: nat, w: Walked)
    requires depth <= MAX_DEPTH + 1 && Walk(c, m, kind, d, depth, w).Some?
    ensures w.Touched() <= Walk(c, m, kind, d, depth, w).value.Touched()
    decreases MAX_DEPTH + 1 - depth, 0, 0
  {
    var read := ReadBlob(c, m, d, {IndexMedia, ManifestMedia}, w.(visited := w.visited + 1)).value;
    if d.media == IndexMedia {
      WalkAllGrows(c, m, kind, read.0.manifests.value, depth + 1, read.1);
    } else {
      LeafGrows(c, m, kind, d, read.0, read.1);
    }
  }

  lemma {:induction false} WalkAllGrows(c: Codec, m: Members, kind: Kind, ds: seq<Descriptor>, depth: nat, w: Walked)
    requires depth <= MAX_DEPTH + 1 && WalkAll(c, m, kind, ds, depth, w).Some?
    ensures w.Touched() <= WalkAll(c, m, kind, ds, depth, w).value.Touched()
    decreases MAX_DEPTH + 1 - depth, 1, |ds|
  {
    if ds != [] {
      var init := ds[..|ds| - 1];
      WalkAllGrows(c, m, kind, init, depth, w);
      WalkGrows(c, m, kind, ds[|ds| - 1], depth, WalkAll(c, m, kind, init, depth, w).value);
    }
  }

  // ---- the walk reads nothing outside its footprint ----

  lemma ReadFootprint(c: Codec, m: Members, n: Members, d: Descriptor, media: set<Media>, w: Walked)
    requires ReadBlob(c, m, d, media, w).Some?
    requires Agree(m, n, ReadBlob(c, m, d, media, w).value.1.Touched())
    ensures ReadBlob(c, n, d, media, w) == ReadBlob(c, m, d, media, w)
  {
    assert d.File() in ReadBlob(c, m, d, media, w).value.1.Touched();
  }

  lemma {:induction false} LayersSizeAgree(c: Codec, m: Members, n: Members, layers: seq<Descriptor>)
    requires Agree(m, n, Files(layers))
    ensures LayersSize(c, m, layers) == LayersSize(c, n, layers)
  {
    if layers != [] {
      assert layers[|layers| - 1].File() in Files(layers);
      assert Files(layers[..|layers| - 1]) <= Files(layers);
      LayersSizeAgree(c, m, n, layers[..|layers| - 1]);
    }
  }

  lemma ImageFootprint(c: Codec, m: Members, n: Members, arch: Arch, version: string, revision: string,
                       d: Descriptor, manifest: Doc, w: Walked)
    requires ImageStep(c, m, arch, version, revision, d, manifest, w).Some?
    requires Agree(m, n, ImageStep(c, m, arch, version, revision, d, manifest, w).value.Touched())
    ensures ImageStep(c, n, arch, version, revision, d, manifest, w) == ImageStep(c, m, arch, version, revision, d, manifest, w)
  {
    var layers := manifest.layers.value;
    assert manifest.config.value.File() in ImageStep(c, m, arch, version, revision, d, manifest, w).value.Touched();
    LayersSizeAgree(c, m, n, layers);
    forall i | 0 <= i < |layers| ensures layers[i].File() in Files(layers) {
    }
  }

  lemma SubjectFootprint(c: Codec, m: Members, n: Members, arch: Arch, d: Descriptor, manifest: Doc, w: Walked)
    requires SubjectStep(c, m, arch, d, manifest, w).Some?
    requires Agree(m, n, SubjectStep(c, m, arch, d, manifest, w).value.1.Touched())
    ensures SubjectStep(c, n, arch, d, manifest, w) == SubjectStep(c, m, arch, d, manifest, w)
  {
    assert manifest.config.value.File() in SubjectStep(c, m, arch, d, manifest, w).value.1.Touched();
  }

  lemma {:induction false} StatementsFootprint(c: Codec, m: Members, n: Members, subject: Digest,
                                               layers: seq<Descriptor>, w: Walked)
    requires Statements(c, m, subject, layers, w).Some?
    requires Agree(m, n, Statements(c, m, subject, layers, w).value.1.Touched())
    ensures Statements(c, n, subject, layers, w) == Statements(c, m, subject, layers, w)
  {
    if layers != [] {
      assert layers[|layers| - 1].File() in Statements(c, m, subject, layers, w).value.1.Touched();
      StatementsFootprint(c, m, n, subject, layers[..|layers| - 1], w);
    }
  }

  lemma AttestationFootprint(c: Codec, m: Members, n: Members, arch: Arch, d: Descriptor, manifest: Doc, w: Walked)
    requires AttestationStep(c, m, arch, d, manifest, w).Some?
    requires Agree(m, n, AttestationStep(c, m, arch, d, manifest, w).value.Touched())
    ensures AttestationStep(c, n, arch, d, manifest, w) == AttestationStep(c, m, arch, d, manifest, w)
  {
    var subject := SubjectStep(c, m, arch, d, manifest, w).value;
    StatementsGrow(c, m, subject.0.digest, manifest.layers.value, subject.1);
    SubjectFootprint(c, m, n, arch, d, manifest, w);
    StatementsFootprint(c, m, n, subject.0.digest, manifest.layers.value, subject.1);
  }

  lemma LeafFootprint(c: Codec, m: Members, n: Members, kind: Kind, d: Descriptor, manifest: Doc, w: Walked)
    requires LeafStep(c, m, kind, d, manifest, w).Some?
    requires Agree(m, n, LeafStep(c, m, kind, d, manifest, w).value.Touched())
    ensures LeafStep(c, n, kind, d, manifest, w) == LeafStep(c, m, kind, d, manifest, w)
  {
    if IsAttestation(d, manifest) {
      AttestationFootprint(c, m, n, kind.arch, d, manifest, w);
    } else if kind.NativeKind? {
      var step := ImageStep(c, m, kind.arch, kind.version, kind.revision, d, manifest, w);
      assert LeafStep(c, m, kind, d, manifest, w).value == step.value.(leaves := step.value.leaves + [d]);
      ImageFootprint(c, m, n, kind.arch, kind.version, kind.revision, d, manifest, w);
      assert ImageStep(c, n, kind.arch, kind.version, kind.revision, d, manifest, w) == step;
    } else {
      ImageFootprint(c, m, n, d.platform.value.arch, kind.version, kind.revision, d, manifest, w);
    }
  }

  // Whatever else the two archives hold, agreeing on the touched members is
  // enough for the second walk to succeed with the very same result.
  lemma {:induction false} WalkFootprint(c: Codec, m: Members, n: Members, kind: Kind, d: Descriptor, depth: nat, w: Walked)
    requires depth <= MAX_DEPTH + 1 && Walk(c, m, kind, d, depth, w).Some?
    requires Agree(m, n, Walk(c, m, kind, d, depth, w).value.Touched())
    ensures Walk(c, n, kind, d, depth, w) == Walk(c, m, kind, d, depth, w)
    decreases MAX_DEPTH + 1 - depth, 0, 0
  {
    var w0 := w.(visited := w.visited + 1);
    var read := ReadBlob(c, m, d, {IndexMedia, ManifestMedia}, w0).value;
    if d.media == IndexMedia {
      WalkAllGrows(c, m, kind, read.0.manifests.value, depth + 1, read.1);
      ReadFootprint(c, m, n, d, {IndexMedia, ManifestMedia}, w0);
      WalkAllFootprint(c, m, n, kind, read.0.manifests.value, depth + 1, read.1);
    } else {
      assert Walk(c, m, kind, d, depth, w) == LeafStep(c, m, kind, d, read.0, read.1);
      LeafGrows(c, m, kind, d, read.0, read.1);
      ReadFootprint(c, m, n, d, {IndexMedia, ManifestMedia}, w0);
      LeafFootprint(c, m, n, kind, d, read.0, read.1);
      assert Walk(c, n, kind, d, depth, w) == LeafStep(c, n, kind, d, read.0, read.1);
    }
  }

  lemma {:induction false} WalkAllFootprint(c: Codec, m: Members, n: Members, kind: Kind, ds: seq<Descriptor>, depth: nat, w: Walked)
    requires depth <= MAX_DEPTH + 1 && WalkAll(c, m, kind, ds, depth, w).Some?
    requires Agree(m, n, WalkAll(c, m, kind, ds, depth, w).value.Touched())
    ensures WalkAll(c, n, kind, ds, depth, w) == WalkAll(c, m, kind, ds, depth, w)
    decreases MAX_DEPTH + 1 - depth, 1, |ds|
  {
    if ds != [] {
      var init := ds[..|ds| - 1];
      var w1 := WalkAll(c, m, kind, init, depth, w).value;
      WalkGrows(c, m, kind, ds[|ds| - 1], depth, w1);
      WalkAllFootprint(c, m, n, kind, init, depth, w);
      WalkFootprint(c, m, n, kind, ds[|ds| - 1], depth, w1);
    }
  }

  lemma OpenFootprint(c: Codec, m: Members, n: Members, kind: Kind)
    requires Open(c, m, kind).Some?
    requires Agree(m, n, Open(c, m, kind).value.Touched())
    ensures Open(c, n, kind) == Open(c, m, kind)
  {
    var layout := ReadJson(c, m, LayoutFile, MAX_JSON, START).value;
    var index := ReadJson(c, m, IndexFile, MAX_JSON, layout.1).value;
    assert LayoutFile in index.1.Touched() && IndexFile in index.1.Touched();
    WalkAllGrows(c, m, kind, index.0.manifests.value, 0, index.1);
    WalkAllFootprint(c, m, n, kind, index.0.manifests.value, 0, index.1);
  }

  // ---- content addressing: two accepted walks cannot differ ----

  lemma BlobsCoincide(c: Codec, m: Members, n: Members, d: Descriptor)
    requires Lawful(c) && Inventory(c, m) && Inventory(c, n)
    requires d.File() in m && d.File() in n
    ensures m[d.File()] == n[d.File()]
  {
  }

  lemma {:induction false} LayersSizeUnique(c: Codec, m: Members, n: Members, layers: seq<Descriptor>)
    requires Lawful(c) && Inventory(c, m) && Inventory(c, n)
    requires forall i :: 0 <= i < |layers| ==> layers[i].File() in m && layers[i].File() in n
    ensures LayersSize(c, m, layers) == LayersSize(c, n, layers)
  {
    if layers != [] {
      LayersSizeUnique(c, m, n, layers[..|layers| - 1]);
      BlobsCoincide(c, m, n, layers[|layers| - 1]);
    }
  }

  lemma {:induction false} StatementsUnique(c: Codec, m: Members, n: Members, subject: Digest,
                                            layers: seq<Descriptor>, w: Walked)
    requires Lawful(c) && Inventory(c, m) && Inventory(c, n)
    requires Statements(c, m, subject, layers, w).Some? && Statements(c, n, subject, layers, w).Some?
    ensures Statements(c, n, subject, layers, w) == Statements(c, m, subject, layers, w)
  {
    if layers != [] {
      StatementsUnique(c, m, n, subject, layers[..|layers| - 1], w);
      BlobsCoincide(c, m, n, layers[|layers| - 1]);
    }
  }

  lemma ImageUnique(c: Codec, m: Members, n: Members, arch: Arch, version: string, revision: string,
                    d: Descriptor, manifest: Doc, w: Walked)
    requires Lawful(c) && Inventory(c, m) && Inventory(c, n)
    requires ImageStep(c, m, arch, version, revision, d, manifest, w).Some?
    requires ImageStep(c, n, arch, version, revision, d, manifest, w).Some?
    ensures ImageStep(c, n, arch, version, revision, d, manifest, w) == ImageStep(c, m, arch, version, revision, d, manifest, w)
  {
    BlobsCoincide(c, m, n, manifest.config.value);
    var details := ReadBlob(c, m, manifest.config.value, {ConfigMedia}, w).value.0;
    var layers := manifest.layers.value;
    forall i | 0 <= i < |layers| ensures layers[i].File() in m && layers[i].File() in n {
      assert LayerFits(c, m, layers[i], details.diffIds.value[i]);
      assert LayerFits(c, n, layers[i], details.diffIds.value[i]);
    }
    LayersSizeUnique(c, m, n, layers);
  }

  lemma SubjectUnique(c: Codec, m: Members, n: Members, arch: Arch, d: Descriptor, manifest: Doc, w: Walked)
    requires Lawful(c) && Inventory(c, m) && Inventory(c, n)
    requires SubjectStep(c, m, arch, d, manifest, w).Some? && SubjectStep(c, n, arch, d, manifest, w).Some?
    ensures SubjectStep(c, n, arch, d, manifest, w) == SubjectStep(c, m, arch, d, manifest, w)
  {
    BlobsCoincide(c, m, n, manifest.config.value);
  }

  lemma LeafUnique(c: Codec, m: Members, n: Members, kind: Kind, d: Descriptor, manifest: Doc, w: Walked)
    requires Lawful(c) && Inventory(c, m) && Inventory(c, n)
    requires LeafStep(c, m, kind, d, manifest, w).Some? && LeafStep(c, n, kind, d, manifest, w).Some?
    ensures LeafStep(c, n, kind, d, manifest, w) == LeafStep(c, m, kind, d, manifest, w)
  {
    if IsAttestation(d, manifest) {
      SubjectUnique(c, m, n, kind.arch, d, manifest, w);
      var subject := SubjectStep(c, m, kind.arch, d, manifest, w).value;
      StatementsUnique(c, m, n, subject.0.digest, manifest.layers.value, subject.1);
    } else if kind.NativeKind? {
      ImageUnique(c, m, n, kind.arch, kind.version, kind.revision, d, manifest, w);
    } else {
      ImageUnique(c, m, n, d.platform.value.arch, kind.version, kind.revision, d, manifest, w);
    }
  }

  lemma ReadUnique(c: Codec, m: Members, n: Members, d: Descriptor, medias: set<Media>, w: Walked)
    requires Lawful(c) && Inventory(c, m) && Inventory(c, n)
    ensures ReadBlob(c, m, d, medias, w).Some? && ReadBlob(c, n, d, medias, w).Some? ==>
      ReadBlob(c, n, d, medias, w) == ReadBlob(c, m, d, medias, w)
  {
    if d.File() in m && d.File() in n {
      BlobsCoincide(c, m, n, d);
    }
  }

  // A root descriptor fixes everything below it: no two digest-checked archives
  // can both be accepted from it with different leaves, images or attestations.
  lemma {:induction false} WalkUnique(c: Codec, m: Members, n: Members, kind: Kind, d: Descriptor, depth: nat, w: Walked)
    requires Lawful(c) && Inventory(c, m) && Inventory(c, n) && depth <= MAX_DEPTH + 1
    requires Walk(c, m, kind, d, depth, w).Some? && Walk(c, n, kind, d, depth, w).Some?
    ensures Walk(c, n, kind, d, depth, w) == Walk(c, m, kind, d, depth, w)
    decreases MAX_DEPTH + 1 - depth, 0, 0
  {
    ReadUnique(c, m, n, d, {IndexMedia, ManifestMedia}, w.(visited := w.visited + 1));
    hide ReadBlob, LeafStep, SchemaFits, Inventory, Lawful;
    var read := ReadBlob(c, m, d, {IndexMedia, ManifestMedia}, w.(visited := w.visited + 1)).value;
    if d.media == IndexMedia {
      WalkAllUnique(c, m, n, kind, read.0.manifests.value, depth + 1, read.1);
    } else {
      LeafUnique(c, m, n, kind, d, read.0, read.1);
    }
  }

  lemma {:induction false} WalkAllUnique(c: Codec, m: Members, n: Members, kind: Kind, ds: seq<Descriptor>, depth: nat, w: Walked)
    requires Lawful(c) && Inventory(c, m) && Inventory(c, n) && depth <= MAX_DEPTH + 1
    requires WalkAll(c, m, kind, ds, depth, w).Some? && WalkAll(c, n, kind, ds, depth, w).Some?
    ensures WalkAll(c, n, kind, ds, depth, w) == WalkAll(c, m, kind, ds, depth, w)
    decreases MAX_DEPTH + 1 - depth, 1, |ds|
  {
    if ds != [] {
      var init := ds[..|ds| - 1];
      WalkAllUnique(c, m, n, kind, init, depth, w);
      WalkUnique(c, m, n, kind, ds[|ds| - 1], depth, WalkAll(c, m, kind, init, depth, w).value);
    }
  }
}
