// What a finished native walk guarantees about the image it found.
module OciAccepted {
  import opened Wrappers
  import opened OciGraph
  import opened OciFootprint

  function DocAt(c: Codec, m: Members, d: Descriptor): Option<Doc> {
    if d.File() in m then c.parse(m[d.File()]) else None
  }

  predicate Readable(c: Codec, m: Members, d: Descriptor, media: set<Media>) {
    HasBlob(m, d, media) && 0 < |m[d.File()]| <= MAX_JSON && DocAt(c, m, d).Some?
  }

  // Every check that image() and walk() make on one runnable manifest.
  predicate AcceptedImage(c: Codec, m: Members, arch: Arch, version: string, revision: string, d: Descriptor) {
    && Readable(c, m, d, {ManifestMedia})
    && var manifest := DocAt(c, m, d).value;
    && SchemaFits(manifest, ManifestMedia) && PlainImage(d, manifest)
    && manifest.config.Some? && Readable(c, m, manifest.config.value, {ConfigMedia})
    && var details := DocAt(c, m, manifest.config.value).value;
    && ImageFits(arch, version, revision, d, manifest, details)
    && LayersFit(c, m, manifest.layers.value, details.diffIds.value)
  }

  function ConfigOf(c: Codec, m: Members, d: Descriptor): Descriptor
    requires DocAt(c, m, d).Some? && DocAt(c, m, d).value.config.Some?
  {
    DocAt(c, m, d).value.config.value
  }

  function LayersOf(c: Codec, m: Members, d: Descriptor): seq<Descriptor>
    requires DocAt(c, m, d).Some? && DocAt(c, m, d).value.layers.Some?
  {
    DocAt(c, m, d).value.layers.value
  }

  ghost predicate ImageHeld(c: Codec, m: Members, kind: Kind, w: Walked, image: Image, d: Descriptor)
    requires kind.NativeKind?
  {
    && AcceptedImage(c, m, kind.arch, kind.version, kind.revision, d)
    && d in w.leaves
    && image.descriptor == d.Key() && image.config == ConfigOf(c, m, d).digest
    && {d.File(), ConfigOf(c, m, d).File()} <= w.metadataNames
    && Files(LayersOf(c, m, d)) <= w.contentNames
  }

  ghost predicate HasLeaf(c: Codec, m: Members, kind: Kind, w: Walked, image: Image)
    requires kind.NativeKind?
  {
    exists d :: ImageHeld(c, m, kind, w, image, d)
  }

  ghost predicate ContentExplained(c: Codec, m: Members, w: Walked, name: Name) {
    || (exists d :: d in w.leaves && DocAt(c, m, d).Some? && DocAt(c, m, d).value.layers.Some?
                    && (exists i :: 0 <= i < |w.images| && w.images[i].descriptor == d.Key())
                    && name in Files(LayersOf(c, m, d)))
    || (exists a :: a in w.attestations && name == BlobFile(a.subject.digest))
  }

  // The inductive invariant of the native walk.
  ghost predicate Good(c: Codec, m: Members, kind: Kind, w: Walked)
    requires kind.NativeKind?
  {
    && (forall i :: 0 <= i < |w.images| ==> HasLeaf(c, m, kind, w, w.images[i]))
    && (forall i, j :: 0 <= i < j < |w.leaves| ==> w.leaves[i].digest != w.leaves[j].digest)
    && (forall name :: name in w.contentNames ==> name.BlobFile? && ContentExplained(c, m, w, name))
    && w.metadataNames <= m.Keys && w.contentNames <= m.Keys
    && (forall name :: name in w.metadataNames ==>
          0 < |m[name]| <= if name in w.attestationNames then MAX_ATTESTATION_JSON else MAX_JSON)
  }

  // The leaves, images and attestations found so far are kept by later steps.
  ghost predicate Extends(w: Walked, w': Walked) {
    && w.leaves <= w'.leaves && w.images <= w'.images && w.attestations <= w'.attestations
    && w.metadataNames <= w'.metadataNames && w.contentNames <= w'.contentNames
    && w.attestationNames <= w'.attestationNames
  }

  lemma ExplainedKept(c: Codec, m: Members, w: Walked, w': Walked, name: Name)
    requires Extends(w, w') && ContentExplained(c, m, w, name)
    ensures ContentExplained(c, m, w', name)
  {
    if a :| a in w.attestations && name == BlobFile(a.subject.digest) {
      assert a in w'.attestations;
    } else {
      var d :| d in w.leaves && DocAt(c, m, d).Some? && DocAt(c, m, d).value.layers.Some?
               && (exists i :: 0 <= i < |w.images| && w.images[i].descriptor == d.Key())
               && name in Files(LayersOf(c, m, d));
      var i :| 0 <= i < |w.images| && w.images[i].descriptor == d.Key();
      assert d in w'.leaves && w'.images[i].descriptor == d.Key();
    }
  }

  // Reading one more metadata file keeps the invariant.
  lemma ReadKeepsGood(c: Codec, m: Members, kind: Kind, w: Walked, w': Walked, name: Name, limit: nat)
    requires kind.NativeKind? && Good(c, m, kind, w) && limit in {MAX_JSON, MAX_ATTESTATION_JSON}
    requires name in m && 0 < |m[name]| <= limit
    requires w' == w.(visited := w'.visited, metadataBytes := w'.metadataBytes, metadataNames := w.metadataNames + {name},
                      attestationNames := w.attestationNames + if limit == MAX_JSON then {} else {name})
    ensures Good(c, m, kind, w') && Extends(w, w')
  {
    forall i | 0 <= i < |w.images| ensures HasLeaf(c, m, kind, w', w'.images[i]) {
      assert HasLeaf(c, m, kind, w, w.images[i]);
      var d :| ImageHeld(c, m, kind, w, w.images[i], d);
      assert ImageHeld(c, m, kind, w', w'.images[i], d);
    }
    forall name | name in w'.contentNames ensures ContentExplained(c, m, w', name) {
      ExplainedKept(c, m, w, w', name);
    }
  }

  lemma {:induction false} StatementsKeepGood(c: Codec, m: Members, kind: Kind, subject: Digest,
                                              layers: seq<Descriptor>, w: Walked)
    requires kind.NativeKind? && Good(c, m, kind, w) && Statements(c, m, subject, layers, w).Some?
    ensures Good(c, m, kind, Statements(c, m, subject, layers, w).value.1)
    ensures Extends(w, Statements(c, m, subject, layers, w).value.1)
    ensures var w' := Statements(c, m, subject, layers, w).value.1;
            w'.leaves == w.leaves && w'.images == w.images && w'.attestations == w.attestations && w'.contentNames == w.contentNames
  {
    if layers != [] {
      StatementsKeepGood(c, m, kind, subject, layers[..|layers| - 1], w);
      var w1 := Statements(c, m, subject, layers[..|layers| - 1], w).value.1;
      var w2 := StatementStep(c, m, subject, layers[|layers| - 1], w1).value.1;
      ReadKeepsGood(c, m, kind, w1, w2, layers[|layers| - 1].File(), MAX_ATTESTATION_JSON);
    }
  }

  // Good without the explanation of the newest content names: an attestation or
  // image is in progress.
  lemma AttestationKeepsGood(c: Codec, m: Members, kind: Kind, d: Descriptor, manifest: Doc, w: Walked)
    requires kind.NativeKind? && Good(c, m, kind, w)
    requires AttestationStep(c, m, kind.arch, d, manifest, w).Some?
    ensures Good(c, m, kind, AttestationStep(c, m, kind.arch, d, manifest, w).value)
    ensures Extends(w, AttestationStep(c, m, kind.arch, d, manifest, w).value)
    ensures AttestationStep(c, m, kind.arch, d, manifest, w).value.leaves == w.leaves
  {
    var (key, w1) := SubjectStep(c, m, kind.arch, d, manifest, w).value;
    var read := w1.(contentNames := w.contentNames);
    ReadKeepsGood(c, m, kind, w, read, manifest.config.value.File(), MAX_JSON);
    var statements := Statements(c, m, key.digest, manifest.layers.value, w1).value;
    StatementsFrame(c, m, key.digest, manifest.layers.value, w1, read);
    var read2 := Statements(c, m, key.digest, manifest.layers.value, read).value.1;
    StatementsKeepGood(c, m, kind, key.digest, manifest.layers.value, read);
    var w' := AttestationStep(c, m, kind.arch, d, manifest, w).value;
    assert w'.contentNames == w.contentNames + {BlobFile(key.digest)};
    assert w'.attestations[|w.attestations|].subject == key;
    ContentAdded(c, m, kind, read2, w');
  }

  // The statement loop does not look at the content names.
  lemma {:induction false} StatementsFrame(c: Codec, m: Members, subject: Digest, layers: seq<Descriptor>, w: Walked, v: Walked)
    requires v == w.(contentNames := v.contentNames) && Statements(c, m, subject, layers, w).Some?
    ensures Statements(c, m, subject, layers, v).Some?
    ensures var r := Statements(c, m, subject, layers, w).value;
            Statements(c, m, subject, layers, v).value == (r.0, r.1.(contentNames := v.contentNames))
    ensures Statements(c, m, subject, layers, w).value.1.contentNames == w.contentNames
  {
    if layers != [] {
      StatementsFrame(c, m, subject, layers[..|layers| - 1], w, v);
    }
  }

  // Appending leaves, images and attestations together with explained content.
  lemma ContentAdded(c: Codec, m: Members, kind: Kind, w: Walked, w': Walked)
    requires kind.NativeKind? && Good(c, m, kind, w) && Extends(w, w')
    requires w'.metadataNames == w.metadataNames && w'.attestationNames == w.attestationNames
    requires w'.leaves == w.leaves && w'.images == w.images && w'.contentNames <= m.Keys
    requires forall name :: name in w'.contentNames && name !in w.contentNames ==>
               name.BlobFile? && exists a :: a in w'.attestations && name == BlobFile(a.subject.digest)
    ensures Good(c, m, kind, w')
  {
    forall i | 0 <= i < |w.images| ensures HasLeaf(c, m, kind, w', w'.images[i]) {
      assert HasLeaf(c, m, kind, w, w.images[i]);
      var d :| ImageHeld(c, m, kind, w, w.images[i], d);
      assert ImageHeld(c, m, kind, w', w'.images[i], d);
    }
    forall name | name in w'.contentNames ensures ContentExplained(c, m, w', name) {
      if name in w.contentNames {
        ExplainedKept(c, m, w, w', name);
      }
    }
  }

  lemma LeafKeepsGood(c: Codec, m: Members, kind: Kind, d: Descriptor, manifest: Doc, w: Walked)
    requires kind.NativeKind? && Good(c, m, kind, w) && LeafStep(c, m, kind, d, manifest, w).Some?
    requires Readable(c, m, d, {ManifestMedia}) && DocAt(c, m, d) == Some(manifest) && SchemaFits(manifest, ManifestMedia)
    requires d.File() in w.metadataNames
    ensures Good(c, m, kind, LeafStep(c, m, kind, d, manifest, w).value)
    ensures Extends(w, LeafStep(c, m, kind, d, manifest, w).value)
  {
    var w' := LeafStep(c, m, kind, d, manifest, w).value;
    if IsAttestation(d, manifest) {
      AttestationKeepsGood(c, m, kind, d, manifest, w);
      var step := AttestationStep(c, m, kind.arch, d, manifest, w).value;
      assert w' == step.(leaves := step.leaves + [d]);
      LeafAppended(c, m, kind, step, w', d);
    } else {
      var read := ReadBlob(c, m, manifest.config.value, {ConfigMedia}, w).value.1;
      ReadKeepsGood(c, m, kind, w, read, manifest.config.value.File(), MAX_JSON);
      ImageAppended(c, m, kind, read, w', d, manifest);
    }
  }

  lemma LeafAppended(c: Codec, m: Members, kind: Kind, w: Walked, w': Walked, d: Descriptor)
    requires kind.NativeKind? && Good(c, m, kind, w) && w' == w.(leaves := w.leaves + [d]) && !Listed(w.leaves, d.digest)
    ensures Good(c, m, kind, w') && Extends(w, w')
  {
    forall i | 0 <= i < |w.images| ensures HasLeaf(c, m, kind, w', w'.images[i]) {
      assert HasLeaf(c, m, kind, w, w.images[i]);
      var e :| ImageHeld(c, m, kind, w, w.images[i], e);
      assert ImageHeld(c, m, kind, w', w'.images[i], e);
    }
    forall name | name in w'.contentNames ensures ContentExplained(c, m, w', name) {
      ExplainedKept(c, m, w, w', name);
    }
  }

  lemma ImageAppended(c: Codec, m: Members, kind: Kind, w: Walked, w': Walked, d: Descriptor, manifest: Doc)
    requires kind.NativeKind? && Good(c, m, kind, w)
    requires AcceptedImage(c, m, kind.arch, kind.version, kind.revision, d) && DocAt(c, m, d) == Some(manifest)
    requires {d.File(), manifest.config.value.File()} <= w.metadataNames && !Listed(w.leaves, d.digest)
    requires w' == w.(leaves := w.leaves + [d], images := w.images + [Image(d.Key(), manifest.config.value.digest)],
                      rootfsBytes := w'.rootfsBytes, contentNames := w.contentNames + Files(manifest.layers.value))
    ensures Good(c, m, kind, w') && Extends(w, w')
  {
    forall i | 0 <= i < |w'.images| ensures HasLeaf(c, m, kind, w', w'.images[i]) {
      if i < |w.images| {
        assert HasLeaf(c, m, kind, w, w.images[i]);
      var e :| ImageHeld(c, m, kind, w, w.images[i], e);
        assert ImageHeld(c, m, kind, w', w'.images[i], e);
      } else {
        assert ImageHeld(c, m, kind, w', w'.images[i], d);
      }
    }
    forall name | name in w'.contentNames ensures name.BlobFile? && ContentExplained(c, m, w', name) && name in m {
      if name in w.contentNames {
        ExplainedKept(c, m, w, w', name);
      } else {
        assert w'.images[|w.images|].descriptor == d.Key() && d in w'.leaves;
        var details := DocAt(c, m, manifest.config.value).value;
        var i :| 0 <= i < |manifest.layers.value| && manifest.layers.value[i].File() == name;
        assert LayerFits(c, m, manifest.layers.value[i], details.diffIds.value[i]);
      }
    }
  }

  lemma {:induction false} WalkKeepsGood(c: Codec, m: Members, kind: Kind, d: Descriptor, depth: nat, w: Walked)
    requires kind.NativeKind? && Good(c, m, kind, w)
    requires depth <= MAX_DEPTH + 1 && Walk(c, m, kind, d, depth, w).Some?
    ensures Good(c, m, kind, Walk(c, m, kind, d, depth, w).value)
    ensures w.metadataNames <= Walk(c, m, kind, d, depth, w).value.metadataNames
    decreases MAX_DEPTH + 1 - depth, 0, 0
  {
    var read := ReadBlob(c, m, d, {IndexMedia, ManifestMedia}, w.(visited := w.visited + 1)).value;
    ReadKeepsGood(c, m, kind, w, read.1, d.File(), MAX_JSON);
    if d.media == IndexMedia {
      WalkAllKeepsGood(c, m, kind, read.0.manifests.value, depth + 1, read.1);
    } else {
      LeafKeepsGood(c, m, kind, d, read.0, read.1);
    }
  }

  lemma {:induction false} WalkAllKeepsGood(c: Codec, m: Members, kind: Kind, ds: seq<Descriptor>, depth: nat, w: Walked)
    requires kind.NativeKind? && Good(c, m, kind, w)
    requires depth <= MAX_DEPTH + 1 && WalkAll(c, m, kind, ds, depth, w).Some?
    ensures Good(c, m, kind, WalkAll(c, m, kind, ds, depth, w).value)
    ensures w.metadataNames <= WalkAll(c, m, kind, ds, depth, w).value.metadataNames
    decreases MAX_DEPTH + 1 - depth, 1, |ds|
  {
    if ds != [] {
      WalkAllKeepsGood(c, m, kind, ds[..|ds| - 1], depth, w);
      WalkKeepsGood(c, m, kind, ds[|ds| - 1], depth, WalkAll(c, m, kind, ds[..|ds| - 1], depth, w).value);
    }
  }

  lemma OpenIsGood(c: Codec, m: Members, kind: Kind)
    requires kind.NativeKind? && Open(c, m, kind).Some?
    ensures Good(c, m, kind, Open(c, m, kind).value)
    ensures {LayoutFile, IndexFile} <= Open(c, m, kind).value.metadataNames
  {
    var layout := ReadJson(c, m, LayoutFile, MAX_JSON, START).value;
    var index := ReadJson(c, m, IndexFile, MAX_JSON, layout.1).value;
    ReadKeepsGood(c, m, kind, START, layout.1, LayoutFile, MAX_JSON);
    ReadKeepsGood(c, m, kind, layout.1, index.1, IndexFile, MAX_JSON);
    WalkAllKeepsGood(c, m, kind, index.0.manifests.value, 0, index.1);
  }
}
