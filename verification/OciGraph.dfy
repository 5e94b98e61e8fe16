// The content-addressed walk over a BuildKit OCI archive
// (scripts/merge_oci_archives.py), as a specification on values. Every rejected
// check of the source is a ValueError, modelled by None.
module OciGraph {
  import opened Wrappers

  type Bytes = string

  datatype Digest = Digest(id: nat)

  // Archive member names: the two fixed files, "blobs/sha256/<digest>", and
  // extension files the walk never reads.
  datatype Name = LayoutFile | IndexFile | BlobFile(digest: Digest) | ExtensionFile(path: string)

  type Members = map<Name, Bytes>

  datatype Media = IndexMedia | ManifestMedia | ConfigMedia | EmptyMedia | InTotoMedia
                 | LayerTar | LayerGzip | LayerZstd | OtherMedia(text: string)

  datatype Os = Linux | UnknownOs | OtherOs(text: string)
  datatype Arch = Amd64 | Arm64 | UnknownArch | OtherArch(text: string)
  datatype Platform = Platform(os: Os, arch: Arch, variant: Option<string>, requirements: bool)

  datatype Reference = AttestationManifest | OtherReference(text: string)
  datatype ArtifactType = AttestationArtifact | OtherArtifact(text: string)
  datatype Predicate = Slsa02 | Slsa1 | OtherPredicate(text: string)

  // `contained` means no external URLs, and embedded data only for the empty config.
  datatype Descriptor = Descriptor(media: Media, digest: Digest, size: nat, contained: bool,
                                   platform: Option<Platform>, artifactType: Option<ArtifactType>,
                                   reference: Option<Reference>, referenceDigest: Option<Digest>)
  {
    function Key(): ContentKey { ContentKey(media, digest, size) }

    function File(): Name { BlobFile(digest) }
  }

  // descriptor_key: the three fields that identify content.
  datatype ContentKey = ContentKey(media: Media, digest: Digest, size: nat)

  datatype Labels = Labels(version: string, revision: string)
  datatype Statement = Statement(predicateType: Predicate, subjects: seq<Digest>)

  // One parsed JSON object: the keys the walk inspects.
  datatype Doc = Doc(schema: int, media: Option<Media>, artifactType: Option<ArtifactType>,
                     subject: Option<Descriptor>, manifests: Option<seq<Descriptor>>,
                     config: Option<Descriptor>, layers: Option<seq<Descriptor>>,
                     platform: Platform, labels: Option<Labels>, diffIds: Option<seq<Digest>>,
                     layoutVersion: Option<string>, statement: Option<Statement>)

  datatype Expanded = Expanded(identity: Digest, size: nat)

  // The functions of the outside world: SHA-256, the JSON decoder and canonical
  // encoder, and layer decompression.
  datatype Codec = Codec(sha: Bytes -> Digest, parse: Bytes -> Option<Doc>, encode: Doc -> Bytes,
                         expand: (Bytes, Media) -> Option<Expanded>, emptyJson: Bytes,
                         tar: Members -> Digest)

  ghost predicate Lawful(c: Codec) {
    && (forall x, y {:trigger c.sha(x), c.sha(y)} :: c.sha(x) == c.sha(y) ==> x == y)
    && (forall d {:trigger c.encode(d)} :: c.parse(c.encode(d)) == Some(d) && 0 < |c.encode(d)|)
  }

  const MAX_JSON := 2_000_000
  const MAX_ATTESTATION_JSON := 16_777_216
  const MAX_JSON_TOTAL := 32_000_000
  const MAX_LAYER_BYTES := 8_589_934_592
  const MAX_ROOTFS_BYTES := 34_359_738_368
  const MAX_DEPTH := 8
  const MAX_VISITED := 1024

  const LAYER_TYPES: set<Media> := {LayerTar, LayerGzip, LayerZstd}
  const PLATFORMS: seq<Arch> := [Amd64, Arm64]
  const PROVENANCE_TYPES: set<Predicate> := {Slsa02, Slsa1}

  datatype Image = Image(descriptor: ContentKey, config: Digest)
  datatype Attestation = Attestation(digest: Digest, subject: ContentKey, predicates: set<Predicate>)

  // The Archive fields filled by the walk. `contentNames` are the blobs whose
  // presence, size or bytes were used without reading them as JSON metadata.
  datatype Walked = Walked(leaves: seq<Descriptor>, images: seq<Image>, attestations: seq<Attestation>,
                           visited: nat, metadataBytes: nat, metadataNames: set<Name>,
                           attestationNames: set<Name>, rootfsBytes: nat, contentNames: set<Name>,
                           descriptors: map<Arch, Descriptor>)
  {
    function Touched(): set<Name> { metadataNames + contentNames }
  }

  const START := Walked([], [], [], 0, 0, {}, {}, 0, {}, map[])

  // The single-platform Archive, or the RuntimeArchive subclass that overrides
  // image(), attestation() and validate_complete_graph().
  datatype Kind = NativeKind(arch: Arch, version: string, revision: string)
                | RuntimeKind(version: string, revision: string)

  // ---- reading blobs ----

  function ReadJson(c: Codec, m: Members, name: Name, limit: nat, w: Walked): (r: Option<(Doc, Walked)>) {
    if name in m && 0 < |m[name]| <= limit && w.metadataBytes + |m[name]| <= MAX_JSON_TOTAL && c.parse(m[name]).Some? then
      Some((c.parse(m[name]).value,
            w.(metadataNames := w.metadataNames + {name}, metadataBytes := w.metadataBytes + |m[name]|)))
    else None
  }

  predicate HasBlob(m: Members, d: Descriptor, media: set<Media>) {
    d.contained && d.media in media && d.File() in m && |m[d.File()]| == d.size
  }

  function ReadBlob(c: Codec, m: Members, d: Descriptor, media: set<Media>, w: Walked): (r: Option<(Doc, Walked)>) {
    if HasBlob(m, d, media) then ReadJson(c, m, d.File(), MAX_JSON, w) else None
  }

  // ---- images ----

  predicate VariantFits(arch: Arch, variant: Option<string>) {
    variant == None || (arch == Arm64 && variant == Some("v8"))
  }

  predicate ImageFits(arch: Arch, version: string, revision: string, d: Descriptor, manifest: Doc, details: Doc) {
    && d.platform.Some?
    && d.platform.value.os == details.platform.os == Linux
    && d.platform.value.arch == details.platform.arch == arch
    && VariantFits(arch, d.platform.value.variant) && VariantFits(arch, details.platform.variant)
    && !d.platform.value.requirements && !details.platform.requirements
    && details.labels == Some(Labels(version, revision))
    && manifest.layers.Some? && |manifest.layers.value| <= 4096
    && details.diffIds.Some? && |details.diffIds.value| == |manifest.layers.value|
  }

  predicate LayerFits(c: Codec, m: Members, layer: Descriptor, diffId: Digest) {
    && HasBlob(m, layer, LAYER_TYPES)
    && var e := c.expand(m[layer.File()], layer.media);
    e.Some? && e.value.identity == diffId && e.value.size <= MAX_LAYER_BYTES
  }

  predicate LayersFit(c: Codec, m: Members, layers: seq<Descriptor>, diffIds: seq<Digest>)
    requires |layers| == |diffIds|
  {
    forall i :: 0 <= i < |layers| ==> LayerFits(c, m, layers[i], diffIds[i])
  }

  function LayerSize(c: Codec, m: Members, layer: Descriptor): nat {
    if layer.File() in m && c.expand(m[layer.File()], layer.media).Some?
    then c.expand(m[layer.File()], layer.media).value.size else 0
  }

  // The last layer is added last, as the source's running total does.
  function LayersSize(c: Codec, m: Members, layers: seq<Descriptor>): nat {
    if layers == [] then 0
    else LayersSize(c, m, layers[..|layers| - 1]) + LayerSize(c, m, layers[|layers| - 1])
  }

  function Files(ds: seq<Descriptor>): set<Name> {
    set d | d in ds :: d.File()
  }

  function ImageStep(c: Codec, m: Members, arch: Arch, version: string, revision: string,
                     d: Descriptor, manifest: Doc, w: Walked): (r: Option<Walked>) {
    if manifest.config.None? then None else
    var read := ReadBlob(c, m, manifest.config.value, {ConfigMedia}, w);
    if read.None? then None else
    var (details, w1) := read.value;
    if ImageFits(arch, version, revision, d, manifest, details)
       && LayersFit(c, m, manifest.layers.value, details.diffIds.value)
       && w1.rootfsBytes + LayersSize(c, m, manifest.layers.value) <= MAX_ROOTFS_BYTES
    then Some(w1.(rootfsBytes := w1.rootfsBytes + LayersSize(c, m, manifest.layers.value),
                  images := w1.images + [Image(d.Key(), manifest.config.value.digest)],
                  contentNames := w1.contentNames + Files(manifest.layers.value)))
    else None
  }

  // RuntimeArchive.image: the platform selects the check and may not repeat.
  function RuntimeImageStep(c: Codec, m: Members, version: string, revision: string,
                            d: Descriptor, manifest: Doc, w: Walked): (r: Option<Walked>) {
    if d.platform.None? || d.platform.value.os != Linux || d.platform.value.arch !in PLATFORMS
       || d.platform.value.arch in w.descriptors
    then None else
    var step := ImageStep(c, m, d.platform.value.arch, version, revision, d, manifest, w);
    if step.None? then None
    else Some(step.value.(descriptors := step.value.descriptors[d.platform.value.arch := d]))
  }

  // ---- attestations ----

  // The subject named by an OCI-artifact or legacy attestation manifest.
  function SubjectStep(c: Codec, m: Members, arch: Arch, d: Descriptor, manifest: Doc, w: Walked): (r: Option<(ContentKey, Walked)>) {
    if manifest.config.None? then None
    else if manifest.artifactType.Some? then
      if manifest.artifactType != Some(AttestationArtifact) || d.artifactType !in {None, Some(AttestationArtifact)} then None else
      var read := ReadBlob(c, m, manifest.config.value, {EmptyMedia}, w);
      if read.None? || manifest.config.value.size != |c.emptyJson| || manifest.config.value.digest != c.sha(c.emptyJson)
         || manifest.subject.None? || !HasBlob(m, manifest.subject.value, {ManifestMedia})
         || !SubjectPlatformFits(manifest.subject.value, arch)
         || d.referenceDigest !in {None, Some(manifest.subject.value.digest)}
      then None
      else Some((manifest.subject.value.Key(),
                 read.value.1.(contentNames := read.value.1.contentNames + {manifest.subject.value.File()})))
    else if d.artifactType.Some? || manifest.subject.Some? then None else
      var read := ReadBlob(c, m, manifest.config.value, {ConfigMedia}, w);
      if read.None? || read.value.0.platform.os != UnknownOs || read.value.0.platform.arch != UnknownArch
         || d.referenceDigest.None? || BlobFile(d.referenceDigest.value) !in m
      then None
      else Some((ContentKey(ManifestMedia, d.referenceDigest.value, |m[BlobFile(d.referenceDigest.value)]|),
                 read.value.1.(contentNames := read.value.1.contentNames + {BlobFile(d.referenceDigest.value)})))
  }

  predicate SubjectPlatformFits(subject: Descriptor, arch: Arch) {
    subject.platform.None? || (subject.platform.value.os == Linux && subject.platform.value.arch == arch)
  }

  function StatementStep(c: Codec, m: Members, subject: Digest, layer: Descriptor, w: Walked): (r: Option<(Predicate, Walked)>) {
    if !HasBlob(m, layer, {InTotoMedia}) then None else
    var read := ReadJson(c, m, layer.File(), MAX_ATTESTATION_JSON, w);
    if read.None? || read.value.0.statement.None? || subject !in read.value.0.statement.value.subjects then None
    else Some((read.value.0.statement.value.predicateType,
               read.value.1.(attestationNames := read.value.1.attestationNames + {layer.File()})))
  }

  function Statements(c: Codec, m: Members, subject: Digest, layers: seq<Descriptor>, w: Walked): (r: Option<(set<Predicate>, Walked)>) {
    if layers == [] then Some(({}, w)) else
    var rest := Statements(c, m, subject, layers[..|layers| - 1], w);
    if rest.None? then None else
    var last := StatementStep(c, m, subject, layers[|layers| - 1], rest.value.1);
    if last.None? then None
    else Some((rest.value.0 + {last.value.0}, last.value.1))
  }

  function AttestationStep(c: Codec, m: Members, arch: Arch, d: Descriptor, manifest: Doc, w: Walked): (r: Option<Walked>) {
    if d.platform.None? || d.platform.value.os != UnknownOs || d.platform.value.arch != UnknownArch
       || d.reference !in {None, Some(AttestationManifest)}
    then None else
    var subject := SubjectStep(c, m, arch, d, manifest, w);
    if subject.None? || manifest.layers.None? || !(0 < |manifest.layers.value| <= 4096) then None else
    var statements := Statements(c, m, subject.value.0.digest, manifest.layers.value, subject.value.1);
    if statements.None? then None
    else var w2 := statements.value.1;
    Some(w2.(attestations := w2.attestations + [Attestation(d.digest, subject.value.0, statements.value.0)]))
  }

  // ---- the walk ----

  predicate IsAttestation(d: Descriptor, manifest: Doc) {
    d.reference == Some(AttestationManifest) || manifest.artifactType == Some(AttestationArtifact)
  }

  predicate PlainImage(d: Descriptor, manifest: Doc) {
    d.artifactType == None && manifest.artifactType == None && manifest.subject == None && d.reference == None
  }

  predicate Listed(leaves: seq<Descriptor>, digest: Digest) {
    exists i :: 0 <= i < |leaves| && leaves[i].digest == digest
  }

  function LeafStep(c: Codec, m: Members, kind: Kind, d: Descriptor, manifest: Doc, w: Walked): (r: Option<Walked>) {
    var step :=
      if IsAttestation(d, manifest) then
        match kind
        case NativeKind(arch, _, _) => AttestationStep(c, m, arch, d, manifest, w)
        case RuntimeKind(_, _) => None
      else if !PlainImage(d, manifest) then None
      else
        match kind
        case NativeKind(arch, version, revision) => ImageStep(c, m, arch, version, revision, d, manifest, w)
        case RuntimeKind(version, revision) => RuntimeImageStep(c, m, version, revision, d, manifest, w);
    if step.None? || Listed(step.value.leaves, d.digest) then None
    else Some(step.value.(leaves := step.value.leaves + [d]))
  }

  predicate SchemaFits(doc: Doc, media: Media) {
    doc.schema == 2 && doc.media in {None, Some(media)}
  }

  function WalkIndex(c: Codec, m: Members, kind: Kind, doc: Doc, depth: nat, w: Walked): (r: Option<Walked>)
    requires depth <= MAX_DEPTH + 1
    decreases MAX_DEPTH + 1 - depth, 2, 0
  {
    if !SchemaFits(doc, IndexMedia) || doc.subject.Some? || doc.artifactType.Some?
       || doc.manifests.None? || !(0 < |doc.manifests.value| <= 1024)
    then None
    else WalkAll(c, m, kind, doc.manifests.value, depth, w)
  }

  function WalkAll(c: Codec, m: Members, kind: Kind, ds: seq<Descriptor>, depth: nat, w: Walked): (r: Option<Walked>)
    requires depth <= MAX_DEPTH + 1
    decreases MAX_DEPTH + 1 - depth, 1, |ds|
  {
    if ds == [] then Some(w) else
    var init := WalkAll(c, m, kind, ds[..|ds| - 1], depth, w);
    if init.None? then None else Walk(c, m, kind, ds[|ds| - 1], depth, init.value)
  }

  function Walk(c: Codec, m: Members, kind: Kind, d: Descriptor, depth: nat, w: Walked): (r: Option<Walked>)
    requires depth <= MAX_DEPTH + 1
    decreases MAX_DEPTH + 1 - depth, 0, 0
  {
    if depth > MAX_DEPTH || w.visited + 1 > MAX_VISITED then None else
    var read := ReadBlob(c, m, d, {IndexMedia, ManifestMedia}, w.(visited := w.visited + 1));
    if read.None? || !SchemaFits(read.value.0, d.media) then None
    else if d.media == IndexMedia then WalkIndex(c, m, kind, read.value.0, depth + 1, read.value.1)
    else LeafStep(c, m, kind, d, read.value.0, read.value.1)
  }

  predicate CompleteGraph(kind: Kind, w: Walked) {
    match kind
    case NativeKind(_, _, _) =>
      |w.images| == 1 && forall i :: 0 <= i < |w.attestations| ==> w.attestations[i].subject == w.images[0].descriptor
    case RuntimeKind(_, _) => w.descriptors.Keys == {Amd64, Arm64} && |w.images| == 2
  }

  // Archive.__init__ after the inventory: layout, root index, walk, completeness.
  function Open(c: Codec, m: Members, kind: Kind): (r: Option<Walked>) {
    var layout := ReadJson(c, m, LayoutFile, MAX_JSON, START);
    if layout.None? || layout.value.0.layoutVersion != Some("1.0.0") then None else
    var index := ReadJson(c, m, IndexFile, MAX_JSON, layout.value.1);
    if index.None? then None else
    var w := WalkIndex(c, m, kind, index.value.0, 0, index.value.1);
    if w.None? || !CompleteGraph(kind, w.value) then None else w
  }

  // Archive.inventory: every blob is stored under the digest of its bytes.
  ghost predicate Inventory(c: Codec, m: Members) {
    forall name :: name in m && name.BlobFile? ==> c.sha(m[name]) == name.digest
  }

  predicate HasProvenance(w: Walked) {
    exists i :: 0 <= i < |w.attestations| && w.attestations[i].predicates * PROVENANCE_TYPES != {}
  }
}
