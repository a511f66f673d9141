/** The two request schemas whose canonical text is hashed, and what that text determines. */
module Requests {
  import opened Text
  import opened CanonicalJson

  datatype RawManifest = RawManifest(
    byteLength: nat, sha256: string, bom: string, eol: string, metadataChecksum: string,
    observedIdentity: bool, rootBindingId: string, relativeIdentity: string, fileIdentity: string)

  datatype BlobReference = BlobReference(
    contentRootBindingId: string, blobId: string, sha256: string, byteLength: nat, bom: string, eol: string)

  datatype AbsenceProof = AbsenceProof(
    rootBindingId: string, relativeIdentity: string, parentDirectoryIdentity: string, observedAt: string,
    absenceProofChecksum: string)

  /** The struct holds all three parts; `present` says which of them are in use. */
  datatype BeforeImage = BeforeImage(present: bool, manifest: RawManifest, blob: BlobReference, absenceProof: AbsenceProof)

  datatype CandidateImage = CandidateImage(manifest: RawManifest, blob: BlobReference)

  datatype MutationRequest = MutationRequest(
    operationKind: string, contentRootBindingId: string, transactionId: string, operationId: string,
    providerSemanticVersionSetChecksum: string, relativeIdentity: string, before: BeforeImage,
    candidate: CandidateImage, stagingObjectId: string)

  datatype LifecycleRequest = LifecycleRequest(
    schemaVersion: string, operationKind: string, transactionId: string, operationId: string,
    contentRootBindingId: string, relativeSource: string, relativeTarget: string, sourceFileIdentity: string,
    sourceSha256: string, targetProof: string, recoveryRootBindingId: string, recoveryGrantRevision: string,
    recoverySideEffectChecksum: string, recoveryObjectId: string, stagingObjectId: string, expectedState: string)

  function StringField(key: string, value: string, rest: Fields): Fields {
    Field(key, Str(value), rest)
  }

  function IdentityJson(m: RawManifest): Json {
    Object(Field("fileIdentity", if m.observedIdentity then Str(m.fileIdentity) else Null,
           StringField("kind", if m.observedIdentity then "observed_file" else "target",
           StringField("relativeIdentity", m.relativeIdentity,
           StringField("rootBindingId", m.rootBindingId, End)))))
  }

  function RawManifestJson(m: RawManifest): Json {
    Object(StringField("bom", m.bom,
           Field("byteLength", Number(m.byteLength),
           StringField("encoding", "utf-8",
           StringField("eol", m.eol,
           Field("identity", IdentityJson(m),
           StringField("metadataChecksum", m.metadataChecksum,
           StringField("schemaVersion", "2.0",
           StringField("sha256", m.sha256, End)))))))))
  }

  function BlobReferenceJson(b: BlobReference): Json {
    Object(StringField("blobId", b.blobId,
           StringField("bom", b.bom,
           Field("byteLength", Number(b.byteLength),
           StringField("contentRootBindingId", b.contentRootBindingId,
           StringField("encoding", "utf-8",
           StringField("eol", b.eol,
           StringField("schemaVersion", "2.0",
           StringField("sha256", b.sha256,
           StringField("storage", "main_owned_immutable_blob", End))))))))))
  }

  function AbsenceProofJson(p: AbsenceProof): Json {
    Object(StringField("absenceProofChecksum", p.absenceProofChecksum,
           StringField("kind", "absence_proof",
           StringField("observedAt", p.observedAt,
           StringField("parentDirectoryIdentity", p.parentDirectoryIdentity,
           StringField("relativeIdentity", p.relativeIdentity,
           StringField("rootBindingId", p.rootBindingId,
           StringField("schemaVersion", "2.0", End))))))))
  }

  function BeforeImageJson(b: BeforeImage): Json {
    if b.present then
      Object(Field("blob", BlobReferenceJson(b.blob),
             StringField("kind", "present",
             Field("manifest", RawManifestJson(b.manifest),
             StringField("schemaVersion", "2.0", End)))))
    else
      Object(Field("absenceProof", AbsenceProofJson(b.absenceProof),
             StringField("kind", "absent",
             StringField("schemaVersion", "2.0", End))))
  }

  function CandidateImageJson(c: CandidateImage): Json {
    Object(Field("blob", BlobReferenceJson(c.blob),
           Field("manifest", RawManifestJson(c.manifest),
           StringField("schemaVersion", "2.0", End))))
  }

  function MutationRequestJson(r: MutationRequest): Json {
    Object(Field("before", BeforeImageJson(r.before),
           Field("candidate", CandidateImageJson(r.candidate),
           StringField("contentRootBindingId", r.contentRootBindingId,
           StringField("operationId", r.operationId,
           StringField("operationKind", r.operationKind,
           StringField("providerSemanticVersionSetChecksum", r.providerSemanticVersionSetChecksum,
           StringField("relativeIdentity", r.relativeIdentity,
           StringField("schemaVersion", "2.0",
           StringField("stagingObjectId", r.stagingObjectId,
           StringField("transactionId", r.transactionId, End)))))))))))
  }

  function LifecycleRequestJson(r: LifecycleRequest): Json {
    Object(StringField("contentRootBindingId", r.contentRootBindingId,
           StringField("expectedState", r.expectedState,
           StringField("operationId", r.operationId,
           StringField("operationKind", r.operationKind,
           StringField("recoveryGrantRevision", r.recoveryGrantRevision,
           StringField("recoveryObjectId", r.recoveryObjectId,
           StringField("recoveryRootBindingId", r.recoveryRootBindingId,
           StringField("recoverySideEffectChecksum", r.recoverySideEffectChecksum,
           StringField("relativeSource", r.relativeSource,
           StringField("relativeTarget", r.relativeTarget,
           StringField("schemaVersion", r.schemaVersion,
           StringField("sourceFileIdentity", r.sourceFileIdentity,
           StringField("sourceSha256", r.sourceSha256,
           StringField("stagingObjectId", r.stagingObjectId,
           StringField("targetProof", r.targetProof,
           StringField("transactionId", r.transactionId, End)))))))))))))))))
  }

  ghost predicate AllText(v: Json)
    decreases v, 1
  {
    match v
    case Str(s) => IsText(s)
    case Object(fields) => AllFieldsText(fields)
    case _ => true
  }

  ghost predicate AllFieldsText(f: Fields)
    decreases f, 0
  {
    f.Field? ==> IsText(f.key) && AllText(f.value) && AllFieldsText(f.rest)
  }

  /** The canonical text of a request, or nothing when one of its strings is not valid UTF-8. */
  ghost function Canonical(v: Json): Option<string> {
    if AllText(v) then Some(Serialize(v)) else None
  }

  // ---------- what a request's text determines ----------

  predicate SameManifest(a: RawManifest, b: RawManifest) {
    a.(fileIdentity := "") == b.(fileIdentity := "") && (a.observedIdentity ==> a.fileIdentity == b.fileIdentity)
  }

  predicate SameBefore(a: BeforeImage, b: BeforeImage) {
    && a.present == b.present
    && (if a.present then SameManifest(a.manifest, b.manifest) && a.blob == b.blob else a.absenceProof == b.absenceProof)
  }

  /** Agreement on every field that the active variants of the two requests serialize. */
  predicate SameRequest(a: MutationRequest, b: MutationRequest) {
    && SameBefore(a.before, b.before)
    && SameManifest(a.candidate.manifest, b.candidate.manifest)
    && a.candidate.blob == b.candidate.blob
    && a.operationKind == b.operationKind && a.contentRootBindingId == b.contentRootBindingId
    && a.transactionId == b.transactionId && a.operationId == b.operationId
    && a.providerSemanticVersionSetChecksum == b.providerSemanticVersionSetChecksum
    && a.relativeIdentity == b.relativeIdentity && a.stagingObjectId == b.stagingObjectId
  }

  lemma ManifestJsonDetermines(a: RawManifest, b: RawManifest)
    ensures RawManifestJson(a) == RawManifestJson(b) <==> SameManifest(a, b)
  {
    assert IdentityJson(a) == IdentityJson(b) <==>
           a.observedIdentity == b.observedIdentity && (a.observedIdentity ==> a.fileIdentity == b.fileIdentity)
           && a.relativeIdentity == b.relativeIdentity && a.rootBindingId == b.rootBindingId;
  }

  lemma BlobJsonDetermines(a: BlobReference, b: BlobReference)
    ensures BlobReferenceJson(a) == BlobReferenceJson(b) <==> a == b
  {
  }

  lemma BeforeJsonDetermines(a: BeforeImage, b: BeforeImage)
    ensures BeforeImageJson(a) == BeforeImageJson(b) <==> SameBefore(a, b)
  {
    ManifestJsonDetermines(a.manifest, b.manifest);
    BlobJsonDetermines(a.blob, b.blob);
  }

  /** Two mutation requests have one canonical text exactly when they agree on every serialized field. */
  lemma MutationTextIsUnambiguous(a: MutationRequest, b: MutationRequest)
    requires Canonical(MutationRequestJson(a)).Some?
    ensures Canonical(MutationRequestJson(a)) == Canonical(MutationRequestJson(b)) <==> SameRequest(a, b)
  {
    var ja, jb := MutationRequestJson(a), MutationRequestJson(b);
    if Serialize(ja) == Serialize(jb) {
      SerializeIsInjective(ja, jb);
    }
    ManifestJsonDetermines(a.candidate.manifest, b.candidate.manifest);
    BlobJsonDetermines(a.candidate.blob, b.candidate.blob);
    BeforeJsonDetermines(a.before, b.before);
  }

  /** Two lifecycle requests have one canonical text exactly when they are the same request. */
  lemma LifecycleTextIsUnambiguous(a: LifecycleRequest, b: LifecycleRequest)
    requires Canonical(LifecycleRequestJson(a)).Some?
    ensures Canonical(LifecycleRequestJson(a)) == Canonical(LifecycleRequestJson(b)) <==> a == b
  {
    var ja, jb := LifecycleRequestJson(a), LifecycleRequestJson(b);
    if Serialize(ja) == Serialize(jb) {
      SerializeIsInjective(ja, jb);
    }
  }
}
