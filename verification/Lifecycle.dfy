/** The lifecycle operations as sequences of calls, and the classifier that reads their traces after a crash. */
module Lifecycle {
  import opened Text
  import opened Requests
  import opened Volume
  import opened LifecycleMarker

  const STAGING_PREFIX := ".novel-studio-stage-"
  const MOVE := "move_file"
  const DELETE := "delete_file"
  const CREATE_DIRECTORY := "create_directory"
  const ABSENT := "absent"
  const CASE_ONLY := "same_object_case_only"

  function StagingLeaf(token: string): string {
    STAGING_PREFIX + token
  }

  /** Leaves that a parsed relative path can name: the staging namespace is hard-denied. */
  predicate UserLeaf(leaf: string) {
    !(STAGING_PREFIX <= Fold(leaf))
  }

  lemma StagingLeafFolds(token: string)
    ensures Fold(StagingLeaf(token)) == STAGING_PREFIX + Fold(token)
  {
    FoldConcat(STAGING_PREFIX, token);
    assert Fold(STAGING_PREFIX) == STAGING_PREFIX;
  }

  lemma StagingIsNotUser(token: string, leaf: string)
    requires UserLeaf(leaf)
    ensures Fold(StagingLeaf(token)) != Fold(leaf)
  {
    StagingLeafFolds(token);
  }

  lemma TokensApart(a: string, b: string)
    requires Fold(a) != Fold(b)
    ensures Fold(StagingLeaf(a)) != Fold(StagingLeaf(b))
  {
    StagingLeafFolds(a);
    StagingLeafFolds(b);
    assert (STAGING_PREFIX + Fold(a))[|STAGING_PREFIX|..] == Fold(a);
    assert (STAGING_PREFIX + Fold(b))[|STAGING_PREFIX|..] == Fold(b);
  }

  const REQUEST_VERSION := "3.0"
  const MAX_PATH_LENGTH := 4096

  /** `isV2StableIdentifier(value, true)`: slashes are allowed. */
  predicate IsStableOperationId(s: string) {
    0 < |s| <= 256 && IsAlphanumeric(s[0]) && forall i | 0 <= i < |s| :: IsIdentifierChar(s[i]) || s[i] == '/'
  }

  /** `readLifecycleString`: no field is longer than its bound. */
  predicate FitsBounds(r: LifecycleRequest) {
    && |r.operationKind| <= 32 && |r.transactionId| <= 128 && |r.operationId| <= 128 && |r.contentRootBindingId| <= 128
    && |r.relativeSource| <= MAX_PATH_LENGTH && |r.relativeTarget| <= MAX_PATH_LENGTH
    && |r.sourceFileIdentity| <= 128 && |r.targetProof| <= 32
    && |r.recoveryRootBindingId| <= 128 && |r.recoveryGrantRevision| <= 128 && |r.recoverySideEffectChecksum| <= 64
    && |r.recoveryObjectId| <= 128 && |r.stagingObjectId| <= 128 && |r.expectedState| <= 32
  }

  /** `parseLifecycleRequest`. */
  predicate IsParsed(r: LifecycleRequest) {
    && FitsBounds(r)
    && r.schemaVersion == REQUEST_VERSION
    && IsStableIdentifier(r.transactionId) && IsStableOperationId(r.operationId) && IsStableIdentifier(r.contentRootBindingId)
    && IsSha256(r.sourceSha256)
    && (r.sourceFileIdentity == "" || IsStableIdentifier(r.sourceFileIdentity))
    && IsStableIdentifier(r.stagingObjectId) && r.operationKind != ""
  }

  /** A request together with what the addon resolves it against: the request's checksum, the digest function,
      the identity of each directory (looked up without regard to case) and the recovery root's identity. */
  datatype Operation = Operation(
    request: LifecycleRequest, checksum: string, digest: string -> string, directory: string -> string,
    recovery: string)
  {
    function DirectoryOf(path: string): string {
      directory(Fold(ParentPath(path)))
    }

    predicate IsCaseOnly() { request.targetProof == CASE_ONLY }

    function Source(): Name { Name(DirectoryOf(request.relativeSource), LeafOf(request.relativeSource)) }

    /** Where the object ends up: the target path, or the quarantine object in the recovery root. */
    function Target(): Name {
      if request.operationKind == DELETE then Name(recovery, request.recoveryObjectId)
      else Name(DirectoryOf(request.relativeTarget), LeafOf(request.relativeTarget))
    }

    function Home(): string {
      DirectoryOf(if request.operationKind == CREATE_DIRECTORY then request.relativeTarget else request.relativeSource)
    }

    function MarkerName(): Name { Name(Home(), StagingLeaf("lifecycle-" + request.stagingObjectId)) }

    function Stage(): Name {
      Name(Target().dir,
           StagingLeaf((if request.operationKind == CREATE_DIRECTORY then "directory-" else "case-") + request.stagingObjectId))
    }

    function Rollback(): Name { Name(Target().dir, StagingLeaf("case-rollback-" + request.stagingObjectId)) }

    function MarkerText(phase: string, identity: string): string {
      Print(Marker(checksum, phase, identity))
    }

    /** What request parsing guarantees, and path parsing of the leaves. */
    predicate WellFormed() {
      && IsSha256(checksum)
      && IsParsed(request)
      && (request.operationKind == MOVE || request.operationKind == DELETE || request.operationKind == CREATE_DIRECTORY)
      && (request.operationKind != CREATE_DIRECTORY ==> UserLeaf(LeafOf(request.relativeSource)))
      && (request.operationKind != DELETE ==> UserLeaf(LeafOf(request.relativeTarget)))
      && (request.operationKind == DELETE ==> UserLeaf(request.recoveryObjectId))
      && (request.operationKind == CREATE_DIRECTORY ==> request.targetProof == ABSENT)
    }

    /** As much of it as the marker's texts depend on. */
    predicate WritesMarkers() {
      IsSha256(checksum) && (request.sourceFileIdentity == "" || IsStableIdentifier(request.sourceFileIdentity))
    }

    predicate SameParent() {
      Fold(ParentPath(request.relativeSource)) == Fold(ParentPath(request.relativeTarget))
    }

    predicate ParentsSpelledAlike() {
      ParentPath(request.relativeSource) == ParentPath(request.relativeTarget)
    }
  }

  // ---------- observing an object ----------

  datatype Match = Absent | Match | Mismatch | Unreadable

  function ObserveFile(op: Operation, ns: Namespace, name: Name): Match {
    match Open(ns, name, File)
    case NotFound => Absent
    case UnsafePath => Absent
    case UnsafeObject => Unreadable
    case Opened(obj) =>
      if obj.id != op.request.sourceFileIdentity || op.digest(obj.bytes) != op.request.sourceSha256 then Mismatch
      else Match
  }

  function ObserveDirectory(ns: Namespace, name: Name, identity: string): Match {
    match Open(ns, name, Directory)
    case NotFound => Absent
    case UnsafePath => Absent
    case UnsafeObject => Unreadable
    case Opened(obj) => if identity == "" || obj.id != identity then Mismatch else Match
  }

  datatype MarkerReading = Missing | Torn | Readable(marker: Marker)

  /** `openLifecycleMarker`: anything but a well-formed marker of this very request is refused. */
  function ReadMarker(op: Operation, ns: Namespace): MarkerReading {
    match Open(ns, op.MarkerName(), File)
    case NotFound => Missing
    case Opened(obj) =>
      (match Parse(obj.bytes)
       case Some(m) => if m.requestChecksum == op.checksum then Readable(m) else Torn
       case None => Torn)
    case _ => Torn
  }

  // ---------- classification ----------

  datatype Verdict = Before | After | CaseIntermediate | DirectoryIntermediate | Neither | Unknown

  function Classify(op: Operation, ns: Namespace): Verdict {
    var marker := ReadMarker(op, ns);
    if marker.Torn? then Unknown
    else if op.request.operationKind == CREATE_DIRECTORY then
      var identity := if marker.Missing? then "" else marker.marker.objectIdentity;
      var target := ObserveDirectory(ns, op.Target(), identity);
      var staged := if marker.Missing? then Absent else ObserveDirectory(ns, op.Stage(), identity);
      if target == Absent && staged == Absent then Before
      else if marker.Readable? && (marker.marker.phase == AFTER || marker.marker.phase == DIRECTORY_STAGED)
              && target == Match && staged == Absent then After
      else if marker.Readable? && marker.marker.phase == DIRECTORY_STAGED && target == Absent && staged == Match
      then DirectoryIntermediate
      else if target == Unreadable || staged == Unreadable then Unknown
      else Neither
    else
      var source := ObserveFile(op, ns, op.Source());
      var target := ObserveFile(op, ns, op.Target());
      var intermediate :=
        if op.request.operationKind == MOVE && op.IsCaseOnly() then ObserveFile(op, ns, op.Stage()) else Absent;
      if source == Match && target == Absent && intermediate == Absent then Before
      else if marker.Readable? && source == Absent && target == Match && intermediate == Absent then After
      else if marker.Readable? && source == Absent && target == Absent && intermediate == Match then CaseIntermediate
      else if source == Unreadable || target == Unreadable || intermediate == Unreadable then Unknown
      else Neither
  }

  // ---------- the operations ----------

  /** `rewriteLifecycleMarker`: truncate, write, flush the data. */
  function Rewrite(op: Operation, phase: string, identity: string, rest: Plan): Plan {
    Then(Truncate(op.MarkerName()), Then(Write(op.MarkerName(), op.MarkerText(phase, identity)),
    Then(Sync(op.MarkerName()), rest)))
  }

  /** `createLifecycleMarker`. */
  function OpenMarker(op: Operation, markerId: string, rest: Plan): Plan {
    Then(Create(op.MarkerName(), Object(markerId, File, "")), Rewrite(op, PREPARED, "", rest))
  }

  function FlushBoth(op: Operation, rest: Plan): Plan {
    Then(Flush({op.Source().dir}), Then(Flush({op.Target().dir}), rest))
  }

  function MovePlan(op: Operation, markerId: string): Plan {
    OpenMarker(op, markerId, FlushBoth(op, if op.IsCaseOnly() then CaseMovePlan(op) else PlainMovePlan(op)))
  }

  function PlainMovePlan(op: Operation): Plan {
    Then(Rename(op.Source(), op.Target()), FlushBoth(op, FinishMovePlan(op)))
  }

  function CaseMovePlan(op: Operation): Plan {
    Then(Rename(op.Source(), op.Stage()), FlushBoth(op,
    Rewrite(op, CASE_INTERMEDIATE, op.request.sourceFileIdentity,
    Then(Rename(op.Stage(), op.Target()), FlushBoth(op, FinishMovePlan(op))))))
  }

  function FinishMovePlan(op: Operation): Plan {
    Rewrite(op, AFTER, op.request.sourceFileIdentity, FlushBoth(op, Done))
  }

  function QuarantinePlan(op: Operation, markerId: string): Plan {
    OpenMarker(op, markerId,
    Then(Flush({op.Source().dir}),
    Then(Rename(op.Source(), op.Target()),
    FlushBoth(op,
    Rewrite(op, AFTER, op.request.sourceFileIdentity,
    Then(Flush({op.Source().dir}), Done))))))
  }

  /** How a staged object is completed: renamed to its target, and the marker's last word. */
  function FinishStaged(op: Operation, dir: string, identity: string): Plan {
    Then(Rename(op.Stage(), op.Target()),
    Then(Flush({dir}),
    Rewrite(op, AFTER, identity, Then(Flush({dir}), Done))))
  }

  function CreateDirectoryPlan(op: Operation, markerId: string, id: string): Plan {
    OpenMarker(op, markerId,
    Then(Create(op.Stage(), Object(id, Directory, "")),
    Then(Flush({id}),
    Then(Flush({op.Home()}),
    Rewrite(op, DIRECTORY_STAGED, id,
    Then(Flush({op.Home()}),
    FinishStaged(op, op.Home(), id)))))))
  }

  /** What a move checks before it writes anything: the right object stands at the source under the exact
      spelling, and the target is either free or the same object under another spelling. */
  predicate MoveReady(op: Operation, ns: Namespace) {
    && op.request.operationKind == MOVE
    && op.request.expectedState == "wal_prepared"
    && ObserveFile(op, ns, op.Source()) == Match
    && (if op.IsCaseOnly() then
          op.SameParent() && Fold(op.Source().leaf) == Fold(op.Target().leaf) && op.Source().leaf != op.Target().leaf
        else op.request.targetProof == ABSENT && Free(ns, op.Target()))
  }

  predicate QuarantineReady(op: Operation, ns: Namespace) {
    && op.request.operationKind == DELETE
    && op.request.expectedState == "wal_prepared"
    && Free(ns, op.Target())
    && ObserveFile(op, ns, op.Source()) == Match
  }

  predicate CreateDirectoryReady(op: Operation, ns: Namespace) {
    && op.request.operationKind == CREATE_DIRECTORY
    && op.request.expectedState == "wal_prepared"
    && Free(ns, op.Target()) && Free(ns, op.Stage())
  }
}
