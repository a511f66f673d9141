/** The coordinator's transitions of one run, and what they make of the pending value. */
module RunTransitions {
  import opened RunHistory
  import opened RunTypes
  import opened Text

  /** A patched field: left alone, or set (possibly to null). */
  datatype Change<T> = Keep | Set(value: T)

  function Patched<T>(was: T, change: Change<T>): T {
    if change.Set? then change.value else was
  }

  /** `snapshotPatch`; `rewritesCatalog` says that one of the three catalog fields is present. */
  datatype Patch = Patch(
    pendingUserInputId: Change<Option<string>>,
    contextSnapshotId: Change<Option<string>>,
    pendingChangeSetId: Change<Option<string>>,
    pendingChangeSetRevision: Change<Option<int>>,
    pendingChangeSetChecksum: Change<Option<string>>,
    pendingToolApproval: Change<Option<ToolApproval>>,
    planExecutionId: Change<Option<string>>,
    planExecutionRevision: Change<Option<int>>,
    activeErrorId: Change<Option<string>>,
    recoveryState: Change<RecoveryState>,
    session: Change<string>,
    rewritesCatalog: bool,
    finishReport: Change<Option<Report>>
  )

  const NO_PATCH := Patch(Keep, Keep, Keep, Keep, Keep, Keep, Keep, Keep, Keep, Keep, Keep, false, Keep)

  datatype Input = Input(runId: string, status: Status, kind: EventType, detail: Detail, patch: Patch)

  /** What the audit call records: the status stays. */
  function AuditInput(s: Snapshot, kind: EventType, detail: Detail): Input {
    Input(s.runId, s.status, kind, detail, NO_PATCH)
  }

  datatype Code =
    | ScopeInvalid | ConversationIdInvalid | AlreadyActive | RevisionConflict
    | WritePolicyInvalid | WritePolicyNotAvailable | WritePolicyAckRequired | PromptCacheIdentityInvalid
    | StartFactsInvalid | StartInvalid | PolicyDraftRequired
    | RunNotFound | AlreadyTerminal | FinishRequired | NotTerminal | AuditEventInvalid | RestoreInvalid
    | ImmutableField | PendingInvalid | CapabilityChangeInvalid | SnapshotInvalid | CommitInvalid
    | FinishInvalid | FinishPending | FinishRecoveryActive
    | EvidenceMissing | EvidenceMismatch | VerificationUnproven | EvidenceInvalid

  datatype Transition = Moved(snapshot: Snapshot, event: Event) | Refused(code: Code)

  predicate IsBoundary(status: Status) {
    IsTerminal(status) || status.CapabilityChangedStatus?
  }

  /** The patch, the status and the counters; a boundary drops everything that is pending. */
  function Flattened(s: Snapshot, input: Input, timestamp: string): Snapshot {
    var p := input.patch;
    var ends := IsBoundary(input.status);
    s.(status := input.status,
       runRevision := s.runRevision + 1,
       lastSequence := s.lastSequence + 1,
       updatedAt := timestamp,
       pendingUserInputId := if ends then None else Patched(s.pendingUserInputId, p.pendingUserInputId),
       contextSnapshotId := Patched(s.contextSnapshotId, p.contextSnapshotId),
       pendingChangeSetId := if ends then None else Patched(s.pendingChangeSetId, p.pendingChangeSetId),
       pendingChangeSetRevision := if ends then None else Patched(s.pendingChangeSetRevision, p.pendingChangeSetRevision),
       pendingChangeSetChecksum := if ends then None else Patched(s.pendingChangeSetChecksum, p.pendingChangeSetChecksum),
       pendingToolApproval := if ends then None else Patched(s.pendingToolApproval, p.pendingToolApproval),
       planExecutionId := Patched(s.planExecutionId, p.planExecutionId),
       planExecutionRevision := Patched(s.planExecutionRevision, p.planExecutionRevision),
       activeErrorId := Patched(s.activeErrorId, p.activeErrorId),
       recoveryState := Patched(s.recoveryState, p.recoveryState),
       session := Patched(s.session, p.session))
  }

  /** `pendingKindMatchesStatus`. */
  predicate Waits(p: Pending, status: Status) {
    match p
    case UserInput(_) => status.AwaitingUserInput?
    case WriteApproval(_, _, _) => status.AwaitingWriteApproval?
    case ContextShareApproval(_) => status.AwaitingContextShareApproval?
    case ToolApprovalPending(_) => status.AwaitingToolApproval?
    case ExternalOutcomeResolution(_) => status.AwaitingExternalOutcomeResolution?
    case StaleContext(_) => status.AwaitingContextRefresh? || status.ContextStaleStatus?
    case PlanDecision(_, _) => status.PlanReadyStatus? || status.AwaitingPlanDecision?
    case PlanRevision(_, _, _) => status.AwaitingPlanRevision?
    case RecoveryRequired(_) => status.RecoveryRequiredStatus?
    case NonePending => false
  }

  /** The pending value a request event asks for. */
  function Requested(next: Snapshot, kind: EventType, detail: Detail): Option<Pending> {
    match kind
    case UserInputRequested =>
      var id := RequestIdOf(detail);
      if IsPlainSafeIdValue(id) && next.pendingUserInputId == Some(id.value.s) then Some(UserInput(id.value.s)) else None
    case ChangeSetReady =>
      var id, revision, checksum := next.pendingChangeSetId, next.pendingChangeSetRevision, next.pendingChangeSetChecksum;
      if id.Some? && IsPlainSafeId(id.value) && revision.Some? && IsPositive(revision.value) && checksum.Some? && IsSha256(checksum.value)
      then Some(WriteApproval(id.value, revision.value, checksum.value)) else None
    case ToolApprovalRequested =>
      if next.pendingToolApproval.Some? then Some(ToolApprovalPending(next.pendingToolApproval.value)) else None
    case ExternalOutcomeUnknown =>
      var id := Field(detail, "toolCallId");
      if IsPlainSafeIdValue(id) then Some(ExternalOutcomeResolution(id.value.s)) else None
    case ContextStale => Some(StaleContext(next.contextSnapshotId))
    case ContextShareApprovalRequested =>
      var id := Field(detail, "requestId");
      if IsPlainSafeIdValue(id) then Some(ContextShareApproval(id.value.s)) else None
    case PlanReady =>
      var id, revision := Field(detail, "planId"), Field(detail, "revision");
      if IsPlainSafeIdValue(id) && IsPositiveValue(revision) then Some(PlanDecision(id.value.s, revision.value.n)) else None
    case PlanRevisionRequested =>
      var id, execution, revision := Field(detail, "requestId"), Field(detail, "planExecutionId"), Field(detail, "planRevision");
      if IsPlainSafeIdValue(id) && IsPlainSafeIdValue(execution) && IsPositiveValue(revision)
      then Some(PlanRevision(id.value.s, execution.value.s, revision.value.n)) else None
    case _ => None
  }

  /** `deriveV20Pending`. */
  function DerivePending(was: Pending, next: Snapshot, kind: EventType, detail: Detail): Option<Pending> {
    if IsBoundary(next.status) then Some(NonePending)
    else if IsRequest(kind) then Requested(next, kind, detail)
    else if next.status.RecoveryRequiredStatus? then
      if next.activeErrorId.Some? && IsPlainSafeId(next.activeErrorId.value) then Some(RecoveryRequired(next.activeErrorId.value)) else None
    else if Waits(was, next.status) then Some(was)
    else Some(NonePending)
  }

  /** The capabilities after a capability boundary: a newer revision and a stable reason. */
  function ChangedCapabilities(was: Capabilities, detail: Detail): Option<Capabilities> {
    var revision, reason := Field(detail, "effectiveCapabilityRevision"), Field(detail, "reason");
    if revision.Some? && revision.value.Number? && was.revision < revision.value.n <= MAX_SAFE_INTEGER && IsPlainTextValue(reason)
    then Some(Capabilities(revision.value.n, Changed, Some(reason.value.s))) else None
  }

  function ToEvent(s: Snapshot, kind: EventType, createdAt: string, detail: Detail): Event {
    Event(s.runId, s.scope, s.lastSequence, s.runRevision, kind, createdAt, detail)
  }

  function Committed(rules: Rules, s: Snapshot, kind: EventType, timestamp: string, detail: Detail): Transition {
    var event := ToEvent(s, kind, timestamp, detail);
    if !IsSnapshot(rules, s) then Refused(SnapshotInvalid)
    else if !IsPair(rules, s, event) then Refused(CommitInvalid)
    else Moved(s, event)
  }

  /** `transitionRunState`, for a run of version 2.0. */
  function Move(rules: Rules, s: Snapshot, input: Input, timestamp: string): Transition {
    if input.patch.rewritesCatalog || input.patch.finishReport.Set? then Refused(ImmutableField)
    else
      var flat := Flattened(s, input, timestamp);
      var pending := DerivePending(s.pending, flat, input.kind, input.detail);
      var capabilities := if input.kind.CapabilityChanged? then ChangedCapabilities(s.capabilities, input.detail) else Some(s.capabilities);
      if pending.None? then Refused(PendingInvalid)
      else if capabilities.None? then Refused(CapabilityChangeInvalid)
      else Committed(rules, flat.(pending := pending.value, capabilities := capabilities.value), input.kind, timestamp, input.detail)
  }

  function FinishKind(outcome: Outcome): EventType {
    if outcome.CompletedOutcome? then RunCompleted else RunBlocked
  }

  function FinishedSnapshot(s: Snapshot, report: Report, timestamp: string): Snapshot {
    var cleared := if report.outcome.CompletedOutcome? then s.(activeErrorId := None, recoveryState := NoRecovery) else s;
    cleared.(status := OutcomeStatus(report.outcome),
             pendingUserInputId := None,
             pendingChangeSetId := None,
             pendingChangeSetRevision := None,
             pendingChangeSetChecksum := None,
             pendingToolApproval := None,
             pending := NonePending,
             finishReport := Some(report),
             finish := Finish(Finished(report.outcome), Some(report)),
             runRevision := s.runRevision + 1,
             lastSequence := s.lastSequence + 1,
             updatedAt := timestamp)
  }

  /** `transitionRunFinish`, for a run of version 2.0. */
  function MoveToFinish(rules: Rules, s: Snapshot, report: Report, timestamp: string): Transition {
    Committed(rules, FinishedSnapshot(s, report, timestamp), FinishKind(report.outcome), timestamp, Some(map["finishReport" := ReportValue(report)]))
  }

  /** `validateFinishForRun`: the report is well formed, and the run is in a state that may finish. */
  function FinishProblem(rules: Rules, report: Report, s: Snapshot): Option<Code> {
    if !rules.report(report) then Some(FinishInvalid)
    else if !(s.status.PlanningModel? || s.status.ExecutingModel? || s.status.ConversationModelStatus?) then Some(FinishPending)
    else if !s.recoveryState.NoRecovery? && !s.recoveryState.Retryable? then Some(FinishRecoveryActive)
    else if s.pendingUserInputId.Some? || s.pendingChangeSetId.Some? || s.pendingToolApproval.Some? then Some(FinishPending)
    else if report.outcome.CompletedOutcome? && (!s.recoveryState.NoRecovery? || s.activeErrorId.Some?) then Some(FinishRecoveryActive)
    else None
  }

  /** `validateFinishEvidence`. */
  function EvidenceProblem(report: Report, events: seq<Event>): Option<Code> {
    if None in report.evidenceRefs then Some(EvidenceInvalid)
    else
      var refs := Refs(report);
      if exists ref :: ref in refs && !IsEvidenced(events, ref) then Some(EvidenceMissing)
      else if |report.appliedChanges| != |WriteRefs(refs)|
           || exists i | 0 <= i < |report.appliedChanges| :: !(WriteRefs(refs)[i].WriteRef? && Contains(report.appliedChanges[i], WriteRefs(refs)[i].changeSetId))
      then Some(EvidenceMismatch)
      else if |Claims(report.verification)| != |VerificationRefs(refs)| then Some(VerificationUnproven)
      else if exists claim :: claim in report.verification && claim.Cites?
                && !(claim.ref.Some? && claim.ref.value.ToolCompletedRef? && claim.ref.value in refs)
      then Some(VerificationUnproven)
      else if report.outcome.BlockedOutcome? && !exists ref :: ref in refs && (ref.ToolFailedRef? || ref.CompletionRef?) then Some(EvidenceMissing)
      else None
  }

  // ---- What callers have to keep to ----

  /** Whether a recorded event keeps the log in step with what is pending. A caller can check it before the call:
      undo events go through the audit call only; a request is made only when nothing is pending, save for the two that
      supersede; a resolution answers what is pending; any other event neither moves a run away from what it waits for
      nor into recovery while something is pending. */
  predicate IsDisciplined(s: Snapshot, input: Input) {
    && !IsAudit(input.kind)
    && if IsTerminalEvent(input.kind) || input.kind.CapabilityChanged? then true
       else if IsRequest(input.kind) then MayRaise(input.kind, Abstract(s.pending))
       else if IsResolution(input.kind) then Resolves(input.kind, input.detail, Abstract(s.pending))
       else Abstract(s.pending) == NoMarker || Waits(s.pending, input.status)
  }

  /** For one accepted transition: the replayed marker still abstracts the pending value, or the call was undisciplined. */
  lemma StepAgreesExactly(rules: Rules, s: Snapshot, input: Input, timestamp: string)
    requires Move(rules, s, input, timestamp).Moved? && !IsAudit(input.kind)
    ensures var t := Move(rules, s, input, timestamp);
      MarkerStep(Abstract(s.pending), t.event) == Some(Abstract(t.snapshot.pending)) <==> IsDisciplined(s, input)
  {
    var t := Move(rules, s, input, timestamp);
    if IsTerminalEvent(input.kind) || input.kind.CapabilityChanged? {
      EndClearsPending(rules, s, input, timestamp);
    } else if IsRequest(input.kind) {
      RequestRaisesItsMarker(rules, s, input, timestamp);
    } else {
      OtherEventAgrees(rules, s, input, timestamp);
    }
  }

  lemma EndClearsPending(rules: Rules, s: Snapshot, input: Input, timestamp: string)
    requires Move(rules, s, input, timestamp).Moved? && (IsTerminalEvent(input.kind) || input.kind.CapabilityChanged?)
    ensures Move(rules, s, input, timestamp).snapshot.pending == NonePending
  {
  }

  lemma RequestRaisesItsMarker(rules: Rules, s: Snapshot, input: Input, timestamp: string)
    requires Move(rules, s, input, timestamp).Moved? && IsRequest(input.kind)
    ensures Raised(Move(rules, s, input, timestamp).event) == Some(Abstract(Move(rules, s, input, timestamp).snapshot.pending))
  {
    var t := Move(rules, s, input, timestamp);
    RequestIsCommitted(rules, s, input, timestamp);
    RequestedIsRaised(Flattened(s, input, timestamp), t.event, t.snapshot);
  }

  /** A request that is accepted: its pending value was derived, and the committed pair agrees on it. */
  lemma RequestIsCommitted(rules: Rules, s: Snapshot, input: Input, timestamp: string)
    requires Move(rules, s, input, timestamp).Moved? && IsRequest(input.kind)
    ensures var t := Move(rules, s, input, timestamp);
      && t.event.kind == input.kind && t.event.detail == input.detail && RequestMatches(t.event, t.snapshot)
      && IsPending(t.snapshot.pending)
      && Requested(Flattened(s, input, timestamp), input.kind, input.detail) == Some(t.snapshot.pending)
  {
  }

  lemma RequestedIsRaised(flat: Snapshot, e: Event, next: Snapshot)
    requires IsRequest(e.kind) && RequestMatches(e, next) && IsPending(next.pending) && Requested(flat, e.kind, e.detail) == Some(next.pending)
    ensures Raised(e) == Some(Abstract(next.pending))
  {
  }

  lemma OtherEventAgrees(rules: Rules, s: Snapshot, input: Input, timestamp: string)
    requires Move(rules, s, input, timestamp).Moved? && !IsAudit(input.kind) && !IsRequest(input.kind)
    requires !IsTerminalEvent(input.kind) && !input.kind.CapabilityChanged?
    ensures var t := Move(rules, s, input, timestamp);
      MarkerStep(Abstract(s.pending), t.event) == Some(Abstract(t.snapshot.pending)) <==> IsDisciplined(s, input)
  {
  }
}
