/** The strict 2.0 history checks: one snapshot, one snapshot with its event, and a whole log. */
module RunHistory {
  import opened RunTypes
  import opened Text

  // ---- One snapshot ----

  predicate IsPending(p: Pending) {
    match p
    case NonePending => true
    case UserInput(id) => IsSafeId(id)
    case WriteApproval(id, revision, checksum) => IsSafeId(id) && IsPositive(revision) && IsSha256(checksum)
    case ContextShareApproval(id) => IsSafeId(id)
    case ToolApprovalPending(approval) => IsApproval(approval)
    case ExternalOutcomeResolution(id) => IsSafeId(id)
    case StaleContext(id) => id.Some? ==> IsSafeId(id.value)
    case PlanDecision(id, revision) => IsSafeId(id) && IsPositive(revision)
    case PlanRevision(id, execution, revision) => IsSafeId(id) && IsSafeId(execution) && IsPositive(revision)
    case RecoveryRequired(id) => IsSafeId(id)
  }

  predicate IsApproval(a: ToolApproval) {
    && IsSafeId(a.binding.bindingId) && IsSafeId(a.binding.runId) && IsSafeId(a.binding.toolCallId)
    && IsPositive(a.binding.runRevision) && IsPositive(a.binding.effectiveCapabilityRevision)
  }

  predicate StatusRequiresPending(status: Status) {
    || status.AwaitingUserInput? || status.AwaitingWriteApproval? || status.AwaitingContextShareApproval?
    || status.AwaitingToolApproval? || status.AwaitingExternalOutcomeResolution? || status.AwaitingContextRefresh?
    || status.ContextStaleStatus? || status.PlanReadyStatus? || status.AwaitingPlanDecision?
    || status.AwaitingPlanRevision? || status.RecoveryRequiredStatus?
  }

  /** `changeSetTripleMatches`. */
  predicate ChangeSetIsWhole(s: Snapshot) {
    s.pendingChangeSetId.Some? == s.pendingChangeSetRevision.Some? == s.pendingChangeSetChecksum.Some?
  }

  /** `pendingMatchesSnapshot`. */
  predicate PendingMatches(s: Snapshot) {
    && ChangeSetIsWhole(s)
    && (s.pendingChangeSetId.Some? ==>
          s.pending.WriteApproval? || s.pending.StaleContext? || s.status.ApplyingChanges? || s.status.StoppingAfterTransaction?)
    && (!s.pending.UserInput? ==> s.pendingUserInputId.None?)
    && (!s.pending.ToolApprovalPending? ==> s.pendingToolApproval.None?)
    && match s.pending
       case UserInput(id) => s.status.AwaitingUserInput? && s.pendingUserInputId == Some(id)
       case WriteApproval(id, revision, checksum) =>
         && s.status.AwaitingWriteApproval?
         && s.pendingChangeSetId == Some(id) && s.pendingChangeSetRevision == Some(revision) && s.pendingChangeSetChecksum == Some(checksum)
       case ToolApprovalPending(approval) =>
         && s.status.AwaitingToolApproval?
         && s.pendingToolApproval == Some(approval)
         && approval.binding.runId == s.runId
         && approval.binding.runRevision < s.runRevision
         && approval.binding.effectiveCapabilityRevision == s.capabilities.revision
         && (approval.binding.taskCatalogRevision.Some? ==> approval.binding.taskCatalogRevision.value == s.catalogRevision)
       case ContextShareApproval(_) => s.status.AwaitingContextShareApproval?
       case ExternalOutcomeResolution(_) => s.status.AwaitingExternalOutcomeResolution?
       case StaleContext(id) => (s.status.AwaitingContextRefresh? || s.status.ContextStaleStatus?) && id == s.contextSnapshotId
       case PlanDecision(_, _) => s.status.PlanReadyStatus? || s.status.AwaitingPlanDecision?
       case PlanRevision(_, execution, _) => s.status.AwaitingPlanRevision? && s.planExecutionId == Some(execution)
       case RecoveryRequired(id) =>
         && s.status.RecoveryRequiredStatus? && s.activeErrorId == Some(id)
         && !s.recoveryState.NoRecovery? && !s.recoveryState.Retryable?
       case NonePending => !StatusRequiresPending(s.status)
  }

  function OutcomeStatus(outcome: Outcome): Status {
    if outcome.CompletedOutcome? then Completed else Blocked
  }

  /** `finishMatchesSnapshot`. */
  predicate FinishMatches(s: Snapshot) {
    match s.finish.state
    case NotFinished => s.finish.report.None? && s.finishReport.None? && !s.status.Completed? && !s.status.Blocked?
    case Finished(outcome) =>
      && s.status == OutcomeStatus(outcome)
      && s.finish.report.Some? && s.finish.report.value.outcome == outcome
      && s.finishReport == s.finish.report
  }

  /** `capabilitiesMatchSnapshot`. */
  predicate CapabilitiesMatch(s: Snapshot) {
    && s.capabilities.state.Changed? == s.status.CapabilityChangedStatus?
    && s.capabilities.changeReason.Some? == s.capabilities.state.Changed?
  }

  /** `validateAgentRunSnapshotV20` accepts. */
  predicate IsSnapshot(rules: Rules, s: Snapshot) {
    && rules.shape(s)
    && IsSafeId(s.runId)
    && IsPositive(s.runRevision) && 0 <= s.lastSequence <= MAX_SAFE_INTEGER
    && IsPlainText(s.startedAt) && IsPlainText(s.updatedAt)
    && IsPositive(s.capabilities.revision)
    && (s.capabilities.changeReason.Some? ==> IsPlainText(s.capabilities.changeReason.value))
    && IsPending(s.pending)
    && (s.finish.report.Some? ==> rules.report(s.finish.report.value))
    && PendingMatches(s)
    && FinishMatches(s)
    && CapabilitiesMatch(s)
  }

  // ---- One event ----

  /** `eventDetailMatchesType`. */
  predicate DetailMatches(rules: Rules, kind: EventType, detail: Detail) {
    match kind
    case RunStarted => detail.None?
    case RunCompleted => IsFinishDetail(rules, CompletedOutcome, detail)
    case RunBlocked => IsFinishDetail(rules, BlockedOutcome, detail)
    case ToolStarted => IsSafeIdValue(Field(detail, "toolCallId"))
    case ToolCompleted => IsSafeIdValue(Field(detail, "toolCallId"))
    case ToolFailed => IsSafeIdValue(Field(detail, "toolCallId"))
    case WriteApplied =>
      && IsSafeIdValue(Field(detail, "changeSetId")) && IsPositiveValue(Field(detail, "revision"))
      && IsChecksumValue(Field(detail, "checksum")) && IsSafeIdValue(Field(detail, "versionGroupId"))
    case CompletionEvidenceRecorded => IsSafeIdValue(Field(detail, "kind"))
    case UserInputRequested => IsSafeIdValue(Field(detail, "questionId")) || IsSafeIdValue(Field(detail, "requestId"))
    case ChangeSetReady =>
      IsSafeIdValue(Field(detail, "changeSetId")) && IsPositiveValue(Field(detail, "revision")) && IsChecksumValue(Field(detail, "checksum"))
    case ToolApprovalRequested => IsSafeIdValue(Field(detail, "toolCallId")) && IsSafeIdValue(BindingIdOf(detail))
    case ExternalOutcomeUnknown => IsSafeIdValue(Field(detail, "toolCallId"))
    case ContextShareApprovalRequested => IsSafeIdValue(Field(detail, "requestId"))
    case PlanReady => IsSafeIdValue(Field(detail, "planId")) && IsPositiveValue(Field(detail, "revision"))
    case PlanRevisionRequested =>
      && IsSafeIdValue(Field(detail, "requestId")) && IsSafeIdValue(Field(detail, "planExecutionId"))
      && IsPositiveValue(Field(detail, "planRevision"))
    case CapabilityChanged =>
      IsPositiveValue(Field(detail, "effectiveCapabilityRevision")) && IsPlainTextValue(Field(detail, "reason"))
    case _ => true
  }

  predicate IsFinishDetail(rules: Rules, outcome: Outcome, detail: Detail) {
    && detail.Some? && detail.value.Keys == {"finishReport"}
    && detail.value["finishReport"].ReportValue?
    && rules.report(detail.value["finishReport"].report)
    && detail.value["finishReport"].report.outcome == outcome
  }

  /** `validateAgentRunEventV20` accepts. */
  predicate IsEvent(rules: Rules, e: Event) {
    && IsSafeId(e.runId) && IsPositive(e.sequence) && IsPositive(e.runRevision) && IsPlainText(e.createdAt)
    && DetailMatches(rules, e.kind, e.detail)
  }

  // ---- A snapshot with the event that made it ----

  /** A finish event: the run has that outcome, and the event carries its very report. */
  predicate FinishEventMatches(e: Event, s: Snapshot, outcome: Outcome) {
    && s.status == OutcomeStatus(outcome)
    && s.finish.state == Finished(outcome)
    && s.finish.report.Some?
    && Field(e.detail, "finishReport") == Some(ReportValue(s.finish.report.value))
  }

  /** A request event: the snapshot waits for exactly what the event asks. */
  predicate RequestMatches(e: Event, s: Snapshot) {
    match e.kind
    case UserInputRequested =>
      s.pending.UserInput? && (Field(e.detail, "questionId") == Some(Str(s.pending.requestId)) || Field(e.detail, "requestId") == Some(Str(s.pending.requestId)))
    case ChangeSetReady =>
      && s.pending.WriteApproval?
      && Field(e.detail, "changeSetId") == Some(Str(s.pending.changeSetId))
      && Field(e.detail, "revision") == Some(Number(s.pending.revision))
      && Field(e.detail, "checksum") == Some(Str(s.pending.checksum))
    case ToolApprovalRequested =>
      && s.pending.ToolApprovalPending?
      && Field(e.detail, "toolCallId") == Some(Str(s.pending.approval.binding.toolCallId))
      && BindingIdOf(e.detail) == Some(Str(s.pending.approval.binding.bindingId))
    case ExternalOutcomeUnknown =>
      s.pending.ExternalOutcomeResolution? && Field(e.detail, "toolCallId") == Some(Str(s.pending.toolCallId))
    case ContextStale => s.pending.StaleContext? && s.pending.contextSnapshotId == s.contextSnapshotId
    case ContextShareApprovalRequested =>
      s.pending.ContextShareApproval? && Field(e.detail, "requestId") == Some(Str(s.pending.requestId))
    case PlanReady =>
      && s.pending.PlanDecision?
      && Field(e.detail, "planId") == Some(Str(s.pending.planId)) && Field(e.detail, "revision") == Some(Number(s.pending.revision))
    case PlanRevisionRequested =>
      && s.pending.PlanRevision?
      && Field(e.detail, "requestId") == Some(Str(s.pending.requestId))
      && Field(e.detail, "planExecutionId") == Some(Str(s.pending.planExecutionId))
      && Field(e.detail, "planRevision") == Some(Number(s.pending.revision))
    case _ => false
  }

  predicate IsRequest(kind: EventType) {
    || kind.UserInputRequested? || kind.ChangeSetReady? || kind.ToolApprovalRequested? || kind.ExternalOutcomeUnknown?
    || kind.ContextStale? || kind.ContextShareApprovalRequested? || kind.PlanReady? || kind.PlanRevisionRequested?
  }

  /** `eventMatchesSnapshot`. */
  predicate EventMatches(e: Event, s: Snapshot) {
    if e.kind.RunStarted? then
      && e.sequence == 1 && e.runRevision == 1 && s.pending.NonePending? && s.finish.state.NotFinished?
      && s.capabilities.state.Active? && s.startedAt == e.createdAt
    else if e.kind.RunCompleted? then FinishEventMatches(e, s, CompletedOutcome)
    else if e.kind.RunBlocked? then FinishEventMatches(e, s, BlockedOutcome)
    else if e.kind.RunCancelled? then s.status.Cancelled?
    else if e.kind.RunFailed? then s.status.Failed?
    else if e.kind.RunLimitReached? then s.status.LimitReached?
    else if IsAudit(e.kind) then IsTerminal(s.status) || s.status.CapabilityChangedStatus?
    else if IsTerminal(s.status) then false
    else if IsRequest(e.kind) then RequestMatches(e, s)
    else if e.kind.CapabilityChanged? then
      && s.status.CapabilityChangedStatus? && s.capabilities.state.Changed?
      && Field(e.detail, "effectiveCapabilityRevision") == Some(Number(s.capabilities.revision))
      && s.capabilities.changeReason.Some? && Field(e.detail, "reason") == Some(Str(s.capabilities.changeReason.value))
      && s.pending.NonePending?
    else !s.pending.NonePending? ==> e.kind.ChangeSetAutoApproved? || e.kind.ErrorRecorded?
  }

  /** `validateAgentRunStatePairV20` accepts. */
  predicate IsPair(rules: Rules, s: Snapshot, e: Event) {
    && IsSnapshot(rules, s) && IsEvent(rules, e)
    && s.runId == e.runId && s.lastSequence == e.sequence && s.runRevision == e.runRevision
    && s.scope == e.scope && s.updatedAt == e.createdAt
    && EventMatches(e, s)
  }

  // ---- Replaying what is pending ----

  datatype Marker =
    | NoMarker
    | UserInputMarker(requestId: string)
    | WriteApprovalMarker(changeSetId: string, revision: int, checksum: string)
    | ContextShareMarker(requestId: string)
    | ToolApprovalMarker(toolCallId: string, bindingId: string)
    | ExternalOutcomeMarker(toolCallId: string)
    | StaleContextMarker
    | PlanDecisionMarker(planId: string, revision: int)
    | PlanRevisionMarker(requestId: string, planExecutionId: string, revision: int)

  /** What a pending value leaves to be read off the log; a required recovery leaves nothing. */
  function Abstract(p: Pending): Marker {
    match p
    case NonePending => NoMarker
    case UserInput(id) => UserInputMarker(id)
    case WriteApproval(id, revision, checksum) => WriteApprovalMarker(id, revision, checksum)
    case ContextShareApproval(id) => ContextShareMarker(id)
    case ToolApprovalPending(approval) => ToolApprovalMarker(approval.binding.toolCallId, approval.binding.bindingId)
    case ExternalOutcomeResolution(id) => ExternalOutcomeMarker(id)
    case StaleContext(_) => StaleContextMarker
    case PlanDecision(id, revision) => PlanDecisionMarker(id, revision)
    case PlanRevision(id, execution, revision) => PlanRevisionMarker(id, execution, revision)
    case RecoveryRequired(_) => NoMarker
  }

  predicate IsResolution(kind: EventType) {
    || kind.UserInputResolved? || kind.ApprovalResolved? || kind.ToolApprovalResolved? || kind.ContextShareApprovalResolved?
    || kind.ContextRefreshed? || kind.ContextExcluded? || kind.ContextRefreshCancelled? || kind.PlanDecisionResolved? || kind.RunResumed?
  }

  /** `resolutionMatchesPending`. */
  predicate Resolves(kind: EventType, detail: Detail, m: Marker) {
    match kind
    case UserInputResolved =>
      m.UserInputMarker? && (Field(detail, "questionId") == Some(Str(m.requestId)) || Field(detail, "requestId") == Some(Str(m.requestId)))
    case ApprovalResolved =>
      && m.WriteApprovalMarker?
      && Field(detail, "changeSetId") == Some(Str(m.changeSetId)) && Field(detail, "revision") == Some(Number(m.revision))
    case ToolApprovalResolved =>
      && m.ToolApprovalMarker?
      && Field(detail, "toolCallId") == Some(Str(m.toolCallId)) && Field(detail, "bindingId") == Some(Str(m.bindingId))
    case ContextShareApprovalResolved => m.ContextShareMarker? && Field(detail, "requestId") == Some(Str(m.requestId))
    case ContextRefreshed => m.NoMarker? || m.StaleContextMarker?
    case ContextExcluded => m.NoMarker? || m.StaleContextMarker?
    case ContextRefreshCancelled => m.NoMarker? || m.StaleContextMarker?
    case PlanDecisionResolved =>
      || (m.PlanDecisionMarker? && Field(detail, "planId") == Some(Str(m.planId)) && Field(detail, "planRevision") == Some(Number(m.revision)))
      || (m.PlanRevisionMarker? && Field(detail, "requestId") == Some(Str(m.requestId)) && Field(detail, "planRevision") == Some(Number(m.revision)))
    case RunResumed =>
      || (m.ExternalOutcomeMarker? && Field(detail, "toolCallId") == Some(Str(m.toolCallId)))
      || m.NoMarker? || m.WriteApprovalMarker?
    case _ => false
  }

  /** The marker a request event raises, when its detail is well formed. */
  function Raised(e: Event): Option<Marker> {
    match e.kind
    case UserInputRequested =>
      if IsSafeIdValue(RequestIdOf(e.detail)) then Some(UserInputMarker(RequestIdOf(e.detail).value.s)) else None
    case ChangeSetReady =>
      if IsSafeIdValue(Field(e.detail, "changeSetId")) && IsPositiveValue(Field(e.detail, "revision")) && IsChecksumValue(Field(e.detail, "checksum"))
      then Some(WriteApprovalMarker(e.detail.value["changeSetId"].s, e.detail.value["revision"].n, e.detail.value["checksum"].s)) else None
    case ToolApprovalRequested =>
      if IsSafeIdValue(Field(e.detail, "toolCallId")) && IsSafeIdValue(BindingIdOf(e.detail))
      then Some(ToolApprovalMarker(e.detail.value["toolCallId"].s, BindingIdOf(e.detail).value.s)) else None
    case ExternalOutcomeUnknown =>
      if IsSafeIdValue(Field(e.detail, "toolCallId")) then Some(ExternalOutcomeMarker(e.detail.value["toolCallId"].s)) else None
    case ContextStale => Some(StaleContextMarker)
    case ContextShareApprovalRequested =>
      if IsSafeIdValue(Field(e.detail, "requestId")) then Some(ContextShareMarker(e.detail.value["requestId"].s)) else None
    case PlanReady =>
      if IsSafeIdValue(Field(e.detail, "planId")) && IsPositiveValue(Field(e.detail, "revision"))
      then Some(PlanDecisionMarker(e.detail.value["planId"].s, e.detail.value["revision"].n)) else None
    case PlanRevisionRequested =>
      if IsSafeIdValue(Field(e.detail, "requestId")) && IsSafeIdValue(Field(e.detail, "planExecutionId")) && IsPositiveValue(Field(e.detail, "planRevision"))
      then Some(PlanRevisionMarker(e.detail.value["requestId"].s, e.detail.value["planExecutionId"].s, e.detail.value["planRevision"].n)) else None
    case _ => None
  }

  /** A request may be raised over a marker: only when nothing is pending, but for the two that supersede. */
  predicate MayRaise(kind: EventType, m: Marker) {
    kind.ContextStale? || m.NoMarker? || (kind.ChangeSetReady? && m.WriteApprovalMarker?)
  }

  /** One turn of the replay loop; `None` is a history that does not add up. */
  function MarkerStep(m: Marker, e: Event): Option<Marker> {
    if IsTerminalEvent(e.kind) || e.kind.CapabilityChanged? then Some(NoMarker)
    else if IsRequest(e.kind) then if MayRaise(e.kind, m) then Raised(e) else None
    else if IsResolution(e.kind) then if Resolves(e.kind, e.detail, m) then Some(NoMarker) else None
    else Some(m)
  }

  /** The marker after the whole log. */
  function Replay(events: seq<Event>): Option<Marker> {
    if events == [] then Some(NoMarker)
    else
      match Replay(events[..|events| - 1])
      case None => None
      case Some(m) => MarkerStep(m, events[|events| - 1])
  }

  /** `pendingHistoryMatchesSnapshot`. */
  method PendingHistoryMatches(events: seq<Event>, s: Snapshot) returns (matches: bool)
    ensures matches <==> Replay(events) == Some(Abstract(s.pending))
  {
    var marker := NoMarker;
    for i := 0 to |events|
      invariant Replay(events[..i]) == Some(marker)
    {
      assert events[..i + 1][..i] == events[..i];
      var next := MarkerStep(marker, events[i]);
      if next.None? {
        ReplayFails(events, i + 1);
        return false;
      }
      marker := next.value;
    }
    assert events[..|events|] == events;
    matches := marker == Abstract(s.pending);
  }

  lemma {:induction false} ReplayFails(events: seq<Event>, at: nat)
    requires at <= |events| && Replay(events[..at]).None?
    ensures Replay(events).None?
  {
    if at == |events| {
      assert events[..at] == events;
    } else {
      ReplayFails(events[..|events| - 1], at) by { assert events[..|events| - 1][..at] == events[..at]; }
    }
  }

  // ---- The rest of the history ----

  predicate HasTerminalAt(events: seq<Event>, at: nat, s: Snapshot) {
    && at < |events| && IsTerminalEvent(events[at].kind)
    && (forall i | 0 <= i < |events| && i != at :: !IsTerminalEvent(events[i].kind))
    && (forall i | at < i < |events| :: IsAudit(events[i].kind))
    && if s.status.Completed? || s.status.Blocked? then EventMatches(events[at], s) else TerminalEventFor(s.status) == Some(events[at].kind)
  }

  /** `terminalHistoryMatchesSnapshot`: one end, of the right kind, with nothing but audit events behind it. */
  predicate TerminalHistoryMatches(events: seq<Event>, s: Snapshot) {
    if IsTerminal(s.status) then exists at | 0 <= at < |events| :: HasTerminalAt(events, at, s)
    else forall i | 0 <= i < |events| :: !IsTerminalEvent(events[i].kind)
  }

  predicate HasBoundaryAt(events: seq<Event>, at: nat, s: Snapshot) {
    && at < |events| && events[at].kind.CapabilityChanged?
    && (forall i | 0 <= i < |events| && i != at :: !events[i].kind.CapabilityChanged?)
    && (forall i | at < i < |events| :: IsAudit(events[i].kind))
    && s.capabilities.state.Changed? && EventMatches(events[at], s)
  }

  /** `capabilityHistoryMatchesSnapshot`. */
  predicate CapabilityHistoryMatches(events: seq<Event>, s: Snapshot) {
    if s.status.CapabilityChangedStatus? then exists at | 0 <= at < |events| :: HasBoundaryAt(events, at, s)
    else forall i | 0 <= i < |events| :: !events[i].kind.CapabilityChanged?
  }

  /** `events.find` by sequence. */
  function FindSequence(events: seq<Event>, sequence: int): (found: Option<Event>)
    ensures found.Some? ==> found.value in events && found.value.sequence == sequence
    ensures found.None? ==> forall e | e in events :: e.sequence != sequence
  {
    if events == [] then None
    else if events[0].sequence == sequence then Some(events[0])
    else FindSequence(events[1..], sequence)
  }

  /** The event a reference cites says what the reference says. */
  predicate Evidences(e: Event, ref: EvidenceRef) {
    match ref
    case WriteRef(_, id, revision, checksum) =>
      && e.kind.WriteApplied?
      && Field(e.detail, "changeSetId") == Some(Str(id)) && Field(e.detail, "revision") == Some(Number(revision))
      && Field(e.detail, "checksum") == Some(Str(checksum))
    case ToolCompletedRef(_, id) => e.kind.ToolCompleted? && Field(e.detail, "toolCallId") == Some(Str(id))
    case ToolFailedRef(_, id) => e.kind.ToolFailed? && Field(e.detail, "toolCallId") == Some(Str(id))
    case CompletionRef(_, kind) => e.kind.CompletionEvidenceRecorded? && Field(e.detail, "kind") == Some(Str(kind))
  }

  predicate IsEvidenced(events: seq<Event>, ref: EvidenceRef) {
    FindSequence(events, ref.sequence).Some? && Evidences(FindSequence(events, ref.sequence).value, ref)
  }

  function Refs(report: Report): seq<EvidenceRef>
    requires None !in report.evidenceRefs
  {
    seq(|report.evidenceRefs|, i requires 0 <= i < |report.evidenceRefs| => report.evidenceRefs[i].value)
  }

  function WriteRefs(refs: seq<EvidenceRef>): seq<EvidenceRef> {
    if refs == [] then [] else (if refs[0].WriteRef? then [refs[0]] else []) + WriteRefs(refs[1..])
  }

  function VerificationRefs(refs: seq<EvidenceRef>): seq<EvidenceRef> {
    if refs == [] then [] else (if refs[0].ToolCompletedRef? then [refs[0]] else []) + VerificationRefs(refs[1..])
  }

  function Claims(claims: seq<Claim>): seq<Claim> {
    if claims == [] then [] else (if claims[0].Cites? then [claims[0]] else []) + Claims(claims[1..])
  }

  /** `String.prototype.includes`. */
  predicate Contains(text: string, part: string) {
    exists i | 0 <= i <= |text| :: part <= text[i..]
  }

  /** What a report claims agrees with what it cites. */
  predicate ClaimsAreCited(report: Report, refs: seq<EvidenceRef>) {
    && |report.appliedChanges| == |WriteRefs(refs)|
    && (forall i | 0 <= i < |report.appliedChanges| :: WriteRefs(refs)[i].WriteRef? && Contains(report.appliedChanges[i], WriteRefs(refs)[i].changeSetId))
    && |Claims(report.verification)| == |VerificationRefs(refs)|
    && (forall claim | claim in report.verification && claim.Cites? ::
          claim.ref.Some? && claim.ref.value.ToolCompletedRef? && claim.ref.value in refs)
    && (report.outcome.BlockedOutcome? ==> exists ref :: ref in refs && (ref.ToolFailedRef? || ref.CompletionRef?))
  }

  /** The event a report ends the run with. */
  predicate IsFinishAt(events: seq<Event>, at: nat) {
    && at < |events| && (events[at].kind.RunCompleted? || events[at].kind.RunBlocked?)
    && forall i | 0 <= i < at :: !events[i].kind.RunCompleted? && !events[i].kind.RunBlocked?
  }

  /** `finishEvidenceMatchesHistory`: every reference is to an earlier event that bears it out. */
  predicate FinishEvidenceMatches(events: seq<Event>, s: Snapshot) {
    s.finish.report.Some? ==>
      && None !in s.finish.report.value.evidenceRefs
      && (exists at | 0 <= at < |events| :: IsFinishAt(events, at) &&
            forall ref | ref in Refs(s.finish.report.value) :: ref.sequence < events[at].sequence && IsEvidenced(events, ref))
      && ClaimsAreCited(s.finish.report.value, Refs(s.finish.report.value))
  }

  /** The log counts sequence and revision up from one, for this run and in its scope. */
  predicate IsNumbered(events: seq<Event>, s: Snapshot) {
    forall i | 0 <= i < |events| ::
      events[i].runId == s.runId && events[i].scope == s.scope && events[i].sequence == i + 1 && events[i].runRevision == i + 1
  }

  predicate EndsAt(events: seq<Event>, s: Snapshot) {
    && events != [] && events[0].kind.RunStarted?
    && s.lastSequence == s.runRevision == |events|
    && events[|events| - 1].createdAt == s.updatedAt
  }

  predicate AllEvents(rules: Rules, events: seq<Event>) {
    forall i | 0 <= i < |events| :: IsEvent(rules, events[i])
  }

  /** `validateAgentRunHistoryV20` accepts. */
  predicate IsHistory(rules: Rules, s: Snapshot, events: seq<Event>) {
    IsLog(rules, s, events) && FinishEvidenceMatches(events, s)
  }

  /** The log leads to the snapshot, leaving aside what a finish report cites. */
  predicate IsLog(rules: Rules, s: Snapshot, events: seq<Event>) {
    && IsSnapshot(rules, s) && AllEvents(rules, events)
    && IsNumbered(events, s) && EndsAt(events, s)
    && TerminalHistoryMatches(events, s)
    && Replay(events) == Some(Abstract(s.pending))
    && CapabilityHistoryMatches(events, s)
  }

  /** The first loop of `validateAgentRunHistoryV20`: sequences by position, revisions by the one before. */
  method CheckEvents(rules: Rules, s: Snapshot, events: seq<Event>) returns (valid: bool)
    ensures valid ==> AllEvents(rules, events) && (events != [] && events[0].runRevision == 1 ==> IsNumbered(events, s))
    ensures !valid ==> !AllEvents(rules, events) || !IsNumbered(events, s) || !EndsAt(events, s)
  {
    for i := 0 to |events|
      invariant forall j | 0 <= j < i :: IsEvent(rules, events[j])
      invariant forall j | 0 <= j < i :: events[j].runId == s.runId && events[j].scope == s.scope && events[j].sequence == j + 1
      invariant forall j | 0 <= j < i :: events[j].runRevision == events[0].runRevision + j
    {
      var e := events[i];
      if !IsEvent(rules, e) { return false; }
      if e.runId != s.runId || e.scope != s.scope || e.sequence != i + 1
         || (i > 0 && e.runRevision != events[i - 1].runRevision + 1) || e.runRevision > s.runRevision {
        return false;
      }
    }
    valid := true;
  }

  /** `validateAgentRunHistoryV20`. */
  method ValidateHistory(rules: Rules, s: Snapshot, events: seq<Event>) returns (valid: bool)
    ensures valid <==> IsHistory(rules, s, events)
  {
    if !IsSnapshot(rules, s) { return false; }
    var checked := CheckEvents(rules, s, events);
    if !checked { return false; }
    if events == [] { return false; }
    var last := events[|events| - 1];
    if !events[0].kind.RunStarted? || events[0].sequence != 1 || events[0].runRevision != 1 { return false; }
    if last.sequence != s.lastSequence || last.runRevision != s.runRevision || last.createdAt != s.updatedAt { return false; }
    if !TerminalHistoryMatches(events, s) { return false; }
    var pending := PendingHistoryMatches(events, s);
    if !pending { return false; }
    valid := CapabilityHistoryMatches(events, s) && FinishEvidenceMatches(events, s);
  }
}
