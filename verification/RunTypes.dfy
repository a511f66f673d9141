/** Agent runs of contract version 2.0: the values a coordinator keeps and the events it logs. */
module RunTypes {
  import opened Text

  datatype Status =
    | Created | PlanningModel | ExecutingModel | ExecutingReadTool | StagingChanges
    | AwaitingWriteApproval | AwaitingContextShareApproval | ApplyingChanges | StoppingAfterTransaction
    | AwaitingUserInput | AwaitingContextRefresh | ContextStaleStatus | ContextCompacting
    | AwaitingPlanRevision | AwaitingPlanDecision | AwaitingToolApproval | AwaitingExternalOutcomeResolution
    | RecoveryRequiredStatus | PlanReadyStatus | ConversationModelStatus
    | Completed | Blocked | Cancelled | Failed | LimitReached | CapabilityChangedStatus

  datatype EventType =
    | RunStarted | AssistantTextDelta | AssistantTextCompleted
    | ToolStarted | ToolCompleted | ToolFailed | ToolRetryRequested
    | UserInputRequested | UserInputResolved
    | ContextStale | ContextRefreshed | ContextExcluded | ContextRefreshCancelled
    | RunResumed | PlanReady | PlanDecisionResolved | PlanExecutionStarted
    | ChangeSetReady | ChangeSetAutoApproved | ApprovalResolved
    | WriteStarted | WriteApplied | WriteFailed
    | RunUndoStarted | RunUndoReviewRequired | RunUndone | RunUndoFailed
    | RunCompleted | RunBlocked | RunCancelled | RunFailed | RunLimitReached
    | ContextCompactionStarted | ContextCompactionCompleted | ContextCompactionFailed
    | PermissionSummaryReady | UsageUpdated
    | PlanStepStarted | PlanStepCompleted | PlanStepBlocked | PlanStepSkipped | PlanDeviationRecorded | PlanRevisionRequested
    | ErrorRecorded | ToolApprovalRequested | ToolApprovalResolved | CapabilityRevoked | ProcessOutput
    | ExternalOutcomeUnknown | ConversationModel | CompletionEvidenceRecorded
    | CapabilityChanged | ContextShareApprovalRequested | ContextShareApprovalResolved

  predicate IsTerminal(status: Status) {
    status.Completed? || status.Blocked? || status.Cancelled? || status.Failed? || status.LimitReached?
  }

  predicate IsTerminalEvent(kind: EventType) {
    kind.RunCompleted? || kind.RunBlocked? || kind.RunCancelled? || kind.RunFailed? || kind.RunLimitReached?
  }

  /** The only events that may follow the end of a run. */
  predicate IsAudit(kind: EventType) {
    kind.RunUndoStarted? || kind.RunUndoReviewRequired? || kind.RunUndone? || kind.RunUndoFailed?
  }

  function TerminalEventFor(status: Status): Option<EventType> {
    match status
    case Completed => Some(RunCompleted)
    case Blocked => Some(RunBlocked)
    case Cancelled => Some(RunCancelled)
    case Failed => Some(RunFailed)
    case LimitReached => Some(RunLimitReached)
    case _ => None
  }

  datatype Scope = Standalone | Workspace(workspaceKind: string, workspaceId: string)

  /** `agentContextScopeKey`. */
  function ScopeKey(scope: Scope): string {
    match scope
    case Standalone => "standalone"
    case Workspace(kind, id) => "workspace:" + kind + ":" + id
  }

  datatype ToolBinding = ToolBinding(
    bindingId: string,
    runId: string,
    runRevision: int,
    toolCallId: string,
    effectiveCapabilityRevision: int,
    taskCatalogRevision: Option<string>
  )

  datatype ToolApproval = ToolApproval(binding: ToolBinding, request: string)

  datatype EvidenceRef =
    | WriteRef(sequence: int, changeSetId: string, revision: int, checksum: string)
    | ToolCompletedRef(sequence: int, toolCallId: string)
    | ToolFailedRef(sequence: int, toolCallId: string)
    | CompletionRef(sequence: int, evidenceKind: string)

  datatype Outcome = CompletedOutcome | BlockedOutcome

  /** A verification claim: an explicit "not-run:" statement, or a citation that may or may not parse. */
  datatype Claim = NotRun | Cites(ref: Option<EvidenceRef>)

  /** A finish report with its references parsed; a reference that does not parse is `None`. */
  datatype Report = Report(
    outcome: Outcome,
    appliedChanges: seq<string>,
    verification: seq<Claim>,
    evidenceRefs: seq<Option<EvidenceRef>>,
    prose: string
  )

  /** The JSON an event carries; a finish report is kept as a value of its own. */
  datatype Json = Null | Bool(b: bool) | Number(n: int) | Str(s: string) | Obj(fields: map<string, Json>) | ReportValue(report: Report)

  type Detail = Option<map<string, Json>>

  function Field(detail: Detail, name: string): Option<Json> {
    if detail.Some? && name in detail.value then Some(detail.value[name]) else None
  }

  predicate IsNullish(value: Option<Json>) {
    value.None? || value.value.Null?
  }

  /** `detail?.questionId ?? detail?.requestId`. */
  function RequestIdOf(detail: Detail): Option<Json> {
    if IsNullish(Field(detail, "questionId")) then Field(detail, "requestId") else Field(detail, "questionId")
  }

  /** `detail?.binding` when it is an object, and its `bindingId`. */
  function BindingIdOf(detail: Detail): Option<Json> {
    var binding := Field(detail, "binding");
    if binding.Some? && binding.value.Obj? then Field(Some(binding.value.fields), "bindingId") else None
  }

  datatype Pending =
    | NonePending
    | UserInput(requestId: string)
    | WriteApproval(changeSetId: string, revision: int, checksum: string)
    | ContextShareApproval(requestId: string)
    | ToolApprovalPending(approval: ToolApproval)
    | ExternalOutcomeResolution(toolCallId: string)
    | StaleContext(contextSnapshotId: Option<string>)
    | PlanDecision(planId: string, revision: int)
    | PlanRevision(requestId: string, planExecutionId: string, revision: int)
    | RecoveryRequired(recoveryId: string)

  datatype CapabilityState = Active | Changed

  datatype Capabilities = Capabilities(revision: int, state: CapabilityState, changeReason: Option<string>)

  datatype FinishState = NotFinished | Finished(outcome: Outcome)

  datatype Finish = Finish(state: FinishState, report: Option<Report>)

  datatype RecoveryState = NoRecovery | Retryable | RecoveryAwaitingContextRefresh | RecoveryReview | RecoveryTerminal

  datatype OperationMode = Conversation | Planning | Execution

  /** `frozen` stands for everything fixed at the start, `session` for the patchable fields no rule below reads. */
  datatype Snapshot = Snapshot(
    runId: string,
    scope: Scope,
    operationMode: OperationMode,
    frozen: string,
    catalogRevision: string,
    startedAt: string,
    status: Status,
    runRevision: int,
    lastSequence: int,
    updatedAt: string,
    pendingUserInputId: Option<string>,
    contextSnapshotId: Option<string>,
    pendingChangeSetId: Option<string>,
    pendingChangeSetRevision: Option<int>,
    pendingChangeSetChecksum: Option<string>,
    pendingToolApproval: Option<ToolApproval>,
    planExecutionId: Option<string>,
    planExecutionRevision: Option<int>,
    activeErrorId: Option<string>,
    recoveryState: RecoveryState,
    session: string,
    capabilities: Capabilities,
    pending: Pending,
    finish: Finish,
    finishReport: Option<Report>
  )

  datatype Event = Event(
    runId: string,
    scope: Scope,
    sequence: int,
    runRevision: int,
    kind: EventType,
    createdAt: string,
    detail: Detail
  )

  /** Ended, or stopped at a capability boundary: nothing but audit events can follow. */
  predicate IsAbsorbing(s: Snapshot) {
    IsTerminal(s.status) || s.status.CapabilityChangedStatus?
  }

  predicate IsPositive(n: int) {
    0 < n <= MAX_SAFE_INTEGER
  }

  /** The identifiers of the 2.0 contract; the coordinator's own excludes the dot. */
  predicate IsSafeId(s: string) {
    0 < |s| <= 128 && IsAlphanumeric(s[0]) && forall i | 0 <= i < |s| :: IsAlphanumeric(s[i]) || s[i] in "._-"
  }

  predicate IsPlainSafeId(s: string) {
    IsSafeId(s) && '.' !in s
  }

  predicate IsSafeIdValue(value: Option<Json>) {
    value.Some? && value.value.Str? && IsSafeId(value.value.s)
  }

  predicate IsPlainSafeIdValue(value: Option<Json>) {
    value.Some? && value.value.Str? && IsPlainSafeId(value.value.s)
  }

  predicate IsPositiveValue(value: Option<Json>) {
    value.Some? && value.value.Number? && IsPositive(value.value.n)
  }

  predicate IsChecksumValue(value: Option<Json>) {
    value.Some? && value.value.Str? && IsSha256(value.value.s)
  }

  /** `isNonEmptyString`: bounded and free of ASCII control characters. */
  predicate IsPlainText(s: string) {
    0 < |s| <= 4096 && forall i | 0 <= i < |s| :: s[i] > 31 as char && s[i] != 127 as char
  }

  predicate IsPlainTextValue(value: Option<Json>) {
    value.Some? && value.value.Str? && IsPlainText(value.value.s)
  }

  /** What stays uninterpreted: the checks on fields no rule reads, and the prose rules of a finish report. */
  datatype Rules = Rules(shape: Snapshot -> bool, report: Report -> bool)
}
