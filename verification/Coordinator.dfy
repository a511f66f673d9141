/** The run coordinator: four maps, and the calls that change them. Runs are of contract version 2.0. */
module Coordinator {
  import opened RunHistory
  import opened RunTransitions
  import opened RunTypes
  import opened Text

  datatype CommandResult = Ok(snapshot: Snapshot) | Fail(code: Code, latest: Option<Snapshot>)

  /** What a start command brings; the three flags stand for checks on fields no rule below reads. */
  datatype StartCommand = StartCommand(
    scope: Option<Scope>,
    projectId: Option<string>,
    commandId: string,
    conversationId: string,
    expectedRunRevision: int,
    writePolicy: Option<string>,
    acknowledged: bool,
    operationMode: OperationMode,
    promptCacheHolds: bool,
    factsHold: bool,
    frozenFactsHold: bool,
    hasPolicyDraft: bool,
    frozen: string,
    session: string,
    catalogRevision: string,
    capabilityRevision: int,
    planExecutionId: Option<string>,
    planExecutionRevision: Option<int>
  )

  datatype StopCommand = StopCommand(runId: string, scope: Option<Scope>, projectId: Option<string>, commandId: string, expectedRunRevision: int)

  datatype FinishCommand =
    FinishCommand(runId: string, scope: Option<Scope>, projectId: Option<string>, commandId: string, expectedRunRevision: int, report: Report)

  datatype State = State(
    runs: map<string, Snapshot>,
    events: map<string, seq<Event>>,
    active: map<string, string>,
    receipts: map<string, CommandResult>
  )

  const EMPTY := State(map[], map[], map[], map[])

  /** `resolveCommandScope`. */
  function ResolveScope(scope: Option<Scope>, projectId: Option<string>): Option<Scope> {
    if scope.Some? then scope
    else if projectId.Some? && IsPlainSafeId(projectId.value) then Some(Workspace("creativeProject", projectId.value))
    else None
  }

  function StartKey(scope: Scope, commandId: string): string {
    ScopeKey(scope) + ":" + commandId
  }

  function RunKey(runId: string, scope: Scope, commandId: string): string {
    runId + ":" + ScopeKey(scope) + ":" + commandId
  }

  function Logged(st: State, id: string): seq<Event> {
    if id in st.events then st.events[id] else []
  }

  /** Why a start is refused before a run is made. */
  function StartProblem(st: State, c: StartCommand, scope: Scope): Option<Code> {
    var policy := if c.writePolicy.Some? then c.writePolicy.value else "write_before_confirmation";
    if !IsPlainSafeId(c.conversationId) then Some(ConversationIdInvalid)
    else if ScopeKey(scope) in st.active then Some(AlreadyActive)
    else if c.expectedRunRevision != 0 then Some(RevisionConflict)
    else if policy != "write_before_confirmation" && policy != "user_preapproved_run" then Some(WritePolicyInvalid)
    else if policy == "user_preapproved_run" && !c.operationMode.Execution? then Some(WritePolicyNotAvailable)
    else if policy == "user_preapproved_run" && !c.acknowledged then Some(WritePolicyAckRequired)
    else if !c.promptCacheHolds then Some(PromptCacheIdentityInvalid)
    else if !c.factsHold then Some(StartFactsInvalid)
    else if !c.frozenFactsHold then Some(StartInvalid)
    else if c.operationMode.Planning? && !c.hasPolicyDraft then Some(PolicyDraftRequired)
    else None
  }

  /** `createInitialSnapshot`. */
  function Initial(c: StartCommand, scope: Scope, runId: string, timestamp: string): Snapshot {
    var status := match c.operationMode
      case Conversation => ConversationModelStatus
      case Planning => PlanningModel
      case Execution => ExecutingModel;
    Snapshot(runId, scope, c.operationMode, c.frozen, c.catalogRevision, timestamp, status, 1, 1, timestamp,
             None, None, None, None, None, None, c.planExecutionId, c.planExecutionRevision, None, NoRecovery, c.session,
             Capabilities(c.capabilityRevision, Active, None), NonePending, Finish(NotFinished, None), None)
  }

  /** The run replaced and its log extended. */
  function Appended(st: State, next: Snapshot, event: Event): State {
    st.(runs := st.runs[next.runId := next],
        events := if next.runId in st.events then st.events[next.runId := st.events[next.runId] + [event]] else st.events)
  }

  /** What a call does to the runs: nothing, a transition, an event noted after the end, or a new run with its log. */
  datatype Effect = Nothing | Goes(next: Snapshot, event: Event) | Noted(next: Snapshot, event: Event) | Joins(run: Snapshot, log: seq<Event>)

  /** The maps after an effect: a run is active from when it joins until it is absorbed. */
  function Applied(st: State, effect: Effect): State {
    match effect
    case Nothing => st
    case Goes(next, event) =>
      Appended(st, next, event).(active := if IsAbsorbing(next) then st.active - {ScopeKey(next.scope)} else st.active)
    case Noted(next, event) => Appended(st, next, event)
    case Joins(run, log) =>
      st.(runs := st.runs[run.runId := run],
          events := st.events[run.runId := log],
          active := if IsAbsorbing(run) then st.active else st.active[ScopeKey(run.scope) := run.runId])
  }

  /** What a call answers, what it does, and the key its receipt is kept under, if any. */
  datatype Answer = Answer(effect: Effect, result: CommandResult, receipt: Option<string>)

  function Settled(st: State, answer: Answer): State {
    var after := Applied(st, answer.effect);
    if answer.receipt.Some? then after.(receipts := after.receipts[answer.receipt.value := answer.result]) else after
  }

  function Refusal(code: Code, latest: Option<Snapshot>, receipt: Option<string>): Answer {
    Answer(Nothing, Fail(code, latest), receipt)
  }

  /** The answer to a transition that was tried on `s`. */
  function Tried(s: Snapshot, t: Transition, receipt: Option<string>): Answer {
    match t
    case Refused(code) => Refusal(code, Some(s), receipt)
    case Moved(next, event) => Answer(Goes(next, event), Ok(next), receipt)
  }

  function StartAnswer(rules: Rules, st: State, c: StartCommand, runId: string, timestamp: string): Answer {
    match ResolveScope(c.scope, c.projectId)
    case None => Refusal(ScopeInvalid, None, None)
    case Some(scope) =>
      var key := StartKey(scope, c.commandId);
      if key in st.receipts then Answer(Nothing, st.receipts[key], None)
      else if StartProblem(st, c, scope).Some? then Refusal(StartProblem(st, c, scope).value, None, Some(key))
      else
        var s := Initial(c, scope, runId, timestamp);
        var event := ToEvent(s, RunStarted, timestamp, None);
        if !IsSnapshot(rules, s) then Refusal(SnapshotInvalid, None, Some(key))
        else if !IsPair(rules, s, event) then Refusal(CommitInvalid, None, Some(key))
        else Answer(Joins(s, [event]), Ok(s), Some(key))
  }

  function StopInput(s: Snapshot): Input {
    Input(s.runId, Cancelled, RunCancelled, None, NO_PATCH)
  }

  function StopAnswer(rules: Rules, st: State, c: StopCommand, timestamp: string): Answer {
    match ResolveScope(c.scope, c.projectId)
    case None => Refusal(ScopeInvalid, None, None)
    case Some(scope) =>
      var key := RunKey(c.runId, scope, c.commandId);
      if key in st.receipts then Answer(Nothing, st.receipts[key], None)
      else if c.runId !in st.runs || ScopeKey(st.runs[c.runId].scope) != ScopeKey(scope) then Refusal(RunNotFound, None, Some(key))
      else
        var s := st.runs[c.runId];
        if s.runRevision != c.expectedRunRevision then Refusal(RevisionConflict, Some(s), Some(key))
        else if IsAbsorbing(s) then Refusal(AlreadyTerminal, None, Some(key))
        else Tried(s, Move(rules, s, StopInput(s), timestamp), Some(key))
  }

  predicate NeedsFinish(input: Input) {
    || input.status.Completed? || input.status.Blocked? || input.kind.RunCompleted? || input.kind.RunBlocked?
    || input.patch.finishReport.Set?
  }

  function RecordAnswer(rules: Rules, st: State, input: Input, timestamp: string): Answer {
    if input.runId !in st.runs then Refusal(RunNotFound, None, None)
    else
      var s := st.runs[input.runId];
      if IsAbsorbing(s) then Refusal(AlreadyTerminal, None, None)
      else if NeedsFinish(input) then Refusal(FinishRequired, None, None)
      else Tried(s, Move(rules, s, input, timestamp), None)
  }

  /** Why a finish is refused before the transition is tried. */
  function FinishRefusal(rules: Rules, c: FinishCommand, s: Snapshot, log: seq<Event>): Option<CommandResult> {
    if c.scope.Some? && ScopeKey(c.scope.value) != ScopeKey(s.scope) then Some(Fail(ScopeInvalid, None))
    else if c.projectId.Some? && !(s.scope.Workspace? && c.projectId.value == s.scope.workspaceId) then Some(Fail(ScopeInvalid, None))
    else if s.runRevision != c.expectedRunRevision then Some(Fail(RevisionConflict, Some(s)))
    else if IsAbsorbing(s) then Some(Fail(AlreadyTerminal, None))
    else if FinishProblem(rules, c.report, s).Some? then Some(Fail(FinishProblem(rules, c.report, s).value, Some(s)))
    else if EvidenceProblem(c.report, log).Some? then Some(Fail(EvidenceProblem(c.report, log).value, Some(s)))
    else None
  }

  function FinishAnswer(rules: Rules, st: State, c: FinishCommand, timestamp: string): Answer {
    if c.runId !in st.runs then Refusal(RunNotFound, None, None)
    else
      var s := st.runs[c.runId];
      var key := RunKey(c.runId, s.scope, c.commandId);
      var refusal := FinishRefusal(rules, c, s, Logged(st, c.runId));
      if key in st.receipts then Answer(Nothing, st.receipts[key], None)
      else if refusal.Some? then Answer(Nothing, refusal.value, Some(key))
      else Tried(s, MoveToFinish(rules, s, c.report, timestamp), Some(key))
  }

  function AuditAnswer(rules: Rules, st: State, runId: string, kind: EventType, detail: Detail, timestamp: string): Answer {
    if runId !in st.runs then Refusal(RunNotFound, None, None)
    else
      var s := st.runs[runId];
      if !IsAbsorbing(s) then Refusal(NotTerminal, None, None)
      else if !IsAudit(kind) then Refusal(AuditEventInvalid, None, None)
      else
        match Move(rules, s, AuditInput(s, kind, detail), timestamp)
        case Refused(code) => Refusal(code, Some(s), None)
        case Moved(next, event) => Answer(Noted(next, event), Ok(next), None)
  }

  function RestoreAnswer(rules: Rules, st: State, s: Snapshot, log: seq<Event>): Answer {
    if s.runId in st.runs then Answer(Nothing, Ok(st.runs[s.runId]), None)
    else if !IsHistory(rules, s, log) then Refusal(RestoreInvalid, None, None)
    else if ScopeKey(s.scope) in st.active && !IsAbsorbing(s) then Refusal(AlreadyActive, None, None)
    else Answer(Joins(s, log), Ok(s), None)
  }

  /** `createAgentRunCoordinator`: the four mutable maps. Times and fresh run ids come in as arguments. */
  class AgentRunCoordinator {
    var runs: map<string, Snapshot>
    var events: map<string, seq<Event>>
    var active: map<string, string>
    var receipts: map<string, CommandResult>
    const rules: Rules

    ghost function Contents(): State
      reads this
    {
      State(runs, events, active, receipts)
    }

    constructor (rules: Rules)
      ensures Contents() == EMPTY && this.rules == rules
    {
      this.rules := rules;
      runs, events, active, receipts := map[], map[], map[], map[];
    }

    method StartRun(c: StartCommand, runId: string, timestamp: string) returns (result: CommandResult)
      modifies this
      ensures var answer := StartAnswer(rules, old(Contents()), c, runId, timestamp);
        result == answer.result && Contents() == Settled(old(Contents()), answer)
    {
      var scope := ResolveScope(c.scope, c.projectId);
      if scope.None? { return Fail(ScopeInvalid, None); }
      var scopeKey := ScopeKey(scope.value);
      var key := StartKey(scope.value, c.commandId);
      if key in receipts { return receipts[key]; }
      var problem := StartProblem(State(runs, events, active, receipts), c, scope.value);
      if problem.Some? {
        result := Fail(problem.value, None);
        receipts := receipts[key := result];
        return;
      }
      var snapshot := Initial(c, scope.value, runId, timestamp);
      var started := ToEvent(snapshot, RunStarted, timestamp, None);
      if !IsSnapshot(rules, snapshot) {
        result := Fail(SnapshotInvalid, None);
      } else if !IsPair(rules, snapshot, started) {
        result := Fail(CommitInvalid, None);
      } else {
        runs := runs[runId := snapshot];
        active := active[scopeKey := runId];
        events := events[runId := [started]];
        result := Ok(snapshot);
      }
      receipts := receipts[key := result];
    }

    method Append(next: Snapshot, event: Event)
      modifies this
      ensures Contents() == Appended(old(Contents()), next, event)
    {
      runs := runs[next.runId := next];
      if next.runId in events { events := events[next.runId := events[next.runId] + [event]]; }
    }

    /** Puts a transition into the maps. */
    method Store(next: Snapshot, event: Event)
      modifies this
      ensures Contents() == Applied(old(Contents()), Goes(next, event))
    {
      Append(next, event);
      if IsAbsorbing(next) { active := active - {ScopeKey(next.scope)}; }
    }

    method StopRun(c: StopCommand, timestamp: string) returns (result: CommandResult)
      modifies this
      ensures var answer := StopAnswer(rules, old(Contents()), c, timestamp);
        result == answer.result && Contents() == Settled(old(Contents()), answer)
    {
      var scope := ResolveScope(c.scope, c.projectId);
      if scope.None? { return Fail(ScopeInvalid, None); }
      var key := RunKey(c.runId, scope.value, c.commandId);
      if key in receipts { return receipts[key]; }
      if c.runId !in runs || ScopeKey(runs[c.runId].scope) != ScopeKey(scope.value) {
        result := Fail(RunNotFound, None);
      } else if runs[c.runId].runRevision != c.expectedRunRevision {
        result := Fail(RevisionConflict, Some(runs[c.runId]));
      } else if IsAbsorbing(runs[c.runId]) {
        result := Fail(AlreadyTerminal, None);
      } else {
        var snapshot := runs[c.runId];
        var transition := Move(rules, snapshot, StopInput(snapshot), timestamp);
        if transition.Refused? {
          result := Fail(transition.code, Some(snapshot));
        } else {
          Store(transition.snapshot, transition.event);
          result := Ok(transition.snapshot);
        }
      }
      receipts := receipts[key := result];
    }

    method RecordRunEvent(input: Input, timestamp: string) returns (result: CommandResult)
      modifies this
      ensures var answer := RecordAnswer(rules, old(Contents()), input, timestamp);
        result == answer.result && Contents() == Settled(old(Contents()), answer)
    {
      if input.runId !in runs { return Fail(RunNotFound, None); }
      var snapshot := runs[input.runId];
      if IsAbsorbing(snapshot) { return Fail(AlreadyTerminal, None); }
      if NeedsFinish(input) { return Fail(FinishRequired, None); }
      var transition := Move(rules, snapshot, input, timestamp);
      if transition.Refused? { return Fail(transition.code, Some(snapshot)); }
      Store(transition.snapshot, transition.event);
      result := Ok(transition.snapshot);
    }

    method RecordFinish(c: FinishCommand, timestamp: string) returns (result: CommandResult)
      modifies this
      ensures var answer := FinishAnswer(rules, old(Contents()), c, timestamp);
        result == answer.result && Contents() == Settled(old(Contents()), answer)
    {
      if c.runId !in runs { return Fail(RunNotFound, None); }
      var snapshot := runs[c.runId];
      var key := RunKey(c.runId, snapshot.scope, c.commandId);
      if key in receipts { return receipts[key]; }
      var refusal := FinishRefusal(rules, c, snapshot, if c.runId in events then events[c.runId] else []);
      if refusal.Some? {
        result := refusal.value;
      } else {
        var transition := MoveToFinish(rules, snapshot, c.report, timestamp);
        if transition.Refused? {
          result := Fail(transition.code, Some(snapshot));
        } else {
          Store(transition.snapshot, transition.event);
          result := Ok(transition.snapshot);
        }
      }
      receipts := receipts[key := result];
    }

    method RecordTerminalAuditEvent(runId: string, kind: EventType, detail: Detail, timestamp: string) returns (result: CommandResult)
      modifies this
      ensures var answer := AuditAnswer(rules, old(Contents()), runId, kind, detail, timestamp);
        result == answer.result && Contents() == Settled(old(Contents()), answer)
    {
      if runId !in runs { return Fail(RunNotFound, None); }
      var snapshot := runs[runId];
      if !IsAbsorbing(snapshot) { return Fail(NotTerminal, None); }
      if !IsAudit(kind) { return Fail(AuditEventInvalid, None); }
      var transition := Move(rules, snapshot, AuditInput(snapshot, kind, detail), timestamp);
      if transition.Refused? { return Fail(transition.code, Some(snapshot)); }
      Append(transition.snapshot, transition.event);
      result := Ok(transition.snapshot);
    }

    method RestoreRun(snapshot: Snapshot, log: seq<Event>) returns (result: CommandResult)
      modifies this
      ensures var answer := RestoreAnswer(rules, old(Contents()), snapshot, log);
        result == answer.result && Contents() == Settled(old(Contents()), answer)
    {
      if snapshot.runId in runs { return Ok(runs[snapshot.runId]); }
      var valid := ValidateHistory(rules, snapshot, log);
      if !valid { return Fail(RestoreInvalid, None); }
      if ScopeKey(snapshot.scope) in active && !IsAbsorbing(snapshot) { return Fail(AlreadyActive, None); }
      runs := runs[snapshot.runId := snapshot];
      events := events[snapshot.runId := log];
      if !IsAbsorbing(snapshot) { active := active[ScopeKey(snapshot.scope) := snapshot.runId]; }
      result := Ok(snapshot);
    }

    method ReadSnapshot(runId: string) returns (snapshot: Option<Snapshot>)
      ensures snapshot == if runId in runs then Some(runs[runId]) else None
    {
      snapshot := if runId in runs then Some(runs[runId]) else None;
    }

    method ReadEvents(runId: string) returns (log: seq<Event>)
      ensures log == Logged(Contents(), runId)
    {
      log := if runId in events then events[runId] else [];
    }
  }
}
