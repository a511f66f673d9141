/** Whole lives of a coordinator: the invariant, the receipts, and what a restart accepts. */
module CoordinatorRuns {
  import opened Coordinator
  import opened CoordinatorGuarantees
  import opened RunHistory
  import opened RunReplay
  import opened RunTransitions
  import opened RunTypes
  import opened Text

  predicate AllFresh(rules: Rules, st: State, calls: seq<Call>) {
    forall i | 0 <= i < |calls| :: IsFresh(After(rules, st, calls[..i]), calls[i])
  }

  lemma FreshPrefix(rules: Rules, st: State, calls: seq<Call>)
    requires AllFresh(rules, st, calls) && calls != []
    ensures AllFresh(rules, st, calls[..|calls| - 1])
    ensures IsFresh(After(rules, st, calls[..|calls| - 1]), calls[|calls| - 1])
  {
    var before := calls[..|calls| - 1];
    forall i | 0 <= i < |before| ensures IsFresh(After(rules, st, before[..i]), before[i]) {
      assert before[..i] == calls[..i];
      assert IsFresh(After(rules, st, calls[..i]), calls[i]);
    }
  }

  lemma EmptyIsConsistent(rules: Rules)
    ensures IsConsistent(rules, EMPTY)
  {
  }

  /** Over every sequence of calls, given fresh run ids: the active map stays exact, logs stay numbered and only grow,
      an absorbed run keeps its status, and receipts stay. */
  lemma {:induction false} CallsKeepConsistent(rules: Rules, st: State, calls: seq<Call>)
    requires IsConsistent(rules, st) && AllFresh(rules, st, calls)
    ensures IsConsistent(rules, After(rules, st, calls)) && Extends(st, After(rules, st, calls))
  {
    if calls != [] {
      var before := After(rules, st, calls[..|calls| - 1]);
      FreshPrefix(rules, st, calls);
      CallsKeepConsistent(rules, st, calls[..|calls| - 1]);
      StepKeepsConsistent(rules, before, calls[|calls| - 1]);
      ExtendsTransitively(st, before, After(rules, st, calls));
    }
  }

  // ---- Receipts ----

  /** The key under which a command's answer is kept. */
  function ReceiptKey(st: State, call: Call): Option<string> {
    match call
    case StartCall(c, _, _) =>
      var scope := ResolveScope(c.scope, c.projectId);
      if scope.Some? then Some(StartKey(scope.value, c.commandId)) else None
    case StopCall(c, _) =>
      var scope := ResolveScope(c.scope, c.projectId);
      if scope.Some? then Some(RunKey(c.runId, scope.value, c.commandId)) else None
    case FinishCall(c, _) => if c.runId in st.runs then Some(RunKey(c.runId, st.runs[c.runId].scope, c.commandId)) else None
    case _ => None
  }

  /** A command with a receipt is answered from it, and changes nothing. */
  lemma ReceiptAnswers(rules: Rules, st: State, call: Call)
    requires ReceiptKey(st, call).Some? && ReceiptKey(st, call).value in st.receipts
    ensures AnswerOf(rules, st, call).result == st.receipts[ReceiptKey(st, call).value]
    ensures Step(rules, st, call) == st
  {
  }

  lemma StartLeavesReceipt(rules: Rules, st: State, c: StartCommand, runId: string, timestamp: string)
    requires ResolveScope(c.scope, c.projectId).Some?
    ensures var key := StartKey(ResolveScope(c.scope, c.projectId).value, c.commandId);
      var answer := StartAnswer(rules, st, c, runId, timestamp);
      key in Settled(st, answer).receipts && Settled(st, answer).receipts[key] == answer.result
  {
  }

  lemma StopLeavesReceipt(rules: Rules, st: State, c: StopCommand, timestamp: string)
    requires ResolveScope(c.scope, c.projectId).Some?
    ensures var key := RunKey(c.runId, ResolveScope(c.scope, c.projectId).value, c.commandId);
      var answer := StopAnswer(rules, st, c, timestamp);
      key in Settled(st, answer).receipts && Settled(st, answer).receipts[key] == answer.result
  {
  }

  lemma FinishLeavesReceipt(rules: Rules, st: State, c: FinishCommand, timestamp: string)
    requires c.runId in st.runs
    ensures var key := RunKey(c.runId, st.runs[c.runId].scope, c.commandId);
      var answer := FinishAnswer(rules, st, c, timestamp);
      key in Settled(st, answer).receipts && Settled(st, answer).receipts[key] == answer.result
  {
  }

  /** Every answer to a keyed command is kept. */
  lemma AnswerIsKept(rules: Rules, st: State, call: Call)
    requires ReceiptKey(st, call).Some?
    ensures ReceiptKey(st, call).value in Step(rules, st, call).receipts
    ensures Step(rules, st, call).receipts[ReceiptKey(st, call).value] == AnswerOf(rules, st, call).result
  {
    match call {
      case StartCall(c, runId, timestamp) => StartLeavesReceipt(rules, st, c, runId, timestamp);
      case StopCall(c, timestamp) => StopLeavesReceipt(rules, st, c, timestamp);
      case FinishCall(c, timestamp) => FinishLeavesReceipt(rules, st, c, timestamp);
      case _ =>
    }
  }

  lemma KeyIsStable(st: State, later: State, call: Call)
    requires Extends(st, later) && ReceiptKey(st, call).Some?
    ensures ReceiptKey(later, call) == ReceiptKey(st, call)
  {
  }

  /** Replaying a command, whatever happened in between, returns the first answer and alters nothing. */
  lemma ReplayReturnsFirstAnswer(rules: Rules, st: State, call: Call, calls: seq<Call>)
    requires IsConsistent(rules, st) && IsFresh(st, call) && ReceiptKey(st, call).Some?
    requires AllFresh(rules, Step(rules, st, call), calls)
    ensures var later := After(rules, Step(rules, st, call), calls);
      AnswerOf(rules, later, call).result == AnswerOf(rules, st, call).result && Step(rules, later, call) == later
  {
    var next := Step(rules, st, call);
    var later := After(rules, next, calls);
    StepKeepsConsistent(rules, st, call);
    CallsKeepConsistent(rules, next, calls);
    AnswerIsKept(rules, st, call);
    KeyIsStable(st, next, call);
    KeyIsStable(next, later, call);
    ReceiptAnswers(rules, later, call);
  }

  // ---- Restarting ----

  /** The rule for events that are recorded; calls that are refused, and all other calls, need none. */
  predicate KeepsDiscipline(rules: Rules, st: State, call: Call) {
    call.RecordCall? && RecordAnswer(rules, st, call.input, call.timestamp).effect.Goes? ==>
      call.input.runId in st.runs && IsDisciplined(st.runs[call.input.runId], call.input)
  }

  lemma DisciplinedMoveRestores(rules: Rules, st: State, s: Snapshot, input: Input, timestamp: string)
    requires s.runId in st.events && IsRestorable(rules)(s.runId, s, st.events[s.runId])
    requires !IsAbsorbing(s) && (Move(rules, s, input, timestamp).Moved? ==> IsDisciplined(s, input))
    ensures HoldsAfter(st, s, Move(rules, s, input, timestamp), IsRestorable(rules))
  {
    if Move(rules, s, input, timestamp).Moved? {
      MoveKeepsFinish(rules, s, input, timestamp);
      RecordKeepsHistoryExactly(rules, s, st.events[s.runId], input, timestamp);
    }
  }

  lemma FinishRestores(rules: Rules, st: State, s: Snapshot, report: Report, timestamp: string)
    requires s.runId in st.events && IsRestorable(rules)(s.runId, s, st.events[s.runId])
    requires !IsAbsorbing(s) && EvidenceProblem(report, st.events[s.runId]).None?
    ensures HoldsAfter(st, s, MoveToFinish(rules, s, report, timestamp), IsRestorable(rules))
  {
    if MoveToFinish(rules, s, report, timestamp).Moved? {
      FinishStays(rules, s, report, timestamp);
      FinishKeepsHistory(rules, s, st.events[s.runId], report, timestamp);
    }
  }

  lemma AuditRestores(rules: Rules, st: State, s: Snapshot, kind: EventType, detail: Detail, timestamp: string)
    requires s.runId in st.events && IsRestorable(rules)(s.runId, s, st.events[s.runId])
    requires IsAbsorbing(s) && IsAudit(kind)
    ensures HoldsAfter(st, s, Move(rules, s, AuditInput(s, kind, detail), timestamp), IsRestorable(rules))
  {
    if Move(rules, s, AuditInput(s, kind, detail), timestamp).Moved? {
      MoveKeepsFinish(rules, s, AuditInput(s, kind, detail), timestamp);
      AuditKeepsHistory(rules, s, st.events[s.runId], kind, detail, timestamp);
    }
  }

  lemma AnswerRestores(rules: Rules, st: State, call: Call)
    requires RunsHold(st, IsRestorable(rules)) && KeyedById(st) && KeepsDiscipline(rules, st, call)
    ensures Keeps(st, AnswerOf(rules, st, call).effect, IsRestorable(rules))
  {
    match call {
      case StopCall(c, timestamp) =>
        if c.runId in st.runs && !IsAbsorbing(st.runs[c.runId]) {
          StopIsDisciplined(st.runs[c.runId], st.runs[c.runId].runId);
          DisciplinedMoveRestores(rules, st, st.runs[c.runId], StopInput(st.runs[c.runId]), timestamp);
        }
        StopKeeps(rules, st, c, timestamp, IsRestorable(rules));
      case RecordCall(input, timestamp) =>
        if input.runId in st.runs && !IsAbsorbing(st.runs[input.runId]) && !NeedsFinish(input) {
          DisciplinedMoveRestores(rules, st, st.runs[input.runId], input, timestamp);
        }
        RecordKeeps(rules, st, input, timestamp, IsRestorable(rules));
      case FinishCall(c, timestamp) =>
        if c.runId in st.runs && !IsAbsorbing(st.runs[c.runId]) && EvidenceProblem(c.report, Logged(st, c.runId)).None? {
          FinishRestores(rules, st, st.runs[c.runId], c.report, timestamp);
        }
        FinishKeeps(rules, st, c, timestamp, IsRestorable(rules));
      case AuditCall(runId, kind, detail, timestamp) =>
        if runId in st.runs && IsAbsorbing(st.runs[runId]) && IsAudit(kind) {
          AuditRestores(rules, st, st.runs[runId], kind, detail, timestamp);
        }
        AuditKeeps(rules, st, runId, kind, detail, timestamp, IsRestorable(rules));
      case _ =>
        if AnswerOf(rules, st, call).effect.Joins? { JoiningRunIsRestorable(rules, st, call); }
        JoinKeeps(rules, st, call, IsRestorable(rules));
    }
  }

  predicate AllDisciplined(rules: Rules, st: State, calls: seq<Call>) {
    forall i | 0 <= i < |calls| :: KeepsDiscipline(rules, After(rules, st, calls[..i]), calls[i])
  }

  lemma DisciplinedPrefix(rules: Rules, st: State, calls: seq<Call>)
    requires AllDisciplined(rules, st, calls) && calls != []
    ensures AllDisciplined(rules, st, calls[..|calls| - 1])
    ensures KeepsDiscipline(rules, After(rules, st, calls[..|calls| - 1]), calls[|calls| - 1])
  {
    var before := calls[..|calls| - 1];
    forall i | 0 <= i < |before| ensures KeepsDiscipline(rules, After(rules, st, before[..i]), before[i]) {
      assert before[..i] == calls[..i];
      assert KeepsDiscipline(rules, After(rules, st, calls[..i]), calls[i]);
    }
  }

  lemma StepKeepsRestorable(rules: Rules, st: State, call: Call)
    requires IsConsistent(rules, st) && RunsHold(st, IsRestorable(rules)) && IsFresh(st, call) && KeepsDiscipline(rules, st, call)
    ensures RunsHold(Step(rules, st, call), IsRestorable(rules))
  {
    TrackedAreKeyed(rules, st);
    AnswerFits(rules, st, call);
    AnswerRestores(rules, st, call);
    EffectKeepsRuns(st, AnswerOf(rules, st, call).effect, IsRestorable(rules));
  }

  /** Incremental equals replayed, over whole lives: every run stays one that a restart accepts. */
  lemma {:induction false} CallsKeepRestorable(rules: Rules, st: State, calls: seq<Call>)
    requires IsConsistent(rules, st) && RunsHold(st, IsRestorable(rules))
    requires AllFresh(rules, st, calls) && AllDisciplined(rules, st, calls)
    ensures RunsHold(After(rules, st, calls), IsRestorable(rules))
  {
    if calls != [] {
      FreshPrefix(rules, st, calls);
      DisciplinedPrefix(rules, st, calls);
      CallsKeepConsistent(rules, st, calls[..|calls| - 1]);
      CallsKeepRestorable(rules, st, calls[..|calls| - 1]);
      StepKeepsRestorable(rules, After(rules, st, calls[..|calls| - 1]), calls[|calls| - 1]);
    }
  }

  /** The maps of `part` are those of `st`, for some of its runs. */
  predicate IsPartOf(part: State, st: State) {
    part.events.Keys == part.runs.Keys
    && forall id | id in part.runs :: id in st.runs && part.runs[id] == st.runs[id] && id in st.events && part.events[id] == st.events[id]
  }

  /** A restart takes up the runs again, one after the other and in any order: none is refused, and none gets in another's way. */
  lemma RestartTakesUpEveryRun(rules: Rules, st: State, part: State, id: string)
    requires IsConsistent(rules, st) && RunsHold(st, IsRestorable(rules)) && id in st.runs
    requires ActiveIsExact(part) && IsPartOf(part, st) && id !in part.runs
    ensures var answer := RestoreAnswer(rules, part, st.runs[id], st.events[id]);
      && answer.result == Ok(st.runs[id])
      && IsPartOf(Settled(part, answer), st) && ActiveIsExact(Settled(part, answer))
      && Settled(part, answer).runs.Keys == part.runs.Keys + {id}
  {
    TrackedAreKeyed(rules, st);
    assert IsRestorable(rules)(id, st.runs[id], st.events[id]);
    NoRivalWaits(st, part, id);
    RestoreIsAccepted(rules, part, st.runs[id], st.events[id]);
    JoinedPart(st, part, id);
  }

  lemma NoRivalWaits(st: State, part: State, id: string)
    requires ActiveIsExact(st) && ActiveIsExact(part) && IsPartOf(part, st) && id in st.runs && id !in part.runs
    ensures !IsAbsorbing(st.runs[id]) ==> ScopeKey(st.runs[id].scope) !in part.active
  {
    var key := ScopeKey(st.runs[id].scope);
    if !IsAbsorbing(st.runs[id]) && key in part.active {
      OneRunPerScope(st, id, part.active[key]);
    }
  }

  lemma RestoreIsAccepted(rules: Rules, part: State, s: Snapshot, log: seq<Event>)
    requires s.runId !in part.runs && IsHistory(rules, s, log)
    requires !IsAbsorbing(s) ==> ScopeKey(s.scope) !in part.active
    ensures RestoreAnswer(rules, part, s, log) == Answer(Joins(s, log), Ok(s), None)
  {
  }

  lemma JoinedPart(st: State, part: State, id: string)
    requires KeyedById(st) && ActiveIsExact(part) && IsPartOf(part, st) && id in st.runs && id in st.events && id !in part.runs
    requires !IsAbsorbing(st.runs[id]) ==> ScopeKey(st.runs[id].scope) !in part.active
    ensures var more := Applied(part, Joins(st.runs[id], st.events[id]));
      IsPartOf(more, st) && ActiveIsExact(more) && more.runs.Keys == part.runs.Keys + {id}
  {
    EffectKeepsActive(part, Joins(st.runs[id], st.events[id]));
  }
}
