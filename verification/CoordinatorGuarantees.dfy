/** What the coordinator keeps over every sequence of calls. */
module CoordinatorGuarantees {
  import opened Coordinator
  import opened RunHistory
  import opened RunReplay
  import opened RunTransitions
  import opened RunTypes
  import opened Text

  datatype Call =
    | StartCall(start: StartCommand, runId: string, timestamp: string)
    | StopCall(stop: StopCommand, timestamp: string)
    | RecordCall(input: Input, timestamp: string)
    | FinishCall(finish: FinishCommand, timestamp: string)
    | AuditCall(auditId: string, kind: EventType, detail: Detail, timestamp: string)
    | RestoreCall(snapshot: Snapshot, log: seq<Event>)

  function AnswerOf(rules: Rules, st: State, call: Call): Answer {
    match call
    case StartCall(c, runId, timestamp) => StartAnswer(rules, st, c, runId, timestamp)
    case StopCall(c, timestamp) => StopAnswer(rules, st, c, timestamp)
    case RecordCall(input, timestamp) => RecordAnswer(rules, st, input, timestamp)
    case FinishCall(c, timestamp) => FinishAnswer(rules, st, c, timestamp)
    case AuditCall(runId, kind, detail, timestamp) => AuditAnswer(rules, st, runId, kind, detail, timestamp)
    case RestoreCall(s, log) => RestoreAnswer(rules, st, s, log)
  }

  function Step(rules: Rules, st: State, call: Call): State {
    Settled(st, AnswerOf(rules, st, call))
  }

  function After(rules: Rules, st: State, calls: seq<Call>): State {
    if calls == [] then st else Step(rules, After(rules, st, calls[..|calls| - 1]), calls[|calls| - 1])
  }

  /** Run ids are made fresh: a start never gets the id of a run that is already there. */
  predicate IsFresh(st: State, call: Call) {
    call.StartCall? ==> call.runId !in st.runs
  }

  // ---- The invariant ----

  type RunProperty = (string, Snapshot, seq<Event>) -> bool

  /** Every run has a log, and the two are related by `p`. */
  predicate RunsHold(st: State, p: RunProperty) {
    st.events.Keys == st.runs.Keys && forall id | id in st.runs :: p(id, st.runs[id], st.events[id])
  }

  /** The log counts up from one to the snapshot's own counters. */
  function IsTracked(rules: Rules): RunProperty {
    (id: string, s: Snapshot, log: seq<Event>) =>
      s.runId == id && IsSnapshot(rules, s) && AllEvents(rules, log) && IsNumbered(log, s) && EndsAt(log, s)
  }

  /** The log is one that a restart accepts. */
  function IsRestorable(rules: Rules): RunProperty {
    (id: string, s: Snapshot, log: seq<Event>) => s.runId == id && IsHistory(rules, s, log)
  }

  /** The active map names exactly the runs that are not absorbed, one for each scope. */
  predicate ActiveIsExact(st: State) {
    && (forall key | key in st.active ::
          st.active[key] in st.runs && ScopeKey(st.runs[st.active[key]].scope) == key && !IsAbsorbing(st.runs[st.active[key]]))
    && (forall id | id in st.runs && !IsAbsorbing(st.runs[id]) ::
          ScopeKey(st.runs[id].scope) in st.active && st.active[ScopeKey(st.runs[id].scope)] == id)
  }

  /** No scope ever has two runs going. */
  lemma OneRunPerScope(st: State, a: string, b: string)
    requires ActiveIsExact(st) && a in st.runs && b in st.runs
    requires !IsAbsorbing(st.runs[a]) && !IsAbsorbing(st.runs[b]) && ScopeKey(st.runs[a].scope) == ScopeKey(st.runs[b].scope)
    ensures a == b
  {
    assert st.active[ScopeKey(st.runs[a].scope)] == a;
  }

  predicate RunExtends(s: Snapshot, later: Snapshot) {
    later.runId == s.runId && later.scope == s.scope && (IsAbsorbing(s) ==> later.status == s.status)
  }

  /** Nothing is forgotten: logs only grow, an end stays the end it was, and a receipt stays what it was. */
  predicate Extends(st: State, later: State) {
    && (forall id | id in st.runs :: id in later.runs && RunExtends(st.runs[id], later.runs[id]))
    && (forall id | id in st.events :: id in later.events && st.events[id] <= later.events[id])
    && (forall key | key in st.receipts :: key in later.receipts && later.receipts[key] == st.receipts[key])
  }

  lemma ExtendsTransitively(a: State, b: State, c: State)
    requires Extends(a, b) && Extends(b, c)
    ensures Extends(a, c)
  {
  }

  // ---- Effects ----

  /** The effect fits the maps: it moves a run that is still going, notes on one that has ended, or adds one where there is room. */
  predicate Fits(st: State, effect: Effect) {
    match effect
    case Nothing => true
    case Goes(next, _) => next.runId in st.runs && !IsAbsorbing(st.runs[next.runId]) && next.scope == st.runs[next.runId].scope
    case Noted(next, _) =>
      && next.runId in st.runs && IsAbsorbing(st.runs[next.runId])
      && next.scope == st.runs[next.runId].scope && next.status == st.runs[next.runId].status
    case Joins(run, _) => run.runId !in st.runs && (IsAbsorbing(run) || ScopeKey(run.scope) !in st.active)
  }

  /** The effect keeps `p` of the run it touches. */
  predicate Keeps(st: State, effect: Effect, p: RunProperty) {
    match effect
    case Nothing => true
    case Goes(next, event) => next.runId in st.events && p(next.runId, next, st.events[next.runId] + [event])
    case Noted(next, event) => next.runId in st.events && p(next.runId, next, st.events[next.runId] + [event])
    case Joins(run, log) => p(run.runId, run, log)
  }

  lemma EffectKeepsRuns(st: State, effect: Effect, p: RunProperty)
    requires RunsHold(st, p) && Fits(st, effect) && Keeps(st, effect, p)
    ensures RunsHold(Applied(st, effect), p)
  {
  }

  lemma EffectKeepsActive(st: State, effect: Effect)
    requires ActiveIsExact(st) && KeyedById(st) && Fits(st, effect)
    ensures ActiveIsExact(Applied(st, effect))
  {
  }

  lemma EffectExtends(st: State, effect: Effect)
    requires KeyedById(st) && st.events.Keys == st.runs.Keys && Fits(st, effect)
    ensures Extends(st, Applied(st, effect))
  {
  }

  /** A receipt is only ever written where there is none. */
  predicate ReceiptIsNew(st: State, answer: Answer) {
    answer.receipt.Some? ==> answer.receipt.value !in st.receipts
  }

  // ---- The answers fit ----

  lemma MoveStays(rules: Rules, s: Snapshot, input: Input, timestamp: string)
    requires Move(rules, s, input, timestamp).Moved?
    ensures var t := Move(rules, s, input, timestamp);
      t.snapshot.runId == s.runId && t.snapshot.scope == s.scope && t.snapshot.status == input.status
  {
  }

  lemma FinishStays(rules: Rules, s: Snapshot, report: Report, timestamp: string)
    requires MoveToFinish(rules, s, report, timestamp).Moved?
    ensures var t := MoveToFinish(rules, s, report, timestamp); t.snapshot.runId == s.runId && t.snapshot.scope == s.scope
  {
  }

  predicate KeyedById(st: State) {
    forall id | id in st.runs :: st.runs[id].runId == id
  }

  lemma StartFits(rules: Rules, st: State, c: StartCommand, runId: string, timestamp: string)
    requires runId !in st.runs
    ensures Fits(st, StartAnswer(rules, st, c, runId, timestamp).effect) && ReceiptIsNew(st, StartAnswer(rules, st, c, runId, timestamp))
  {
  }

  lemma StopFits(rules: Rules, st: State, c: StopCommand, timestamp: string)
    requires KeyedById(st)
    ensures Fits(st, StopAnswer(rules, st, c, timestamp).effect) && ReceiptIsNew(st, StopAnswer(rules, st, c, timestamp))
  {
    if c.runId in st.runs && Move(rules, st.runs[c.runId], StopInput(st.runs[c.runId]), timestamp).Moved? {
      MoveStays(rules, st.runs[c.runId], StopInput(st.runs[c.runId]), timestamp);
    }
  }

  lemma RecordFits(rules: Rules, st: State, input: Input, timestamp: string)
    requires KeyedById(st)
    ensures Fits(st, RecordAnswer(rules, st, input, timestamp).effect) && ReceiptIsNew(st, RecordAnswer(rules, st, input, timestamp))
  {
    if input.runId in st.runs && Move(rules, st.runs[input.runId], input, timestamp).Moved? {
      MoveStays(rules, st.runs[input.runId], input, timestamp);
    }
  }

  lemma FinishFits(rules: Rules, st: State, c: FinishCommand, timestamp: string)
    requires KeyedById(st)
    ensures Fits(st, FinishAnswer(rules, st, c, timestamp).effect) && ReceiptIsNew(st, FinishAnswer(rules, st, c, timestamp))
  {
    if c.runId in st.runs && MoveToFinish(rules, st.runs[c.runId], c.report, timestamp).Moved? {
      FinishStays(rules, st.runs[c.runId], c.report, timestamp);
    }
  }

  lemma AuditFits(rules: Rules, st: State, runId: string, kind: EventType, detail: Detail, timestamp: string)
    requires KeyedById(st)
    ensures Fits(st, AuditAnswer(rules, st, runId, kind, detail, timestamp).effect)
    ensures ReceiptIsNew(st, AuditAnswer(rules, st, runId, kind, detail, timestamp))
  {
    if runId in st.runs && Move(rules, st.runs[runId], AuditInput(st.runs[runId], kind, detail), timestamp).Moved? {
      MoveStays(rules, st.runs[runId], AuditInput(st.runs[runId], kind, detail), timestamp);
    }
  }

  lemma RestoreFits(rules: Rules, st: State, s: Snapshot, log: seq<Event>)
    ensures Fits(st, RestoreAnswer(rules, st, s, log).effect) && ReceiptIsNew(st, RestoreAnswer(rules, st, s, log))
  {
  }

  lemma AnswerFits(rules: Rules, st: State, call: Call)
    requires KeyedById(st) && IsFresh(st, call)
    ensures Fits(st, AnswerOf(rules, st, call).effect) && ReceiptIsNew(st, AnswerOf(rules, st, call))
  {
    match call {
      case StartCall(c, runId, timestamp) => StartFits(rules, st, c, runId, timestamp);
      case StopCall(c, timestamp) => StopFits(rules, st, c, timestamp);
      case RecordCall(input, timestamp) => RecordFits(rules, st, input, timestamp);
      case FinishCall(c, timestamp) => FinishFits(rules, st, c, timestamp);
      case AuditCall(runId, kind, detail, timestamp) => AuditFits(rules, st, runId, kind, detail, timestamp);
      case RestoreCall(s, log) => RestoreFits(rules, st, s, log);
    }
  }

  // ---- The answers keep what transitions keep ----

  /** `p` holds of run `s` with one more event, if the transition was made. */
  predicate HoldsAfter(st: State, s: Snapshot, t: Transition, p: RunProperty) {
    t.Moved? ==> s.runId in st.events && t.snapshot.runId == s.runId && p(s.runId, t.snapshot, st.events[s.runId] + [t.event])
  }

  lemma StopKeeps(rules: Rules, st: State, c: StopCommand, timestamp: string, p: RunProperty)
    requires KeyedById(st)
    requires c.runId in st.runs && !IsAbsorbing(st.runs[c.runId]) ==>
        HoldsAfter(st, st.runs[c.runId], Move(rules, st.runs[c.runId], StopInput(st.runs[c.runId]), timestamp), p)
    ensures Keeps(st, StopAnswer(rules, st, c, timestamp).effect, p)
  {
  }

  lemma RecordKeeps(rules: Rules, st: State, input: Input, timestamp: string, p: RunProperty)
    requires KeyedById(st)
    requires input.runId in st.runs && !IsAbsorbing(st.runs[input.runId]) && !NeedsFinish(input) ==>
        HoldsAfter(st, st.runs[input.runId], Move(rules, st.runs[input.runId], input, timestamp), p)
    ensures Keeps(st, RecordAnswer(rules, st, input, timestamp).effect, p)
  {
  }

  lemma FinishKeeps(rules: Rules, st: State, c: FinishCommand, timestamp: string, p: RunProperty)
    requires KeyedById(st)
    requires c.runId in st.runs && !IsAbsorbing(st.runs[c.runId]) && EvidenceProblem(c.report, Logged(st, c.runId)).None? ==>
        HoldsAfter(st, st.runs[c.runId], MoveToFinish(rules, st.runs[c.runId], c.report, timestamp), p)
    ensures Keeps(st, FinishAnswer(rules, st, c, timestamp).effect, p)
  {
  }

  lemma AuditKeeps(rules: Rules, st: State, runId: string, kind: EventType, detail: Detail, timestamp: string, p: RunProperty)
    requires KeyedById(st)
    requires runId in st.runs && IsAbsorbing(st.runs[runId]) && IsAudit(kind) ==>
        HoldsAfter(st, st.runs[runId], Move(rules, st.runs[runId], AuditInput(st.runs[runId], kind, detail), timestamp), p)
    ensures Keeps(st, AuditAnswer(rules, st, runId, kind, detail, timestamp).effect, p)
  {
  }

  lemma JoinKeeps(rules: Rules, st: State, call: Call, p: RunProperty)
    requires call.StartCall? || call.RestoreCall?
    requires AnswerOf(rules, st, call).effect.Joins? ==>
        p(AnswerOf(rules, st, call).effect.run.runId, AnswerOf(rules, st, call).effect.run, AnswerOf(rules, st, call).effect.log)
    ensures Keeps(st, AnswerOf(rules, st, call).effect, p)
  {
  }

  /** What joins is restorable already. */
  lemma JoiningRunIsRestorable(rules: Rules, st: State, call: Call)
    requires AnswerOf(rules, st, call).effect.Joins? && (call.StartCall? || call.RestoreCall?)
    ensures var effect := AnswerOf(rules, st, call).effect; IsHistory(rules, effect.run, effect.log)
  {
    if call.StartCall? {
      StartedRunIsRestorable(rules, st, call.start, call.runId, call.timestamp);
    }
  }

  lemma StartedRunIsRestorable(rules: Rules, st: State, c: StartCommand, runId: string, timestamp: string)
    requires StartAnswer(rules, st, c, runId, timestamp).effect.Joins?
    ensures var effect := StartAnswer(rules, st, c, runId, timestamp).effect; IsHistory(rules, effect.run, effect.log)
  {
    var scope := ResolveScope(c.scope, c.projectId).value;
    var s := Initial(c, scope, runId, timestamp);
    StartedIsHistory(rules, s, ToEvent(s, RunStarted, timestamp, None));
  }

  lemma RestorableIsTracked(rules: Rules, id: string, s: Snapshot, log: seq<Event>)
    requires IsRestorable(rules)(id, s, log)
    ensures IsTracked(rules)(id, s, log)
  {
  }

  lemma MoveTracks(rules: Rules, st: State, s: Snapshot, input: Input, timestamp: string)
    requires s.runId in st.events && IsTracked(rules)(s.runId, s, st.events[s.runId])
    ensures HoldsAfter(st, s, Move(rules, s, input, timestamp), IsTracked(rules))
  {
    var t := Move(rules, s, input, timestamp);
    if t.Moved? {
      MoveKeepsFinish(rules, s, input, timestamp);
      NumberingExtends(rules, s, st.events[s.runId], t.snapshot, t.event);
    }
  }

  lemma FinishTracks(rules: Rules, st: State, s: Snapshot, report: Report, timestamp: string)
    requires s.runId in st.events && IsTracked(rules)(s.runId, s, st.events[s.runId])
    ensures HoldsAfter(st, s, MoveToFinish(rules, s, report, timestamp), IsTracked(rules))
  {
    var t := MoveToFinish(rules, s, report, timestamp);
    if t.Moved? {
      FinishStays(rules, s, report, timestamp);
      NumberingExtends(rules, s, st.events[s.runId], t.snapshot, t.event);
    }
  }

  lemma AnswerTracks(rules: Rules, st: State, call: Call)
    requires RunsHold(st, IsTracked(rules)) && KeyedById(st)
    ensures Keeps(st, AnswerOf(rules, st, call).effect, IsTracked(rules))
  {
    match call {
      case StopCall(c, timestamp) =>
        if c.runId in st.runs { MoveTracks(rules, st, st.runs[c.runId], StopInput(st.runs[c.runId]), timestamp); }
        StopKeeps(rules, st, c, timestamp, IsTracked(rules));
      case RecordCall(input, timestamp) =>
        if input.runId in st.runs { MoveTracks(rules, st, st.runs[input.runId], input, timestamp); }
        RecordKeeps(rules, st, input, timestamp, IsTracked(rules));
      case FinishCall(c, timestamp) =>
        if c.runId in st.runs { FinishTracks(rules, st, st.runs[c.runId], c.report, timestamp); }
        FinishKeeps(rules, st, c, timestamp, IsTracked(rules));
      case AuditCall(runId, kind, detail, timestamp) =>
        if runId in st.runs { MoveTracks(rules, st, st.runs[runId], AuditInput(st.runs[runId], kind, detail), timestamp); }
        AuditKeeps(rules, st, runId, kind, detail, timestamp, IsTracked(rules));
      case _ =>
        if AnswerOf(rules, st, call).effect.Joins? {
          JoiningRunIsRestorable(rules, st, call);
          var effect := AnswerOf(rules, st, call).effect;
          RestorableIsTracked(rules, effect.run.runId, effect.run, effect.log);
        }
        JoinKeeps(rules, st, call, IsTracked(rules));
    }
  }

  // ---- Over every sequence of calls ----

  /** The invariant: tracked runs, an exact active map. */
  predicate IsConsistent(rules: Rules, st: State) {
    RunsHold(st, IsTracked(rules)) && ActiveIsExact(st)
  }

  lemma TrackedAreKeyed(rules: Rules, st: State)
    requires RunsHold(st, IsTracked(rules))
    ensures KeyedById(st)
  {
    forall id | id in st.runs ensures st.runs[id].runId == id {
      assert IsTracked(rules)(id, st.runs[id], st.events[id]);
    }
  }

  lemma SettlingExtends(st: State, answer: Answer)
    requires Extends(st, Applied(st, answer.effect)) && ReceiptIsNew(st, answer)
    ensures Extends(st, Settled(st, answer))
  {
  }

  lemma StepKeepsConsistent(rules: Rules, st: State, call: Call)
    requires IsConsistent(rules, st) && IsFresh(st, call)
    ensures IsConsistent(rules, Step(rules, st, call)) && Extends(st, Step(rules, st, call))
  {
    var answer := AnswerOf(rules, st, call);
    TrackedAreKeyed(rules, st);
    AnswerFits(rules, st, call);
    AnswerTracks(rules, st, call);
    EffectKeepsRuns(st, answer.effect, IsTracked(rules));
    EffectKeepsActive(st, answer.effect);
    EffectExtends(st, answer.effect);
    SettlingExtends(st, answer);
  }
}
