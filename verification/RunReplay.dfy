/** The incremental view of a run and the one recomputed from its log agree, transition by transition. */
module RunReplay {
  import opened RunHistory
  import opened RunTransitions
  import opened RunTypes
  import opened Text

  lemma ReplayOneMore(events: seq<Event>, e: Event)
    requires Replay(events).Some?
    ensures Replay(events + [e]) == MarkerStep(Replay(events).value, e)
  {
    assert (events + [e])[..|events|] == events;
  }

  /** What every committed transition keeps of the numbering. */
  lemma NumberingExtends(rules: Rules, s: Snapshot, events: seq<Event>, next: Snapshot, e: Event)
    requires AllEvents(rules, events) && IsNumbered(events, s) && EndsAt(events, s)
    requires IsPair(rules, next, e) && next.runId == s.runId && next.scope == s.scope
    requires next.lastSequence == s.lastSequence + 1 && next.runRevision == s.runRevision + 1
    ensures AllEvents(rules, events + [e]) && IsNumbered(events + [e], next) && EndsAt(events + [e], next)
  {
  }

  /** A run still going has neither an end nor a capability boundary in its log. */
  predicate IsOpenLog(events: seq<Event>) {
    forall i | 0 <= i < |events| :: !IsTerminalEvent(events[i].kind) && !events[i].kind.CapabilityChanged?
  }

  lemma OpenRunHasOpenLog(rules: Rules, s: Snapshot, events: seq<Event>)
    requires IsHistory(rules, s, events) && !IsAbsorbing(s)
    ensures IsOpenLog(events) && s.finish.report.None? && s.capabilities.state.Active?
  {
  }

  /** An event that ends an open log the way the snapshot says. */
  predicate Closes(e: Event, next: Snapshot) {
    && (IsTerminalEvent(e.kind) <==> IsTerminal(next.status))
    && (IsTerminal(next.status) ==> TerminalEventFor(next.status) == Some(e.kind))
    && (e.kind.CapabilityChanged? <==> next.status.CapabilityChangedStatus?)
  }

  lemma ClosedLogMatches(events: seq<Event>, e: Event, next: Snapshot)
    requires IsOpenLog(events) && Closes(e, next) && EventMatches(e, next) && CapabilitiesMatch(next)
    ensures TerminalHistoryMatches(events + [e], next) && CapabilityHistoryMatches(events + [e], next)
  {
    var more, at := events + [e], |events|;
    assert more[at] == e;
    if IsTerminal(next.status) { assert HasTerminalAt(more, at, next); }
    if next.status.CapabilityChangedStatus? { assert HasBoundaryAt(more, at, next); }
  }

  lemma MoveCloses(rules: Rules, s: Snapshot, input: Input, timestamp: string)
    requires Move(rules, s, input, timestamp).Moved? && s.capabilities.state.Active? && !IsAudit(input.kind)
    requires s.lastSequence >= 1
    ensures Closes(Move(rules, s, input, timestamp).event, Move(rules, s, input, timestamp).snapshot)
  {
  }

  lemma MoveKeepsFinish(rules: Rules, s: Snapshot, input: Input, timestamp: string)
    requires Move(rules, s, input, timestamp).Moved?
    ensures var next := Move(rules, s, input, timestamp).snapshot;
      && next.finish == s.finish && next.runId == s.runId && next.scope == s.scope && next.status == input.status
      && next.lastSequence == s.lastSequence + 1 && next.runRevision == s.runRevision + 1
    ensures IsPair(rules, Move(rules, s, input, timestamp).snapshot, Move(rules, s, input, timestamp).event)
    ensures Move(rules, s, input, timestamp).event.kind == input.kind
  {
  }

  /** An undo event cannot end a log: a run that stops with one is not restored. */
  lemma UndoEventEndsNothing(rules: Rules, s: Snapshot, events: seq<Event>, input: Input, timestamp: string)
    requires IsHistory(rules, s, events) && !IsAbsorbing(s)
    requires Move(rules, s, input, timestamp).Moved? && IsAudit(input.kind)
    ensures !TerminalHistoryMatches(events + [Move(rules, s, input, timestamp).event], Move(rules, s, input, timestamp).snapshot)
  {
    var t := Move(rules, s, input, timestamp);
    OpenRunHasOpenLog(rules, s, events);
    MoveKeepsFinish(rules, s, input, timestamp);
    UndoNeedsAnEnd(rules, s, input, timestamp);
    var more := events + [t.event];
    assert forall i | 0 <= i < |more| :: !IsTerminalEvent(more[i].kind);
  }

  function UndoInput(s: Snapshot): Input {
    Input(s.runId, Cancelled, RunUndoStarted, None, NO_PATCH)
  }

  /** Yet the coordinator takes one on any run that is going, as long as the cancelled snapshot has the right shape: the
      pair it commits is in order. */
  lemma UndoEventIsTaken(rules: Rules, s: Snapshot, timestamp: string)
    requires IsSnapshot(rules, s) && !IsAbsorbing(s) && IsPlainText(timestamp)
    requires s.runRevision < MAX_SAFE_INTEGER && 0 < s.lastSequence + 1 <= MAX_SAFE_INTEGER
    ensures Move(rules, s, UndoInput(s), timestamp).Moved?
       <==> rules.shape(Flattened(s, UndoInput(s), timestamp).(pending := NonePending))
    ensures !IsDisciplined(s, UndoInput(s))
  {
  }

  lemma UndoNeedsAnEnd(rules: Rules, s: Snapshot, input: Input, timestamp: string)
    requires Move(rules, s, input, timestamp).Moved? && IsAudit(input.kind) && s.capabilities.state.Active?
    ensures IsTerminal(Move(rules, s, input, timestamp).snapshot.status)
  {
  }

  /** Recording an event on a restorable run leaves it restorable exactly when the call was disciplined. */
  lemma RecordKeepsHistoryExactly(rules: Rules, s: Snapshot, events: seq<Event>, input: Input, timestamp: string)
    requires IsHistory(rules, s, events) && !IsAbsorbing(s)
    requires Move(rules, s, input, timestamp).Moved?
    ensures IsHistory(rules, Move(rules, s, input, timestamp).snapshot, events + [Move(rules, s, input, timestamp).event])
       <==> IsDisciplined(s, input)
  {
    var t := Move(rules, s, input, timestamp);
    MoveKeepsFinish(rules, s, input, timestamp);
    if IsAudit(input.kind) {
      UndoEventEndsNothing(rules, s, events, input, timestamp);
    } else {
      OpenRunHasOpenLog(rules, s, events);
      NumberingExtends(rules, s, events, t.snapshot, t.event);
      MoveCloses(rules, s, input, timestamp);
      ClosedLogMatches(events, t.event, t.snapshot);
      ReplayOneMore(events, t.event);
      StepAgreesExactly(rules, s, input, timestamp);
    }
  }

  // ---- The other calls keep every run restorable ----

  /** A new run. */
  lemma StartedIsHistory(rules: Rules, s: Snapshot, e: Event)
    requires IsPair(rules, s, e) && e.kind.RunStarted? && !IsAbsorbing(s)
    ensures IsHistory(rules, s, [e])
  {
    assert [e][..0] == [];
    assert Replay([e]) == MarkerStep(NoMarker, e);
  }

  /** Stopping. */
  lemma StopIsDisciplined(s: Snapshot, runId: string)
    ensures IsDisciplined(s, Input(runId, Cancelled, RunCancelled, None, NO_PATCH))
  {
  }

  lemma FindInMore(events: seq<Event>, e: Event, sequence: int)
    requires FindSequence(events, sequence).Some?
    ensures FindSequence(events + [e], sequence) == FindSequence(events, sequence)
  {
    if events != [] {
      assert (events + [e])[1..] == events[1..] + [e];
      if events[0].sequence != sequence { FindInMore(events[1..], e, sequence); }
    }
  }

  lemma EvidenceHolds(report: Report, events: seq<Event>)
    requires EvidenceProblem(report, events).None?
    ensures None !in report.evidenceRefs
    ensures forall ref | ref in Refs(report) :: IsEvidenced(events, ref)
    ensures ClaimsAreCited(report, Refs(report))
  {
  }

  lemma FinishMoves(rules: Rules, s: Snapshot, report: Report, timestamp: string)
    requires MoveToFinish(rules, s, report, timestamp).Moved? && s.capabilities.state.Active?
    ensures var t := MoveToFinish(rules, s, report, timestamp);
      && IsPair(rules, t.snapshot, t.event) && Closes(t.event, t.snapshot)
      && t.snapshot.finish == Finish(Finished(report.outcome), Some(report)) && t.snapshot.pending == NonePending
      && t.snapshot.runId == s.runId && t.snapshot.scope == s.scope
      && t.snapshot.lastSequence == s.lastSequence + 1 && t.snapshot.runRevision == s.runRevision + 1
      && t.event.kind == FinishKind(report.outcome)
  {
  }

  /** Finishing: the evidence found before the end is evidence found by the replay, and earlier than the end. */
  lemma FinishKeepsHistory(rules: Rules, s: Snapshot, events: seq<Event>, report: Report, timestamp: string)
    requires IsHistory(rules, s, events) && !IsAbsorbing(s)
    requires EvidenceProblem(report, events).None? && MoveToFinish(rules, s, report, timestamp).Moved?
    ensures IsHistory(rules, MoveToFinish(rules, s, report, timestamp).snapshot, events + [MoveToFinish(rules, s, report, timestamp).event])
  {
    var t := MoveToFinish(rules, s, report, timestamp);
    OpenRunHasOpenLog(rules, s, events);
    FinishMoves(rules, s, report, timestamp);
    NumberingExtends(rules, s, events, t.snapshot, t.event);
    ClosedLogMatches(events, t.event, t.snapshot);
    ReplayOneMore(events, t.event);
    EvidenceHolds(report, events);
    FinishIsEvidenced(s, events, report, t.event, t.snapshot);
  }

  lemma FinishIsEvidenced(s: Snapshot, events: seq<Event>, report: Report, e: Event, next: Snapshot)
    requires IsNumbered(events, s) && IsOpenLog(events) && e.sequence == |events| + 1 && e.kind == FinishKind(report.outcome)
    requires next.finish.report == Some(report) && None !in report.evidenceRefs
    requires (forall ref | ref in Refs(report) :: IsEvidenced(events, ref)) && ClaimsAreCited(report, Refs(report))
    ensures FinishEvidenceMatches(events + [e], next)
  {
    var more, at := events + [e], |events|;
    assert more[at] == e && IsFinishAt(more, at);
    forall ref | ref in Refs(report) ensures ref.sequence < more[at].sequence && IsEvidenced(more, ref) {
      assert IsEvidenced(events, ref);
      FindInMore(events, e, ref.sequence);
    }
  }

  /** An audit event after the end. */
  lemma AuditKeepsHistory(rules: Rules, s: Snapshot, events: seq<Event>, kind: EventType, detail: Detail, timestamp: string)
    requires IsHistory(rules, s, events) && IsAbsorbing(s) && IsAudit(kind)
    requires Move(rules, s, AuditInput(s, kind, detail), timestamp).Moved?
    ensures var t := Move(rules, s, AuditInput(s, kind, detail), timestamp);
      IsHistory(rules, t.snapshot, events + [t.event])
  {
    var input := AuditInput(s, kind, detail);
    MoveKeepsFinish(rules, s, input, timestamp);
    AbsorbingHasNothingPending(rules, s, input, timestamp);
    AuditEventKeepsLog(rules, s, events, Move(rules, s, input, timestamp).event, Move(rules, s, input, timestamp).snapshot);
    AuditKeepsEvidence(events, s, Move(rules, s, input, timestamp).event, Move(rules, s, input, timestamp).snapshot);
  }

  lemma AuditEventKeepsLog(rules: Rules, s: Snapshot, events: seq<Event>, e: Event, next: Snapshot)
    requires IsLog(rules, s, events) && IsAbsorbing(s) && IsAudit(e.kind) && IsPair(rules, next, e)
    requires next.runId == s.runId && next.scope == s.scope
    requires next.lastSequence == s.lastSequence + 1 && next.runRevision == s.runRevision + 1
    requires next.status == s.status && next.finish == s.finish && next.capabilities == s.capabilities
    requires Abstract(s.pending) == NoMarker && next.pending == NonePending
    ensures IsLog(rules, next, events + [e])
  {
    NumberingExtends(rules, s, events, next, e);
    ReplayOneMore(events, e);
    AuditKeepsEnd(events, s, e, next);
  }

  lemma AbsorbingHasNothingPending(rules: Rules, s: Snapshot, input: Input, timestamp: string)
    requires IsSnapshot(rules, s) && IsAbsorbing(s) && IsAudit(input.kind) && input.status == s.status
    requires Move(rules, s, input, timestamp).Moved?
    ensures var next := Move(rules, s, input, timestamp).snapshot;
      Abstract(s.pending) == NoMarker && next.pending == NonePending && next.capabilities == s.capabilities
  {
  }

  lemma AuditKeepsEnd(events: seq<Event>, s: Snapshot, e: Event, next: Snapshot)
    requires TerminalHistoryMatches(events, s) && CapabilityHistoryMatches(events, s) && IsAbsorbing(s) && IsAudit(e.kind)
    requires next.status == s.status && next.finish == s.finish && next.capabilities == s.capabilities && next.pending == NonePending
    ensures TerminalHistoryMatches(events + [e], next) && CapabilityHistoryMatches(events + [e], next)
  {
    var more := events + [e];
    if IsTerminal(s.status) {
      var at :| 0 <= at < |events| && HasTerminalAt(events, at, s);
      EndStays(events, at, s, e, next);
    } else {
      var at :| 0 <= at < |events| && HasBoundaryAt(events, at, s);
      BoundaryStays(events, at, s, e, next);
    }
  }

  lemma EndStays(events: seq<Event>, at: nat, s: Snapshot, e: Event, next: Snapshot)
    requires at < |events| && HasTerminalAt(events, at, s) && IsAudit(e.kind) && IsTerminal(s.status)
    requires next.status == s.status && next.finish == s.finish
    ensures HasTerminalAt(events + [e], at, next)
  {
    assert (events + [e])[at] == events[at];
    assert EventMatches(events[at], s) ==> EventMatches(events[at], next);
  }

  lemma BoundaryStays(events: seq<Event>, at: nat, s: Snapshot, e: Event, next: Snapshot)
    requires at < |events| && HasBoundaryAt(events, at, s) && IsAudit(e.kind) && !IsTerminal(s.status)
    requires next.status == s.status && next.capabilities == s.capabilities && next.pending == NonePending
    ensures HasBoundaryAt(events + [e], at, next)
  {
    assert (events + [e])[at] == events[at];
  }

  lemma AuditKeepsEvidence(events: seq<Event>, s: Snapshot, e: Event, next: Snapshot)
    requires FinishEvidenceMatches(events, s) && IsAudit(e.kind) && next.finish == s.finish
    ensures FinishEvidenceMatches(events + [e], next)
  {
    if s.finish.report.Some? {
      var report := s.finish.report.value;
      var at :| 0 <= at < |events| && IsFinishAt(events, at)
        && forall ref | ref in Refs(report) :: ref.sequence < events[at].sequence && IsEvidenced(events, ref);
      var more := events + [e];
      assert more[at] == events[at] && IsFinishAt(more, at);
      forall ref | ref in Refs(report) ensures ref.sequence < more[at].sequence && IsEvidenced(more, ref) {
        assert IsEvidenced(events, ref);
        FindInMore(events, e, ref.sequence);
      }
    }
  }
}
