/** A compensation that itself stops: where the object is then, and what recovery still makes of it. */
module CompensationCrash {
  import opened Text
  import opened Volume
  import opened Disturbed
  import opened LifecycleMarker
  import opened Lifecycle
  import opened LifecycleCrash
  import opened Resume
  import opened Compensate

  /** What a transfer looked like when it passed its checks. */
  predicate WasAccepted(op: Operation) {
    && op.WellFormed() && IsTransfer(op)
    && (if UsesStage(op) then IsCaseRename(op) else op.Source().At() != op.Target().At())
  }

  lemma ReadyWasAccepted(op: Operation, ns: Namespace)
    requires op.WellFormed() && (MoveReady(op, ns) || QuarantineReady(op, ns))
    ensures WasAccepted(op)
  {
  }

  /** The object stands at `place`, the marker is as it was, and no other name shows the object's like. */
  predicate InUndo(op: Operation, obj: Object, marker: Entry, place: Place, ns: Namespace) {
    && Holds(ns, PlaceName(op, place), obj)
    && op.MarkerName().At() in ns && ns[op.MarkerName().At()] == marker
    && (place != AtSource ==> ObserveFile(op, ns, op.Source()) != Match)
    && (place != AtTarget ==> ObserveFile(op, ns, op.Target()) != Match)
    && ObserveStage(op, ns) != Match
  }

  function Undo(op: Operation, obj: Object, marker: Entry, place: Place): Namespace -> bool {
    (ns: Namespace) => InUndo(op, obj, marker, place, ns)
  }

  /** Under the rollback name, where no recovery looks, and under neither of its own. */
  predicate IsStranded(op: Operation, obj: Object, ns: Namespace) {
    && UsesStage(op) && Holds(ns, op.Rollback(), obj) && ReadMarker(op, ns).Readable?
    && !Holds(ns, op.Source(), obj) && !Holds(ns, op.Target(), obj)
    && Classify(op, ns) == if AnyDirectory(op, ns) then Unknown else Neither
  }

  predicate IsBackOrThere(op: Operation, obj: Object, ns: Namespace) {
    (Holds(ns, op.Source(), obj) || Holds(ns, op.Target(), obj)) && Exact(op, obj, ns)
  }

  /** At the target or back at the source, as the verdict says, or stranded. */
  function UndoTold(op: Operation, obj: Object): Namespace -> bool {
    (ns: Namespace) => IsBackOrThere(op, obj, ns) || IsStranded(op, obj, ns)
  }

  function Others(obj: Object): Namespace -> bool {
    NoneOf({obj.id})
  }

  ghost predicate UndoKnown(op: Operation, obj: Object, marker: Entry) {
    && Known(op, obj)
    && marker.leaf == op.MarkerName().leaf && marker.obj.kind.File?
    && Parse(marker.obj.bytes).Some? && Parse(marker.obj.bytes).value.requestChecksum == op.checksum
  }

  lemma OthersAreNoMatch(op: Operation, obj: Object, ns: Namespace, additions: Namespace, name: Name)
    requires IsSourceObject(op, obj) && BringsNo({obj.id}, additions) && ObserveFile(op, ns, name) != Match
    ensures ObserveFile(op, Interfere(ns, additions), name) != Match
  {
  }

  lemma UndoLasts(op: Operation, obj: Object, marker: Entry, place: Place)
    requires IsSourceObject(op, obj)
    ensures Lasts(Others(obj), Undo(op, obj, marker, place))
  {
    var phase := Undo(op, obj, marker, place);
    forall ns: Namespace, additions: Namespace | phase(ns) && BringsNo({obj.id}, additions) ensures phase(Interfere(ns, additions)) {
      if place != AtSource { OthersAreNoMatch(op, obj, ns, additions, op.Source()); }
      if place != AtTarget { OthersAreNoMatch(op, obj, ns, additions, op.Target()); }
      if UsesStage(op) { OthersAreNoMatch(op, obj, ns, additions, op.Stage()); }
    }
  }

  lemma UndoIsTold(op: Operation, obj: Object, marker: Entry, place: Place)
    requires UndoKnown(op, obj, marker) && (place == AtSource || place == AtTarget || (place == AtRollback && UsesStage(op)))
    ensures Implies(Undo(op, obj, marker, place), UndoTold(op, obj))
  {
    forall ns: Namespace | InUndo(op, obj, marker, place, ns) ensures UndoTold(op, obj)(ns) {
      if place == AtRollback {
        StrandedIsTold(op, obj, marker, ns);
      } else {
        LocatedIsExact(op, obj, marker.obj.id, ns);
      }
    }
  }

  lemma StrandedIsTold(op: Operation, obj: Object, marker: Entry, ns: Namespace)
    requires UndoKnown(op, obj, marker) && UsesStage(op) && InUndo(op, obj, marker, AtRollback, ns)
    ensures IsStranded(op, obj, ns)
  {
    ClassifyIsJudge(op, ns);
    DirectoriesAreUnreadable(op, ns);
    StandingIsMatch(op, obj, AtSource, ns);
    StandingIsMatch(op, obj, AtTarget, ns);
  }

  /** From this phase on, `plan` keeps what is told and touches nobody else's object. */
  ghost predicate Undoes(op: Operation, obj: Object, marker: Entry, place: Place, plan: Plan) {
    SafelyFrom(UndoTold(op, obj), Anything(), Others(obj), Own(obj, marker.obj.id), Undo(op, obj, marker, place), plan)
  }

  lemma UndoFlushes(op: Operation, obj: Object, marker: Entry, place: Place, rest: Plan)
    requires UndoKnown(op, obj, marker) && (place == AtSource || place == AtTarget || (place == AtRollback && UsesStage(op)))
    requires Undoes(op, obj, marker, place, rest)
    ensures Undoes(op, obj, marker, place, FlushBoth(op, rest))
  {
    UndoLasts(op, obj, marker, place);
    UndoIsTold(op, obj, marker, place);
    var P, some, own, phase := UndoTold(op, obj), Others(obj), Own(obj, marker.obj.id), Undo(op, obj, marker, place);
    IdleSafely(P, Anything(), some, own, phase, Flush({op.Target().dir}), rest);
    IdleSafely(P, Anything(), some, own, phase, Flush({op.Source().dir}), Then(Flush({op.Target().dir}), rest));
  }

  lemma UndoRename(op: Operation, obj: Object, marker: Entry, from: Place, to: Place, ns: Namespace)
    requires UndoKnown(op, obj, marker) && InUndo(op, obj, marker, from, ns) && Free(ns, PlaceName(op, to))
    requires if UsesStage(op) then (from == AtTarget && to == AtRollback) || (from == AtRollback && to == AtSource)
             else from == AtTarget && to == AtSource
    ensures
      var s := Rename(PlaceName(op, from), PlaceName(op, to));
      Enabled(ns, s) && InUndo(op, obj, marker, to, Apply(ns, s)) && Keeps(ns, Apply(ns, s), Own(obj, marker.obj.id))
  {
  }

  lemma UndoRenames(op: Operation, obj: Object, marker: Entry, from: Place, to: Place, rest: Plan)
    requires UndoKnown(op, obj, marker) && Undoes(op, obj, marker, to, rest)
    requires if UsesStage(op) then (from == AtTarget && to == AtRollback) || (from == AtRollback && to == AtSource)
             else from == AtTarget && to == AtSource
    ensures Undoes(op, obj, marker, from, Then(Rename(PlaceName(op, from), PlaceName(op, to)), rest))
  {
    var s := Rename(PlaceName(op, from), PlaceName(op, to));
    forall ns: Namespace | InUndo(op, obj, marker, from, ns) && Enabled(ns, s)
      ensures InUndo(op, obj, marker, to, Apply(ns, s)) && Keeps(ns, Apply(ns, s), Own(obj, marker.obj.id))
    {
      UndoRename(op, obj, marker, from, to, ns);
    }
    UndoLasts(op, obj, marker, from);
    UndoIsTold(op, obj, marker, from);
    StepSafely(UndoTold(op, obj), Anything(), Others(obj), Own(obj, marker.obj.id), Undo(op, obj, marker, from), s, Undo(op, obj, marker, to), rest);
  }

  lemma FlushesAppend(op: Operation, plan: Plan, rest: Plan)
    ensures Append(FlushBoth(op, plan), rest) == FlushBoth(op, Append(plan, rest))
  {
    assert Append(Then(Flush({op.Target().dir}), plan), rest) == Then(Flush({op.Target().dir}), Append(plan, rest));
  }

  function UndoCalls(op: Operation): Plan {
    if UsesStage(op) then CaseUndoPlan(op) else PlainUndoPlan(op)
  }

  lemma UndoPlanUndoes(op: Operation, obj: Object, marker: Entry, rest: Plan)
    requires UndoKnown(op, obj, marker) && Undoes(op, obj, marker, AtSource, rest)
    ensures Undoes(op, obj, marker, AtTarget, Append(UndoCalls(op), rest))
  {
    UndoFlushes(op, obj, marker, AtSource, rest);
    FlushesAppend(op, Done, rest);
    if UsesStage(op) {
      UndoRenames(op, obj, marker, AtRollback, AtSource, FlushBoth(op, rest));
      var onward, onwardRest := Then(Rename(op.Rollback(), op.Source()), FlushBoth(op, Done)), Then(Rename(op.Rollback(), op.Source()), FlushBoth(op, rest));
      assert Append(onward, rest) == onwardRest;
      FlushesAppend(op, onward, rest);
      UndoFlushes(op, obj, marker, AtRollback, onwardRest);
      UndoRenames(op, obj, marker, AtTarget, AtRollback, FlushBoth(op, onwardRest));
    } else {
      UndoRenames(op, obj, marker, AtTarget, AtSource, FlushBoth(op, rest));
    }
  }

  function Back(op: Operation, obj: Object): Namespace -> bool {
    (ns: Namespace) => Holds(ns, op.Source(), obj)
  }

  lemma BackIsTold(op: Operation, obj: Object)
    requires Known(op, obj)
    ensures Implies(Back(op, obj), UndoTold(op, obj)) && Lasts(Others(obj), Back(op, obj))
  {
    forall ns: Namespace | Holds(ns, op.Source(), obj) ensures UndoTold(op, obj)(ns) {
      LocatedIsExact(op, obj, "", ns);
    }
  }

  lemma MarkerLeaves(op: Operation, obj: Object, marker: Entry)
    requires UndoKnown(op, obj, marker)
    ensures Steers(UndoTold(op, obj), Own(obj, marker.obj.id), Undo(op, obj, marker, AtSource), Remove(op.MarkerName()), Back(op, obj))
  {
    UndoIsTold(op, obj, marker, AtSource);
    forall ns: Namespace | InUndo(op, obj, marker, AtSource, ns)
      ensures
        var gone := Apply(ns, Remove(op.MarkerName()));
        Keeps(ns, gone, Own(obj, marker.obj.id)) && Holds(gone, op.Source(), obj)
    {
    }
  }

  lemma RemovalUndoes(op: Operation, obj: Object, marker: Entry)
    requires UndoKnown(op, obj, marker)
    ensures Undoes(op, obj, marker, AtSource, RemovalPlan(op)) && Undoes(op, obj, marker, AtSource, Done)
  {
    var P, some, own := UndoTold(op, obj), Others(obj), Own(obj, marker.obj.id);
    BackIsTold(op, obj);
    EndSafely(P, Anything(), some, own, Back(op, obj));
    IdleSafely(P, Anything(), some, own, Back(op, obj), Flush({op.Home()}), Done);
    UndoLasts(op, obj, marker, AtSource);
    UndoIsTold(op, obj, marker, AtSource);
    EndSafely(P, Anything(), some, own, Undo(op, obj, marker, AtSource));
    MarkerLeaves(op, obj, marker);
    StepSafely(P, Anything(), some, own, Undo(op, obj, marker, AtSource), Remove(op.MarkerName()), Back(op, obj), Then(Flush({op.Home()}), Done));
  }

  lemma AfterIsSeen(op: Operation, ns: Namespace)
    requires IsTransfer(op) && Classify(op, ns) == After
    ensures ReadMarker(op, ns).Readable? && op.MarkerName().At() in ns && ObserveFile(op, ns, op.Target()) == Match
    ensures ObserveFile(op, ns, op.Source()) == Absent && ObserveStage(op, ns) == Absent
  {
    ClassifyIsJudge(op, ns);
  }

  lemma CompletedIsUndone(op: Operation, ns: Namespace)
    requires WasAccepted(op) && Classify(op, ns) == After
    ensures op.Target().At() in ns && op.MarkerName().At() in ns
    ensures UndoKnown(op, ns[op.Target().At()].obj, ns[op.MarkerName().At()])
    ensures InUndo(op, ns[op.Target().At()].obj, ns[op.MarkerName().At()], AtTarget, ns)
  {
    WellFormedNamesApart(op);
    AfterIsSeen(op, ns);
  }

  lemma UndoRunIsTold(op: Operation, ns: Namespace, rest: Plan, w: World)
    requires WasAccepted(op) && Classify(op, ns) == After && (rest == Done || rest == RemovalPlan(op))
    requires Brings(w, Others(ns[op.Target().At()].obj))
    ensures
      var obj, own := ns[op.Target().At()].obj, Own(ns[op.Target().At()].obj, ns[op.MarkerName().At()].obj.id);
      && Throughout(UndoTold(op, obj), own, Trace(ns, Append(UndoCalls(op), rest), w))
      && UndoTold(op, obj)(Run(ns, Append(UndoCalls(op), rest), w).ns)
  {
    CompletedIsUndone(op, ns);
    var obj, marker := ns[op.Target().At()].obj, ns[op.MarkerName().At()];
    RemovalUndoes(op, obj, marker);
    UndoPlanUndoes(op, obj, marker, rest);
    assert Undo(op, obj, marker, AtTarget)(ns);
    AmidCoversTrace(UndoTold(op, obj), Anything(), Others(obj), Own(obj, marker.obj.id), ns, Append(UndoCalls(op), rest), w);
  }

  /** Wherever the compensation of a completed transfer stops, and whatever others add at any name, short of the object
      itself: the object is at the target or back at the source, and the verdict says which, or it is under the
      rollback name of a case-only move, and the verdict is "neither", or "unknown" beside a directory in the way. */
  lemma CompensationCrashIsExact(op: Operation, ns: Namespace, w: World)
    requires WasAccepted(op) && Classify(op, ns) == After && Brings(w, Others(ns[op.Target().At()].obj))
    ensures UndoTold(op, ns[op.Target().At()].obj)(Compensated(op, ns, w).ns)
  {
    CompletedIsUndone(op, ns);
    UndoRunIsTold(op, ns, Done, w);
    UndoRunIsTold(op, ns, RemovalPlan(op), w);
    AppendDone(UndoCalls(op));
    UndoIsTold(op, ns[op.Target().At()].obj, ns[op.MarkerName().At()], AtTarget);
    assert Undo(op, ns[op.Target().At()].obj, ns[op.MarkerName().At()], AtTarget)(ns);
    CompensatedIsUndo(op, ns, w);
  }

  /** What a compensation that gets to its calls comes to: its undo, and the removal of the marker behind it or not. */
  lemma CompensatedIsUndo(op: Operation, ns: Namespace, w: World)
    requires IsTransfer(op)
    ensures
      var out := Compensated(op, ns, w).ns;
      out == ns || out == Run(ns, UndoCalls(op), w).ns || out == Run(ns, Append(UndoCalls(op), RemovalPlan(op)), w).ns
  {
    if UndoPlan(op, ns).Some? {
      UndoPlanIsUndoCalls(op, ns);
      CompensatedRuns(op, ns, UndoCalls(op), w);
    }
  }

  lemma UndoPlanIsUndoCalls(op: Operation, ns: Namespace)
    requires IsTransfer(op) && UndoPlan(op, ns).Some?
    ensures UndoPlan(op, ns) == Some(UndoCalls(op))
  {
  }

  lemma CompensatedRuns(op: Operation, ns: Namespace, plan: Plan, w: World)
    requires UndoPlan(op, ns) == Some(plan)
    ensures
      var out := Compensated(op, ns, w).ns;
      out == Run(ns, plan, w).ns || out == Run(ns, Append(plan, RemovalPlan(op)), w).ns
  {
    RunAppends(ns, plan, RemovalPlan(op), w);
  }

  lemma AppendDone(plan: Plan)
    ensures Append(plan, Done) == plan
  {
  }

  /** On "neither" and on "unknown" no recovery call does anything: resume, compensate and finalize all refuse, in any
      world, as long as there is a marker. */
  lemma NoVerdictNoRecovery(op: Operation, ns: Namespace, w: World, expectAfter: bool)
    requires Classify(op, ns) == Neither || Classify(op, ns) == Unknown
    ensures Resumed(op, ns, w) == Outcome(ns, w, false) && Compensated(op, ns, w) == Outcome(ns, w, false)
    ensures !ReadMarker(op, ns).Missing? ==> Finalized(op, ns, w, expectAfter) == Outcome(ns, w, false)
  {
  }

  /** It does come to that: in every case-only move whose rollback name is free, a compensation that stops after its
      first call leaves the object where no recovery call finds it. */
  lemma FirstCallStrands(op: Operation, ns: Namespace, w: World, later: World, expectAfter: bool)
    requires WasAccepted(op) && UsesStage(op) && Classify(op, ns) == After && Free(ns, op.Rollback())
    requires Quiet(w) && w.limit == 1
    ensures
      var obj, out := ns[op.Target().At()].obj, Compensated(op, ns, w).ns;
      && IsStranded(op, obj, out)
      && Resumed(op, out, later) == Compensated(op, out, later) == Finalized(op, out, later, expectAfter) == Outcome(out, later, false)
  {
    CompletedIsUndone(op, ns);
    var obj, marker := ns[op.Target().At()].obj, ns[op.MarkerName().At()];
    var out := Apply(ns, Rename(op.Target(), op.Rollback()));
    UndoRename(op, obj, marker, AtTarget, AtRollback, ns);
    StopsAfterOne(ns, Rename(op.Target(), op.Rollback()), CaseUndoPlan(op).rest, w);
    StrandedIsTold(op, obj, marker, out);
    NoVerdictNoRecovery(op, out, later, expectAfter);
  }

  lemma StopsAfterOne(ns: Namespace, s: Step, rest: Plan, w: World)
    requires Quiet(w) && w.limit == 1 && Enabled(ns, s) && rest.Then? && rest.step.Flush?
    ensures !Run(ns, Then(s, rest), w).ok && Run(ns, Then(s, rest), w).ns == Apply(ns, s)
  {
    assert Interfere(ns, NextAdditions(w)) == ns;
    assert Interfere(Apply(ns, s), NextAdditions(Later(w))) == Apply(ns, s);
  }

  /** A plan whose first call is never possible ends where it began, but for what others add. */
  lemma BlockedAtOnce(ns: Namespace, from: Name, to: Name, rest: Plan, w: World)
    requires !Free(ns, to)
    ensures
      var r := Run(ns, Then(Rename(from, to), rest), w);
      !r.ok && r.ns == Interfere(ns, NextAdditions(w))
  {
  }

  /** With the rollback name occupied a case-only compensation moves nothing, in any world. */
  lemma OccupiedRollbackStays(op: Operation, ns: Namespace, w: World)
    requires WasAccepted(op) && UsesStage(op) && Classify(op, ns) == After && !Free(ns, op.Rollback())
    ensures
      var r := Compensated(op, ns, w);
      !r.ok && Holds(r.ns, op.Target(), ns[op.Target().At()].obj) && (r.ns == ns || r.ns == Interfere(ns, NextAdditions(w)))
  {
    CompletedIsUndone(op, ns);
    BlockedAtOnce(ns, op.Target(), op.Rollback(), CaseUndoPlan(op).rest, w);
  }

  /** Some compensation of this state strands its object. */
  ghost predicate CanStrand(op: Operation, ns: Namespace)
    requires op.Target().At() in ns
  {
    exists w: World :: IsStranded(op, ns[op.Target().At()].obj, Compensated(op, ns, w).ns)
  }

  ghost predicate CanStrandAlone(op: Operation, ns: Namespace)
    requires op.Target().At() in ns
  {
    exists w: World :: Quiet(w) && IsStranded(op, ns[op.Target().At()].obj, Compensated(op, ns, w).ns)
  }

  /** A compensation can strand its object, among other processes or alone, exactly if the operation is a case-only move
      and its rollback name is free. */
  lemma StrandsExactly(op: Operation, ns: Namespace)
    requires WasAccepted(op) && Classify(op, ns) == After
    ensures op.Target().At() in ns
    ensures CanStrand(op, ns) <==> UsesStage(op) && Free(ns, op.Rollback())
    ensures CanStrandAlone(op, ns) <==> UsesStage(op) && Free(ns, op.Rollback())
  {
    CompletedIsUndone(op, ns);
    if UsesStage(op) {
      if Free(ns, op.Rollback()) {
        FirstCallStrands(op, ns, World(1, 0, []), World(1, 0, []), true);
      } else {
        forall w: World ensures !IsStranded(op, ns[op.Target().At()].obj, Compensated(op, ns, w).ns) {
          OccupiedRollbackStays(op, ns, w);
        }
      }
    }
  }

  /** Carried to the start: a move or quarantine that passed its checks and ran to its end can be stranded by its
      compensation exactly if it is case-only and the rollback name was free when it started. */
  lemma CompletedStrandsExactly(op: Operation, ns: Namespace, markerId: string, w: World)
    requires op.WellFormed() && (MoveReady(op, ns) || QuarantineReady(op, ns))
    requires Free(ns, op.MarkerName()) && (UsesStage(op) ==> Free(ns, op.Stage()))
    requires Lets(w, if MoveReady(op, ns) then MovePlan(op, markerId) else QuarantinePlan(op, markerId))
    ensures
      var done := Run(ns, if MoveReady(op, ns) then MovePlan(op, markerId) else QuarantinePlan(op, markerId), w).ns;
      op.Target().At() in done && (CanStrand(op, done) <==> UsesStage(op) && Free(ns, op.Rollback()))
  {
    ReadyWasAccepted(op, ns);
    TransferEnds(op, ns, markerId, w);
    TransferredIsAfter(op, ns, markerId);
    StrandsExactly(op, Transferred(op, ns, markerId));
    RollbackUntouched(op, ns, markerId);
  }

  lemma TransferEnds(op: Operation, ns: Namespace, markerId: string, w: World)
    requires op.WellFormed() && (MoveReady(op, ns) || QuarantineReady(op, ns))
    requires Free(ns, op.MarkerName()) && (UsesStage(op) ==> Free(ns, op.Stage()))
    requires Lets(w, if MoveReady(op, ns) then MovePlan(op, markerId) else QuarantinePlan(op, markerId))
    ensures Run(ns, if MoveReady(op, ns) then MovePlan(op, markerId) else QuarantinePlan(op, markerId), w).ns == Transferred(op, ns, markerId)
  {
    WellFormedNamesApart(op);
    if MoveReady(op, ns) {
      RunIsExec(ns, MovePlan(op, markerId), w);
      if op.IsCaseOnly() { ExecCaseMove(op, ns, markerId); } else { ExecPlainMove(op, ns, markerId); }
    } else {
      RunIsExec(ns, QuarantinePlan(op, markerId), w);
      ExecQuarantine(op, ns, markerId);
    }
  }

  lemma RollbackUntouched(op: Operation, ns: Namespace, markerId: string)
    requires op.WellFormed() && (MoveReady(op, ns) || QuarantineReady(op, ns))
    ensures Free(Transferred(op, ns, markerId), op.Rollback()) <==> Free(ns, op.Rollback())
  {
    WellFormedNamesApart(op);
  }
}
