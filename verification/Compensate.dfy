/** Undoing a completed operation, and removing its marker. */
module Compensate {
  import opened Text
  import opened Volume
  import opened Disturbed
  import opened LifecycleMarker
  import opened Lifecycle
  import opened LifecycleCrash
  import opened DirectoryCrash
  import opened Resume

  /** The calls that take a completed operation back; nothing when the state is not one to undo. */
  function UndoPlan(op: Operation, ns: Namespace): Option<Plan> {
    if Classify(op, ns) != After then None
    else if op.request.operationKind == CREATE_DIRECTORY then
      if op.Target().At() in ns && IsEmptyDirectory(ns, ns[op.Target().At()].obj.id)
      then Some(Then(Remove(op.Target()), Then(Flush({op.Home()}), Done))) else None
    else if UsesStage(op) then Some(CaseUndoPlan(op))
    else if Free(ns, op.Source()) then Some(PlainUndoPlan(op))
    else None
  }

  function PlainUndoPlan(op: Operation): Plan {
    Then(Rename(op.Target(), op.Source()), FlushBoth(op, Done))
  }

  function CaseUndoPlan(op: Operation): Plan {
    Then(Rename(op.Target(), op.Rollback()), FlushBoth(op,
    Then(Rename(op.Rollback(), op.Source()), FlushBoth(op, Done))))
  }

  function RemovalPlan(op: Operation): Plan {
    Then(Remove(op.MarkerName()), Then(Flush({op.Home()}), Done))
  }

  function MarkerRemoved(op: Operation, ns: Namespace, w: World): Outcome {
    match ReadMarker(op, ns)
    case Missing => Outcome(ns, w, true)
    case Torn => Outcome(ns, w, false)
    case Readable(_) => Run(ns, RemovalPlan(op), w)
  }

  function Compensated(op: Operation, ns: Namespace, w: World): Outcome {
    match UndoPlan(op, ns)
    case None => Outcome(ns, w, false)
    case Some(plan) =>
      var r := Run(ns, plan, w);
      if r.ok then MarkerRemoved(op, r.ns, r.world) else r
  }

  function Finalized(op: Operation, ns: Namespace, w: World, expectAfter: bool): Outcome {
    match ReadMarker(op, ns)
    case Missing => Outcome(ns, w, true)
    case Torn => Outcome(ns, w, false)
    case Readable(_) =>
      if expectAfter then
        var r := Resumed(op, ns, w);
        if r.ok then MarkerRemoved(op, r.ns, r.world) else r
      else if Classify(op, ns) == Before then MarkerRemoved(op, ns, w)
      else Outcome(ns, w, false)
  }

  // ---------- compensation undoes the operation ----------

  /** Undisturbed, with time for the whole plan. */
  predicate Lets(w: World, plan: Plan) {
    Quiet(w) && w.limit >= Length(plan)
  }

  /** The namespace after a complete transfer: the object under its new name, and the marker. */
  function Transferred(op: Operation, ns: Namespace, markerId: string): Namespace
    requires op.Source().At() in ns
  {
    (ns - {op.Source().At()})[op.Target().At() := Entry(op.Target().leaf, ns[op.Source().At()].obj)]
      [op.MarkerName().At() := MarkerEntry(op, markerId, op.MarkerText(AFTER, op.request.sourceFileIdentity))]
  }

  lemma ExecOpenMarker(op: Operation, ns: Namespace, markerId: string, rest: Plan)
    requires Free(ns, op.MarkerName())
    ensures Exec(ns, OpenMarker(op, markerId, rest))
         == Exec(ns[op.MarkerName().At() := MarkerEntry(op, markerId, op.MarkerText(PREPARED, ""))], rest)
  {
    var created := ns[op.MarkerName().At() := MarkerEntry(op, markerId, "")];
    assert Apply(ns, Create(op.MarkerName(), Object(markerId, File, ""))) == created;
    ExecRewriteEntry(op, created, markerId, "", PREPARED, "", rest);
    var prepared := MarkerEntry(op, markerId, op.MarkerText(PREPARED, ""));
    assert created[op.MarkerName().At() := prepared] == ns[op.MarkerName().At() := prepared];
  }

  lemma ExecFlushes(op: Operation, ns: Namespace, rest: Plan)
    ensures Exec(ns, FlushBoth(op, rest)) == Exec(ns, rest)
    ensures Exec(ns, Then(Flush({op.Source().dir}), rest)) == Exec(ns, rest)
    ensures Exec(ns, Then(Flush({op.Home()}), rest)) == Exec(ns, rest)
  {
    assert Exec(ns, Then(Flush({op.Target().dir}), rest)) == Exec(ns, rest);
  }

  lemma ExecFinish(op: Operation, ns: Namespace, markerId: string, text: string)
    requires op.MarkerName().At() in ns && ns[op.MarkerName().At()] == MarkerEntry(op, markerId, text)
    ensures Exec(ns, FinishMovePlan(op))
         == Some(ns[op.MarkerName().At() := MarkerEntry(op, markerId, op.MarkerText(AFTER, op.request.sourceFileIdentity))])
  {
    var id := op.request.sourceFileIdentity;
    ExecRewriteEntry(op, ns, markerId, text, AFTER, id, FlushBoth(op, Done));
    var end := ns[op.MarkerName().At() := MarkerEntry(op, markerId, op.MarkerText(AFTER, id))];
    ExecFlushes(op, end, Done);
    assert Exec(end, Done) == Some(end);
  }

  lemma ExecPlainMove(op: Operation, ns: Namespace, markerId: string)
    requires op.WellFormed() && NamesApart(op) && MoveReady(op, ns) && !op.IsCaseOnly() && Free(ns, op.MarkerName())
    ensures Exec(ns, MovePlan(op, markerId)) == Some(Transferred(op, ns, markerId))
  {
    var marked := ns[op.MarkerName().At() := MarkerEntry(op, markerId, op.MarkerText(PREPARED, ""))];
    var moved := Moved(marked, op.Source(), op.Target());
    ExecOpenMarker(op, ns, markerId, FlushBoth(op, PlainMovePlan(op)));
    ExecFlushes(op, marked, PlainMovePlan(op));
    assert Exec(marked, PlainMovePlan(op)) == Exec(moved, FlushBoth(op, FinishMovePlan(op)));
    ExecFlushes(op, moved, FinishMovePlan(op));
    ExecFinish(op, moved, markerId, op.MarkerText(PREPARED, ""));
    var after := MarkerEntry(op, markerId, op.MarkerText(AFTER, op.request.sourceFileIdentity));
    assert moved[op.MarkerName().At() := after] == Transferred(op, ns, markerId);
  }

  lemma ExecCaseMove(op: Operation, ns: Namespace, markerId: string)
    requires op.WellFormed() && NamesApart(op) && MoveReady(op, ns) && op.IsCaseOnly()
    requires Free(ns, op.MarkerName()) && Free(ns, op.Stage())
    ensures Exec(ns, MovePlan(op, markerId)) == Some(Transferred(op, ns, markerId))
  {
    var id, m := op.request.sourceFileIdentity, op.MarkerName();
    var marked := ns[m.At() := MarkerEntry(op, markerId, op.MarkerText(PREPARED, ""))];
    var staged := Moved(marked, op.Source(), op.Stage());
    var named := staged[m.At() := MarkerEntry(op, markerId, op.MarkerText(CASE_INTERMEDIATE, id))];
    var moved := Moved(named, op.Stage(), op.Target());
    var toTarget := Then(Rename(op.Stage(), op.Target()), FlushBoth(op, FinishMovePlan(op)));
    var onStage := Rewrite(op, CASE_INTERMEDIATE, id, toTarget);
    ExecOpenMarker(op, ns, markerId, FlushBoth(op, CaseMovePlan(op)));
    ExecFlushes(op, marked, CaseMovePlan(op));
    assert Exec(marked, CaseMovePlan(op)) == Exec(staged, FlushBoth(op, onStage));
    ExecFlushes(op, staged, onStage);
    ExecRewriteEntry(op, staged, markerId, op.MarkerText(PREPARED, ""), CASE_INTERMEDIATE, id, toTarget);
    assert Exec(named, toTarget) == Exec(moved, FlushBoth(op, FinishMovePlan(op)));
    ExecFlushes(op, moved, FinishMovePlan(op));
    ExecFinish(op, moved, markerId, op.MarkerText(CASE_INTERMEDIATE, id));
    CaseMoveNets(op, ns, markerId);
  }

  /** The detour over the staging name leaves no trace. */
  lemma CaseMoveNets(op: Operation, ns: Namespace, markerId: string)
    requires NamesApart(op) && op.request.operationKind == MOVE && op.Source().At() in ns
    requires Free(ns, op.MarkerName()) && Free(ns, op.Stage()) && op.Source().At() == op.Target().At()
    ensures
      var id, m := op.request.sourceFileIdentity, op.MarkerName().At();
      var marked := ns[m := MarkerEntry(op, markerId, op.MarkerText(PREPARED, ""))];
      var named := Moved(marked, op.Source(), op.Stage())[m := MarkerEntry(op, markerId, op.MarkerText(CASE_INTERMEDIATE, id))];
      Moved(named, op.Stage(), op.Target())[m := MarkerEntry(op, markerId, op.MarkerText(AFTER, id))]
        == Transferred(op, ns, markerId)
  {
  }

  lemma ExecQuarantine(op: Operation, ns: Namespace, markerId: string)
    requires op.WellFormed() && NamesApart(op) && QuarantineReady(op, ns) && Free(ns, op.MarkerName())
    ensures Exec(ns, QuarantinePlan(op, markerId)) == Some(Transferred(op, ns, markerId))
  {
    var id, home := op.request.sourceFileIdentity, Flush({op.Source().dir});
    var marked := ns[op.MarkerName().At() := MarkerEntry(op, markerId, op.MarkerText(PREPARED, ""))];
    var moved := Moved(marked, op.Source(), op.Target());
    var finish := Rewrite(op, AFTER, id, Then(home, Done));
    var rename := Then(Rename(op.Source(), op.Target()), FlushBoth(op, finish));
    ExecOpenMarker(op, ns, markerId, Then(home, rename));
    ExecFlushes(op, marked, rename);
    assert Exec(marked, rename) == Exec(moved, FlushBoth(op, finish));
    ExecFlushes(op, moved, finish);
    ExecRewriteEntry(op, moved, markerId, op.MarkerText(PREPARED, ""), AFTER, id, Then(home, Done));
    var end := moved[op.MarkerName().At() := MarkerEntry(op, markerId, op.MarkerText(AFTER, id))];
    assert end == Transferred(op, ns, markerId);
    ExecFlushes(op, end, Done);
    assert Exec(end, Done) == Some(end);
  }

  /** A completed move or quarantine is classified as such. */
  lemma TransferredIsAfter(op: Operation, ns: Namespace, markerId: string)
    requires op.WellFormed() && (MoveReady(op, ns) || QuarantineReady(op, ns))
    requires Free(ns, op.MarkerName()) && (UsesStage(op) ==> Free(ns, op.Stage()))
    ensures Classify(op, Transferred(op, ns, markerId)) == After
  {
    var obj, after := SourceObject(op, ns), Transferred(op, ns, markerId);
    TransferIsKnown(op, ns);
    TransferredIsAlone(op, ns, markerId);
    ShownAtTarget(op, obj, after, markerId, op.request.sourceFileIdentity);
  }

  lemma TransferredIsAlone(op: Operation, ns: Namespace, markerId: string)
    requires ObserveFile(op, ns, op.Source()) == Match && Known(op, SourceObject(op, ns)) && Holds(ns, op.Source(), SourceObject(op, ns))
    requires UsesStage(op) ==> Free(ns, op.Stage())
    ensures Alone(op, SourceObject(op, ns), AtTarget, Transferred(op, ns, markerId))
  {
  }

  // ---------- moves and quarantines taken back ----------

  lemma ExecRemoval(op: Operation, ns: Namespace)
    requires op.MarkerName().At() in ns && ns[op.MarkerName().At()].obj.kind == File
    ensures Exec(ns, RemovalPlan(op)) == Some(ns - {op.MarkerName().At()})
    ensures Length(RemovalPlan(op)) == 2
  {
    var gone := ns - {op.MarkerName().At()};
    assert Exec(gone, Then(Flush({op.Home()}), Done)) == Exec(gone, Done);
    assert Length(Then(Flush({op.Home()}), Done)) == 1 + Length(Done);
  }

  lemma FlushesAddTwo(op: Operation, rest: Plan)
    ensures Length(FlushBoth(op, rest)) == 2 + Length(rest)
  {
    assert Length(Then(Flush({op.Target().dir}), rest)) == 1 + Length(rest);
  }

  /** Undoing the transfer brings the object back; removing the marker then restores the start. */
  lemma ExecPlainUndo(op: Operation, ns: Namespace, markerId: string)
    requires op.WellFormed() && NamesApart(op) && (MoveReady(op, ns) || QuarantineReady(op, ns)) && !UsesStage(op)
    requires Free(ns, op.MarkerName())
    ensures
      var after := Transferred(op, ns, markerId);
      && Free(after, op.Source())
      && Exec(after, PlainUndoPlan(op)) == Some(Moved(after, op.Target(), op.Source()))
      && Moved(after, op.Target(), op.Source()) - {op.MarkerName().At()} == ns
  {
    var after := Transferred(op, ns, markerId);
    var back := Moved(after, op.Target(), op.Source());
    assert Exec(after, PlainUndoPlan(op)) == Exec(back, FlushBoth(op, Done));
    ExecFlushes(op, back, Done);
  }

  lemma ExecCaseUndo(op: Operation, ns: Namespace, markerId: string)
    requires NamesApart(op) && MoveReady(op, ns) && UsesStage(op)
    requires Free(ns, op.MarkerName())
    ensures
      var after := Transferred(op, ns, markerId);
      if Free(ns, op.Rollback()) then
        && Exec(after, CaseUndoPlan(op)) == Some(Moved(after, op.Target(), op.Source()))
        && Moved(after, op.Target(), op.Source()) - {op.MarkerName().At()} == ns
      else !Enabled(after, Rename(op.Target(), op.Rollback()))
  {
    var after := Transferred(op, ns, markerId);
    if Free(ns, op.Rollback()) {
      ExecThroughRollback(op, after);
      CaseUndoNets(op, ns, markerId);
    }
  }

  lemma ExecThroughRollback(op: Operation, after: Namespace)
    requires op.Target().At() in after && Free(after, op.Rollback()) && op.Source().At() == op.Target().At()
    ensures Exec(after, CaseUndoPlan(op)) == Some(Moved(Moved(after, op.Target(), op.Rollback()), op.Rollback(), op.Source()))
  {
    var aside := Moved(after, op.Target(), op.Rollback());
    var back := Moved(aside, op.Rollback(), op.Source());
    var onward := Then(Rename(op.Rollback(), op.Source()), FlushBoth(op, Done));
    assert Exec(after, CaseUndoPlan(op)) == Exec(aside, FlushBoth(op, onward));
    ExecFlushes(op, aside, onward);
    assert Exec(aside, onward) == Exec(back, FlushBoth(op, Done));
    ExecFlushes(op, back, Done);
  }

  lemma CaseUndoNets(op: Operation, ns: Namespace, markerId: string)
    requires NamesApart(op) && op.request.operationKind == MOVE && op.Source().At() in ns
    requires ns[op.Source().At()].leaf == op.Source().leaf
    requires Free(ns, op.MarkerName()) && Free(ns, op.Rollback()) && op.Source().At() == op.Target().At()
    ensures
      var after := Transferred(op, ns, markerId);
      && Moved(Moved(after, op.Target(), op.Rollback()), op.Rollback(), op.Source()) == Moved(after, op.Target(), op.Source())
      && Moved(after, op.Target(), op.Source()) - {op.MarkerName().At()} == ns
  {
  }

  lemma MarkerStaysReadable(op: Operation, back: Namespace, markerId: string)
    requires op.WritesMarkers() && op.MarkerName().At() in back
    requires back[op.MarkerName().At()] == MarkerEntry(op, markerId, op.MarkerText(AFTER, op.request.sourceFileIdentity))
    ensures ReadMarker(op, back).Readable?
  {
    AfterTextIsReadable(op, op.request.sourceFileIdentity);
  }

  /** Running the undo and the marker removal to their ends. */
  lemma CompensationRuns(op: Operation, after: Namespace, plan: Plan, w: World)
    requires UndoPlan(op, after) == Some(plan) && Quiet(w) && w.limit >= Length(plan) + 2
    requires Exec(after, plan).Some? ==>
               ReadMarker(op, Exec(after, plan).value).Readable?
    ensures
      var r := Compensated(op, after, w);
      && (r.ok <==> Exec(after, plan).Some?)
      && (r.ok ==> r.ns == Exec(after, plan).value - {op.MarkerName().At()})
  {
    RunIsExec(after, plan, w);
    var r := Run(after, plan, w);
    if r.ok {
      ExecRemoval(op, r.ns);
      RunIsExec(r.ns, RemovalPlan(op), r.world);
    }
  }

  lemma MoveUndoneAlone(op: Operation, ns: Namespace, markerId: string, first: World, second: World)
    requires op.WellFormed() && MoveReady(op, ns)
    requires Free(ns, op.MarkerName()) && (UsesStage(op) ==> Free(ns, op.Stage()))
    requires Lets(first, MovePlan(op, markerId)) && Quiet(second) && second.limit >= 8
    ensures
      var moved := Run(ns, MovePlan(op, markerId), first);
      var undone := Compensated(op, moved.ns, second);
      && moved.ok && moved.ns == Transferred(op, ns, markerId) && Classify(op, moved.ns) == After
      && (undone.ok <==> UsesStage(op) ==> Free(ns, op.Rollback()))
      && undone.ns == if undone.ok then ns else moved.ns
  {
    WellFormedNamesApart(op);
    TransferredIsAfter(op, ns, markerId);
    RunIsExec(ns, MovePlan(op, markerId), first);
    if UsesStage(op) {
      ExecCaseMove(op, ns, markerId);
      CaseCompensation(op, ns, markerId, second);
    } else {
      ExecPlainMove(op, ns, markerId);
      PlainCompensation(op, ns, markerId, second);
    }
  }

  lemma PlainCompensation(op: Operation, ns: Namespace, markerId: string, w: World)
    requires op.WellFormed() && NamesApart(op) && (MoveReady(op, ns) || QuarantineReady(op, ns)) && !UsesStage(op)
    requires Free(ns, op.MarkerName()) && Quiet(w) && w.limit >= 8
    ensures var r := Compensated(op, Transferred(op, ns, markerId), w); r.ok && r.ns == ns
  {
    var after := Transferred(op, ns, markerId);
    TransferredIsAfter(op, ns, markerId);
    ExecPlainUndo(op, ns, markerId);
    FlushesAddTwo(op, Done);
    MarkerStaysReadable(op, Moved(after, op.Target(), op.Source()), markerId);
    CompensationRuns(op, after, PlainUndoPlan(op), w);
  }

  lemma CaseCompensation(op: Operation, ns: Namespace, markerId: string, w: World)
    requires op.WellFormed() && NamesApart(op) && MoveReady(op, ns) && UsesStage(op)
    requires Free(ns, op.MarkerName()) && Free(ns, op.Stage()) && Quiet(w) && w.limit >= 8
    ensures
      var after := Transferred(op, ns, markerId);
      var r := Compensated(op, after, w);
      && (r.ok <==> Free(ns, op.Rollback()))
      && r.ns == if r.ok then ns else after
  {
    var after, plan := Transferred(op, ns, markerId), CaseUndoPlan(op);
    TransferredIsAfter(op, ns, markerId);
    ExecCaseUndo(op, ns, markerId);
    CaseUndoIsShort(op);
    if Free(ns, op.Rollback()) {
      MarkerStaysReadable(op, Moved(after, op.Target(), op.Source()), markerId);
      CompensationRuns(op, after, plan, w);
    } else {
      CaseUndoIsBlocked(op, after, w);
    }
  }

  /** A name in the way of the rollback stops the compensation before it has done anything. */
  lemma CaseUndoIsBlocked(op: Operation, after: Namespace, w: World)
    requires UndoPlan(op, after) == Some(CaseUndoPlan(op)) && Quiet(w) && w.limit >= 1
    requires !Free(after, op.Rollback())
    ensures !Compensated(op, after, w).ok && Compensated(op, after, w).ns == after
  {
    assert Interfere(after, NextAdditions(w)) == after;
  }

  lemma CaseUndoIsShort(op: Operation)
    ensures Length(CaseUndoPlan(op)) == 6
  {
    FlushesAddTwo(op, Done);
    var onward := Then(Rename(op.Rollback(), op.Source()), FlushBoth(op, Done));
    FlushesAddTwo(op, onward);
    assert Length(onward) == 1 + Length(FlushBoth(op, Done));
  }

  lemma QuarantineUndoneAlone(op: Operation, ns: Namespace, markerId: string, first: World, second: World)
    requires op.WellFormed() && QuarantineReady(op, ns) && Free(ns, op.MarkerName())
    requires Lets(first, QuarantinePlan(op, markerId)) && Quiet(second) && second.limit >= 8
    ensures
      var gone := Run(ns, QuarantinePlan(op, markerId), first);
      var undone := Compensated(op, gone.ns, second);
      && gone.ok && gone.ns == Transferred(op, ns, markerId) && Classify(op, gone.ns) == After
      && undone.ok && undone.ns == ns
  {
    WellFormedNamesApart(op);
    TransferredIsAfter(op, ns, markerId);
    RunIsExec(ns, QuarantinePlan(op, markerId), first);
    ExecQuarantine(op, ns, markerId);
    PlainCompensation(op, ns, markerId, second);
  }

  // ---------- the same while others add elsewhere ----------

  /** The names a transfer and its compensation touch or look at. */
  function AllNames(op: Operation): set<Key> {
    {op.Source().At(), op.Target().At(), op.MarkerName().At()} + if UsesStage(op) then {op.Stage().At(), op.Rollback().At()} else {}
  }

  lemma RewriteStaysWithin(op: Operation, phase: string, identity: string, rest: Plan)
    requires Within(rest, AllNames(op))
    ensures Within(Rewrite(op, phase, identity, rest), AllNames(op))
  {
    assert Within(Then(Write(op.MarkerName(), op.MarkerText(phase, identity)), Then(Sync(op.MarkerName()), rest)), AllNames(op));
  }

  lemma FlushesStayWithin(op: Operation, rest: Plan)
    requires Within(rest, AllNames(op))
    ensures Within(FlushBoth(op, rest), AllNames(op)) && Within(Then(Flush({op.Source().dir}), rest), AllNames(op))
  {
    assert Within(Then(Flush({op.Target().dir}), rest), AllNames(op));
  }

  lemma MoveStaysWithin(op: Operation, markerId: string)
    requires op.request.operationKind == MOVE
    ensures Within(MovePlan(op, markerId), AllNames(op))
  {
    var id := op.request.sourceFileIdentity;
    FlushesStayWithin(op, Done);
    RewriteStaysWithin(op, AFTER, id, FlushBoth(op, Done));
    FlushesStayWithin(op, FinishMovePlan(op));
    if op.IsCaseOnly() {
      var toTarget := Then(Rename(op.Stage(), op.Target()), FlushBoth(op, FinishMovePlan(op)));
      RewriteStaysWithin(op, CASE_INTERMEDIATE, id, toTarget);
      FlushesStayWithin(op, Rewrite(op, CASE_INTERMEDIATE, id, toTarget));
      FlushesStayWithin(op, CaseMovePlan(op));
      RewriteStaysWithin(op, PREPARED, "", FlushBoth(op, CaseMovePlan(op)));
    } else {
      FlushesStayWithin(op, PlainMovePlan(op));
      RewriteStaysWithin(op, PREPARED, "", FlushBoth(op, PlainMovePlan(op)));
    }
  }

  lemma QuarantineStaysWithin(op: Operation, markerId: string)
    requires op.request.operationKind == DELETE
    ensures Within(QuarantinePlan(op, markerId), AllNames(op))
  {
    var finish := Rewrite(op, AFTER, op.request.sourceFileIdentity, Then(Flush({op.Source().dir}), Done));
    FlushesStayWithin(op, Done);
    RewriteStaysWithin(op, AFTER, op.request.sourceFileIdentity, Then(Flush({op.Source().dir}), Done));
    FlushesStayWithin(op, finish);
    var rename := Then(Rename(op.Source(), op.Target()), FlushBoth(op, finish));
    FlushesStayWithin(op, rename);
    RewriteStaysWithin(op, PREPARED, "", Then(Flush({op.Source().dir}), rename));
  }

  lemma UndoStaysWithin(op: Operation, ns: Namespace)
    requires IsTransfer(op) && UndoPlan(op, ns).Some?
    ensures Within(UndoPlan(op, ns).value, AllNames(op))
  {
    FlushesStayWithin(op, Done);
    if UsesStage(op) {
      FlushesStayWithin(op, Then(Rename(op.Rollback(), op.Source()), FlushBoth(op, Done)));
    }
  }

  lemma OpenIgnores(ns: Namespace, env: seq<Namespace>, keys: set<Key>, name: Name, kind: Kind)
    requires AllAvoid(env, keys) && name.At() in keys
    ensures Open(Arrivals(ns, env), name, kind) == Open(ns, name, kind) && (Free(Arrivals(ns, env), name) <==> Free(ns, name))
  {
    ArrivalsStayAway(ns, env, keys, name.At());
  }

  lemma ObservationIgnores(op: Operation, ns: Namespace, env: seq<Namespace>, name: Name)
    requires AllAvoid(env, AllNames(op)) && name.At() in AllNames(op)
    ensures ObserveFile(op, Arrivals(ns, env), name) == ObserveFile(op, ns, name)
  {
    OpenIgnores(ns, env, AllNames(op), name, File);
  }

  /** What others add elsewhere does not change what recovery sees. */
  lemma VerdictIgnores(op: Operation, ns: Namespace, env: seq<Namespace>)
    requires IsTransfer(op) && AllAvoid(env, AllNames(op))
    ensures ReadMarker(op, Arrivals(ns, env)) == ReadMarker(op, ns) && Classify(op, Arrivals(ns, env)) == Classify(op, ns)
  {
    OpenIgnores(ns, env, AllNames(op), op.MarkerName(), File);
    ObservationIgnores(op, ns, env, op.Source());
    ObservationIgnores(op, ns, env, op.Target());
    if UsesStage(op) { ObservationIgnores(op, ns, env, op.Stage()); }
    ClassifyIsJudge(op, ns);
    ClassifyIsJudge(op, Arrivals(ns, env));
  }

  lemma RecoveryIgnores(op: Operation, ns: Namespace, env: seq<Namespace>)
    requires IsTransfer(op) && AllAvoid(env, AllNames(op))
    ensures ReadMarker(op, Arrivals(ns, env)) == ReadMarker(op, ns)
    ensures Classify(op, Arrivals(ns, env)) == Classify(op, ns) && UndoPlan(op, Arrivals(ns, env)) == UndoPlan(op, ns)
  {
    VerdictIgnores(op, ns, env);
    OpenIgnores(ns, env, AllNames(op), op.Source(), File);
  }

  /** A file's removal commutes with arrivals elsewhere, too. */
  lemma {:induction false} RemovalArrives(ns: Namespace, env: seq<Namespace>, name: Name, keys: set<Key>)
    requires AllAvoid(env, keys) && name.At() in keys
    ensures Arrivals(ns, env) - {name.At()} == Arrivals(ns - {name.At()}, env)
    decreases |env|
  {
    if env != [] {
      assert env[0].Keys !! keys;
      assert Interfere(ns, env[0]) - {name.At()} == Interfere(ns - {name.At()}, env[0]);
      RemovalArrives(Interfere(ns, env[0]), env[1..], name, keys);
    }
  }

  lemma RemovalCommutes(ns: Namespace, env: seq<Namespace>, name: Name, dirs: set<string>, w: World, keys: set<Key>)
    requires AllAvoid(env, keys) && Avoids(w, keys) && w.limit >= 2
    requires name.At() in keys && name.At() in ns && ns[name.At()].obj.kind.File?
    ensures
      var r := Run(Arrivals(ns, env), Then(Remove(name), Then(Flush(dirs), Done)), w);
      r.ok && IsRest(r.world, w) && r.ns == Arrivals(ns - {name.At()}, env + Arrived(w, r.world))
  {
    var flush, more, gone := Then(Flush(dirs), Done), Seen(env, w), ns - {name.At()};
    FirstRemoval(ns, env, name, flush, w, keys);
    RunCommutes(gone, more, flush, Later(w), keys);
    ArrivedOn(w, env, Run(Arrivals(gone, more), flush, Later(w)).world);
    FlushRuns(gone, dirs, Later(w).(env := []));
  }

  lemma FirstRemoval(ns: Namespace, env: seq<Namespace>, name: Name, rest: Plan, w: World, keys: set<Key>)
    requires AllAvoid(env, keys) && Avoids(w, keys) && w.limit >= 1
    requires name.At() in keys && name.At() in ns && ns[name.At()].obj.kind.File?
    ensures Run(Arrivals(ns, env), Then(Remove(name), rest), w) == Run(Arrivals(ns - {name.At()}, Seen(env, w)), rest, Later(w))
    ensures AllAvoid(Seen(env, w), keys) && Avoids(Later(w), keys)
  {
    ArrivalsSeen(ns, env, w, keys);
    ArrivalsStayAway(ns, Seen(env, w), keys, name.At());
    RemovalArrives(ns, Seen(env, w), name, keys);
  }

  lemma FlushRuns(ns: Namespace, dirs: set<string>, w: World)
    requires Quiet(w) && w.limit >= 1
    ensures Run(ns, Then(Flush(dirs), Done), w).ok && Run(ns, Then(Flush(dirs), Done), w).ns == ns
  {
    assert Interfere(ns, NextAdditions(w)) == ns;
    assert Run(ns, Then(Flush(dirs), Done), w) == Run(ns, Done, Later(w));
  }

  /** A compensation among additions elsewhere is what it would be alone, with the additions. */
  lemma CompensationCommutes(op: Operation, ns: Namespace, env: seq<Namespace>, w: World)
    requires IsTransfer(op) && AllAvoid(env, AllNames(op)) && Avoids(w, AllNames(op)) && w.limit >= 8
    ensures
      var r, alone := Compensated(op, Arrivals(ns, env), w), Compensated(op, ns, w.(env := []));
      && r.ok == alone.ok && IsRest(r.world, w) && r.ns == Arrivals(alone.ns, env + Arrived(w, r.world))
  {
    RecoveryIgnores(op, ns, env);
    assert env + Arrived(w, w) == env;
    if UndoPlan(op, ns).Some? {
      UndoStaysWithin(op, ns);
      UndoIsShort(op, ns);
      UndoneCommutes(op, ns, env, UndoPlan(op, ns).value, w);
    }
  }

  lemma UndoIsShort(op: Operation, ns: Namespace)
    requires IsTransfer(op) && UndoPlan(op, ns).Some?
    ensures Length(UndoPlan(op, ns).value) <= 6
  {
    FlushesAddTwo(op, Done);
    CaseUndoIsShort(op);
  }

  lemma MarkerRemovalCommutes(op: Operation, ns: Namespace, env: seq<Namespace>, w: World, alone: World)
    requires IsTransfer(op) && AllAvoid(env, AllNames(op)) && Avoids(w, AllNames(op)) && w.limit >= 2
    requires Quiet(alone) && alone.limit >= 2
    ensures
      var r, r' := MarkerRemoved(op, Arrivals(ns, env), w), MarkerRemoved(op, ns, alone);
      && r.ok == r'.ok && IsRest(r.world, w) && r.ns == Arrivals(r'.ns, env + Arrived(w, r.world))
  {
    RecoveryIgnores(op, ns, env);
    assert env + Arrived(w, w) == env;
    if ReadMarker(op, ns).Readable? {
      RemovalCommutes(ns, env, op.MarkerName(), {op.Home()}, w, AllNames(op));
      RemovalCommutes(ns, [], op.MarkerName(), {op.Home()}, alone, AllNames(op));
    }
  }

  lemma UndoneCommutes(op: Operation, ns: Namespace, env: seq<Namespace>, plan: Plan, w: World)
    requires IsTransfer(op) && AllAvoid(env, AllNames(op)) && Avoids(w, AllNames(op)) && Within(plan, AllNames(op))
    requires UndoPlan(op, ns) == UndoPlan(op, Arrivals(ns, env)) == Some(plan) && Length(plan) <= 6 && w.limit >= 8
    ensures
      var r, alone := Compensated(op, Arrivals(ns, env), w), Compensated(op, ns, w.(env := []));
      && r.ok == alone.ok && IsRest(r.world, w) && r.ns == Arrivals(alone.ns, env + Arrived(w, r.world))
  {
    RunCommutes(ns, env, plan, w, AllNames(op));
    var alone, r := Run(ns, plan, w.(env := [])), Run(Arrivals(ns, env), plan, w);
    if r.ok {
      RunIsExec(ns, plan, w.(env := []));
      MarkerRemovalCommutes(op, alone.ns, env + Arrived(w, r.world), r.world, alone.world);
      ArrivedFurther(w, r.world, MarkerRemoved(op, r.ns, r.world).world, env);
    }
  }

  lemma ArrivedFurther(w: World, then_: World, later: World, env: seq<Namespace>)
    requires IsRest(then_, w) && IsRest(later, then_)
    ensures IsRest(later, w) && (env + Arrived(w, then_)) + Arrived(then_, later) == env + Arrived(w, later)
  {
  }

  /** A move followed by its compensation, with others adding elsewhere before every call: what comes out is the namespace
      it started from and what others have added, with no marker left. For a case-only move this needs the rollback name
      to be free; when it is not, the move stands as it was. */
  lemma CompensateUndoesMove(op: Operation, ns: Namespace, markerId: string, first: World, second: World)
    requires op.WellFormed() && MoveReady(op, ns)
    requires Free(ns, op.MarkerName()) && (UsesStage(op) ==> Free(ns, op.Stage()))
    requires Avoids(first, AllNames(op)) && first.limit >= Length(MovePlan(op, markerId))
    requires Avoids(second, AllNames(op)) && second.limit >= 8
    ensures
      var moved := Run(ns, MovePlan(op, markerId), first);
      var undone := Compensated(op, moved.ns, second);
      var arrived := Arrived(first, moved.world) + Arrived(second, undone.world);
      && moved.ok && Classify(op, moved.ns) == After
      && (undone.ok <==> UsesStage(op) ==> Free(ns, op.Rollback()))
      && undone.ns == Arrivals(if undone.ok then ns else Transferred(op, ns, markerId), arrived)
  {
    var alone := first.(env := []);
    MoveUndoneAlone(op, ns, markerId, alone, second.(env := []));
    MoveStaysWithin(op, markerId);
    TransferThenUndo(op, ns, MovePlan(op, markerId), first, second);
  }

  lemma TransferThenUndo(op: Operation, ns: Namespace, plan: Plan, first: World, second: World)
    requires IsTransfer(op) && Within(plan, AllNames(op))
    requires Avoids(first, AllNames(op)) && Avoids(second, AllNames(op)) && second.limit >= 8
    ensures
      var moved, alone := Run(ns, plan, first), Run(ns, plan, first.(env := []));
      var undone, backAlone := Compensated(op, moved.ns, second), Compensated(op, alone.ns, second.(env := []));
      && moved.ok == alone.ok && Classify(op, moved.ns) == Classify(op, alone.ns) && undone.ok == backAlone.ok
      && undone.ns == Arrivals(backAlone.ns, Arrived(first, moved.world) + Arrived(second, undone.world))
  {
    RunCommutes(ns, [], plan, first, AllNames(op));
    var moved, alone := Run(ns, plan, first), Run(ns, plan, first.(env := []));
    assert [] + Arrived(first, moved.world) == Arrived(first, moved.world);
    RecoveryIgnores(op, alone.ns, Arrived(first, moved.world));
    CompensationCommutes(op, alone.ns, Arrived(first, moved.world), second);
  }

  /** The same for a quarantine. */
  lemma CompensateUndoesQuarantine(op: Operation, ns: Namespace, markerId: string, first: World, second: World)
    requires op.WellFormed() && QuarantineReady(op, ns) && Free(ns, op.MarkerName())
    requires Avoids(first, AllNames(op)) && first.limit >= Length(QuarantinePlan(op, markerId))
    requires Avoids(second, AllNames(op)) && second.limit >= 8
    ensures
      var gone := Run(ns, QuarantinePlan(op, markerId), first);
      var undone := Compensated(op, gone.ns, second);
      && gone.ok && Classify(op, gone.ns) == After && undone.ok
      && undone.ns == Arrivals(ns, Arrived(first, gone.world) + Arrived(second, undone.world))
  {
    QuarantineUndoneAlone(op, ns, markerId, first.(env := []), second.(env := []));
    QuarantineStaysWithin(op, markerId);
    TransferThenUndo(op, ns, QuarantinePlan(op, markerId), first, second);
  }

  // ---------- directory creations taken back ----------

  function Created(op: Operation, ns: Namespace, markerId: string, id: string): Namespace {
    ns[op.Target().At() := Entry(op.Target().leaf, NewDirectory(id))]
      [op.MarkerName().At() := MarkerEntry(op, markerId, op.MarkerText(AFTER, id))]
  }

  lemma ExecCreateDirectory(op: Operation, ns: Namespace, markerId: string, id: string)
    requires op.WellFormed() && NamesApart(op) && CreateDirectoryReady(op, ns) && Free(ns, op.MarkerName())
    ensures Exec(ns, CreateDirectoryPlan(op, markerId, id)) == Some(Created(op, ns, markerId, id))
  {
    var m, home, newDirectory := op.MarkerName().At(), Flush({op.Home()}), NewDirectory(id);
    var marked := ns[m := MarkerEntry(op, markerId, op.MarkerText(PREPARED, ""))];
    var staged := marked[op.Stage().At() := Entry(op.Stage().leaf, newDirectory)];
    var named := staged[m := MarkerEntry(op, markerId, op.MarkerText(DIRECTORY_STAGED, id))];
    var finish := CompleteDirectoryPlan(op, id);
    var name := Rewrite(op, DIRECTORY_STAGED, id, Then(home, finish));
    var create := Then(Create(op.Stage(), newDirectory), Then(Flush({id}), Then(home, name)));
    ExecOpenMarker(op, ns, markerId, create);
    assert Apply(marked, Create(op.Stage(), newDirectory)) == staged;
    ExecFlushes(op, staged, name);
    assert Exec(staged, Then(Flush({id}), Then(home, name))) == Exec(staged, Then(home, name));
    assert Exec(marked, create) == Exec(staged, name);
    ExecRewriteEntry(op, staged, markerId, op.MarkerText(PREPARED, ""), DIRECTORY_STAGED, id, Then(home, finish));
    ExecFlushes(op, named, finish);
    ExecPlacing(op, ns, markerId, id);
  }

  lemma ExecPlacing(op: Operation, ns: Namespace, markerId: string, id: string)
    requires NamesApart(op) && op.request.operationKind == CREATE_DIRECTORY
    requires Free(ns, op.Target()) && Free(ns, op.Stage()) && Free(ns, op.MarkerName())
    ensures
      var marked := ns[op.MarkerName().At() := MarkerEntry(op, markerId, op.MarkerText(PREPARED, ""))];
      var staged := marked[op.Stage().At() := Entry(op.Stage().leaf, NewDirectory(id))];
      var named := staged[op.MarkerName().At() := MarkerEntry(op, markerId, op.MarkerText(DIRECTORY_STAGED, id))];
      Exec(named, CompleteDirectoryPlan(op, id)) == Some(Created(op, ns, markerId, id))
  {
    var m, home := op.MarkerName().At(), Flush({op.Home()});
    var placed := ns[op.Target().At() := Entry(op.Target().leaf, NewDirectory(id))]
                    [m := MarkerEntry(op, markerId, op.MarkerText(DIRECTORY_STAGED, id))];
    var end := Created(op, ns, markerId, id);
    var rewrite := Rewrite(op, AFTER, id, Then(home, Done));
    ExecRewriteEntry(op, placed, markerId, op.MarkerText(DIRECTORY_STAGED, id), AFTER, id, Then(home, Done));
    assert placed[m := MarkerEntry(op, markerId, op.MarkerText(AFTER, id))] == end;
    ExecFlushes(op, end, Done);
    assert Exec(end, Done) == Some(end);
    ExecFlushes(op, placed, rewrite);
    DirectoryMoves(op, ns, markerId, id);
  }

  lemma DirectoryMoves(op: Operation, ns: Namespace, markerId: string, id: string)
    requires NamesApart(op) && op.request.operationKind == CREATE_DIRECTORY
    requires Free(ns, op.Target()) && Free(ns, op.Stage()) && Free(ns, op.MarkerName())
    ensures
      var m, text := op.MarkerName().At(), MarkerEntry(op, markerId, op.MarkerText(DIRECTORY_STAGED, id));
      var named := ns[m := MarkerEntry(op, markerId, op.MarkerText(PREPARED, ""))]
                     [op.Stage().At() := Entry(op.Stage().leaf, NewDirectory(id))][m := text];
      && Enabled(named, Rename(op.Stage(), op.Target()))
      && Apply(named, Rename(op.Stage(), op.Target()))
           == ns[op.Target().At() := Entry(op.Target().leaf, NewDirectory(id))][m := text]
  {
  }

  /** A created directory is taken back exactly while it is empty and nothing stands in the way of its stage name,
      whatever others have added since and under whatever names; that leaves their additions and the starting
      namespace, and no marker. */
  lemma CompensateUndoesCreation(op: Operation, ns: Namespace, markerId: string, id: string, additions: Namespace,
                                 first: World, second: World)
    requires op.WellFormed() && CreateDirectoryReady(op, ns) && IsStableIdentifier(id) && Free(ns, op.MarkerName())
    requires Lets(first, CreateDirectoryPlan(op, markerId, id)) && Quiet(second) && second.limit >= 4
    requires BringsNo({id}, additions)
    ensures
      var created := Run(ns, CreateDirectoryPlan(op, markerId, id), first);
      var later := Interfere(created.ns, additions);
      var undone := Compensated(op, later, second);
      && created.ok && (Classify(op, later) == After <==> !BlocksDirectory(later, op.Stage()))
      && (undone.ok <==> !BlocksDirectory(later, op.Stage()) && IsEmptyDirectory(later, id))
      && undone.ns == if undone.ok then Interfere(ns, additions - {op.Target().At(), op.MarkerName().At()}) else later
  {
    WellFormedNamesApart(op);
    ExecCreateDirectory(op, ns, markerId, id);
    RunIsExec(ns, CreateDirectoryPlan(op, markerId, id), first);
    var later := Interfere(Created(op, ns, markerId, id), additions);
    LaterShowsPlaced(op, ns, markerId, id, additions);
    PlacedIsAfter(op, later, markerId, id);
    if Classify(op, later) == After && IsEmptyDirectory(later, id) {
      CreationTakenBack(op, later, markerId, id, second);
    }
  }

  lemma LaterShowsPlaced(op: Operation, ns: Namespace, markerId: string, id: string, additions: Namespace)
    requires NamesApart(op) && op.request.operationKind == CREATE_DIRECTORY && BringsNo({id}, additions)
    requires Free(ns, op.Target()) && Free(ns, op.Stage()) && Free(ns, op.MarkerName())
    ensures
      var later := Interfere(Created(op, ns, markerId, id), additions);
      && later - {op.Target().At()} - {op.MarkerName().At()} == Interfere(ns, additions - {op.Target().At(), op.MarkerName().At()})
      && op.Target().At() in later && later[op.Target().At()] == Entry(op.Target().leaf, NewDirectory(id))
      && op.MarkerName().At() in later
      && later[op.MarkerName().At()] == MarkerEntry(op, markerId, op.MarkerText(AFTER, id))
      && Lacks(later, op.Stage(), id)
  {
  }

  lemma PlacedIsAfter(op: Operation, ns: Namespace, markerId: string, id: string)
    requires DirectoryKnown(op, id) && Holds(ns, op.Target(), NewDirectory(id)) && Lacks(ns, op.Stage(), id)
    requires op.MarkerName().At() in ns && ns[op.MarkerName().At()] == MarkerEntry(op, markerId, op.MarkerText(AFTER, id))
    ensures Classify(op, ns) == After <==> !BlocksDirectory(ns, op.Stage())
  {
    AfterTextIsReadable(op, id);
    MarkedIsExact(op, id, markerId, Placed, ns);
  }

  lemma CreationTakenBack(op: Operation, later: Namespace, markerId: string, id: string, w: World)
    requires op.WellFormed() && NamesApart(op) && op.request.operationKind == CREATE_DIRECTORY && IsStableIdentifier(id)
    requires op.Target().At() in later && later[op.Target().At()] == Entry(op.Target().leaf, NewDirectory(id))
    requires op.MarkerName().At() in later
    requires later[op.MarkerName().At()] == MarkerEntry(op, markerId, op.MarkerText(AFTER, id))
    requires Classify(op, later) == After && IsEmptyDirectory(later, id) && Quiet(w) && w.limit >= 4
    ensures
      var r := Compensated(op, later, w);
      r.ok && r.ns == later - {op.Target().At()} - {op.MarkerName().At()}
  {
    var plan, gone := Then(Remove(op.Target()), Then(Flush({op.Home()}), Done)), later - {op.Target().At()};
    ExecTakeBack(op, later, id);
    DirectoryMarkerStaysReadable(op, gone, markerId, id);
    CompensationRuns(op, later, plan, w);
  }

  lemma ExecTakeBack(op: Operation, later: Namespace, id: string)
    requires op.Target().At() in later && later[op.Target().At()] == Entry(op.Target().leaf, NewDirectory(id))
    requires IsEmptyDirectory(later, id)
    ensures Exec(later, Then(Remove(op.Target()), Then(Flush({op.Home()}), Done))) == Some(later - {op.Target().At()})
    ensures Length(Then(Remove(op.Target()), Then(Flush({op.Home()}), Done))) == 2
  {
    var home, gone := Flush({op.Home()}), later - {op.Target().At()};
    assert Exec(gone, Then(home, Done)) == Exec(gone, Done);
    assert Length(Then(home, Done)) == 1 + Length(Done);
  }

  lemma DirectoryMarkerStaysReadable(op: Operation, ns: Namespace, markerId: string, id: string)
    requires op.WellFormed() && IsStableIdentifier(id) && op.MarkerName().At() in ns
    requires ns[op.MarkerName().At()] == MarkerEntry(op, markerId, op.MarkerText(AFTER, id))
    ensures ReadMarker(op, ns).Readable?
  {
    AfterTextIsReadable(op, id);
  }
}
