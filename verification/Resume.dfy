/** Completing an operation that stopped half-way, as often as it takes. */
module Resume {
  import opened Text
  import opened Volume
  import opened Disturbed
  import opened LifecycleMarker
  import opened Lifecycle
  import opened LifecycleCrash
  import opened DirectoryCrash

  /** `completeCaseIntermediate`. */
  function CompleteCasePlan(op: Operation): Plan {
    FinishStaged(op, op.Target().dir, op.request.sourceFileIdentity)
  }

  /** The calls a resume makes; nothing when it refuses. A case-only completion insists that the two parent
      paths are spelled alike, although the move itself compares them without regard to case. */
  function CompletionPlan(op: Operation, ns: Namespace): Option<Plan> {
    match Classify(op, ns)
    case CaseIntermediate =>
      if op.ParentsSpelledAlike() && Free(ns, op.Target()) then Some(CompleteCasePlan(op)) else None
    case DirectoryIntermediate =>
      if Free(ns, op.Target()) && ReadMarker(op, ns).Readable?
      then Some(CompleteDirectoryPlan(op, ReadMarker(op, ns).marker.objectIdentity)) else None
    case After => Some(Done)
    case _ => None
  }

  function Resumed(op: Operation, ns: Namespace, w: World): Outcome {
    match CompletionPlan(op, ns)
    case None => Outcome(ns, w, false)
    case Some(plan) =>
      var r := Run(ns, plan, w);
      Outcome(r.ns, r.world, r.ok && Classify(op, r.ns) == After)
  }

  /** Enough uninterrupted calls for any completion. */
  const ENOUGH := 10

  predicate Uninterrupted(w: World) {
    Quiet(w) && w.limit >= ENOUGH
  }

  /** The names a move accepted as a case-only rename. */
  predicate IsCaseRename(op: Operation) {
    && UsesStage(op) && op.SameParent()
    && Fold(op.Source().leaf) == Fold(op.Target().leaf) && op.Source().leaf != op.Target().leaf
  }

  // ---------- executing plans on a whole namespace ----------

  function MarkerEntry(op: Operation, markerId: string, text: string): Entry {
    Entry(op.MarkerName().leaf, Object(markerId, File, text))
  }

  function Moved(ns: Namespace, from: Name, to: Name): Namespace
    requires from.At() in ns
  {
    (ns - {from.At()})[to.At() := Entry(to.leaf, ns[from.At()].obj)]
  }

  lemma ExecRewriteEntry(op: Operation, ns: Namespace, markerId: string, text: string, phase: string, identity: string, rest: Plan)
    requires op.MarkerName().At() in ns && ns[op.MarkerName().At()] == MarkerEntry(op, markerId, text)
    ensures Exec(ns, Rewrite(op, phase, identity, rest))
         == Exec(ns[op.MarkerName().At() := MarkerEntry(op, markerId, op.MarkerText(phase, identity))], rest)
  {
    var m, bytes := op.MarkerName(), op.MarkerText(phase, identity);
    var blank := PutBytes(ns, m, "");
    var written := PutBytes(blank, m, bytes);
    assert written == ns[m.At() := MarkerEntry(op, markerId, bytes)];
    assert Exec(blank, Then(Write(m, bytes), Then(Sync(m), rest))) == Exec(written, Then(Sync(m), rest));
  }

  lemma ExecFlush(ns: Namespace, dirs: set<string>, rest: Plan)
    ensures Exec(ns, Then(Flush(dirs), rest)) == Exec(ns, rest)
  {
  }

  lemma RewriteAddsThree(op: Operation, phase: string, identity: string, rest: Plan)
    ensures Length(Rewrite(op, phase, identity, rest)) == 3 + Length(rest)
  {
    assert Length(Then(Write(op.MarkerName(), op.MarkerText(phase, identity)), Then(Sync(op.MarkerName()), rest)))
        == 2 + Length(rest);
  }

  lemma AfterTextIsReadable(op: Operation, identity: string)
    requires op.WritesMarkers() && (identity == "" || IsStableIdentifier(identity))
    ensures Parse(op.MarkerText(AFTER, identity)) == Some(Marker(op.checksum, AFTER, identity))
  {
    ParseOfPrint(Marker(op.checksum, AFTER, identity));
  }

  /** The rename, its flush, and the marker's last word: what both completions come to. */
  lemma ExecCompletion(op: Operation, ns: Namespace, markerId: string, text: string, identity: string)
    requires op.Stage().At() in ns && Free(ns, op.Target()) && NamesApart(op)
    requires op.MarkerName().At() in ns && ns[op.MarkerName().At()] == MarkerEntry(op, markerId, text)
    ensures
      var plan := FinishStaged(op, op.Target().dir, identity);
      && Exec(ns, plan) == Some(Moved(ns, op.Stage(), op.Target())[op.MarkerName().At() := MarkerEntry(op, markerId, op.MarkerText(AFTER, identity))])
      && Length(plan) == 6
  {
    var flush, moved := Flush({op.Target().dir}), Moved(ns, op.Stage(), op.Target());
    var rewrite := Rewrite(op, AFTER, identity, Then(flush, Done));
    var end := moved[op.MarkerName().At() := MarkerEntry(op, markerId, op.MarkerText(AFTER, identity))];
    ExecRewriteEntry(op, moved, markerId, text, AFTER, identity, Then(flush, Done));
    ExecFlush(moved, {op.Target().dir}, rewrite);
    ExecFlush(end, {op.Target().dir}, Done);
    assert Exec(end, Done) == Some(end);
    RewriteAddsThree(op, AFTER, identity, Then(flush, Done));
    assert Length(Then(flush, Done)) == 1 + Length(Done);
    assert Length(Then(flush, rewrite)) == 1 + Length(rewrite);
  }

  // ---------- case-only moves ----------

  /** The marker that an intermediate verdict was read from. */
  lemma ReadableIsMarked(op: Operation, ns: Namespace) returns (markerId: string, text: string)
    requires ReadMarker(op, ns).Readable?
    ensures Marked(op, markerId, ns) && ns[op.MarkerName().At()] == MarkerEntry(op, markerId, text)
  {
    markerId, text := ns[op.MarkerName().At()].obj.id, ns[op.MarkerName().At()].obj.bytes;
  }

  lemma StagedIsKnown(op: Operation, ns: Namespace)
    requires op.WellFormed() && IsCaseRename(op) && Classify(op, ns) == CaseIntermediate
    ensures op.Stage().At() in ns && ReadMarker(op, ns).Readable?
    ensures Known(op, ns[op.Stage().At()].obj) && Holds(ns, op.Stage(), ns[op.Stage().At()].obj)
  {
    WellFormedNamesApart(op);
  }

  lemma CaseCompletionEnds(op: Operation, ns: Namespace, w: World)
    requires op.WellFormed() && IsCaseRename(op) && Uninterrupted(w)
    requires Classify(op, ns) == CaseIntermediate && Free(ns, op.Target())
    ensures
      var r := Run(ns, CompleteCasePlan(op), w);
      r.ok && Classify(op, r.ns) == After && Holds(r.ns, op.Target(), ns[op.Stage().At()].obj)
  {
    StagedIsKnown(op, ns);
    var markerId, text := ReadableIsMarked(op, ns);
    var id := op.request.sourceFileIdentity;
    ExecCompletion(op, ns, markerId, text, id);
    RunIsExec(ns, CompleteCasePlan(op), w);
    CompletedIsAfter(op, ns, markerId);
  }

  /** The staged object under the target beside a marker that says so: a completed move. */
  lemma CompletedIsAfter(op: Operation, ns: Namespace, markerId: string)
    requires op.WellFormed() && IsCaseRename(op) && op.Stage().At() in ns && Free(ns, op.Target())
    requires Known(op, ns[op.Stage().At()].obj) && Holds(ns, op.Stage(), ns[op.Stage().At()].obj)
    ensures
      var done := Moved(ns, op.Stage(), op.Target())
                    [op.MarkerName().At() := MarkerEntry(op, markerId, op.MarkerText(AFTER, op.request.sourceFileIdentity))];
      Classify(op, done) == After && Holds(done, op.Target(), ns[op.Stage().At()].obj)
  {
    var obj, id := ns[op.Stage().At()].obj, op.request.sourceFileIdentity;
    var done := Moved(ns, op.Stage(), op.Target())[op.MarkerName().At() := MarkerEntry(op, markerId, op.MarkerText(AFTER, id))];
    assert Holds(done, op.Target(), obj);
    assert Passes(op, AtTarget, AtStage, done);
    ShownAtTarget(op, obj, done, markerId, id);
  }

  /** The object alone at its target beside the marker's last word is a completed transfer. */
  lemma ShownAtTarget(op: Operation, obj: Object, ns: Namespace, markerId: string, identity: string)
    requires op.WritesMarkers() && Known(op, obj) && Alone(op, obj, AtTarget, ns) && (identity == "" || IsStableIdentifier(identity))
    requires op.MarkerName().At() in ns && ns[op.MarkerName().At()] == MarkerEntry(op, markerId, op.MarkerText(AFTER, identity))
    ensures Classify(op, ns) == After && ReadMarker(op, ns).Readable?
  {
    AfterTextIsReadable(op, identity);
    LocatedIsExact(op, obj, markerId, ns);
  }

  /** A resume of a case-only move succeeds, uninterrupted, exactly when the parents are spelled alike and
      nothing stands at the target; it then leaves the very object that was staged at the target. */
  lemma CaseResumeCompletes(op: Operation, ns: Namespace, w: World)
    requires op.WellFormed() && IsCaseRename(op) && Classify(op, ns) == CaseIntermediate && Uninterrupted(w)
    ensures
      var r := Resumed(op, ns, w);
      && (r.ok <==> op.ParentsSpelledAlike() && Free(ns, op.Target()))
      && (r.ok ==> Classify(op, r.ns) == After && Holds(r.ns, op.Target(), ns[op.Stage().At()].obj))
      && (!r.ok ==> r.ns == ns)
  {
    if op.ParentsSpelledAlike() && Free(ns, op.Target()) {
      CaseCompletionEnds(op, ns, w);
    }
  }

  /** What a resume of a case-only move can leave behind: the object is on its stage or at its target beside the
      marker, and the verdict says which. */
  function Resuming(op: Operation, obj: Object, markerId: string): Namespace -> bool {
    (ns: Namespace) => Marked(op, markerId, ns) && (Holds(ns, op.Stage(), obj) || Holds(ns, op.Target(), obj)) && Exact(op, obj, ns)
  }

  lemma CompleteCaseSails(op: Operation, obj: Object, markerId: string)
    requires Known(op, obj) && UsesStage(op)
    ensures Sails(Resuming(op, obj, markerId), op, obj, markerId, AtStage, true, CompleteCasePlan(op))
  {
    var P, id, flush := Resuming(op, obj, markerId), op.request.sourceFileIdentity, Flush({op.Target().dir});
    forall ns: Namespace | Located(op, obj, markerId, ns) ensures Exact(op, obj, ns) {
      LocatedIsExact(op, obj, markerId, ns);
    }
    assert Implies(Phase(op, obj, markerId, AtStage, true), P) && Implies(Phase(op, obj, markerId, AtTarget, true), P);
    DoneSails(P, op, obj, markerId, AtTarget, true);
    IdleSails(P, op, obj, markerId, AtTarget, true, flush, Done);
    RewriteSails(P, op, obj, markerId, AtTarget, AFTER, id, Then(flush, Done));
    IdleSails(P, op, obj, markerId, AtTarget, true, flush, Rewrite(op, AFTER, id, Then(flush, Done)));
    RenameSails(P, op, obj, markerId, AtStage, AtTarget, Then(flush, Rewrite(op, AFTER, id, Then(flush, Done))));
  }

  /** Wherever it stops and whatever others add, nobody else's entry is taken or changed. */
  lemma CaseResumeCrashes(op: Operation, ns: Namespace, markerId: string, w: World)
    requires op.WellFormed() && IsCaseRename(op) && Classify(op, ns) == CaseIntermediate && Marked(op, markerId, ns)
    ensures Resuming(op, ns[op.Stage().At()].obj, markerId)(Resumed(op, ns, w).ns)
    ensures var obj := ns[op.Stage().At()].obj;
      Throughout(Resuming(op, obj, markerId), Own(obj, markerId), Trace(ns, CompleteCasePlan(op), w))
  {
    StagedIsKnown(op, ns);
    var obj := ns[op.Stage().At()].obj;
    CompleteCaseSails(op, obj, markerId);
    assert Phase(op, obj, markerId, AtStage, true)(ns);
    AnythingIsBrought(w);
    AmidCoversTrace(Resuming(op, obj, markerId), Anything(), Anything(), Own(obj, markerId), ns, CompleteCasePlan(op), w);
  }

  /** What of a case-only move can be completed: its marker is whole, and the object is at its target with nothing in
      the way, or on its stage with parents spelled alike and nothing at all at the target. */
  predicate CanComplete(op: Operation, obj: Object, ns: Namespace) {
    && !ReadMarker(op, ns).Torn?
    && (Alone(op, obj, AtTarget, ns) || (Holds(ns, op.Stage(), obj) && op.ParentsSpelledAlike() && Free(ns, op.Target())))
  }

  /** A resume that itself stopped anywhere, among any other processes, can be run again: the object is still on its
      stage or at its target, and the second resume completes with it exactly when that can be completed, and
      otherwise refuses and touches nothing. */
  lemma CaseResumeIsReentrant(op: Operation, ns: Namespace, first: World, second: World)
    requires op.WellFormed() && IsCaseRename(op) && Classify(op, ns) == CaseIntermediate && Uninterrupted(second)
    ensures
      var obj, middle := ns[op.Stage().At()].obj, Resumed(op, ns, first).ns;
      var r := Resumed(op, middle, second);
      && (Holds(middle, op.Stage(), obj) || Holds(middle, op.Target(), obj))
      && (r.ok <==> CanComplete(op, obj, middle))
      && (r.ok ==> Classify(op, r.ns) == After && Holds(r.ns, op.Target(), obj))
      && (!r.ok ==> r.ns == middle)
  {
    StagedIsKnown(op, ns);
    var markerId, _ := ReadableIsMarked(op, ns);
    CaseResumeCrashes(op, ns, markerId, first);
    SecondResume(op, ns[op.Stage().At()].obj, markerId, Resumed(op, ns, first).ns, second);
  }

  lemma SecondResume(op: Operation, obj: Object, markerId: string, middle: Namespace, w: World)
    requires op.WellFormed() && IsCaseRename(op) && Known(op, obj) && Resuming(op, obj, markerId)(middle) && Uninterrupted(w)
    ensures
      var r := Resumed(op, middle, w);
      && (r.ok <==> CanComplete(op, obj, middle))
      && (r.ok ==> Classify(op, r.ns) == After && Holds(r.ns, op.Target(), obj))
      && (!r.ok ==> r.ns == middle)
  {
    if Classify(op, middle) == CaseIntermediate {
      CaseResumeCompletes(op, middle, w);
      NotAtTarget(op, obj, middle);
    } else if Holds(middle, op.Stage(), obj) && Free(middle, op.Target()) {
      StagedAlone(op, obj, middle);
    }
  }

  lemma NotAtTarget(op: Operation, obj: Object, ns: Namespace)
    requires Known(op, obj) && UsesStage(op) && Alone(op, obj, AtStage, ns)
    ensures !Alone(op, obj, AtTarget, ns) && ns[op.Stage().At()].obj == obj
  {
  }

  lemma StagedAlone(op: Operation, obj: Object, ns: Namespace)
    requires Known(op, obj) && UsesStage(op) && Holds(ns, op.Stage(), obj) && Free(ns, op.Target())
    ensures Alone(op, obj, AtStage, ns)
  {
  }

  // ---------- directories ----------

  lemma StagedDirectoryMarker(op: Operation, ns: Namespace, id: string)
    requires op.WellFormed() && Classify(op, ns) == DirectoryIntermediate && Holds(ns, op.Stage(), NewDirectory(id))
    ensures DirectoryKnown(op, id) && ReadMarker(op, ns) == Readable(Marker(op.checksum, DIRECTORY_STAGED, id))
  {
    WellFormedNamesApart(op);
    PrintOfParse(ns[op.MarkerName().At()].obj.bytes);
  }

  /** A placed directory beside the marker's last word is a completed creation. */
  lemma ShownPlaced(op: Operation, id: string, ns: Namespace, markerId: string)
    requires DirectoryKnown(op, id) && Holds(ns, op.Target(), NewDirectory(id)) && Free(ns, op.Stage())
    requires op.MarkerName().At() in ns && ns[op.MarkerName().At()] == MarkerEntry(op, markerId, op.MarkerText(AFTER, id))
    ensures Classify(op, ns) == After && ReadMarker(op, ns) == Readable(Marker(op.checksum, AFTER, id))
  {
    AfterTextIsReadable(op, id);
    MarkedIsExact(op, id, markerId, Placed, ns);
  }

  lemma DirectoryCompletionEnds(op: Operation, ns: Namespace, id: string, w: World)
    requires op.WellFormed() && Classify(op, ns) == DirectoryIntermediate && Uninterrupted(w)
    requires Holds(ns, op.Stage(), NewDirectory(id)) && Free(ns, op.Target())
    ensures
      var r := Run(ns, CompleteDirectoryPlan(op, id), w);
      r.ok && Classify(op, r.ns) == After && Holds(r.ns, op.Target(), NewDirectory(id))
  {
    StagedDirectoryMarker(op, ns, id);
    var markerId, text := ReadableIsMarked(op, ns);
    ExecCompletion(op, ns, markerId, text, id);
    RunIsExec(ns, CompleteDirectoryPlan(op, id), w);
    var done := Moved(ns, op.Stage(), op.Target())[op.MarkerName().At() := MarkerEntry(op, markerId, op.MarkerText(AFTER, id))];
    assert Holds(done, op.Target(), NewDirectory(id)) && Free(done, op.Stage());
    ShownPlaced(op, id, done, markerId);
  }

  /** A resume of a directory creation succeeds, uninterrupted, exactly when nothing stands at the target; it
      then leaves the staged directory there. */
  lemma DirectoryResumeCompletes(op: Operation, ns: Namespace, id: string, w: World)
    requires op.WellFormed() && Classify(op, ns) == DirectoryIntermediate && Uninterrupted(w)
    requires Holds(ns, op.Stage(), NewDirectory(id))
    ensures
      var r := Resumed(op, ns, w);
      && (r.ok <==> Free(ns, op.Target()))
      && (r.ok ==> Classify(op, r.ns) == After && Holds(r.ns, op.Target(), NewDirectory(id)))
      && (!r.ok ==> r.ns == ns)
  {
    if Free(ns, op.Target()) {
      StagedDirectoryMarker(op, ns, id);
      DirectoryCompletionEnds(op, ns, id, w);
    }
  }

  /** What a resume of a directory creation can leave behind. */
  function DirectoryResuming(op: Operation, id: string, markerId: string): Namespace -> bool {
    (ns: Namespace) =>
      && DirectoryExact(op, id, ns)
      && (|| IsUnderway(op, id, markerId, Staged, Some({Some(Marker(op.checksum, DIRECTORY_STAGED, id))}), ns)
          || IsUnderway(op, id, markerId, Placed, Some(Allowed(op, id, Placed)), ns))
  }

  lemma DirectoryResumingCovers(op: Operation, id: string, markerId: string)
    requires DirectoryKnown(op, id)
    ensures Implies(Underway(op, id, markerId, Staged, Some({Some(Marker(op.checksum, DIRECTORY_STAGED, id))})), DirectoryResuming(op, id, markerId))
    ensures Implies(Underway(op, id, markerId, Placed, Some(Allowed(op, id, Placed))), DirectoryResuming(op, id, markerId))
  {
    var staged := {Some(Marker(op.checksum, DIRECTORY_STAGED, id))};
    forall ns: Namespace | IsUnderway(op, id, markerId, Staged, Some(staged), ns) ensures DirectoryExact(op, id, ns) {
      MarkedIsExact(op, id, markerId, Staged, ns);
    }
    forall ns: Namespace | IsUnderway(op, id, markerId, Placed, Some(Allowed(op, id, Placed)), ns) ensures DirectoryExact(op, id, ns) {
      MarkedIsExact(op, id, markerId, Placed, ns);
    }
  }

  lemma DirectoryResumeCrashes(op: Operation, ns: Namespace, id: string, markerId: string, w: World)
    requires op.WellFormed() && Classify(op, ns) == DirectoryIntermediate && Free(ns, op.Target())
    requires Holds(ns, op.Stage(), NewDirectory(id)) && Marked(op, markerId, ns) && Brings(w, Foreigners(op, id))
    ensures DirectoryResuming(op, id, markerId)(Run(ns, CompleteDirectoryPlan(op, id), w).ns)
    ensures Throughout(DirectoryResuming(op, id, markerId), OwnDirectory(id, markerId), Trace(ns, CompleteDirectoryPlan(op, id), w))
  {
    var P := DirectoryResuming(op, id, markerId);
    StagedDirectoryMarker(op, ns, id);
    DirectoryResumingCovers(op, id, markerId);
    CompleteDirectorySails(P, op, id, markerId);
    assert Underway(op, id, markerId, Staged, Some({Some(Marker(op.checksum, DIRECTORY_STAGED, id))}))(ns);
    AmidCoversTrace(P, Anything(), Foreigners(op, id), OwnDirectory(id, markerId), ns, CompleteDirectoryPlan(op, id), w);
  }

  /** What of a directory creation can be completed: its marker is whole, and the directory is at its target with
      nothing in the way, or staged with nothing at all at the target. */
  predicate CanCompleteDirectory(op: Operation, id: string, ns: Namespace) {
    && !ReadMarker(op, ns).Torn?
    && (|| (Holds(ns, op.Target(), NewDirectory(id)) && !BlocksDirectory(ns, op.Stage()))
        || (Holds(ns, op.Stage(), NewDirectory(id)) && Free(ns, op.Target())))
  }

  lemma SecondDirectoryResume(op: Operation, id: string, markerId: string, middle: Namespace, w: World)
    requires op.WellFormed() && DirectoryKnown(op, id) && DirectoryResuming(op, id, markerId)(middle) && Uninterrupted(w)
    ensures
      var r := Resumed(op, middle, w);
      && (r.ok <==> CanCompleteDirectory(op, id, middle))
      && (r.ok ==> Classify(op, r.ns) == After && Holds(r.ns, op.Target(), NewDirectory(id)))
      && (!r.ok ==> r.ns == middle)
  {
    if IsUnderway(op, id, markerId, Staged, Some({Some(Marker(op.checksum, DIRECTORY_STAGED, id))}), middle) {
      SaidIsRead(op, markerId, {Some(Marker(op.checksum, DIRECTORY_STAGED, id))}, middle);
      if Classify(op, middle) == DirectoryIntermediate { DirectoryResumeCompletes(op, middle, id, w); }
    }
  }

  /** Like the resume of a case-only move: it can be run again after it stopped anywhere, among other processes that do
      not bring in this very directory or this request's marker. */
  lemma DirectoryResumeIsReentrant(op: Operation, ns: Namespace, id: string, first: World, second: World)
    requires op.WellFormed() && Classify(op, ns) == DirectoryIntermediate && Holds(ns, op.Stage(), NewDirectory(id))
    requires Brings(first, Foreigners(op, id)) && Uninterrupted(second)
    ensures
      var middle := Resumed(op, ns, first).ns;
      var r := Resumed(op, middle, second);
      && (Holds(middle, op.Stage(), NewDirectory(id)) || Holds(middle, op.Target(), NewDirectory(id)))
      && (r.ok <==> CanCompleteDirectory(op, id, middle))
      && (r.ok ==> Classify(op, r.ns) == After && Holds(r.ns, op.Target(), NewDirectory(id)))
      && (!r.ok ==> r.ns == middle)
  {
    StagedDirectoryMarker(op, ns, id);
    if Free(ns, op.Target()) {
      var markerId, _ := ReadableIsMarked(op, ns);
      DirectoryResumeCrashes(op, ns, id, markerId, first);
      SecondDirectoryResume(op, id, markerId, Resumed(op, ns, first).ns, second);
    } else {
      DirectoryResumeCompletes(op, ns, id, second);
    }
  }
}
