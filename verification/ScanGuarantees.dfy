/** What a clear scan says about operations that may have crashed. */
module ScanGuarantees {
  import opened Text
  import opened Volume
  import opened Lifecycle
  import opened LifecycleCrash
  import opened DirectoryCrash
  import opened Disturbed
  import opened Replace
  import opened RecoveryScan

  /** Once the scan is clear, no marker of the operation is left: none under its own spelling, and on a volume that files
      every entry under its spelling's key, nothing at all at its name. */
  lemma ClearShowsNoMarker(op: Operation, t: Tree, root: string, ns: Namespace)
    requires op.WellFormed() && IsClear(t, root) && Enumerates(t, ns) && Reaches(t, root, op.Home())
    ensures ReadMarker(op, ns) != Torn ==> ReadMarker(op, ns) == Missing
    ensures ReadMarker(op, ns) == Torn ==> !Free(ns, op.MarkerName()) && ns[op.MarkerName().At()].leaf != op.MarkerName().leaf
    ensures IsFolded(ns) ==> Free(ns, op.MarkerName())
  {
    var token := "lifecycle-" + op.request.stagingObjectId;
    StagingLeavesAreStaging(token);
    if !Free(ns, op.MarkerName()) {
      ClearMeansClear(t, root, ns, op.MarkerName().At());
    }
    if IsFolded(ns) { ClearLeavesStagingFree(t, root, ns, op.MarkerName(), token); }
  }

  /** Nor is anything left after a run on such a volume. */
  lemma ClearLeavesNoMarker(op: Operation, ns: Namespace, plan: Plan, w: World, t: Tree, root: string)
    requires op.WellFormed() && IsFolded(ns) && BringsFolded(w)
    requires IsClear(t, root) && Enumerates(t, Run(ns, plan, w).ns) && Reaches(t, root, op.Home())
    ensures Free(Run(ns, plan, w).ns, op.MarkerName())
  {
    RunKeepsFolded(ns, plan, w);
    ClearShowsNoMarker(op, t, root, Run(ns, plan, w).ns);
  }

  lemma ClearShowsUnmarked(op: Operation, markerId: string, t: Tree, root: string, ns: Namespace)
    requires op.WellFormed() && IsClear(t, root) && Enumerates(t, ns) && Reaches(t, root, op.Home())
    ensures !Marked(op, markerId, ns) && (ReadMarker(op, ns).Missing? <==> Free(ns, op.MarkerName()))
    ensures !ReadMarker(op, ns).Missing? ==> ReadMarker(op, ns).Torn?
  {
    StagingLeavesAreStaging("lifecycle-" + op.request.stagingObjectId);
    if !Free(ns, op.MarkerName()) {
      ClearMeansClear(t, root, ns, op.MarkerName().At());
    }
  }

  /** If a move stopped anywhere, among any other processes, and the scan is clear afterwards, the file is where it was;
      and the verdict says so exactly when nothing of anyone else stands at the other names. */
  lemma ClearAfterMove(op: Operation, ns: Namespace, markerId: string, w: World, t: Tree, root: string)
    requires op.WellFormed() && MoveReady(op, ns)
    requires
      var after := Run(ns, MovePlan(op, markerId), w).ns;
      IsClear(t, root) && Enumerates(t, after) && Reaches(t, root, op.Home())
    ensures
      var after, obj := Run(ns, MovePlan(op, markerId), w).ns, SourceObject(op, ns);
      && Holds(after, op.Source(), obj)
      && (Classify(op, after) == Before <==> Free(after, op.MarkerName()) && Alone(op, obj, AtSource, after))
      && (IsFolded(ns) && BringsFolded(w) ==> Free(after, op.MarkerName()))
  {
    MoveCrashIsExact(op, ns, markerId, w);
    if IsFolded(ns) && BringsFolded(w) { ClearLeavesNoMarker(op, ns, MovePlan(op, markerId), w, t, root); }
    ClearShowsUnmarked(op, markerId, t, root, Run(ns, MovePlan(op, markerId), w).ns);
  }

  /** The same for a quarantine. */
  lemma ClearAfterQuarantine(op: Operation, ns: Namespace, markerId: string, w: World, t: Tree, root: string)
    requires op.WellFormed() && QuarantineReady(op, ns)
    requires
      var after := Run(ns, QuarantinePlan(op, markerId), w).ns;
      IsClear(t, root) && Enumerates(t, after) && Reaches(t, root, op.Home())
    ensures
      var after, obj := Run(ns, QuarantinePlan(op, markerId), w).ns, SourceObject(op, ns);
      && Holds(after, op.Source(), obj)
      && (Classify(op, after) == Before <==> Free(after, op.MarkerName()) && Alone(op, obj, AtSource, after))
      && (IsFolded(ns) && BringsFolded(w) ==> Free(after, op.MarkerName()))
  {
    QuarantineCrashIsExact(op, ns, markerId, w);
    if IsFolded(ns) && BringsFolded(w) { ClearLeavesNoMarker(op, ns, QuarantinePlan(op, markerId), w, t, root); }
    ClearShowsUnmarked(op, markerId, t, root, Run(ns, QuarantinePlan(op, markerId), w).ns);
  }

  /** If a directory creation stopped anywhere and the scan is clear afterwards, there is no directory, placed or staged. */
  lemma ClearAfterCreateDirectory(op: Operation, ns: Namespace, markerId: string, id: string, w: World, t: Tree, root: string)
    requires op.WellFormed() && CreateDirectoryReady(op, ns) && IsStableIdentifier(id)
    requires IsUnmarked(op, ns) && Brings(w, Foreigners(op, id))
    requires
      var after := Run(ns, CreateDirectoryPlan(op, markerId, id), w).ns;
      IsClear(t, root) && Enumerates(t, after) && Reaches(t, root, op.Home())
    ensures
      var after := Run(ns, CreateDirectoryPlan(op, markerId, id), w).ns;
      && !Holds(after, op.Target(), NewDirectory(id)) && !Holds(after, op.Stage(), NewDirectory(id))
      && (Classify(op, after) == Before <==> Free(after, op.MarkerName()) && !BlocksDirectory(after, op.Target()))
      && (IsFolded(ns) && BringsFolded(w) ==> Free(after, op.MarkerName()))
  {
    if IsFolded(ns) && BringsFolded(w) { ClearLeavesNoMarker(op, ns, CreateDirectoryPlan(op, markerId, id), w, t, root); }
    var after := Run(ns, CreateDirectoryPlan(op, markerId, id), w).ns;
    CreateDirectoryCrashIsExact(op, ns, markerId, id, w);
    ClearShowsUnmarked(op, markerId, t, root, after);
    assert DirectoryLocated(op, id, markerId, after) && IsUnderway(op, id, markerId, Nowhere, None, after);
    NotHeld(after, op.Target(), id);
    NotHeld(after, op.Stage(), id);
  }

  /** If a replacement stopped anywhere, among any other processes, and the scan is clear afterwards, the leaf
      holds the original or the candidate. */
  lemma ClearAfterReplace(r: Replacement, ns: Namespace, w: World, t: Tree, root: string)
    requires r.WellFormed() && Holds(ns, r.leaf, r.original)
    requires
      var after := Run(ns, ReplacePlan(r), w).ns;
      IsClear(t, root) && Enumerates(t, after) && Reaches(t, root, r.leaf.dir)
    ensures
      var after := Run(ns, ReplacePlan(r), w).ns;
      Holds(after, r.leaf, r.original) || Holds(after, r.leaf, r.Installed())
  {
    var after, trace := Run(ns, ReplacePlan(r), w).ns, Trace(ns, ReplacePlan(r), w);
    ReplaceNeverLosesOrOverwrites(r, ns, w);
    assert Safely(r)(trace[|trace| - 1]);
    StagingLeavesAreStaging("before-" + r.token);
    if Holds(after, r.Aside(), r.original) {
      ClearMeansClear(t, root, after, r.Aside().At());
    }
  }
}
