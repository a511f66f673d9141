/** A case-only move between differently spelled parents: taken up by the move, and never completed by resume. */
module ParentSpelling {
  import opened Text
  import opened Requests
  import opened Volume
  import opened LifecycleMarker
  import opened Lifecycle
  import opened LifecycleCrash
  import opened Resume
  import opened StoppedMoves

  /** A case-only move that stops after its seventh call has its object on the stage, and the verdict says so. */
  lemma SevenCallsStage(op: Operation, ns: Namespace, markerId: string)
    requires op.WellFormed() && MoveReady(op, ns) && op.IsCaseOnly() && Free(ns, op.MarkerName()) && Free(ns, op.Stage())
    ensures Classify(op, Run(ns, MovePlan(op, markerId), CallsThen(7, map[])).ns) == CaseIntermediate
  {
    TransferIsKnown(op, ns);
    AfterSevenCalls(op, ns, markerId, map[]);
    var staged := Moved(Prepared(op, ns, markerId), op.Source(), op.Stage());
    assert Interfere(staged, map[]) == staged;
    OnStageVerdict(op, SourceObject(op, ns), ns, markerId);
  }

  lemma OnStageVerdict(op: Operation, obj: Object, ns: Namespace, markerId: string)
    requires op.WritesMarkers() && Known(op, obj) && UsesStage(op) && Holds(ns, op.Source(), obj)
    ensures Classify(op, Moved(Prepared(op, ns, markerId), op.Source(), op.Stage())) == CaseIntermediate
  {
    OnStage(op, obj, ns, markerId);
    PreparedIsReadable(op);
    LocatedIsExact(op, obj, markerId, Moved(Prepared(op, ns, markerId), op.Source(), op.Stage()));
  }

  lemma OnStage(op: Operation, obj: Object, ns: Namespace, markerId: string)
    requires Known(op, obj) && UsesStage(op) && Holds(ns, op.Source(), obj)
    ensures
      var staged := Moved(Prepared(op, ns, markerId), op.Source(), op.Stage());
      Alone(op, obj, AtStage, staged) && Marked(op, markerId, staged)
      && staged[op.MarkerName().At()] == MarkerEntry(op, markerId, op.MarkerText(PREPARED, ""))
  {
    var marked := Prepared(op, ns, markerId);
    assert marked[op.Source().At()] == ns[op.Source().At()];
  }

  /** Whenever the two parent paths are not spelled alike: the move passes its checks, and stopped there it is refused by
      every resume, in any world. */
  lemma StagedForGood(op: Operation, ns: Namespace, markerId: string, w: World)
    requires op.WellFormed() && MoveReady(op, ns) && op.IsCaseOnly() && Free(ns, op.MarkerName()) && Free(ns, op.Stage())
    requires !op.ParentsSpelledAlike()
    ensures
      var stopped := Run(ns, MovePlan(op, markerId), CallsThen(7, map[])).ns;
      Classify(op, stopped) == CaseIntermediate && Resumed(op, stopped, w) == Outcome(stopped, w, false)
  {
    SevenCallsStage(op, ns, markerId);
  }

  // ---------- a request of that kind ----------

  /** From "Docs/a.md" to "docs/A.md". */
  function Respelled(sha: string): LifecycleRequest {
    LifecycleRequest(REQUEST_VERSION, MOVE, "t", "o", "root", "Docs/a.md", "docs/A.md", "7", sha, CASE_ONLY, "recovery", "1", sha, "quarantined", "s", "wal_prepared")
  }

  function RespellingMove(sha: string): Operation {
    Operation(Respelled(sha), sha, (bytes: string) => sha, (path: string) => "d", "r")
  }

  function OneFile(): Namespace {
    map[Key("d", "a.md") := Entry("a.md", Object("7", File, "text"))]
  }

  lemma PathsCut()
    ensures ParentPath("Docs/a.md") == "Docs" && LeafOf("Docs/a.md") == "a.md"
    ensures ParentPath("docs/A.md") == "docs" && LeafOf("docs/A.md") == "A.md"
  {
    assert "Docs" + "/" + "a.md" == "Docs/a.md" && "docs" + "/" + "A.md" == "docs/A.md";
    LeafCut("Docs", "a.md");
    LeafCut("docs", "A.md");
  }

  lemma {:induction false} LeafCut(parent: string, leaf: string)
    requires '/' !in leaf
    ensures LastSlash(parent + "/" + leaf) == |parent| + 1
    ensures ParentPath(parent + "/" + leaf) == parent && LeafOf(parent + "/" + leaf) == leaf
    decreases |leaf|
  {
    var path := parent + "/" + leaf;
    if leaf == "" {
      assert path[|path| - 1] == '/';
    } else {
      LeafCut(parent, leaf[..|leaf| - 1]);
      assert path[..|path| - 1] == parent + "/" + leaf[..|leaf| - 1];
      assert path[|path| - 1] == leaf[|leaf| - 1];
    }
    assert path[..|parent|] == parent && path[|parent| + 1..] == leaf;
  }

  lemma RespellingNames(sha: string)
    ensures var op := RespellingMove(sha);
      && op.Source() == Name("d", "a.md") && op.Target() == Name("d", "A.md")
      && op.SameParent() && !op.ParentsSpelledAlike() && Fold("a.md") == Fold("A.md") == "a.md" && "a.md" != "A.md"
      && UserLeaf("a.md") && UserLeaf("A.md")
  {
    PathsCut();
    assert Fold("Docs") == Fold("docs") && Fold("a.md") == Fold("A.md") == "a.md" && "Docs"[0] != "docs"[0] && "a.md"[0] != "A.md"[0];
    assert STAGING_PREFIX[0] == '.';
  }

  lemma RespellingIsWellFormed(sha: string)
    requires IsSha256(sha)
    ensures RespellingMove(sha).WellFormed()
  {
    PathsCut();
    RespellingNames(sha);
  }

  lemma RespellingIsReady(sha: string)
    ensures var op := RespellingMove(sha);
      MoveReady(op, OneFile()) && op.IsCaseOnly() && Free(OneFile(), op.MarkerName()) && Free(OneFile(), op.Stage())
  {
    RespellingNames(sha);
    StagingIsNotUser("lifecycle-s", "a.md");
    StagingIsNotUser("case-s", "a.md");
    assert "lifecycle-" + "s" == "lifecycle-s" && "case-" + "s" == "case-s";
  }

  /** A case-only move of one file, accepted, stopped and refused by resume for good. */
  lemma RespellingIsNeverCompleted(sha: string, markerId: string, w: World)
    requires IsSha256(sha)
    ensures
      var op := RespellingMove(sha);
      var stopped := Run(OneFile(), MovePlan(op, markerId), CallsThen(7, map[])).ns;
      && op.WellFormed() && MoveReady(op, OneFile()) && op.SameParent()
      && Classify(op, stopped) == CaseIntermediate && Resumed(op, stopped, w) == Outcome(stopped, w, false)
  {
    RespellingIsReady(sha);
    RespellingIsWellFormed(sha);
    RespellingNames(sha);
    StagedForGood(RespellingMove(sha), OneFile(), markerId, w);
  }
}
