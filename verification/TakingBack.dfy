/** Taking a created directory back, stopped anywhere: what is left, and what recovery makes of it. */
module TakingBack {
  import opened Text
  import opened Volume
  import opened Disturbed
  import opened LifecycleMarker
  import opened Lifecycle
  import opened LifecycleCrash
  import opened DirectoryCrash
  import opened Resume
  import opened Compensate
  import CompensationCrash

  /** The markers beside a complete creation. */
  predicate NamesPlaced(op: Operation, id: string, m: Marker) {
    m.requestChecksum == op.checksum && m.objectIdentity == id && (m.phase == AFTER || m.phase == DIRECTORY_STAGED)
  }

  /** The directory is there as before, or gone from both its names; and the verdict says what it would of a creation. */
  predicate IsThereOrGone(op: Operation, id: string, ns: Namespace) {
    && DirectoryExact(op, id, ns)
    && (Holds(ns, op.Target(), NewDirectory(id)) || (Lacks(ns, op.Target(), id) && Lacks(ns, op.Stage(), id)))
  }

  function ThereOrGone(op: Operation, id: string): Namespace -> bool {
    (ns: Namespace) => IsThereOrGone(op, id, ns)
  }

  lemma GoneIsExact(op: Operation, id: string, markerId: string, m: Marker, ns: Namespace)
    requires DirectoryKnown(op, id) && NamesPlaced(op, id, m) && IsUnderway(op, id, markerId, Nowhere, Some({Some(m)}), ns)
    ensures DirectoryExact(op, id, ns)
  {
    SaidIsRead(op, markerId, {Some(m)}, ns);
    ClassifyIsJudgeDirectory(op, ns);
    NotHeld(ns, op.Target(), id);
    NotHeld(ns, op.Stage(), id);
    DirectoryObservation(ns, op.Target(), id);
    DirectoryObservation(ns, op.Stage(), id);
  }

  lemma GoneIsTold(op: Operation, id: string, markerId: string, m: Marker)
    requires DirectoryKnown(op, id) && NamesPlaced(op, id, m)
    ensures Implies(Underway(op, id, markerId, Nowhere, Some({Some(m)})), ThereOrGone(op, id))
  {
    forall ns: Namespace | IsUnderway(op, id, markerId, Nowhere, Some({Some(m)}), ns) ensures IsThereOrGone(op, id, ns) {
      GoneIsExact(op, id, markerId, m, ns);
    }
  }

  lemma UnmarkedIsTold(op: Operation, id: string, markerId: string)
    requires DirectoryKnown(op, id)
    ensures Implies(Underway(op, id, markerId, Nowhere, None), ThereOrGone(op, id))
  {
    forall ns: Namespace | IsUnderway(op, id, markerId, Nowhere, None, ns) ensures IsThereOrGone(op, id, ns) {
      UnmarkedIsExact(op, id, markerId, ns);
    }
  }

  lemma ThereIsTold(op: Operation, id: string, markerId: string, m: Marker)
    requires DirectoryKnown(op, id) && NamesPlaced(op, id, m)
    ensures Implies(Underway(op, id, markerId, Placed, Some({Some(m)})), ThereOrGone(op, id))
  {
    SpeechGrows(op, id, markerId, Placed, {Some(m)}, Allowed(op, id, Placed));
    forall ns: Namespace | Underway(op, id, markerId, Placed, Some({Some(m)}))(ns) ensures IsThereOrGone(op, id, ns) {
      assert Underway(op, id, markerId, Placed, Some(Allowed(op, id, Placed)))(ns);
      MarkedIsExact(op, id, markerId, Placed, ns);
    }
  }

  lemma DirectoryGoes(op: Operation, id: string, markerId: string, m: Marker, ns: Namespace)
    requires NamesApart(op) && IsUnderway(op, id, markerId, Placed, Some({Some(m)}), ns) && Enabled(ns, Remove(op.Target()))
    ensures var gone := Apply(ns, Remove(op.Target()));
      IsUnderway(op, id, markerId, Nowhere, Some({Some(m)}), gone) && Keeps(ns, gone, OwnDirectory(id, markerId))
  {
  }

  lemma MarkerGoes(op: Operation, id: string, markerId: string, m: Marker, ns: Namespace)
    requires NamesApart(op) && IsUnderway(op, id, markerId, Nowhere, Some({Some(m)}), ns) && Enabled(ns, Remove(op.MarkerName()))
    ensures var gone := Apply(ns, Remove(op.MarkerName()));
      IsUnderway(op, id, markerId, Nowhere, None, gone) && Keeps(ns, gone, OwnDirectory(id, markerId))
  {
  }

  lemma RemovalSails(op: Operation, id: string, markerId: string, m: Marker)
    requires DirectoryKnown(op, id) && NamesPlaced(op, id, m)
    ensures DirectorySails(ThereOrGone(op, id), op, id, markerId, Nowhere, Some({Some(m)}), RemovalPlan(op))
  {
    var P, s := ThereOrGone(op, id), Remove(op.MarkerName());
    GoneIsTold(op, id, markerId, m);
    UnmarkedIsTold(op, id, markerId);
    DirectoryDone(P, op, id, markerId, Nowhere, None);
    DirectoryIdles(P, op, id, markerId, Nowhere, None, Flush({op.Home()}), Done);
    forall ns: Namespace | Underway(op, id, markerId, Nowhere, Some({Some(m)}))(ns) && Enabled(ns, s)
      ensures Keeps(ns, Apply(ns, s), OwnDirectory(id, markerId)) && Underway(op, id, markerId, Nowhere, None)(Apply(ns, s))
    {
      MarkerGoes(op, id, markerId, m, ns);
    }
    DirectoryCall(P, op, id, markerId, Nowhere, Some({Some(m)}), s, Nowhere, None, Then(Flush({op.Home()}), Done));
  }

  function TakeBack(op: Operation, rest: Plan): Plan {
    Then(Remove(op.Target()), Then(Flush({op.Home()}), rest))
  }

  lemma TakeBackSails(op: Operation, id: string, markerId: string, m: Marker, rest: Plan)
    requires DirectoryKnown(op, id) && NamesPlaced(op, id, m)
    requires DirectorySails(ThereOrGone(op, id), op, id, markerId, Nowhere, Some({Some(m)}), rest)
    ensures DirectorySails(ThereOrGone(op, id), op, id, markerId, Placed, Some({Some(m)}), TakeBack(op, rest))
  {
    var P, s, home := ThereOrGone(op, id), Remove(op.Target()), Flush({op.Home()});
    ThereIsTold(op, id, markerId, m);
    DirectoryIdles(P, op, id, markerId, Nowhere, Some({Some(m)}), home, rest);
    forall ns: Namespace | Underway(op, id, markerId, Placed, Some({Some(m)}))(ns) && Enabled(ns, s)
      ensures Keeps(ns, Apply(ns, s), OwnDirectory(id, markerId)) && Underway(op, id, markerId, Nowhere, Some({Some(m)}))(Apply(ns, s))
    {
      DirectoryGoes(op, id, markerId, m, ns);
    }
    DirectoryCall(P, op, id, markerId, Placed, Some({Some(m)}), s, Nowhere, Some({Some(m)}), Then(home, rest));
  }

  /** A completed creation, as the verdict knows it. */
  lemma CompletedCreation(op: Operation, ns: Namespace, id: string) returns (markerId: string, m: Marker)
    requires DirectoryKnown(op, id) && Classify(op, ns) == After && Holds(ns, op.Target(), NewDirectory(id)) && Lacks(ns, op.Stage(), id)
    ensures NamesPlaced(op, id, m) && IsUnderway(op, id, markerId, Placed, Some({Some(m)}), ns)
  {
    m := ReadMarker(op, ns).marker;
    markerId := ns[op.MarkerName().At()].obj.id;
  }

  lemma TakingBackRuns(op: Operation, ns: Namespace, id: string, rest: Plan, w: World)
    requires DirectoryKnown(op, id) && Classify(op, ns) == After && Holds(ns, op.Target(), NewDirectory(id)) && Lacks(ns, op.Stage(), id)
    requires Brings(w, Foreigners(op, id)) && (rest == Done || rest == RemovalPlan(op))
    ensures IsThereOrGone(op, id, Run(ns, TakeBack(op, rest), w).ns) && IsThereOrGone(op, id, ns)
    ensures Throughout(ThereOrGone(op, id), OwnDirectory(id, ns[op.MarkerName().At()].obj.id), Trace(ns, TakeBack(op, rest), w))
  {
    var markerId, m := CompletedCreation(op, ns, id);
    GoneIsTold(op, id, markerId, m);
    ThereIsTold(op, id, markerId, m);
    DirectoryDone(ThereOrGone(op, id), op, id, markerId, Nowhere, Some({Some(m)}));
    RemovalSails(op, id, markerId, m);
    TakeBackSails(op, id, markerId, m, rest);
    assert Underway(op, id, markerId, Placed, Some({Some(m)}))(ns);
    AmidCoversTrace(ThereOrGone(op, id), Anything(), Foreigners(op, id), OwnDirectory(id, markerId), ns, TakeBack(op, rest), w);
  }

  /** Wherever the compensation of a created directory stops, among others that bring in neither this directory nor a marker
      of this request: the directory is there or gone, and the verdict is "after" while it is there and "before" once it
      is gone, exactly if nothing of anyone else is in the way. */
  lemma TakingBackCrashIsExact(op: Operation, ns: Namespace, id: string, w: World)
    requires DirectoryKnown(op, id) && Classify(op, ns) == After && Holds(ns, op.Target(), NewDirectory(id)) && Lacks(ns, op.Stage(), id)
    requires Brings(w, Foreigners(op, id))
    ensures IsThereOrGone(op, id, Compensated(op, ns, w).ns)
  {
    TakingBackRuns(op, ns, id, Done, w);
    TakingBackRuns(op, ns, id, RemovalPlan(op), w);
    if UndoPlan(op, ns).Some? {
      CompensationCrash.CompensatedRuns(op, ns, TakeBack(op, Done), w);
      assert Append(Then(Flush({op.Home()}), Done), RemovalPlan(op)) == Then(Flush({op.Home()}), RemovalPlan(op));
      assert Append(TakeBack(op, Done), RemovalPlan(op)) == TakeBack(op, RemovalPlan(op));
    }
  }

  /** What the three calls do about a directory that is gone beside its marker: neither resume nor another compensation can
      end it, nor finalize for "after"; finalize for "before" removes the marker. */
  lemma OnlyFinalizeBeforeEndsIt(op: Operation, ns: Namespace, w: World)
    requires Classify(op, ns) == Before && ReadMarker(op, ns).Readable?
    ensures Resumed(op, ns, w) == Compensated(op, ns, w) == Finalized(op, ns, w, true) == Outcome(ns, w, false)
    ensures Quiet(w) && w.limit >= 2 ==>
      Finalized(op, ns, w, false).ok && Finalized(op, ns, w, false).ns == ns - {op.MarkerName().At()}
  {
    ExecRemoval(op, ns);
    if Quiet(w) && w.limit >= 2 { RunIsExec(ns, RemovalPlan(op), w); }
  }

  /** It comes to that in every completed creation of a directory still empty: stopped after its first call, the
      compensation leaves no directory, the marker, and the verdict "before". */
  lemma FirstCallTakesBack(op: Operation, ns: Namespace, id: string, w: World)
    requires DirectoryKnown(op, id) && Classify(op, ns) == After && Holds(ns, op.Target(), NewDirectory(id)) && Lacks(ns, op.Stage(), id)
    requires IsEmptyDirectory(ns, id) && Quiet(w) && w.limit == 1
    ensures
      var out := Compensated(op, ns, w).ns;
      && out == ns - {op.Target().At()} && Free(out, op.Target())
      && Classify(op, out) == Before && ReadMarker(op, out).Readable?
  {
    var markerId, m := CompletedCreation(op, ns, id);
    var out := Apply(ns, Remove(op.Target()));
    CompensationCrash.StopsAfterOne(ns, Remove(op.Target()), Then(Flush({op.Home()}), Done), w);
    DirectoryGoes(op, id, markerId, m, ns);
    GoneIsExact(op, id, markerId, m, out);
    MarkedIsPlaced(op, id, markerId, m, ns);
    SaidIsRead(op, markerId, {Some(m)}, out);
  }

  lemma MarkedIsPlaced(op: Operation, id: string, markerId: string, m: Marker, ns: Namespace)
    requires DirectoryKnown(op, id) && NamesPlaced(op, id, m) && IsUnderway(op, id, markerId, Placed, Some({Some(m)}), ns)
    requires Classify(op, ns) == After
    ensures !BlocksDirectory(ns, op.Stage())
  {
    ThereIsTold(op, id, markerId, m);
    assert Underway(op, id, markerId, Placed, Some({Some(m)}))(ns);
    assert IsThereOrGone(op, id, ns);
  }
}
