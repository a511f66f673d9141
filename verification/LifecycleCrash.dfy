/** What the classifier says after a move or a quarantine stopped anywhere, whatever others did meanwhile. */
module LifecycleCrash {
  import opened Text
  import opened Volume
  import opened Disturbed
  import opened LifecycleMarker
  import opened Lifecycle

  datatype Place = AtSource | AtStage | AtTarget | AtRollback

  function PlaceName(op: Operation, place: Place): Name {
    match place
    case AtSource => op.Source()
    case AtStage => op.Stage()
    case AtTarget => op.Target()
    case AtRollback => op.Rollback()
  }

  predicate UsesStage(op: Operation) {
    op.request.operationKind == MOVE && op.IsCaseOnly()
  }

  predicate IsTransfer(op: Operation) {
    op.request.operationKind == MOVE || op.request.operationKind == DELETE
  }

  predicate IsSourceObject(op: Operation, obj: Object) {
    obj.kind == File && obj.id == op.request.sourceFileIdentity && op.digest(obj.bytes) == op.request.sourceSha256
  }

  /** The names of a well-formed operation are pairwise different, except that a case-only move's source and
      target share their entry. */
  predicate NamesApart(op: Operation) {
    var m, s, a, b, r := op.MarkerName().At(), op.Stage().At(), op.Source().At(), op.Target().At(), op.Rollback().At();
    && m != s && m != b && s != b && r != m && r != s && r != b
    && (op.request.operationKind != CREATE_DIRECTORY ==> m != a && s != a && r != a)
  }

  lemma WellFormedNamesApart(op: Operation)
    requires op.WellFormed()
    ensures NamesApart(op)
  {
    var id := op.request.stagingObjectId;
    var marker, c, d, r := "lifecycle-" + id, "case-" + id, "directory-" + id, "case-rollback-" + id;
    assert Fold(marker)[0] == 'l' && Fold(c)[0] == 'c' && Fold(d)[0] == 'd' && Fold(r)[0] == 'c';
    TokensApart(marker, c);
    TokensApart(marker, d);
    TokensApart(marker, r);
    TokensApart(d, r);
    assert |Fold(c)| != |Fold(r)|;
    TokensApart(c, r);
    var target := op.Target().leaf;
    StagingIsNotUser(marker, target);
    StagingIsNotUser(c, target);
    StagingIsNotUser(d, target);
    StagingIsNotUser(r, target);
    if op.request.operationKind != CREATE_DIRECTORY {
      var source := op.Source().leaf;
      StagingIsNotUser(marker, source);
      StagingIsNotUser(c, source);
      StagingIsNotUser(r, source);
    }
  }

  /** What a transfer that passed its checks is known to be like, and the object it transfers. */
  ghost predicate Known(op: Operation, obj: Object) {
    && NamesApart(op) && IsTransfer(op) && IsSourceObject(op, obj)
    && (if UsesStage(op) then op.Source().At() == op.Target().At() && op.Source().leaf != op.Target().leaf
        else op.Source().At() != op.Target().At())
  }

  /** The object a transfer is about to move. */
  function SourceObject(op: Operation, ns: Namespace): Object
    requires ObserveFile(op, ns, op.Source()) == Match
  {
    ns[op.Source().At()].obj
  }

  lemma TransferIsKnown(op: Operation, ns: Namespace)
    requires op.WellFormed() && (MoveReady(op, ns) || QuarantineReady(op, ns))
    ensures Known(op, SourceObject(op, ns)) && Holds(ns, op.Source(), SourceObject(op, ns))
  {
    WellFormedNamesApart(op);
  }

  // ---------- what a verdict says ----------

  /** The names the classifier looks at for a transfer. */
  predicate Looks(op: Operation, place: Place) {
    place == AtSource || place == AtTarget || (place == AtStage && UsesStage(op))
  }

  predicate HasDirectoryAt(ns: Namespace, name: Name) {
    name.At() in ns && ns[name.At()].obj.kind.Directory?
  }

  /** An entry the classifier does not pass over: a directory, or a file that is spelled as asked. */
  predicate Blocks(ns: Namespace, name: Name) {
    name.At() in ns && (ns[name.At()].obj.kind.Directory? || ns[name.At()].leaf == name.leaf)
  }

  /** Seen from `place`, nothing blocks the other name. */
  predicate Passes(op: Operation, place: Place, other: Place, ns: Namespace) {
    Looks(op, other) && PlaceName(op, other).At() != PlaceName(op, place).At() ==> !Blocks(ns, PlaceName(op, other))
  }

  predicate StandsAt(op: Operation, obj: Object, place: Place, ns: Namespace) {
    Looks(op, place) && Holds(ns, PlaceName(op, place), obj)
  }

  /** The object stands at `place`, and nothing blocks the other names. */
  predicate Alone(op: Operation, obj: Object, place: Place, ns: Namespace) {
    StandsAt(op, obj, place, ns) && Passes(op, place, AtSource, ns) && Passes(op, place, AtStage, ns) && Passes(op, place, AtTarget, ns)
  }

  predicate IsAlone(op: Operation, obj: Object, ns: Namespace) {
    Alone(op, obj, AtSource, ns) || Alone(op, obj, AtStage, ns) || Alone(op, obj, AtTarget, ns)
  }

  predicate AnyDirectory(op: Operation, ns: Namespace) {
    HasDirectoryAt(ns, op.Source()) || HasDirectoryAt(ns, op.Target()) || (UsesStage(op) && HasDirectoryAt(ns, op.Stage()))
  }

  /** The object is under one of the operation's names, and the verdict says which: except that it says "unknown"
      exactly beside a torn marker or a directory of someone else under one of the names, and "neither" exactly when
      someone else's file stands, as spelled, at another of the names. */
  predicate Exact(op: Operation, obj: Object, ns: Namespace) {
    var v, torn := Classify(op, ns), ReadMarker(op, ns).Torn?;
    && (StandsAt(op, obj, AtSource, ns) || StandsAt(op, obj, AtStage, ns) || StandsAt(op, obj, AtTarget, ns))
    && (v == Before <==> !torn && Alone(op, obj, AtSource, ns))
    && (v == CaseIntermediate <==> !torn && Alone(op, obj, AtStage, ns))
    && (v == After <==> !torn && Alone(op, obj, AtTarget, ns))
    && (v == Unknown <==> torn || AnyDirectory(op, ns))
    && (v == Neither <==> !torn && !AnyDirectory(op, ns) && !IsAlone(op, obj, ns))
    && (v == After || v == CaseIntermediate ==> ReadMarker(op, ns).Readable?)
  }

  /** The operation's own marker file, whatever it says. */
  predicate Marked(op: Operation, markerId: string, ns: Namespace) {
    && op.MarkerName().At() in ns
    && var e := ns[op.MarkerName().At()]; e.leaf == op.MarkerName().leaf && e.obj.id == markerId && e.obj.kind.File?
  }

  /** The object has left the source only beside the operation's own marker. */
  predicate Located(op: Operation, obj: Object, markerId: string, ns: Namespace) {
    || Holds(ns, op.Source(), obj)
    || (Marked(op, markerId, ns) && (Holds(ns, op.Target(), obj) || (UsesStage(op) && Holds(ns, op.Stage(), obj))))
  }

  lemma Observation(op: Operation, ns: Namespace, name: Name)
    ensures ObserveFile(op, ns, name) == Absent <==> !Blocks(ns, name)
    ensures ObserveFile(op, ns, name) == Unreadable <==> HasDirectoryAt(ns, name)
  {
  }

  /** To the classifier, what does not block a name is absent there. */
  lemma PassesIsAbsent(op: Operation, obj: Object, place: Place, other: Place, ns: Namespace)
    requires Known(op, obj) && StandsAt(op, obj, place, ns) && Looks(op, other) && other != place
    ensures Passes(op, place, other, ns) <==> ObserveFile(op, ns, PlaceName(op, other)) == Absent
  {
    Observation(op, ns, PlaceName(op, other));
  }

  /** What the classifier observes where a staged file may be. */
  function ObserveStage(op: Operation, ns: Namespace): Match {
    if UsesStage(op) then ObserveFile(op, ns, op.Stage()) else Absent
  }

  lemma AloneIsObserved(op: Operation, obj: Object, place: Place, ns: Namespace)
    requires Known(op, obj) && StandsAt(op, obj, place, ns)
    ensures Alone(op, obj, place, ns)
       <==> && (place != AtSource ==> ObserveFile(op, ns, op.Source()) == Absent)
            && (place != AtTarget ==> ObserveFile(op, ns, op.Target()) == Absent)
            && (place != AtStage ==> ObserveStage(op, ns) == Absent)
  {
    if place != AtSource { PassesIsAbsent(op, obj, place, AtSource, ns); }
    if place != AtTarget { PassesIsAbsent(op, obj, place, AtTarget, ns); }
    if place != AtStage && UsesStage(op) { PassesIsAbsent(op, obj, place, AtStage, ns); }
  }

  /** The classifier of a transfer, on its three observations. */
  function Judge(marker: MarkerReading, source: Match, target: Match, staged: Match): Verdict {
    if marker.Torn? then Unknown
    else if source == Match && target == Absent && staged == Absent then Before
    else if marker.Readable? && source == Absent && target == Match && staged == Absent then After
    else if marker.Readable? && source == Absent && target == Absent && staged == Match then CaseIntermediate
    else if source == Unreadable || target == Unreadable || staged == Unreadable then Unknown
    else Neither
  }

  lemma ClassifyIsJudge(op: Operation, ns: Namespace)
    requires IsTransfer(op)
    ensures Classify(op, ns)
         == Judge(ReadMarker(op, ns), ObserveFile(op, ns, op.Source()), ObserveFile(op, ns, op.Target()), ObserveStage(op, ns))
  {
  }

  lemma DirectoriesAreUnreadable(op: Operation, ns: Namespace)
    ensures AnyDirectory(op, ns)
       <==> || ObserveFile(op, ns, op.Source()) == Unreadable || ObserveFile(op, ns, op.Target()) == Unreadable
            || ObserveStage(op, ns) == Unreadable
  {
    Observation(op, ns, op.Source());
    Observation(op, ns, op.Target());
    Observation(op, ns, op.Stage());
  }

  lemma MarkedIsNotMissing(op: Operation, markerId: string, ns: Namespace)
    requires Marked(op, markerId, ns)
    ensures !ReadMarker(op, ns).Missing?
  {
  }

  lemma StandingIsMatch(op: Operation, obj: Object, place: Place, ns: Namespace)
    requires Known(op, obj)
    ensures StandsAt(op, obj, place, ns) ==>
              (if place == AtStage then ObserveStage(op, ns) else ObserveFile(op, ns, PlaceName(op, place))) == Match
    ensures !StandsAt(op, obj, place, ns) ==> !Alone(op, obj, place, ns)
    ensures StandsAt(op, obj, place, ns) ==> place != AtRollback
  {
  }

  lemma LocatedIsExact(op: Operation, obj: Object, markerId: string, ns: Namespace)
    requires Known(op, obj) && Located(op, obj, markerId, ns)
    ensures Exact(op, obj, ns)
  {
    ClassifyIsJudge(op, ns);
    DirectoriesAreUnreadable(op, ns);
    StandingIsMatch(op, obj, AtSource, ns);
    StandingIsMatch(op, obj, AtStage, ns);
    StandingIsMatch(op, obj, AtTarget, ns);
    if StandsAt(op, obj, AtSource, ns) { AloneIsObserved(op, obj, AtSource, ns); }
    if StandsAt(op, obj, AtStage, ns) { AloneIsObserved(op, obj, AtStage, ns); }
    if StandsAt(op, obj, AtTarget, ns) { AloneIsObserved(op, obj, AtTarget, ns); }
    if Marked(op, markerId, ns) { MarkedIsNotMissing(op, markerId, ns); }
  }

  // ---------- every stop of a transfer, among any other processes ----------

  /** How far a transfer has come; others can add entries but cannot undo any of it. */
  predicate InPhase(op: Operation, obj: Object, markerId: string, place: Place, marked: bool, ns: Namespace) {
    Holds(ns, PlaceName(op, place), obj) && (marked ==> Marked(op, markerId, ns))
  }

  function Phase(op: Operation, obj: Object, markerId: string, place: Place, marked: bool): Namespace -> bool {
    (ns: Namespace) => InPhase(op, obj, markerId, place, marked, ns)
  }

  function Own(obj: Object, markerId: string): set<string> {
    {obj.id, markerId}
  }

  lemma PhaseLasts(op: Operation, obj: Object, markerId: string, place: Place, marked: bool)
    ensures Lasts(Anything(), Phase(op, obj, markerId, place, marked))
  {
  }

  /** From this phase on, `plan` keeps `P` and touches nobody else's object, whatever others add. */
  ghost predicate Sails(P: Namespace -> bool, op: Operation, obj: Object, markerId: string, place: Place, marked: bool, plan: Plan) {
    && Implies(Phase(op, obj, markerId, place, marked), P)
    && SafelyFrom(P, Anything(), Anything(), Own(obj, markerId), Phase(op, obj, markerId, place, marked), plan)
  }

  lemma DoneSails(P: Namespace -> bool, op: Operation, obj: Object, markerId: string, place: Place, marked: bool)
    requires Implies(Phase(op, obj, markerId, place, marked), P)
    ensures Sails(P, op, obj, markerId, place, marked, Done)
  {
    EndSafely(P, Anything(), Anything(), Own(obj, markerId), Phase(op, obj, markerId, place, marked));
  }

  lemma IdleSails(P: Namespace -> bool, op: Operation, obj: Object, markerId: string, place: Place, marked: bool, s: Step, rest: Plan)
    requires (s.Flush? || s.Sync?) && Sails(P, op, obj, markerId, place, marked, rest)
    ensures Sails(P, op, obj, markerId, place, marked, Then(s, rest))
  {
    PhaseLasts(op, obj, markerId, place, marked);
    IdleSafely(P, Anything(), Anything(), Own(obj, markerId), Phase(op, obj, markerId, place, marked), s, rest);
  }

  lemma FlushesSail(P: Namespace -> bool, op: Operation, obj: Object, markerId: string, place: Place, marked: bool, rest: Plan)
    requires Sails(P, op, obj, markerId, place, marked, rest)
    ensures Sails(P, op, obj, markerId, place, marked, FlushBoth(op, rest))
  {
    IdleSails(P, op, obj, markerId, place, marked, Flush({op.Target().dir}), rest);
    IdleSails(P, op, obj, markerId, place, marked, Flush({op.Source().dir}), Then(Flush({op.Target().dir}), rest));
  }

  lemma MarkerBytesChange(op: Operation, obj: Object, markerId: string, place: Place, ns: Namespace, bytes: string)
    requires NamesApart(op) && IsTransfer(op) && InPhase(op, obj, markerId, place, true, ns)
    ensures !Free(ns, op.MarkerName()) && InPhase(op, obj, markerId, place, true, PutBytes(ns, op.MarkerName(), bytes))
    ensures Keeps(ns, PutBytes(ns, op.MarkerName(), bytes), Own(obj, markerId))
  {
  }

  lemma MarkerCallSails(P: Namespace -> bool, op: Operation, obj: Object, markerId: string, place: Place, s: Step, rest: Plan)
    requires NamesApart(op) && IsTransfer(op) && Sails(P, op, obj, markerId, place, true, rest)
    requires (s.Truncate? || s.Write?) && s.name == op.MarkerName()
    ensures Sails(P, op, obj, markerId, place, true, Then(s, rest))
  {
    var phase := Phase(op, obj, markerId, place, true);
    forall ns: Namespace, bytes: string | phase(ns)
      ensures !Free(ns, op.MarkerName()) && phase(PutBytes(ns, op.MarkerName(), bytes))
      ensures Keeps(ns, PutBytes(ns, op.MarkerName(), bytes), Own(obj, markerId))
    {
      MarkerBytesChange(op, obj, markerId, place, ns, bytes);
    }
    PhaseLasts(op, obj, markerId, place, true);
    StepSafely(P, Anything(), Anything(), Own(obj, markerId), phase, s, phase, rest);
  }

  lemma RewriteSails(P: Namespace -> bool, op: Operation, obj: Object, markerId: string, place: Place, phase: string, identity: string, rest: Plan)
    requires NamesApart(op) && IsTransfer(op) && Sails(P, op, obj, markerId, place, true, rest)
    ensures Sails(P, op, obj, markerId, place, true, Rewrite(op, phase, identity, rest))
  {
    var m := op.MarkerName();
    var write := Write(m, op.MarkerText(phase, identity));
    IdleSails(P, op, obj, markerId, place, true, Sync(m), rest);
    MarkerCallSails(P, op, obj, markerId, place, write, Then(Sync(m), rest));
    MarkerCallSails(P, op, obj, markerId, place, Truncate(m), Then(write, Then(Sync(m), rest)));
  }

  lemma RenameSails(P: Namespace -> bool, op: Operation, obj: Object, markerId: string, from: Place, to: Place, rest: Plan)
    requires NamesApart(op) && IsTransfer(op) && PlaceName(op, from).At() != PlaceName(op, to).At()
    requires Implies(Phase(op, obj, markerId, from, true), P) && Sails(P, op, obj, markerId, to, true, rest)
    ensures Sails(P, op, obj, markerId, from, true, Then(Rename(PlaceName(op, from), PlaceName(op, to)), rest))
  {
    var s := Rename(PlaceName(op, from), PlaceName(op, to));
    forall ns: Namespace | InPhase(op, obj, markerId, from, true, ns) && Enabled(ns, s)
      ensures InPhase(op, obj, markerId, to, true, Apply(ns, s)) && Keeps(ns, Apply(ns, s), Own(obj, markerId))
    {
    }
    PhaseLasts(op, obj, markerId, from, true);
    StepSafely(P, Anything(), Anything(), Own(obj, markerId), Phase(op, obj, markerId, from, true), s, Phase(op, obj, markerId, to, true), rest);
  }

  lemma OpenMarkerSails(P: Namespace -> bool, op: Operation, obj: Object, markerId: string, rest: Plan)
    requires NamesApart(op) && IsTransfer(op)
    requires Implies(Phase(op, obj, markerId, AtSource, false), P) && Sails(P, op, obj, markerId, AtSource, true, rest)
    ensures Sails(P, op, obj, markerId, AtSource, false, OpenMarker(op, markerId, rest))
  {
    var s := Create(op.MarkerName(), Object(markerId, File, ""));
    RewriteSails(P, op, obj, markerId, AtSource, PREPARED, "", rest);
    PhaseLasts(op, obj, markerId, AtSource, false);
    StepSafely(P, Anything(), Anything(), Own(obj, markerId), Phase(op, obj, markerId, AtSource, false), s,
               Phase(op, obj, markerId, AtSource, true), Rewrite(op, PREPARED, "", rest));
  }

  /** Where a transfer of this kind may leave the object, `P` holds. */
  ghost predicate Covers(P: Namespace -> bool, op: Operation, obj: Object, markerId: string) {
    && Implies(Phase(op, obj, markerId, AtSource, false), P)
    && Implies(Phase(op, obj, markerId, AtTarget, true), P)
    && (UsesStage(op) ==> Implies(Phase(op, obj, markerId, AtStage, true), P))
  }

  lemma CoversMarkedSource(P: Namespace -> bool, op: Operation, obj: Object, markerId: string)
    requires Covers(P, op, obj, markerId)
    ensures Implies(Phase(op, obj, markerId, AtSource, true), P)
  {
    forall ns: Namespace | Phase(op, obj, markerId, AtSource, true)(ns) ensures P(ns) {
      assert Phase(op, obj, markerId, AtSource, false)(ns);
    }
  }

  lemma FinishSails(P: Namespace -> bool, op: Operation, obj: Object, markerId: string)
    requires Known(op, obj) && Implies(Phase(op, obj, markerId, AtTarget, true), P)
    ensures Sails(P, op, obj, markerId, AtTarget, true, FinishMovePlan(op))
    ensures Sails(P, op, obj, markerId, AtTarget, true,
                  Rewrite(op, AFTER, op.request.sourceFileIdentity, Then(Flush({op.Source().dir}), Done)))
  {
    var id := op.request.sourceFileIdentity;
    DoneSails(P, op, obj, markerId, AtTarget, true);
    FlushesSail(P, op, obj, markerId, AtTarget, true, Done);
    IdleSails(P, op, obj, markerId, AtTarget, true, Flush({op.Source().dir}), Done);
    RewriteSails(P, op, obj, markerId, AtTarget, AFTER, id, FlushBoth(op, Done));
    RewriteSails(P, op, obj, markerId, AtTarget, AFTER, id, Then(Flush({op.Source().dir}), Done));
  }

  lemma MoveSails(P: Namespace -> bool, op: Operation, obj: Object, markerId: string)
    requires Known(op, obj) && op.request.operationKind == MOVE && Covers(P, op, obj, markerId)
    ensures Sails(P, op, obj, markerId, AtSource, false, MovePlan(op, markerId))
  {
    CoversMarkedSource(P, op, obj, markerId);
    FinishSails(P, op, obj, markerId);
    FlushesSail(P, op, obj, markerId, AtTarget, true, FinishMovePlan(op));
    var finish := FlushBoth(op, FinishMovePlan(op));
    if op.IsCaseOnly() {
      var id, toTarget := op.request.sourceFileIdentity, Then(Rename(op.Stage(), op.Target()), finish);
      var onStage := Rewrite(op, CASE_INTERMEDIATE, id, toTarget);
      RenameSails(P, op, obj, markerId, AtStage, AtTarget, finish);
      RewriteSails(P, op, obj, markerId, AtStage, CASE_INTERMEDIATE, id, toTarget);
      FlushesSail(P, op, obj, markerId, AtStage, true, onStage);
      RenameSails(P, op, obj, markerId, AtSource, AtStage, FlushBoth(op, onStage));
      FlushesSail(P, op, obj, markerId, AtSource, true, CaseMovePlan(op));
      OpenMarkerSails(P, op, obj, markerId, FlushBoth(op, CaseMovePlan(op)));
    } else {
      RenameSails(P, op, obj, markerId, AtSource, AtTarget, finish);
      FlushesSail(P, op, obj, markerId, AtSource, true, PlainMovePlan(op));
      OpenMarkerSails(P, op, obj, markerId, FlushBoth(op, PlainMovePlan(op)));
    }
  }

  lemma QuarantineSails(P: Namespace -> bool, op: Operation, obj: Object, markerId: string)
    requires Known(op, obj) && op.request.operationKind == DELETE && Covers(P, op, obj, markerId)
    ensures Sails(P, op, obj, markerId, AtSource, false, QuarantinePlan(op, markerId))
  {
    var finish := Rewrite(op, AFTER, op.request.sourceFileIdentity, Then(Flush({op.Source().dir}), Done));
    var rename := Then(Rename(op.Source(), op.Target()), FlushBoth(op, finish));
    CoversMarkedSource(P, op, obj, markerId);
    FinishSails(P, op, obj, markerId);
    FlushesSail(P, op, obj, markerId, AtTarget, true, finish);
    RenameSails(P, op, obj, markerId, AtSource, AtTarget, FlushBoth(op, finish));
    IdleSails(P, op, obj, markerId, AtSource, true, Flush({op.Source().dir}), rename);
    OpenMarkerSails(P, op, obj, markerId, Then(Flush({op.Source().dir}), rename));
  }

  /** The object is where the verdict says, and has not left its source without a marker. */
  function Told(op: Operation, obj: Object, markerId: string): Namespace -> bool {
    (ns: Namespace) => Located(op, obj, markerId, ns) && Exact(op, obj, ns)
  }

  lemma ToldCovers(op: Operation, obj: Object, markerId: string)
    requires Known(op, obj)
    ensures Covers(Told(op, obj, markerId), op, obj, markerId)
  {
    forall ns: Namespace | Located(op, obj, markerId, ns) ensures Told(op, obj, markerId)(ns) {
      LocatedIsExact(op, obj, markerId, ns);
    }
  }

  lemma AnythingIsBrought(w: World)
    ensures Brings(w, Anything())
  {
  }

  /** At every moment of a move, wherever it stops, however its last write was cut, and whatever others put at free
      names at any time, the operation's own names among them: the verdict tells exactly where the moved object is,
      and every entry of anyone else that stands at one moment still stands, unchanged, at every later one. */
  lemma MoveCrashIsExact(op: Operation, ns: Namespace, markerId: string, w: World)
    requires op.WellFormed() && MoveReady(op, ns)
    ensures var obj := SourceObject(op, ns);
      && Throughout(Told(op, obj, markerId), Own(obj, markerId), Trace(ns, MovePlan(op, markerId), w))
      && Told(op, obj, markerId)(Run(ns, MovePlan(op, markerId), w).ns)
  {
    var obj := SourceObject(op, ns);
    TransferIsKnown(op, ns);
    ToldCovers(op, obj, markerId);
    MoveSails(Told(op, obj, markerId), op, obj, markerId);
    AnythingIsBrought(w);
    assert Phase(op, obj, markerId, AtSource, false)(ns);
    AmidCoversTrace(Told(op, obj, markerId), Anything(), Anything(), Own(obj, markerId), ns, MovePlan(op, markerId), w);
  }

  /** The same for a deletion into quarantine. */
  lemma QuarantineCrashIsExact(op: Operation, ns: Namespace, markerId: string, w: World)
    requires op.WellFormed() && QuarantineReady(op, ns)
    ensures var obj := SourceObject(op, ns);
      && Throughout(Told(op, obj, markerId), Own(obj, markerId), Trace(ns, QuarantinePlan(op, markerId), w))
      && Told(op, obj, markerId)(Run(ns, QuarantinePlan(op, markerId), w).ns)
  {
    var obj := SourceObject(op, ns);
    TransferIsKnown(op, ns);
    ToldCovers(op, obj, markerId);
    QuarantineSails(Told(op, obj, markerId), op, obj, markerId);
    AnythingIsBrought(w);
    assert Phase(op, obj, markerId, AtSource, false)(ns);
    AmidCoversTrace(Told(op, obj, markerId), Anything(), Anything(), Own(obj, markerId), ns, QuarantinePlan(op, markerId), w);
  }
}
