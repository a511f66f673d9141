/** What the classifier says after a directory creation stopped anywhere, whatever others did meanwhile. */
module DirectoryCrash {
  import opened Text
  import opened Volume
  import opened Disturbed
  import opened LifecycleMarker
  import opened Lifecycle
  import opened LifecycleCrash

  datatype Spot = Nowhere | Staged | Placed

  function NewDirectory(id: string): Object {
    Object(id, Directory, "")
  }

  /** `completeDirectoryIntermediate`, and the end of the creation itself. */
  function CompleteDirectoryPlan(op: Operation, id: string): Plan {
    FinishStaged(op, op.Home(), id)
  }

  ghost predicate DirectoryKnown(op: Operation, id: string) {
    op.WritesMarkers() && NamesApart(op) && IsStableIdentifier(id) && op.request.operationKind == CREATE_DIRECTORY
  }

  // ---------- what a verdict says ----------

  predicate HasFileAt(ns: Namespace, name: Name) {
    name.At() in ns && ns[name.At()].obj.kind.File?
  }

  /** An entry the classifier of a directory does not pass over: a file, or a directory that is spelled as asked. */
  predicate BlocksDirectory(ns: Namespace, name: Name) {
    name.At() in ns && (ns[name.At()].obj.kind.File? || ns[name.At()].leaf == name.leaf)
  }

  predicate NamesStaged(reading: MarkerReading, id: string) {
    reading.Readable? && reading.marker.phase == DIRECTORY_STAGED && reading.marker.objectIdentity == id
  }

  /** The verdict says where the new directory is. It says "unknown" exactly beside a torn marker or someone else's
      file under one of the names; and what is left, "neither", is a staged directory the marker does not name yet, or
      someone else's directory, as spelled, in the way. */
  predicate DirectoryExact(op: Operation, id: string, ns: Namespace) {
    var v, marker := Classify(op, ns), ReadMarker(op, ns);
    var staged, placed := Holds(ns, op.Stage(), NewDirectory(id)), Holds(ns, op.Target(), NewDirectory(id));
    && !(staged && placed)
    && (v == Before ==> !staged && !placed)
    && (v == Before <==> !marker.Torn? && !BlocksDirectory(ns, op.Target()) && (marker.Missing? || !BlocksDirectory(ns, op.Stage())))
    && (v == DirectoryIntermediate <==> staged && NamesStaged(marker, id) && !BlocksDirectory(ns, op.Target()))
    && (v == After <==> !marker.Torn? && placed && !BlocksDirectory(ns, op.Stage()))
    && (v == Unknown <==> marker.Torn? || HasFileAt(ns, op.Target()) || (!marker.Missing? && HasFileAt(ns, op.Stage())))
    && v != CaseIntermediate
  }

  // ---------- how far a creation has come ----------

  predicate Lacks(ns: Namespace, name: Name, id: string) {
    name.At() in ns ==> ns[name.At()].obj.id != id
  }

  predicate InSpot(op: Operation, id: string, spot: Spot, ns: Namespace) {
    && (if spot.Staged? then Holds(ns, op.Stage(), NewDirectory(id)) else Lacks(ns, op.Stage(), id))
    && (if spot.Placed? then Holds(ns, op.Target(), NewDirectory(id)) else Lacks(ns, op.Target(), id))
  }

  /** What the marker may say; `None` among the readings is a text that does not parse. */
  type Speech = set<Option<Marker>>

  predicate IsSaid(op: Operation, markerId: string, speech: Speech, ns: Namespace) {
    Marked(op, markerId, ns) && Parse(ns[op.MarkerName().At()].obj.bytes) in speech
  }

  /** The markers that may stand beside each spot: only a marker that names the directory, or a torn one, stands
      beside a placed directory. */
  function Allowed(op: Operation, id: string, spot: Spot): Speech {
    match spot
    case Nowhere => {None, Some(Marker(op.checksum, PREPARED, ""))}
    case Staged => {None, Some(Marker(op.checksum, PREPARED, "")), Some(Marker(op.checksum, DIRECTORY_STAGED, id))}
    case Placed => {None, Some(Marker(op.checksum, DIRECTORY_STAGED, id)), Some(Marker(op.checksum, AFTER, id))}
  }

  /** Before the operation has a marker of its own there is none that reads as one. */
  predicate IsUnmarked(op: Operation, ns: Namespace) {
    !ReadMarker(op, ns).Readable?
  }

  predicate IsUnderway(op: Operation, id: string, markerId: string, spot: Spot, speech: Option<Speech>, ns: Namespace) {
    && InSpot(op, id, spot, ns)
    && (if speech.Some? then IsSaid(op, markerId, speech.value, ns) else IsUnmarked(op, ns))
  }

  function Underway(op: Operation, id: string, markerId: string, spot: Spot, speech: Option<Speech>): Namespace -> bool {
    (ns: Namespace) => IsUnderway(op, id, markerId, spot, speech, ns)
  }

  /** The directory has come somewhere, beside a marker that fits; before there is a marker it is nowhere. */
  predicate DirectoryLocated(op: Operation, id: string, markerId: string, ns: Namespace) {
    || IsUnderway(op, id, markerId, Nowhere, None, ns)
    || IsUnderway(op, id, markerId, Nowhere, Some(Allowed(op, id, Nowhere)), ns)
    || IsUnderway(op, id, markerId, Staged, Some(Allowed(op, id, Staged)), ns)
    || IsUnderway(op, id, markerId, Placed, Some(Allowed(op, id, Placed)), ns)
  }

  lemma DirectoryObservation(ns: Namespace, name: Name, identity: string)
    ensures ObserveDirectory(ns, name, identity) == Absent <==> !BlocksDirectory(ns, name)
    ensures ObserveDirectory(ns, name, identity) == Unreadable <==> HasFileAt(ns, name)
    ensures ObserveDirectory(ns, name, identity) == Match ==> identity != "" && name.At() in ns && ns[name.At()].obj.id == identity
  {
  }

  lemma SaidIsRead(op: Operation, markerId: string, speech: Speech, ns: Namespace)
    requires IsSaid(op, markerId, speech, ns)
    requires forall m | m in speech && m.Some? :: m.value.requestChecksum == op.checksum
    ensures var reading := ReadMarker(op, ns);
      !reading.Missing? && (reading.Readable? <==> Parse(ns[op.MarkerName().At()].obj.bytes).Some?)
      && (reading.Readable? ==> Some(reading.marker) in speech)
  {
  }

  /** The classifier of a directory creation, on what it reads and observes. */
  function JudgeDirectory(marker: MarkerReading, target: Match, staged: Match): Verdict {
    if marker.Torn? then Unknown
    else if target == Absent && staged == Absent then Before
    else if marker.Readable? && (marker.marker.phase == AFTER || marker.marker.phase == DIRECTORY_STAGED) && target == Match && staged == Absent
    then After
    else if marker.Readable? && marker.marker.phase == DIRECTORY_STAGED && target == Absent && staged == Match then DirectoryIntermediate
    else if target == Unreadable || staged == Unreadable then Unknown
    else Neither
  }

  function NamedIn(reading: MarkerReading): string {
    if reading.Readable? then reading.marker.objectIdentity else ""
  }

  lemma ClassifyIsJudgeDirectory(op: Operation, ns: Namespace)
    requires op.request.operationKind == CREATE_DIRECTORY
    ensures var reading := ReadMarker(op, ns);
      Classify(op, ns) == JudgeDirectory(reading, ObserveDirectory(ns, op.Target(), NamedIn(reading)),
        if reading.Missing? then Absent else ObserveDirectory(ns, op.Stage(), NamedIn(reading)))
  {
  }

  lemma UnmarkedIsExact(op: Operation, id: string, markerId: string, ns: Namespace)
    requires DirectoryKnown(op, id) && IsUnderway(op, id, markerId, Nowhere, None, ns)
    ensures DirectoryExact(op, id, ns)
  {
    ClassifyIsJudgeDirectory(op, ns);
    DirectoryObservation(ns, op.Target(), "");
    NotHeld(ns, op.Target(), id);
    NotHeld(ns, op.Stage(), id);
  }

  lemma NotHeld(ns: Namespace, name: Name, id: string)
    requires Lacks(ns, name, id)
    ensures !Holds(ns, name, NewDirectory(id)) && ObserveDirectory(ns, name, id) != Match
  {
  }

  lemma HeldIsObserved(ns: Namespace, name: Name, id: string, identity: string)
    requires Holds(ns, name, NewDirectory(id)) && id != ""
    ensures ObserveDirectory(ns, name, identity) == (if identity == id then Match else Mismatch)
    ensures BlocksDirectory(ns, name) && !HasFileAt(ns, name)
  {
  }

  lemma MarkedIsExact(op: Operation, id: string, markerId: string, spot: Spot, ns: Namespace)
    requires DirectoryKnown(op, id) && IsUnderway(op, id, markerId, spot, Some(Allowed(op, id, spot)), ns)
    ensures DirectoryExact(op, id, ns)
  {
    SaidIsRead(op, markerId, Allowed(op, id, spot), ns);
    match spot {
      case Nowhere => NowhereIsExact(op, id, ns);
      case Staged => StagedIsExact(op, id, ns);
      case Placed => PlacedIsExact(op, id, ns);
    }
  }

  /** The reading beside each spot, and the verdict that follows from it. */
  ghost predicate Reads(op: Operation, id: string, spot: Spot, ns: Namespace) {
    var reading := ReadMarker(op, ns);
    DirectoryKnown(op, id) && InSpot(op, id, spot, ns) && !reading.Missing? && (reading.Readable? ==> Some(reading.marker) in Allowed(op, id, spot))
  }

  lemma NowhereIsExact(op: Operation, id: string, ns: Namespace)
    requires Reads(op, id, Nowhere, ns)
    ensures DirectoryExact(op, id, ns)
  {
    ClassifyIsJudgeDirectory(op, ns);
    NotHeld(ns, op.Target(), id);
    NotHeld(ns, op.Stage(), id);
    DirectoryObservation(ns, op.Target(), "");
    DirectoryObservation(ns, op.Stage(), "");
  }

  lemma StagedIsExact(op: Operation, id: string, ns: Namespace)
    requires Reads(op, id, Staged, ns)
    ensures DirectoryExact(op, id, ns)
  {
    var identity := NamedIn(ReadMarker(op, ns));
    ClassifyIsJudgeDirectory(op, ns);
    NotHeld(ns, op.Target(), id);
    HeldIsObserved(ns, op.Stage(), id, identity);
    DirectoryObservation(ns, op.Target(), identity);
  }

  lemma PlacedIsExact(op: Operation, id: string, ns: Namespace)
    requires Reads(op, id, Placed, ns)
    ensures DirectoryExact(op, id, ns)
  {
    var identity := NamedIn(ReadMarker(op, ns));
    ClassifyIsJudgeDirectory(op, ns);
    NotHeld(ns, op.Stage(), id);
    HeldIsObserved(ns, op.Target(), id, identity);
    DirectoryObservation(ns, op.Stage(), identity);
  }

  lemma DirectoryLocatedIsExact(op: Operation, id: string, markerId: string, ns: Namespace)
    requires DirectoryKnown(op, id) && DirectoryLocated(op, id, markerId, ns)
    ensures DirectoryExact(op, id, ns)
  {
    if IsUnderway(op, id, markerId, Nowhere, None, ns) {
      UnmarkedIsExact(op, id, markerId, ns);
    } else if IsUnderway(op, id, markerId, Nowhere, Some(Allowed(op, id, Nowhere)), ns) {
      MarkedIsExact(op, id, markerId, Nowhere, ns);
    } else if IsUnderway(op, id, markerId, Staged, Some(Allowed(op, id, Staged)), ns) {
      MarkedIsExact(op, id, markerId, Staged, ns);
    } else {
      MarkedIsExact(op, id, markerId, Placed, ns);
    }
  }

  // ---------- every stop of a creation, among other processes ----------

  /** Additions that bring in neither the new directory nor a marker of this very request. */
  predicate Foreign(op: Operation, id: string, additions: Namespace) {
    BringsNo({id}, additions) && IsUnmarked(op, additions)
  }

  function Foreigners(op: Operation, id: string): Namespace -> bool {
    (additions: Namespace) => Foreign(op, id, additions)
  }

  function OwnDirectory(id: string, markerId: string): set<string> {
    {id, markerId}
  }

  lemma UnderwayLasts(op: Operation, id: string, markerId: string, spot: Spot, speech: Option<Speech>)
    ensures Lasts(Foreigners(op, id), Underway(op, id, markerId, spot, speech))
  {
    var phase := Underway(op, id, markerId, spot, speech);
    forall ns: Namespace, additions: Namespace | phase(ns) && Foreign(op, id, additions) ensures phase(Interfere(ns, additions)) {
      var seen := Interfere(ns, additions);
      assert InSpot(op, id, spot, seen);
      if speech.None? { assert ReadMarker(op, seen) == if op.MarkerName().At() in ns then ReadMarker(op, ns) else ReadMarker(op, additions); }
    }
  }

  /** From this phase on, `plan` keeps `P` and touches nobody else's object, whatever others add. */
  ghost predicate DirectorySails(P: Namespace -> bool, op: Operation, id: string, markerId: string, spot: Spot, speech: Option<Speech>, plan: Plan) {
    && Implies(Underway(op, id, markerId, spot, speech), P)
    && SafelyFrom(P, Anything(), Foreigners(op, id), OwnDirectory(id, markerId), Underway(op, id, markerId, spot, speech), plan)
  }

  lemma DirectoryDone(P: Namespace -> bool, op: Operation, id: string, markerId: string, spot: Spot, speech: Option<Speech>)
    requires Implies(Underway(op, id, markerId, spot, speech), P)
    ensures DirectorySails(P, op, id, markerId, spot, speech, Done)
  {
    EndSafely(P, Anything(), Foreigners(op, id), OwnDirectory(id, markerId), Underway(op, id, markerId, spot, speech));
  }

  lemma DirectoryIdles(P: Namespace -> bool, op: Operation, id: string, markerId: string, spot: Spot, speech: Option<Speech>, s: Step, rest: Plan)
    requires (s.Flush? || s.Sync?) && DirectorySails(P, op, id, markerId, spot, speech, rest)
    ensures DirectorySails(P, op, id, markerId, spot, speech, Then(s, rest))
  {
    UnderwayLasts(op, id, markerId, spot, speech);
    IdleSafely(P, Anything(), Foreigners(op, id), OwnDirectory(id, markerId), Underway(op, id, markerId, spot, speech), s, rest);
  }

  /** One call from phase to phase. */
  lemma DirectoryCall(P: Namespace -> bool, op: Operation, id: string, markerId: string, spot: Spot, speech: Option<Speech>, s: Step,
                  next: Spot, said: Option<Speech>, rest: Plan)
    requires Steers(P, OwnDirectory(id, markerId), Underway(op, id, markerId, spot, speech), s, Underway(op, id, markerId, next, said))
    requires Implies(Underway(op, id, markerId, spot, speech), P) && DirectorySails(P, op, id, markerId, next, said, rest)
    ensures DirectorySails(P, op, id, markerId, spot, speech, Then(s, rest))
  {
    UnderwayLasts(op, id, markerId, spot, speech);
    StepSafely(P, Anything(), Foreigners(op, id), OwnDirectory(id, markerId), Underway(op, id, markerId, spot, speech), s,
               Underway(op, id, markerId, next, said), rest);
  }

  lemma MarkerSays(op: Operation, id: string, markerId: string, spot: Spot, speech: Speech, ns: Namespace, bytes: string)
    requires NamesApart(op) && IsUnderway(op, id, markerId, spot, Some(speech), ns)
    ensures !Free(ns, op.MarkerName())
    ensures IsUnderway(op, id, markerId, spot, Some({Parse(bytes)}), PutBytes(ns, op.MarkerName(), bytes))
    ensures Keeps(ns, PutBytes(ns, op.MarkerName(), bytes), OwnDirectory(id, markerId))
  {
  }

  lemma SpeechGrows(op: Operation, id: string, markerId: string, spot: Spot, less: Speech, more: Speech)
    requires less <= more
    ensures Implies(Underway(op, id, markerId, spot, Some(less)), Underway(op, id, markerId, spot, Some(more)))
  {
  }

  lemma ImpliesBy(less: Namespace -> bool, more: Namespace -> bool, P: Namespace -> bool)
    requires Implies(less, more) && Implies(more, P)
    ensures Implies(less, P)
  {
  }

  lemma BlankSaysNothing()
    ensures Parse("") == None
  {
  }

  lemma CutSays(m: Marker, n: nat)
    requires Valid(m) && n <= |Print(m)|
    ensures Parse(Print(m)[..n]) in {None, Some(m)} && Parse(Print(m)) == Some(m)
  {
    ParseOfPrint(m);
    if n == |Print(m)| {
      assert Print(m)[..n] == Print(m);
    } else {
      NoProperPrefixParses(m, n);
    }
  }

  lemma DirectoryTruncates(P: Namespace -> bool, op: Operation, id: string, markerId: string, spot: Spot, speech: Speech, rest: Plan)
    requires NamesApart(op) && Implies(Underway(op, id, markerId, spot, Some(speech)), P)
    requires DirectorySails(P, op, id, markerId, spot, Some({None}), rest)
    ensures DirectorySails(P, op, id, markerId, spot, Some(speech), Then(Truncate(op.MarkerName()), rest))
  {
    BlankSaysNothing();
    forall ns: Namespace | Underway(op, id, markerId, spot, Some(speech))(ns)
      ensures !Free(ns, op.MarkerName()) && Underway(op, id, markerId, spot, Some({None}))(PutBytes(ns, op.MarkerName(), ""))
      ensures Keeps(ns, PutBytes(ns, op.MarkerName(), ""), OwnDirectory(id, markerId))
    {
      MarkerSays(op, id, markerId, spot, speech, ns, "");
    }
    DirectoryCall(P, op, id, markerId, spot, Some(speech), Truncate(op.MarkerName()), spot, Some({None}), rest);
  }

  lemma DirectoryWrites(P: Namespace -> bool, op: Operation, id: string, markerId: string, spot: Spot, m: Marker, rest: Plan)
    requires NamesApart(op) && Valid(m) && Implies(Underway(op, id, markerId, spot, Some({None, Some(m)})), P)
    requires DirectorySails(P, op, id, markerId, spot, Some({Some(m)}), rest)
    ensures DirectorySails(P, op, id, markerId, spot, Some({None}), Then(Write(op.MarkerName(), Print(m)), rest))
  {
    var s, before, between, after := Write(op.MarkerName(), Print(m)), Underway(op, id, markerId, spot, Some({None})),
      Underway(op, id, markerId, spot, Some({None, Some(m)})), Underway(op, id, markerId, spot, Some({Some(m)}));
    SpeechGrows(op, id, markerId, spot, {None}, {None, Some(m)});
    ImpliesBy(before, between, P);
    forall ns: Namespace | before(ns)
      ensures Keeps(ns, Apply(ns, s), OwnDirectory(id, markerId)) && after(Apply(ns, s))
    {
      CutSays(m, 0);
      MarkerSays(op, id, markerId, spot, {None}, ns, Print(m));
    }
    forall ns: Namespace, n: nat | before(ns)
      ensures P(Cut(ns, s, n)) && Keeps(ns, Cut(ns, s, n), OwnDirectory(id, markerId))
    {
      if n <= |Print(m)| {
        CutSays(m, n);
        MarkerSays(op, id, markerId, spot, {None}, ns, Print(m)[..n]);
        assert between(Cut(ns, s, n));
      }
    }
    DirectoryCall(P, op, id, markerId, spot, Some({None}), s, spot, Some({Some(m)}), rest);
  }

  lemma DirectoryRewrites(P: Namespace -> bool, op: Operation, id: string, markerId: string, spot: Spot, speech: Speech, phase: string,
                     identity: string, rest: Plan)
    requires DirectoryKnown(op, id) && IsPhase(phase) && (identity == "" || identity == id)
    requires Implies(Underway(op, id, markerId, spot, Some(Allowed(op, id, spot))), P)
    requires speech <= Allowed(op, id, spot) && Some(Marker(op.checksum, phase, identity)) in Allowed(op, id, spot)
    requires DirectorySails(P, op, id, markerId, spot, Some({Some(Marker(op.checksum, phase, identity))}), rest)
    ensures DirectorySails(P, op, id, markerId, spot, Some(speech), Rewrite(op, phase, identity, rest))
  {
    var m, name := Marker(op.checksum, phase, identity), op.MarkerName();
    var more, most := Underway(op, id, markerId, spot, Some({None, Some(m)})), Underway(op, id, markerId, spot, Some(Allowed(op, id, spot)));
    SpeechGrows(op, id, markerId, spot, {None, Some(m)}, Allowed(op, id, spot));
    ImpliesBy(more, most, P);
    SpeechGrows(op, id, markerId, spot, speech, Allowed(op, id, spot));
    ImpliesBy(Underway(op, id, markerId, spot, Some(speech)), most, P);
    DirectoryIdles(P, op, id, markerId, spot, Some({Some(m)}), Sync(name), rest);
    DirectoryWrites(P, op, id, markerId, spot, m, Then(Sync(name), rest));
    DirectoryTruncates(P, op, id, markerId, spot, speech, Then(Write(name, Print(m)), Then(Sync(name), rest)));
  }

  lemma OpensMarker(op: Operation, id: string, markerId: string, ns: Namespace)
    requires NamesApart(op) && op.request.operationKind == CREATE_DIRECTORY && IsUnderway(op, id, markerId, Nowhere, None, ns)
    requires Free(ns, op.MarkerName())
    ensures var next := Apply(ns, Create(op.MarkerName(), Object(markerId, File, "")));
      IsUnderway(op, id, markerId, Nowhere, Some({None}), next) && Keeps(ns, next, OwnDirectory(id, markerId))
  {
    BlankSaysNothing();
  }

  lemma OpenDirectoryMarkerSails(P: Namespace -> bool, op: Operation, id: string, markerId: string, rest: Plan)
    requires DirectoryKnown(op, id) && Implies(Underway(op, id, markerId, Nowhere, None), P)
    requires Implies(Underway(op, id, markerId, Nowhere, Some(Allowed(op, id, Nowhere))), P)
    requires DirectorySails(P, op, id, markerId, Nowhere, Some({Some(Marker(op.checksum, PREPARED, ""))}), rest)
    ensures DirectorySails(P, op, id, markerId, Nowhere, None, OpenMarker(op, markerId, rest))
  {
    DirectoryRewrites(P, op, id, markerId, Nowhere, {None}, PREPARED, "", rest);
    var s := Create(op.MarkerName(), Object(markerId, File, ""));
    forall ns: Namespace | Underway(op, id, markerId, Nowhere, None)(ns) && Enabled(ns, s)
      ensures Keeps(ns, Apply(ns, s), OwnDirectory(id, markerId)) && Underway(op, id, markerId, Nowhere, Some({None}))(Apply(ns, s))
    {
      OpensMarker(op, id, markerId, ns);
    }
    DirectoryCall(P, op, id, markerId, Nowhere, None, s, Nowhere, Some({None}), Rewrite(op, PREPARED, "", rest));
  }

  lemma StagesDirectory(op: Operation, id: string, markerId: string, speech: Speech, ns: Namespace)
    requires NamesApart(op) && IsUnderway(op, id, markerId, Nowhere, Some(speech), ns) && Free(ns, op.Stage())
    ensures var next := Apply(ns, Create(op.Stage(), NewDirectory(id)));
      IsUnderway(op, id, markerId, Staged, Some(speech), next) && Keeps(ns, next, OwnDirectory(id, markerId))
  {
  }

  lemma CreateStageSails(P: Namespace -> bool, op: Operation, id: string, markerId: string, speech: Speech, rest: Plan)
    requires NamesApart(op) && Implies(Underway(op, id, markerId, Nowhere, Some(speech)), P)
    requires DirectorySails(P, op, id, markerId, Staged, Some(speech), rest)
    ensures DirectorySails(P, op, id, markerId, Nowhere, Some(speech), Then(Create(op.Stage(), NewDirectory(id)), rest))
  {
    var s := Create(op.Stage(), NewDirectory(id));
    forall ns: Namespace | Underway(op, id, markerId, Nowhere, Some(speech))(ns) && Enabled(ns, s)
      ensures Keeps(ns, Apply(ns, s), OwnDirectory(id, markerId)) && Underway(op, id, markerId, Staged, Some(speech))(Apply(ns, s))
    {
      StagesDirectory(op, id, markerId, speech, ns);
    }
    DirectoryCall(P, op, id, markerId, Nowhere, Some(speech), s, Staged, Some(speech), rest);
  }

  lemma PlacesDirectory(op: Operation, id: string, markerId: string, speech: Speech, ns: Namespace)
    requires NamesApart(op) && IsUnderway(op, id, markerId, Staged, Some(speech), ns) && Free(ns, op.Target())
    ensures !Free(ns, op.Stage())
    ensures var next := Apply(ns, Rename(op.Stage(), op.Target()));
      IsUnderway(op, id, markerId, Placed, Some(speech), next) && Keeps(ns, next, OwnDirectory(id, markerId))
  {
  }

  lemma PlaceSails(P: Namespace -> bool, op: Operation, id: string, markerId: string, speech: Speech, rest: Plan)
    requires NamesApart(op) && Implies(Underway(op, id, markerId, Staged, Some(speech)), P)
    requires DirectorySails(P, op, id, markerId, Placed, Some(speech), rest)
    ensures DirectorySails(P, op, id, markerId, Staged, Some(speech), Then(Rename(op.Stage(), op.Target()), rest))
  {
    var s := Rename(op.Stage(), op.Target());
    forall ns: Namespace | Underway(op, id, markerId, Staged, Some(speech))(ns) && Enabled(ns, s)
      ensures Keeps(ns, Apply(ns, s), OwnDirectory(id, markerId)) && Underway(op, id, markerId, Placed, Some(speech))(Apply(ns, s))
    {
      PlacesDirectory(op, id, markerId, speech, ns);
    }
    DirectoryCall(P, op, id, markerId, Staged, Some(speech), s, Placed, Some(speech), rest);
  }

  lemma CompleteDirectorySails(P: Namespace -> bool, op: Operation, id: string, markerId: string)
    requires DirectoryKnown(op, id)
    requires Implies(Underway(op, id, markerId, Staged, Some({Some(Marker(op.checksum, DIRECTORY_STAGED, id))})), P)
    requires Implies(Underway(op, id, markerId, Placed, Some(Allowed(op, id, Placed))), P)
    ensures DirectorySails(P, op, id, markerId, Staged, Some({Some(Marker(op.checksum, DIRECTORY_STAGED, id))}), CompleteDirectoryPlan(op, id))
  {
    var staged, after := {Some(Marker(op.checksum, DIRECTORY_STAGED, id))}, {Some(Marker(op.checksum, AFTER, id))};
    var home, most := Flush({op.Home()}), Underway(op, id, markerId, Placed, Some(Allowed(op, id, Placed)));
    SpeechGrows(op, id, markerId, Placed, staged, Allowed(op, id, Placed));
    SpeechGrows(op, id, markerId, Placed, after, Allowed(op, id, Placed));
    ImpliesBy(Underway(op, id, markerId, Placed, Some(staged)), most, P);
    ImpliesBy(Underway(op, id, markerId, Placed, Some(after)), most, P);
    DirectoryDone(P, op, id, markerId, Placed, Some(after));
    DirectoryIdles(P, op, id, markerId, Placed, Some(after), home, Done);
    DirectoryRewrites(P, op, id, markerId, Placed, staged, AFTER, id, Then(home, Done));
    DirectoryIdles(P, op, id, markerId, Placed, Some(staged), home, Rewrite(op, AFTER, id, Then(home, Done)));
    PlaceSails(P, op, id, markerId, staged, Then(home, Rewrite(op, AFTER, id, Then(home, Done))));
  }

  /** Wherever a creation may stop, `P` holds. */
  ghost predicate CoversDirectory(P: Namespace -> bool, op: Operation, id: string, markerId: string) {
    && Implies(Underway(op, id, markerId, Nowhere, None), P)
    && Implies(Underway(op, id, markerId, Nowhere, Some(Allowed(op, id, Nowhere))), P)
    && Implies(Underway(op, id, markerId, Staged, Some(Allowed(op, id, Staged))), P)
    && Implies(Underway(op, id, markerId, Placed, Some(Allowed(op, id, Placed))), P)
  }

  lemma CoversLess(P: Namespace -> bool, op: Operation, id: string, markerId: string, spot: Spot, speech: Speech)
    requires CoversDirectory(P, op, id, markerId) && speech <= Allowed(op, id, spot)
    ensures Implies(Underway(op, id, markerId, spot, Some(Allowed(op, id, spot))), P)
    ensures Implies(Underway(op, id, markerId, spot, Some(speech)), P)
  {
    SpeechGrows(op, id, markerId, spot, speech, Allowed(op, id, spot));
    assert Implies(Underway(op, id, markerId, spot, Some(Allowed(op, id, spot))), P);
    ImpliesBy(Underway(op, id, markerId, spot, Some(speech)), Underway(op, id, markerId, spot, Some(Allowed(op, id, spot))), P);
  }

  lemma CreateDirectorySails(P: Namespace -> bool, op: Operation, id: string, markerId: string)
    requires DirectoryKnown(op, id) && CoversDirectory(P, op, id, markerId)
    ensures DirectorySails(P, op, id, markerId, Nowhere, None, CreateDirectoryPlan(op, markerId, id))
  {
    var prepared, staged := {Some(Marker(op.checksum, PREPARED, ""))}, {Some(Marker(op.checksum, DIRECTORY_STAGED, id))};
    var home, finish := Flush({op.Home()}), CompleteDirectoryPlan(op, id);
    CoversLess(P, op, id, markerId, Nowhere, prepared);
    CoversLess(P, op, id, markerId, Staged, prepared);
    CoversLess(P, op, id, markerId, Staged, staged);
    CompleteDirectorySails(P, op, id, markerId);
    DirectoryIdles(P, op, id, markerId, Staged, Some(staged), home, finish);
    DirectoryRewrites(P, op, id, markerId, Staged, prepared, DIRECTORY_STAGED, id, Then(home, finish));
    var name := Rewrite(op, DIRECTORY_STAGED, id, Then(home, finish));
    DirectoryIdles(P, op, id, markerId, Staged, Some(prepared), home, name);
    DirectoryIdles(P, op, id, markerId, Staged, Some(prepared), Flush({id}), Then(home, name));
    CreateStageSails(P, op, id, markerId, prepared, Then(Flush({id}), Then(home, name)));
    OpenDirectoryMarkerSails(P, op, id, markerId, Then(Create(op.Stage(), NewDirectory(id)), Then(Flush({id}), Then(home, name))));
  }

  /** The directory is where the verdict says, and is nowhere without a marker. */
  function DirectoryTold(op: Operation, id: string, markerId: string): Namespace -> bool {
    (ns: Namespace) => DirectoryLocated(op, id, markerId, ns) && DirectoryExact(op, id, ns)
  }

  lemma DirectoryToldCovers(op: Operation, id: string, markerId: string)
    requires DirectoryKnown(op, id)
    ensures CoversDirectory(DirectoryTold(op, id, markerId), op, id, markerId)
  {
    forall ns: Namespace | DirectoryLocated(op, id, markerId, ns) ensures DirectoryTold(op, id, markerId)(ns) {
      DirectoryLocatedIsExact(op, id, markerId, ns);
    }
  }

  /** At every moment of a directory creation, wherever it stops and whatever others put at free names, the operation's
      own among them (though neither this directory nor this request's marker): the verdict tells exactly where the
      new directory is, as far as the marker names it, and nobody else's entry is ever taken or changed. */
  lemma CreateDirectoryCrashIsExact(op: Operation, ns: Namespace, markerId: string, id: string, w: World)
    requires op.WellFormed() && CreateDirectoryReady(op, ns) && IsStableIdentifier(id)
    requires IsUnmarked(op, ns) && Brings(w, Foreigners(op, id))
    ensures Throughout(DirectoryTold(op, id, markerId), OwnDirectory(id, markerId), Trace(ns, CreateDirectoryPlan(op, markerId, id), w))
    ensures DirectoryTold(op, id, markerId)(Run(ns, CreateDirectoryPlan(op, markerId, id), w).ns)
  {
    WellFormedNamesApart(op);
    DirectoryToldCovers(op, id, markerId);
    CreateDirectorySails(DirectoryTold(op, id, markerId), op, id, markerId);
    assert Underway(op, id, markerId, Nowhere, None)(ns);
    AmidCoversTrace(DirectoryTold(op, id, markerId), Anything(), Foreigners(op, id), OwnDirectory(id, markerId), ns, CreateDirectoryPlan(op, markerId, id), w);
  }
}
