/** What the classifier says after a power loss: on every namespace the medium may show, beside every text the marker may have. */
module PowerLoss {
  import opened Text
  import opened Volume
  import opened LifecycleMarker
  import opened Lifecycle
  import opened LifecycleCrash
  import opened DirectoryCrash
  import opened Resume
  import opened WriteAhead
  import opened ResumeOrder

  /** A namespace of the medium with the marker file's text put into it. */
  function Shown(op: Operation, img: Namespace, text: string): Namespace {
    if Free(img, op.MarkerName()) then img else PutBytes(img, op.MarkerName(), text)
  }

  // ---------- moves and quarantines ----------

  /** The object has left the source only beside the marker file, so no rename is durable without one; and whatever the
      marker's text has become, the verdict says where the object is, as far as the text can be read. */
  ghost predicate IsTold(op: Operation, obj: Object, markerId: string, d: Medium) {
    forall img, text | Image(d.stable, d.pending, img) ::
      Located(op, obj, markerId, Shown(op, img, text)) && Exact(op, obj, Shown(op, img, text))
  }

  /** That holds wherever the plan is stopped by a power loss. A cut-off write leaves no text but those considered. */
  ghost predicate ToldThroughout(op: Operation, obj: Object, markerId: string, d: Medium, plan: Plan)
    decreases plan
  {
    IsTold(op, obj, markerId, d) && (plan.Then? ==> ToldThroughout(op, obj, markerId, Advance(d, plan.step), plan.rest))
  }

  /** What a transfer works for, without the marker's texts: every image has the object at the source or beside the marker. */
  ghost predicate Locates(op: Operation, obj: Object, markerId: string, stable: Namespace, pending: seq<Pending>) {
    forall img | Image(stable, pending, img) :: Located(op, obj, markerId, img)
  }

  ghost function Bare(stable: Namespace, pending: seq<Pending>): Medium {
    Medium(stable, pending, iset{}, "")
  }

  ghost predicate LocatesThroughout(op: Operation, obj: Object, markerId: string, stable: Namespace, pending: seq<Pending>, plan: Plan)
    decreases plan
  {
    && Locates(op, obj, markerId, stable, pending)
    && (plan.Then? ==>
          var next := Advance(Bare(stable, pending), plan.step);
          LocatesThroughout(op, obj, markerId, next.stable, next.pending, plan.rest))
  }

  lemma LocatedIsShown(op: Operation, obj: Object, markerId: string, img: Namespace, text: string)
    requires Known(op, obj) && Located(op, obj, markerId, img)
    ensures Located(op, obj, markerId, Shown(op, img, text)) && Exact(op, obj, Shown(op, img, text))
  {
    LocatedIsExact(op, obj, markerId, Shown(op, img, text));
  }

  lemma {:induction false} LocatedIsTold(op: Operation, obj: Object, markerId: string, d: Medium, plan: Plan)
    requires Known(op, obj) && LocatesThroughout(op, obj, markerId, d.stable, d.pending, plan)
    ensures ToldThroughout(op, obj, markerId, d, plan)
    decreases plan
  {
    forall img, text | Image(d.stable, d.pending, img)
      ensures Located(op, obj, markerId, Shown(op, img, text)) && Exact(op, obj, Shown(op, img, text))
    {
      LocatedIsShown(op, obj, markerId, img, text);
    }
    if plan.Then? {
      LocatedIsTold(op, obj, markerId, Advance(d, plan.step), plan.rest);
    }
  }

  /** Rewriting the marker and flushing makes no image that was not one before. */
  lemma {:induction false} MarksLocate(op: Operation, obj: Object, markerId: string, stable: Namespace, pending: seq<Pending>, plan: Plan)
    requires Locates(op, obj, markerId, stable, pending) && OnlyMarks(plan)
    ensures LocatesThroughout(op, obj, markerId, stable, pending, plan)
    decreases plan
  {
    if plan.Then? {
      var next := Advance(Bare(stable, pending), plan.step);
      forall img | Image(next.stable, next.pending, img) ensures Located(op, obj, markerId, img) {
        if plan.step.Flush? { SettleNarrows(stable, pending, plan.step.dirs, img); }
      }
      MarksLocate(op, obj, markerId, next.stable, next.pending, plan.rest);
    }
  }

  lemma FinishesOnlyMark(op: Operation)
    ensures OnlyMarks(FinishMovePlan(op))
    ensures OnlyMarks(Rewrite(op, AFTER, op.request.sourceFileIdentity, Then(Flush({op.Source().dir}), Done)))
  {
    FinishOnlyMarks(op);
    assert OnlyMarks(Then(Flush({op.Target().dir}), FinishMovePlan(op)));
    RewriteOnlyMarks(op, AFTER, op.request.sourceFileIdentity, Then(Flush({op.Source().dir}), Done));
  }

  lemma RewriteLocates(op: Operation, obj: Object, markerId: string, stable: Namespace, pending: seq<Pending>, phase: string,
                       identity: string, rest: Plan)
    requires LocatesThroughout(op, obj, markerId, stable, pending, rest)
    ensures LocatesThroughout(op, obj, markerId, stable, pending, Rewrite(op, phase, identity, rest))
  {
    var sync := Then(Sync(op.MarkerName()), rest);
    assert LocatesThroughout(op, obj, markerId, stable, pending, sync);
    assert LocatesThroughout(op, obj, markerId, stable, pending, Then(Write(op.MarkerName(), op.MarkerText(phase, identity)), sync));
  }

  /** The one pending change becomes durable with this flush. */
  lemma FlushLocates(op: Operation, obj: Object, markerId: string, stable: Namespace, s: Step, awaits: set<string>, dirs: set<string>, rest: Plan)
    requires Enabled(stable, s) && Locates(op, obj, markerId, stable, [Pending(s, awaits)])
    requires
      if awaits <= dirs then LocatesThroughout(op, obj, markerId, Apply(stable, s), [], rest)
      else LocatesThroughout(op, obj, markerId, stable, [Pending(s, awaits - dirs)], rest)
    ensures LocatesThroughout(op, obj, markerId, stable, [Pending(s, awaits)], Then(Flush(dirs), rest))
  {
    SettleOne(stable, s, awaits, dirs);
  }

  lemma IdleFlushLocates(op: Operation, obj: Object, markerId: string, stable: Namespace, dirs: set<string>, rest: Plan)
    requires LocatesThroughout(op, obj, markerId, stable, [], rest)
    ensures LocatesThroughout(op, obj, markerId, stable, [], Then(Flush(dirs), rest))
  {
  }

  lemma OnePending(op: Operation, obj: Object, markerId: string, stable: Namespace, s: Step)
    requires Enabled(stable, s) && Located(op, obj, markerId, stable) && Located(op, obj, markerId, Apply(stable, s))
    ensures forall awaits :: Locates(op, obj, markerId, stable, [Pending(s, awaits)])
  {
    forall awaits, img | Image(stable, [Pending(s, awaits)], img) ensures Located(op, obj, markerId, img) {
      ImagesOfOne(stable, s, awaits, img);
    }
  }

  lemma ImagesOfOne(stable: Namespace, s: Step, awaits: set<string>, img: Namespace)
    requires Enabled(stable, s) && Image(stable, [Pending(s, awaits)], img)
    ensures img == stable || img == Apply(stable, s)
  {
    assert [Pending(s, awaits)][1..] == [];
    assert Image(stable, [], img) || Image(Apply(stable, s), [], img);
  }

  /** A rename beside a durable marker, and the flushes that make it durable. */
  lemma RenameLocates(op: Operation, obj: Object, markerId: string, ns: Namespace, from: Name, to: Name, rest: Plan)
    requires Enabled(ns, Rename(from, to)) && {from.dir, to.dir} <= {op.Source().dir, op.Target().dir}
    requires Located(op, obj, markerId, ns) && LocatesThroughout(op, obj, markerId, Apply(ns, Rename(from, to)), [], rest)
    ensures LocatesThroughout(op, obj, markerId, ns, [], Then(Rename(from, to), FlushBoth(op, rest)))
  {
    var s, dirs, sd, td := Rename(from, to), {from.dir, to.dir}, {op.Source().dir}, {op.Target().dir};
    assert Image(Apply(ns, s), [], Apply(ns, s));
    OnePending(op, obj, markerId, ns, s);
    if dirs <= sd {
      IdleFlushLocates(op, obj, markerId, Apply(ns, s), td, rest);
    } else {
      FlushLocates(op, obj, markerId, ns, s, dirs - sd, td, rest);
    }
    FlushLocates(op, obj, markerId, ns, s, dirs, sd, Then(Flush(td), rest));
    assert [] + [Pending(s, dirs)] == [Pending(s, dirs)];
  }

  /** Creating the marker, up to the flush of its directory. */
  lemma OpenMarkerLocates(op: Operation, obj: Object, markerId: string, ns: Namespace, rest: Plan)
    requires Known(op, obj) && Holds(ns, op.Source(), obj) && Free(ns, op.MarkerName())
    requires LocatesThroughout(op, obj, markerId, WithMarker(op, ns, markerId), [], rest)
    ensures LocatesThroughout(op, obj, markerId, ns, [], OpenMarker(op, markerId, Then(Flush({op.Source().dir}), rest)))
  {
    var create, home := Create(op.MarkerName(), Object(markerId, File, "")), {op.Source().dir};
    var pending := [Pending(create, home)];
    OnePending(op, obj, markerId, ns, create);
    FlushLocates(op, obj, markerId, ns, create, home, home, rest);
    RewriteLocates(op, obj, markerId, ns, pending, PREPARED, "", Then(Flush(home), rest));
    assert [] + pending == pending;
  }

  /** The rename of a plain move or a quarantine, and all that follows. */
  lemma TransferLocates(op: Operation, obj: Object, markerId: string, marked: Namespace, finish: Plan)
    requires Known(op, obj) && !UsesStage(op) && OnlyMarks(finish)
    requires Marked(op, markerId, marked) && Holds(marked, op.Source(), obj) && Free(marked, op.Target())
    ensures LocatesThroughout(op, obj, markerId, marked, [], Then(Rename(op.Source(), op.Target()), FlushBoth(op, finish)))
  {
    var moved := Moved(marked, op.Source(), op.Target());
    assert Located(op, obj, markerId, moved);
    MarksLocate(op, obj, markerId, moved, [], finish);
    RenameLocates(op, obj, markerId, marked, op.Source(), op.Target(), finish);
  }

  lemma CaseMoveLocates(op: Operation, obj: Object, markerId: string, marked: Namespace)
    requires Known(op, obj) && UsesStage(op)
    requires Marked(op, markerId, marked) && Holds(marked, op.Source(), obj) && Free(marked, op.Stage())
    ensures LocatesThroughout(op, obj, markerId, marked, [], CaseMovePlan(op))
  {
    var toTarget := Then(Rename(op.Stage(), op.Target()), FlushBoth(op, FinishMovePlan(op)));
    var staged := Moved(marked, op.Source(), op.Stage());
    ToTargetLocates(op, obj, markerId, staged);
    RewriteLocates(op, obj, markerId, staged, [], CASE_INTERMEDIATE, op.request.sourceFileIdentity, toTarget);
    RenameLocates(op, obj, markerId, marked, op.Source(), op.Stage(), Rewrite(op, CASE_INTERMEDIATE, op.request.sourceFileIdentity, toTarget));
  }

  lemma ToTargetLocates(op: Operation, obj: Object, markerId: string, staged: Namespace)
    requires Known(op, obj) && UsesStage(op)
    requires Marked(op, markerId, staged) && Holds(staged, op.Stage(), obj) && Free(staged, op.Target())
    ensures LocatesThroughout(op, obj, markerId, staged, [], Then(Rename(op.Stage(), op.Target()), FlushBoth(op, FinishMovePlan(op))))
  {
    var moved := Moved(staged, op.Stage(), op.Target());
    assert Located(op, obj, markerId, moved);
    FinishesOnlyMark(op);
    MarksLocate(op, obj, markerId, moved, [], FinishMovePlan(op));
    RenameLocates(op, obj, markerId, staged, op.Stage(), op.Target(), FinishMovePlan(op));
  }

  lemma BodyLocates(op: Operation, obj: Object, markerId: string, ns: Namespace)
    requires Known(op, obj) && MoveReady(op, ns) && obj == SourceObject(op, ns)
    requires Free(ns, op.MarkerName()) && (UsesStage(op) ==> Free(ns, op.Stage()))
    ensures LocatesThroughout(op, obj, markerId, WithMarker(op, ns, markerId), [],
                              if op.IsCaseOnly() then CaseMovePlan(op) else PlainMovePlan(op))
  {
    var marked := WithMarker(op, ns, markerId);
    if op.IsCaseOnly() {
      CaseMoveLocates(op, obj, markerId, marked);
    } else {
      FinishesOnlyMark(op);
      TransferLocates(op, obj, markerId, marked, FinishMovePlan(op));
    }
  }

  /** A power loss at any point of a move: on whatever the medium then shows, the object is where the verdict says, and it
      has left the source only beside the marker. */
  lemma MoveSurvivesPowerLoss(op: Operation, ns: Namespace, markerId: string)
    requires op.WellFormed() && MoveReady(op, ns) && Free(ns, op.MarkerName()) && (UsesStage(op) ==> Free(ns, op.Stage()))
    ensures ToldThroughout(op, SourceObject(op, ns), markerId, NoMarkerYet(ns), MovePlan(op, markerId))
  {
    TransferIsKnown(op, ns);
    var obj, marked := SourceObject(op, ns), WithMarker(op, ns, markerId);
    var body := if op.IsCaseOnly() then CaseMovePlan(op) else PlainMovePlan(op);
    BodyLocates(op, obj, markerId, ns);
    IdleFlushLocates(op, obj, markerId, marked, {op.Target().dir}, body);
    OpenMarkerLocates(op, obj, markerId, ns, Then(Flush({op.Target().dir}), body));
    LocatedIsTold(op, obj, markerId, NoMarkerYet(ns), MovePlan(op, markerId));
  }

  /** The same for a quarantine. */
  lemma QuarantineSurvivesPowerLoss(op: Operation, ns: Namespace, markerId: string)
    requires op.WellFormed() && QuarantineReady(op, ns) && Free(ns, op.MarkerName())
    ensures ToldThroughout(op, SourceObject(op, ns), markerId, NoMarkerYet(ns), QuarantinePlan(op, markerId))
  {
    TransferIsKnown(op, ns);
    var obj, marked := SourceObject(op, ns), WithMarker(op, ns, markerId);
    var finish := Rewrite(op, AFTER, op.request.sourceFileIdentity, Then(Flush({op.Source().dir}), Done));
    FinishesOnlyMark(op);
    TransferLocates(op, obj, markerId, marked, finish);
    OpenMarkerLocates(op, obj, markerId, ns, Then(Rename(op.Source(), op.Target()), FlushBoth(op, finish)));
    LocatedIsTold(op, obj, markerId, NoMarkerYet(ns), QuarantinePlan(op, markerId));
  }

  // ---------- directory creations ----------

  /** The staged directory is durable and the marker is not. */
  predicate IsOrphan(op: Operation, id: string, ns: Namespace) {
    Free(ns, op.MarkerName()) && Free(ns, op.Target()) && Holds(ns, op.Stage(), NewDirectory(id))
  }

  /** The verdict says where the new directory is, exactly unless it is such an orphan; of that it says "before". */
  predicate IsJudged(op: Operation, id: string, ns: Namespace) {
    (DirectoryExact(op, id, ns) <==> !IsOrphan(op, id, ns)) && (IsOrphan(op, id, ns) ==> Classify(op, ns) == Before)
  }

  ghost predicate CanOrphan(op: Operation, id: string, stable: Namespace, pending: seq<Pending>) {
    exists img :: Image(stable, pending, img) && IsOrphan(op, id, img)
  }

  /** On every image, beside every text, it is judged so; and an orphan is among the images exactly while two changes, the
      marker's creation and the staged directory's, both wait for their flush. */
  ghost predicate IsDirectoryTold(op: Operation, id: string, d: Medium) {
    && (forall img, text | Image(d.stable, d.pending, img) && (text in d.texts || text == "") :: IsJudged(op, id, Shown(op, img, text)))
    && (CanOrphan(op, id, d.stable, d.pending) <==> |d.pending| == 2)
  }

  ghost predicate DirectoryToldThroughout(op: Operation, id: string, d: Medium, plan: Plan)
    decreases plan
  {
    IsDirectoryTold(op, id, d) && (plan.Then? ==> DirectoryToldThroughout(op, id, Advance(d, plan.step), plan.rest))
  }

  lemma OrphanIsJudged(op: Operation, id: string, ns: Namespace)
    requires DirectoryKnown(op, id) && IsOrphan(op, id, ns)
    ensures IsJudged(op, id, ns)
  {
    ClassifyIsJudgeDirectory(op, ns);
    DirectoryObservation(ns, op.Target(), "");
  }

  /** Every text that says something of `speech` fits every image. */
  ghost predicate Fits(op: Operation, id: string, stable: Namespace, pending: seq<Pending>, speech: Speech) {
    && (forall img, text | Image(stable, pending, img) && Parse(text) in speech :: IsJudged(op, id, Shown(op, img, text)))
    && (CanOrphan(op, id, stable, pending) <==> |pending| == 2)
  }

  ghost predicate Speaks(texts: iset<string>, speech: Speech) {
    None in speech && forall t | t in texts :: Parse(t) in speech
  }

  lemma SpotFits(op: Operation, id: string, markerId: string, spot: Spot, img: Namespace, text: string)
    requires DirectoryKnown(op, id) && Marked(op, markerId, img) && InSpot(op, id, spot, img) && Parse(text) in Allowed(op, id, spot)
    ensures IsJudged(op, id, Shown(op, img, text))
  {
    var shown := Shown(op, img, text);
    assert IsUnderway(op, id, markerId, spot, Some(Allowed(op, id, spot)), shown);
    MarkedIsExact(op, id, markerId, spot, shown);
  }

  lemma UnmarkedFits(op: Operation, id: string, img: Namespace, text: string)
    requires DirectoryKnown(op, id) && Free(img, op.MarkerName()) && InSpot(op, id, Nowhere, img)
    ensures IsJudged(op, id, Shown(op, img, text))
  {
    UnmarkedIsExact(op, id, "", img);
  }

  lemma FitIsTold(op: Operation, id: string, d: Medium, speech: Speech)
    requires Fits(op, id, d.stable, d.pending, speech) && Speaks(d.texts, speech)
    ensures IsDirectoryTold(op, id, d)
  {
    BlankSaysNothing();
  }

  lemma SayingSpeaks(op: Operation, phase: string, identity: string, speech: Speech)
    requires op.WritesMarkers() && IsPhase(phase) && IsMarkerIdentity(identity)
    requires None in speech && Some(Marker(op.checksum, phase, identity)) in speech
    ensures Speaks(OnItsWay(op.MarkerText(phase, identity)), speech) && Speaks(iset{op.MarkerText(phase, identity)}, speech)
  {
    var m, text := Marker(op.checksum, phase, identity), op.MarkerText(phase, identity);
    BlankSaysNothing();
    ParseOfPrint(m);
    forall t | t in Prefixes(text) ensures Parse(t) in speech {
      if Parse(t).Some? { PrefixSays(m, t); }
    }
  }

  /** Any text that may be on its way to the medium with `bytes`. */
  ghost function OnItsWay(bytes: string): iset<string> {
    iset{bytes} + Prefixes(bytes) + iset{""}
  }

  lemma SpeaksOn(texts: iset<string>, bytes: string, speech: Speech)
    requires Speaks(texts, speech) && Speaks(OnItsWay(bytes), speech)
    ensures Speaks(texts + iset{""}, speech) && Speaks(texts + iset{""} + Prefixes(bytes), speech)
  {
    forall t | t in texts + iset{""} + Prefixes(bytes) ensures Parse(t) in speech {
      assert t in texts || t in OnItsWay(bytes);
    }
  }

  lemma WriteTold(op: Operation, id: string, d: Medium, speech: Speech, bytes: string, rest: Plan)
    requires Speaks(d.texts, speech) && Speaks(d.texts + Prefixes(bytes), speech) && Fits(op, id, d.stable, d.pending, speech)
    requires DirectoryToldThroughout(op, id, Saying(d.stable, d.pending, bytes), rest)
    ensures DirectoryToldThroughout(op, id, d, Then(Write(op.MarkerName(), bytes), Then(Sync(op.MarkerName()), rest)))
  {
    var m, written := op.MarkerName(), d.(texts := d.texts + Prefixes(bytes), text := bytes);
    CallTold(op, id, written, speech, Sync(m), Saying(d.stable, d.pending, bytes), rest);
    CallTold(op, id, d, speech, Write(m, bytes), written, Then(Sync(m), rest));
  }

  lemma BytesTold(op: Operation, id: string, d: Medium, speech: Speech, bytes: string, rest: Plan)
    requires Speaks(d.texts, speech) && Speaks(OnItsWay(bytes), speech) && Fits(op, id, d.stable, d.pending, speech)
    requires DirectoryToldThroughout(op, id, Saying(d.stable, d.pending, bytes), rest)
    ensures DirectoryToldThroughout(op, id, d, Then(Truncate(op.MarkerName()), Then(Write(op.MarkerName(), bytes), Then(Sync(op.MarkerName()), rest))))
  {
    var m, blank := op.MarkerName(), d.(texts := d.texts + iset{""}, text := "");
    SpeaksOn(d.texts, bytes, speech);
    WriteTold(op, id, blank, speech, bytes, rest);
    CallTold(op, id, d, speech, Truncate(m), blank, Then(Write(m, bytes), Then(Sync(m), rest)));
  }

  /** Rewriting the marker beside images that fit what it said and what it says. */
  lemma RewriteTold(op: Operation, id: string, d: Medium, speech: Speech, phase: string, identity: string, rest: Plan)
    requires op.WritesMarkers() && IsPhase(phase) && IsMarkerIdentity(identity)
    requires Speaks(d.texts, speech) && Some(Marker(op.checksum, phase, identity)) in speech
    requires Fits(op, id, d.stable, d.pending, speech)
    requires DirectoryToldThroughout(op, id, Saying(d.stable, d.pending, op.MarkerText(phase, identity)), rest)
    ensures DirectoryToldThroughout(op, id, d, Rewrite(op, phase, identity, rest))
  {
    SayingSpeaks(op, phase, identity, speech);
    BytesTold(op, id, d, speech, op.MarkerText(phase, identity), rest);
  }

  /** One call that leads from a medium that fits to one that goes on well. */
  lemma CallTold(op: Operation, id: string, d: Medium, speech: Speech, s: Step, next: Medium, rest: Plan)
    requires Fits(op, id, d.stable, d.pending, speech) && Speaks(d.texts, speech)
    requires Advance(d, s) == next && DirectoryToldThroughout(op, id, next, rest)
    ensures DirectoryToldThroughout(op, id, d, Then(s, rest))
  {
    FitIsTold(op, id, d, speech);
  }

  /** Settled: every image is the namespace itself. */
  lemma SettledFits(op: Operation, id: string, markerId: string, spot: Spot, stable: Namespace)
    requires DirectoryKnown(op, id) && Marked(op, markerId, stable) && InSpot(op, id, spot, stable)
    ensures Fits(op, id, stable, [], Allowed(op, id, spot))
  {
    forall img, text | Image(stable, [], img) && Parse(text) in Allowed(op, id, spot) ensures IsJudged(op, id, Shown(op, img, text)) {
      SpotFits(op, id, markerId, spot, img, text);
    }
  }

  /** The rename that takes the directory from its stage to its place. */
  function PlacingRename(op: Operation): Step {
    Rename(op.Stage(), op.Target())
  }

  lemma PlacingFits(op: Operation, id: string, markerId: string, ready: Namespace, awaits: set<string>)
    requires DirectoryKnown(op, id) && Marked(op, markerId, ready) && InSpot(op, id, Staged, ready) && Free(ready, op.Target())
    ensures Fits(op, id, ready, [Pending(PlacingRename(op), awaits)], {None, Some(Marker(op.checksum, DIRECTORY_STAGED, id))})
  {
    var s := PlacingRename(op);
    var pending := [Pending(s, awaits)];
    forall img | Image(ready, pending, img) ensures !IsOrphan(op, id, img) {
      ImagesOfOne(ready, s, awaits, img);
    }
    forall img, text | Image(ready, pending, img) && Parse(text) in {None, Some(Marker(op.checksum, DIRECTORY_STAGED, id))}
      ensures IsJudged(op, id, Shown(op, img, text))
    {
      ImagesOfOne(ready, s, awaits, img);
      SpotFits(op, id, markerId, if img == ready then Staged else Placed, img, text);
    }
  }

  lemma SettlingFlushTold(op: Operation, id: string, stable: Namespace, s: Step, text: string, speech: Speech, rest: Plan)
    requires Enabled(stable, s) && Fits(op, id, stable, [Pending(s, {op.Home()})], speech) && Speaks(iset{text}, speech)
    requires DirectoryToldThroughout(op, id, Saying(Apply(stable, s), [], text), rest)
    ensures DirectoryToldThroughout(op, id, Saying(stable, [Pending(s, {op.Home()})], text), Then(Flush({op.Home()}), rest))
  {
    SettleOne(stable, s, {op.Home()}, {op.Home()});
    CallTold(op, id, Saying(stable, [Pending(s, {op.Home()})], text), speech, Flush({op.Home()}), Saying(Apply(stable, s), [], text), rest);
  }

  lemma IdleFlushTold(op: Operation, id: string, stable: Namespace, text: string, speech: Speech, rest: Plan)
    requires Fits(op, id, stable, [], speech) && Speaks(iset{text}, speech)
    requires DirectoryToldThroughout(op, id, Saying(stable, [], text), rest)
    ensures DirectoryToldThroughout(op, id, Saying(stable, [], text), Then(Flush({op.Home()}), rest))
  {
    CallTold(op, id, Saying(stable, [], text), speech, Flush({op.Home()}), Saying(stable, [], text), rest);
  }

  /** The end of a creation, from the settled stage on. */
  lemma PlacingTold(op: Operation, id: string, markerId: string, ready: Namespace)
    requires DirectoryKnown(op, id) && Marked(op, markerId, ready) && InSpot(op, id, Staged, ready) && Free(ready, op.Target())
    ensures DirectoryToldThroughout(op, id, Saying(ready, [], op.MarkerText(DIRECTORY_STAGED, id)), CompleteDirectoryPlan(op, id))
  {
    var s, home, text := PlacingRename(op), {op.Home()}, op.MarkerText(DIRECTORY_STAGED, id);
    var d := Saying(ready, [Pending(s, home)], text);
    SayingSpeaks(op, DIRECTORY_STAGED, id, Allowed(op, id, Staged));
    SettledFits(op, id, markerId, Staged, ready);
    assert {op.Stage().dir, op.Target().dir} == home && [] + [Pending(s, home)] == [Pending(s, home)];
    PlacingFlushTold(op, id, markerId, ready);
    CallTold(op, id, Saying(ready, [], text), Allowed(op, id, Staged), s, d,
             Then(Flush(home), Rewrite(op, AFTER, id, Then(Flush(home), Done))));
  }

  lemma PlacingFlushTold(op: Operation, id: string, markerId: string, ready: Namespace)
    requires DirectoryKnown(op, id) && Marked(op, markerId, ready) && InSpot(op, id, Staged, ready) && Free(ready, op.Target())
    ensures
      var home := {op.Home()};
      DirectoryToldThroughout(op, id, Saying(ready, [Pending(PlacingRename(op), home)], op.MarkerText(DIRECTORY_STAGED, id)),
                              Then(Flush(home), Rewrite(op, AFTER, id, Then(Flush(home), Done))))
  {
    var s, home, text := PlacingRename(op), {op.Home()}, op.MarkerText(DIRECTORY_STAGED, id);
    var speech := {None, Some(Marker(op.checksum, DIRECTORY_STAGED, id))};
    var placed := Apply(ready, s);
    SayingSpeaks(op, DIRECTORY_STAGED, id, speech);
    PlacedTold(op, id, markerId, placed);
    PlacingFits(op, id, markerId, ready, home);
    SettlingFlushTold(op, id, ready, s, text, speech, Rewrite(op, AFTER, id, Then(Flush(home), Done)));
  }

  lemma LastFlushTold(op: Operation, id: string, stable: Namespace, text: string, speech: Speech)
    requires Fits(op, id, stable, [], speech) && Speaks(iset{text}, speech)
    ensures DirectoryToldThroughout(op, id, Saying(stable, [], text), Then(Flush({op.Home()}), Done))
  {
    var end := Saying(stable, [], text);
    FitIsTold(op, id, end, speech);
    assert DirectoryToldThroughout(op, id, end, Done);
    IdleFlushTold(op, id, stable, text, speech, Done);
  }

  lemma PlacedTold(op: Operation, id: string, markerId: string, placed: Namespace)
    requires DirectoryKnown(op, id) && Marked(op, markerId, placed) && InSpot(op, id, Placed, placed)
    ensures DirectoryToldThroughout(op, id, Saying(placed, [], op.MarkerText(DIRECTORY_STAGED, id)),
                                    Rewrite(op, AFTER, id, Then(Flush({op.Home()}), Done)))
  {
    var speech := Allowed(op, id, Placed);
    SettledFits(op, id, markerId, Placed, placed);
    SayingSpeaks(op, DIRECTORY_STAGED, id, speech);
    SayingSpeaks(op, AFTER, id, speech);
    LastFlushTold(op, id, placed, op.MarkerText(AFTER, id), speech);
    RewriteTold(op, id, Saying(placed, [], op.MarkerText(DIRECTORY_STAGED, id)), speech, AFTER, id, Then(Flush({op.Home()}), Done));
  }

  // Before the stage is settled: the marker and the staged directory wait for their flush.

  function MarkerCreation(op: Operation, markerId: string): Step {
    Create(op.MarkerName(), Object(markerId, File, ""))
  }

  function Staging(op: Operation, id: string): Step {
    Create(op.Stage(), NewDirectory(id))
  }

  ghost predicate IsStart(op: Operation, ns: Namespace, id: string) {
    DirectoryKnown(op, id) && id != op.Home() && CreateDirectoryReady(op, ns) && Free(ns, op.MarkerName())
  }

  lemma MarkerPendingFits(op: Operation, ns: Namespace, markerId: string, id: string)
    requires IsStart(op, ns, id)
    ensures Fits(op, id, ns, [], Allowed(op, id, Nowhere))
    ensures Fits(op, id, ns, [Pending(MarkerCreation(op, markerId), {op.Home()})], Allowed(op, id, Nowhere))
  {
    var s, home := MarkerCreation(op, markerId), {op.Home()};
    forall img, text | Image(ns, [], img) && Parse(text) in Allowed(op, id, Nowhere) ensures IsJudged(op, id, Shown(op, img, text)) {
      UnmarkedFits(op, id, img, text);
    }
    forall img | Image(ns, [Pending(s, home)], img) ensures !IsOrphan(op, id, img) {
      ImagesOfOne(ns, s, home, img);
    }
    forall img, text | Image(ns, [Pending(s, home)], img) && Parse(text) in Allowed(op, id, Nowhere)
      ensures IsJudged(op, id, Shown(op, img, text))
    {
      ImagesOfOne(ns, s, home, img);
      if img == ns { UnmarkedFits(op, id, img, text); } else { SpotFits(op, id, markerId, Nowhere, img, text); }
    }
  }

  lemma ImagesOfTwo(stable: Namespace, a: Step, b: Step, awaits: set<string>, img: Namespace)
    requires Enabled(stable, a) && Enabled(stable, b) && Enabled(Apply(stable, a), b)
    ensures Image(stable, [Pending(a, awaits), Pending(b, awaits)], img)
       <==> img == stable || img == Apply(stable, a) || img == Apply(stable, b) || img == Apply(Apply(stable, a), b)
  {
    var pending := [Pending(a, awaits), Pending(b, awaits)];
    assert pending[1..] == [Pending(b, awaits)] && [Pending(b, awaits)][1..] == [];
    assert Image(stable, pending[1..], img) <==> img == stable || img == Apply(stable, b);
    assert Image(Apply(stable, a), pending[1..], img) <==> img == Apply(stable, a) || img == Apply(Apply(stable, a), b);
  }

  lemma BothPendingJudged(op: Operation, ns: Namespace, markerId: string, id: string, img: Namespace, text: string)
    requires IsStart(op, ns, id) && Parse(text) in Allowed(op, id, Nowhere)
    requires
      var a, b := MarkerCreation(op, markerId), Staging(op, id);
      img == ns || img == Apply(ns, a) || img == Apply(ns, b) || img == Apply(WithMarker(op, ns, markerId), b)
    ensures IsJudged(op, id, Shown(op, img, text))
  {
    if img == ns {
      UnmarkedFits(op, id, img, text);
    } else if img == Apply(ns, MarkerCreation(op, markerId)) {
      SpotFits(op, id, markerId, Nowhere, img, text);
    } else if img == Apply(ns, Staging(op, id)) {
      OrphanIsJudged(op, id, img);
    } else {
      SpotFits(op, id, markerId, Staged, img, text);
    }
  }

  lemma BothPendingFits(op: Operation, ns: Namespace, markerId: string, id: string)
    requires IsStart(op, ns, id)
    ensures
      var home := {op.Home()};
      Fits(op, id, ns, [Pending(MarkerCreation(op, markerId), home), Pending(Staging(op, id), home)], Allowed(op, id, Nowhere))
  {
    var a, b, home := MarkerCreation(op, markerId), Staging(op, id), {op.Home()};
    var pending := [Pending(a, home), Pending(b, home)];
    forall img, text | Image(ns, pending, img) && Parse(text) in Allowed(op, id, Nowhere) ensures IsJudged(op, id, Shown(op, img, text)) {
      ImagesOfTwo(ns, a, b, home, img);
      BothPendingJudged(op, ns, markerId, id, img, text);
    }
    ImagesOfTwo(ns, a, b, home, Apply(ns, b));
    assert IsOrphan(op, id, Apply(ns, b));
  }

  /** From the settled stage to the end, beside a marker that says no more than that it was prepared. */
  lemma StagedTold(op: Operation, id: string, markerId: string, ready: Namespace)
    requires DirectoryKnown(op, id) && Marked(op, markerId, ready) && InSpot(op, id, Staged, ready) && Free(ready, op.Target())
    ensures DirectoryToldThroughout(op, id, Saying(ready, [], op.MarkerText(PREPARED, "")),
                                    Rewrite(op, DIRECTORY_STAGED, id, Then(Flush({op.Home()}), CompleteDirectoryPlan(op, id))))
  {
    var speech := Allowed(op, id, Staged);
    SettledFits(op, id, markerId, Staged, ready);
    SayingSpeaks(op, PREPARED, "", speech);
    SayingSpeaks(op, DIRECTORY_STAGED, id, speech);
    PlacingTold(op, id, markerId, ready);
    IdleFlushTold(op, id, ready, op.MarkerText(DIRECTORY_STAGED, id), speech, CompleteDirectoryPlan(op, id));
    RewriteTold(op, id, Saying(ready, [], op.MarkerText(PREPARED, "")), speech, DIRECTORY_STAGED, id,
                Then(Flush({op.Home()}), CompleteDirectoryPlan(op, id)));
  }

  lemma SettlesBoth(op: Operation, ns: Namespace, markerId: string, id: string, text: string)
    requires IsStart(op, ns, id)
    ensures
      var a, b, home := MarkerCreation(op, markerId), Staging(op, id), {op.Home()};
      var d := Saying(ns, [Pending(a, home), Pending(b, home)], text);
      Advance(d, Flush({id})) == d && Advance(d, Flush(home)) == Saying(Apply(WithMarker(op, ns, markerId), b), [], text)
  {
    SettleTwo(ns, MarkerCreation(op, markerId), Staging(op, id), {op.Home()}, {op.Home()});
    SettleTwo(ns, MarkerCreation(op, markerId), Staging(op, id), {op.Home()}, {id});
  }

  /** The two flushes that settle the stage. */
  lemma StageFlushesTold(op: Operation, ns: Namespace, markerId: string, id: string, rest: Plan)
    requires IsStart(op, ns, id)
    requires DirectoryToldThroughout(op, id, Saying(Apply(WithMarker(op, ns, markerId), Staging(op, id)), [], op.MarkerText(PREPARED, "")), rest)
    ensures
      var home := {op.Home()};
      var pending := [Pending(MarkerCreation(op, markerId), home), Pending(Staging(op, id), home)];
      DirectoryToldThroughout(op, id, Saying(ns, pending, op.MarkerText(PREPARED, "")), Then(Flush({id}), Then(Flush(home), rest)))
  {
    var a, b, home, text := MarkerCreation(op, markerId), Staging(op, id), {op.Home()}, op.MarkerText(PREPARED, "");
    var d := Saying(ns, [Pending(a, home), Pending(b, home)], text);
    BothPendingFits(op, ns, markerId, id);
    SayingSpeaks(op, PREPARED, "", Allowed(op, id, Nowhere));
    SettlesBoth(op, ns, markerId, id, text);
    CallTold(op, id, d, Allowed(op, id, Nowhere), Flush(home), Saying(Apply(WithMarker(op, ns, markerId), b), [], text), rest);
    CallTold(op, id, d, Allowed(op, id, Nowhere), Flush({id}), d, Then(Flush(home), rest));
  }

  /** The marker and the stage, created one after the other. */
  lemma OpeningTold(op: Operation, ns: Namespace, markerId: string, id: string, rest: Plan)
    requires IsStart(op, ns, id)
    requires
      var home := {op.Home()};
      var pending := [Pending(MarkerCreation(op, markerId), home), Pending(Staging(op, id), home)];
      DirectoryToldThroughout(op, id, Saying(ns, pending, op.MarkerText(PREPARED, "")), rest)
    ensures DirectoryToldThroughout(op, id, NoMarkerYet(ns), OpenMarker(op, markerId, Then(Staging(op, id), rest)))
  {
    var a, b, home, text := MarkerCreation(op, markerId), Staging(op, id), {op.Home()}, op.MarkerText(PREPARED, "");
    var one, speech := [Pending(a, home)], Allowed(op, id, Nowhere);
    MarkerPendingFits(op, ns, markerId, id);
    SayingSpeaks(op, PREPARED, "", speech);
    assert one + [Pending(b, home)] == [Pending(a, home), Pending(b, home)] && [] + one == one;
    CallTold(op, id, Saying(ns, one, text), speech, b, Saying(ns, [Pending(a, home), Pending(b, home)], text), rest);
    var created := Medium(ns, one, iset{}, "");
    RewriteTold(op, id, created, speech, PREPARED, "", Then(b, rest));
    CallTold(op, id, NoMarkerYet(ns), speech, a, created, Rewrite(op, PREPARED, "", Then(b, rest)));
  }

  /** A power loss at any point of a directory creation: the verdict says where the directory is, on whatever the medium then
      shows, unless the marker was lost and the staged directory was not; that can be exactly until the flush after staging,
      and of it the verdict says "before". */
  lemma CreateDirectoryPowerLoss(op: Operation, ns: Namespace, markerId: string, id: string)
    requires op.WellFormed() && CreateDirectoryReady(op, ns) && Free(ns, op.MarkerName())
    requires IsStableIdentifier(id) && id != op.Home()
    ensures DirectoryToldThroughout(op, id, NoMarkerYet(ns), CreateDirectoryPlan(op, markerId, id))
  {
    WellFormedNamesApart(op);
    var home, ready := {op.Home()}, Apply(WithMarker(op, ns, markerId), Staging(op, id));
    var settled := Rewrite(op, DIRECTORY_STAGED, id, Then(Flush(home), CompleteDirectoryPlan(op, id)));
    StagedTold(op, id, markerId, ready);
    StageFlushesTold(op, ns, markerId, id, settled);
    OpeningTold(op, ns, markerId, id, Then(Flush({id}), Then(Flush(home), settled)));
  }
}
