/** Power loss during a resume: from whatever an operation that merely stopped has left pending and unsynced. */
module ResumeOrder {
  import opened Text
  import opened Volume
  import opened LifecycleMarker
  import opened Lifecycle
  import opened LifecycleCrash
  import opened DirectoryCrash
  import opened Resume
  import opened WriteAhead

  /** The namespace as other processes see it: every change that was made, durable or not. */
  function View(stable: Namespace, pending: seq<Pending>): Namespace
    decreases |pending|
  {
    if pending == [] then stable
    else View(if Enabled(stable, pending[0].step) then Apply(stable, pending[0].step) else stable, pending[1..])
  }

  /** What a resume is taken up on: the object on its stage, beside a marker text that reads as one of `phases`. */
  predicate IsResumable(op: Operation, obj: Object, d: Medium, phases: set<string>) {
    Holds(View(d.stable, d.pending), op.Stage(), obj) && Parse(d.text).Some? && Parse(d.text).value.phase in phases
  }

  /** A write that was cut off. */
  ghost function Torn(d: Medium, bytes: string, n: nat): Medium
    requires n <= |bytes|
  {
    d.(texts := d.texts + Prefixes(bytes), text := bytes[..n])
  }

  /** What a resume needs to know: the phases it is taken up on, and its calls. */
  datatype Completion = Completion(phases: set<string>, plan: Plan)

  ghost predicate IsCompletable(op: Operation, obj: Object, c: Completion, d: Medium) {
    IsResumable(op, obj, d, c.phases) ==> Ordered(op, obj, d, c.plan)
  }

  /** Wherever the plan stops, in the middle of a write or between two calls: if what it leaves is resumed, the durable
      marker never runs ahead of the durable namespace during the resume either. */
  ghost predicate EveryStopCompletes(op: Operation, obj: Object, c: Completion, d: Medium, plan: Plan)
    decreases plan
  {
    && IsCompletable(op, obj, c, d)
    && (plan.Then? ==>
          && (plan.step.Write? ==> forall n: nat | n <= |plan.step.bytes| :: IsCompletable(op, obj, c, Torn(d, plan.step.bytes, n)))
          && EveryStopCompletes(op, obj, c, Advance(d, plan.step), plan.rest))
  }

  lemma {:induction false} ViewSettles(stable: Namespace, pending: seq<Pending>, dirs: set<string>)
    ensures var (s, p) := Settle(stable, pending, dirs); View(s, p) == View(stable, pending)
    decreases |pending|
  {
    if pending != [] {
      var p := pending[0];
      var next := if Enabled(stable, p.step) then Apply(stable, p.step) else stable;
      if p.awaits <= dirs {
        ViewSettles(next, pending[1..], dirs);
      } else {
        assert ([Pending(p.step, p.awaits - dirs)] + pending[1..])[1..] == pending[1..];
      }
    }
  }

  // ---------- where the object is not on its stage ----------

  predicate IsOff(op: Operation, obj: Object, d: Medium) {
    !Holds(View(d.stable, d.pending), op.Stage(), obj)
  }

  lemma CallOff(op: Operation, obj: Object, c: Completion, d: Medium, s: Step, rest: Plan)
    requires IsOff(op, obj, d) && EveryStopCompletes(op, obj, c, Advance(d, s), rest)
    ensures EveryStopCompletes(op, obj, c, d, Then(s, rest))
  {
  }

  lemma FlushStaysOff(op: Operation, obj: Object, d: Medium, dirs: set<string>)
    requires IsOff(op, obj, d)
    ensures IsOff(op, obj, Advance(d, Flush(dirs)))
  {
    ViewSettles(d.stable, d.pending, dirs);
  }

  lemma SyncOff(op: Operation, obj: Object, c: Completion, d: Medium, rest: Plan)
    requires IsOff(op, obj, d) && EveryStopCompletes(op, obj, c, Saying(d.stable, d.pending, d.text), rest)
    ensures EveryStopCompletes(op, obj, c, d, Then(Sync(op.MarkerName()), rest))
  {
    CallOff(op, obj, c, d, Sync(op.MarkerName()), rest);
  }

  lemma WriteOff(op: Operation, obj: Object, c: Completion, d: Medium, bytes: string, rest: Plan)
    requires IsOff(op, obj, d) && EveryStopCompletes(op, obj, c, Saying(d.stable, d.pending, bytes), rest)
    ensures EveryStopCompletes(op, obj, c, d, Then(Write(op.MarkerName(), bytes), Then(Sync(op.MarkerName()), rest)))
  {
    var written := d.(texts := d.texts + Prefixes(bytes), text := bytes);
    SyncOff(op, obj, c, written, rest);
    CallOff(op, obj, c, d, Write(op.MarkerName(), bytes), Then(Sync(op.MarkerName()), rest));
  }

  lemma RewriteOff(op: Operation, obj: Object, c: Completion, d: Medium, phase: string, identity: string, rest: Plan)
    requires IsOff(op, obj, d)
    requires EveryStopCompletes(op, obj, c, Saying(d.stable, d.pending, op.MarkerText(phase, identity)), rest)
    ensures EveryStopCompletes(op, obj, c, d, Rewrite(op, phase, identity, rest))
  {
    var bytes, blank := op.MarkerText(phase, identity), d.(texts := d.texts + iset{""}, text := "");
    WriteOff(op, obj, c, blank, bytes, rest);
    CallOff(op, obj, c, d, Truncate(op.MarkerName()), Then(Write(op.MarkerName(), bytes), Then(Sync(op.MarkerName()), rest)));
  }

  /** Nothing but marker rewrites and flushes: the object stays off its stage to the end. */
  predicate OnlyMarks(plan: Plan) {
    plan.Then? ==> !plan.step.Create? && !plan.step.Rename? && !plan.step.Remove? && OnlyMarks(plan.rest)
  }

  lemma {:induction false} MarksOff(op: Operation, obj: Object, c: Completion, d: Medium, plan: Plan)
    requires IsOff(op, obj, d) && OnlyMarks(plan)
    ensures EveryStopCompletes(op, obj, c, d, plan)
    decreases plan
  {
    if plan.Then? {
      if plan.step.Flush? { FlushStaysOff(op, obj, d, plan.step.dirs); }
      MarksOff(op, obj, c, Advance(d, plan.step), plan.rest);
      CallOff(op, obj, c, d, plan.step, plan.rest);
    }
  }

  predicate IsMarkerIdentity(identity: string) {
    identity == "" || IsStableIdentifier(identity)
  }

  // ---------- the completion from one medium ----------

  /** One flush settles whatever is pending together with the rename; then the marker may say so. */
  lemma CompletionOrdered(op: Operation, obj: Object, d: Medium, moved: Namespace, phases: set<string>, identity: string)
    requires op.WritesMarkers() && IsMarkerIdentity(identity) && Says(d, phases) && ImagesBack(op, obj, d, phases)
    requires ImagesBack(op, obj, Advance(d, Rename(op.Stage(), op.Target())), phases)
    requires
      var d1 := Advance(d, Rename(op.Stage(), op.Target()));
      Settle(d1.stable, d1.pending, {op.Target().dir}) == (moved, [])
    requires Holds(moved, op.Target(), obj)
    ensures Ordered(op, obj, d, FinishStaged(op, op.Target().dir, identity))
  {
    var flush, text := {op.Target().dir}, op.MarkerText(AFTER, identity);
    var d1 := Advance(d, Rename(op.Stage(), op.Target()));
    var d2 := Advance(d1, Flush(flush));
    var end := Saying(moved, [], text);
    SayingOrdered(op, obj, moved, [], AFTER, identity);
    assert Ordered(op, obj, end, Done);
    IdleFlushOrdered(op, obj, end, flush, Done);
    assert d2 == d.(stable := moved, pending := []);
    RewriteOrdered(op, obj, d2, phases, AFTER, identity, Then(Flush(flush), Done));
    SaysAndBacked(op, obj, d1, phases);
    FlushOrdered(op, obj, d1, flush, Rewrite(op, AFTER, identity, Then(Flush(flush), Done)));
    SaysAndBacked(op, obj, d, phases);
  }

  /** Nothing pending: the object is durably on its stage. */
  lemma SettledCompletes(op: Operation, obj: Object, d: Medium, phases: set<string>, identity: string)
    requires op.WritesMarkers() && IsMarkerIdentity(identity) && Says(d, phases) && AFTER !in phases && d.pending == []
    requires Holds(d.stable, op.Stage(), obj) && Free(d.stable, op.Target()) && op.Stage().dir == op.Target().dir
    ensures Ordered(op, obj, d, FinishStaged(op, op.Target().dir, identity))
  {
    var s := Rename(op.Stage(), op.Target());
    var moved := Apply(d.stable, s);
    var pending := [Pending(s, {op.Stage().dir, op.Target().dir})];
    assert [] + pending == pending && pending[1..] == [];
    SettleOne(d.stable, s, {op.Stage().dir, op.Target().dir}, {op.Target().dir});
    assert Advance(d, s) == d.(pending := pending);
    assert Holds(moved, op.Target(), obj);
    CompletionOrdered(op, obj, d, moved, phases, identity);
  }

  // ---------- where it is on its stage ----------

  /** The marker rewritten while the object is durably on its stage: before, half-way and after. */
  lemma RewriteOnStage(op: Operation, obj: Object, c: Completion, d: Medium, before: string, phase: string, identity: string,
                       final: string, rest: Plan)
    requires op.WritesMarkers() && IsPhase(phase) && phase != AFTER && before != AFTER && IsMarkerIdentity(identity)
    requires Says(d, {before}) && d.pending == [] && IsMarkerIdentity(final) && c.plan == FinishStaged(op, op.Target().dir, final)
    requires Holds(d.stable, op.Stage(), obj) && Free(d.stable, op.Target()) && op.Stage().dir == op.Target().dir
    requires EveryStopCompletes(op, obj, c, Saying(d.stable, [], op.MarkerText(phase, identity)), rest)
    ensures EveryStopCompletes(op, obj, c, d, Rewrite(op, phase, identity, rest))
  {
    var bytes, blank := op.MarkerText(phase, identity), d.(texts := d.texts + iset{""}, text := "");
    var written := blank.(texts := blank.texts + Prefixes(bytes), text := bytes);
    BlankSaysNothing();
    SaysEither(op, d, before, phase, identity);
    SettledCompletes(op, obj, d, {before}, final);
    SettledCompletes(op, obj, written, {before, phase}, final);
    CutIsCompletable(op, obj, c, blank, phase, identity);
    MarkerStops(op, obj, c, d, bytes, rest);
  }

  lemma SaysEither(op: Operation, d: Medium, before: string, phase: string, identity: string)
    requires op.WritesMarkers() && IsPhase(phase) && IsMarkerIdentity(identity) && Says(d, {before})
    ensures var bytes := op.MarkerText(phase, identity);
      Says(d.(texts := d.texts + iset{""} + Prefixes(bytes), text := bytes), {before, phase})
  {
    BlankSaysNothing();
    forall t | t in Prefixes(op.MarkerText(phase, identity)) && Parse(t).Some? ensures Parse(t).value.phase == phase {
      PrefixSays(Marker(op.checksum, phase, identity), t);
    }
  }

  /** Truncate, write and sync, when each of the mediums between them is one a resume can complete from. */
  lemma MarkerStops(op: Operation, obj: Object, c: Completion, d: Medium, bytes: string, rest: Plan)
    requires IsCompletable(op, obj, c, d)
    requires
      var blank := d.(texts := d.texts + iset{""}, text := "");
      && IsCompletable(op, obj, c, blank) && (forall n: nat | n <= |bytes| :: IsCompletable(op, obj, c, Torn(blank, bytes, n)))
      && IsCompletable(op, obj, c, blank.(texts := blank.texts + Prefixes(bytes), text := bytes))
    requires EveryStopCompletes(op, obj, c, Saying(d.stable, d.pending, bytes), rest)
    ensures EveryStopCompletes(op, obj, c, d, Then(Truncate(op.MarkerName()), Then(Write(op.MarkerName(), bytes), Then(Sync(op.MarkerName()), rest))))
  {
    var m, blank := op.MarkerName(), d.(texts := d.texts + iset{""}, text := "");
    WriteStops(op, obj, c, blank, bytes, rest);
    CallStops(op, obj, c, d, Truncate(m), Then(Write(m, bytes), Then(Sync(m), rest)));
  }

  lemma SyncStops(op: Operation, obj: Object, c: Completion, d: Medium, rest: Plan)
    requires IsCompletable(op, obj, c, d) && EveryStopCompletes(op, obj, c, Saying(d.stable, d.pending, d.text), rest)
    ensures EveryStopCompletes(op, obj, c, d, Then(Sync(op.MarkerName()), rest))
  {
    CallStops(op, obj, c, d, Sync(op.MarkerName()), rest);
  }

  lemma WriteStops(op: Operation, obj: Object, c: Completion, d: Medium, bytes: string, rest: Plan)
    requires IsCompletable(op, obj, c, d) && forall n: nat | n <= |bytes| :: IsCompletable(op, obj, c, Torn(d, bytes, n))
    requires IsCompletable(op, obj, c, d.(texts := d.texts + Prefixes(bytes), text := bytes))
    requires EveryStopCompletes(op, obj, c, Saying(d.stable, d.pending, bytes), rest)
    ensures EveryStopCompletes(op, obj, c, d, Then(Write(op.MarkerName(), bytes), Then(Sync(op.MarkerName()), rest)))
  {
    SyncStops(op, obj, c, d.(texts := d.texts + Prefixes(bytes), text := bytes), rest);
    CallStops(op, obj, c, d, Write(op.MarkerName(), bytes), Then(Sync(op.MarkerName()), rest));
  }

  lemma CallStops(op: Operation, obj: Object, c: Completion, d: Medium, s: Step, rest: Plan)
    requires IsCompletable(op, obj, c, d) && EveryStopCompletes(op, obj, c, Advance(d, s), rest)
    requires s.Write? ==> forall n: nat | n <= |s.bytes| :: IsCompletable(op, obj, c, Torn(d, s.bytes, n))
    ensures EveryStopCompletes(op, obj, c, d, Then(s, rest))
  {
  }

  /** A torn text is not resumed, and a write cut off at its very end is a write. */
  lemma CutIsCompletable(op: Operation, obj: Object, c: Completion, d: Medium, phase: string, identity: string)
    requires op.WritesMarkers() && IsPhase(phase) && IsMarkerIdentity(identity)
    requires
      var bytes := op.MarkerText(phase, identity);
      IsCompletable(op, obj, c, d.(texts := d.texts + Prefixes(bytes), text := bytes))
    ensures
      var bytes := op.MarkerText(phase, identity);
      forall n: nat | n <= |bytes| :: IsCompletable(op, obj, c, Torn(d, bytes, n))
  {
    var m, bytes := Marker(op.checksum, phase, identity), op.MarkerText(phase, identity);
    forall n: nat | n <= |bytes| ensures IsCompletable(op, obj, c, Torn(d, bytes, n)) {
      if n < |bytes| {
        NoProperPrefixParses(m, n);
      } else {
        assert bytes[..n] == bytes;
      }
    }
  }

  // ---------- case-only moves ----------

  function CaseCompletion(op: Operation): Completion {
    Completion({PREPARED, CASE_INTERMEDIATE, DIRECTORY_STAGED, AFTER}, CompleteCasePlan(op))
  }

  /** The rename onto the stage, not yet durable: one flush settles it together with the rename that completes it. */
  lemma PendingCompletes(op: Operation, obj: Object, ns: Namespace)
    requires op.WritesMarkers() && Known(op, obj) && UsesStage(op)
    requires Holds(ns, op.Source(), obj) && Free(ns, op.Stage())
    ensures
      var dirs := {op.Source().dir, op.Stage().dir};
      Ordered(op, obj, Saying(ns, [Pending(Rename(op.Source(), op.Stage()), dirs)], op.MarkerText(PREPARED, "")), CompleteCasePlan(op))
  {
    var dirs := {op.Source().dir, op.Stage().dir};
    var first, second := Rename(op.Source(), op.Stage()), Rename(op.Stage(), op.Target());
    var d := Saying(ns, [Pending(first, dirs)], op.MarkerText(PREPARED, ""));
    var staged := Apply(ns, first);
    var moved := Apply(staged, second);
    var d1 := Advance(d, second);
    assert {op.Stage().dir, op.Target().dir} == dirs == {op.Target().dir};
    assert d1.pending == [Pending(first, dirs), Pending(second, dirs)];
    SettleTwo(ns, first, second, dirs, {op.Target().dir});
    SayingOrdered(op, obj, ns, d.pending, PREPARED, "");
    assert Says(d1, {PREPARED}) && ImagesBack(op, obj, d1, {PREPARED});
    CompletionOrdered(op, obj, d, moved, {PREPARED}, op.request.sourceFileIdentity);
  }

  function OnStagePlan(op: Operation): Plan {
    Rewrite(op, CASE_INTERMEDIATE, op.request.sourceFileIdentity, Then(Rename(op.Stage(), op.Target()), FlushBoth(op, FinishMovePlan(op))))
  }

  /** From the stage on: the flushes, the second word of the marker, and the rename to the target. */
  lemma StageStops(op: Operation, obj: Object, ns: Namespace)
    requires op.WritesMarkers() && Known(op, obj) && UsesStage(op) && Holds(ns, op.Source(), obj) && Free(ns, op.Stage())
    ensures
      var dirs := {op.Source().dir, op.Stage().dir};
      EveryStopCompletes(op, obj, CaseCompletion(op), Saying(ns, [Pending(Rename(op.Source(), op.Stage()), dirs)], op.MarkerText(PREPARED, "")),
                         FlushBoth(op, OnStagePlan(op)))
  {
    var c, first, dirs, text := CaseCompletion(op), Rename(op.Source(), op.Stage()), {op.Source().dir, op.Stage().dir}, op.MarkerText(PREPARED, "");
    var staged, d := Apply(ns, first), Saying(ns, [Pending(first, dirs)], text);
    PendingCompletes(op, obj, ns);
    StagedStops(op, obj, staged);
    SettleOne(ns, first, dirs, {op.Source().dir});
    SettlingFlushStops(op, obj, c, d, {op.Source().dir}, Saying(staged, [], text), Then(Flush({op.Target().dir}), OnStagePlan(op)));
  }

  lemma SettlingFlushStops(op: Operation, obj: Object, c: Completion, d: Medium, dirs: set<string>, next: Medium, rest: Plan)
    requires IsCompletable(op, obj, c, d)
    requires Settle(d.stable, d.pending, dirs) == (next.stable, next.pending) && next.texts == d.texts && next.text == d.text
    requires EveryStopCompletes(op, obj, c, next, rest)
    ensures EveryStopCompletes(op, obj, c, d, Then(Flush(dirs), rest))
  {
    assert Advance(d, Flush(dirs)) == next;
    CallStops(op, obj, c, d, Flush(dirs), rest);
  }

  lemma StagedStops(op: Operation, obj: Object, staged: Namespace)
    requires op.WritesMarkers() && Known(op, obj) && UsesStage(op) && Holds(staged, op.Stage(), obj) && Free(staged, op.Target())
    ensures EveryStopCompletes(op, obj, CaseCompletion(op), Saying(staged, [], op.MarkerText(PREPARED, "")),
                               Then(Flush({op.Target().dir}), OnStagePlan(op)))
  {
    SecondWordStops(op, obj, staged);
    IdleFlushStops(op, obj, CaseCompletion(op), Saying(staged, [], op.MarkerText(PREPARED, "")), {op.Target().dir}, OnStagePlan(op));
  }

  lemma IdleFlushStops(op: Operation, obj: Object, c: Completion, d: Medium, dirs: set<string>, rest: Plan)
    requires d.pending == [] && IsCompletable(op, obj, c, d) && EveryStopCompletes(op, obj, c, d, rest)
    ensures EveryStopCompletes(op, obj, c, d, Then(Flush(dirs), rest))
  {
    assert Advance(d, Flush(dirs)) == d;
    CallStops(op, obj, c, d, Flush(dirs), rest);
  }

  lemma SecondWordStops(op: Operation, obj: Object, staged: Namespace)
    requires op.WritesMarkers() && Known(op, obj) && UsesStage(op) && Holds(staged, op.Stage(), obj) && Free(staged, op.Target())
    ensures
      var d := Saying(staged, [], op.MarkerText(PREPARED, ""));
      IsCompletable(op, obj, CaseCompletion(op), d) && EveryStopCompletes(op, obj, CaseCompletion(op), d, OnStagePlan(op))
  {
    var c, id, d := CaseCompletion(op), op.request.sourceFileIdentity, Saying(staged, [], op.MarkerText(PREPARED, ""));
    SayingOrdered(op, obj, staged, [], PREPARED, "");
    TargetStops(op, obj, staged);
    RewriteOnStage(op, obj, c, d, PREPARED, CASE_INTERMEDIATE, id, id, Then(Rename(op.Stage(), op.Target()), FlushBoth(op, FinishMovePlan(op))));
  }

  lemma TargetStops(op: Operation, obj: Object, staged: Namespace)
    requires op.WritesMarkers() && Known(op, obj) && UsesStage(op) && Holds(staged, op.Stage(), obj) && Free(staged, op.Target())
    ensures EveryStopCompletes(op, obj, CaseCompletion(op), Saying(staged, [], op.MarkerText(CASE_INTERMEDIATE, op.request.sourceFileIdentity)),
                               Then(Rename(op.Stage(), op.Target()), FlushBoth(op, FinishMovePlan(op))))
  {
    var c, id, s := CaseCompletion(op), op.request.sourceFileIdentity, Rename(op.Stage(), op.Target());
    var d := Saying(staged, [], op.MarkerText(CASE_INTERMEDIATE, id));
    var pending := [Pending(s, {op.Stage().dir, op.Target().dir})];
    SayingOrdered(op, obj, staged, [], CASE_INTERMEDIATE, id);
    SettledCompletes(op, obj, d, {CASE_INTERMEDIATE}, id);
    var next := Saying(staged, pending, op.MarkerText(CASE_INTERMEDIATE, id));
    assert Advance(d, s) == next;
    assert pending[1..] == [] && View(staged, pending) == Apply(staged, s);
    FinishOnlyMarks(op);
    MarksOff(op, obj, c, next, FlushBoth(op, FinishMovePlan(op)));
    CallStops(op, obj, c, d, s, FlushBoth(op, FinishMovePlan(op)));
  }

  lemma FinishOnlyMarks(op: Operation)
    ensures OnlyMarks(FlushBoth(op, FinishMovePlan(op)))
  {
    assert OnlyMarks(FlushBoth(op, Done));
    RewriteOnlyMarks(op, AFTER, op.request.sourceFileIdentity, FlushBoth(op, Done));
    assert OnlyMarks(Then(Flush({op.Target().dir}), FinishMovePlan(op)));
  }

  lemma RewriteOnlyMarks(op: Operation, phase: string, identity: string, rest: Plan)
    requires OnlyMarks(rest)
    ensures OnlyMarks(Rewrite(op, phase, identity, rest))
  {
    assert OnlyMarks(Then(Write(op.MarkerName(), op.MarkerText(phase, identity)), Then(Sync(op.MarkerName()), rest)));
  }

  /** The opening: the marker is made, says "prepared", and is durable after the first flush of its directory. */
  lemma OpeningStops(op: Operation, obj: Object, c: Completion, ns: Namespace, markerId: string, more: set<string>, rest: Plan)
    requires op.WritesMarkers() && NamesApart(op) && Free(ns, op.MarkerName()) && Lacks(ns, op.Stage(), obj.id) && op.Home() in more
    requires EveryStopCompletes(op, obj, c, Saying(WithMarker(op, ns, markerId), [], op.MarkerText(PREPARED, "")), rest)
    ensures EveryStopCompletes(op, obj, c, NoMarkerYet(ns), OpenMarker(op, markerId, Then(Flush(more), rest)))
  {
    FirstFlushStops(op, obj, c, ns, markerId, more, rest);
    OpeningStopsBefore(op, obj, c, ns, markerId, Then(Flush(more), rest));
  }

  lemma FirstFlushStops(op: Operation, obj: Object, c: Completion, ns: Namespace, markerId: string, more: set<string>, rest: Plan)
    requires op.WritesMarkers() && NamesApart(op) && Free(ns, op.MarkerName()) && Lacks(ns, op.Stage(), obj.id) && op.Home() in more
    requires EveryStopCompletes(op, obj, c, Saying(WithMarker(op, ns, markerId), [], op.MarkerText(PREPARED, "")), rest)
    ensures
      var create := Create(op.MarkerName(), Object(markerId, File, ""));
      EveryStopCompletes(op, obj, c, Saying(ns, [Pending(create, {op.Home()})], op.MarkerText(PREPARED, "")), Then(Flush(more), rest))
  {
    var create := Create(op.MarkerName(), Object(markerId, File, ""));
    var pending := [Pending(create, {op.Home()})];
    var d := Saying(ns, pending, op.MarkerText(PREPARED, ""));
    assert pending[1..] == [] && View(ns, pending) == WithMarker(op, ns, markerId);
    SettleOne(ns, create, {op.Home()}, more);
    assert Advance(d, Flush(more)) == Saying(WithMarker(op, ns, markerId), [], op.MarkerText(PREPARED, ""));
    CallOff(op, obj, c, d, Flush(more), rest);
  }

  /** Wherever a case-only move merely stops, with renames pending and marker texts unsynced: a power loss at any moment
      of the resume that completes it never finds a marker ahead of the namespace. */
  lemma CaseMoveStopsComplete(op: Operation, ns: Namespace, markerId: string)
    requires op.WellFormed() && MoveReady(op, ns) && op.IsCaseOnly() && Free(ns, op.MarkerName()) && Free(ns, op.Stage())
    ensures EveryStopCompletes(op, SourceObject(op, ns), CaseCompletion(op), NoMarkerYet(ns), MovePlan(op, markerId))
  {
    TransferIsKnown(op, ns);
    var obj := SourceObject(op, ns);
    OffStageStops(op, obj, WithMarker(op, ns, markerId));
    OpeningStops(op, obj, CaseCompletion(op), ns, markerId, {op.Source().dir}, Then(Flush({op.Target().dir}), CaseMovePlan(op)));
  }

  /** From the settled marker to the rename onto the stage. */
  lemma OffStageStops(op: Operation, obj: Object, marked: Namespace)
    requires op.WritesMarkers() && Known(op, obj) && UsesStage(op) && Holds(marked, op.Source(), obj) && Free(marked, op.Stage())
    ensures EveryStopCompletes(op, obj, CaseCompletion(op), Saying(marked, [], op.MarkerText(PREPARED, "")),
                               Then(Flush({op.Target().dir}), CaseMovePlan(op)))
  {
    var c, text := CaseCompletion(op), op.MarkerText(PREPARED, "");
    StageStops(op, obj, marked);
    RenameOff(op, obj, c, marked, text, op.Source(), op.Stage(), FlushBoth(op, OnStagePlan(op)));
    IdleFlushOff(op, obj, c, marked, text, {op.Target().dir}, CaseMovePlan(op));
  }

  lemma RenameOff(op: Operation, obj: Object, c: Completion, ns: Namespace, text: string, from: Name, to: Name, rest: Plan)
    requires Free(ns, op.Stage())
    requires EveryStopCompletes(op, obj, c, Saying(ns, [Pending(Rename(from, to), {from.dir, to.dir})], text), rest)
    ensures EveryStopCompletes(op, obj, c, Saying(ns, [], text), Then(Rename(from, to), rest))
  {
    assert Advance(Saying(ns, [], text), Rename(from, to)) == Saying(ns, [Pending(Rename(from, to), {from.dir, to.dir})], text);
    CallOff(op, obj, c, Saying(ns, [], text), Rename(from, to), rest);
  }

  lemma IdleFlushOff(op: Operation, obj: Object, c: Completion, ns: Namespace, text: string, dirs: set<string>, rest: Plan)
    requires Free(ns, op.Stage()) && EveryStopCompletes(op, obj, c, Saying(ns, [], text), rest)
    ensures EveryStopCompletes(op, obj, c, Saying(ns, [], text), Then(Flush(dirs), rest))
  {
    assert Advance(Saying(ns, [], text), Flush(dirs)) == Saying(ns, [], text);
    CallOff(op, obj, c, Saying(ns, [], text), Flush(dirs), rest);
  }

  // ---------- directory creations ----------

  function DirectoryCompletion(op: Operation, id: string): Completion {
    Completion({DIRECTORY_STAGED}, CompleteDirectoryPlan(op, id))
  }

  /** Before the marker names the directory no resume is taken up. */
  lemma UnnamedStops(op: Operation, obj: Object, c: Completion, d: Medium, s: Step, rest: Plan)
    requires op.WritesMarkers() && d.text == op.MarkerText(PREPARED, "") && PREPARED !in c.phases && !s.Write?
    requires EveryStopCompletes(op, obj, c, Advance(d, s), rest)
    ensures IsCompletable(op, obj, c, d) && EveryStopCompletes(op, obj, c, d, Then(s, rest))
  {
    ParseOfPrint(Marker(op.checksum, PREPARED, ""));
    CallStops(op, obj, c, d, s, rest);
  }

  lemma NamedStops(op: Operation, id: string, staged: Namespace)
    requires DirectoryKnown(op, id) && Holds(staged, op.Stage(), NewDirectory(id)) && Free(staged, op.Target())
    ensures EveryStopCompletes(op, NewDirectory(id), DirectoryCompletion(op, id), Saying(staged, [], op.MarkerText(DIRECTORY_STAGED, id)),
                               Then(Flush({op.Home()}), CompleteDirectoryPlan(op, id)))
  {
    var obj, c, s, home := NewDirectory(id), DirectoryCompletion(op, id), Rename(op.Stage(), op.Target()), Flush({op.Home()});
    var d := Saying(staged, [], op.MarkerText(DIRECTORY_STAGED, id));
    var pending := [Pending(s, {op.Stage().dir, op.Target().dir})];
    var next := Saying(staged, pending, op.MarkerText(DIRECTORY_STAGED, id));
    SayingOrdered(op, obj, staged, [], DIRECTORY_STAGED, id);
    SettledCompletes(op, obj, d, {DIRECTORY_STAGED}, id);
    assert Advance(d, s) == next && pending[1..] == [] && View(staged, pending) == Apply(staged, s);
    RewriteOnlyMarks(op, AFTER, id, Then(home, Done));
    MarksOff(op, obj, c, next, CompleteDirectoryPlan(op, id).rest);
    CallStops(op, obj, c, d, s, CompleteDirectoryPlan(op, id).rest);
    IdleFlushStops(op, obj, c, d, {op.Home()}, CompleteDirectoryPlan(op, id));
  }

  function NamingPlan(op: Operation, id: string): Plan {
    Rewrite(op, DIRECTORY_STAGED, id, Then(Flush({op.Home()}), CompleteDirectoryPlan(op, id)))
  }

  lemma NamingStops(op: Operation, id: string, staged: Namespace)
    requires DirectoryKnown(op, id) && Holds(staged, op.Stage(), NewDirectory(id)) && Free(staged, op.Target())
    ensures EveryStopCompletes(op, NewDirectory(id), DirectoryCompletion(op, id), Saying(staged, [], op.MarkerText(PREPARED, "")), NamingPlan(op, id))
  {
    var obj, d := NewDirectory(id), Saying(staged, [], op.MarkerText(PREPARED, ""));
    SayingOrdered(op, obj, staged, [], PREPARED, "");
    NamedStops(op, id, staged);
    RewriteOnStage(op, obj, DirectoryCompletion(op, id), d, PREPARED, DIRECTORY_STAGED, id, id, Then(Flush({op.Home()}), CompleteDirectoryPlan(op, id)));
  }

  /** The new directory on its stage, and the marker, pending until the home directory is flushed. */
  lemma StagingStops(op: Operation, id: string, ns: Namespace, markerId: string)
    requires DirectoryKnown(op, id) && id != op.Home() && Free(ns, op.MarkerName()) && Free(ns, op.Stage()) && Free(ns, op.Target())
    ensures
      var home := {op.Home()};
      var marker, directory := Create(op.MarkerName(), Object(markerId, File, "")), Create(op.Stage(), NewDirectory(id));
      EveryStopCompletes(op, NewDirectory(id), DirectoryCompletion(op, id),
                         Saying(ns, [Pending(marker, home), Pending(directory, home)], op.MarkerText(PREPARED, "")),
                         Then(Flush({id}), Then(Flush(home), NamingPlan(op, id))))
  {
    var obj, c, home, text := NewDirectory(id), DirectoryCompletion(op, id), {op.Home()}, op.MarkerText(PREPARED, "");
    var marker, directory := Create(op.MarkerName(), Object(markerId, File, "")), Create(op.Stage(), obj);
    var d := Saying(ns, [Pending(marker, home), Pending(directory, home)], text);
    var staged := Apply(Apply(ns, marker), directory);
    assert Enabled(ns, marker) && Enabled(Apply(ns, marker), directory);
    NamingStops(op, id, staged);
    SettleTwo(ns, marker, directory, home, home);
    SettleTwo(ns, marker, directory, home, {id});
    UnnamedFlushStops(op, obj, c, d, home, Saying(staged, [], text), NamingPlan(op, id));
    UnnamedFlushStops(op, obj, c, d, {id}, d, Then(Flush(home), NamingPlan(op, id)));
  }

  lemma UnnamedFlushStops(op: Operation, obj: Object, c: Completion, d: Medium, dirs: set<string>, next: Medium, rest: Plan)
    requires op.WritesMarkers() && d.text == op.MarkerText(PREPARED, "") && PREPARED !in c.phases
    requires Settle(d.stable, d.pending, dirs) == (next.stable, next.pending) && next.texts == d.texts && next.text == d.text
    requires EveryStopCompletes(op, obj, c, next, rest)
    ensures EveryStopCompletes(op, obj, c, d, Then(Flush(dirs), rest))
  {
    assert Advance(d, Flush(dirs)) == next;
    UnnamedStops(op, obj, c, d, Flush(dirs), rest);
  }

  /** The same for a directory creation, wherever it merely stops. */
  lemma CreateDirectoryStopsComplete(op: Operation, ns: Namespace, markerId: string, id: string)
    requires op.WellFormed() && CreateDirectoryReady(op, ns) && Free(ns, op.MarkerName()) && IsStableIdentifier(id) && id != op.Home()
    ensures EveryStopCompletes(op, NewDirectory(id), DirectoryCompletion(op, id), NoMarkerYet(ns), CreateDirectoryPlan(op, markerId, id))
  {
    WellFormedNamesApart(op);
    var obj, c, home := NewDirectory(id), DirectoryCompletion(op, id), {op.Home()};
    var marker, directory := Create(op.MarkerName(), Object(markerId, File, "")), Create(op.Stage(), obj);
    var one, body := [Pending(marker, home)], Then(Flush({id}), Then(Flush(home), NamingPlan(op, id)));
    var d := Saying(ns, one, op.MarkerText(PREPARED, ""));
    StagingStops(op, id, ns, markerId);
    assert Advance(d, directory) == Saying(ns, [Pending(marker, home), Pending(directory, home)], op.MarkerText(PREPARED, ""));
    UnnamedStops(op, obj, c, d, directory, body);
    OpeningStopsBefore(op, obj, c, ns, markerId, Then(directory, body));
  }

  lemma OpeningStopsBefore(op: Operation, obj: Object, c: Completion, ns: Namespace, markerId: string, rest: Plan)
    requires op.WritesMarkers() && NamesApart(op) && Free(ns, op.MarkerName()) && Lacks(ns, op.Stage(), obj.id)
    requires
      var create := Create(op.MarkerName(), Object(markerId, File, ""));
      EveryStopCompletes(op, obj, c, Saying(ns, [Pending(create, {op.Home()})], op.MarkerText(PREPARED, "")), rest)
    ensures EveryStopCompletes(op, obj, c, NoMarkerYet(ns), OpenMarker(op, markerId, rest))
  {
    var create := Create(op.MarkerName(), Object(markerId, File, ""));
    var pending := [Pending(create, {op.Home()})];
    var made := Medium(ns, pending, iset{}, "");
    assert pending[1..] == [] && View(ns, pending) == WithMarker(op, ns, markerId);
    RewriteOff(op, obj, c, made, PREPARED, "", rest);
    assert Advance(NoMarkerYet(ns), create) == made;
    CallOff(op, obj, c, NoMarkerYet(ns), create, Rewrite(op, PREPARED, "", rest));
  }
}
