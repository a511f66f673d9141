/** Power loss: a marker on the medium never claims more than the namespace on the medium shows. */
module WriteAhead {
  import opened Text
  import opened Volume
  import opened LifecycleMarker
  import opened Lifecycle
  import opened LifecycleCrash
  import opened DirectoryCrash
  import opened Resume

  /** A create, rename or removal that is not yet durable, with the directories it still waits for. */
  datatype Pending = Pending(step: Step, awaits: set<string>)

  /** What the medium may hold: the durable namespace, the changes that may or may not have reached it, and the
      texts the marker file may have there. The marker's bytes live in `texts`, not in the namespace. */
  datatype Medium = Medium(stable: Namespace, pending: seq<Pending>, texts: iset<string>, text: string)

  predicate IsPrefix(t: string, bytes: string) {
    t <= bytes
  }

  ghost function Prefixes(bytes: string): iset<string> {
    iset t | IsPrefix(t, bytes)
  }

  /** A directory flush makes a change durable once every directory it touches has been flushed; changes become
      durable in the order they were made. */
  function Settle(stable: Namespace, pending: seq<Pending>, dirs: set<string>): (Namespace, seq<Pending>)
    decreases |pending|
  {
    if pending == [] then (stable, [])
    else
      var p := pending[0];
      if p.awaits <= dirs then Settle(if Enabled(stable, p.step) then Apply(stable, p.step) else stable, pending[1..], dirs)
      else (stable, [Pending(p.step, p.awaits - dirs)] + pending[1..])
  }

  ghost function Advance(d: Medium, s: Step): Medium {
    match s
    case Create(name, _) => d.(pending := d.pending + [Pending(s, {name.dir})])
    case Rename(from, to) => d.(pending := d.pending + [Pending(s, {from.dir, to.dir})])
    case Remove(name) => d.(pending := d.pending + [Pending(s, {name.dir})])
    case Truncate(_) => d.(texts := d.texts + iset{""}, text := "")
    case Write(_, bytes) => d.(texts := d.texts + Prefixes(bytes), text := bytes)
    case Sync(_) => d.(texts := iset{d.text})
    case Flush(dirs) => var (stable, pending) := Settle(d.stable, d.pending, dirs); d.(stable := stable, pending := pending)
  }

  /** The namespaces a power loss may reveal: any selection of the pending changes may have reached the medium. */
  ghost predicate Image(stable: Namespace, pending: seq<Pending>, img: Namespace)
    decreases |pending|
  {
    if pending == [] then img == stable
    else
      || Image(stable, pending[1..], img)
      || (Enabled(stable, pending[0].step) && Image(Apply(stable, pending[0].step), pending[1..], img))
  }

  /** What a durable marker phase claims about the namespace. */
  predicate Backed(op: Operation, obj: Object, phase: string, img: Namespace) {
    && (phase == AFTER ==> Holds(img, op.Target(), obj))
    && (phase == CASE_INTERMEDIATE || phase == DIRECTORY_STAGED ==> Holds(img, op.Stage(), obj) || Holds(img, op.Target(), obj))
  }

  /** No combination of a possible marker text and a possible namespace is ahead of itself. */
  ghost predicate NeverAhead(op: Operation, obj: Object, d: Medium) {
    forall img, t | Image(d.stable, d.pending, img) && t in d.texts && Parse(t).Some? ::
      Backed(op, obj, Parse(t).value.phase, img)
  }

  /** That holds after every call of the plan. */
  ghost predicate Ordered(op: Operation, obj: Object, d: Medium, plan: Plan)
    decreases plan
  {
    NeverAhead(op, obj, d) && (plan.Then? ==> Ordered(op, obj, Advance(d, plan.step), plan.rest))
  }

  /** Every possible marker text is unreadable or carries one of `phases`. */
  ghost predicate Says(d: Medium, phases: set<string>) {
    forall t | t in d.texts && Parse(t).Some? :: Parse(t).value.phase in phases
  }

  ghost predicate ImagesBack(op: Operation, obj: Object, d: Medium, phases: set<string>) {
    forall img, phase | Image(d.stable, d.pending, img) && phase in phases :: Backed(op, obj, phase, img)
  }

  lemma SaysAndBacked(op: Operation, obj: Object, d: Medium, phases: set<string>)
    requires Says(d, phases) && ImagesBack(op, obj, d, phases)
    ensures NeverAhead(op, obj, d)
  {
  }

  /** Rewriting the marker to a phase that every possible namespace backs keeps the order. */
  lemma RewriteOrdered(op: Operation, obj: Object, d: Medium, phases: set<string>, phase: string, identity: string, rest: Plan)
    requires op.WritesMarkers() && IsPhase(phase) && (identity == "" || IsStableIdentifier(identity))
    requires Says(d, phases) && ImagesBack(op, obj, d, phases + {phase})
    requires Ordered(op, obj, Medium(d.stable, d.pending, iset{op.MarkerText(phase, identity)}, op.MarkerText(phase, identity)), rest)
    ensures Ordered(op, obj, d, Rewrite(op, phase, identity, rest))
  {
    var m, bytes, both := op.MarkerName(), op.MarkerText(phase, identity), phases + {phase};
    var d1 := Advance(d, Truncate(m));
    var d2 := Advance(d1, Write(m, bytes));
    var d3 := Advance(d2, Sync(m));
    BlankSaysNothing();
    forall t | t in Prefixes(bytes) && Parse(t).Some? ensures Parse(t).value.phase == phase {
      PrefixSays(Marker(op.checksum, phase, identity), t);
    }
    assert Says(d, both) && Says(d1, both) && Says(d2, both);
    SaysAndBacked(op, obj, d, both);
    SaysAndBacked(op, obj, d1, both);
    SaysAndBacked(op, obj, d2, both);
    assert d3 == Medium(d.stable, d.pending, iset{bytes}, bytes);
    assert Ordered(op, obj, d2, Then(Sync(m), rest));
    assert Ordered(op, obj, d1, Then(Write(m, bytes), Then(Sync(m), rest)));
  }

  lemma PrefixSays(m: Marker, t: string)
    requires Valid(m) && t <= Print(m) && Parse(t).Some?
    ensures Parse(t) == Some(m)
  {
    assert t == Print(m)[..|t|];
    if |t| < |Print(m)| {
      NoProperPrefixParses(m, |t|);
    } else {
      assert t == Print(m);
      ParseOfPrint(m);
    }
  }

  lemma {:induction false} SettleNarrows(stable: Namespace, pending: seq<Pending>, dirs: set<string>, img: Namespace)
    requires var (s, p) := Settle(stable, pending, dirs); Image(s, p, img)
    ensures Image(stable, pending, img)
    decreases |pending|
  {
    if pending != [] {
      var p := pending[0];
      if p.awaits <= dirs {
        SettleNarrows(if Enabled(stable, p.step) then Apply(stable, p.step) else stable, pending[1..], dirs, img);
      } else {
        var later := [Pending(p.step, p.awaits - dirs)] + pending[1..];
        assert later[1..] == pending[1..];
      }
    }
  }

  lemma FlushOrdered(op: Operation, obj: Object, d: Medium, dirs: set<string>, rest: Plan)
    requires NeverAhead(op, obj, d) && Ordered(op, obj, Advance(d, Flush(dirs)), rest)
    ensures Ordered(op, obj, d, Then(Flush(dirs), rest))
  {
  }

  lemma FlushKeepsOrder(op: Operation, obj: Object, d: Medium, dirs: set<string>)
    requires NeverAhead(op, obj, d)
    ensures NeverAhead(op, obj, Advance(d, Flush(dirs)))
  {
    var d' := Advance(d, Flush(dirs));
    forall img, t | Image(d'.stable, d'.pending, img) && t in d'.texts && Parse(t).Some?
      ensures Backed(op, obj, Parse(t).value.phase, img)
    {
      SettleNarrows(d.stable, d.pending, dirs, img);
    }
  }

  lemma SettleOne(stable: Namespace, s: Step, awaits: set<string>, dirs: set<string>)
    requires Enabled(stable, s)
    ensures Settle(stable, [Pending(s, awaits)], dirs)
         == if awaits <= dirs then (Apply(stable, s), []) else (stable, [Pending(s, awaits - dirs)])
  {
    assert [Pending(s, awaits)][1..] == [];
    assert Settle(Apply(stable, s), [], dirs) == (Apply(stable, s), []);
    assert [Pending(s, awaits - dirs)] + [] == [Pending(s, awaits - dirs)];
  }

  lemma SettleTwo(stable: Namespace, a: Step, b: Step, awaits: set<string>, dirs: set<string>)
    requires Enabled(stable, a) && Enabled(Apply(stable, a), b)
    ensures awaits <= dirs ==> Settle(stable, [Pending(a, awaits), Pending(b, awaits)], dirs) == (Apply(Apply(stable, a), b), [])
    ensures !(awaits <= dirs) && awaits !! dirs ==>
              Settle(stable, [Pending(a, awaits), Pending(b, awaits)], dirs) == (stable, [Pending(a, awaits), Pending(b, awaits)])
  {
    var pending := [Pending(a, awaits), Pending(b, awaits)];
    assert pending[1..] == [Pending(b, awaits)];
    SettleOne(Apply(stable, a), b, awaits, dirs);
    if awaits !! dirs {
      assert awaits - dirs == awaits;
      assert [Pending(a, awaits)] + pending[1..] == pending;
    }
  }

  /** The one pending change is durable after both directories of the operation are flushed. */
  lemma FlushBothOrdered(op: Operation, obj: Object, d: Medium, s: Step, awaits: set<string>, rest: Plan)
    requires NeverAhead(op, obj, d) && d.pending == [Pending(s, awaits)] && Enabled(d.stable, s)
    requires awaits <= {op.Source().dir, op.Target().dir}
    requires Ordered(op, obj, d.(stable := Apply(d.stable, s), pending := []), rest)
    ensures Ordered(op, obj, d, FlushBoth(op, rest))
  {
    var sd, td := {op.Source().dir}, {op.Target().dir};
    var d1 := Advance(d, Flush(sd));
    var d2 := Advance(d1, Flush(td));
    SettleOne(d.stable, s, awaits, sd);
    SettleOne(d.stable, s, awaits - sd, td);
    assert d2 == d.(stable := Apply(d.stable, s), pending := []);
    FlushKeepsOrder(op, obj, d, sd);
    FlushOrdered(op, obj, d1, td, rest);
    FlushOrdered(op, obj, d, sd, Then(Flush(td), rest));
  }

  lemma OneFlushOrdered(op: Operation, obj: Object, d: Medium, dirs: set<string>, stable: Namespace, pending: seq<Pending>, rest: Plan)
    requires NeverAhead(op, obj, d) && Settle(d.stable, d.pending, dirs) == (stable, pending)
    requires Ordered(op, obj, d.(stable := stable, pending := pending), rest)
    ensures Ordered(op, obj, d, Then(Flush(dirs), rest))
  {
    FlushOrdered(op, obj, d, dirs, rest);
  }

  lemma IdleFlushOrdered(op: Operation, obj: Object, d: Medium, dirs: set<string>, rest: Plan)
    requires NeverAhead(op, obj, d) && d.pending == [] && Ordered(op, obj, d, rest)
    ensures Ordered(op, obj, d, Then(Flush(dirs), rest))
  {
    assert Advance(d, Flush(dirs)) == d;
  }

  function Saying(stable: Namespace, pending: seq<Pending>, text: string): Medium {
    Medium(stable, pending, iset{text}, text)
  }

  lemma SayingOrdered(op: Operation, obj: Object, stable: Namespace, pending: seq<Pending>, phase: string, identity: string)
    requires op.WritesMarkers() && IsPhase(phase) && (identity == "" || IsStableIdentifier(identity))
    requires forall img | Image(stable, pending, img) :: Backed(op, obj, phase, img)
    ensures
      var d := Saying(stable, pending, op.MarkerText(phase, identity));
      Says(d, {phase}) && ImagesBack(op, obj, d, {phase}) && NeverAhead(op, obj, d)
  {
    ParseOfPrint(Marker(op.checksum, phase, identity));
  }

  /** From a durable namespace that shows the object at the target, the marker may claim so. */
  lemma FinishOrdered(op: Operation, obj: Object, ns: Namespace, phase: string, identity: string, dirs: set<string>, more: Plan)
    requires op.WritesMarkers() && IsPhase(phase) && (identity == "" || IsStableIdentifier(identity))
    requires Holds(ns, op.Target(), obj)
    requires more == Done || more == Then(Flush({op.Target().dir}), Done)
    ensures Ordered(op, obj, Saying(ns, [], op.MarkerText(phase, identity)), Rewrite(op, AFTER, identity, Then(Flush(dirs), more)))
  {
    var before, end := Saying(ns, [], op.MarkerText(phase, identity)), Saying(ns, [], op.MarkerText(AFTER, identity));
    SayingOrdered(op, obj, ns, [], phase, identity);
    SayingOrdered(op, obj, ns, [], AFTER, identity);
    assert Ordered(op, obj, end, Done);
    IdleFlushOrdered(op, obj, end, {op.Target().dir}, Done);
    IdleFlushOrdered(op, obj, end, dirs, more);
    RewriteOrdered(op, obj, before, {phase}, AFTER, identity, Then(Flush(dirs), more));
  }

  // ---------- the operations ----------

  /** The namespace once the marker file exists; its bytes are kept apart. */
  function WithMarker(op: Operation, ns: Namespace, markerId: string): Namespace {
    ns[op.MarkerName().At() := Entry(op.MarkerName().leaf, Object(markerId, File, ""))]
  }

  function NoMarkerYet(ns: Namespace): Medium {
    Medium(ns, [], iset{}, "")
  }

  lemma OpenMarkerOrdered(op: Operation, obj: Object, ns: Namespace, markerId: string, rest: Plan)
    requires op.WritesMarkers() && Free(ns, op.MarkerName())
    requires
      var create := Create(op.MarkerName(), Object(markerId, File, ""));
      Ordered(op, obj, Saying(ns, [Pending(create, {op.Home()})], op.MarkerText(PREPARED, "")), rest)
    ensures Ordered(op, obj, NoMarkerYet(ns), OpenMarker(op, markerId, rest))
  {
    var create := Create(op.MarkerName(), Object(markerId, File, ""));
    var d := Medium(ns, [Pending(create, {op.Home()})], iset{}, "");
    RewriteOrdered(op, obj, d, {}, PREPARED, "", rest);
    assert Advance(NoMarkerYet(ns), create) == d;
  }

  /** The first flush after the marker is created makes the marker durable. */
  lemma MarkerFlushOrdered(op: Operation, obj: Object, ns: Namespace, markerId: string, more: set<string>, rest: Plan)
    requires op.WritesMarkers() && Free(ns, op.MarkerName()) && op.Home() in more
    requires Ordered(op, obj, Saying(WithMarker(op, ns, markerId), [], op.MarkerText(PREPARED, "")), rest)
    ensures
      var create := Create(op.MarkerName(), Object(markerId, File, ""));
      Ordered(op, obj, Saying(ns, [Pending(create, {op.Home()})], op.MarkerText(PREPARED, "")), Then(Flush(more), rest))
  {
    var create := Create(op.MarkerName(), Object(markerId, File, ""));
    SayingOrdered(op, obj, ns, [Pending(create, {op.Home()})], PREPARED, "");
    OneSettlesOrdered(op, obj, ns, create, {op.Home()}, more, op.MarkerText(PREPARED, ""), rest);
  }

  lemma OneSettlesOrdered(op: Operation, obj: Object, ns: Namespace, s: Step, awaits: set<string>, dirs: set<string>, text: string, rest: Plan)
    requires Enabled(ns, s) && awaits <= dirs && NeverAhead(op, obj, Saying(ns, [Pending(s, awaits)], text))
    requires Ordered(op, obj, Saying(Apply(ns, s), [], text), rest)
    ensures Ordered(op, obj, Saying(ns, [Pending(s, awaits)], text), Then(Flush(dirs), rest))
  {
    SettleOne(ns, s, awaits, dirs);
    OneFlushOrdered(op, obj, Saying(ns, [Pending(s, awaits)], text), dirs, Apply(ns, s), [], rest);
  }

  /** A rename under a phase that both of its ends back, made durable by the flushes that follow. */
  lemma RenameOrdered(op: Operation, obj: Object, ns: Namespace, from: Name, to: Name, phase: string, identity: string, rest: Plan)
    requires op.WritesMarkers() && IsPhase(phase) && (identity == "" || IsStableIdentifier(identity))
    requires Enabled(ns, Rename(from, to)) && {from.dir, to.dir} <= {op.Source().dir, op.Target().dir}
    requires Backed(op, obj, phase, ns) && Backed(op, obj, phase, Apply(ns, Rename(from, to)))
    requires Ordered(op, obj, Saying(Apply(ns, Rename(from, to)), [], op.MarkerText(phase, identity)), rest)
    ensures Ordered(op, obj, Saying(ns, [], op.MarkerText(phase, identity)), Then(Rename(from, to), FlushBoth(op, rest)))
  {
    var s, text := Rename(from, to), op.MarkerText(phase, identity);
    var pending := [Pending(s, {from.dir, to.dir})];
    assert pending[1..] == [];
    SayingOrdered(op, obj, ns, [], phase, identity);
    SayingOrdered(op, obj, ns, pending, phase, identity);
    FlushBothOrdered(op, obj, Saying(ns, pending, text), s, {from.dir, to.dir}, rest);
    assert Advance(Saying(ns, [], text), s) == Saying(ns, pending, text);
  }

  /** A move never lets the durable marker run ahead of the durable namespace. */
  lemma MoveIsOrdered(op: Operation, ns: Namespace, markerId: string)
    requires op.WellFormed() && MoveReady(op, ns) && Free(ns, op.MarkerName()) && (UsesStage(op) ==> Free(ns, op.Stage()))
    ensures Ordered(op, SourceObject(op, ns), NoMarkerYet(ns), MovePlan(op, markerId))
  {
    WellFormedNamesApart(op);
    var obj, marked := SourceObject(op, ns), WithMarker(op, ns, markerId);
    var body := if op.IsCaseOnly() then CaseMovePlan(op) else PlainMovePlan(op);
    if op.IsCaseOnly() {
      CaseMoveOrdered(op, obj, marked);
    } else {
      PlainMoveOrdered(op, obj, marked, FinishMovePlan(op));
    }
    SayingOrdered(op, obj, marked, [], PREPARED, "");
    IdleFlushOrdered(op, obj, Saying(marked, [], op.MarkerText(PREPARED, "")), {op.Target().dir}, body);
    MarkerFlushOrdered(op, obj, ns, markerId, {op.Source().dir}, Then(Flush({op.Target().dir}), body));
    OpenMarkerOrdered(op, obj, ns, markerId, FlushBoth(op, body));
  }

  lemma PlainMoveOrdered(op: Operation, obj: Object, ns: Namespace, finish: Plan)
    requires op.WritesMarkers() && Holds(ns, op.Source(), obj) && Enabled(ns, Rename(op.Source(), op.Target()))
    requires finish == FinishMovePlan(op)
          || finish == Rewrite(op, AFTER, op.request.sourceFileIdentity, Then(Flush({op.Source().dir}), Done))
    ensures Ordered(op, obj, Saying(ns, [], op.MarkerText(PREPARED, "")),
                    Then(Rename(op.Source(), op.Target()), FlushBoth(op, finish)))
  {
    var moved := Moved(ns, op.Source(), op.Target());
    var more := if finish == FinishMovePlan(op) then Then(Flush({op.Target().dir}), Done) else Done;
    FinishAfterPreparedOrdered(op, obj, moved, more);
    RenameOrdered(op, obj, ns, op.Source(), op.Target(), PREPARED, "", finish);
  }

  lemma FinishAfterPreparedOrdered(op: Operation, obj: Object, ns: Namespace, more: Plan)
    requires op.WritesMarkers() && Holds(ns, op.Target(), obj)
    requires more == Done || more == Then(Flush({op.Target().dir}), Done)
    ensures Ordered(op, obj, Saying(ns, [], op.MarkerText(PREPARED, "")),
                    Rewrite(op, AFTER, op.request.sourceFileIdentity, Then(Flush({op.Source().dir}), more)))
  {
    var id, flush := op.request.sourceFileIdentity, Flush({op.Source().dir});
    var end := Saying(ns, [], op.MarkerText(AFTER, id));
    SayingOrdered(op, obj, ns, [], PREPARED, "");
    SayingOrdered(op, obj, ns, [], AFTER, id);
    assert Ordered(op, obj, end, Done);
    IdleFlushOrdered(op, obj, end, {op.Target().dir}, Done);
    IdleFlushOrdered(op, obj, end, {op.Source().dir}, more);
    RewriteOrdered(op, obj, Saying(ns, [], op.MarkerText(PREPARED, "")), {PREPARED}, AFTER, id, Then(flush, more));
  }

  lemma CaseMoveOrdered(op: Operation, obj: Object, ns: Namespace)
    requires op.WritesMarkers() && NamesApart(op) && op.request.operationKind == MOVE && op.Source().At() == op.Target().At()
    requires Holds(ns, op.Source(), obj) && Free(ns, op.Stage())
    ensures Ordered(op, obj, Saying(ns, [], op.MarkerText(PREPARED, "")), CaseMovePlan(op))
  {
    var id := op.request.sourceFileIdentity;
    var staged := Moved(ns, op.Source(), op.Stage());
    var moved := Moved(staged, op.Stage(), op.Target());
    FinishOrdered(op, obj, moved, CASE_INTERMEDIATE, id, {op.Source().dir}, Then(Flush({op.Target().dir}), Done));
    RenameOrdered(op, obj, staged, op.Stage(), op.Target(), CASE_INTERMEDIATE, id, FinishMovePlan(op));
    var toTarget := Then(Rename(op.Stage(), op.Target()), FlushBoth(op, FinishMovePlan(op)));
    SayingOrdered(op, obj, staged, [], PREPARED, "");
    RewriteOrdered(op, obj, Saying(staged, [], op.MarkerText(PREPARED, "")), {PREPARED}, CASE_INTERMEDIATE, id, toTarget);
    RenameOrdered(op, obj, ns, op.Source(), op.Stage(), PREPARED, "", Rewrite(op, CASE_INTERMEDIATE, id, toTarget));
  }

  /** Nor does a quarantine. */
  lemma QuarantineIsOrdered(op: Operation, ns: Namespace, markerId: string)
    requires op.WellFormed() && QuarantineReady(op, ns) && Free(ns, op.MarkerName())
    ensures Ordered(op, SourceObject(op, ns), NoMarkerYet(ns), QuarantinePlan(op, markerId))
  {
    WellFormedNamesApart(op);
    var obj, marked := SourceObject(op, ns), WithMarker(op, ns, markerId);
    var finish := Rewrite(op, AFTER, op.request.sourceFileIdentity, Then(Flush({op.Source().dir}), Done));
    var rename := Then(Rename(op.Source(), op.Target()), FlushBoth(op, finish));
    PlainMoveOrdered(op, obj, marked, finish);
    MarkerFlushOrdered(op, obj, ns, markerId, {op.Source().dir}, rename);
    OpenMarkerOrdered(op, obj, ns, markerId, Then(Flush({op.Source().dir}), rename));
  }

  // ---------- directory creation and the two completions ----------

  /** A rename inside one directory, made durable by the flush that follows. */
  lemma RenameInsideOrdered(op: Operation, obj: Object, ns: Namespace, from: Name, to: Name, phase: string, identity: string, rest: Plan)
    requires op.WritesMarkers() && IsPhase(phase) && (identity == "" || IsStableIdentifier(identity))
    requires Enabled(ns, Rename(from, to)) && from.dir == to.dir
    requires Backed(op, obj, phase, ns) && Backed(op, obj, phase, Apply(ns, Rename(from, to)))
    requires Ordered(op, obj, Saying(Apply(ns, Rename(from, to)), [], op.MarkerText(phase, identity)), rest)
    ensures Ordered(op, obj, Saying(ns, [], op.MarkerText(phase, identity)), Then(Rename(from, to), Then(Flush({to.dir}), rest)))
  {
    var s, text := Rename(from, to), op.MarkerText(phase, identity);
    var pending := [Pending(s, {from.dir, to.dir})];
    assert pending[1..] == [];
    SayingOrdered(op, obj, ns, [], phase, identity);
    SayingOrdered(op, obj, ns, pending, phase, identity);
    SettleOne(ns, s, {from.dir, to.dir}, {to.dir});
    OneFlushOrdered(op, obj, Saying(ns, pending, text), {to.dir}, Apply(ns, s), [], rest);
    assert Advance(Saying(ns, [], text), s) == Saying(ns, pending, text);
  }

  /** `completeDirectoryIntermediate` keeps the order, from the durable state an interrupted creation left. */
  lemma CompleteDirectoryIsOrdered(op: Operation, ns: Namespace, id: string)
    requires op.WritesMarkers() && IsStableIdentifier(id) && op.request.operationKind == CREATE_DIRECTORY
    requires Holds(ns, op.Stage(), NewDirectory(id)) && Free(ns, op.Target()) && NamesApart(op)
    ensures Ordered(op, NewDirectory(id), Saying(ns, [], op.MarkerText(DIRECTORY_STAGED, id)), CompleteDirectoryPlan(op, id))
  {
    var finish := Rewrite(op, AFTER, id, Then(Flush({op.Home()}), Done));
    FinishOrdered(op, NewDirectory(id), Moved(ns, op.Stage(), op.Target()), DIRECTORY_STAGED, id, {op.Home()}, Done);
    RenameInsideOrdered(op, NewDirectory(id), ns, op.Stage(), op.Target(), DIRECTORY_STAGED, id, finish);
  }

  /** `completeCaseIntermediate` keeps the order too, whichever phase the interrupted move had reached. */
  lemma CompleteCaseIsOrdered(op: Operation, obj: Object, ns: Namespace, phase: string, identity: string)
    requires op.WritesMarkers() && NamesApart(op) && Holds(ns, op.Stage(), obj) && Free(ns, op.Target())
    requires phase == PREPARED || phase == CASE_INTERMEDIATE
    requires identity == "" || IsStableIdentifier(identity)
    ensures Ordered(op, obj, Saying(ns, [], op.MarkerText(phase, identity)), CompleteCasePlan(op))
  {
    var id, flush := op.request.sourceFileIdentity, Flush({op.Target().dir});
    var moved := Moved(ns, op.Stage(), op.Target());
    var end := Saying(moved, [], op.MarkerText(AFTER, id));
    SayingOrdered(op, obj, moved, [], AFTER, id);
    assert Ordered(op, obj, end, Done);
    IdleFlushOrdered(op, obj, end, {op.Target().dir}, Done);
    SayingOrdered(op, obj, moved, [], phase, identity);
    RewriteOrdered(op, obj, Saying(moved, [], op.MarkerText(phase, identity)), {phase}, AFTER, id, Then(flush, Done));
    RenameInsideOrdered(op, obj, ns, op.Stage(), op.Target(), phase, identity, Rewrite(op, AFTER, id, Then(flush, Done)));
  }

  /** Nor does a directory creation. */
  lemma CreateDirectoryIsOrdered(op: Operation, ns: Namespace, markerId: string, id: string)
    requires op.WellFormed() && CreateDirectoryReady(op, ns) && Free(ns, op.MarkerName())
    requires IsStableIdentifier(id) && id != op.Home()
    ensures Ordered(op, NewDirectory(id), NoMarkerYet(ns), CreateDirectoryPlan(op, markerId, id))
  {
    WellFormedNamesApart(op);
    var obj, home, staged := NewDirectory(id), {op.Home()}, op.MarkerText(DIRECTORY_STAGED, id);
    var ready := Apply(WithMarker(op, ns, markerId), Create(op.Stage(), obj));
    var finish := CompleteDirectoryPlan(op, id);
    CompleteDirectoryIsOrdered(op, ready, id);
    SayingOrdered(op, obj, ready, [], DIRECTORY_STAGED, id);
    IdleFlushOrdered(op, obj, Saying(ready, [], staged), home, finish);
    SayingOrdered(op, obj, ready, [], PREPARED, "");
    RewriteOrdered(op, obj, Saying(ready, [], op.MarkerText(PREPARED, "")), {PREPARED}, DIRECTORY_STAGED, id, Then(Flush(home), finish));
    StagingOrdered(op, ns, markerId, id, Rewrite(op, DIRECTORY_STAGED, id, Then(Flush(home), finish)));
  }

  lemma StagingOrdered(op: Operation, ns: Namespace, markerId: string, id: string, rest: Plan)
    requires op.WritesMarkers() && NamesApart(op) && CreateDirectoryReady(op, ns) && Free(ns, op.MarkerName())
    requires IsStableIdentifier(id) && id != op.Home()
    requires
      var ready := Apply(WithMarker(op, ns, markerId), Create(op.Stage(), NewDirectory(id)));
      Ordered(op, NewDirectory(id), Saying(ready, [], op.MarkerText(PREPARED, "")), rest)
    ensures Ordered(op, NewDirectory(id), NoMarkerYet(ns),
                    OpenMarker(op, markerId, Then(Create(op.Stage(), NewDirectory(id)), Then(Flush({id}), Then(Flush({op.Home()}), rest)))))
  {
    var obj, home, text := NewDirectory(id), {op.Home()}, op.MarkerText(PREPARED, "");
    var marker, directory := Create(op.MarkerName(), Object(markerId, File, "")), Create(op.Stage(), obj);
    var flushes := Then(Flush({id}), Then(Flush(home), rest));
    var one, two := [Pending(marker, home)], [Pending(marker, home), Pending(directory, home)];
    TwoFlushesOrdered(op, obj, ns, marker, directory, id, rest);
    SayingOrdered(op, obj, ns, one, PREPARED, "");
    assert one + [Pending(directory, home)] == two;
    assert Advance(Saying(ns, one, text), directory) == Saying(ns, two, text);
    OpenMarkerOrdered(op, obj, ns, markerId, Then(directory, flushes));
  }

  lemma TwoFlushesOrdered(op: Operation, obj: Object, ns: Namespace, a: Step, b: Step, id: string, rest: Plan)
    requires op.WritesMarkers() && id != op.Home() && Enabled(ns, a) && Enabled(Apply(ns, a), b)
    requires Ordered(op, obj, Saying(Apply(Apply(ns, a), b), [], op.MarkerText(PREPARED, "")), rest)
    ensures
      var home := {op.Home()};
      Ordered(op, obj, Saying(ns, [Pending(a, home), Pending(b, home)], op.MarkerText(PREPARED, "")),
              Then(Flush({id}), Then(Flush(home), rest)))
  {
    var home := {op.Home()};
    var d := Saying(ns, [Pending(a, home), Pending(b, home)], op.MarkerText(PREPARED, ""));
    SettleTwo(ns, a, b, home, home);
    SettleTwo(ns, a, b, home, {id});
    SayingOrdered(op, obj, ns, d.pending, PREPARED, "");
    OneFlushOrdered(op, obj, d, home, Apply(Apply(ns, a), b), [], rest);
    OneFlushOrdered(op, obj, d, {id}, ns, d.pending, Then(Flush(home), rest));
  }
}
