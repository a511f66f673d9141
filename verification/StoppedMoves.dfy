/** Moves that stop right before or right after their first rename, with one late arrival. */
module StoppedMoves {
  import opened Text
  import opened Volume
  import opened LifecycleMarker
  import opened Lifecycle
  import opened LifecycleCrash
  import opened Resume
  import opened Compensate
  import opened CompensationCrash

  function Nobody(n: nat): (env: seq<Namespace>)
    ensures |env| == n && forall i | 0 <= i < n :: env[i] == map[]
  {
    seq(n, i => map[])
  }

  /** Time for `n` calls on a volume at rest; then others add `late`, and the process stops. */
  function CallsThen(n: nat, late: Namespace): World {
    World(n, 0, Nobody(n) + [late])
  }

  lemma LaterOne(n: nat, late: Namespace)
    ensures NextAdditions(CallsThen(n + 1, late)) == map[] && Later(CallsThen(n + 1, late)) == CallsThen(n, late)
  {
    assert (Nobody(n + 1) + [late])[1..] == Nobody(n) + [late];
  }

  lemma OneMoreCall(ns: Namespace, s: Step, rest: Plan, n: nat, late: Namespace)
    requires Enabled(ns, s)
    ensures Run(ns, Then(s, rest), CallsThen(n + 1, late)) == Run(Apply(ns, s), rest, CallsThen(n, late))
  {
    LaterOne(n, late);
    assert Interfere(ns, map[]) == ns;
  }

  lemma NoMoreCalls(ns: Namespace, s: Step, rest: Plan, late: Namespace)
    requires s.Flush? || s.Rename?
    ensures Run(ns, Then(s, rest), CallsThen(0, late)).ns == Interfere(ns, late)
  {
  }

  lemma OpenMarkerCalls(op: Operation, ns: Namespace, markerId: string, rest: Plan, n: nat, late: Namespace)
    requires Free(ns, op.MarkerName())
    ensures Run(ns, OpenMarker(op, markerId, rest), CallsThen(n + 4, late)) == Run(Prepared(op, ns, markerId), rest, CallsThen(n, late))
  {
    var m, text := op.MarkerName(), op.MarkerText(PREPARED, "");
    var blank := ns[m.At() := MarkerEntry(op, markerId, "")];
    var written := Prepared(op, ns, markerId);
    assert PutBytes(blank, m, "") == blank && PutBytes(blank, m, text) == written;
    OneMoreCall(ns, Create(m, Object(markerId, File, "")), Rewrite(op, PREPARED, "", rest), n + 3, late);
    OneMoreCall(blank, Truncate(m), Then(Write(m, text), Then(Sync(m), rest)), n + 2, late);
    OneMoreCall(blank, Write(m, text), Then(Sync(m), rest), n + 1, late);
    OneMoreCall(written, Sync(m), rest, n, late);
  }

  lemma FlushCalls(op: Operation, ns: Namespace, rest: Plan, n: nat, late: Namespace)
    ensures Run(ns, FlushBoth(op, rest), CallsThen(n + 2, late)) == Run(ns, rest, CallsThen(n, late))
  {
    OneMoreCall(ns, Flush({op.Source().dir}), Then(Flush({op.Target().dir}), rest), n + 1, late);
    OneMoreCall(ns, Flush({op.Target().dir}), rest, n, late);
  }

  /** The namespace once the marker says "prepared". */
  function Prepared(op: Operation, ns: Namespace, markerId: string): Namespace {
    ns[op.MarkerName().At() := MarkerEntry(op, markerId, op.MarkerText(PREPARED, ""))]
  }

  lemma SixCalls(op: Operation, ns: Namespace, markerId: string, body: Plan, n: nat, late: Namespace)
    requires Free(ns, op.MarkerName())
    ensures Run(ns, OpenMarker(op, markerId, FlushBoth(op, body)), CallsThen(n + 6, late))
         == Run(Prepared(op, ns, markerId), body, CallsThen(n, late))
  {
    OpenMarkerCalls(op, ns, markerId, FlushBoth(op, body), n + 2, late);
    FlushCalls(op, Prepared(op, ns, markerId), body, n, late);
  }

  /** Where the first rename of a move takes the object. */
  function FirstStop(op: Operation): Name {
    if op.IsCaseOnly() then op.Stage() else op.Target()
  }

  function Body(op: Operation): Plan {
    if op.IsCaseOnly() then CaseMovePlan(op) else PlainMovePlan(op)
  }

  lemma RenameCalls(op: Operation, ns: Namespace, late: Namespace)
    requires op.Source().At() in ns && Free(ns, FirstStop(op))
    ensures Run(ns, Body(op), CallsThen(1, late)).ns == Interfere(Moved(ns, op.Source(), FirstStop(op)), late)
  {
    var rename, flush := Rename(op.Source(), FirstStop(op)), Body(op).rest;
    assert Body(op) == Then(rename, flush) && flush == Then(Flush({op.Source().dir}), flush.rest);
    OneMoreCall(ns, rename, flush, 0, late);
    NoMoreCalls(Apply(ns, rename), flush.step, flush.rest, late);
  }

  lemma RenameWaits(op: Operation, ns: Namespace, late: Namespace)
    ensures Run(ns, Body(op), CallsThen(0, late)).ns == Interfere(ns, late)
  {
    assert Body(op) == Then(Rename(op.Source(), FirstStop(op)), Body(op).rest);
    NoMoreCalls(ns, Rename(op.Source(), FirstStop(op)), Body(op).rest, late);
  }

  lemma MoveStops(op: Operation, ns: Namespace, markerId: string, n: nat, late: Namespace)
    requires Free(ns, op.MarkerName())
    ensures Run(ns, MovePlan(op, markerId), CallsThen(n + 6, late)) == Run(Prepared(op, ns, markerId), Body(op), CallsThen(n, late))
  {
    SixCalls(op, ns, markerId, Body(op), n, late);
  }

  /** After six calls the marker is there. */
  lemma AfterSixCalls(op: Operation, ns: Namespace, markerId: string, late: Namespace)
    requires Free(ns, op.MarkerName())
    ensures Run(ns, MovePlan(op, markerId), CallsThen(6, late)).ns == Interfere(Prepared(op, ns, markerId), late)
  {
    StopsBefore(op, ns, markerId, 0, late);
  }

  lemma StopsBefore(op: Operation, ns: Namespace, markerId: string, n: nat, late: Namespace)
    requires n == 0 && Free(ns, op.MarkerName())
    ensures Run(ns, MovePlan(op, markerId), CallsThen(n + 6, late)).ns == Interfere(Prepared(op, ns, markerId), late)
  {
    RenameWaits(op, Prepared(op, ns, markerId), late);
    StopsAt(op, ns, markerId, n, late, Interfere(Prepared(op, ns, markerId), late));
  }

  /** After the seventh the object has left its source. */
  lemma AfterSevenCalls(op: Operation, ns: Namespace, markerId: string, late: Namespace)
    requires NamesApart(op) && IsTransfer(op) && op.Source().At() in ns && Free(ns, op.MarkerName()) && Free(ns, FirstStop(op))
    ensures op.Source().At() in Prepared(op, ns, markerId)
    ensures Run(ns, MovePlan(op, markerId), CallsThen(7, late)).ns
         == Interfere(Moved(Prepared(op, ns, markerId), op.Source(), FirstStop(op)), late)
  {
    PreparedKeeps(op, ns, markerId);
    RenameCalls(op, Prepared(op, ns, markerId), late);
    StopsAt(op, ns, markerId, 1, late, Interfere(Moved(Prepared(op, ns, markerId), op.Source(), FirstStop(op)), late));
  }

  lemma PreparedKeeps(op: Operation, ns: Namespace, markerId: string)
    requires NamesApart(op) && IsTransfer(op) && op.Source().At() in ns && Free(ns, FirstStop(op))
    ensures op.Source().At() in Prepared(op, ns, markerId) && Free(Prepared(op, ns, markerId), FirstStop(op))
  {
  }

  /** One run leads to another, and that to its end. */
  lemma Leads(ns: Namespace, plan: Plan, w: World, next: Namespace, rest: Plan, v: World, end: Namespace)
    requires Run(ns, plan, w).ns == Run(next, rest, v).ns && Run(next, rest, v).ns == end
    ensures Run(ns, plan, w).ns == end
  {
  }

  lemma StopsAt(op: Operation, ns: Namespace, markerId: string, n: nat, late: Namespace, end: Namespace)
    requires Free(ns, op.MarkerName()) && Run(Prepared(op, ns, markerId), Body(op), CallsThen(n, late)).ns == end
    ensures Run(ns, MovePlan(op, markerId), CallsThen(n + 6, late)).ns == end
  {
    BodyStops(op, ns, markerId, n, Body(op), late);
    Leads(ns, MovePlan(op, markerId), CallsThen(n + 6, late), Prepared(op, ns, markerId), Body(op), CallsThen(n, late), end);
  }

  lemma BodyStops(op: Operation, ns: Namespace, markerId: string, n: nat, body: Plan, late: Namespace)
    requires Free(ns, op.MarkerName()) && body == Body(op)
    ensures Run(ns, MovePlan(op, markerId), CallsThen(n + 6, late)).ns == Run(Prepared(op, ns, markerId), body, CallsThen(n, late)).ns
  {
    MoveStops(op, ns, markerId, n, late);
  }

  // ---------- somebody else's entry at one of the names ----------

  /** What the classifier makes of an entry in the way: a directory it does not look behind, a file only as spelled. */
  function InTheWay(e: Entry, name: Name, otherwise: Verdict): Verdict {
    if e.obj.kind.Directory? then Unknown else if e.leaf == name.leaf then Neither else otherwise
  }

  lemma PreparedIsReadable(op: Operation)
    requires op.WritesMarkers()
    ensures Parse(op.MarkerText(PREPARED, "")) == Some(Marker(op.checksum, PREPARED, ""))
  {
    ParseOfPrint(Marker(op.checksum, PREPARED, ""));
  }

  lemma AtTargetVerdict(op: Operation, obj: Object, markerId: string, e: Entry, ns: Namespace)
    requires op.WritesMarkers() && Known(op, obj) && !UsesStage(op) && Holds(ns, op.Target(), obj)
    requires op.MarkerName().At() in ns && ns[op.MarkerName().At()] == MarkerEntry(op, markerId, op.MarkerText(PREPARED, ""))
    requires op.Source().At() in ns && ns[op.Source().At()] == e && e.obj != obj
    ensures ReadMarker(op, ns).Readable? && Classify(op, ns) == InTheWay(e, op.Source(), After)
  {
    PreparedIsReadable(op);
    LocatedIsExact(op, obj, markerId, ns);
  }

  lemma AtSourceVerdict(op: Operation, obj: Object, markerId: string, e: Entry, ns: Namespace)
    requires op.WritesMarkers() && Known(op, obj) && !UsesStage(op) && Holds(ns, op.Source(), obj)
    requires op.MarkerName().At() in ns && ns[op.MarkerName().At()] == MarkerEntry(op, markerId, op.MarkerText(PREPARED, ""))
    requires op.Target().At() in ns && ns[op.Target().At()] == e && e.obj != obj
    ensures ReadMarker(op, ns).Readable? && Classify(op, ns) == InTheWay(e, op.Target(), Before)
  {
    PreparedIsReadable(op);
    LocatedIsExact(op, obj, markerId, ns);
  }

  /** Whoever puts an entry at the source name a plain move has just left decides the verdict on the completed rename. */
  lemma SourceTaken(op: Operation, ns: Namespace, markerId: string, e: Entry)
    requires op.WellFormed() && MoveReady(op, ns) && !op.IsCaseOnly() && Free(ns, op.MarkerName())
    requires e.obj != SourceObject(op, ns)
    ensures
      var out := Run(ns, MovePlan(op, markerId), CallsThen(7, map[op.Source().At() := e])).ns;
      && Holds(out, op.Target(), SourceObject(op, ns)) && ReadMarker(op, out).Readable?
      && Classify(op, out) == InTheWay(e, op.Source(), After)
  {
    TransferIsKnown(op, ns);
    var obj, late := SourceObject(op, ns), map[op.Source().At() := e];
    AfterSevenCalls(op, ns, markerId, late);
    var out := Interfere(Moved(Prepared(op, ns, markerId), op.Source(), op.Target()), late);
    AtTargetVerdict(op, obj, markerId, e, out);
  }

  /** And whoever takes the target before the rename decides the verdict on a move that can no longer go on. */
  lemma TargetTaken(op: Operation, ns: Namespace, markerId: string, e: Entry)
    requires op.WellFormed() && MoveReady(op, ns) && !op.IsCaseOnly() && Free(ns, op.MarkerName())
    requires e.obj != SourceObject(op, ns)
    ensures
      var out := Run(ns, MovePlan(op, markerId), CallsThen(6, map[op.Target().At() := e])).ns;
      && Holds(out, op.Source(), SourceObject(op, ns)) && ReadMarker(op, out).Readable?
      && Classify(op, out) == InTheWay(e, op.Target(), Before)
  {
    TransferIsKnown(op, ns);
    var obj, late := SourceObject(op, ns), map[op.Target().At() := e];
    AfterSixCalls(op, ns, markerId, late);
    AtSourceVerdict(op, obj, markerId, e, Interfere(Prepared(op, ns, markerId), late));
  }

  /** A stranger's file, spelled as the source, right after the rename: the verdict is "neither", and resume, compensate
      and finalize all refuse, in any world. The same for its file at the target right before the rename. */
  lemma StrangersFileBlocksRecovery(op: Operation, ns: Namespace, markerId: string, stranger: Object, w: World, expectAfter: bool)
    requires op.WellFormed() && MoveReady(op, ns) && !op.IsCaseOnly() && Free(ns, op.MarkerName())
    requires stranger.kind.File? && stranger.id != op.request.sourceFileIdentity
    ensures
      var out := Run(ns, MovePlan(op, markerId), CallsThen(7, map[op.Source().At() := Entry(op.Source().leaf, stranger)])).ns;
      Classify(op, out) == Neither && Holds(out, op.Target(), SourceObject(op, ns)) && IsRefused(op, out, w, expectAfter)
    ensures
      var out := Run(ns, MovePlan(op, markerId), CallsThen(6, map[op.Target().At() := Entry(op.Target().leaf, stranger)])).ns;
      Classify(op, out) == Neither && Holds(out, op.Source(), SourceObject(op, ns)) && IsRefused(op, out, w, expectAfter)
  {
    AtSourceRefused(op, ns, markerId, stranger, w, expectAfter);
    AtTargetRefused(op, ns, markerId, stranger, w, expectAfter);
  }

  predicate IsRefused(op: Operation, ns: Namespace, w: World, expectAfter: bool) {
    Resumed(op, ns, w) == Compensated(op, ns, w) == Finalized(op, ns, w, expectAfter) == Outcome(ns, w, false)
  }

  lemma AtSourceRefused(op: Operation, ns: Namespace, markerId: string, stranger: Object, w: World, expectAfter: bool)
    requires op.WellFormed() && MoveReady(op, ns) && !op.IsCaseOnly() && Free(ns, op.MarkerName())
    requires stranger.kind.File? && stranger.id != op.request.sourceFileIdentity
    ensures
      var out := Run(ns, MovePlan(op, markerId), CallsThen(7, map[op.Source().At() := Entry(op.Source().leaf, stranger)])).ns;
      Classify(op, out) == Neither && Holds(out, op.Target(), SourceObject(op, ns)) && IsRefused(op, out, w, expectAfter)
  {
    var e := Entry(op.Source().leaf, stranger);
    SourceTaken(op, ns, markerId, e);
    NoVerdictNoRecovery(op, Run(ns, MovePlan(op, markerId), CallsThen(7, map[op.Source().At() := e])).ns, w, expectAfter);
  }

  lemma AtTargetRefused(op: Operation, ns: Namespace, markerId: string, stranger: Object, w: World, expectAfter: bool)
    requires op.WellFormed() && MoveReady(op, ns) && !op.IsCaseOnly() && Free(ns, op.MarkerName())
    requires stranger.kind.File? && stranger.id != op.request.sourceFileIdentity
    ensures
      var out := Run(ns, MovePlan(op, markerId), CallsThen(6, map[op.Target().At() := Entry(op.Target().leaf, stranger)])).ns;
      Classify(op, out) == Neither && Holds(out, op.Source(), SourceObject(op, ns)) && IsRefused(op, out, w, expectAfter)
  {
    var e := Entry(op.Target().leaf, stranger);
    TargetTaken(op, ns, markerId, e);
    NoVerdictNoRecovery(op, Run(ns, MovePlan(op, markerId), CallsThen(6, map[op.Target().At() := e])).ns, w, expectAfter);
  }
}
