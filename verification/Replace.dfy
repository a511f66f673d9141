/** Replacing a file: the original steps aside under a recovery name before the candidate takes its place. */
module Replace {
  import opened Text
  import opened Volume
  import opened Lifecycle
  import opened Disturbed

  /** One replacement: the file to replace as it was observed, and the candidate to install. */
  datatype Replacement = Replacement(leaf: Name, token: string, original: Object, candidateId: string, candidate: string) {
    function Stage(): Name { Name(leaf.dir, StagingLeaf(token)) }

    /** `recoveryStagingLeafName`. */
    function Aside(): Name { Name(leaf.dir, StagingLeaf("before-" + token)) }

    function Installed(): Object { Object(candidateId, File, candidate) }

    predicate WellFormed() {
      UserLeaf(leaf.leaf) && token != "" && original.kind == File && candidateId != original.id
    }

    function Own(): set<string> { {original.id, candidateId} }
  }

  function ReplacePlan(r: Replacement): Plan {
    StagePlan(r, HandoffPlan(r, CleanupPlan(r)))
  }

  function StagePlan(r: Replacement, rest: Plan): Plan {
    Then(Create(r.Stage(), Object(r.candidateId, File, "")),
    Then(Write(r.Stage(), r.candidate),
    Then(Sync(r.Stage()), rest)))
  }

  function HandoffPlan(r: Replacement, rest: Plan): Plan {
    Then(Rename(r.leaf, r.Aside()),
    Then(Flush({r.leaf.dir}),
    Then(Rename(r.Stage(), r.leaf),
    Then(Sync(r.leaf),
    Then(Flush({r.leaf.dir}), rest)))))
  }

  function CleanupPlan(r: Replacement): Plan {
    Then(Remove(r.Aside()), Then(Flush({r.leaf.dir}), Done))
  }

  method StageCandidate(r: Replacement, disk: Disk) returns (ok: bool)
    requires r.WellFormed() && Holds(disk.ns, r.leaf, r.original)
    modifies disk
    ensures forall rest: Plan ::
      Run(old(disk.ns), StagePlan(r, rest), old(disk.world))
        == if ok then Run(disk.ns, rest, disk.world) else Outcome(disk.ns, disk.world, false)
    ensures ok ==> Holds(disk.ns, r.leaf, r.original) && Holds(disk.ns, r.Stage(), r.Installed())
  {
    NamesApart(r);
    ok := disk.Do(Create(r.Stage(), Object(r.candidateId, File, "")));
    if ok { ok := disk.Do(Write(r.Stage(), r.candidate)); }
    if ok { ok := disk.Do(Sync(r.Stage())); }
  }

  method HandOff(r: Replacement, disk: Disk) returns (ok: bool)
    requires r.WellFormed() && Holds(disk.ns, r.leaf, r.original) && Holds(disk.ns, r.Stage(), r.Installed())
    modifies disk
    ensures forall rest: Plan ::
      Run(old(disk.ns), HandoffPlan(r, rest), old(disk.world))
        == if ok then Run(disk.ns, rest, disk.world) else Outcome(disk.ns, disk.world, false)
    ensures ok ==> Holds(disk.ns, r.leaf, r.Installed()) && Holds(disk.ns, r.Aside(), r.original)
  {
    NamesApart(r);
    ok := disk.Do(Rename(r.leaf, r.Aside()));
    if ok { ok := disk.Do(Flush({r.leaf.dir})); }
    if ok { ok := disk.Do(Rename(r.Stage(), r.leaf)); }
    if ok { ok := disk.Do(Sync(r.leaf)); }
    if ok { ok := disk.Do(Flush({r.leaf.dir})); }
  }

  /** `applyEngineeringFileMutationV2` for `replace_file`, from the observed original to the receipt. Its two
      namespace checks cannot fail here: no other process replaces an entry that stands. */
  method ReplaceFile(r: Replacement, disk: Disk) returns (ok: bool)
    requires r.WellFormed()
    modifies disk
    ensures Outcome(disk.ns, disk.world, ok) ==
      if Holds(old(disk.ns), r.leaf, r.original) then Run(old(disk.ns), ReplacePlan(r), old(disk.world))
      else Outcome(old(disk.ns), old(disk.world), false)
  {
    if Open(disk.ns, r.leaf, File) != Opened(r.original) { return false; }
    ok := StageCandidate(r, disk);
    if ok { ok := Open(disk.ns, r.leaf, File) == Opened(r.original); }
    if ok { ok := HandOff(r, disk); }
    if ok { ok := Open(disk.ns, r.leaf, File) == Opened(r.Installed()); }
    if ok { ok := disk.Do(Remove(r.Aside())); }
    if ok { ok := disk.Do(Flush({r.leaf.dir})); }
  }

  lemma NamesApart(r: Replacement)
    requires r.WellFormed()
    ensures r.Stage().At() != r.leaf.At() && r.Aside().At() != r.leaf.At() && r.Stage().At() != r.Aside().At()
  {
    StagingIsNotUser(r.token, r.leaf.leaf);
    StagingIsNotUser("before-" + r.token, r.leaf.leaf);
    assert |Fold(r.Aside().leaf)| != |Fold(r.Stage().leaf)|;
  }

  // ---------- never lost, never overwritten ----------

  /** The original is under its leaf or its recovery name. */
  predicate Held(r: Replacement, ns: Namespace) {
    Holds(ns, r.leaf, r.original) || Holds(ns, r.Aside(), r.original)
  }

  /** That, or the candidate is installed under the leaf. */
  predicate Safe(r: Replacement, ns: Namespace) {
    Held(r, ns) || Holds(ns, r.leaf, r.Installed())
  }

  /** How far a replacement has come; others can add entries but cannot undo any of it. */
  datatype Phase = Untouched | Staging | StagedUp | Parted | InPlace | Finished

  predicate InPhase(r: Replacement, phase: Phase, ns: Namespace) {
    match phase
    case Untouched => Holds(ns, r.leaf, r.original)
    case Staging =>
      && Holds(ns, r.leaf, r.original)
      && r.Stage().At() in ns && ns[r.Stage().At()] == Entry(r.Stage().leaf, ns[r.Stage().At()].obj)
      && ns[r.Stage().At()].obj.id == r.candidateId && ns[r.Stage().At()].obj.kind == File
    case StagedUp => Holds(ns, r.leaf, r.original) && Holds(ns, r.Stage(), r.Installed())
    case Parted => Holds(ns, r.Aside(), r.original) && Holds(ns, r.Stage(), r.Installed())
    case InPlace => Holds(ns, r.Aside(), r.original) && Holds(ns, r.leaf, r.Installed())
    case Finished => Holds(ns, r.leaf, r.Installed())
  }

  function In(r: Replacement, phase: Phase): Namespace -> bool {
    (ns: Namespace) => InPhase(r, phase, ns)
  }

  function Safely(r: Replacement): Namespace -> bool {
    (ns: Namespace) => Safe(r, ns)
  }

  function Holding(r: Replacement): Namespace -> bool {
    (ns: Namespace) => Held(r, ns)
  }

  /** From `from` to `to`, `P` holds throughout and nobody else's object is touched, whatever others add. */
  ghost predicate Carries(P: Namespace -> bool, r: Replacement, from: Phase, plan: Plan, to: Phase) {
    SafelyFrom(P, In(r, to), Anything(), r.Own(), In(r, from), plan)
  }

  lemma PhaseLasts(r: Replacement, phase: Phase)
    ensures Lasts(Anything(), In(r, phase))
  {
  }

  lemma CallCarries(P: Namespace -> bool, r: Replacement, from: Phase, s: Step, next: Phase, rest: Plan, to: Phase)
    requires Steers(P, r.Own(), In(r, from), s, In(r, next)) && Carries(P, r, next, rest, to)
    ensures Carries(P, r, from, Then(s, rest), to)
  {
    PhaseLasts(r, from);
    StepSafely(P, In(r, to), Anything(), r.Own(), In(r, from), s, In(r, next), rest);
  }

  lemma IdleCarries(P: Namespace -> bool, r: Replacement, phase: Phase, s: Step, rest: Plan, to: Phase)
    requires (s.Flush? || s.Sync?) && Implies(In(r, phase), P) && Carries(P, r, phase, rest, to)
    ensures Carries(P, r, phase, Then(s, rest), to)
  {
    PhaseLasts(r, phase);
    IdleSafely(P, In(r, to), Anything(), r.Own(), In(r, phase), s, rest);
  }

  lemma CreateSteers(P: Namespace -> bool, r: Replacement)
    requires r.WellFormed() && Implies(In(r, Untouched), P)
    ensures Steers(P, r.Own(), In(r, Untouched), Create(r.Stage(), Object(r.candidateId, File, "")), In(r, Staging))
  {
    NamesApart(r);
  }

  lemma WriteSteers(P: Namespace -> bool, r: Replacement)
    requires r.WellFormed() && Implies(In(r, Staging), P)
    ensures Steers(P, r.Own(), In(r, Staging), Write(r.Stage(), r.candidate), In(r, StagedUp))
  {
    NamesApart(r);
    forall ns: Namespace, n: nat | InPhase(r, Staging, ns)
      ensures InPhase(r, Staging, Cut(ns, Write(r.Stage(), r.candidate), n))
    {
    }
    assert forall ns: Namespace | In(r, Staging)(ns) :: P(ns);
    forall ns: Namespace, n: nat | In(r, Staging)(ns)
      ensures P(Cut(ns, Write(r.Stage(), r.candidate), n))
    {
      assert In(r, Staging)(Cut(ns, Write(r.Stage(), r.candidate), n));
    }
  }

  lemma AsideSteers(P: Namespace -> bool, r: Replacement)
    requires r.WellFormed() && Implies(In(r, StagedUp), P)
    ensures Steers(P, r.Own(), In(r, StagedUp), Rename(r.leaf, r.Aside()), In(r, Parted))
  {
    NamesApart(r);
  }

  lemma InstallSteers(P: Namespace -> bool, r: Replacement)
    requires r.WellFormed() && Implies(In(r, Parted), P)
    ensures Steers(P, r.Own(), In(r, Parted), Rename(r.Stage(), r.leaf), In(r, InPlace))
  {
    NamesApart(r);
  }

  lemma RemoveSteers(P: Namespace -> bool, r: Replacement)
    requires r.WellFormed() && Implies(In(r, InPlace), P)
    ensures Steers(P, r.Own(), In(r, InPlace), Remove(r.Aside()), In(r, Finished))
  {
    NamesApart(r);
  }

  lemma CleanupCarries(P: Namespace -> bool, r: Replacement)
    requires r.WellFormed() && Implies(In(r, InPlace), P) && Implies(In(r, Finished), P)
    ensures Carries(P, r, InPlace, CleanupPlan(r), Finished)
  {
    var flush := Flush({r.leaf.dir});
    EndSafely(P, In(r, Finished), Anything(), r.Own(), In(r, Finished));
    IdleCarries(P, r, Finished, flush, Done, Finished);
    RemoveSteers(P, r);
    CallCarries(P, r, InPlace, Remove(r.Aside()), Finished, Then(flush, Done), Finished);
  }

  /** `P` covers every phase up to the candidate in place. */
  ghost predicate CoversFront(P: Namespace -> bool, r: Replacement) {
    && Implies(In(r, Untouched), P) && Implies(In(r, Staging), P) && Implies(In(r, StagedUp), P)
    && Implies(In(r, Parted), P) && Implies(In(r, InPlace), P)
  }

  lemma HandoffCarries(P: Namespace -> bool, r: Replacement, rest: Plan, to: Phase)
    requires r.WellFormed() && CoversFront(P, r) && Carries(P, r, InPlace, rest, to)
    ensures Carries(P, r, StagedUp, HandoffPlan(r, rest), to)
  {
    var flush, sync := Flush({r.leaf.dir}), Sync(r.leaf);
    AsideSteers(P, r);
    InstallSteers(P, r);
    IdleCarries(P, r, InPlace, flush, rest, to);
    IdleCarries(P, r, InPlace, sync, Then(flush, rest), to);
    var install := Then(Rename(r.Stage(), r.leaf), Then(sync, Then(flush, rest)));
    CallCarries(P, r, Parted, Rename(r.Stage(), r.leaf), InPlace, Then(sync, Then(flush, rest)), to);
    IdleCarries(P, r, Parted, flush, install, to);
    CallCarries(P, r, StagedUp, Rename(r.leaf, r.Aside()), Parted, Then(flush, install), to);
  }

  lemma StageCarries(P: Namespace -> bool, r: Replacement, rest: Plan, to: Phase)
    requires r.WellFormed() && CoversFront(P, r) && Carries(P, r, StagedUp, rest, to)
    ensures Carries(P, r, Untouched, StagePlan(r, rest), to)
  {
    var create, write, sync := Create(r.Stage(), Object(r.candidateId, File, "")), Write(r.Stage(), r.candidate), Sync(r.Stage());
    IdleCarries(P, r, StagedUp, sync, rest, to);
    WriteSteers(P, r);
    CallCarries(P, r, Staging, write, StagedUp, Then(sync, rest), to);
    CreateSteers(P, r);
    CallCarries(P, r, Untouched, create, Staging, Then(write, Then(sync, rest)), to);
  }

  /** Everything up to the observation of the installed candidate, before the recovery copy is removed. */
  function FrontPlan(r: Replacement): Plan {
    StagePlan(r, HandoffPlan(r, Done))
  }

  lemma FrontThenCleanup(r: Replacement, ns: Namespace, w: World)
    ensures
      var front := Run(ns, FrontPlan(r), w);
      Run(ns, ReplacePlan(r), w) == if front.ok then Run(front.ns, CleanupPlan(r), front.world) else front
  {
    var cleanup := CleanupPlan(r);
    var end := Then(Sync(r.leaf), Then(Flush({r.leaf.dir}), Done));
    assert Append(Then(Flush({r.leaf.dir}), Done), cleanup) == Then(Flush({r.leaf.dir}), cleanup);
    assert Append(end, cleanup) == Then(Sync(r.leaf), Then(Flush({r.leaf.dir}), cleanup));
    assert Append(Then(Rename(r.Stage(), r.leaf), end), cleanup) == Then(Rename(r.Stage(), r.leaf), Append(end, cleanup));
    assert Append(HandoffPlan(r, Done).rest, cleanup) == HandoffPlan(r, cleanup).rest;
    assert Append(HandoffPlan(r, Done), cleanup) == HandoffPlan(r, cleanup);
    assert Append(Then(Sync(r.Stage()), HandoffPlan(r, Done)), cleanup) == Then(Sync(r.Stage()), HandoffPlan(r, cleanup));
    assert Append(StagePlan(r, HandoffPlan(r, Done)).rest, cleanup) == ReplacePlan(r).rest;
    RunAppends(ns, FrontPlan(r), cleanup, w);
  }

  /** At every moment of a replacement, wherever it stops and whatever others add at free names at any time: the
      original is under its leaf or its recovery name unless the candidate is installed under the leaf, and
      every entry of anyone else that stands at one moment still stands, unchanged, at every later one. Until the
      recovery copy is removed the original is there without exception; and it is removed only once the candidate
      has been seen in its place, synced and flushed, with the original still beside it. */
  lemma ReplaceNeverLosesOrOverwrites(r: Replacement, ns: Namespace, w: World)
    requires r.WellFormed() && Holds(ns, r.leaf, r.original)
    ensures Throughout(Safely(r), r.Own(), Trace(ns, ReplacePlan(r), w))
    ensures
      var front := Run(ns, FrontPlan(r), w);
      && Throughout(Holding(r), r.Own(), Trace(ns, FrontPlan(r), w))
      && (front.ok ==> Holds(front.ns, r.leaf, r.Installed()) && Holds(front.ns, r.Aside(), r.original))
      && Run(ns, ReplacePlan(r), w) == (if front.ok then Run(front.ns, CleanupPlan(r), front.world) else front)
  {
    SafeThroughout(r, ns, w);
    FrontIsHeld(r, ns, w);
    FrontThenCleanup(r, ns, w);
  }

  lemma SafeThroughout(r: Replacement, ns: Namespace, w: World)
    requires r.WellFormed() && Holds(ns, r.leaf, r.original)
    ensures Throughout(Safely(r), r.Own(), Trace(ns, ReplacePlan(r), w))
  {
    assert In(r, Untouched)(ns);
    SafeAllAlong(r);
    AmidCoversTrace(Safely(r), In(r, Finished), Anything(), r.Own(), ns, ReplacePlan(r), w);
  }

  lemma FrontIsHeld(r: Replacement, ns: Namespace, w: World)
    requires r.WellFormed() && Holds(ns, r.leaf, r.original)
    ensures Throughout(Holding(r), r.Own(), Trace(ns, FrontPlan(r), w))
    ensures var front := Run(ns, FrontPlan(r), w);
      front.ok ==> Holds(front.ns, r.leaf, r.Installed()) && Holds(front.ns, r.Aside(), r.original)
  {
    assert In(r, Untouched)(ns);
    HeldInFront(r);
    AmidCoversTrace(Holding(r), In(r, InPlace), Anything(), r.Own(), ns, FrontPlan(r), w);
    assert Run(ns, FrontPlan(r), w).ok ==> In(r, InPlace)(Run(ns, FrontPlan(r), w).ns);
  }

  lemma SafeAllAlong(r: Replacement)
    requires r.WellFormed()
    ensures Carries(Safely(r), r, Untouched, ReplacePlan(r), Finished)
  {
    CleanupCarries(Safely(r), r);
    HandoffCarries(Safely(r), r, CleanupPlan(r), Finished);
    StageCarries(Safely(r), r, HandoffPlan(r, CleanupPlan(r)), Finished);
  }

  lemma HeldInFront(r: Replacement)
    requires r.WellFormed()
    ensures Carries(Holding(r), r, Untouched, FrontPlan(r), InPlace)
  {
    EndSafely(Holding(r), In(r, InPlace), Anything(), r.Own(), In(r, InPlace));
    HandoffCarries(Holding(r), r, Done, InPlace);
    StageCarries(Holding(r), r, HandoffPlan(r, Done), InPlace);
  }

  /** Undisturbed and complete, a replacement changes the one entry and leaves no staging name behind. */
  lemma ReplaceEffect(r: Replacement, ns: Namespace, w: World)
    requires r.WellFormed() && Holds(ns, r.leaf, r.original) && Free(ns, r.Stage()) && Free(ns, r.Aside())
    requires Quiet(w) && w.limit >= Length(ReplacePlan(r))
    ensures
      var done := Run(ns, ReplacePlan(r), w);
      done.ok && done.ns == ns[r.leaf.At() := Entry(r.leaf.leaf, r.Installed())]
  {
    NamesApart(r);
    RunIsExec(ns, ReplacePlan(r), w);
    var staged := ns[r.Stage().At() := Entry(r.Stage().leaf, r.Installed())];
    var apart := (staged - {r.leaf.At()})[r.Aside().At() := Entry(r.Aside().leaf, r.original)];
    var placed := (apart - {r.Stage().At()})[r.leaf.At() := Entry(r.leaf.leaf, r.Installed())];
    ExecStage(r, ns, HandoffPlan(r, CleanupPlan(r)));
    var install := Then(Rename(r.Stage(), r.leaf), Then(Sync(r.leaf), Then(Flush({r.leaf.dir}), CleanupPlan(r))));
    assert Exec(staged, HandoffPlan(r, CleanupPlan(r))) == Exec(apart, Then(Flush({r.leaf.dir}), install));
    assert Exec(apart, Then(Flush({r.leaf.dir}), install)) == Exec(apart, install);
    assert Exec(apart, install) == Exec(placed, Then(Sync(r.leaf), Then(Flush({r.leaf.dir}), CleanupPlan(r))));
    ExecCleanup(r, placed);
    assert placed - {r.Aside().At()} == ns[r.leaf.At() := Entry(r.leaf.leaf, r.Installed())];
  }

  lemma ExecStage(r: Replacement, ns: Namespace, rest: Plan)
    requires Free(ns, r.Stage())
    ensures Exec(ns, StagePlan(r, rest)) == Exec(ns[r.Stage().At() := Entry(r.Stage().leaf, r.Installed())], rest)
  {
    var blank := ns[r.Stage().At() := Entry(r.Stage().leaf, Object(r.candidateId, File, ""))];
    var staged := ns[r.Stage().At() := Entry(r.Stage().leaf, r.Installed())];
    assert PutBytes(blank, r.Stage(), r.candidate) == staged;
    assert Exec(blank, Then(Write(r.Stage(), r.candidate), Then(Sync(r.Stage()), rest))) == Exec(staged, Then(Sync(r.Stage()), rest));
  }

  lemma ExecCleanup(r: Replacement, ns: Namespace)
    requires r.Aside().At() in ns && ns[r.Aside().At()].obj.kind == File
    ensures Exec(ns, Then(Sync(r.leaf), Then(Flush({r.leaf.dir}), CleanupPlan(r)))) == Some(ns - {r.Aside().At()})
  {
    var gone, flush := ns - {r.Aside().At()}, Flush({r.leaf.dir});
    assert Exec(gone, Then(flush, Done)) == Exec(gone, Done);
    assert Exec(ns, CleanupPlan(r)) == Exec(gone, Then(flush, Done));
    assert Exec(ns, Then(flush, CleanupPlan(r))) == Exec(ns, CleanupPlan(r));
  }
}
