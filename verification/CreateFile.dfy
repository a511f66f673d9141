/** Creating a file: the whole candidate is staged first, and takes its name in one step. */
module CreateFile {
  import opened Volume
  import opened Lifecycle
  import opened Disturbed
  import opened RecoveryScan

  /** One creation; `id` is the identity the volume gives the staged file. */
  datatype Creation = Creation(leaf: Name, token: string, id: string, candidate: string) {
    function Stage(): Name { Name(leaf.dir, StagingLeaf(token)) }

    function Installed(): Object { Object(id, File, candidate) }

    predicate WellFormed() { UserLeaf(leaf.leaf) && token != "" }
  }

  function StagePlan(c: Creation): Plan {
    Then(Create(c.Stage(), Object(c.id, File, "")), Then(Write(c.Stage(), c.candidate), Then(Sync(c.Stage()), Done)))
  }

  function PlacePlan(c: Creation): Plan {
    Then(Rename(c.Stage(), c.leaf), Then(Sync(c.leaf), Then(Flush({c.leaf.dir}), Done)))
  }

  /** Staging, a last look at the leaf, and the handoff. */
  function Created(c: Creation, ns: Namespace, w: World): Outcome {
    var staged := Run(ns, StagePlan(c), w);
    if !staged.ok || !Free(staged.ns, c.leaf) then Outcome(staged.ns, staged.world, false)
    else Run(staged.ns, PlacePlan(c), staged.world)
  }

  /** `applyEngineeringFileMutationV2` for `create_file`: the leaf is checked before staging and again before the handoff. */
  method CreateNewFile(c: Creation, disk: Disk) returns (ok: bool)
    requires c.WellFormed()
    modifies disk
    ensures Outcome(disk.ns, disk.world, ok) ==
      if Free(old(disk.ns), c.leaf) then Created(c, old(disk.ns), old(disk.world)) else Outcome(old(disk.ns), old(disk.world), false)
  {
    if !Free(disk.ns, c.leaf) { return false; }
    ok := disk.Do(Create(c.Stage(), Object(c.id, File, "")));
    if ok { ok := disk.Do(Write(c.Stage(), c.candidate)); }
    if ok { ok := disk.Do(Sync(c.Stage())); }
    if ok { ok := Free(disk.ns, c.leaf); }
    if ok { ok := disk.Do(Rename(c.Stage(), c.leaf)); }
    if ok { ok := disk.Do(Sync(c.leaf)); }
    if ok { ok := disk.Do(Flush({c.leaf.dir})); }
  }

  lemma StageIsApart(c: Creation)
    requires c.WellFormed()
    ensures c.Stage().At() != c.leaf.At()
  {
    StagingIsNotUser(c.token, c.leaf.leaf);
  }

  // ---------- all or nothing, among any other processes ----------

  predicate IsOurs(c: Creation, ns: Namespace, name: Name) {
    name.At() in ns && ns[name.At()].obj.id == c.id
  }

  /** What of ours stands under the leaf is the whole candidate. */
  predicate AllOrNothing(c: Creation, ns: Namespace) {
    IsOurs(c, ns, c.leaf) ==> Holds(ns, c.leaf, c.Installed())
  }

  function Wholly(c: Creation): Namespace -> bool {
    (ns: Namespace) => AllOrNothing(c, ns)
  }

  /** How far a creation has come; others cannot undo any of it. */
  datatype Phase = Unstaged | Begun | Whole | Placed

  predicate InPhase(c: Creation, phase: Phase, ns: Namespace) {
    match phase
    case Unstaged => !IsOurs(c, ns, c.leaf)
    case Begun => !IsOurs(c, ns, c.leaf) && IsOurs(c, ns, c.Stage()) && ns[c.Stage().At()].leaf == c.Stage().leaf && ns[c.Stage().At()].obj.kind.File?
    case Whole => !IsOurs(c, ns, c.leaf) && Holds(ns, c.Stage(), c.Installed())
    case Placed => Holds(ns, c.leaf, c.Installed())
  }

  function In(c: Creation, phase: Phase): Namespace -> bool {
    (ns: Namespace) => InPhase(c, phase, ns)
  }

  function Others(c: Creation): Namespace -> bool {
    NoneOf({c.id})
  }

  /** From `from` to `to` the leaf is all or nothing, and nobody else's object is touched. */
  ghost predicate Carries(c: Creation, from: Phase, plan: Plan, to: Phase) {
    SafelyFrom(Wholly(c), In(c, to), Others(c), {c.id}, In(c, from), plan)
  }

  lemma PhaseLasts(c: Creation, phase: Phase)
    ensures Lasts(Others(c), In(c, phase)) && Implies(In(c, phase), Wholly(c))
  {
  }

  lemma IdleCarries(c: Creation, phase: Phase, s: Step, rest: Plan, to: Phase)
    requires (s.Flush? || s.Sync?) && Carries(c, phase, rest, to)
    ensures Carries(c, phase, Then(s, rest), to)
  {
    PhaseLasts(c, phase);
    IdleSafely(Wholly(c), In(c, to), Others(c), {c.id}, In(c, phase), s, rest);
  }

  lemma CallCarries(c: Creation, from: Phase, s: Step, next: Phase, rest: Plan, to: Phase)
    requires Steers(Wholly(c), {c.id}, In(c, from), s, In(c, next)) && Carries(c, next, rest, to)
    ensures Carries(c, from, Then(s, rest), to)
  {
    PhaseLasts(c, from);
    StepSafely(Wholly(c), In(c, to), Others(c), {c.id}, In(c, from), s, In(c, next), rest);
  }

  lemma StageCarries(c: Creation)
    requires c.WellFormed()
    ensures Carries(c, Unstaged, StagePlan(c), Whole)
  {
    var create, write := Create(c.Stage(), Object(c.id, File, "")), Write(c.Stage(), c.candidate);
    StageIsApart(c);
    PhaseLasts(c, Whole);
    EndSafely(Wholly(c), In(c, Whole), Others(c), {c.id}, In(c, Whole));
    IdleCarries(c, Whole, Sync(c.Stage()), Done, Whole);
    assert Steers(Wholly(c), {c.id}, In(c, Begun), write, In(c, Whole));
    CallCarries(c, Begun, write, Whole, Then(Sync(c.Stage()), Done), Whole);
    assert Steers(Wholly(c), {c.id}, In(c, Unstaged), create, In(c, Begun));
    CallCarries(c, Unstaged, create, Begun, Then(write, Then(Sync(c.Stage()), Done)), Whole);
  }

  lemma PlaceCarries(c: Creation)
    requires c.WellFormed()
    ensures Carries(c, Whole, PlacePlan(c), Placed)
  {
    var rename, flush := Rename(c.Stage(), c.leaf), Flush({c.leaf.dir});
    StageIsApart(c);
    PhaseLasts(c, Placed);
    EndSafely(Wholly(c), In(c, Placed), Others(c), {c.id}, In(c, Placed));
    IdleCarries(c, Placed, flush, Done, Placed);
    IdleCarries(c, Placed, Sync(c.leaf), Then(flush, Done), Placed);
    assert Steers(Wholly(c), {c.id}, In(c, Whole), rename, In(c, Placed));
    CallCarries(c, Whole, rename, Placed, Then(Sync(c.leaf), Then(flush, Done)), Placed);
  }

  /** At every moment of a creation, wherever it stops, however its write was cut, and whatever others put at free names
      (the leaf and the stage among them, though not this very file): what of ours stands under the leaf is the whole
      candidate, nobody else's entry is taken or changed, and success means the candidate is there. */
  lemma CreateIsAllOrNothing(c: Creation, ns: Namespace, w: World)
    requires c.WellFormed() && Free(ns, c.leaf) && Brings(w, Others(c))
    ensures
      var staged := Run(ns, StagePlan(c), w);
      && Throughout(Wholly(c), {c.id}, Trace(ns, StagePlan(c), w))
      && (staged.ok ==> Throughout(Wholly(c), {c.id}, Trace(staged.ns, PlacePlan(c), staged.world)))
    ensures AllOrNothing(c, Created(c, ns, w).ns)
    ensures Created(c, ns, w).ok ==> Holds(Created(c, ns, w).ns, c.leaf, c.Installed())
  {
    var staged := Run(ns, StagePlan(c), w);
    StageCarries(c);
    assert In(c, Unstaged)(ns);
    AmidCoversTrace(Wholly(c), In(c, Whole), Others(c), {c.id}, ns, StagePlan(c), w);
    if staged.ok {
      PlaceCarries(c);
      WorldStaysSo(Others(c), ns, StagePlan(c), w);
      AmidCoversTrace(Wholly(c), In(c, Placed), Others(c), {c.id}, staged.ns, PlacePlan(c), staged.world);
    }
  }

  /** Whatever others put at free names at any time, neither half of a creation takes or changes an entry of theirs. */
  lemma CreateNeverOverwrites(c: Creation, ns: Namespace, w: World)
    ensures Throughout(Anything(), {c.id}, Trace(ns, StagePlan(c), w))
    ensures var staged := Run(ns, StagePlan(c), w);
      staged.ok ==> Throughout(Anything(), {c.id}, Trace(staged.ns, PlacePlan(c), staged.world))
  {
    var flush, staged := Flush({c.leaf.dir}), Run(ns, StagePlan(c), w);
    EndSpares(c, c.leaf);
    EndSpares(c, c.Stage());
    SparesStep(c, c.leaf, flush, c.leaf, Done, c.leaf);
    SparesStep(c, c.leaf, Sync(c.leaf), c.leaf, Then(flush, Done), c.leaf);
    SparesStep(c, c.Stage(), Rename(c.Stage(), c.leaf), c.leaf, Then(Sync(c.leaf), Then(flush, Done)), c.leaf);
    SparesStep(c, c.Stage(), Sync(c.Stage()), c.Stage(), Done, c.Stage());
    SparesStep(c, c.Stage(), Write(c.Stage(), c.candidate), c.Stage(), Then(Sync(c.Stage()), Done), c.Stage());
    SparesStart(c);
    AmidCoversTrace(Anything(), Ours(c, c.Stage()), Anything(), {c.id}, ns, StagePlan(c), w);
    if staged.ok {
      AmidCoversTrace(Anything(), Ours(c, c.leaf), Anything(), {c.id}, staged.ns, PlacePlan(c), staged.world);
    }
  }

  function Ours(c: Creation, at: Name): Namespace -> bool {
    (ns: Namespace) => IsOurs(c, ns, at)
  }

  /** From a namespace where the name is ours, the rest of the plan touches nobody else's object. */
  ghost predicate SparesFrom(c: Creation, at: Name, plan: Plan, end: Name) {
    SafelyFrom(Anything(), Ours(c, end), Anything(), {c.id}, Ours(c, at), plan)
  }

  lemma EndSpares(c: Creation, at: Name)
    ensures SparesFrom(c, at, Done, at)
  {
    EndSafely(Anything(), Ours(c, at), Anything(), {c.id}, Ours(c, at));
  }

  lemma SparesStep(c: Creation, at: Name, s: Step, after: Name, rest: Plan, end: Name)
    requires SparesFrom(c, after, rest, end)
    requires (s in {Write(at, c.candidate), Sync(at), Flush({c.leaf.dir})} && after == at) || s == Rename(at, after)
    ensures SparesFrom(c, at, Then(s, rest), end)
  {
    assert Lasts(Anything(), Ours(c, at));
    assert Steers(Anything(), {c.id}, Ours(c, at), s, Ours(c, after));
    StepSafely(Anything(), Ours(c, end), Anything(), {c.id}, Ours(c, at), s, Ours(c, after), rest);
  }

  lemma SparesStart(c: Creation)
    requires SparesFrom(c, c.Stage(), StagePlan(c).rest, c.Stage())
    ensures SafelyFrom(Anything(), Ours(c, c.Stage()), Anything(), {c.id}, Anything(), StagePlan(c))
  {
    var create := Create(c.Stage(), Object(c.id, File, ""));
    assert Steers(Anything(), {c.id}, Anything(), create, Ours(c, c.Stage()));
    StepSafely(Anything(), Ours(c, c.Stage()), Anything(), {c.id}, Anything(), create, Ours(c, c.Stage()), StagePlan(c).rest);
  }

  lemma CreatedKeepsFolded(c: Creation, ns: Namespace, w: World)
    requires IsFolded(ns) && BringsFolded(w)
    ensures IsFolded(Created(c, ns, w).ns)
  {
    RunKeepsFolded(ns, StagePlan(c), w);
    var staged := Run(ns, StagePlan(c), w);
    if staged.ok { RunKeepsFolded(staged.ns, PlacePlan(c), staged.world); }
  }

  /** If a creation stopped anywhere, among other processes, and the scan is clear afterwards: nothing stands under its
      stage leaf, complete or torn (in no spelling, where the volume files every entry under its spelling's key), and what
      of ours stands under the leaf is the whole candidate. */
  lemma ClearAfterCreate(c: Creation, ns: Namespace, w: World, t: Tree, root: string)
    requires c.WellFormed() && Free(ns, c.leaf) && Brings(w, Others(c))
    requires IsClear(t, root) && Enumerates(t, Created(c, ns, w).ns) && RecoveryScan.Reaches(t, root, c.leaf.dir)
    ensures AllOrNothing(c, Created(c, ns, w).ns)
    ensures Free(Created(c, ns, w).ns, c.Stage()) || Created(c, ns, w).ns[c.Stage().At()].leaf != c.Stage().leaf
    ensures IsFolded(ns) && BringsFolded(w) ==> Free(Created(c, ns, w).ns, c.Stage())
  {
    if IsFolded(ns) && BringsFolded(w) {
      CreatedKeepsFolded(c, ns, w);
      ClearLeavesStagingFree(t, root, Created(c, ns, w).ns, c.Stage(), c.token);
    }
    CreateIsAllOrNothing(c, ns, w);
    StagingLeavesAreStaging(c.token);
    if !Free(Created(c, ns, w).ns, c.Stage()) {
      ClearMeansClear(t, root, Created(c, ns, w).ns, c.Stage().At());
    }
  }
}
