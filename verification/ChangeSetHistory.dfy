/** Whole histories of a Change Set: created once, then appended to and selected from in any order. */
module ChangeSetHistory {
  import opened DependencyGraph
  import opened DraftFiles
  import opened Hunks
  import opened Preflight
  import opened Revisions
  import opened Selections
  import opened Text

  datatype Start = OfProposals(proposals: seq<Proposal>) | OfOperations(ops: seq<Operation>)

  datatype Call =
    | AppendProposals(proposals: seq<Proposal>)
    | AppendOperations(ops: seq<Operation>)
    | Select(files: seq<FileSelection>, choices: seq<OperationSelection>)

  ghost function Begin(rules: Rules, start: Start): Result<ChangeSet> {
    match start
    case OfProposals(proposals) => FromProposals(rules, proposals)
    case OfOperations(ops) => FromOperations(rules, ops)
  }

  ghost function Revise(rules: Rules, current: ChangeSet, call: Call): Result<ChangeSet> {
    match call
    case AppendProposals(proposals) => WithProposals(rules, current, proposals)
    case AppendOperations(ops) => WithOperations(rules, current, ops)
    case Select(files, choices) => WithSelection(rules, current, files, choices)
  }

  /** The current revision after the calls; a refused call leaves it as it was. */
  ghost function After(rules: Rules, current: ChangeSet, calls: seq<Call>): ChangeSet {
    if calls == [] then current
    else
      var before := After(rules, current, calls[..|calls| - 1]);
      var revised := Revise(rules, before, calls[|calls| - 1]);
      if revised.Ok? then revised.value else before
  }

  /** Hunks in order, operations clean, and every consistency group in one piece. */
  ghost predicate IsSoundSet(rules: Rules, changes: ChangeSet) {
    AreSound(changes.files) && IsClean(rules.paths, changes.operations) && IsWhole(changes.files, changes.operations)
  }

  lemma NoOperationsAreClean(rule: PathRule)
    ensures IsClean(rule, [])
  {
    OrderedIsAcyclic(GraphOf([]), []);
  }

  predicate IsAllSelected(files: seq<DraftFile>) {
    forall f, h | f in files && h in f.hunks :: h.selected
  }

  lemma AllSelectedIsWhole(files: seq<DraftFile>)
    requires IsAllSelected(files) && forall f | f in files :: f.hunks != []
    ensures IsWhole(files, [])
  {
    forall m | m in FileMarks(files) + OperationMarks([]) ensures m.1 {
    }
  }

  predicate SameRanges(a: DraftFile, b: DraftFile) {
    && a.path == b.path && a.binding == b.binding && |a.hunks| == |b.hunks|
    && forall i | 0 <= i < |a.hunks| :: a.hunks[i].range == b.hunks[i].range
  }

  lemma SameRangesAreSound(a: DraftFile, b: DraftFile)
    requires SameRanges(a, b) && IsSound(a)
    ensures IsSound(b)
  {
    forall h | h in b.hunks ensures IsWithin(h.range, b.binding.baseContent) {
      var i :| 0 <= i < |b.hunks| && b.hunks[i] == h;
      assert a.hunks[i] in a.hunks;
    }
    forall i, j | 0 <= i < j < |b.hunks|
      ensures NotAbove(ByStart)(b.hunks[i], b.hunks[j]) && NotOverlapping(b.hunks[i], b.hunks[j])
    {
      assert NotAbove(ByStart)(a.hunks[i], a.hunks[j]) && NotOverlapping(a.hunks[i], a.hunks[j]);
    }
  }

  lemma SameRangesAreAllSound(a: seq<DraftFile>, b: seq<DraftFile>)
    requires |a| == |b| && (forall i | 0 <= i < |a| :: SameRanges(a[i], b[i])) && AreSound(a)
    ensures AreSound(b)
  {
    forall f | f in b ensures IsSound(f) {
      var i :| 0 <= i < |b| && b[i] == f;
      assert a[i] in a;
      SameRangesAreSound(a[i], f);
    }
    forall i, j | 0 <= i < j < |b| ensures b[i].path != b[j].path {
      assert SameRanges(a[i], b[i]) && SameRanges(a[j], b[j]);
    }
  }

  lemma MergeKeepsAllSelected(files: seq<DraftFile>, draft: DraftFile)
    requires IsAllSelected(files) && IsFreshDraft(draft) && MergeProblem(files, draft).None?
    ensures IsAllSelected(Merged(files, draft))
  {
    var at, merged := IndexOf(files, draft.path), Merged(files, draft);
    forall f, h | f in merged && h in f.hunks ensures h.selected {
      var i :| 0 <= i < |merged| && merged[i] == f;
      if i != at {
        assert files[i] == f && f in files;
      } else if at < |files| {
        MergedMembers(files[at].hunks, draft.hunks[0]);
      } else {
        assert f == draft && h == draft.hunks[0];
      }
    }
  }

  lemma {:induction false} MergeEachKeeps(files: seq<DraftFile>, drafts: seq<DraftFile>)
    requires AreSound(files) && IsAllSelected(files) && (forall d | d in drafts :: IsFreshDraft(d))
    requires MergeEach(files, drafts).Ok?
    ensures AreSound(MergeEach(files, drafts).value) && IsAllSelected(MergeEach(files, drafts).value)
    decreases |drafts|
  {
    if drafts != [] {
      assert drafts[0] in drafts && IsFreshDraft(drafts[0]);
      MergeKeepsSound(files, drafts[0]);
      MergeKeepsAllSelected(files, drafts[0]);
      MergeEachKeeps(Merged(files, drafts[0]), drafts[1..]);
    }
  }

  lemma BeginIsSound(rules: Rules, start: Start)
    requires Begin(rules, start).Ok?
    ensures IsSoundSet(rules, Begin(rules, start).value)
  {
    if start.OfProposals? {
      var drafts := DraftsOf(rules, start.proposals).value;
      forall f, h | f in drafts && h in f.hunks ensures h.selected {
        assert IsFreshDraft(f) && h == f.hunks[0];
      }
      AllSelectedIsWhole(drafts);
      NoOperationsAreClean(rules.paths);
    }
  }

  lemma AllFilesSelectedIsSound(files: seq<DraftFile>)
    requires AreSound(files)
    ensures AreSound(AllFilesSelected(files)) && IsAllSelected(AllFilesSelected(files))
  {
    SameRangesAreAllSound(files, AllFilesSelected(files));
  }

  lemma AppendProposalsIsSound(rules: Rules, current: ChangeSet, proposals: seq<Proposal>)
    requires IsSoundSet(rules, current) && WithProposals(rules, current, proposals).Ok?
    ensures IsSoundSet(rules, WithProposals(rules, current, proposals).value)
  {
    var drafts := DraftsOf(rules, proposals).value;
    AllFilesSelectedIsSound(current.files);
    MergeEachKeeps(AllFilesSelected(current.files), drafts);
    var files := MergeEach(AllFilesSelected(current.files), drafts).value;
    if current.operations == [] {
      assert forall f | f in files :: IsSound(f);
      AllSelectedIsWhole(files);
    }
  }

  lemma SelectIsSound(rules: Rules, current: ChangeSet, fileChoices: seq<FileSelection>, choices: seq<OperationSelection>)
    requires IsSoundSet(rules, current) && WithSelection(rules, current, fileChoices, choices).Ok?
    ensures IsSoundSet(rules, WithSelection(rules, current, fileChoices, choices).value)
    ensures IsClosed(WithSelection(rules, current, fileChoices, choices).value.operations)
  {
    var files := SelectFiles(current.files, fileChoices).value;
    SameRangesAreAllSound(current.files, files);
    NoOperationsAreClean(rules.paths);
  }

  lemma ReviseIsSound(rules: Rules, current: ChangeSet, call: Call)
    requires IsSoundSet(rules, current) && Revise(rules, current, call).Ok?
    ensures IsSoundSet(rules, Revise(rules, current, call).value)
    ensures Revise(rules, current, call).value.revision == current.revision + 1
  {
    match call {
      case AppendProposals(proposals) => AppendProposalsIsSound(rules, current, proposals);
      case AppendOperations(_) =>
      case Select(files, choices) => SelectIsSound(rules, current, files, choices);
    }
  }

  /** However create, append and select interleave, each revision is sound; in particular no group is ever split. */
  lemma {:induction false} HistoryIsSound(rules: Rules, start: Start, calls: seq<Call>)
    requires Begin(rules, start).Ok?
    ensures IsSoundSet(rules, After(rules, Begin(rules, start).value, calls))
  {
    if calls == [] {
      BeginIsSound(rules, start);
    } else {
      HistoryIsSound(rules, start, calls[..|calls| - 1]);
      var before := After(rules, Begin(rules, start).value, calls[..|calls| - 1]);
      if Revise(rules, before, calls[|calls| - 1]).Ok? {
        ReviseIsSound(rules, before, calls[|calls| - 1]);
      }
    }
  }

  /** Spelled out: in any revision two members of one group, hunks or operations, are selected together or not at all. */
  lemma GroupsStayTogether(rules: Rules, start: Start, calls: seq<Call>, f: DraftFile, h: Hunk, g: DraftFile, k: Hunk, op: Operation, other: Operation)
    requires Begin(rules, start).Ok?
    ensures var now := After(rules, Begin(rules, start).value, calls);
      && (f in now.files && g in now.files && h in f.hunks && k in g.hunks && f.binding.group.Some? && f.binding.group == g.binding.group
          ==> h.selected == k.selected)
      && (f in now.files && h in f.hunks && op in now.operations && f.binding.group.Some? && f.binding.group == op.group
          ==> h.selected == op.selected)
      && (op in now.operations && other in now.operations && op.group.Some? && op.group == other.group ==> op.selected == other.selected)
  {
    HistoryIsSound(rules, start, calls);
    var now := After(rules, Begin(rules, start).value, calls);
    assert forall m | m in FileMarks(now.files) + OperationMarks(now.operations) ::
        (m.0, !m.1) !in FileMarks(now.files) + OperationMarks(now.operations);
    if f in now.files && h in f.hunks && f.binding.group.Some? {
      assert (f.binding.group.value, h.selected) in FileMarks(now.files);
      if g in now.files && k in g.hunks && f.binding.group == g.binding.group {
        assert (g.binding.group.value, k.selected) in FileMarks(now.files);
      }
      if op in now.operations && f.binding.group == op.group {
        assert (op.group.value, op.selected) in OperationMarks(now.operations);
      }
    }
    if op in now.operations && other in now.operations && op.group.Some? && op.group == other.group {
      assert (op.group.value, op.selected) in OperationMarks(now.operations);
      assert (other.group.value, other.selected) in OperationMarks(now.operations);
    }
  }

  /** In any revision, a file whose ranges are real replacements has the splice of its selected hunks as candidate. */
  lemma CandidatesAreSplices(rules: Rules, start: Start, calls: seq<Call>, file: DraftFile)
    requires Begin(rules, start).Ok? && file in After(rules, Begin(rules, start).value, calls).files
    requires forall h | h in file.hunks :: !IsEmpty(h.range)
    ensures AllForward(ApplicationOrder(SelectedHunks(file.hunks)))
    ensures IsSpliceOfSelected(file, ReplaceInTurn(file.binding.baseContent, ApplicationOrder(SelectedHunks(file.hunks))))
  {
    HistoryIsSound(rules, start, calls);
    CandidateIsSplice(file);
  }

  // ---- Closure of the selection ----

  predicate HasSelected(ops: seq<Operation>, id: string) {
    exists op :: op in ops && op.selected && op.id == id
  }

  /** Appending keeps the selection closed exactly when the new operations' dependencies are themselves selected. */
  lemma AppendKeepsClosureExactly(rules: Rules, current: ChangeSet, ops: seq<Operation>)
    requires IsClosed(current.operations) && WithOperations(rules, current, ops).Ok?
    ensures IsClosed(WithOperations(rules, current, ops).value.operations)
       <==> forall op, d | op in ops && op.selected && d in op.dependsOn :: HasSelected(current.operations + ops, d)
  {
    var all := current.operations + ops;
    if forall op, d | op in ops && op.selected && d in op.dependsOn :: HasSelected(all, d) {
      forall op, d | op in all && op.selected && d in op.dependsOn
        ensures exists other :: other in all && other.selected && other.id == d
      {
        if op in current.operations {
          var other :| other in current.operations && other.selected && other.id == d;
          assert other in all;
        } else {
          assert HasSelected(all, d);
        }
      }
    }
  }

  /** Of a clean batch, what is selected is a clean batch exactly when the selection is closed. */
  lemma SelectedPartIsCleanExactly(rule: PathRule, ops: seq<Operation>)
    requires IsClean(rule, ops)
    ensures IsClean(rule, SelectedPart(ops)) <==> IsClosed(ops)
  {
    if IsClosed(ops) {
      SelectedPartIsClean(rule, ops);
    } else {
      OpenPartMisses(ops);
    }
  }

  lemma MissingDependency(ops: seq<Operation>) returns (op: Operation, d: string)
    requires !IsClosed(ops)
    ensures op in ops && op.selected && d in op.dependsOn && !HasSelected(ops, d)
  {
    op, d :| op in ops && op.selected && d in op.dependsOn && !(exists other :: other in ops && other.selected && other.id == d);
  }

  lemma OpenPartMisses(ops: seq<Operation>)
    requires !IsClosed(ops)
    ensures !KnownDependencies(SelectedPart(ops))
  {
    var op, d := MissingDependency(ops);
    assert op in SelectedPart(ops);
    var part := SelectedPart(ops);
    forall i | 0 <= i < |part| ensures part[i].id != d {
      assert part[i] in part;
    }
    assert op in part && d in op.dependsOn && !HasId(part, d);
  }

  /** An appended operation is selected without all of its dependencies. */
  predicate Opens(current: seq<Operation>, ops: seq<Operation>) {
    exists op, d :: op in ops && op.selected && d in op.dependsOn && !HasSelected(current + ops, d)
  }

  lemma OpenStaysOpen(current: seq<Operation>, ops: seq<Operation>)
    requires KnownDependencies(current) && DistinctIds(current + ops) && !IsClosed(current)
    ensures !IsClosed(current + ops)
  {
    var op, d := MissingDependency(current);
    assert HasId(current, d);
    var i :| 0 <= i < |current| && current[i].id == d;
    var all := current + ops;
    assert all[i] == current[i] && op in all && current[i] in current;
    forall other | other in all && other.selected ensures other.id != d {
      var j :| 0 <= j < |all| && all[j] == other;
      assert i != j;
    }
  }

  /** Whether the last calls have left a selected operation without its dependencies: an append can, nothing but an
      accepted selection mends it. */
  ghost predicate IsOpenAfter(rules: Rules, current: ChangeSet, calls: seq<Call>) {
    if calls == [] then !IsClosed(current.operations)
    else
      var rest, last := calls[..|calls| - 1], calls[|calls| - 1];
      var before := After(rules, current, rest);
      if Revise(rules, before, last).Err? then IsOpenAfter(rules, current, rest)
      else
        match last
        case AppendProposals(_) => IsOpenAfter(rules, current, rest)
        case AppendOperations(ops) => IsOpenAfter(rules, current, rest) || Opens(before.operations, ops)
        case Select(_, _) => false
  }

  lemma AppendOpensExactly(rules: Rules, current: ChangeSet, ops: seq<Operation>)
    requires IsClean(rules.paths, current.operations) && WithOperations(rules, current, ops).Ok?
    ensures IsClosed(WithOperations(rules, current, ops).value.operations) <==> IsClosed(current.operations) && !Opens(current.operations, ops)
  {
    if IsClosed(current.operations) {
      AppendKeepsClosureExactly(rules, current, ops);
    } else {
      OpenStaysOpen(current.operations, ops);
    }
  }

  lemma ProposalsKeepOperations(rules: Rules, current: ChangeSet, proposals: seq<Proposal>)
    requires WithProposals(rules, current, proposals).Ok?
    ensures WithProposals(rules, current, proposals).value.operations == current.operations
  {
  }

  lemma {:induction false} ClosedExactly(rules: Rules, start: Start, calls: seq<Call>)
    requires Begin(rules, start).Ok?
    ensures var first := Begin(rules, start).value;
      IsClosed(After(rules, first, calls).operations) <==> !IsOpenAfter(rules, first, calls)
  {
    if calls != [] {
      var first, rest, last := Begin(rules, start).value, calls[..|calls| - 1], calls[|calls| - 1];
      var before := After(rules, first, rest);
      ClosedExactly(rules, start, rest);
      HistoryIsSound(rules, start, rest);
      if Revise(rules, before, last).Ok? {
        match last {
          case AppendProposals(proposals) => ProposalsKeepOperations(rules, before, proposals);
          case AppendOperations(ops) => AppendOpensExactly(rules, before, ops);
          case Select(files, choices) => SelectIsSound(rules, before, files, choices);
        }
      }
    }
  }

  /** Over whole histories: what is selected in the current revision is a clean batch exactly when no append since the last
      accepted selection, nor the creation, selected an operation without its dependencies. */
  lemma SelectedPartStaysCleanExactly(rules: Rules, start: Start, calls: seq<Call>)
    requires Begin(rules, start).Ok?
    ensures var first := Begin(rules, start).value;
      IsClean(rules.paths, SelectedPart(After(rules, first, calls).operations)) <==> !IsOpenAfter(rules, first, calls)
  {
    HistoryIsSound(rules, start, calls);
    SelectedPartIsCleanExactly(rules.paths, After(rules, Begin(rules, start).value, calls).operations);
    ClosedExactly(rules, start, calls);
  }

  function RejectedFile(): Operation {
    Operation("A", "A", None, [], false, CreateFile("a.md", ""))
  }

  function DependentFile(): Operation {
    Operation("B", "B", None, ["A"], true, CreateFile("b.md", ""))
  }

  lemma RejectedAloneIsClean(rule: PathRule)
    requires rule("a.md", true)
    ensures IsClean(rule, [RejectedFile()])
  {
    var ops := [RejectedFile()];
    assert ops[..0] == [] && GraphOf(ops) == map["A" := []];
    OrderedIsAcyclic(GraphOf(ops), ["A"]);
  }

  lemma GraphOfBoth()
    ensures GraphOf([RejectedFile(), DependentFile()]) == map["A" := [], "B" := ["A"]]
    ensures !Cyclic(GraphOf([RejectedFile(), DependentFile()]))
  {
    var both := [RejectedFile(), DependentFile()];
    assert both[..1] == [RejectedFile()] && both[..1][..0] == [];
    var g := GraphOf(both);
    assert g == map["A" := [], "B" := ["A"]];
    var order := ["A", "B"];
    assert order[..1] == ["A"];
    assert Deps(g, order[0]) == [] && Deps(g, order[1]) == ["A"];
    OrderedIsAcyclic(g, order);
  }

  lemma BothAreClean(rule: PathRule)
    requires rule("a.md", true) && rule("b.md", true)
    ensures IsClean(rule, [RejectedFile(), DependentFile()])
  {
    var a, b := RejectedFile(), DependentFile();
    var both := [a, b];
    GraphOfBoth();
    assert HasId(both, "A") by { assert both[0].id == "A"; }
    assert IsValid(rule, a) && IsValid(rule, b);
    assert Puts(a) == Some("a.md") && Puts(b) == Some("b.md") && Takes(a).None? && Takes(b).None?;
    assert "a.md"[0] != "b.md"[0];
    NoPairs(both, a, b);
  }

  lemma NoPairs(ops: seq<Operation>, a: Operation, b: Operation)
    requires ops == [a, b] && a.kind.CreateFile? && b.kind.CreateFile? && a.kind.path != b.kind.path
    ensures forall x, y | x in ops && y in ops && Collide(x, y) :: x == y
    ensures forall x, y | x in ops && y in ops :: !Succeeds(x, y) && !ParentOf(x, y)
  {
    assert forall op | op in ops :: op == a || op == b;
  }

  /** A rejected operation, then an appended one that depends on it: the append is accepted, and what is selected is not clean. */
  lemma AppendCanOpenTheSelection(rules: Rules)
    requires rules.paths("a.md", true) && rules.paths("b.md", true)
    ensures FromOperations(rules, [RejectedFile()]) == Ok(ChangeSet(1, [], [RejectedFile()]))
    ensures WithOperations(rules, ChangeSet(1, [], [RejectedFile()]), [DependentFile()])
         == Ok(ChangeSet(2, [], [RejectedFile(), DependentFile()]))
    ensures !IsClosed([RejectedFile(), DependentFile()])
    ensures !IsClean(rules.paths, SelectedPart([RejectedFile(), DependentFile()]))
  {
    var a, b := RejectedFile(), DependentFile();
    var both := [a, b];
    RejectedAloneIsClean(rules.paths);
    BothAreClean(rules.paths);
    assert [a] + [b] == both;
    assert b in both && "A" in b.dependsOn && forall op | op in both && op.id == "A" :: !op.selected;
    assert b in SelectedPart(both);
    assert !HasId(SelectedPart(both), "A") by {
      assert forall i | 0 <= i < |SelectedPart(both)| :: SelectedPart(both)[i] in SelectedPart(both);
    }
  }
}
