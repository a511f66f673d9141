/** Change Set revisions: how proposals and operations are created, appended and selected. */
module Revisions {
  import opened DraftFiles
  import opened Hunks
  import opened Preflight
  import opened Segments
  import opened Text

  datatype Code =
    | PathRejected
    | ContentModeInvalid
    | BaseMismatched
    | RangeInvalid
    | GroupInvalid
    | ProofInvalid
    | Invalid
    | OperationInvalid
    | SelectionInvalid
    | SelectionDependencyMissing
    | GroupSplit

  datatype Result<+T> = Ok(value: T) | Err(code: Code)

  /** A chapter transition proof: what of it is compared with its target, and its checksum over all it says. */
  datatype ChapterProof = ChapterProof(chapterId: string, stableRef: string, checksum: string, rest: string)

  /** The path guards, the content hash and the parsing of a transition proof, which stay uninterpreted. */
  datatype Rules = Rules(paths: PathRule, guard: string -> Option<string>, sha256: Content -> string, proof: ChapterProof -> bool)

  datatype Proposal = Proposal(
    binding: Binding,
    path: string,
    unit: Unit,
    range: Range,
    replacement: Content,
    hunkId: string,
    proof: Option<ChapterProof>
  )

  datatype ChangeSet = ChangeSet(revision: nat, files: seq<DraftFile>, operations: seq<Operation>)

  /** A missing `selectedHunkIds` is `None`. */
  datatype FileSelection = FileSelection(path: string, selected: bool, hunkIds: Option<set<string>>)

  datatype OperationSelection = OperationSelection(id: string, selected: bool)

  // ---- Drafts of proposals ----

  /** The conditions of `cloneChapterStatusTransitionProof`: the proof is about the very chapter that is proposed. */
  predicate IsAboutTarget(proof: ChapterProof, proposal: Proposal) {
    && proposal.binding.assetType == "chapter"
    && proposal.binding.assetId == Some(proof.chapterId)
    && proposal.path == "chapters/" + proof.chapterId + ".md"
    && proof.stableRef == "chapter:" + proof.chapterId
  }

  function ProofChecksum(proof: Option<ChapterProof>): Option<string> {
    if proof.Some? then Some(proof.value.checksum) else None
  }

  /** `createDraftFile`. Of the proposal's binding the proof's checksum is taken from the proof itself. */
  function DraftOf(rules: Rules, proposal: Proposal): (r: Result<DraftFile>)
    ensures r.Ok? ==> IsSound(r.value) && |r.value.hunks| == 1 && r.value.hunks[0].selected
    ensures r.Ok? && proposal.proof.Some? ==> rules.proof(proposal.proof.value) && IsAboutTarget(proposal.proof.value, proposal)
    ensures r.Ok? ==> r.value.binding == proposal.binding.(chapterProof := ProofChecksum(proposal.proof))
  {
    var binding := proposal.binding;
    var path := rules.guard(proposal.path);
    var range := CharacterRange(binding.baseContent, proposal.unit, proposal.range);
    if path.None? then Err(PathRejected)
    else if binding.contentMode.Some? && binding.contentMode.value != "body" && binding.contentMode.value != "serialized_chapter" then
      Err(ContentModeInvalid)
    else if binding.contentMode == Some("serialized_chapter") && binding.assetType != "chapter" then Err(ContentModeInvalid)
    else if rules.sha256(binding.baseContent) != binding.baseChecksum then Err(BaseMismatched)
    else if range.None? then Err(RangeInvalid)
    else if binding.group.Some? && !IsOperationIdentifier(binding.group.value) then Err(GroupInvalid)
    else if proposal.proof.Some? && !(rules.proof(proposal.proof.value) && IsAboutTarget(proposal.proof.value, proposal)) then Err(ProofInvalid)
    else
      Ok(DraftFile(path.value, binding.(chapterProof := ProofChecksum(proposal.proof)),
                   [Hunk(proposal.hunkId, range.value, proposal.replacement, true)]))
  }

  function DraftEach(rules: Rules, proposals: seq<Proposal>): (r: Result<seq<DraftFile>>)
    ensures r.Ok? ==> |r.value| == |proposals| && forall f | f in r.value :: IsFreshDraft(f)
  {
    if proposals == [] then Ok([])
    else
      var first := DraftOf(rules, proposals[0]);
      if first.Err? then Err(first.code)
      else
        var rest := DraftEach(rules, proposals[1..]);
        if rest.Err? then rest else Ok([first.value] + rest.value)
  }

  predicate IsFreshDraft(file: DraftFile) {
    IsSound(file) && |file.hunks| == 1 && file.hunks[0].selected
  }

  /** `createDraftFiles`: at least one proposal, and no path twice. */
  function DraftsOf(rules: Rules, proposals: seq<Proposal>): (r: Result<seq<DraftFile>>)
    ensures r.Ok? ==> AreSound(r.value) && forall f | f in r.value :: IsFreshDraft(f)
  {
    if proposals == [] then Err(Invalid)
    else
      var drafts := DraftEach(rules, proposals);
      if drafts.Ok? && !DistinctPaths(drafts.value) then Err(Invalid) else drafts
  }

  // ---- Consistency groups ----

  /** What one file shows of its group: the state of each hunk, or "not selected" when it has none. */
  function FileMarks(files: seq<DraftFile>): set<(string, bool)> {
    (set f, h | f in files && f.binding.group.Some? && h in f.hunks :: (f.binding.group.value, h.selected))
    + (set f | f in files && f.binding.group.Some? && f.hunks == [] :: (f.binding.group.value, false))
  }

  function OperationMarks(ops: seq<Operation>): set<(string, bool)> {
    set op | op in ops && op.group.Some? :: (op.group.value, op.selected)
  }

  /** Every consistency group is wholly selected or wholly rejected. */
  predicate IsWhole(files: seq<DraftFile>, ops: seq<Operation>) {
    forall m | m in FileMarks(files) + OperationMarks(ops) :: (m.0, !m.1) !in FileMarks(files) + OperationMarks(ops)
  }

  /** `states` holds the marks by group. */
  predicate Holds(states: map<string, set<bool>>, marks: set<(string, bool)>) {
    && (forall m | m in marks :: m.0 in states && m.1 in states[m.0])
    && (forall g, b | g in states && b in states[g] :: (g, b) in marks)
  }

  function WithMark(states: map<string, set<bool>>, group: Option<string>, selected: bool): map<string, set<bool>> {
    if group.None? then states
    else states[group.value := (if group.value in states then states[group.value] else {}) + {selected}]
  }

  lemma MarkHolds(states: map<string, set<bool>>, marks: set<(string, bool)>, group: Option<string>, selected: bool)
    requires Holds(states, marks)
    ensures Holds(WithMark(states, group, selected), if group.None? then marks else marks + {(group.value, selected)})
  {
  }

  lemma OnlySplitGroupsHaveTwoStates(states: set<bool>)
    ensures |states| > 1 <==> true in states && false in states
  {
    assert forall b | b in states :: b == true || b == false;
    if true in states && false in states {
      assert states == {true, false};
    } else if true in states {
      assert states == {true};
    } else if false in states {
      assert states == {false};
    } else {
      assert states == {};
    }
  }

  lemma FileMarksGrow(files: seq<DraftFile>, file: DraftFile)
    ensures FileMarks(files + [file]) == FileMarks(files) + FileMarks([file])
  {
    assert forall f | f in files + [file] :: f in files || f in [file];
    assert forall f | f in files :: f in files + [file];
    assert file in files + [file] && file in [file];
  }

  lemma OperationMarksGrow(ops: seq<Operation>, op: Operation)
    ensures OperationMarks(ops + [op]) == OperationMarks(ops) + (if op.group.Some? then {(op.group.value, op.selected)} else {})
  {
    assert forall o | o in ops + [op] :: o in ops || o == op;
    assert forall o | o in ops :: o in ops + [op];
    assert op in ops + [op];
  }

  /** One file's turn in `assertConsistencyGroupsAreIndivisible`. */
  method MarkFile(states: map<string, set<bool>>, ghost marks: set<(string, bool)>, file: DraftFile) returns (next: map<string, set<bool>>)
    requires Holds(states, marks)
    ensures Holds(next, marks + FileMarks([file]))
  {
    var group := file.binding.group;
    assert file in [file] && forall f | f in [file] :: f == file;
    if file.hunks == [] {
      MarkHolds(states, marks, group, false);
      next := WithMark(states, group, false);
      assert FileMarks([file]) == if group.Some? then {(group.value, false)} else {};
      return;
    }
    next := states;
    ghost var seen := marks;
    for i := 0 to |file.hunks|
      invariant Holds(next, seen)
      invariant seen == marks + (set h | h in file.hunks[..i] && group.Some? :: (group.value, h.selected))
    {
      MarkHolds(next, seen, group, file.hunks[i].selected);
      next := WithMark(next, group, file.hunks[i].selected);
      seen := if group.None? then seen else seen + {(group.value, file.hunks[i].selected)};
      assert file.hunks[..i + 1] == file.hunks[..i] + [file.hunks[i]];
    }
    assert file.hunks[..|file.hunks|] == file.hunks;
    assert FileMarks([file]) == set h | h in file.hunks && group.Some? :: (group.value, h.selected);
  }

  /** `assertConsistencyGroupsAreIndivisible`: whether no group shows both states. */
  method AreIndivisible(files: seq<DraftFile>, ops: seq<Operation>) returns (indivisible: bool)
    ensures indivisible <==> IsWhole(files, ops)
  {
    var states: map<string, set<bool>> := map[];
    for i := 0 to |files|
      invariant Holds(states, FileMarks(files[..i]))
    {
      states := MarkFile(states, FileMarks(files[..i]), files[i]);
      FileMarksGrow(files[..i], files[i]);
      assert files[..i + 1] == files[..i] + [files[i]];
    }
    assert files[..|files|] == files;
    for i := 0 to |ops|
      invariant Holds(states, FileMarks(files) + OperationMarks(ops[..i]))
    {
      MarkHolds(states, FileMarks(files) + OperationMarks(ops[..i]), ops[i].group, ops[i].selected);
      OperationMarksGrow(ops[..i], ops[i]);
      assert ops[..i + 1] == ops[..i] + [ops[i]];
      states := WithMark(states, ops[i].group, ops[i].selected);
      assert FileMarks(files) + OperationMarks(ops[..i + 1])
          == FileMarks(files) + OperationMarks(ops[..i]) + (if ops[i].group.Some? then {(ops[i].group.value, ops[i].selected)} else {});
    }
    assert ops[..|ops|] == ops;
    forall g | g in states ensures |states[g]| > 1 <==> true in states[g] && false in states[g] {
      OnlySplitGroupsHaveTwoStates(states[g]);
    }
    indivisible := forall g | g in states :: !(|states[g]| > 1);
  }

  // ---- Revisions ----

  /** `finalizeOperationsChangeSet`. */
  ghost function Finalized(rules: Rules, revision: nat, files: seq<DraftFile>, ops: seq<Operation>): Result<ChangeSet> {
    if !IsClean(rules.paths, ops) then Err(OperationInvalid)
    else if !IsWhole(files, ops) then Err(GroupSplit)
    else Ok(ChangeSet(revision, files, ops))
  }

  method Finalize(rules: Rules, revision: nat, files: seq<DraftFile>, ops: seq<Operation>) returns (r: Result<ChangeSet>)
    ensures r == Finalized(rules, revision, files, ops)
  {
    var problem, _ := PreflightOperations(rules.paths, ops);
    if problem.Some? { return Err(OperationInvalid); }
    var indivisible := AreIndivisible(files, ops);
    r := if indivisible then Ok(ChangeSet(revision, files, ops)) else Err(GroupSplit);
  }

  /** `createChangeSetRevisionBatch`. */
  function FromProposals(rules: Rules, proposals: seq<Proposal>): Result<ChangeSet> {
    var drafts := DraftsOf(rules, proposals);
    if drafts.Err? then Err(drafts.code) else Ok(ChangeSet(1, drafts.value, []))
  }

  /** `createOperationsChangeSetRevisionBatch`. */
  ghost function FromOperations(rules: Rules, ops: seq<Operation>): Result<ChangeSet> {
    if ops == [] then Err(OperationInvalid) else Finalized(rules, 1, [], ops)
  }

  /** `toAllSelectedDraft`. */
  function AllSelected(file: DraftFile): DraftFile {
    file.(hunks := seq(|file.hunks|, i requires 0 <= i < |file.hunks| => file.hunks[i].(selected := true)))
  }

  function AllFilesSelected(files: seq<DraftFile>): seq<DraftFile> {
    seq(|files|, i requires 0 <= i < |files| => AllSelected(files[i]))
  }

  function MergeEach(files: seq<DraftFile>, drafts: seq<DraftFile>): Result<seq<DraftFile>>
    decreases |drafts|
  {
    if drafts == [] then Ok(files)
    else
      match MergeProblem(files, drafts[0])
      case Some(BaseMismatch) => Err(BaseMismatched)
      case Some(NoHunk) => Err(Invalid)
      case None => MergeEach(Merged(files, drafts[0]), drafts[1..])
  }

  lemma MergeNext(files: seq<DraftFile>, drafts: seq<DraftFile>, i: nat)
    requires i < |drafts|
    ensures var problem := MergeProblem(files, drafts[i]);
      MergeEach(files, drafts[i..]) ==
        if problem.None? then MergeEach(Merged(files, drafts[i]), drafts[i + 1..])
        else Err(if problem.value.BaseMismatch? then BaseMismatched else Invalid)
  {
    assert drafts[i..][1..] == drafts[i + 1..];
  }

  /** `appendChangeSetProposals`: every hunk is selected again, and the proposals are merged one by one. */
  ghost function WithProposals(rules: Rules, current: ChangeSet, proposals: seq<Proposal>): Result<ChangeSet> {
    var drafts := DraftsOf(rules, proposals);
    if drafts.Err? then Err(drafts.code)
    else
      var files := MergeEach(AllFilesSelected(current.files), drafts.value);
      if files.Err? then Err(files.code)
      else if current.operations == [] then Ok(ChangeSet(current.revision + 1, files.value, []))
      else Finalized(rules, current.revision + 1, files.value, current.operations)
  }

  method AppendProposals(rules: Rules, current: ChangeSet, proposals: seq<Proposal>) returns (r: Result<ChangeSet>)
    ensures r == WithProposals(rules, current, proposals)
  {
    var drafts := DraftsOf(rules, proposals);
    if drafts.Err? { return Err(drafts.code); }
    var working := new Drafts(AllFilesSelected(current.files));
    for i := 0 to |drafts.value|
      invariant MergeEach(working.files, drafts.value[i..]) == MergeEach(AllFilesSelected(current.files), drafts.value)
    {
      MergeNext(working.files, drafts.value, i);
      var problem := working.Merge(drafts.value[i]);
      if problem.Some? { return Err(if problem.value.BaseMismatch? then BaseMismatched else Invalid); }
    }
    if current.operations == [] { return Ok(ChangeSet(current.revision + 1, working.files, [])); }
    r := Finalize(rules, current.revision + 1, working.files, current.operations);
  }

  /** `appendChangeSetOperations`. */
  ghost function WithOperations(rules: Rules, current: ChangeSet, ops: seq<Operation>): Result<ChangeSet> {
    if ops == [] then Err(OperationInvalid)
    else Finalized(rules, current.revision + 1, current.files, current.operations + ops)
  }

  /** What the last selection that names `id` says. */
  function ChoiceOf(selections: seq<OperationSelection>, id: string): Option<bool> {
    if selections == [] then None
    else if selections[|selections| - 1].id == id then Some(selections[|selections| - 1].selected)
    else ChoiceOf(selections[..|selections| - 1], id)
  }

  function Reselected(ops: seq<Operation>, selections: seq<OperationSelection>): (r: seq<Operation>)
    ensures |r| == |ops| && forall i | 0 <= i < |ops| :: SameButSelection(ops[i], r[i])
  {
    seq(|ops|, i requires 0 <= i < |ops| =>
      var choice := ChoiceOf(selections, ops[i].id);
      if choice.Some? then ops[i].(selected := choice.value) else ops[i])
  }

  predicate SameButSelection(a: Operation, b: Operation) {
    a.(selected := true) == b.(selected := true)
  }

  /** Whatever is selected has all its dependencies selected. */
  predicate IsClosed(ops: seq<Operation>) {
    forall op, d | op in ops && op.selected && d in op.dependsOn :: exists other :: other in ops && other.selected && other.id == d
  }

  /** `selectChangeSetOperations`. */
  function SelectOperations(rules: Rules, ops: seq<Operation>, selections: seq<OperationSelection>): Result<seq<Operation>> {
    var chosen := Reselected(ops, selections);
    if ops == [] then if selections == [] then Ok([]) else Err(SelectionInvalid)
    else if exists s :: s in selections && !HasId(ops, s.id) then Err(SelectionInvalid)
    else if !IsClosed(chosen) then Err(SelectionDependencyMissing)
    else if exists op :: op in chosen && !IsValid(rules.paths, op) then Err(OperationInvalid)
    else Ok(chosen)
  }

  function FileChoiceOf(selections: seq<FileSelection>, path: string): Option<FileSelection> {
    if selections == [] then None
    else if selections[|selections| - 1].path == path then Some(selections[|selections| - 1])
    else FileChoiceOf(selections[..|selections| - 1], path)
  }

  predicate HasHunk(file: DraftFile, id: string) {
    exists h :: h in file.hunks && h.id == id
  }

  predicate NamesItsHunks(file: DraftFile, choice: Option<FileSelection>) {
    choice.Some? && choice.value.hunkIds.Some? ==> forall id | id in choice.value.hunkIds.value :: HasHunk(file, id)
  }

  function SelectedAs(file: DraftFile, choice: Option<FileSelection>): DraftFile {
    if choice.None? then file
    else
      var ids := choice.value.hunkIds;
      file.(hunks := seq(|file.hunks|, i requires 0 <= i < |file.hunks| =>
        file.hunks[i].(selected := choice.value.selected && (ids.None? || file.hunks[i].id in ids.value))))
  }

  function SelectFiles(files: seq<DraftFile>, selections: seq<FileSelection>): Result<seq<DraftFile>> {
    if exists s :: s in selections && forall f | f in files :: f.path != s.path then Err(SelectionInvalid)
    else if exists f :: f in files && !NamesItsHunks(f, FileChoiceOf(selections, f.path)) then Err(SelectionInvalid)
    else Ok(seq(|files|, i requires 0 <= i < |files| => SelectedAs(files[i], FileChoiceOf(selections, files[i].path))))
  }

  /** `selectChangeSetRevision`. */
  ghost function WithSelection(rules: Rules, current: ChangeSet, fileChoices: seq<FileSelection>, choices: seq<OperationSelection>): Result<ChangeSet> {
    var files := SelectFiles(current.files, fileChoices);
    var ops := SelectOperations(rules, current.operations, choices);
    if files.Err? then Err(files.code)
    else if ops.Err? then Err(ops.code)
    else if !IsWhole(files.value, ops.value) then Err(GroupSplit)
    else if ops.value == [] then Ok(ChangeSet(current.revision + 1, files.value, []))
    else Finalized(rules, current.revision + 1, files.value, ops.value)
  }

  method SelectRevision(rules: Rules, current: ChangeSet, fileChoices: seq<FileSelection>, choices: seq<OperationSelection>) returns (r: Result<ChangeSet>)
    ensures r == WithSelection(rules, current, fileChoices, choices)
  {
    var files := SelectFiles(current.files, fileChoices);
    if files.Err? { return Err(files.code); }
    var ops := SelectOperations(rules, current.operations, choices);
    if ops.Err? { return Err(ops.code); }
    var indivisible := AreIndivisible(files.value, ops.value);
    if !indivisible { return Err(GroupSplit); }
    if ops.value == [] { return Ok(ChangeSet(current.revision + 1, files.value, [])); }
    r := Finalize(rules, current.revision + 1, files.value, ops.value);
  }
}
