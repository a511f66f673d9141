/** The draft files of a Change Set, and the merging of a proposal into them. */
module DraftFiles {
  import opened Hunks
  import opened Text

  /** What a later proposal for the same path has to agree on. */
  datatype Binding = Binding(
    assetType: string,
    contentMode: Option<string>,
    assetId: Option<string>,
    group: Option<string>,
    chapterProof: Option<string>,
    baseChecksum: string,
    baseContent: Content
  )

  datatype DraftFile = DraftFile(path: string, binding: Binding, hunks: seq<Hunk>)

  datatype MergeError = BaseMismatch | NoHunk

  predicate DistinctPaths(files: seq<DraftFile>) {
    forall i, j | 0 <= i < j < |files| :: files[i].path != files[j].path
  }

  /** `findIndex` by path. */
  function IndexOf(files: seq<DraftFile>, path: string): (at: nat)
    ensures at <= |files| && (at < |files| ==> files[at].path == path)
    ensures forall i | 0 <= i < at :: files[i].path != path
  {
    if files == [] || files[0].path == path then 0 else 1 + IndexOf(files[1..], path)
  }

  /** The hunks that do not overlap the new range, all of them selected again. */
  function Kept(hunks: seq<Hunk>, range: Range): (kept: seq<Hunk>)
    ensures forall h | h in kept :: h.selected && !Overlap(h.range, range)
    ensures forall h | h in kept :: exists was :: was in hunks && h == was.(selected := true)
    ensures forall was | was in hunks && !Overlap(was.range, range) :: was.(selected := true) in kept
  {
    if hunks == [] then []
    else
      var last := hunks[|hunks| - 1];
      Kept(hunks[..|hunks| - 1], range) + if Overlap(last.range, range) then [] else [last.(selected := true)]
  }

  function MergedHunks(hunks: seq<Hunk>, added: Hunk): seq<Hunk> {
    StableSort(Kept(hunks, added.range) + [added], ByStart)
  }

  function MergeProblem(files: seq<DraftFile>, proposed: DraftFile): Option<MergeError> {
    var at := IndexOf(files, proposed.path);
    if at == |files| then None
    else if files[at].binding != proposed.binding then Some(BaseMismatch)
    else if proposed.hunks == [] then Some(NoHunk)
    else None
  }

  function Merged(files: seq<DraftFile>, proposed: DraftFile): seq<DraftFile>
    requires MergeProblem(files, proposed).None?
  {
    var at := IndexOf(files, proposed.path);
    if at == |files| then files + [proposed]
    else files[at := proposed.(hunks := MergedHunks(files[at].hunks, proposed.hunks[0]))]
  }

  /** The array `mergeDraftFile` works on. */
  class Drafts {
    var files: seq<DraftFile>

    constructor (files: seq<DraftFile>)
      ensures this.files == files
    {
      this.files := files;
    }

    /** `mergeDraftFile`: appends a new path; for a known one drops the hunks the new hunk overlaps and sorts. */
    method Merge(proposed: DraftFile) returns (problem: Option<MergeError>)
      modifies this
      ensures problem == MergeProblem(old(files), proposed)
      ensures files == if problem.None? then Merged(old(files), proposed) else old(files)
    {
      var at := 0;
      while at < |files| && files[at].path != proposed.path
        invariant at <= |files| && files == old(files)
        invariant at + IndexOf(files[at..], proposed.path) == IndexOf(files, proposed.path)
      {
        assert files[at..][1..] == files[at + 1..];
        at := at + 1;
      }
      if at == |files| {
        files := files + [proposed];
        return None;
      }
      var existing := files[at];
      if existing.binding != proposed.binding { return Some(BaseMismatch); }
      if proposed.hunks == [] { return Some(NoHunk); }
      var added := proposed.hunks[0];
      var merged: seq<Hunk> := [];
      for i := 0 to |existing.hunks|
        invariant merged == Kept(existing.hunks[..i], added.range)
      {
        assert existing.hunks[..i + 1][..i] == existing.hunks[..i];
        if !Overlap(existing.hunks[i].range, added.range) { merged := merged + [existing.hunks[i].(selected := true)]; }
      }
      assert existing.hunks[..|existing.hunks|] == existing.hunks;
      files := files[at := proposed.(hunks := StableSort(merged + [added], ByStart))];
      problem := None;
    }
  }

  /** The hunks of a draft: at least one, in bounds, sorted and pairwise apart. */
  predicate IsSound(file: DraftFile) {
    && file.hunks != []
    && AllWithin(file.hunks, file.binding.baseContent)
    && IsSorted(file.hunks, ByStart)
    && AreApart(file.hunks)
  }

  predicate AreSound(files: seq<DraftFile>) {
    DistinctPaths(files) && forall f | f in files :: IsSound(f)
  }

  /** A relation between hunks that only looks at the ranges. */
  ghost predicate OnRanges(p: (Hunk, Hunk) -> bool) {
    forall a: Hunk, b: Hunk, c: Hunk, d: Hunk | a.range == c.range && b.range == d.range :: p(a, b) == p(c, d)
  }

  lemma {:induction false} KeptKeeps(hunks: seq<Hunk>, range: Range, p: (Hunk, Hunk) -> bool)
    requires Pairwise(hunks, p) && OnRanges(p)
    ensures Pairwise(Kept(hunks, range), p)
  {
    if hunks != [] {
      var rest, last := hunks[..|hunks| - 1], hunks[|hunks| - 1];
      assert hunks == rest + [last];
      PairwiseAppend(rest, last, p);
      KeptKeeps(rest, range, p);
      forall h | h in Kept(rest, range) ensures p(h, last.(selected := true)) {
        var was :| was in rest && h == was.(selected := true);
        assert p(was, last) == p(h, last.(selected := true));
      }
      PairwiseAppend(Kept(rest, range), last.(selected := true), p);
    }
  }

  lemma MergedMembers(hunks: seq<Hunk>, added: Hunk)
    ensures forall h :: h in MergedHunks(hunks, added) <==> h in Kept(hunks, added.range) || h == added
    ensures IsSorted(MergedHunks(hunks, added), ByStart)
  {
    var list := Kept(hunks, added.range) + [added];
    SortIsStable(list, ByStart, (a: Hunk, b: Hunk) => true);
    SameElements(MergedHunks(hunks, added), list);
  }

  /** The new hunk is there, and of the old ones exactly those it does not overlap. */
  lemma NewestHunkWins(hunks: seq<Hunk>, added: Hunk)
    ensures added in MergedHunks(hunks, added)
    ensures forall was | was in hunks && !Overlap(was.range, added.range) :: was.(selected := true) in MergedHunks(hunks, added)
    ensures forall h | h in MergedHunks(hunks, added) && h != added ::
        !Overlap(h.range, added.range) && exists was :: was in hunks && h == was.(selected := true)
  {
    MergedMembers(hunks, added);
  }

  lemma MergedHunksAreApart(hunks: seq<Hunk>, added: Hunk)
    requires AreApart(hunks)
    ensures AreApart(MergedHunks(hunks, added))
  {
    KeptKeeps(hunks, added.range, NotOverlapping);
    PairwiseAppend(Kept(hunks, added.range), added, NotOverlapping);
    SortKeepsSymmetric(Kept(hunks, added.range) + [added], ByStart, NotOverlapping);
  }

  /** Merging keeps every file's hunks in bounds, sorted and apart, and leaves the other files alone. */
  lemma MergeKeepsSound(files: seq<DraftFile>, proposed: DraftFile)
    requires AreSound(files) && IsSound(proposed) && |proposed.hunks| == 1
    requires MergeProblem(files, proposed).None?
    ensures AreSound(Merged(files, proposed))
    ensures forall f | f in files && f.path != proposed.path :: f in Merged(files, proposed)
  {
    var at, merged := IndexOf(files, proposed.path), Merged(files, proposed);
    if at < |files| {
      var file := files[at];
      assert IsSound(file);
      MergedMembers(file.hunks, proposed.hunks[0]);
      MergedHunksAreApart(file.hunks, proposed.hunks[0]);
      assert proposed.hunks[0] in MergedHunks(file.hunks, proposed.hunks[0]);
      forall h | h in MergedHunks(file.hunks, proposed.hunks[0]) ensures IsWithin(h.range, file.binding.baseContent) {
      }
      assert IsSound(merged[at]);
    }
    forall f | f in files && f.path != proposed.path ensures f in merged {
      var i :| 0 <= i < |files| && files[i] == f;
      assert merged[i] == f;
    }
  }

  /** After a merge no insertion precedes a replacement at its offset, unless the new hunk replaces where a kept insertion stands. */
  lemma MergeKeepsInsertionsLastExactly(hunks: seq<Hunk>, added: Hunk)
    requires InsertionsLast(hunks)
    ensures InsertionsLast(MergedHunks(hunks, added))
       <==> (IsEmpty(added.range) || forall was | was in hunks && IsEmpty(was.range) :: was.range.start != added.range.start)
  {
    var kept := Kept(hunks, added.range);
    KeptKeeps(hunks, added.range, NotInsertionFirst);
    PairwiseAppend(kept, added, NotInsertionFirst);
    SortIsStable(kept + [added], ByStart, NotInsertionFirst);
    if !IsEmpty(added.range) {
      forall was | was in hunks && IsEmpty(was.range) && was.range.start == added.range.start
        ensures was.(selected := true) in kept && !NotInsertionFirst(was.(selected := true), added)
      {
        assert !Overlap(was.range, added.range);
      }
    }
  }

  /** Where every range is a real replacement, the candidate is the splice of the file's own hunk list. */
  lemma ReplacementsStayReplacements(hunks: seq<Hunk>, added: Hunk)
    requires !IsEmpty(added.range) && forall h | h in hunks :: !IsEmpty(h.range)
    ensures forall h | h in MergedHunks(hunks, added) :: !IsEmpty(h.range)
  {
    MergedMembers(hunks, added);
  }

  // ---- Candidate content ----

  function SelectedHunks(hunks: seq<Hunk>): (chosen: seq<Hunk>)
    ensures forall h :: h in chosen <==> h in hunks && h.selected
  {
    if hunks == [] then []
    else SelectedHunks(hunks[..|hunks| - 1]) + if hunks[|hunks| - 1].selected then [hunks[|hunks| - 1]] else []
  }

  lemma {:induction false} SelectedKeep(hunks: seq<Hunk>, p: (Hunk, Hunk) -> bool)
    requires Pairwise(hunks, p)
    ensures Pairwise(SelectedHunks(hunks), p)
  {
    if hunks != [] {
      var rest, last := hunks[..|hunks| - 1], hunks[|hunks| - 1];
      assert hunks == rest + [last];
      PairwiseAppend(rest, last, p);
      SelectedKeep(rest, p);
      PairwiseAppend(SelectedHunks(rest), last, p);
    }
  }

  /** `finalizeFile`: the candidate is the base with the selected hunks applied. */
  method Candidate(file: DraftFile) returns (candidate: Content)
    requires IsSound(file)
    ensures candidate == ReplaceInTurn(file.binding.baseContent, ApplicationOrder(SelectedHunks(file.hunks)))
    ensures (forall h | h in file.hunks :: !IsEmpty(h.range)) ==> IsSpliceOfSelected(file, candidate)
    ensures InsertionsLast(file.hunks) ==> |candidate| == |file.binding.baseContent| + Growth(SelectedHunks(file.hunks))
  {
    var chosen: seq<Hunk> := [];
    for i := 0 to |file.hunks|
      invariant chosen == SelectedHunks(file.hunks[..i])
    {
      assert file.hunks[..i + 1][..i] == file.hunks[..i];
      if file.hunks[i].selected { chosen := chosen + [file.hunks[i]]; }
    }
    assert file.hunks[..|file.hunks|] == file.hunks;
    candidate := ApplyHunks(file.binding.baseContent, chosen);
    CandidateIsSplice(file);
  }

  ghost predicate IsSpliceOfSelected(file: DraftFile, candidate: Content) {
    var chosen := SelectedHunks(file.hunks);
    && AllWithin(chosen, file.binding.baseContent) && IsAscending(chosen)
    && candidate == Splice(file.binding.baseContent, 0, chosen)
  }

  /** The selected hunks of a sound draft are spliced into its base all at once. */
  lemma CandidateIsSplice(file: DraftFile)
    requires IsSound(file)
    ensures AllForward(ApplicationOrder(SelectedHunks(file.hunks)))
    ensures (forall h | h in file.hunks :: !IsEmpty(h.range)) ==>
        IsSpliceOfSelected(file, ReplaceInTurn(file.binding.baseContent, ApplicationOrder(SelectedHunks(file.hunks))))
    ensures InsertionsLast(file.hunks) ==>
        |ReplaceInTurn(file.binding.baseContent, ApplicationOrder(SelectedHunks(file.hunks)))|
        == |file.binding.baseContent| + Growth(SelectedHunks(file.hunks))
  {
    var base, chosen := file.binding.baseContent, SelectedHunks(file.hunks);
    SelectedKeep(file.hunks, NotOverlapping);
    SelectedKeep(file.hunks, NotAbove(ByStart));
    if forall h | h in file.hunks :: !IsEmpty(h.range) { SortedReplacementsAreSpliced(base, chosen); }
    if InsertionsLast(file.hunks) {
      SelectedKeep(file.hunks, NotInsertionFirst);
      ApplyIsSplice(base, chosen);
    }
  }
}
