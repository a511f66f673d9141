/** Ranges of a text, and the replacement of several of them. A content is a JavaScript string: UTF-16 code units. */
module Hunks {
  type CodeUnit = c: int | 0 <= c < 0x1_0000
  type Content = seq<CodeUnit>

  datatype Range = Range(start: int, end: int)
  datatype Hunk = Hunk(id: string, range: Range, replacement: Content, selected: bool)

  predicate IsWithin(range: Range, content: Content) {
    0 <= range.start <= range.end <= |content|
  }

  predicate IsEmpty(range: Range) {
    range.start == range.end
  }

  /** `rangesOverlap`. */
  predicate Overlap(a: Range, b: Range) {
    a.start < b.end && b.start < a.end
  }

  // ---- Stable sorting ----

  predicate Pairwise(s: seq<Hunk>, p: (Hunk, Hunk) -> bool) {
    forall i, j | 0 <= i < j < |s| :: p(s[i], s[j])
  }

  function NotAbove(key: Hunk -> int): (Hunk, Hunk) -> bool {
    (a: Hunk, b: Hunk) => key(a) <= key(b)
  }

  predicate IsSorted(s: seq<Hunk>, key: Hunk -> int) {
    Pairwise(s, NotAbove(key))
  }

  function Insert(s: seq<Hunk>, h: Hunk, key: Hunk -> int): seq<Hunk> {
    if s == [] || key(s[|s| - 1]) <= key(h) then s + [h]
    else Insert(s[..|s| - 1], h, key) + [s[|s| - 1]]
  }

  /** `Array.prototype.sort` with a key comparison: elements of equal key keep their order. */
  function StableSort(s: seq<Hunk>, key: Hunk -> int): seq<Hunk> {
    if s == [] then [] else Insert(StableSort(s[..|s| - 1], key), s[|s| - 1], key)
  }

  lemma PairwiseAppend(s: seq<Hunk>, h: Hunk, p: (Hunk, Hunk) -> bool)
    ensures Pairwise(s + [h], p) <==> Pairwise(s, p) && forall x | x in s :: p(x, h)
  {
    var t := s + [h];
    if Pairwise(t, p) {
      forall i, j | 0 <= i < j < |s| ensures p(s[i], s[j]) { assert p(t[i], t[j]); }
      forall x | x in s ensures p(x, h) {
        var i :| 0 <= i < |s| && s[i] == x;
        assert p(t[i], t[|s|]);
      }
    }
  }

  lemma {:induction false} InsertIsSorted(s: seq<Hunk>, h: Hunk, key: Hunk -> int)
    requires IsSorted(s, key)
    ensures IsSorted(Insert(s, h, key), key)
    ensures multiset(Insert(s, h, key)) == multiset(s) + multiset{h}
    ensures forall x :: x in Insert(s, h, key) <==> x in s || x == h
  {
    if s == [] || key(s[|s| - 1]) <= key(h) {
      PairwiseAppend(s, h, NotAbove(key));
      assert forall i | 0 <= i < |s| - 1 :: NotAbove(key)(s[i], s[|s| - 1]);
    } else {
      var rest, last := s[..|s| - 1], s[|s| - 1];
      assert s == rest + [last];
      PairwiseAppend(rest, last, NotAbove(key));
      InsertIsSorted(rest, h, key);
      PairwiseAppend(Insert(rest, h, key), last, NotAbove(key));
    }
  }

  lemma {:induction false} InsertKeeps(s: seq<Hunk>, h: Hunk, key: Hunk -> int, p: (Hunk, Hunk) -> bool)
    requires IsSorted(s, key)
    requires forall a, b | key(a) != key(b) :: p(a, b)
    ensures Pairwise(Insert(s, h, key), p) <==> Pairwise(s, p) && forall x | x in s :: p(x, h)
  {
    if s == [] || key(s[|s| - 1]) <= key(h) {
      PairwiseAppend(s, h, p);
    } else {
      var rest, last := s[..|s| - 1], s[|s| - 1];
      assert s == rest + [last];
      InsertKeeps(rest, h, key, p);
      InsertIsSorted(rest, h, key);
      PairwiseAppend(Insert(rest, h, key), last, p);
      PairwiseAppend(rest, last, p);
      assert p(h, last) && p(last, h);
    }
  }

  lemma SameElements(a: seq<Hunk>, b: seq<Hunk>)
    requires multiset(a) == multiset(b)
    ensures forall x :: x in a <==> x in b
  {
    assert forall x :: x in a <==> x in multiset(a);
    assert forall x :: x in b <==> x in multiset(b);
  }

  /** Sorting keeps the members, and keeps every relation between members of equal key as it was. */
  lemma {:induction false} SortIsStable(s: seq<Hunk>, key: Hunk -> int, p: (Hunk, Hunk) -> bool)
    requires forall a, b | key(a) != key(b) :: p(a, b)
    ensures IsSorted(StableSort(s, key), key)
    ensures multiset(StableSort(s, key)) == multiset(s)
    ensures Pairwise(StableSort(s, key), p) <==> Pairwise(s, p)
  {
    if s != [] {
      var rest, last := s[..|s| - 1], s[|s| - 1];
      var sorted := StableSort(rest, key);
      SortIsStable(rest, key, p);
      InsertIsSorted(sorted, last, key);
      InsertKeeps(sorted, last, key, p);
      assert s == rest + [last];
      SameElements(sorted, rest);
      PairwiseAppend(rest, last, p);
    }
  }

  /** A relation that does not care about order holds between the members of the sorted list as well. */
  lemma {:induction false} SortKeepsSymmetric(s: seq<Hunk>, key: Hunk -> int, p: (Hunk, Hunk) -> bool)
    requires forall a, b :: p(a, b) <==> p(b, a)
    requires Pairwise(s, p)
    ensures Pairwise(StableSort(s, key), p)
  {
    if s != [] {
      var rest, last := s[..|s| - 1], s[|s| - 1];
      assert s == rest + [last];
      PairwiseAppend(rest, last, p);
      SortKeepsSymmetric(rest, key, p);
      SortIsStable(rest, key, (a: Hunk, b: Hunk) => true);
      SameElements(StableSort(rest, key), rest);
      InsertKeepsSymmetric(StableSort(rest, key), last, key, p);
    }
  }

  lemma {:induction false} InsertKeepsSymmetric(s: seq<Hunk>, h: Hunk, key: Hunk -> int, p: (Hunk, Hunk) -> bool)
    requires forall a, b :: p(a, b) <==> p(b, a)
    requires Pairwise(s, p) && forall x | x in s :: p(x, h)
    ensures Pairwise(Insert(s, h, key), p)
    ensures forall x :: x in Insert(s, h, key) <==> x in s || x == h
  {
    if s == [] || key(s[|s| - 1]) <= key(h) {
      PairwiseAppend(s, h, p);
    } else {
      var rest, last := s[..|s| - 1], s[|s| - 1];
      assert s == rest + [last];
      PairwiseAppend(rest, last, p);
      InsertKeepsSymmetric(rest, h, key, p);
      assert last in s;
      PairwiseAppend(Insert(rest, h, key), last, p);
    }
  }

  // ---- Application ----

  /** `slice(0, end)` and `slice(start)` of a JavaScript string, for offsets that are not negative. */
  function SliceTo(s: Content, end: nat): Content {
    if end <= |s| then s[..end] else s
  }

  function SliceFrom(s: Content, start: nat): Content {
    if start <= |s| then s[start..] else []
  }

  function Replace(s: Content, h: Hunk): Content
    requires 0 <= h.range.start <= h.range.end
  {
    SliceTo(s, h.range.start) + h.replacement + SliceFrom(s, h.range.end)
  }

  predicate AllWithin(hunks: seq<Hunk>, base: Content) {
    forall h | h in hunks :: IsWithin(h.range, base)
  }

  predicate AllForward(hunks: seq<Hunk>) {
    forall h | h in hunks :: 0 <= h.range.start <= h.range.end
  }

  function ReplaceInTurn(base: Content, order: seq<Hunk>): Content
    requires AllForward(order)
  {
    if order == [] then base
    else Replace(ReplaceInTurn(base, order[..|order| - 1]), order[|order| - 1])
  }

  function ByStart(h: Hunk): int {
    h.range.start
  }

  function ByStartDescending(h: Hunk): int {
    -h.range.start
  }

  function ApplicationOrder(hunks: seq<Hunk>): (order: seq<Hunk>)
    ensures forall h :: h in order <==> h in hunks
  {
    SortIsStable(hunks, ByStartDescending, (a: Hunk, b: Hunk) => true);
    SameElements(StableSort(hunks, ByStartDescending), hunks);
    StableSort(hunks, ByStartDescending)
  }

  lemma ReplaceNext(base: Content, order: seq<Hunk>, i: nat)
    requires AllForward(order) && i < |order|
    ensures AllForward(order[..i]) && AllForward(order[..i + 1]) && order[i] in order
    ensures ReplaceInTurn(base, order[..i + 1]) == Replace(ReplaceInTurn(base, order[..i]), order[i])
  {
    assert order[..i + 1][..i] == order[..i];
  }

  /** `applyHunks`: a stable descending sort, then one replacement after the other in the running text. */
  method ApplyHunks(base: Content, hunks: seq<Hunk>) returns (candidate: Content)
    requires AllWithin(hunks, base)
    ensures candidate == ReplaceInTurn(base, ApplicationOrder(hunks))
  {
    var order := ApplicationOrder(hunks);
    assert AllForward(order);
    candidate := base;
    for i := 0 to |order|
      invariant candidate == ReplaceInTurn(base, order[..i])
    {
      ReplaceNext(base, order, i);
      candidate := Replace(candidate, order[i]);
    }
    assert order[..|order|] == order;
  }

  /** From the right: each hunk ends where or before the one before it starts. */
  predicate IsDescending(order: seq<Hunk>) {
    Pairwise(order, (a: Hunk, b: Hunk) => b.range.end <= a.range.start)
  }

  predicate IsAscending(hunks: seq<Hunk>) {
    Pairwise(hunks, (a: Hunk, b: Hunk) => a.range.end <= b.range.start)
  }

  /** All replacements at once: the text of `base` from `cursor` on, with every range exchanged for its replacement. */
  function Splice(base: Content, cursor: nat, hunks: seq<Hunk>): Content
    requires cursor <= |base| && AllWithin(hunks, base) && IsAscending(hunks)
    requires hunks != [] ==> cursor <= hunks[0].range.start
    decreases |hunks|
  {
    if hunks == [] then base[cursor..]
    else
      AscendingTail(hunks);
      base[cursor..hunks[0].range.start] + hunks[0].replacement + Splice(base, hunks[0].range.end, hunks[1..])
  }

  lemma AscendingTail(hunks: seq<Hunk>)
    requires IsAscending(hunks) && hunks != []
    ensures IsAscending(hunks[1..]) && forall h | h in hunks[1..] :: hunks[0].range.end <= h.range.start && h in hunks
  {
  }

  function Reverse(s: seq<Hunk>): (r: seq<Hunk>)
    ensures |r| == |s| && forall i | 0 <= i < |s| :: r[i] == s[|s| - 1 - i]
  {
    if s == [] then [] else [s[|s| - 1]] + Reverse(s[..|s| - 1])
  }

  lemma ReverseAscends(order: seq<Hunk>, base: Content)
    requires AllWithin(order, base) && IsDescending(order)
    ensures AllWithin(Reverse(order), base) && IsAscending(Reverse(order))
  {
  }

  /** Growth in length: what is put in less what is taken out. */
  function Growth(hunks: seq<Hunk>): int {
    if hunks == [] then 0
    else Growth(hunks[..|hunks| - 1]) + |hunks[|hunks| - 1].replacement| - (hunks[|hunks| - 1].range.end - hunks[|hunks| - 1].range.start)
  }

  /** Replacing from right to left is the simultaneous splice, and so also fixes the length. */
  lemma {:induction false} RightToLeftIsSplice(base: Content, order: seq<Hunk>, cursor: nat)
    requires AllWithin(order, base) && IsDescending(order)
    requires if order == [] then cursor <= |base| else cursor <= order[|order| - 1].range.start
    ensures AllWithin(Reverse(order), base) && IsAscending(Reverse(order))
    ensures ReplaceInTurn(base, order) == base[..cursor] + Splice(base, cursor, Reverse(order))
    ensures |ReplaceInTurn(base, order)| == |base| + Growth(order)
  {
    ReverseAscends(order, base);
    if order != [] {
      var right, h := order[..|order| - 1], order[|order| - 1];
      assert right != [] ==> h.range.end <= right[|right| - 1].range.start;
      RightToLeftIsSplice(base, right, h.range.end);
      assert Reverse(order)[1..] == Reverse(right) && Reverse(order)[0] == h;
      ReplaceInFront(base, h, cursor, Splice(base, h.range.end, Reverse(right)));
    }
  }

  lemma ReplaceInFront(base: Content, h: Hunk, cursor: nat, tail: Content)
    requires IsWithin(h.range, base) && cursor <= h.range.start
    ensures Replace(base[..h.range.end] + tail, h) == base[..cursor] + (base[cursor..h.range.start] + h.replacement + tail)
  {
    var s := base[..h.range.end] + tail;
    assert s[..h.range.start] == base[..h.range.start] == base[..cursor] + base[cursor..h.range.start];
    assert s[h.range.end..] == tail;
  }

  // ---- Which lists of hunks are applied as intended ----

  function NotOverlapping(a: Hunk, b: Hunk): bool {
    !Overlap(a.range, b.range)
  }

  /** An insertion at an offset is not listed before a replacement that starts there. */
  function NotInsertionFirst(a: Hunk, b: Hunk): bool {
    !(a.range.start == b.range.start && IsEmpty(a.range) && !IsEmpty(b.range))
  }

  predicate AreApart(hunks: seq<Hunk>) {
    Pairwise(hunks, NotOverlapping)
  }

  predicate InsertionsLast(hunks: seq<Hunk>) {
    Pairwise(hunks, NotInsertionFirst)
  }

  /** The order of application goes strictly leftwards exactly when no insertion is listed before a replacement at its offset. */
  lemma DescendsExactlyIfInsertionsLast(base: Content, hunks: seq<Hunk>)
    requires AllWithin(hunks, base) && AreApart(hunks)
    ensures IsDescending(ApplicationOrder(hunks)) <==> InsertionsLast(hunks)
  {
    var order := ApplicationOrder(hunks);
    SortIsStable(hunks, ByStartDescending, NotInsertionFirst);
    SortKeepsSymmetric(hunks, ByStartDescending, NotOverlapping);
    forall i, j | 0 <= i < j < |order|
      ensures order[j].range.end <= order[i].range.start <==> NotInsertionFirst(order[i], order[j])
    {
      assert order[i] in hunks && order[j] in hunks;
      assert NotOverlapping(order[i], order[j]) && NotAbove(ByStartDescending)(order[i], order[j]);
    }
  }

  lemma {:induction false} SortKeepsGrowth(s: seq<Hunk>, key: Hunk -> int)
    ensures Growth(StableSort(s, key)) == Growth(s)
  {
    if s != [] {
      SortKeepsGrowth(s[..|s| - 1], key);
      InsertGrows(StableSort(s[..|s| - 1], key), s[|s| - 1], key);
    }
  }

  lemma {:induction false} InsertGrows(s: seq<Hunk>, h: Hunk, key: Hunk -> int)
    ensures Growth(Insert(s, h, key)) == Growth(s) + |h.replacement| - (h.range.end - h.range.start)
  {
    if s == [] || key(s[|s| - 1]) <= key(h) {
      assert (s + [h])[..|s|] == s;
    } else {
      var inner := Insert(s[..|s| - 1], h, key);
      InsertGrows(s[..|s| - 1], h, key);
      assert (inner + [s[|s| - 1]])[..|inner|] == inner;
    }
  }

  /** What `applyHunks` computes: the simultaneous splice, grown by what the replacements add. */
  lemma ApplyIsSplice(base: Content, hunks: seq<Hunk>)
    requires AllWithin(hunks, base) && AreApart(hunks) && InsertionsLast(hunks)
    ensures AllWithin(Reverse(ApplicationOrder(hunks)), base) && IsAscending(Reverse(ApplicationOrder(hunks)))
    ensures ReplaceInTurn(base, ApplicationOrder(hunks)) == Splice(base, 0, Reverse(ApplicationOrder(hunks)))
    ensures |ReplaceInTurn(base, ApplicationOrder(hunks))| == |base| + Growth(hunks)
  {
    DescendsExactlyIfInsertionsLast(base, hunks);
    RightToLeftIsSplice(base, ApplicationOrder(hunks), 0);
    SortKeepsGrowth(hunks, ByStartDescending);
  }

  lemma {:induction false} StrictlyAscendingReverses(hunks: seq<Hunk>)
    requires forall i, j | 0 <= i < j < |hunks| :: hunks[i].range.start < hunks[j].range.start
    ensures StableSort(hunks, ByStartDescending) == Reverse(hunks)
  {
    if hunks != [] {
      var rest, last := hunks[..|hunks| - 1], hunks[|hunks| - 1];
      StrictlyAscendingReverses(rest);
      assert forall h | h in Reverse(rest) :: h.range.start < last.range.start;
      InsertInFront(Reverse(rest), last);
    }
  }

  lemma {:induction false} InsertInFront(s: seq<Hunk>, h: Hunk)
    requires forall x | x in s :: x.range.start < h.range.start
    ensures Insert(s, h, ByStartDescending) == [h] + s
  {
    if s != [] {
      InsertInFront(s[..|s| - 1], h);
      assert s == s[..|s| - 1] + [s[|s| - 1]];
    }
  }

  /** For ranges that are not empty, sorted and apart, the list itself is what is spliced. */
  lemma SortedReplacementsAreSpliced(base: Content, hunks: seq<Hunk>)
    requires AllWithin(hunks, base) && AreApart(hunks) && IsSorted(hunks, ByStart)
    requires forall h | h in hunks :: !IsEmpty(h.range)
    ensures IsAscending(hunks)
    ensures ReplaceInTurn(base, ApplicationOrder(hunks)) == Splice(base, 0, hunks)
  {
    forall i, j | 0 <= i < j < |hunks| ensures hunks[i].range.end <= hunks[j].range.start {
      assert NotOverlapping(hunks[i], hunks[j]) && NotAbove(ByStart)(hunks[i], hunks[j]);
    }
    StrictlyAscendingReverses(hunks);
    assert Reverse(Reverse(hunks)) == hunks;
    ApplyIsSplice(base, hunks);
  }

  /** In any text, an insertion listed before a replacement at its offset can be lost: the replacement eats it instead of the base. */
  lemma InsertionFirstIsLost(base: Content, at: nat, end: nat, lost: CodeUnit, insertion: Hunk, deletion: Hunk)
    requires at < end <= |base| && lost != base[end - 1]
    requires insertion.range == Range(at, at) && insertion.replacement == [lost]
    requires deletion.range == Range(at, end) && deletion.replacement == []
    ensures AllWithin([insertion, deletion], base) && AreApart([insertion, deletion]) && IsAscending([insertion, deletion])
    ensures ReplaceInTurn(base, ApplicationOrder([insertion, deletion])) == base[..at] + base[end - 1..]
    ensures ReplaceInTurn(base, ApplicationOrder([insertion, deletion])) != Splice(base, 0, [insertion, deletion])
  {
    TwoInTurn(base, insertion, deletion);
    SpliceOfTwo(base, insertion, deletion);
    LostInsertion(base, at, end, lost, insertion, deletion);
    assert Splice(base, 0, [insertion, deletion])[at] == lost;
    assert (base[..at] + base[end - 1..])[at] == base[end - 1];
  }

  lemma LostInsertion(base: Content, at: nat, end: nat, lost: CodeUnit, insertion: Hunk, deletion: Hunk)
    requires at < end <= |base|
    requires insertion.range == Range(at, at) && insertion.replacement == [lost]
    requires deletion.range == Range(at, end) && deletion.replacement == []
    ensures Replace(Replace(base, insertion), deletion) == base[..at] + base[end - 1..]
  {
    var inserted := Replace(base, insertion);
    assert inserted == base[..at] + [lost] + base[at..];
    assert inserted[end..] == base[end - 1..];
  }

  lemma TwoInTurn(base: Content, a: Hunk, b: Hunk)
    requires IsWithin(a.range, base) && IsWithin(b.range, base) && a.range.start == b.range.start
    ensures ApplicationOrder([a, b]) == [a, b]
    ensures ReplaceInTurn(base, [a, b]) == Replace(Replace(base, a), b)
  {
    assert [a, b][..1] == [a] && [a][..0] == [];
    assert StableSort([a], ByStartDescending) == [a];
    assert ReplaceInTurn(base, [a]) == Replace(base, a);
  }

  lemma SpliceOfTwo(base: Content, a: Hunk, b: Hunk)
    requires IsWithin(a.range, base) && IsWithin(b.range, base) && a.range.end <= b.range.start
    ensures AllWithin([a, b], base) && IsAscending([a, b])
    ensures Splice(base, 0, [a, b])
         == base[..a.range.start] + a.replacement + base[a.range.end..b.range.start] + b.replacement + base[b.range.end..]
  {
    assert [a, b][1..] == [b] && [b][1..] == [];
    assert Splice(base, a.range.end, [b]) == base[a.range.end..b.range.start] + b.replacement + base[b.range.end..];
  }
}
