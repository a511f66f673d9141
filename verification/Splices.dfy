/** Exactly when a list of hunks is applied as the simultaneous replacement of its ranges. */
module Splices {
  import opened DraftFiles
  import opened Hunks
  import opened Revisions
  import opened Segments
  import opened Text

  /** From the right, and at one offset the replacement before the insertions there: the order in which replacing
      one range after the other disturbs none that is still to come. */
  function FromTheRight(h: Hunk): int {
    -2 * h.range.start - if IsEmpty(h.range) then 0 else 1
  }

  function RightOrder(hunks: seq<Hunk>): seq<Hunk> {
    StableSort(hunks, FromTheRight)
  }

  lemma RightOrderDescends(base: Content, hunks: seq<Hunk>)
    requires AllWithin(hunks, base) && AreApart(hunks)
    ensures AllWithin(Reverse(RightOrder(hunks)), base) && IsAscending(Reverse(RightOrder(hunks)))
    ensures AllWithin(RightOrder(hunks), base) && IsDescending(RightOrder(hunks))
  {
    var order := RightOrder(hunks);
    SortIsStable(hunks, FromTheRight, (a: Hunk, b: Hunk) => true);
    SortKeepsSymmetric(hunks, FromTheRight, NotOverlapping);
    SameElements(order, hunks);
    forall i, j | 0 <= i < j < |order| ensures order[j].range.end <= order[i].range.start {
      assert order[i] in hunks && order[j] in hunks;
      assert NotOverlapping(order[i], order[j]) && NotAbove(FromTheRight)(order[i], order[j]);
    }
    ReverseAscends(order, base);
  }

  /** What a list of hunks means: every range of the base exchanged for its replacement, all at once. */
  function Simultaneous(base: Content, hunks: seq<Hunk>): Content
    requires AllWithin(hunks, base) && AreApart(hunks)
  {
    RightOrderDescends(base, hunks);
    Splice(base, 0, Reverse(RightOrder(hunks)))
  }

  predicate SameRanges(a: seq<Hunk>, b: seq<Hunk>) {
    |a| == |b| && forall i | 0 <= i < |a| :: a[i].range == b[i].range
  }

  lemma RangesDecide(base: Content, a: seq<Hunk>, b: seq<Hunk>)
    requires SameRanges(a, b)
    ensures AllWithin(a, base) ==> AllWithin(b, base)
    ensures AreApart(a) ==> AreApart(b)
    ensures InsertionsLast(a) ==> InsertionsLast(b)
  {
    if AllWithin(a, base) {
      forall h | h in b ensures IsWithin(h.range, base) {
        var i :| 0 <= i < |b| && b[i] == h;
        assert a[i] in a;
      }
    }
    forall i, j | 0 <= i < j < |b|
      ensures NotOverlapping(a[i], a[j]) == NotOverlapping(b[i], b[j]) && NotInsertionFirst(a[i], a[j]) == NotInsertionFirst(b[i], b[j])
    {
    }
  }

  // ---- Insertions last: the two orders agree ----

  lemma {:induction false} InsertsAgree(s: seq<Hunk>, h: Hunk)
    requires forall x | x in s :: NotInsertionFirst(x, h)
    ensures Insert(s, h, ByStartDescending) == Insert(s, h, FromTheRight)
  {
    if s != [] {
      assert NotInsertionFirst(s[|s| - 1], h);
      InsertsAgree(s[..|s| - 1], h);
    }
  }

  lemma {:induction false} OrdersAgree(hunks: seq<Hunk>)
    requires InsertionsLast(hunks)
    ensures ApplicationOrder(hunks) == RightOrder(hunks)
  {
    if hunks != [] {
      var rest, last := hunks[..|hunks| - 1], hunks[|hunks| - 1];
      assert hunks == rest + [last];
      PairwiseAppend(rest, last, NotInsertionFirst);
      OrdersAgree(rest);
      InsertsAgree(ApplicationOrder(rest), last);
    }
  }

  lemma AppliedAsMeant(base: Content, hunks: seq<Hunk>)
    requires AllWithin(hunks, base) && AreApart(hunks) && InsertionsLast(hunks)
    ensures ReplaceInTurn(base, ApplicationOrder(hunks)) == Simultaneous(base, hunks)
  {
    OrdersAgree(hunks);
    ApplyIsSplice(base, hunks);
  }

  // ---- An insertion before a replacement: one text that is lost ----

  /** A list whose texts are blank or say one code unit, said with another. */
  function Said(h: Hunk, x: CodeUnit): Hunk {
    if h.replacement == [] then h else h.(replacement := [x])
  }

  function AllSaid(s: seq<Hunk>, x: CodeUnit): (t: seq<Hunk>)
    ensures SameRanges(s, t) && forall i | 0 <= i < |s| :: t[i] == Said(s[i], x)
  {
    seq(|s|, i requires 0 <= i < |s| => Said(s[i], x))
  }

  lemma SaidAppends(s: seq<Hunk>, h: Hunk, x: CodeUnit)
    ensures AllSaid(s + [h], x) == AllSaid(s, x) + [Said(h, x)]
  {
  }

  ghost predicate OnRange(key: Hunk -> int) {
    forall h: Hunk, x: CodeUnit :: key(Said(h, x)) == key(h)
  }

  lemma {:induction false} InsertIsSaid(s: seq<Hunk>, h: Hunk, key: Hunk -> int, x: CodeUnit)
    requires OnRange(key)
    ensures Insert(AllSaid(s, x), Said(h, x), key) == AllSaid(Insert(s, h, key), x)
  {
    if s == [] || key(s[|s| - 1]) <= key(h) {
      SaidAppends(s, h, x);
      assert s != [] ==> AllSaid(s, x)[|s| - 1] == Said(s[|s| - 1], x);
    } else {
      var rest, last := s[..|s| - 1], s[|s| - 1];
      InsertIsSaid(rest, h, key, x);
      SaidAppends(rest, last, x);
      assert s == rest + [last];
      SaidAppends(Insert(rest, h, key), last, x);
      assert AllSaid(s, x)[..|s| - 1] == AllSaid(rest, x);
    }
  }

  /** Sorting by range does not look at the texts. */
  lemma {:induction false} SortIsSaid(s: seq<Hunk>, key: Hunk -> int, x: CodeUnit)
    requires OnRange(key)
    ensures StableSort(AllSaid(s, x), key) == AllSaid(StableSort(s, key), x)
  {
    if s != [] {
      var rest, last := s[..|s| - 1], s[|s| - 1];
      assert s == rest + [last];
      SaidAppends(rest, last, x);
      assert AllSaid(s, x)[..|s| - 1] == AllSaid(rest, x);
      SortIsSaid(rest, key, x);
      InsertIsSaid(StableSort(rest, key), last, key, x);
    }
  }

  lemma {:induction false} ReverseIsSaid(s: seq<Hunk>, x: CodeUnit)
    ensures Reverse(AllSaid(s, x)) == AllSaid(Reverse(s), x)
  {
    var a, b := Reverse(AllSaid(s, x)), AllSaid(Reverse(s), x);
    forall i | 0 <= i < |s| ensures a[i] == b[i] {
    }
  }

  /** A splice shows every one of its texts. */
  lemma {:induction false} SpliceTells(base: Content, cursor: nat, hunks: seq<Hunk>, x: CodeUnit, y: CodeUnit)
    requires cursor <= |base| && AllWithin(hunks, base) && IsAscending(hunks) && x != y
    requires hunks != [] ==> cursor <= hunks[0].range.start
    requires exists h :: h in hunks && h.replacement != []
    ensures AllWithin(AllSaid(hunks, x), base) && IsAscending(AllSaid(hunks, x))
    ensures AllWithin(AllSaid(hunks, y), base) && IsAscending(AllSaid(hunks, y))
    ensures Splice(base, cursor, AllSaid(hunks, x)) != Splice(base, cursor, AllSaid(hunks, y))
    decreases |hunks|
  {
    SpliceOpens(base, cursor, hunks, x);
    SpliceOpens(base, cursor, hunks, y);
    var first, tail := hunks[0], hunks[1..];
    var front := base[cursor..first.range.start];
    if first.replacement == [] {
      AscendingTail(hunks);
      SpliceTells(base, first.range.end, tail, x, y);
      FrontCancels(front, Splice(base, first.range.end, AllSaid(tail, x)), Splice(base, first.range.end, AllSaid(tail, y)));
    } else {
      assert Splice(base, cursor, AllSaid(hunks, x))[|front|] == x && Splice(base, cursor, AllSaid(hunks, y))[|front|] == y;
    }
  }

  lemma FrontCancels(front: Content, a: Content, b: Content)
    requires a != b
    ensures front + [] + a != front + [] + b
  {
    assert (front + [] + a)[|front|..] == a && (front + [] + b)[|front|..] == b;
  }

  lemma SpliceOpens(base: Content, cursor: nat, hunks: seq<Hunk>, x: CodeUnit)
    requires cursor <= |base| && AllWithin(hunks, base) && IsAscending(hunks) && hunks != [] && cursor <= hunks[0].range.start
    ensures AllWithin(AllSaid(hunks, x), base) && IsAscending(AllSaid(hunks, x))
    ensures AllWithin(AllSaid(hunks[1..], x), base) && IsAscending(AllSaid(hunks[1..], x))
    ensures |hunks| > 1 ==> hunks[0].range.end <= hunks[1].range.start
    ensures Splice(base, cursor, AllSaid(hunks, x))
         == base[cursor..hunks[0].range.start] + Said(hunks[0], x).replacement + Splice(base, hunks[0].range.end, AllSaid(hunks[1..], x))
  {
    AscendingTail(hunks);
    SaidAscends(base, hunks, x);
    SaidAscends(base, hunks[1..], x);
    assert AllSaid(hunks, x)[1..] == AllSaid(hunks[1..], x);
    if |hunks| > 1 { assert hunks[1..][0] == hunks[1]; }
  }

  lemma SaidAscends(base: Content, hunks: seq<Hunk>, x: CodeUnit)
    requires AllWithin(hunks, base) && IsAscending(hunks)
    ensures AllWithin(AllSaid(hunks, x), base) && IsAscending(AllSaid(hunks, x))
  {
    RangesDecide(base, hunks, AllSaid(hunks, x));
  }

  /** The one text is an insertion at `at`, and of the ranges that follow in the order one replaces from there. */
  predicate IsEaten(order: seq<Hunk>, p: nat, q: nat) {
    && p < q < |order|
    && (forall i | 0 <= i < |order| :: order[i].replacement == [] <==> i != p)
    && IsEmpty(order[p].range) && !IsEmpty(order[q].range) && order[p].range.start == order[q].range.start
  }

  /** Running texts that agree, but for one place perhaps. */
  predicate Agree(s: Content, t: Content, but: Option<nat>) {
    |s| == |t| && forall k | 0 <= k < |s| && but != Some(k) :: s[k] == t[k]
  }

  lemma BlankInsertion(s: Content, h: Hunk)
    requires IsEmpty(h.range) && 0 <= h.range.start && h.replacement == []
    ensures Replace(s, h) == s
  {
  }

  lemma ReplaceReaches(s: Content, h: Hunk, at: nat)
    requires at <= h.range.start <= h.range.end && at <= |s|
    ensures at <= |Replace(s, h)|
  {
  }

  lemma InsertionDiffers(s: Content, h: Hunk, x: CodeUnit, y: CodeUnit)
    requires IsEmpty(h.range) && 0 <= h.range.start <= |s| && h.replacement != []
    ensures Agree(Replace(s, Said(h, x)), Replace(s, Said(h, y)), Some(h.range.start))
    ensures h.range.start < |Replace(s, Said(h, x))|
  {
  }

  lemma DeletionLevels(s: Content, t: Content, h: Hunk)
    requires 0 <= h.range.start < h.range.end && Agree(s, t, Some(h.range.start))
    ensures Replace(s, h) == Replace(t, h)
  {
    assert SliceTo(s, h.range.start) == SliceTo(t, h.range.start);
    assert SliceFrom(s, h.range.end) == SliceFrom(t, h.range.end);
  }

  /** How far two running texts can differ after `n` replacements: in the insertion alone, and once it is eaten not at all. */
  predicate IsLevel(order: seq<Hunk>, p: nat, q: nat, n: nat, s: Content, t: Content)
    requires AllForward(order) && IsEaten(order, p, q)
  {
    assert order[p] in order;
    && (n <= p ==> s == t && order[p].range.start <= |s|)
    && (p < n <= q ==> Agree(s, t, Some(order[p].range.start)))
    && (q < n ==> s == t)
  }

  lemma LevelStep(order: seq<Hunk>, p: nat, q: nat, n: nat, s: Content, t: Content, x: CodeUnit, y: CodeUnit)
    requires AllForward(order) && IsEaten(order, p, q) && n < |order|
    requires Pairwise(order, NotAbove(ByStartDescending)) && AreApart(order)
    requires IsLevel(order, p, q, n, s, t) && order[n] in order
    ensures IsLevel(order, p, q, n + 1, Replace(s, Said(order[n], x)), Replace(t, Said(order[n], y)))
  {
    var h := order[n];
    assert order[p] in order;
    if n < p {
      assert NotAbove(ByStartDescending)(h, order[p]);
      ReplaceReaches(s, h, order[p].range.start);
    } else if n == p {
      InsertionDiffers(s, h, x, y);
    } else if n < q {
      BetweenAreInsertions(order, p, q, n);
      BlankInsertion(s, h);
      BlankInsertion(t, h);
    } else if n == q {
      DeletionLevels(s, t, h);
    }
  }

  lemma {:induction false} EatenInTurn(base: Content, order: seq<Hunk>, p: nat, q: nat, x: CodeUnit, y: CodeUnit, n: nat)
    requires AllForward(order) && IsEaten(order, p, q) && n <= |order| && order[p].range.start <= |base|
    requires Pairwise(order, NotAbove(ByStartDescending)) && AreApart(order)
    ensures AllForward(AllSaid(order[..n], x)) && AllForward(AllSaid(order[..n], y))
    ensures IsLevel(order, p, q, n, ReplaceInTurn(base, AllSaid(order[..n], x)), ReplaceInTurn(base, AllSaid(order[..n], y)))
  {
    SaidForward(order[..n], x);
    SaidForward(order[..n], y);
    if n > 0 {
      EatenInTurn(base, order, p, q, x, y, n - 1);
      LastInTurn(base, order, n, x);
      LastInTurn(base, order, n, y);
      LevelStep(order, p, q, n - 1, ReplaceInTurn(base, AllSaid(order[..n - 1], x)), ReplaceInTurn(base, AllSaid(order[..n - 1], y)), x, y);
    }
  }

  lemma SaidForward(order: seq<Hunk>, x: CodeUnit)
    requires AllForward(order)
    ensures AllForward(AllSaid(order, x))
  {
    forall h | h in AllSaid(order, x) ensures 0 <= h.range.start <= h.range.end {
      var i :| 0 <= i < |order| && AllSaid(order, x)[i] == h;
      assert order[i] in order;
    }
  }

  lemma LastInTurn(base: Content, order: seq<Hunk>, n: nat, x: CodeUnit)
    requires AllForward(order) && 0 < n <= |order|
    ensures AllForward(AllSaid(order[..n], x)) && AllForward(AllSaid(order[..n - 1], x)) && order[n - 1] in order
    ensures ReplaceInTurn(base, AllSaid(order[..n], x))
         == Replace(ReplaceInTurn(base, AllSaid(order[..n - 1], x)), Said(order[n - 1], x))
  {
    SaidForward(order[..n], x);
    SaidForward(order[..n - 1], x);
    assert order[..n] == order[..n - 1] + [order[n - 1]];
    SaidAppends(order[..n - 1], order[n - 1], x);
    var all := AllSaid(order[..n], x);
    assert all[..n - 1] == AllSaid(order[..n - 1], x);
  }

  lemma BetweenAreInsertions(order: seq<Hunk>, p: nat, q: nat, m: nat)
    requires AllForward(order) && IsEaten(order, p, q) && p < m < q
    requires Pairwise(order, NotAbove(ByStartDescending)) && AreApart(order)
    ensures IsEmpty(order[m].range)
  {
    assert NotAbove(ByStartDescending)(order[p], order[m]) && NotAbove(ByStartDescending)(order[m], order[q]);
    assert NotOverlapping(order[m], order[q]) && order[m] in order && order[q] in order;
  }

  /** The list with every text blank, but for a one-unit text at `at`. */
  function OnlyAt(hunks: seq<Hunk>, at: nat): (blank: seq<Hunk>)
    ensures SameRanges(hunks, blank)
    ensures forall i | 0 <= i < |hunks| :: blank[i].replacement == if i == at then [0] else []
  {
    seq(|hunks|, i requires 0 <= i < |hunks| => hunks[i].(replacement := if i == at then [0] else []))
  }

  function IsText(h: Hunk): bool {
    h.replacement != []
  }

  /** One text in the list is one text in the sorted list. */
  lemma OneText(hunks: seq<Hunk>, at: nat) returns (p: nat)
    requires at < |hunks|
    ensures var order := ApplicationOrder(OnlyAt(hunks, at));
      p < |order| && (forall i | 0 <= i < |order| :: IsText(order[i]) <==> i == p) && order[p] == OnlyAt(hunks, at)[at]
  {
    var blank := OnlyAt(hunks, at);
    var order := ApplicationOrder(blank);
    var atMostOne := (a: Hunk, b: Hunk) => !(IsText(a) && IsText(b));
    SortKeepsSymmetric(blank, ByStartDescending, atMostOne);
    assert blank[at] in order;
    p :| 0 <= p < |order| && order[p] == blank[at];
    forall i | 0 <= i < |order| && i != p ensures !IsText(order[i]) {
      assert if i < p then atMostOne(order[i], order[p]) else atMostOne(order[p], order[i]);
    }
  }

  /** The insertion stays ahead of the replacement it is listed before. */
  lemma StillAhead(base: Content, hunks: seq<Hunk>, i: nat, j: nat) returns (p: nat, q: nat)
    requires AllWithin(hunks, base) && AreApart(hunks) && i < j < |hunks| && !NotInsertionFirst(hunks[i], hunks[j])
    ensures IsEaten(ApplicationOrder(OnlyAt(hunks, i)), p, q)
  {
    var blank := OnlyAt(hunks, i);
    var order := ApplicationOrder(blank);
    p := OneText(hunks, i);
    assert blank[j] in order;
    q :| 0 <= q < |order| && order[q] == blank[j];
    // The sort keeps "no text comes before this replacement" false, as it was.
    var behind := (a: Hunk, b: Hunk) => !(a == blank[i] && b == blank[j]);
    SortIsStable(blank, ByStartDescending, (a: Hunk, b: Hunk) => ByStartDescending(a) != ByStartDescending(b) || behind(a, b));
    Unsettled(blank, order, i, j);
    var a, b :| 0 <= a < b < |order| && order[a] == blank[i] && order[b] == blank[j];
    assert IsText(order[a]) && a == p;
    q := b;
  }

  lemma Unsettled(blank: seq<Hunk>, order: seq<Hunk>, i: nat, j: nat)
    requires i < j < |blank| && blank[i].range.start == blank[j].range.start
    requires
      var p := (a: Hunk, b: Hunk) => ByStartDescending(a) != ByStartDescending(b) || !(a == blank[i] && b == blank[j]);
      Pairwise(order, p) <==> Pairwise(blank, p)
    ensures exists a, b :: 0 <= a < b < |order| && order[a] == blank[i] && order[b] == blank[j]
  {
    var p := (a: Hunk, b: Hunk) => ByStartDescending(a) != ByStartDescending(b) || !(a == blank[i] && b == blank[j]);
    assert !p(blank[i], blank[j]);
    assert !Pairwise(order, p);
    var a, b :| 0 <= a < b < |order| && !p(order[a], order[b]);
  }

  /** With an insertion listed before a replacement at its offset, some choice of texts is not applied as meant. */
  lemma SomeTextIsLost(base: Content, hunks: seq<Hunk>, i: nat, j: nat) returns (texts: seq<Hunk>)
    requires AllWithin(hunks, base) && AreApart(hunks) && i < j < |hunks| && !NotInsertionFirst(hunks[i], hunks[j])
    ensures SameRanges(hunks, texts) && AllWithin(texts, base) && AreApart(texts)
    ensures ReplaceInTurn(base, ApplicationOrder(texts)) != Simultaneous(base, texts)
  {
    var blank := OnlyAt(hunks, i);
    RangesDecide(base, hunks, blank);
    var zero, one := AllSaid(blank, 0), AllSaid(blank, 1);
    RangesDecide(base, blank, zero);
    RangesDecide(base, blank, one);
    ResultsAgree(base, hunks, i, j);
    MeaningsDiffer(base, blank, i);
    texts := if ReplaceInTurn(base, ApplicationOrder(zero)) != Simultaneous(base, zero) then zero else one;
  }

  lemma ResultsAgree(base: Content, hunks: seq<Hunk>, i: nat, j: nat)
    requires AllWithin(hunks, base) && AreApart(hunks) && i < j < |hunks| && !NotInsertionFirst(hunks[i], hunks[j])
    ensures
      var zero, one := AllSaid(OnlyAt(hunks, i), 0), AllSaid(OnlyAt(hunks, i), 1);
      && AllWithin(zero, base) && AllWithin(one, base)
      && ReplaceInTurn(base, ApplicationOrder(zero)) == ReplaceInTurn(base, ApplicationOrder(one))
  {
    var blank := OnlyAt(hunks, i);
    var order := ApplicationOrder(blank);
    RangesDecide(base, hunks, blank);
    OrderOfSaid(base, blank, 0);
    OrderOfSaid(base, blank, 1);
    var p, q := StillAhead(base, hunks, i, j);
    assert order[p] in blank;
    EndsLevel(base, order, p, q);
  }

  lemma EndsLevel(base: Content, order: seq<Hunk>, p: nat, q: nat)
    requires AllForward(order) && IsEaten(order, p, q) && order[p].range.start <= |base|
    requires Pairwise(order, NotAbove(ByStartDescending)) && AreApart(order)
    ensures AllForward(AllSaid(order, 0)) && AllForward(AllSaid(order, 1))
    ensures ReplaceInTurn(base, AllSaid(order, 0)) == ReplaceInTurn(base, AllSaid(order, 1))
  {
    EatenInTurn(base, order, p, q, 0, 1, |order|);
    assert order[..|order|] == order;
  }

  lemma OrderOfSaid(base: Content, blank: seq<Hunk>, x: CodeUnit)
    requires AllWithin(blank, base) && AreApart(blank)
    ensures AllWithin(AllSaid(blank, x), base) && AllForward(ApplicationOrder(blank))
    ensures Pairwise(ApplicationOrder(blank), NotAbove(ByStartDescending)) && AreApart(ApplicationOrder(blank))
    ensures ApplicationOrder(AllSaid(blank, x)) == AllSaid(ApplicationOrder(blank), x)
  {
    RangesDecide(base, blank, AllSaid(blank, x));
    SortIsStable(blank, ByStartDescending, (a: Hunk, b: Hunk) => true);
    SortKeepsSymmetric(blank, ByStartDescending, NotOverlapping);
    SortIsSaid(blank, ByStartDescending, x);
  }

  lemma SimultaneousOfSaid(base: Content, blank: seq<Hunk>, x: CodeUnit)
    requires AllWithin(blank, base) && AreApart(blank)
    ensures AllWithin(AllSaid(blank, x), base) && AreApart(AllSaid(blank, x))
    ensures AllWithin(Reverse(RightOrder(blank)), base) && IsAscending(Reverse(RightOrder(blank)))
    ensures AllWithin(AllSaid(Reverse(RightOrder(blank)), x), base) && IsAscending(AllSaid(Reverse(RightOrder(blank)), x))
    ensures Simultaneous(base, AllSaid(blank, x)) == Splice(base, 0, AllSaid(Reverse(RightOrder(blank)), x))
  {
    RangesDecide(base, blank, AllSaid(blank, x));
    RightOrderDescends(base, blank);
    SortIsSaid(blank, FromTheRight, x);
    ReverseIsSaid(RightOrder(blank), x);
    SaidAscends(base, Reverse(RightOrder(blank)), x);
  }

  lemma MeaningsDiffer(base: Content, blank: seq<Hunk>, i: nat)
    requires AllWithin(blank, base) && AreApart(blank) && i < |blank| && IsText(blank[i])
    ensures
      var zero, one := AllSaid(blank, 0), AllSaid(blank, 1);
      && AllWithin(zero, base) && AreApart(zero) && AllWithin(one, base) && AreApart(one)
      && Simultaneous(base, zero) != Simultaneous(base, one)
  {
    SimultaneousOfSaid(base, blank, 0);
    SimultaneousOfSaid(base, blank, 1);
    TextIsReversed(blank, i);
    SpliceTells(base, 0, Reverse(RightOrder(blank)), 0, 1);
  }

  lemma TextIsReversed(blank: seq<Hunk>, i: nat)
    requires i < |blank| && IsText(blank[i])
    ensures exists h :: h in Reverse(RightOrder(blank)) && h.replacement != []
  {
    var order := RightOrder(blank);
    SortIsStable(blank, FromTheRight, (a: Hunk, b: Hunk) => true);
    SameElements(order, blank);
    assert blank[i] in order;
    var k :| 0 <= k < |order| && order[k] == blank[i];
    assert Reverse(order)[|order| - 1 - k] == blank[i];
  }

  /** Every choice of texts for these ranges is applied as meant. */
  ghost predicate AlwaysAppliedAsMeant(base: Content, hunks: seq<Hunk>)
    requires AllWithin(hunks, base) && AreApart(hunks)
  {
    forall texts | SameRanges(hunks, texts) ::
      AllWithin(texts, base) && AreApart(texts) && ReplaceInTurn(base, ApplicationOrder(texts)) == Simultaneous(base, texts)
  }

  /** For ranges in bounds and apart: whatever texts are put in, they are put in as meant, exactly when no insertion is
      listed before a replacement that starts at its offset. */
  lemma AppliedAsMeantExactly(base: Content, hunks: seq<Hunk>)
    requires AllWithin(hunks, base) && AreApart(hunks)
    ensures AlwaysAppliedAsMeant(base, hunks) <==> InsertionsLast(hunks)
  {
    if InsertionsLast(hunks) {
      forall texts | SameRanges(hunks, texts)
        ensures AllWithin(texts, base) && AreApart(texts) && ReplaceInTurn(base, ApplicationOrder(texts)) == Simultaneous(base, texts)
      {
        RangesDecide(base, hunks, texts);
        AppliedAsMeant(base, texts);
      }
    } else {
      var i, j :| 0 <= i < j < |hunks| && !NotInsertionFirst(hunks[i], hunks[j]);
      var texts := SomeTextIsLost(base, hunks, i, j);
    }
  }

  /** So a draft's candidate is the one meant, whatever its texts are, exactly when its selected hunks are listed so. */
  lemma CandidateIsMeantExactly(file: DraftFile)
    requires IsSound(file)
    ensures
      var base, chosen := file.binding.baseContent, SelectedHunks(file.hunks);
      AllWithin(chosen, base) && AreApart(chosen) && (AlwaysAppliedAsMeant(base, chosen) <==> InsertionsLast(chosen))
  {
    SelectedKeep(file.hunks, NotOverlapping);
    AppliedAsMeantExactly(file.binding.baseContent, SelectedHunks(file.hunks));
  }

  // ---- Insertions at one offset: the latest comes first ----

  /** Selected insertions, all of them at one offset, as proposals on one empty line give them. */
  predicate AreInsertionsAt(hunks: seq<Hunk>, at: int) {
    forall h | h in hunks :: h.range == Range(at, at) && h.selected
  }

  function LatestFirst(hunks: seq<Hunk>): Content {
    if hunks == [] then [] else hunks[|hunks| - 1].replacement + LatestFirst(hunks[..|hunks| - 1])
  }

  lemma {:induction false} SortLeavesEquals(hunks: seq<Hunk>, key: Hunk -> int)
    requires forall a, b | a in hunks && b in hunks :: key(a) == key(b)
    ensures StableSort(hunks, key) == hunks
  {
    if hunks != [] {
      var rest, last := hunks[..|hunks| - 1], hunks[|hunks| - 1];
      assert hunks == rest + [last];
      SortLeavesEquals(rest, key);
    }
  }

  lemma {:induction false} AllAreKept(hunks: seq<Hunk>, at: int)
    requires AreInsertionsAt(hunks, at)
    ensures Kept(hunks, Range(at, at)) == hunks && SelectedHunks(hunks) == hunks
  {
    if hunks != [] {
      var rest, last := hunks[..|hunks| - 1], hunks[|hunks| - 1];
      assert hunks == rest + [last] && last.(selected := true) == last;
      AllAreKept(rest, at);
    }
  }

  lemma InsertionGoesInFront(front: Content, middle: Content, back: Content, h: Hunk)
    requires h.range == Range(|front|, |front|)
    ensures Replace(front + middle + back, h) == front + (h.replacement + middle) + back
  {
    var s := front + middle + back;
    assert SliceTo(s, |front|) == front && SliceFrom(s, |front|) == middle + back;
  }

  lemma {:induction false} InsertedInTurn(base: Content, hunks: seq<Hunk>, at: nat)
    requires AreInsertionsAt(hunks, at) && at <= |base|
    ensures AllForward(hunks) && ReplaceInTurn(base, hunks) == base[..at] + LatestFirst(hunks) + base[at..]
  {
    if hunks == [] {
      assert base[..at] + [] + base[at..] == base;
    } else {
      var rest, last := hunks[..|hunks| - 1], hunks[|hunks| - 1];
      assert last in hunks;
      InsertedInTurn(base, rest, at);
      InsertionGoesInFront(base[..at], LatestFirst(rest), base[at..], last);
    }
  }

  lemma OneMoreInsertion(base: Content, hunks: seq<Hunk>, added: Hunk, at: nat)
    requires AreInsertionsAt(hunks, at) && AreInsertionsAt([added], at) && at <= |base|
    ensures AreInsertionsAt(hunks + [added], at) && AllForward(hunks + [added])
    ensures ReplaceInTurn(base, hunks + [added]) == base[..at] + (added.replacement + LatestFirst(hunks)) + base[at..]
  {
    assert added in [added];
    InsertedInTurn(base, hunks + [added], at);
    assert (hunks + [added])[..|hunks|] == hunks;
  }

  lemma InsertionsAreMeant(base: Content, hunks: seq<Hunk>, at: nat)
    requires AreInsertionsAt(hunks, at) && at <= |base|
    ensures AllWithin(hunks, base) && AreApart(hunks) && ApplicationOrder(hunks) == hunks
    ensures ReplaceInTurn(base, hunks) == Simultaneous(base, hunks)
  {
    assert forall i, j | 0 <= i < j < |hunks| :: hunks[i] in hunks && hunks[j] in hunks;
    SortLeavesEquals(hunks, ByStartDescending);
    AppliedAsMeant(base, hunks);
  }

  /** One more proposal on an empty line: every earlier one is kept, and the texts stand there from the latest to the first.
      That is the simultaneous replacement, too. */
  lemma LaterInsertionsComeFirst(base: Content, hunks: seq<Hunk>, added: Hunk, at: nat)
    requires AreInsertionsAt(hunks, at) && AreInsertionsAt([added], at) && at <= |base|
    ensures MergedHunks(hunks, added) == SelectedHunks(MergedHunks(hunks, added)) == hunks + [added]
    ensures
      var all := hunks + [added];
      && AllWithin(all, base) && AreApart(all)
      && ReplaceInTurn(base, ApplicationOrder(all)) == Simultaneous(base, all)
      && Simultaneous(base, all) == base[..at] + (added.replacement + LatestFirst(hunks)) + base[at..]
  {
    OneMoreInsertion(base, hunks, added, at);
    assert added in [added];
    AllAreKept(hunks, at);
    AllAreKept(hunks + [added], at);
    SortLeavesEquals(hunks + [added], ByStart);
    InsertionsAreMeant(base, hunks + [added], at);
  }

  // ---- Such a list arises from proposals ----

  /** An empty line, a line break and one letter. */
  const LINES: Content := [10, 120]

  function LinesBinding(rules: Rules): Binding {
    Binding("text", None, None, None, None, rules.sha256(LINES), LINES)
  }

  /** The empty first line replaced by a letter, and then the first character taken out. */
  function FillLine(rules: Rules, path: string): Proposal {
    Proposal(LinesBinding(rules), path, Line, Range(0, 1), [65], "fill", None)
  }

  function DropBreak(rules: Rules, path: string): Proposal {
    Proposal(LinesBinding(rules), path, Character, Range(0, 1), [], "drop", None)
  }

  const FILL := Hunk("fill", Range(0, 0), [65], true)
  const DROP := Hunk("drop", Range(0, 1), [], true)

  function LinesDraft(rules: Rules, path: string, hunks: seq<Hunk>): DraftFile {
    DraftFile(path, LinesBinding(rules), hunks)
  }

  lemma FirstLineIsEmpty()
    ensures CharacterRange(LINES, Line, Range(0, 1)) == Some(Range(0, 0))
  {
    assert Cut(LINES, Line, 0, 0) == [Range(0, 0)] + Cut(LINES, Line, 1, 1);
  }

  lemma OneDraft(rules: Rules, proposal: Proposal)
    ensures DraftsOf(rules, [proposal]) ==
      var draft := DraftOf(rules, proposal); if draft.Ok? then Ok([draft.value]) else Err(draft.code)
  {
    assert [proposal][1..] == [];
    assert DraftEach(rules, []) == Ok([]);
    if DraftOf(rules, proposal).Ok? {
      assert [DraftOf(rules, proposal).value] + [] == [DraftOf(rules, proposal).value];
    }
  }

  lemma FillThenDropMerge()
    ensures MergedHunks([FILL], DROP) == [FILL, DROP]
    ensures SelectedHunks([FILL, DROP]) == [FILL, DROP] && ApplicationOrder([FILL, DROP]) == [FILL, DROP]
  {
    assert [FILL][..0] == [];
    assert Kept([], DROP.range) == [];
    assert Kept([FILL], DROP.range) == [FILL];
    assert [FILL] + [DROP] == [FILL, DROP] && [FILL, DROP][..1] == [FILL];
    assert StableSort([FILL], ByStart) == [FILL];
    assert SelectedHunks([]) == [] && SelectedHunks([FILL]) == [FILL];
    TwoInTurn(LINES, FILL, DROP);
  }

  lemma DraftsOfBoth(rules: Rules, path: string)
    requires rules.guard(path) == Some(path)
    ensures DraftOf(rules, FillLine(rules, path)) == Ok(LinesDraft(rules, path, [FILL]))
    ensures DraftOf(rules, DropBreak(rules, path)) == Ok(LinesDraft(rules, path, [DROP]))
  {
    FirstLineIsEmpty();
    assert CharacterRange(LINES, Character, Range(0, 1)) == Some(Range(0, 1));
  }

  /** Both proposals are accepted, and the insertion is listed before the replacement at its offset. */
  lemma BothAreAccepted(rules: Rules, path: string)
    requires rules.guard(path) == Some(path)
    ensures
      var one, both := LinesDraft(rules, path, [FILL]), LinesDraft(rules, path, [FILL, DROP]);
      && FromProposals(rules, [FillLine(rules, path)]) == Ok(ChangeSet(1, [one], []))
      && WithProposals(rules, ChangeSet(1, [one], []), [DropBreak(rules, path)]) == Ok(ChangeSet(2, [both], []))
  {
    DraftsOfBoth(rules, path);
    OneDraft(rules, FillLine(rules, path));
    OneDraft(rules, DropBreak(rules, path));
    AlreadySelected(rules, path);
    MergesIntoBoth(rules, path);
  }

  lemma AlreadySelected(rules: Rules, path: string)
    ensures var one := LinesDraft(rules, path, [FILL]); AllFilesSelected([one]) == [one]
  {
    var one := LinesDraft(rules, path, [FILL]);
    assert AllSelected(one).hunks == one.hunks;
  }

  lemma MergesIntoBoth(rules: Rules, path: string)
    ensures MergeEach([LinesDraft(rules, path, [FILL])], [LinesDraft(rules, path, [DROP])])
         == Ok([LinesDraft(rules, path, [FILL, DROP])])
  {
    FillThenDropMerge();
    MergeOne(LinesDraft(rules, path, [FILL]), LinesDraft(rules, path, [DROP]));
  }

  lemma MergeOne(file: DraftFile, draft: DraftFile)
    requires file.path == draft.path && file.binding == draft.binding && draft.hunks != []
    ensures MergeEach([file], [draft]) == Ok([draft.(hunks := MergedHunks(file.hunks, draft.hunks[0]))])
  {
    var merged := draft.(hunks := MergedHunks(file.hunks, draft.hunks[0]));
    assert [draft][1..] == [] && IndexOf([file], draft.path) == 0;
    assert [file][0 := merged] == [merged];
    assert MergeEach([merged], []) == Ok([merged]);
  }

  /** The candidate of the accepted list is the old content: neither edit shows. */
  lemma AcceptedEditsAreLost(rules: Rules, path: string)
    requires rules.guard(path) == Some(path)
    ensures
      var one := LinesDraft(rules, path, [FILL]);
      var both := LinesDraft(rules, path, [FILL, DROP]);
      && FromProposals(rules, [FillLine(rules, path)]) == Ok(ChangeSet(1, [one], []))
      && WithProposals(rules, ChangeSet(1, [one], []), [DropBreak(rules, path)]) == Ok(ChangeSet(2, [both], []))
    ensures AllWithin([FILL, DROP], LINES) && AreApart([FILL, DROP])
    ensures ReplaceInTurn(LINES, ApplicationOrder(SelectedHunks([FILL, DROP]))) == LINES
    ensures Simultaneous(LINES, [FILL, DROP]) == [65, 120]
  {
    BothAreAccepted(rules, path);
    FillThenDropMerge();
    MeantOfBoth();
    NeitherShows();
  }

  lemma NeitherShows()
    ensures AllForward([FILL, DROP]) && ReplaceInTurn(LINES, [FILL, DROP]) == LINES
  {
    TwoInTurn(LINES, FILL, DROP);
    LostInsertion(LINES, 0, 1, 65, FILL, DROP);
  }

  lemma MeantOfBoth()
    ensures AllWithin([FILL, DROP], LINES) && AreApart([FILL, DROP]) && Simultaneous(LINES, [FILL, DROP]) == [65, 120]
  {
    assert [FILL, DROP][..1] == [FILL] && [FILL][..0] == [];
    assert StableSort([FILL], FromTheRight) == [FILL];
    assert Insert([FILL], DROP, FromTheRight) == Insert([], DROP, FromTheRight) + [FILL];
    assert RightOrder([FILL, DROP]) == [DROP, FILL];
    assert Reverse([DROP, FILL]) == [FILL, DROP];
    SpliceOfTwo(LINES, FILL, DROP);
  }
}
