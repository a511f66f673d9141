/** What selecting from a Change Set guarantees, and what its whole history keeps. */
module Selections {
  import opened DependencyGraph
  import opened Preflight
  import opened Revisions

  /** The operations that will be carried out. */
  function SelectedPart(ops: seq<Operation>): (part: seq<Operation>)
    ensures forall op :: op in part <==> op in ops && op.selected
  {
    if ops == [] then []
    else SelectedPart(ops[..|ops| - 1]) + if ops[|ops| - 1].selected then [ops[|ops| - 1]] else []
  }

  lemma {:induction false} PartIsDistinct(ops: seq<Operation>)
    requires DistinctIds(ops)
    ensures DistinctIds(SelectedPart(ops))
  {
    if ops != [] {
      var rest, last := ops[..|ops| - 1], ops[|ops| - 1];
      PartIsDistinct(rest);
      assert forall op | op in rest :: op.id != last.id;
      assert forall i | 0 <= i < |SelectedPart(rest)| :: SelectedPart(rest)[i] in rest;
    }
  }

  lemma PartGraphWithin(ops: seq<Operation>, n: string, d: string)
    requires DistinctIds(ops) && d in Deps(GraphOf(SelectedPart(ops)), n)
    ensures d in Deps(GraphOf(ops), n)
  {
    var part := SelectedPart(ops);
    PartIsDistinct(ops);
    GraphOfDistinct(ops);
    GraphOfDistinct(part);
    var i :| 0 <= i < |part| && part[i].id == n;
    assert part[i] in part && part[i] in ops;
  }

  /** A walk in the selected part is one in the whole. */
  lemma PartPathIsPath(ops: seq<Operation>, p: seq<string>)
    requires DistinctIds(ops) && IsPath(GraphOf(SelectedPart(ops)), p)
    ensures IsPath(GraphOf(ops), p)
  {
    forall i | 0 <= i < |p| - 1 ensures p[i + 1] in Deps(GraphOf(ops), p[i]) {
      PartGraphWithin(ops, p[i], p[i + 1]);
    }
  }

  /** From a selected operation on, every walk stays in the selected part. */
  lemma {:induction false} PathStaysSelected(ops: seq<Operation>, p: seq<string>, from: Operation)
    requires DistinctIds(ops) && IsClosed(ops) && IsPath(GraphOf(ops), p)
    requires from in ops && from.selected && from.id == p[0]
    ensures IsPath(GraphOf(SelectedPart(ops)), p)
    decreases |p|
  {
    var part := SelectedPart(ops);
    PartIsDistinct(ops);
    GraphOfDistinct(ops);
    GraphOfDistinct(part);
    assert from in part;
    assert p[1] in Deps(GraphOf(ops), p[0]);
    if |p| > 2 {
      var next :| next in ops && next.selected && next.id == p[1];
      TailIsPath(GraphOf(ops), p);
      PathStaysSelected(ops, p[1..], next);
      ConsPath(GraphOf(part), p);
    }
  }

  lemma ConsPath(g: Graph, p: seq<string>)
    requires |p| > 2 && IsPath(g, p[1..]) && p[1] in Deps(g, p[0])
    ensures IsPath(g, p)
  {
    forall i | 0 <= i < |p| - 1 ensures p[i + 1] in Deps(g, p[i]) {
      if i > 0 {
        assert p[1..][i] in Deps(g, p[1..][i - 1]);
      }
    }
  }

  lemma SelectedStillDepends(ops: seq<Operation>, a: Operation, b: Operation)
    requires DistinctIds(ops) && IsClosed(ops) && a in ops && a.selected && DependsOnOperation(ops, a, b)
    ensures DependsOnOperation(SelectedPart(ops), a, b)
  {
    var p :| IsPath(GraphOf(ops), p) && p[0] == a.id && p[|p| - 1] == b.id;
    PathStaysSelected(ops, p, a);
  }

  lemma PartReachesWithin(ops: seq<Operation>, a: string, b: string)
    requires DistinctIds(ops) && Reaches(GraphOf(SelectedPart(ops)), a, b)
    ensures Reaches(GraphOf(ops), a, b)
  {
    var p :| IsPath(GraphOf(SelectedPart(ops)), p) && p[0] == a && p[|p| - 1] == b;
    PartPathIsPath(ops, p);
  }

  lemma PartIsAcyclic(ops: seq<Operation>)
    requires DistinctIds(ops) && !Cyclic(GraphOf(ops))
    ensures !Cyclic(GraphOf(SelectedPart(ops)))
  {
    if Cyclic(GraphOf(SelectedPart(ops))) {
      var n :| Reaches(GraphOf(SelectedPart(ops)), n, n);
      PartReachesWithin(ops, n, n);
    }
  }

  /** A closed selection of a clean batch is a clean batch. */
  lemma SelectedPartIsClean(rule: PathRule, ops: seq<Operation>)
    requires IsClean(rule, ops) && IsClosed(ops)
    ensures IsClean(rule, SelectedPart(ops))
  {
    var part := SelectedPart(ops);
    PartIsDistinct(ops);
    PartIsAcyclic(ops);
    forall op, d | op in part && d in op.dependsOn ensures HasId(part, d) {
      var other :| other in ops && other.selected && other.id == d;
      var i :| 0 <= i < |part| && part[i] == other;
    }
    forall a, b | a in part && b in part && (Succeeds(a, b) || ParentOf(a, b)) ensures DependsOnOperation(part, a, b) {
      SelectedStillDepends(ops, a, b);
    }
  }

  // ---- The selected flags do not matter to the preflight ----

  ghost predicate SameButSelections(a: seq<Operation>, b: seq<Operation>) {
    |a| == |b| && forall i | 0 <= i < |a| :: SameButSelection(a[i], b[i])
  }

  lemma {:induction false} SameGraph(a: seq<Operation>, b: seq<Operation>)
    requires SameButSelections(a, b)
    ensures GraphOf(a) == GraphOf(b)
  {
    if a != [] {
      SameGraph(a[..|a| - 1], b[..|b| - 1]);
      assert SameButSelection(a[|a| - 1], b[|b| - 1]);
    }
  }

  lemma SameIdsKnown(a: seq<Operation>, b: seq<Operation>, id: string)
    requires SameButSelections(a, b) && HasId(a, id)
    ensures HasId(b, id)
  {
    var i :| 0 <= i < |a| && a[i].id == id;
    assert b[i].id == id;
  }

  lemma ReselectionKeepsIds(rule: PathRule, a: seq<Operation>, b: seq<Operation>)
    requires SameButSelections(a, b) && IsClean(rule, a)
    ensures (forall op | op in b :: IsValid(rule, op)) && DistinctIds(b) && KnownDependencies(b)
  {
    forall op | op in b ensures IsValid(rule, op) {
      var i :| 0 <= i < |b| && b[i] == op;
      assert a[i] in a;
    }
    forall op, d | op in b && d in op.dependsOn ensures HasId(b, d) {
      var i :| 0 <= i < |b| && b[i] == op;
      assert a[i] in a;
      SameIdsKnown(a, b, d);
    }
  }

  lemma ReselectionKeepsClean(rule: PathRule, a: seq<Operation>, b: seq<Operation>)
    requires SameButSelections(a, b) && IsClean(rule, a)
    ensures IsClean(rule, b)
  {
    SameGraph(a, b);
    ReselectionKeepsIds(rule, a, b);
    forall x, y | x in b && y in b ensures PairIsClean(b, x, y) {
      var i :| 0 <= i < |b| && b[i] == x;
      var j :| 0 <= j < |b| && b[j] == y;
      SamePairIsClean(rule, a, b, i, j);
    }
    PairsAreClean(b);
  }

  ghost predicate PairIsClean(ops: seq<Operation>, x: Operation, y: Operation) {
    && (Collide(x, y) ==> x == y)
    && (Succeeds(x, y) ==> x.kind.MoveFile? && y.kind.MoveFile? && DependsOnOperation(ops, x, y))
    && (ParentOf(x, y) ==> DependsOnOperation(ops, x, y))
  }

  lemma SamePairIsClean(rule: PathRule, a: seq<Operation>, b: seq<Operation>, i: nat, j: nat)
    requires SameButSelections(a, b) && IsClean(rule, a) && GraphOf(a) == GraphOf(b)
    requires i < |a| && j < |a|
    ensures PairIsClean(b, b[i], b[j])
  {
    assert SameButSelection(a[i], b[i]) && SameButSelection(a[j], b[j]);
    assert a[i] in a && a[j] in a;
    assert Collide(b[i], b[j]) == Collide(a[i], a[j]);
    assert Succeeds(b[i], b[j]) == Succeeds(a[i], a[j]);
    assert ParentOf(b[i], b[j]) == ParentOf(a[i], a[j]);
    assert Collide(a[i], a[j]) ==> i == j;
  }

  lemma PairsAreClean(ops: seq<Operation>)
    requires forall x, y | x in ops && y in ops :: PairIsClean(ops, x, y)
    ensures forall a, b | a in ops && b in ops && Collide(a, b) :: a == b
    ensures forall a, b | a in ops && b in ops && Succeeds(a, b) ::
        a.kind.MoveFile? && b.kind.MoveFile? && DependsOnOperation(ops, a, b)
    ensures forall a, b | a in ops && b in ops && ParentOf(a, b) :: DependsOnOperation(ops, a, b)
  {
  }

  /** The selected part of an accepted selection from a clean batch is a clean batch again. */
  lemma AcceptedSelectionIsClean(rules: Rules, ops: seq<Operation>, choices: seq<OperationSelection>)
    requires IsClean(rules.paths, ops) && SelectOperations(rules, ops, choices).Ok?
    ensures IsClean(rules.paths, SelectOperations(rules, ops, choices).value)
    ensures IsClean(rules.paths, SelectedPart(SelectOperations(rules, ops, choices).value))
  {
    var chosen := SelectOperations(rules, ops, choices).value;
    assert chosen == Reselected(ops, choices);
    ReselectionKeepsClean(rules.paths, ops, chosen);
    SelectedPartIsClean(rules.paths, chosen);
  }

  /** From a clean batch a selection is refused only for naming an unknown operation or leaving out a dependency. */
  lemma SelectionIsAcceptedExactly(rules: Rules, ops: seq<Operation>, choices: seq<OperationSelection>)
    requires IsClean(rules.paths, ops)
    ensures SelectOperations(rules, ops, choices).Ok?
       <==> (forall s | s in choices :: HasId(ops, s.id)) && IsClosed(Reselected(ops, choices))
  {
    ReselectionKeepsClean(rules.paths, ops, Reselected(ops, choices));
    if ops == [] && choices != [] {
      assert choices[0] in choices;
    }
  }
}
