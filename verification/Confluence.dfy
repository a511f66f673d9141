/** Why the preflight is enough: every order that respects the dependencies runs, and all of them end alike. */
module Confluence {
  import opened DependencyGraph
  import opened Preflight
  import opened Text

  datatype Node = Directory | File(content: string)

  /** A project tree by path; the root directory has the empty path and is always there. */
  type Tree = map<string, Node>

  function At(tree: Tree, path: string): Option<Node> {
    if path in tree then Some(tree[path]) else None
  }

  predicate HasDirectory(tree: Tree, path: string) {
    path == "" || At(tree, path) == Some(Directory)
  }

  predicate IsFileAt(tree: Tree, path: string) {
    path in tree && tree[path].File?
  }

  /** A path can be brought into being where nothing stands and its directory does. */
  predicate IsFree(tree: Tree, path: string) {
    path !in tree && HasDirectory(tree, ParentPath(path))
  }

  /** One operation on the tree; `None` when a source is missing, a target is occupied or has no directory. */
  function Perform(op: Operation, tree: Tree): Option<Tree> {
    match op.kind
    case Modify(_) => Some(tree)
    case CreateFile(path, content) => if IsFree(tree, path) then Some(tree[path := File(content)]) else None
    case CreateDirectory(path) => if IsFree(tree, path) then Some(tree[path := Directory]) else None
    case DeleteFile(path, _) => if IsFileAt(tree, path) then Some(tree - {path}) else None
    case MoveFile(source, target, _) =>
      if IsFileAt(tree, source) && IsFree(tree, target) then Some((tree - {source})[target := tree[source]]) else None
  }

  /** The operations one after the other, as long as each succeeds. */
  function PerformAll(order: seq<Operation>, tree: Tree): Option<Tree> {
    if order == [] then Some(tree)
    else
      match PerformAll(order[..|order| - 1], tree)
      case None => None
      case Some(before) => Perform(order[|order| - 1], before)
  }

  /** The tree as proposed against: creations are new, sources are files, targets are free or vacated, parents are there or come. */
  ghost predicate Fits(base: Tree, ops: seq<Operation>) {
    && (forall op | op in ops && Created(op).Some? :: Created(op).value !in base)
    && (forall op | op in ops && Takes(op).Some? :: IsFileAt(base, Takes(op).value))
    && (forall op | op in ops && MoveTarget(op).Some? && MoveTarget(op).value in base ::
          exists other :: other in ops && Takes(other) == MoveTarget(op))
    && (forall op | op in ops && Puts(op).Some? ::
          HasDirectory(base, ParentPath(Puts(op).value)) || exists dir :: dir in ops && ParentOf(op, dir))
  }

  /** What an operation leaves at the path it puts, read off the base tree. */
  function Brings(op: Operation, base: Tree): Option<Node> {
    match op.kind
    case CreateFile(_, content) => Some(File(content))
    case CreateDirectory(_) => Some(Directory)
    case MoveFile(source, _, _) => At(base, source)
    case _ => None
  }

  predicate IsPut(ops: seq<Operation>, path: string) {
    exists op :: op in ops && Puts(op) == Some(path)
  }

  predicate IsTaken(ops: seq<Operation>, path: string) {
    exists op :: op in ops && Takes(op) == Some(path)
  }

  /** All the operations at once: every path put holds what it was brought, every other path taken is gone, the rest is as before. */
  ghost predicate IsSubstituted(base: Tree, ops: seq<Operation>, tree: Tree) {
    && (forall op | op in ops && Puts(op).Some? :: At(tree, Puts(op).value) == Brings(op, base))
    && (forall path | !IsPut(ops, path) :: At(tree, path) == if IsTaken(ops, path) then None else At(base, path))
  }

  lemma SameMembers(ops: seq<Operation>, order: seq<Operation>)
    requires multiset(order) == multiset(ops)
    ensures forall op :: op in order <==> op in ops
  {
    forall op ensures op in order <==> op in ops {
      assert op in multiset(order) <==> op in order;
      assert op in multiset(ops) <==> op in ops;
    }
  }

  lemma MembersWithOneId(ops: seq<Operation>, a: Operation, b: Operation)
    requires DistinctIds(ops) && a in ops && b in ops && a.id == b.id
    ensures a == b
  {
  }

  lemma IdsAreOrdered(ops: seq<Operation>, order: seq<Operation>)
    requires DistinctIds(ops) && IsDependencyOrder(ops, order)
    ensures DependenciesFirst(GraphOf(ops), Ids(order))
  {
    SameMembers(ops, order);
    GraphOfDistinct(ops);
    var ids := Ids(order);
    forall i, d | 0 <= i < |ids| && d in Deps(GraphOf(ops), ids[i]) ensures d in ids[..i] {
      assert order[i] in ops;
      var j :| 0 <= j < |order[..i]| && order[..i][j].id == d;
      assert ids[..i][j] == d;
    }
  }

  /** A dependency of any length has already run. */
  lemma DependencyRanBefore(ops: seq<Operation>, order: seq<Operation>, at: nat, b: Operation)
    requires DistinctIds(ops) && IsDependencyOrder(ops, order) && at < |order| && b in ops
    requires DependsOnOperation(ops, order[at], b)
    ensures b in order[..at]
  {
    var g, ids := GraphOf(ops), Ids(order);
    IdsAreOrdered(ops, order);
    var p :| IsPath(g, p) && p[0] == order[at].id && p[|p| - 1] == b.id;
    PathStaysBefore(g, ids, p, at);
    var k :| 0 <= k < |ids[..at]| && ids[..at][k] == b.id;
    SameMembers(ops, order);
    assert order[..at][k] == order[k] && order[k] in order;
    MembersWithOneId(ops, order[k], b);
  }

  /** What the next operation meets, when those before it have been substituted. */
  ghost predicate IsReady(base: Tree, done: seq<Operation>, op: Operation, tree: Tree) {
    && (Takes(op).Some? ==> At(tree, Takes(op).value) == At(base, Takes(op).value))
    && (Takes(op).Some? ==> IsFileAt(base, Takes(op).value) && !IsPut(done, Takes(op).value))
    && (Puts(op).Some? ==> IsFree(tree, Puts(op).value) && !IsPut(done, Puts(op).value))
  }

  lemma NextIsTaken(rule: PathRule, ops: seq<Operation>, base: Tree, order: seq<Operation>, at: nat, tree: Tree)
    requires IsClean(rule, ops) && Fits(base, ops) && IsDependencyOrder(ops, order) && at < |order|
    requires order[at] !in order[..at] && IsSubstituted(base, order[..at], tree) && Takes(order[at]).Some?
    ensures At(tree, Takes(order[at]).value) == At(base, Takes(order[at]).value) && IsFileAt(base, Takes(order[at]).value)
    ensures !IsPut(order[..at], Takes(order[at]).value)
  {
    SameMembers(ops, order);
    var op, done, path := order[at], order[..at], Takes(order[at]).value;
    assert op in ops;
    forall putter | putter in done ensures Puts(putter) != Some(path) {
      var k :| 0 <= k < |done| && done[k] == putter;
      assert order[k] == putter && putter in order && order[..k] <= done;
      if Puts(putter) == Some(path) { DependencyRanBefore(ops, order, k, op); }
    }
    forall taker | taker in done ensures Takes(taker) != Some(path) {
      assert taker in order && (Takes(taker) == Some(path) ==> Collide(taker, op));
    }
  }

  lemma TargetIsVacant(rule: PathRule, ops: seq<Operation>, base: Tree, order: seq<Operation>, at: nat, tree: Tree)
    requires IsClean(rule, ops) && Fits(base, ops) && IsDependencyOrder(ops, order) && at < |order|
    requires order[at] !in order[..at] && IsSubstituted(base, order[..at], tree) && Puts(order[at]).Some?
    ensures !IsPut(order[..at], Puts(order[at]).value) && Puts(order[at]).value !in tree
  {
    SameMembers(ops, order);
    var op, done, path := order[at], order[..at], Puts(order[at]).value;
    assert op in ops;
    forall putter | putter in done ensures Puts(putter) != Some(path) {
      assert putter in order && (Puts(putter) == Some(path) ==> Collide(putter, op));
    }
    if path in base {
      var freer :| freer in ops && Takes(freer) == MoveTarget(op);
      assert Succeeds(op, freer);
      DependencyRanBefore(ops, order, at, freer);
      assert IsTaken(done, path);
    }
  }

  lemma ParentIsThere(rule: PathRule, ops: seq<Operation>, base: Tree, order: seq<Operation>, at: nat, tree: Tree)
    requires IsClean(rule, ops) && Fits(base, ops) && IsDependencyOrder(ops, order) && at < |order|
    requires IsSubstituted(base, order[..at], tree) && Puts(order[at]).Some?
    ensures HasDirectory(tree, ParentPath(Puts(order[at]).value))
  {
    SameMembers(ops, order);
    var op, done, parent := order[at], order[..at], ParentPath(Puts(order[at]).value);
    assert op in ops;
    if exists dir :: dir in ops && ParentOf(op, dir) {
      var dir :| dir in ops && ParentOf(op, dir);
      DependencyRanBefore(ops, order, at, dir);
      assert At(tree, Puts(dir).value) == Brings(dir, base);
    } else if parent != "" {
      assert At(base, parent) == Some(Directory);
      forall other | other in done ensures Puts(other) != Some(parent) && Takes(other) != Some(parent) {
        assert other in order;
        DirectoryStays(ops, base, other, parent);
      }
    }
  }

  lemma DirectoryStays(ops: seq<Operation>, base: Tree, op: Operation, path: string)
    requires Fits(base, ops) && op in ops && At(base, path) == Some(Directory)
    ensures Puts(op) != Some(path) && Takes(op) != Some(path)
  {
    assert forall other | other in ops && Takes(other).Some? :: Takes(other) != Some(path);
  }

  /** Carrying out a ready operation extends the substitution by that operation. */
  lemma PerformExtends(base: Tree, done: seq<Operation>, op: Operation, tree: Tree)
    requires IsSubstituted(base, done, tree) && IsReady(base, done, op, tree)
    ensures Perform(op, tree).Some? && IsSubstituted(base, done + [op], Perform(op, tree).value)
  {
    var after := done + [op];
    var result := Perform(op, tree).value;
    assert op in after;
    forall path ensures IsPut(after, path) <==> (IsPut(done, path) || Puts(op) == Some(path)) {
    }
    forall path ensures IsTaken(after, path) <==> (IsTaken(done, path) || Takes(op) == Some(path)) {
    }
    forall earlier | earlier in done && Puts(earlier).Some? ensures At(result, Puts(earlier).value) == Brings(earlier, base) {
      assert IsPut(done, Puts(earlier).value);
    }
  }

  lemma {:induction false} OrderIsDistinct(ops: seq<Operation>, order: seq<Operation>, at: nat)
    requires DistinctIds(ops) && multiset(order) == multiset(ops) && at < |order|
    ensures order[at] !in order[..at]
  {
    SameMembers(ops, order);
    if order[at] in order[..at] {
      var op := order[at];
      assert order == order[..at] + [op] + order[at + 1..];
      assert multiset(order)[op] >= 2;
      DistinctCounts(ops, op);
    }
  }

  lemma {:induction false} PrefixRuns(rule: PathRule, ops: seq<Operation>, base: Tree, order: seq<Operation>, n: nat)
    requires IsClean(rule, ops) && Fits(base, ops) && IsDependencyOrder(ops, order) && n <= |order|
    ensures PerformAll(order[..n], base).Some? && IsSubstituted(base, order[..n], PerformAll(order[..n], base).value)
  {
    if n > 0 {
      var done, op := order[..n - 1], order[n - 1];
      PrefixRuns(rule, ops, base, order, n - 1);
      var tree := PerformAll(done, base).value;
      OrderIsDistinct(ops, order, n - 1);
      if Takes(op).Some? { NextIsTaken(rule, ops, base, order, n - 1, tree); }
      if Puts(op).Some? {
        TargetIsVacant(rule, ops, base, order, n - 1, tree);
        ParentIsThere(rule, ops, base, order, n - 1, tree);
      }
      PerformExtends(base, done, op, tree);
      assert order[..n] == done + [op];
      assert order[..n][..n - 1] == done;
    }
  }

  /** Every dependency order of a clean batch runs to the end, and ends in the simultaneous substitution. */
  lemma CleanBatchRuns(rule: PathRule, ops: seq<Operation>, base: Tree, order: seq<Operation>)
    requires IsClean(rule, ops) && Fits(base, ops) && IsDependencyOrder(ops, order)
    ensures PerformAll(order, base).Some? && IsSubstituted(base, ops, PerformAll(order, base).value)
  {
    PrefixRuns(rule, ops, base, order, |order|);
    assert order[..|order|] == order;
    SameMembers(ops, order);
    var tree := PerformAll(order, base).value;
    forall path ensures IsPut(order, path) == IsPut(ops, path) && IsTaken(order, path) == IsTaken(ops, path) {
    }
    assert forall op | op in ops && Puts(op).Some? :: op in order;
  }

  /** The substitution leaves no choice. */
  lemma SubstitutionIsUnique(base: Tree, ops: seq<Operation>, a: Tree, b: Tree)
    requires IsSubstituted(base, ops, a) && IsSubstituted(base, ops, b)
    ensures a == b
  {
    forall path ensures At(a, path) == At(b, path) {
      if IsPut(ops, path) {
        var op :| op in ops && Puts(op) == Some(path);
        assert At(a, path) == Brings(op, base) == At(b, path);
      }
    }
    assert forall path :: path in a <==> At(a, path).Some?;
    assert forall path :: path in b <==> At(b, path).Some?;
    assert forall path | path in a :: At(a, path).value == a[path];
  }

  /** Preflight makes the order of execution irrelevant. */
  lemma OrderIsIrrelevant(rule: PathRule, ops: seq<Operation>, base: Tree, one: seq<Operation>, other: seq<Operation>)
    requires IsClean(rule, ops) && Fits(base, ops) && IsDependencyOrder(ops, one) && IsDependencyOrder(ops, other)
    ensures PerformAll(one, base).Some? && PerformAll(one, base) == PerformAll(other, base)
  {
    CleanBatchRuns(rule, ops, base, one);
    CleanBatchRuns(rule, ops, base, other);
    SubstitutionIsUnique(base, ops, PerformAll(one, base).value, PerformAll(other, base).value);
  }
}
