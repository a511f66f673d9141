/** The two depth-first searches over operation dependencies, and what they decide. */
module DependencyGraph {
  /** Each operation id with the ids it depends on. */
  type Graph = map<string, seq<string>>

  function Deps(g: Graph, n: string): seq<string> {
    if n in g then g[n] else []
  }

  /** A walk of at least one edge. */
  predicate IsPath(g: Graph, p: seq<string>) {
    |p| >= 2 && forall i | 0 <= i < |p| - 1 :: p[i + 1] in Deps(g, p[i])
  }

  ghost predicate Reaches(g: Graph, a: string, b: string) {
    exists p :: IsPath(g, p) && p[0] == a && p[|p| - 1] == b
  }

  ghost predicate Cyclic(g: Graph) {
    exists n :: Reaches(g, n, n)
  }

  /** Everything an element depends on stands before it. */
  predicate DependenciesFirst(g: Graph, order: seq<string>) {
    forall i, d | 0 <= i < |order| && d in Deps(g, order[i]) :: d in order[..i]
  }

  lemma TailIsPath(g: Graph, p: seq<string>)
    requires IsPath(g, p) && |p| > 2
    ensures IsPath(g, p[1..])
  {
    forall i | 0 <= i < |p[1..]| - 1 ensures p[1..][i + 1] in Deps(g, p[1..][i]) {
      assert p[(i + 1) + 1] in Deps(g, p[i + 1]);
    }
  }

  lemma {:induction false} PathStaysBefore(g: Graph, order: seq<string>, p: seq<string>, at: nat)
    requires DependenciesFirst(g, order) && IsPath(g, p) && at < |order| && order[at] == p[0]
    ensures p[|p| - 1] in order[..at]
    decreases |p|
  {
    assert p[1] in Deps(g, order[at]);
    var next :| 0 <= next < at && order[next] == p[1];
    if |p| > 2 {
      var rest := p[1..];
      TailIsPath(g, p);
      PathStaysBefore(g, order, rest, next);
      assert order[..next] <= order[..at];
    }
  }

  /** A graph whose nodes can all be put in dependency order has no cycle. */
  lemma OrderedIsAcyclic(g: Graph, order: seq<string>)
    requires DependenciesFirst(g, order) && forall n | n in g :: n in order
    ensures !Cyclic(g)
  {
    if Cyclic(g) {
      var n :| Reaches(g, n, n);
      var p :| IsPath(g, p) && p[0] == n && p[|p| - 1] == n;
      assert p[1] in Deps(g, p[0]);
      FirstOccurrence(order, n);
      var first :| 0 <= first < |order| && order[first] == n && n !in order[..first];
      PathStaysBefore(g, order, p, first);
    }
  }

  lemma FirstOccurrence(s: seq<string>, x: string)
    requires x in s
    ensures exists i :: 0 <= i < |s| && s[i] == x && x !in s[..i]
  {
    if s[0] != x {
      FirstOccurrence(s[1..], x);
      var i :| 0 <= i < |s[1..]| && s[1..][i] == x && x !in s[1..][..i];
      assert s[..i + 1] == [s[0]] + s[1..][..i];
      assert s[i + 1] == x;
    } else {
      assert s[..0] == [];
    }
  }

  /** Closes the part of the search stack from `node` on into a cycle. */
  lemma StackClosesCycle(g: Graph, stack: seq<string>, node: string)
    requires stack != [] && node in stack && node in Deps(g, stack[|stack| - 1])
    requires forall i | 0 <= i < |stack| - 1 :: stack[i + 1] in Deps(g, stack[i])
    ensures Cyclic(g)
  {
    var at :| 0 <= at < |stack| && stack[at] == node;
    var p := stack[at..] + [node];
    forall i | 0 <= i < |p| - 1 ensures p[i + 1] in Deps(g, p[i]) {
      assert p[i] == stack[at + i];
    }
    assert IsPath(g, p) && p[0] == node && p[|p| - 1] == node;
    assert Reaches(g, node, node);
  }

  predicate AreDistinct(s: seq<string>) {
    forall i, j | 0 <= i < j < |s| :: s[i] != s[j]
  }

  predicate AllIn(s: seq<string>, universe: set<string>) {
    forall n | n in s :: n in universe
  }

  predicate EdgesStayIn(g: Graph, universe: set<string>) {
    forall n | n in g :: AllIn(g[n], universe)
  }

  /** All of `ids`, each once, with everything an element depends on before it. */
  ghost predicate IsTopologicalOrder(g: Graph, ids: seq<string>, order: seq<string>) {
    DependenciesFirst(g, order) && AreDistinct(order) && forall n :: n in order <==> n in ids
  }

  /** The search so far: `stack` is a walk of distinct nodes, `done` holds the nodes already left, in dependency order. */
  ghost predicate Searching(g: Graph, visited: set<string>, inStack: set<string>, stack: seq<string>, done: seq<string>) {
    && visited == inStack + (set n | n in done)
    && inStack == (set n | n in stack)
    && (forall n | n in done :: n !in stack)
    && AreDistinct(stack) && AreDistinct(done)
    && (forall i | 0 <= i < |stack| - 1 :: stack[i + 1] in Deps(g, stack[i]))
    && DependenciesFirst(g, done)
  }

  lemma StackIsCyclic(g: Graph, visited: set<string>, inStack: set<string>, stack: seq<string>, done: seq<string>, node: string)
    requires Searching(g, visited, inStack, stack, done) && node in inStack
    requires stack != [] ==> node in Deps(g, stack[|stack| - 1])
    ensures Cyclic(g)
  {
    StackClosesCycle(g, stack, node);
  }

  lemma SeenIsDone(g: Graph, visited: set<string>, inStack: set<string>, stack: seq<string>, done: seq<string>, node: string)
    requires Searching(g, visited, inStack, stack, done) && node in visited && node !in inStack
    ensures node in done
  {
  }

  lemma Enter(g: Graph, visited: set<string>, inStack: set<string>, stack: seq<string>, done: seq<string>, node: string)
    requires Searching(g, visited, inStack, stack, done) && node !in visited
    requires stack != [] ==> node in Deps(g, stack[|stack| - 1])
    ensures Searching(g, visited + {node}, inStack + {node}, stack + [node], done)
  {
  }

  lemma Leave(g: Graph, visited: set<string>, inStack: set<string>, stack: seq<string>, done: seq<string>, node: string)
    requires Searching(g, visited, inStack, stack + [node], done)
    requires forall d | d in Deps(g, node) :: d in done
    ensures Searching(g, visited, inStack - {node}, stack, done + [node])
  {
    var under := stack + [node];
    assert forall n | n in under :: n in stack || n == node;
    assert under[|stack|] == node;
    assert forall i | 0 <= i < |stack| :: under[i] == stack[i] && under[i] != under[|stack|];
    assert inStack - {node} == (set n | n in stack);
    var after := done + [node];
    forall i, d | 0 <= i < |after| && d in Deps(g, after[i]) ensures d in after[..i] {
      if i < |done| {
        assert after[..i] == done[..i];
      } else {
        assert after[..i] == done;
      }
    }
  }

  /** The shared state of `hasCycle`: the nodes seen, and those on the current search path. */
  class CycleSearch {
    const g: Graph
    var visited: set<string>
    var inStack: set<string>
    ghost var stack: seq<string>
    ghost var done: seq<string>

    ghost predicate Valid()
      reads this
    {
      Searching(g, visited, inStack, stack, done)
    }

    constructor (g: Graph)
      ensures Valid() && this.g == g && stack == [] && done == []
    {
      this.g, visited, inStack, stack, done := g, {}, {}, [], [];
    }

    /** `hasCycle`: a node that is left without a cycle has been put in dependency order. */
    method HasCycle(node: string, ghost universe: set<string>) returns (found: bool)
      requires Valid() && node in universe && (stack != [] ==> node in Deps(g, stack[|stack| - 1]))
      requires AllIn(done, universe) && EdgesStayIn(g, universe)
      modifies this
      decreases universe - visited
      ensures found ==> Cyclic(g)
      ensures !found ==> AllIn(done, universe)
      ensures !found ==> Valid() && stack == old(stack) && node in done && old(done) <= done && old(visited) <= visited
    {
      if node in inStack {
        StackIsCyclic(g, visited, inStack, stack, done, node);
        return true;
      }
      if node in visited {
        SeenIsDone(g, visited, inStack, stack, done, node);
        return false;
      }
      Enter(g, visited, inStack, stack, done, node);
      visited := visited + {node};
      inStack := inStack + {node};
      stack := stack + [node];
      var deps := if node in g then g[node] else [];
      var i := 0;
      while i < |deps|
        invariant i <= |deps|
        invariant Valid() && stack == old(stack) + [node] && old(done) <= done && old(visited) + {node} <= visited
        invariant (forall j | 0 <= j < i :: deps[j] in done) && AllIn(done, universe)
      {
        found := HasCycle(deps[i], universe);
        if found { return; }
        i := i + 1;
      }
      Leave(g, visited, inStack, old(stack), done, node);
      inStack := inStack - {node};
      stack := old(stack);
      done := done + [node];
      found := false;
    }
  }

  /** The nodes searched from in turn: a cycle is reported exactly when there is one, and otherwise all nodes have been put in
      dependency order. */
  method FindCycle(g: Graph, ids: seq<string>) returns (cycle: bool, ghost order: seq<string>)
    requires forall n | n in g :: n in ids
    requires forall n, d | n in g && d in g[n] :: d in ids
    ensures cycle <==> Cyclic(g)
    ensures !cycle ==> IsTopologicalOrder(g, ids, order)
  {
    var search := new CycleSearch(g);
    ghost var universe := set n | n in ids;
    var i := 0;
    while i < |ids|
      invariant i <= |ids| && search.g == g && search.Valid() && search.stack == []
      invariant (forall j | 0 <= j < i :: ids[j] in search.done) && AllIn(search.done, universe)
    {
      var found := search.HasCycle(ids[i], universe);
      if found { return true, []; }
      i := i + 1;
    }
    order := search.done;
    OrderedIsAcyclic(g, order);
    cycle := false;
  }

  /** Every dependency of `n` has been seen, and none is the target. */
  predicate Cleared(g: Graph, n: string, seen: set<string>, target: string) {
    forall d | d in Deps(g, n) :: d in seen && d != target
  }

  /** The shared state of `operationDependsOn`. */
  class DependencySearch {
    const g: Graph
    var visited: set<string>

    constructor (g: Graph)
      ensures this.g == g && visited == {}
    {
      this.g, visited := g, {};
    }

    /** `visit`: either the target is reachable, or everything reachable has been visited without meeting it. */
    method Visit(current: string, target: string, ghost universe: set<string>) returns (found: bool)
      requires EdgesStayIn(g, universe)
      modifies this
      decreases universe - visited
      ensures old(visited) <= visited
      ensures found ==> Reaches(g, current, target)
      ensures !found ==> Cleared(g, current, visited, target)
      ensures !found ==> forall v | v in visited - old(visited) :: Cleared(g, v, visited, target)
    {
      var deps := if current in g then g[current] else [];
      var i := 0;
      while i < |deps|
        invariant i <= |deps| && old(visited) <= visited
        invariant forall j | 0 <= j < i :: deps[j] in visited && deps[j] != target
        invariant forall v | v in visited - old(visited) :: Cleared(g, v, visited, target)
      {
        var dependency := deps[i];
        if dependency == target {
          assert IsPath(g, [current, target]);
          return true;
        }
        if dependency !in visited {
          ghost var before := visited;
          visited := visited + {dependency};
          if dependency in g {
            found := Visit(dependency, target, universe);
            if found {
              PrependEdge(g, current, dependency, target);
              return;
            }
          }
          forall v | v in visited - old(visited) ensures Cleared(g, v, visited, target) {
            assert v in before ==> Cleared(g, v, before, target);
          }
        }
        i := i + 1;
      }
      found := false;
    }
  }

  lemma PrependEdge(g: Graph, a: string, b: string, c: string)
    requires b in Deps(g, a) && Reaches(g, b, c)
    ensures Reaches(g, a, c)
  {
    var p :| IsPath(g, p) && p[0] == b && p[|p| - 1] == c;
    var q := [a] + p;
    forall i | 0 <= i < |q| - 1 ensures q[i + 1] in Deps(g, q[i]) {
      if i > 0 { assert q[i] == p[i - 1] && q[i + 1] == p[i]; }
    }
    assert IsPath(g, q);
  }

  lemma {:induction false} ClosedSetTraps(g: Graph, closed: set<string>, p: seq<string>, target: string)
    requires IsPath(g, p) && p[|p| - 1] == target
    requires Cleared(g, p[0], closed, target)
    requires forall v | v in closed :: Cleared(g, v, closed, target)
    ensures false
    decreases |p|
  {
    assert p[1] in Deps(g, p[0]);
    if |p| > 2 {
      var rest := p[1..];
      TailIsPath(g, p);
      ClosedSetTraps(g, closed, rest, target);
    }
  }

  /** `operationDependsOn` is true exactly when a non-empty dependency path leads to the target. */
  method DependsOn(g: Graph, from: string, target: string) returns (depends: bool)
    ensures depends <==> Reaches(g, from, target)
  {
    var search := new DependencySearch(g);
    ghost var universe := set n, d | n in g && d in g[n] :: d;
    depends := search.Visit(from, target, universe);
    if !depends && Reaches(g, from, target) {
      ghost var p :| IsPath(g, p) && p[0] == from && p[|p| - 1] == target;
      ClosedSetTraps(g, search.visited, p, target);
    }
  }
}
