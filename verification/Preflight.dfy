/** Change Set operations and the preflight that admits a batch of them. */
module Preflight {
  import opened DependencyGraph
  import opened Text

  datatype Kind =
    | Modify(path: string)
    | CreateFile(path: string, content: string)
    | CreateDirectory(path: string)
    | DeleteFile(path: string, baseChecksum: string)
    | MoveFile(source: string, target: string, sourceChecksum: string)

  /** A missing `dependsOn` is the empty list, and a missing `selected` is true. */
  datatype Operation = Operation(
    id: string,
    idempotencyKey: string,
    group: Option<string>,
    dependsOn: seq<string>,
    selected: bool,
    kind: Kind
  )

  /** Which paths are canonical project-relative paths, of a file or of a directory. */
  type PathRule = (string, bool) -> bool

  /** `isOperationIdentifier`. */
  predicate IsOperationIdentifier(s: string) {
    0 < |s| <= 128 && forall i | 0 <= i < |s| :: IsAlphanumeric(s[i]) || s[i] == '_' || s[i] == '-'
  }

  predicate IsOperationPath(rule: PathRule, path: string, file: bool) {
    path != "" && rule(path, file)
  }

  /** `validateChangeSetOperation`. */
  predicate IsValid(rule: PathRule, op: Operation) {
    && IsOperationIdentifier(op.id)
    && IsOperationIdentifier(op.idempotencyKey)
    && (op.group.Some? ==> IsOperationIdentifier(op.group.value))
    && (forall d | d in op.dependsOn :: IsOperationIdentifier(d))
    && match op.kind {
         case Modify(path) => IsOperationPath(rule, path, true)
         case CreateFile(path, _) => IsOperationPath(rule, path, true)
         case CreateDirectory(path) => IsOperationPath(rule, path, false)
         case DeleteFile(path, checksum) => IsOperationPath(rule, path, true) && IsSha256(checksum)
         case MoveFile(source, target, checksum) =>
           && IsOperationPath(rule, source, true)
           && IsOperationPath(rule, target, true)
           && source != target
           && IsSha256(checksum)
       }
  }

  function Created(op: Operation): Option<string> {
    if op.kind.CreateFile? || op.kind.CreateDirectory? then Some(op.kind.path) else None
  }

  function Deleted(op: Operation): Option<string> {
    if op.kind.DeleteFile? then Some(op.kind.path) else None
  }

  function MoveSource(op: Operation): Option<string> {
    if op.kind.MoveFile? then Some(op.kind.source) else None
  }

  function MoveTarget(op: Operation): Option<string> {
    if op.kind.MoveFile? then Some(op.kind.target) else None
  }

  /** `operationTargetPath`. */
  function TargetPath(op: Operation): Option<string> {
    match op.kind
    case MoveFile(_, target, _) => Some(target)
    case DeleteFile(_, _) => None
    case _ => Some(op.kind.path)
  }

  /** The path an operation brings into being. */
  function Puts(op: Operation): Option<string> {
    if op.kind.MoveFile? then MoveTarget(op) else Created(op)
  }

  /** The path an operation vacates. */
  function Takes(op: Operation): Option<string> {
    if op.kind.MoveFile? then MoveSource(op) else Deleted(op)
  }

  predicate DistinctIds(ops: seq<Operation>) {
    forall i, j | 0 <= i < j < |ops| :: ops[i].id != ops[j].id
  }

  predicate HasId(ops: seq<Operation>, id: string) {
    exists i | 0 <= i < |ops| :: ops[i].id == id
  }

  predicate KnownDependencies(ops: seq<Operation>) {
    forall op, d | op in ops && d in op.dependsOn :: HasId(ops, d)
  }

  /** The adjacency map; a later operation with the same id would win. */
  function GraphOf(ops: seq<Operation>): (g: Graph)
    ensures forall n :: n in g <==> HasId(ops, n)
  {
    if ops == [] then map[]
    else
      var last := ops[|ops| - 1];
      HasIdSplits(ops[..|ops| - 1], last);
      assert ops == ops[..|ops| - 1] + [last];
      GraphOf(ops[..|ops| - 1])[last.id := last.dependsOn]
  }

  lemma HasIdSplits(ops: seq<Operation>, last: Operation)
    ensures forall n :: HasId(ops + [last], n) <==> (HasId(ops, n) || n == last.id)
  {
    forall n ensures HasId(ops + [last], n) <==> (HasId(ops, n) || n == last.id) {
      assert (ops + [last])[|ops|] == last;
      if HasId(ops, n) {
        var i :| 0 <= i < |ops| && ops[i].id == n;
        assert (ops + [last])[i].id == n;
      }
    }
  }

  lemma {:induction false} GraphOfDistinct(ops: seq<Operation>)
    requires DistinctIds(ops)
    ensures forall op | op in ops :: Deps(GraphOf(ops), op.id) == op.dependsOn
  {
    if ops != [] {
      var rest, last := ops[..|ops| - 1], ops[|ops| - 1];
      GraphOfDistinct(rest);
      forall op | op in ops ensures Deps(GraphOf(ops), op.id) == op.dependsOn {
        var i :| 0 <= i < |ops| && ops[i] == op;
        if i < |rest| {
          assert rest[i] == op && ops[i].id != last.id;
        }
      }
    }
  }

  /** `a` has a non-empty dependency path to `b`. */
  ghost predicate DependsOnOperation(ops: seq<Operation>, a: Operation, b: Operation) {
    Reaches(GraphOf(ops), a.id, b.id)
  }

  /** Both operations bring the same path into being, or both vacate it. */
  predicate Collide(a: Operation, b: Operation) {
    (Puts(a).Some? && Puts(a) == Puts(b)) || (Takes(a).Some? && Takes(a) == Takes(b))
  }

  predicate Succeeds(a: Operation, b: Operation) {
    Puts(a).Some? && Puts(a) == Takes(b)
  }

  predicate ParentOf(a: Operation, b: Operation) {
    TargetPath(a).Some? && b.kind.CreateDirectory? && b.kind.path == ParentPath(TargetPath(a).value)
  }

  /** A batch in which nothing collides and every ordering the paths demand is a declared dependency. */
  ghost predicate IsClean(rule: PathRule, ops: seq<Operation>) {
    && (forall op | op in ops :: IsValid(rule, op))
    && DistinctIds(ops)
    && KnownDependencies(ops)
    && !Cyclic(GraphOf(ops))
    && (forall a, b | a in ops && b in ops && Collide(a, b) :: a == b)
    && (forall a, b | a in ops && b in ops && Succeeds(a, b) ::
          a.kind.MoveFile? && b.kind.MoveFile? && DependsOnOperation(ops, a, b))
    && (forall a, b | a in ops && b in ops && ParentOf(a, b) :: DependsOnOperation(ops, a, b))
  }

  datatype Problem =
    | InvalidOperation(op: Operation)
    | DuplicateIds(ids: seq<string>)
    | UnknownDependency(op: Operation, missing: string)
    | DependencyCycle
    | Collision(a: Operation, b: Operation)
    | Unordered(a: Operation, b: Operation)

  predicate IsRepeated(ops: seq<Operation>, id: string) {
    exists i, j :: 0 <= i < j < |ops| && ops[i].id == ops[j].id == id
  }

  /** What is reported is really there; each of these rules a batch out. */
  ghost predicate IsReal(rule: PathRule, ops: seq<Operation>, problem: Problem) {
    match problem
    case InvalidOperation(op) => op in ops && !IsValid(rule, op)
    case DuplicateIds(ids) => ids != [] && forall id | id in ids :: IsRepeated(ops, id)
    case UnknownDependency(op, missing) => op in ops && missing in op.dependsOn && !HasId(ops, missing)
    case DependencyCycle => Cyclic(GraphOf(ops))
    case Collision(a, b) => a in ops && b in ops && a != b && Collide(a, b)
    case Unordered(a, b) =>
      && a in ops && b in ops
      && if ParentOf(a, b) then !DependsOnOperation(ops, a, b)
         else Succeeds(a, b) && !(a.kind.MoveFile? && b.kind.MoveFile? && DependsOnOperation(ops, a, b))
  }

  lemma RealProblemIsUnclean(rule: PathRule, ops: seq<Operation>, problem: Problem)
    requires IsReal(rule, ops, problem)
    ensures !IsClean(rule, ops)
  {
    if problem.DuplicateIds? {
      assert IsRepeated(ops, problem.ids[0]);
    }
  }

  /** `m` finds every operation of `ops` by the path `key` gives it. */
  predicate Indexes(m: map<string, Operation>, ops: seq<Operation>, key: Operation -> Option<string>) {
    && (forall p | p in m :: m[p] in ops && key(m[p]) == Some(p))
    && (forall op | op in ops && key(op).Some? :: key(op).value in m && m[key(op).value] == op)
  }

  /** No path is the `key` of one operation and the `other` of one as well. */
  predicate Apart(ops: seq<Operation>, key: Operation -> Option<string>, other: Operation -> Option<string>) {
    forall a, b | a in ops && b in ops && key(a).Some? :: key(a) != other(b)
  }

  lemma IndexGrows(m: map<string, Operation>, ops: seq<Operation>, key: Operation -> Option<string>, op: Operation)
    requires Indexes(m, ops, key) && (key(op).Some? ==> key(op).value !in m)
    ensures Indexes(if key(op).Some? then m[key(op).value := op] else m, ops + [op], key)
  {
  }

  /** The four path maps, filled operation by operation. */
  method CollectPaths(rule: PathRule, ops: seq<Operation>)
    returns (problem: Option<Problem>, creates: map<string, Operation>, deletes: map<string, Operation>,
             sources: map<string, Operation>, targets: map<string, Operation>)
    requires DistinctIds(ops)
    ensures problem.Some? ==> problem.value.Collision? && IsReal(rule, ops, problem.value)
    ensures problem.None? ==> Indexes(creates, ops, Created) && Indexes(deletes, ops, Deleted)
    ensures problem.None? ==> Indexes(sources, ops, MoveSource) && Indexes(targets, ops, MoveTarget)
  {
    creates, deletes, sources, targets := map[], map[], map[], map[];
    var i := 0;
    while i < |ops|
      invariant i <= |ops|
      invariant Indexes(creates, ops[..i], Created) && Indexes(deletes, ops[..i], Deleted)
      invariant Indexes(sources, ops[..i], MoveSource) && Indexes(targets, ops[..i], MoveTarget)
    {
      var op := ops[i];
      assert op !in ops[..i];
      match op.kind {
        case Modify(_) =>
        case CreateFile(_, _) | CreateDirectory(_) =>
          if op.kind.path in creates { return Some(Collision(creates[op.kind.path], op)), creates, deletes, sources, targets; }
        case DeleteFile(path, _) =>
          if path in deletes { return Some(Collision(deletes[path], op)), creates, deletes, sources, targets; }
        case MoveFile(source, target, _) =>
          if source in sources { return Some(Collision(sources[source], op)), creates, deletes, sources, targets; }
          if target in targets { return Some(Collision(targets[target], op)), creates, deletes, sources, targets; }
      }
      IndexGrows(creates, ops[..i], Created, op);
      IndexGrows(deletes, ops[..i], Deleted, op);
      IndexGrows(sources, ops[..i], MoveSource, op);
      IndexGrows(targets, ops[..i], MoveTarget, op);
      assert ops[..i + 1] == ops[..i] + [op];
      match op.kind {
        case Modify(_) =>
        case CreateFile(path, _) => creates := creates[path := op];
        case CreateDirectory(path) => creates := creates[path := op];
        case DeleteFile(path, _) => deletes := deletes[path := op];
        case MoveFile(source, target, _) => sources, targets := sources[source := op], targets[target := op];
      }
      i := i + 1;
    }
    assert ops[..i] == ops;
    problem := None;
  }

  /** Creations against deletions and moves, then deletions against moves; maps are walked in the order they were filled. */
  method CrossCheck(rule: PathRule, ops: seq<Operation>, deletes: map<string, Operation>,
                    sources: map<string, Operation>, targets: map<string, Operation>) returns (problem: Option<Problem>)
    requires Indexes(deletes, ops, Deleted) && Indexes(sources, ops, MoveSource) && Indexes(targets, ops, MoveTarget)
    ensures problem.Some? ==> (problem.value.Collision? || problem.value.Unordered?) && IsReal(rule, ops, problem.value)
    ensures problem.None? ==> Apart(ops, Created, Deleted) && Apart(ops, Created, MoveSource) && Apart(ops, Created, MoveTarget)
    ensures problem.None? ==> Apart(ops, Deleted, MoveSource) && Apart(ops, Deleted, MoveTarget)
  {
    var i := 0;
    while i < |ops|
      invariant i <= |ops|
      invariant forall j | 0 <= j < i && Created(ops[j]).Some? ::
          Created(ops[j]).value !in deletes && Created(ops[j]).value !in sources && Created(ops[j]).value !in targets
    {
      var created := Created(ops[i]);
      if created.Some? {
        if created.value in deletes { return Some(Unordered(ops[i], deletes[created.value])); }
        if created.value in sources { return Some(Unordered(ops[i], sources[created.value])); }
        if created.value in targets { return Some(Collision(ops[i], targets[created.value])); }
      }
      i := i + 1;
    }
    i := 0;
    while i < |ops|
      invariant i <= |ops|
      invariant forall j | 0 <= j < i && Deleted(ops[j]).Some? ::
          Deleted(ops[j]).value !in sources && Deleted(ops[j]).value !in targets
    {
      var deleted := Deleted(ops[i]);
      if deleted.Some? {
        if deleted.value in sources { return Some(Collision(ops[i], sources[deleted.value])); }
        if deleted.value in targets { return Some(Unordered(targets[deleted.value], ops[i])); }
      }
      i := i + 1;
    }
    problem := None;
  }

  /** A move onto a path another move frees must depend on it; a swap is a dependency cycle. */
  method ChainCheck(rule: PathRule, ops: seq<Operation>, sources: map<string, Operation>) returns (problem: Option<Problem>)
    requires forall op | op in ops :: IsValid(rule, op)
    requires Indexes(sources, ops, MoveSource)
    ensures problem.Some? ==> problem.value.Unordered? && IsReal(rule, ops, problem.value)
    ensures problem.None? ==> forall a, b | a in ops && b in ops && MoveTarget(a).Some? && MoveTarget(a) == MoveSource(b) ::
        DependsOnOperation(ops, a, b)
  {
    var graph := GraphOf(ops);
    for i := 0 to |ops|
      invariant forall j | 0 <= j < i && MoveTarget(ops[j]).Some? && MoveTarget(ops[j]).value in sources ::
          DependsOnOperation(ops, ops[j], sources[MoveTarget(ops[j]).value])
    {
      var target := MoveTarget(ops[i]);
      if target.Some? && target.value in sources {
        var depends := DependsOn(graph, ops[i].id, sources[target.value].id);
        if !depends { return Some(Unordered(ops[i], sources[target.value])); }
      }
    }
    problem := None;
  }

  /** Whatever is put into a directory of the batch must depend on its creation. */
  method ParentCheck(rule: PathRule, ops: seq<Operation>, creates: map<string, Operation>) returns (problem: Option<Problem>)
    requires Indexes(creates, ops, Created)
    ensures problem.Some? ==> problem.value.Unordered? && IsReal(rule, ops, problem.value)
    ensures problem.None? ==> forall a, b | a in ops && b in ops && ParentOf(a, b) :: DependsOnOperation(ops, a, b)
  {
    var graph := GraphOf(ops);
    for i := 0 to |ops|
      invariant forall j, b | 0 <= j < i && b in ops && ParentOf(ops[j], b) :: DependsOnOperation(ops, ops[j], b)
    {
      var target := TargetPath(ops[i]);
      if target.Some? {
        var parent := ParentPath(target.value);
        if parent in creates && creates[parent].kind.CreateDirectory? {
          var depends := DependsOn(graph, ops[i].id, creates[parent].id);
          if !depends { return Some(Unordered(ops[i], creates[parent])); }
        }
      }
    }
    problem := None;
  }

  /** Each operation on its own, then the ids, then the dependencies between them. */
  method CheckIds(rule: PathRule, ops: seq<Operation>) returns (problem: Option<Problem>, ghost order: seq<Operation>)
    ensures problem.Some? ==> IsReal(rule, ops, problem.value)
    ensures problem.None? ==>
        (forall op | op in ops :: IsValid(rule, op)) && DistinctIds(ops) && KnownDependencies(ops) && !Cyclic(GraphOf(ops))
    ensures problem.None? ==> IsDependencyOrder(ops, order)
  {
    order := [];
    for i := 0 to |ops|
      invariant forall j | 0 <= j < i :: IsValid(rule, ops[j])
    {
      if !IsValid(rule, ops[i]) { return Some(InvalidOperation(ops[i])), []; }
    }
    var ids, duplicates: seq<string> := {}, [];
    for i := 0 to |ops|
      invariant forall id :: id in ids <==> HasId(ops[..i], id)
      invariant forall id | id in duplicates :: IsRepeated(ops, id)
      invariant duplicates == [] ==> DistinctIds(ops[..i])
    {
      if ops[i].id in ids { duplicates := duplicates + [ops[i].id]; }
      ids := ids + {ops[i].id};
      HasIdSplits(ops[..i], ops[i]);
      assert ops[..i + 1] == ops[..i] + [ops[i]];
    }
    assert ops[..|ops|] == ops;
    if duplicates != [] { return Some(DuplicateIds(duplicates)), []; }
    for i := 0 to |ops|
      invariant forall j, d | 0 <= j < i && d in ops[j].dependsOn :: HasId(ops, d)
    {
      for k := 0 to |ops[i].dependsOn|
        invariant forall m | 0 <= m < k :: HasId(ops, ops[i].dependsOn[m])
      {
        if ops[i].dependsOn[k] !in ids { return Some(UnknownDependency(ops[i], ops[i].dependsOn[k])), []; }
      }
    }
    NodesAreIds(ops);
    var cycle, sorted := FindCycle(GraphOf(ops), Ids(ops));
    if cycle { return Some(DependencyCycle), []; }
    TopologicalOrderOrders(ops, sorted);
    order := InOrder(ops, sorted);
    problem := None;
  }

  function Ids(ops: seq<Operation>): (ids: seq<string>)
    ensures |ids| == |ops| && forall i | 0 <= i < |ops| :: ids[i] == ops[i].id
  {
    seq(|ops|, i requires 0 <= i < |ops| => ops[i].id)
  }

  lemma IdsHold(ops: seq<Operation>, id: string)
    ensures id in Ids(ops) <==> HasId(ops, id)
  {
    if HasId(ops, id) {
      var i :| 0 <= i < |ops| && ops[i].id == id;
      assert Ids(ops)[i] == id;
    }
  }

  /** The operation with an id. */
  function WithId(ops: seq<Operation>, id: string): (op: Operation)
    requires HasId(ops, id)
    ensures op in ops && op.id == id
  {
    if ops[0].id == id then ops[0] else WithId(ops[1..], id)
  }

  ghost function InOrder(ops: seq<Operation>, ids: seq<string>): (order: seq<Operation>)
    requires forall id | id in ids :: HasId(ops, id)
    ensures |order| == |ids| && forall i | 0 <= i < |ids| :: order[i] == WithId(ops, ids[i])
  {
    seq(|ids|, i requires 0 <= i < |ids| => WithId(ops, ids[i]))
  }

  /** An arrangement of the whole batch in which every operation comes after what it depends on. */
  ghost predicate IsDependencyOrder(ops: seq<Operation>, order: seq<Operation>) {
    && multiset(order) == multiset(ops)
    && forall i, d | 0 <= i < |order| && d in order[i].dependsOn :: HasId(order[..i], d)
  }

  lemma {:induction false} DistinctCounts(ops: seq<Operation>, op: Operation)
    requires DistinctIds(ops)
    ensures multiset(ops)[op] == if op in ops then 1 else 0
  {
    if ops != [] {
      var rest, last := ops[..|ops| - 1], ops[|ops| - 1];
      assert ops == rest + [last];
      DistinctCounts(rest, op);
      if last == op {
        assert op !in rest;
      }
    }
  }

  lemma OrderedMembers(ops: seq<Operation>, ids: seq<string>)
    requires DistinctIds(ops) && AreDistinct(ids) && forall id :: id in ids <==> HasId(ops, id)
    ensures DistinctIds(InOrder(ops, ids)) && multiset(InOrder(ops, ids)) == multiset(ops)
  {
    var order := InOrder(ops, ids);
    forall op ensures op in order <==> op in ops {
      if op in ops {
        var k :| 0 <= k < |ops| && ops[k] == op;
        assert HasId(ops, op.id);
        var i :| 0 <= i < |ids| && ids[i] == op.id;
        assert order[i] == op;
      }
    }
    forall op ensures multiset(order)[op] == multiset(ops)[op] {
      DistinctCounts(order, op);
      DistinctCounts(ops, op);
    }
  }

  /** A topological order of the ids arranges the operations. */
  lemma TopologicalOrderOrders(ops: seq<Operation>, ids: seq<string>)
    requires DistinctIds(ops) && IsTopologicalOrder(GraphOf(ops), Ids(ops), ids)
    ensures forall id | id in ids :: HasId(ops, id)
    ensures IsDependencyOrder(ops, InOrder(ops, ids))
  {
    forall id ensures id in ids <==> HasId(ops, id) { IdsHold(ops, id); }
    OrderedMembers(ops, ids);
    GraphOfDistinct(ops);
    var order := InOrder(ops, ids);
    forall i, d | 0 <= i < |order| && d in order[i].dependsOn ensures HasId(order[..i], d) {
      assert Deps(GraphOf(ops), ids[i]) == order[i].dependsOn;
      var k :| 0 <= k < |ids[..i]| && ids[..i][k] == d;
      assert order[..i][k].id == d;
    }
  }

  lemma NodesAreIds(ops: seq<Operation>)
    requires DistinctIds(ops) && KnownDependencies(ops)
    ensures forall n | n in GraphOf(ops) :: n in Ids(ops)
    ensures forall n, d | n in GraphOf(ops) && d in GraphOf(ops)[n] :: d in Ids(ops)
  {
    var order := Ids(ops);
    GraphOfDistinct(ops);
    forall n | HasId(ops, n) ensures n in order {
      var i :| 0 <= i < |ops| && ops[i].id == n;
      assert order[i] == n;
    }
    forall n, d | n in GraphOf(ops) && d in GraphOf(ops)[n] ensures d in order {
      var i :| 0 <= i < |ops| && ops[i].id == n;
      assert d in ops[i].dependsOn;
    }
  }

  lemma AdmittedIsClean(rule: PathRule, ops: seq<Operation>, creates: map<string, Operation>, deletes: map<string, Operation>,
                        sources: map<string, Operation>, targets: map<string, Operation>)
    requires (forall op | op in ops :: IsValid(rule, op)) && DistinctIds(ops) && KnownDependencies(ops) && !Cyclic(GraphOf(ops))
    requires Indexes(creates, ops, Created) && Indexes(deletes, ops, Deleted)
    requires Indexes(sources, ops, MoveSource) && Indexes(targets, ops, MoveTarget)
    requires Apart(ops, Created, Deleted) && Apart(ops, Created, MoveSource) && Apart(ops, Created, MoveTarget)
    requires Apart(ops, Deleted, MoveSource) && Apart(ops, Deleted, MoveTarget)
    requires forall a, b | a in ops && b in ops && MoveTarget(a).Some? && MoveTarget(a) == MoveSource(b) :: DependsOnOperation(ops, a, b)
    requires forall a, b | a in ops && b in ops && ParentOf(a, b) :: DependsOnOperation(ops, a, b)
    ensures IsClean(rule, ops)
  {
    forall a, b | a in ops && b in ops && Collide(a, b) ensures a == b {
    }
    forall a, b | a in ops && b in ops && Succeeds(a, b)
      ensures a.kind.MoveFile? && b.kind.MoveFile? && DependsOnOperation(ops, a, b)
    {
    }
  }

  /** `preflightChangeSetOperations` admits exactly the clean batches, each of which has an order to run in, and names a real
      problem in any other. */
  method PreflightOperations(rule: PathRule, ops: seq<Operation>) returns (problem: Option<Problem>, ghost order: seq<Operation>)
    ensures problem.None? <==> IsClean(rule, ops)
    ensures problem.None? ==> IsDependencyOrder(ops, order)
    ensures problem.Some? ==> IsReal(rule, ops, problem.value)
  {
    problem, order := CheckIds(rule, ops);
    if problem.Some? {
      RealProblemIsUnclean(rule, ops, problem.value);
      return;
    }
    var creates, deletes, sources, targets;
    problem, creates, deletes, sources, targets := CollectPaths(rule, ops);
    if problem.None? {
      problem := CrossCheck(rule, ops, deletes, sources, targets);
      if problem.None? {
        problem := ChainCheck(rule, ops, sources);
        if problem.None? {
          problem := ParentCheck(rule, ops, creates);
          if problem.None? {
            AdmittedIsClean(rule, ops, creates, deletes, sources, targets);
            return;
          }
        }
      }
    }
    RealProblemIsUnclean(rule, ops, problem.value);
  }
}
