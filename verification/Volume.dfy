/** A volume as the lifecycle operations see it: a case-insensitive namespace, the primitive system calls that
    change it, and runs of those calls that may stop anywhere. */
module Volume {
  import opened Text

  /** A requested directory entry: the identity of its parent directory and the spelling asked for. */
  datatype Name = Name(dir: string, leaf: string) {
    function At(): Key { Key(dir, Fold(leaf)) }
  }

  datatype Key = Key(dir: string, folded: string)
  datatype Kind = File | Directory
  datatype Object = Object(id: string, kind: Kind, bytes: string)
  datatype Entry = Entry(leaf: string, obj: Object)

  /** Names that differ only by case share a key; the entry remembers the spelling on disk. */
  type Namespace = map<Key, Entry>

  // ---------- observation ----------

  datatype Opened = NotFound | UnsafePath | UnsafeObject | Opened(obj: Object)

  /** `openMutationLeafWithAccess` and `openMutationDirectoryLeafWithAccess`: the lookup ignores case, the kind
      must fit and the spelling on disk must be the one asked for. */
  function Open(ns: Namespace, name: Name, kind: Kind): Opened {
    if name.At() !in ns then NotFound
    else if ns[name.At()].obj.kind != kind then UnsafeObject
    else if ns[name.At()].leaf != name.leaf then UnsafePath
    else Opened(ns[name.At()].obj)
  }

  /** `checkRelativeLeafAbsent`: nothing of any kind or spelling stands at the name. */
  predicate Free(ns: Namespace, name: Name) {
    name.At() !in ns
  }

  predicate Holds(ns: Namespace, name: Name, obj: Object) {
    Open(ns, name, obj.kind) == Opened(obj)
  }

  predicate IsEmptyDirectory(ns: Namespace, id: string) {
    forall k | k in ns :: k.dir != id
  }

  // ---------- primitive calls ----------

  datatype Step =
    | Create(name: Name, obj: Object)
    | Truncate(name: Name)
    | Write(name: Name, bytes: string)
    | Rename(from: Name, to: Name)
    | Remove(name: Name)
    | Sync(name: Name)
    | Flush(dirs: set<string>)

  /** Creates and renames never replace what already stands at their destination. */
  predicate Enabled(ns: Namespace, s: Step) {
    match s
    case Create(name, _) => Free(ns, name)
    case Truncate(name) => !Free(ns, name)
    case Write(name, _) => !Free(ns, name)
    case Rename(from, to) => !Free(ns, from) && Free(ns, to)
    case Remove(name) =>
      !Free(ns, name) && (ns[name.At()].obj.kind.Directory? ==> IsEmptyDirectory(ns, ns[name.At()].obj.id))
    case Sync(_) => true
    case Flush(_) => true
  }

  function PutBytes(ns: Namespace, name: Name, bytes: string): Namespace
    requires !Free(ns, name)
  {
    var e := ns[name.At()];
    ns[name.At() := e.(obj := e.obj.(bytes := bytes))]
  }

  function Apply(ns: Namespace, s: Step): Namespace
    requires Enabled(ns, s)
  {
    match s
    case Create(name, obj) => ns[name.At() := Entry(name.leaf, obj)]
    case Truncate(name) => PutBytes(ns, name, "")
    case Write(name, bytes) => PutBytes(ns, name, bytes)
    case Rename(from, to) => (ns - {from.At()})[to.At() := Entry(to.leaf, ns[from.At()].obj)]
    case Remove(name) => ns - {name.At()}
    case Sync(_) => ns
    case Flush(_) => ns
  }

  // ---------- runs ----------

  datatype Plan = Done | Then(step: Step, rest: Plan)

  /** What surrounds a run: after `limit` successful calls the process stops, a write that is cut off leaves its
      first `tear` bytes, and before call `i` other processes add `env[i]` at names that are free. */
  datatype World = World(limit: nat, tear: nat, env: seq<Namespace>)

  datatype Outcome = Outcome(ns: Namespace, world: World, ok: bool)

  function Interfere(ns: Namespace, additions: Namespace): Namespace {
    additions + ns
  }

  function NextAdditions(w: World): Namespace {
    if w.env == [] then map[] else w.env[0]
  }

  function Later(w: World): World {
    World(if w.limit == 0 then 0 else w.limit - 1, w.tear, if w.env == [] then [] else w.env[1..])
  }

  /** What a cut-off call leaves behind. */
  function Cut(ns: Namespace, s: Step, tear: nat): Namespace {
    if s.Write? && !Free(ns, s.name) && tear <= |s.bytes| then PutBytes(ns, s.name, s.bytes[..tear]) else ns
  }

  function Run(ns: Namespace, plan: Plan, w: World): Outcome
    decreases plan
  {
    match plan
    case Done => Outcome(ns, w, true)
    case Then(s, rest) =>
      var seen := Interfere(ns, NextAdditions(w));
      if w.limit == 0 then Outcome(Cut(seen, s, w.tear), Later(w), false)
      else if !Enabled(seen, s) then Outcome(seen, Later(w), false)
      else Run(Apply(seen, s), rest, Later(w))
  }

  /** The mutable volume: every call changes `ns` and uses up one turn of the surrounding world. */
  class Disk {
    var ns: Namespace
    var world: World

    constructor (ns: Namespace, world: World)
      ensures this.ns == ns && this.world == world
    {
      this.ns, this.world := ns, world;
    }

    /** One system call. The clause says the call is one turn of `Run`, whatever plan continues it. */
    method Do(s: Step) returns (ok: bool)
      modifies this
      ensures forall rest: Plan ::
        Run(old(ns), Then(s, rest), old(world)) == if ok then Run(ns, rest, world) else Outcome(ns, world, false)
      ensures ok ==>
        var seen := Interfere(old(ns), NextAdditions(old(world)));
        Enabled(seen, s) && ns == Apply(seen, s)
    {
      ns := Interfere(ns, NextAdditions(world));
      if world.limit == 0 {
        ns := Cut(ns, s, world.tear);
        ok := false;
      } else if !Enabled(ns, s) {
        ok := false;
      } else {
        ns := Apply(ns, s);
        ok := true;
      }
      world := Later(world);
    }
  }

  // ---------- reasoning about runs ----------

  predicate Quiet(w: World) {
    w.env == []
  }

  /** One plan after the other. */
  function Append(plan: Plan, rest: Plan): Plan {
    if plan.Done? then rest else Then(plan.step, Append(plan.rest, rest))
  }

  lemma {:induction false} RunAppends(ns: Namespace, plan: Plan, rest: Plan, w: World)
    ensures
      var r := Run(ns, plan, w);
      Run(ns, Append(plan, rest), w) == if r.ok then Run(r.ns, rest, r.world) else r
    decreases plan
  {
    if plan.Then? {
      var seen := Interfere(ns, NextAdditions(w));
      if w.limit > 0 && Enabled(seen, plan.step) { RunAppends(Apply(seen, plan.step), plan.rest, rest, Later(w)); }
    }
  }

  function Restrict(ns: Namespace, keys: set<Key>): Namespace {
    map k | k in ns && k in keys :: ns[k]
  }

  predicate Touches(s: Step, keys: set<Key>) {
    match s
    case Create(name, _) => name.At() in keys
    case Truncate(name) => name.At() in keys
    case Write(name, _) => name.At() in keys
    case Rename(from, to) => from.At() in keys && to.At() in keys
    case Remove(name) => false
    case Sync(_) => true
    case Flush(_) => true
  }

  /** Every call of the plan stays on `keys` and removes nothing. */
  predicate Within(plan: Plan, keys: set<Key>) {
    plan.Then? ==> Touches(plan.step, keys) && Within(plan.rest, keys)
  }

  /** The surrounding processes leave `keys` alone. */
  predicate Avoids(w: World, keys: set<Key>) {
    forall i | 0 <= i < |w.env| :: w.env[i].Keys !! keys
  }

  lemma RestrictStep(ns: Namespace, s: Step, keys: set<Key>)
    requires Touches(s, keys)
    ensures Enabled(ns, s) <==> Enabled(Restrict(ns, keys), s)
    ensures Enabled(ns, s) ==> Restrict(Apply(ns, s), keys) == Apply(Restrict(ns, keys), s)
  {
  }

  /** On keys the others avoid, a run looks exactly like the same run undisturbed. */
  lemma {:induction false} RunRestricts(ns: Namespace, plan: Plan, w: World, keys: set<Key>)
    requires Within(plan, keys) && Avoids(w, keys)
    ensures
      var alone := Run(Restrict(ns, keys), plan, w.(env := []));
      Restrict(Run(ns, plan, w).ns, keys) == alone.ns && Run(ns, plan, w).ok == alone.ok
    decreases plan
  {
    if plan.Then? {
      var seen := Interfere(ns, NextAdditions(w));
      var alone := w.(env := []);
      assert Restrict(seen, keys) == Restrict(ns, keys);
      assert Interfere(Restrict(ns, keys), NextAdditions(alone)) == Restrict(ns, keys);
      if w.limit == 0 {
        CutRestricts(seen, plan.step, w.tear, keys);
      } else {
        RestrictStep(seen, plan.step, keys);
        if Enabled(seen, plan.step) {
          RunRestricts(Apply(seen, plan.step), plan.rest, Later(w), keys);
          assert Later(w).(env := []) == Later(alone);
        }
      }
    }
  }

  lemma CutRestricts(ns: Namespace, s: Step, tear: nat, keys: set<Key>)
    requires Touches(s, keys)
    ensures Restrict(Cut(ns, s, tear), keys) == Cut(Restrict(ns, keys), s, tear)
  {
  }

  function Length(plan: Plan): nat {
    if plan.Done? then 0 else 1 + Length(plan.rest)
  }

  /** The namespace after all calls of a plan, when none of them finds its destination occupied. */
  function Exec(ns: Namespace, plan: Plan): Option<Namespace>
    decreases plan
  {
    match plan
    case Done => Some(ns)
    case Then(s, rest) => if Enabled(ns, s) then Exec(Apply(ns, s), rest) else None
  }

  /** Undisturbed and given enough time, a run is the execution of its plan. */
  lemma {:induction false} RunIsExec(ns: Namespace, plan: Plan, w: World)
    requires Quiet(w) && w.limit >= Length(plan)
    ensures
      var r := Run(ns, plan, w);
      r.ok == Exec(ns, plan).Some? && (r.ok ==> Some(r.ns) == Exec(ns, plan) && r.world.limit == w.limit - Length(plan)) && Quiet(r.world)
    decreases plan
  {
    if plan.Then? {
      assert Interfere(ns, NextAdditions(w)) == ns;
      if Enabled(ns, plan.step) {
        RunIsExec(Apply(ns, plan.step), plan.rest, Later(w));
      }
    }
  }

  // ---------- spellings ----------

  /** Every entry stands under the key of its own spelling: what the volume guarantees of itself. */
  predicate IsFolded(ns: Namespace) {
    forall k | k in ns :: k.folded == Fold(ns[k].leaf)
  }

  predicate BringsFolded(w: World) {
    forall i | 0 <= i < |w.env| :: IsFolded(w.env[i])
  }

  /** No call and no arrival ends it. */
  lemma {:induction false} RunKeepsFolded(ns: Namespace, plan: Plan, w: World)
    requires IsFolded(ns) && BringsFolded(w)
    ensures IsFolded(Run(ns, plan, w).ns) && BringsFolded(Run(ns, plan, w).world)
    decreases plan
  {
    if plan.Then? {
      var seen := Interfere(ns, NextAdditions(w));
      assert IsFolded(seen) && BringsFolded(Later(w));
      if w.limit > 0 && Enabled(seen, plan.step) { RunKeepsFolded(Apply(seen, plan.step), plan.rest, Later(w)); }
    }
  }

  // ---------- arrivals elsewhere ----------

  /** What others have added, in the order it came: what stands first stays. */
  function Arrivals(ns: Namespace, env: seq<Namespace>): Namespace
    decreases |env|
  {
    if env == [] then ns else Arrivals(Interfere(ns, env[0]), env[1..])
  }

  predicate AllAvoid(env: seq<Namespace>, keys: set<Key>) {
    forall i | 0 <= i < |env| :: env[i].Keys !! keys
  }

  lemma {:induction false} ArrivalsAppend(ns: Namespace, env: seq<Namespace>, last: Namespace)
    ensures Arrivals(ns, env + [last]) == Interfere(Arrivals(ns, env), last)
    decreases |env|
  {
    if env == [] {
      assert ([] + [last])[1..] == [];
    } else {
      ArrivalsAppend(Interfere(ns, env[0]), env[1..], last);
      assert (env + [last])[1..] == env[1..] + [last];
    }
  }

  lemma StepCommutes(ns: Namespace, s: Step, additions: Namespace, keys: set<Key>, tear: nat)
    requires Touches(s, keys) && additions.Keys !! keys
    ensures Enabled(Interfere(ns, additions), s) <==> Enabled(ns, s)
    ensures Enabled(ns, s) ==> Apply(Interfere(ns, additions), s) == Interfere(Apply(ns, s), additions)
    ensures Cut(Interfere(ns, additions), s, tear) == Interfere(Cut(ns, s, tear), additions)
  {
    if s.Write? && !Free(ns, s.name) { BytesCommute(ns, s.name, additions, keys); }
    if s.Truncate? && !Free(ns, s.name) { BytesCommute(ns, s.name, additions, keys); }
  }

  lemma BytesCommute(ns: Namespace, name: Name, additions: Namespace, keys: set<Key>)
    requires !Free(ns, name) && name.At() in keys && additions.Keys !! keys
    ensures forall bytes :: PutBytes(Interfere(ns, additions), name, bytes) == Interfere(PutBytes(ns, name, bytes), additions)
  {
  }

  lemma {:induction false} ArrivalsCommute(ns: Namespace, s: Step, env: seq<Namespace>, keys: set<Key>, tear: nat)
    requires Touches(s, keys) && AllAvoid(env, keys)
    ensures Enabled(Arrivals(ns, env), s) <==> Enabled(ns, s)
    ensures Enabled(ns, s) ==> Apply(Arrivals(ns, env), s) == Arrivals(Apply(ns, s), env)
    ensures Cut(Arrivals(ns, env), s, tear) == Arrivals(Cut(ns, s, tear), env)
    decreases |env|
  {
    if env != [] {
      assert env[0].Keys !! keys;
      StepCommutes(ns, s, env[0], keys, tear);
      ArrivalsCommute(Interfere(ns, env[0]), s, env[1..], keys, tear);
    }
  }

  lemma {:induction false} ArrivalsStayAway(ns: Namespace, env: seq<Namespace>, keys: set<Key>, k: Key)
    requires AllAvoid(env, keys) && k in keys
    ensures k in Arrivals(ns, env) <==> k in ns
    ensures k in ns ==> Arrivals(ns, env)[k] == ns[k]
    decreases |env|
  {
    if env != [] {
      assert env[0].Keys !! keys;
      ArrivalsStayAway(Interfere(ns, env[0]), env[1..], keys, k);
    }
  }

  /** What of the surrounding additions has arrived once `later` is left of them. */
  function Arrived(w: World, later: World): seq<Namespace> {
    if |later.env| <= |w.env| then w.env[..|w.env| - |later.env|] else []
  }

  ghost predicate IsRest(later: World, w: World) {
    |later.env| <= |w.env| && later.env == w.env[|w.env| - |later.env|..]
  }

  /** The additions that are there when the next call is made. */
  function Seen(env: seq<Namespace>, w: World): seq<Namespace> {
    if w.env == [] then env else env + [w.env[0]]
  }

  lemma ArrivalsSeen(ns: Namespace, env: seq<Namespace>, w: World, keys: set<Key>)
    requires AllAvoid(env, keys) && Avoids(w, keys)
    ensures AllAvoid(Seen(env, w), keys) && Interfere(Arrivals(ns, env), NextAdditions(w)) == Arrivals(ns, Seen(env, w))
    ensures Avoids(Later(w), keys)
  {
    if w.env == [] {
      assert Interfere(Arrivals(ns, env), map[]) == Arrivals(ns, env);
    } else {
      ArrivalsAppend(ns, env, w.env[0]);
    }
  }

  /** One turn among additions elsewhere is the turn alone, and then the additions. */
  lemma TurnCommutes(ns: Namespace, env: seq<Namespace>, s: Step, rest: Plan, w: World, keys: set<Key>)
    requires Touches(s, keys) && Avoids(w, keys) && AllAvoid(env, keys)
    ensures
      var r := Run(Arrivals(ns, env), Then(s, rest), w);
      if w.limit == 0 then r == Outcome(Arrivals(Cut(ns, s, w.tear), Seen(env, w)), Later(w), false)
      else if !Enabled(ns, s) then r == Outcome(Arrivals(ns, Seen(env, w)), Later(w), false)
      else r == Run(Arrivals(Apply(ns, s), Seen(env, w)), rest, Later(w))
    ensures AllAvoid(Seen(env, w), keys) && Avoids(Later(w), keys)
  {
    ArrivalsSeen(ns, env, w, keys);
    ArrivalsCommute(ns, s, Seen(env, w), keys, w.tear);
  }

  lemma TurnAlone(ns: Namespace, s: Step, rest: Plan, w: World)
    ensures
      var r := Run(ns, Then(s, rest), w.(env := []));
      if w.limit == 0 then r == Outcome(Cut(ns, s, w.tear), Later(w).(env := []), false)
      else if !Enabled(ns, s) then r == Outcome(ns, Later(w).(env := []), false)
      else r == Run(Apply(ns, s), rest, Later(w).(env := []))
  {
    assert Interfere(ns, map[]) == ns;
  }

  /** Additions that avoid a plan's names, before it and during it, are simply there at the end: the run is otherwise what it
      would be alone, wherever it stops. */
  lemma {:induction false} RunCommutes(ns: Namespace, env: seq<Namespace>, plan: Plan, w: World, keys: set<Key>)
    requires Within(plan, keys) && Avoids(w, keys) && AllAvoid(env, keys)
    ensures
      var r, alone := Run(Arrivals(ns, env), plan, w), Run(ns, plan, w.(env := []));
      && r.ok == alone.ok && r.world.limit == alone.world.limit && IsRest(r.world, w)
      && r.ns == Arrivals(alone.ns, env + Arrived(w, r.world))
    decreases plan
  {
    if plan.Done? {
      assert env + [] == env;
    } else {
      var s, rest := plan.step, plan.rest;
      TurnCommutes(ns, env, s, rest, w, keys);
      TurnAlone(ns, s, rest, w);
      ArrivedNext(w, env);
      if w.limit > 0 && Enabled(ns, s) {
        RunCommutes(Apply(ns, s), Seen(env, w), rest, Later(w), keys);
        ArrivedOn(w, env, Run(Arrivals(Apply(ns, s), Seen(env, w)), rest, Later(w)).world);
      }
    }
  }

  lemma ArrivedNext(w: World, env: seq<Namespace>)
    ensures IsRest(Later(w), w)
    ensures env + Arrived(w, Later(w)) == Seen(env, w)
  {
  }

  lemma ArrivedOn(w: World, env: seq<Namespace>, later: World)
    requires IsRest(later, Later(w))
    ensures IsRest(later, w)
    ensures Seen(env, w) + Arrived(Later(w), later) == env + Arrived(w, later)
  {
    if w.env != [] {
      assert Later(w).env == w.env[1..];
      assert Arrived(w, later) == [w.env[0]] + Arrived(Later(w), later);
    }
  }
}
