/** Runs among other processes: what holds at every moment, and what is never taken from the others. */
module Disturbed {
  import opened Volume

  /** Every namespace a run passes through, in order: before and after each arrival of additions and each call. */
  function Trace(ns: Namespace, plan: Plan, w: World): (t: seq<Namespace>)
    ensures t != [] && t[0] == ns && t[|t| - 1] == Run(ns, plan, w).ns
    decreases plan
  {
    match plan
    case Done => [ns]
    case Then(s, rest) =>
      var seen := Interfere(ns, NextAdditions(w));
      if w.limit == 0 then [ns, seen, Cut(seen, s, w.tear)]
      else if !Enabled(seen, s) then [ns, seen]
      else [ns, seen] + Trace(Apply(seen, s), rest, Later(w))
  }

  /** Every entry of `a` whose object is none of `own` is still in `b`, unchanged. */
  predicate Keeps(a: Namespace, b: Namespace, own: set<string>) {
    forall k | k in a && a[k].obj.id !in own :: k in b && b[k] == a[k]
  }

  /** Additions that bring in none of these identities, whatever names they take. */
  predicate BringsNo(ids: set<string>, additions: Namespace) {
    forall k | k in additions :: additions[k].obj.id !in ids
  }

  function Anything(): Namespace -> bool {
    (additions: Namespace) => true
  }

  function NoneOf(ids: set<string>): Namespace -> bool {
    (additions: Namespace) => BringsNo(ids, additions)
  }

  /** Whatever others add before whichever call, it is one of `some`. */
  ghost predicate Brings(w: World, some: Namespace -> bool) {
    some(map[]) && forall i | 0 <= i < |w.env| :: some(w.env[i])
  }

  /** Whatever others add of what `some` admits and wherever the plan stops: `P` holds throughout, no call touches an
      object that is not the operation's own, and a plan that comes to its end ends in `end`. */
  ghost predicate Amid(P: Namespace -> bool, end: Namespace -> bool, some: Namespace -> bool, own: set<string>, ns: Namespace, plan: Plan)
    decreases plan
  {
    && P(ns)
    && (plan.Done? ==> end(ns))
    && (plan.Then? ==> forall additions: Namespace {:trigger Interfere(ns, additions)} | some(additions) ::
          var seen := Interfere(ns, additions);
          && P(seen)
          && (forall n: nat :: P(Cut(seen, plan.step, n)) && Keeps(seen, Cut(seen, plan.step, n), own))
          && (Enabled(seen, plan.step) ==>
                Keeps(seen, Apply(seen, plan.step), own) && Amid(P, end, some, own, Apply(seen, plan.step), plan.rest)))
  }

  ghost predicate Throughout(P: Namespace -> bool, own: set<string>, t: seq<Namespace>) {
    && (forall i | 0 <= i < |t| :: P(t[i]))
    && (forall i, j | 0 <= i <= j < |t| :: Keeps(t[i], t[j], own))
  }

  lemma ThroughoutPrepend(P: Namespace -> bool, own: set<string>, a: Namespace, t: seq<Namespace>)
    requires t != [] && Throughout(P, own, t) && P(a) && Keeps(a, t[0], own)
    ensures Throughout(P, own, [a] + t)
  {
    var u := [a] + t;
    forall i, j | 0 <= i <= j < |u| ensures Keeps(u[i], u[j], own) {
      if i == 0 && j > 0 {
        assert Keeps(t[0], t[j - 1], own);
      }
    }
  }

  lemma ThroughoutPrependTwo(P: Namespace -> bool, own: set<string>, a: Namespace, b: Namespace, t: seq<Namespace>)
    requires t != [] && Throughout(P, own, t) && P(a) && P(b) && Keeps(b, t[0], own) && Keeps(a, b, own)
    ensures Throughout(P, own, [a, b] + t)
  {
    ThroughoutPrepend(P, own, b, t);
    ThroughoutPrepend(P, own, a, [b] + t);
    assert [a] + ([b] + t) == [a, b] + t;
  }

  lemma {:induction false} AmidCoversTrace(P: Namespace -> bool, end: Namespace -> bool, some: Namespace -> bool, own: set<string>,
                                         ns: Namespace, plan: Plan, w: World)
    requires Amid(P, end, some, own, ns, plan) && Brings(w, some)
    ensures Throughout(P, own, Trace(ns, plan, w)) && P(Run(ns, plan, w).ns)
    ensures Run(ns, plan, w).ok ==> end(Run(ns, plan, w).ns)
    decreases plan
  {
    if plan.Then? {
      var s, seen := plan.step, Interfere(ns, NextAdditions(w));
      assert some(NextAdditions(w)) && Brings(Later(w), some);
      assert P(seen) && Keeps(ns, seen, own);
      if w.limit == 0 {
        var cut := Cut(seen, s, w.tear);
        assert P(cut) && Keeps(seen, cut, own);
        ThroughoutPrependTwo(P, own, ns, seen, [cut]);
      } else if !Enabled(seen, s) {
        ThroughoutPrepend(P, own, ns, [seen]);
      } else {
        var next := Apply(seen, s);
        AmidCoversTrace(P, end, some, own, next, plan.rest, Later(w));
        ThroughoutPrependTwo(P, own, ns, seen, Trace(next, plan.rest, Later(w)));
      }
    }
  }

  /** What is left of the world after a run is no worse. */
  lemma {:induction false} WorldStaysSo(some: Namespace -> bool, ns: Namespace, plan: Plan, w: World)
    requires Brings(w, some)
    ensures Brings(Run(ns, plan, w).world, some)
    decreases plan
  {
    if plan.Then? {
      var seen := Interfere(ns, NextAdditions(w));
      assert Brings(Later(w), some);
      if w.limit > 0 && Enabled(seen, plan.step) { WorldStaysSo(some, Apply(seen, plan.step), plan.rest, Later(w)); }
    }
  }

  // ---------- plans that go from phase to phase ----------

  /** The additions cannot end the phase. */
  ghost predicate Lasts(some: Namespace -> bool, phase: Namespace -> bool) {
    forall ns: Namespace, additions: Namespace {:trigger Interfere(ns, additions)} | phase(ns) && some(additions) ::
      phase(Interfere(ns, additions))
  }

  /** One call from a phase: it leads to the next, keeps `P` even when cut off, and touches only own objects. */
  ghost predicate Steers(P: Namespace -> bool, own: set<string>, from: Namespace -> bool, s: Step, to: Namespace -> bool) {
    forall ns: Namespace | from(ns) ::
      && P(ns)
      && (forall n: nat :: P(Cut(ns, s, n)) && Keeps(ns, Cut(ns, s, n), own))
      && (Enabled(ns, s) ==> Keeps(ns, Apply(ns, s), own) && to(Apply(ns, s)))
  }

  ghost predicate SafelyFrom(P: Namespace -> bool, end: Namespace -> bool, some: Namespace -> bool, own: set<string>,
                             phase: Namespace -> bool, plan: Plan)
  {
    forall ns: Namespace | phase(ns) :: Amid(P, end, some, own, ns, plan)
  }

  lemma StepSafely(P: Namespace -> bool, end: Namespace -> bool, some: Namespace -> bool, own: set<string>, from: Namespace -> bool,
                   s: Step, to: Namespace -> bool, rest: Plan)
    requires Lasts(some, from) && Steers(P, own, from, s, to) && SafelyFrom(P, end, some, own, to, rest)
    ensures SafelyFrom(P, end, some, own, from, Then(s, rest))
  {
    forall ns: Namespace | from(ns) ensures Amid(P, end, some, own, ns, Then(s, rest)) {
      forall additions: Namespace | some(additions) ensures from(Interfere(ns, additions)) {
      }
    }
  }

  ghost predicate Implies(phase: Namespace -> bool, P: Namespace -> bool) {
    forall ns: Namespace | phase(ns) :: P(ns)
  }

  /** Flushes change nothing. */
  lemma IdleSafely(P: Namespace -> bool, end: Namespace -> bool, some: Namespace -> bool, own: set<string>, phase: Namespace -> bool,
                   s: Step, rest: Plan)
    requires s.Flush? || s.Sync?
    requires Lasts(some, phase) && Implies(phase, P) && SafelyFrom(P, end, some, own, phase, rest)
    ensures SafelyFrom(P, end, some, own, phase, Then(s, rest))
  {
    assert Steers(P, own, phase, s, phase);
    StepSafely(P, end, some, own, phase, s, phase, rest);
  }

  lemma EndSafely(P: Namespace -> bool, end: Namespace -> bool, some: Namespace -> bool, own: set<string>, phase: Namespace -> bool)
    requires Implies(phase, P) && Implies(phase, end)
    ensures SafelyFrom(P, end, some, own, phase, Done)
  {
  }
}
