/** No lifecycle call loses or duplicates a user's object. */
module Conservation {
  import opened Text
  import opened Volume
  import opened LifecycleMarker
  import opened Lifecycle
  import opened LifecycleCrash
  import opened Resume
  import opened Compensate

  /** Where `obj` stands, the operation's own marker aside. Its size is the object's multiplicity. */
  function Places(ns: Namespace, marker: Key, obj: Object): set<Key> {
    set k | k in ns && k != marker && ns[k].obj == obj
  }

  /** The step creates, writes and removes nothing but the marker, and renames nothing from or onto it. */
  predicate Gentle(s: Step, marker: Key) {
    match s
    case Create(name, _) => name.At() == marker
    case Truncate(name) => name.At() == marker
    case Write(name, _) => name.At() == marker
    case Remove(name) => name.At() == marker
    case Rename(from, to) => from.At() != marker && to.At() != marker
    case Sync(_) => true
    case Flush(_) => true
  }

  predicate AllGentle(plan: Plan, marker: Key) {
    plan.Then? ==> Gentle(plan.step, marker) && AllGentle(plan.rest, marker)
  }

  lemma StepConserves(ns: Namespace, s: Step, marker: Key, obj: Object)
    requires Gentle(s, marker) && Enabled(ns, s)
    ensures |Places(Apply(ns, s), marker, obj)| == |Places(ns, marker, obj)|
  {
    var before, after := Places(ns, marker, obj), Places(Apply(ns, s), marker, obj);
    if s.Rename? && ns[s.from.At()].obj == obj {
      assert after == before - {s.from.At()} + {s.to.At()};
    } else {
      assert after == before;
    }
  }

  /** Every prefix of a gentle plan, cut anywhere, keeps each object's multiplicity; others can only add. */
  lemma {:induction false} RunConserves(ns: Namespace, plan: Plan, w: World, marker: Key, obj: Object)
    requires AllGentle(plan, marker)
    ensures |Places(Run(ns, plan, w).ns, marker, obj)| >= |Places(ns, marker, obj)|
    ensures Quiet(w) ==> |Places(Run(ns, plan, w).ns, marker, obj)| == |Places(ns, marker, obj)|
    decreases plan
  {
    if plan.Then? {
      var seen := Interfere(ns, NextAdditions(w));
      assert Places(ns, marker, obj) <= Places(seen, marker, obj);
      SubsetSize(Places(ns, marker, obj), Places(seen, marker, obj));
      assert Quiet(w) ==> seen == ns;
      if w.limit == 0 {
        assert Places(Cut(seen, plan.step, w.tear), marker, obj) == Places(seen, marker, obj);
      } else if Enabled(seen, plan.step) {
        StepConserves(seen, plan.step, marker, obj);
        RunConserves(Apply(seen, plan.step), plan.rest, Later(w), marker, obj);
      }
    }
  }

  lemma SubsetSize(a: set<Key>, b: set<Key>)
    requires a <= b
    ensures |a| <= |b|
  {
    assert b == a + (b - a);
  }

  /** `restoreEngineeringFileV2`: the quarantined object back to a free path; there is no marker. */
  function RestorePlan(op: Operation): Plan {
    Then(Rename(Quarantined(op), op.Target()), Then(Flush({op.recovery}), Then(Flush({op.Target().dir}), Done)))
  }

  function Quarantined(op: Operation): Name {
    Name(op.recovery, op.request.recoveryObjectId)
  }

  predicate RestoreReady(op: Operation, ns: Namespace) {
    && op.request.operationKind == "restore_file" && op.request.recoveryObjectId != ""
    && op.request.targetProof == ABSENT
    && Free(ns, op.Target()) && Open(ns, Quarantined(op), File).Opened?
  }

  method RestoreEngineeringFile(op: Operation, disk: Disk) returns (ok: bool)
    modifies disk
    ensures Outcome(disk.ns, disk.world, ok) ==
      if RestoreReady(op, old(disk.ns)) then Run(old(disk.ns), RestorePlan(op), old(disk.world))
      else Outcome(old(disk.ns), old(disk.world), false)
  {
    if op.request.operationKind != "restore_file" || op.request.recoveryObjectId == "" || op.request.targetProof != ABSENT {
      return false;
    }
    if !Free(disk.ns, op.Target()) || !Open(disk.ns, Quarantined(op), File).Opened? { return false; }
    ok := disk.Do(Rename(Quarantined(op), op.Target()));
    if ok { ok := disk.Do(Flush({op.recovery})); }
    if ok { ok := disk.Do(Flush({op.Target().dir})); }
  }

  // ---------- which plans are gentle ----------

  lemma GentleRewrite(op: Operation, phase: string, identity: string, rest: Plan)
    requires AllGentle(rest, op.MarkerName().At())
    ensures AllGentle(Rewrite(op, phase, identity, rest), op.MarkerName().At())
  {
    assert AllGentle(Then(Write(op.MarkerName(), op.MarkerText(phase, identity)), Then(Sync(op.MarkerName()), rest)),
                     op.MarkerName().At());
  }

  lemma GentleFlushes(op: Operation, rest: Plan)
    requires AllGentle(rest, op.MarkerName().At())
    ensures AllGentle(FlushBoth(op, rest), op.MarkerName().At())
    ensures AllGentle(Then(Flush({op.Source().dir}), rest), op.MarkerName().At())
    ensures AllGentle(Then(Flush({op.Target().dir}), rest), op.MarkerName().At())
  {
  }

  lemma MoveIsGentle(op: Operation, markerId: string)
    requires NamesApart(op) && op.request.operationKind == MOVE
    ensures AllGentle(MovePlan(op, markerId), op.MarkerName().At())
    ensures AllGentle(CompleteCasePlan(op), op.MarkerName().At())
  {
    var id := op.request.sourceFileIdentity;
    GentleFlushes(op, Done);
    GentleRewrite(op, AFTER, id, FlushBoth(op, Done));
    GentleFlushes(op, FinishMovePlan(op));
    var toTarget := Then(Rename(op.Stage(), op.Target()), FlushBoth(op, FinishMovePlan(op)));
    GentleRewrite(op, CASE_INTERMEDIATE, id, toTarget);
    GentleFlushes(op, Rewrite(op, CASE_INTERMEDIATE, id, toTarget));
    var body := if op.IsCaseOnly() then CaseMovePlan(op) else PlainMovePlan(op);
    GentleFlushes(op, body);
    GentleRewrite(op, PREPARED, "", FlushBoth(op, body));
    GentleRewrite(op, AFTER, id, Then(Flush({op.Target().dir}), Done));
    GentleFlushes(op, Rewrite(op, AFTER, id, Then(Flush({op.Target().dir}), Done)));
  }

  lemma QuarantineIsGentle(op: Operation, markerId: string)
    requires NamesApart(op) && op.request.operationKind == DELETE
    ensures AllGentle(QuarantinePlan(op, markerId), op.MarkerName().At())
  {
    var finish := Rewrite(op, AFTER, op.request.sourceFileIdentity, Then(Flush({op.Source().dir}), Done));
    GentleFlushes(op, Done);
    GentleRewrite(op, AFTER, op.request.sourceFileIdentity, Then(Flush({op.Source().dir}), Done));
    GentleFlushes(op, finish);
    var rename := Then(Rename(op.Source(), op.Target()), FlushBoth(op, finish));
    GentleFlushes(op, rename);
    GentleRewrite(op, PREPARED, "", Then(Flush({op.Source().dir}), rename));
  }

  lemma UndoIsGentle(op: Operation)
    requires NamesApart(op) && IsTransfer(op)
    ensures AllGentle(PlainUndoPlan(op), op.MarkerName().At()) && AllGentle(CaseUndoPlan(op), op.MarkerName().At())
    ensures AllGentle(RemovalPlan(op), op.MarkerName().At())
  {
    GentleFlushes(op, Done);
    GentleFlushes(op, Then(Rename(op.Rollback(), op.Source()), FlushBoth(op, Done)));
  }

  /** Moves, quarantines, restores, case completions and both file compensations: wherever they stop, every user
      object is exactly as often in the content and recovery roots as before, and never rarer when others add. */
  lemma TransfersConserve(op: Operation, markerId: string, ns: Namespace, plan: Plan, w: World, obj: Object)
    requires op.WellFormed() && IsTransfer(op)
    requires
      || (op.request.operationKind == MOVE && plan in {MovePlan(op, markerId), CompleteCasePlan(op)})
      || (op.request.operationKind == DELETE && plan == QuarantinePlan(op, markerId))
      || plan in {PlainUndoPlan(op), CaseUndoPlan(op), RemovalPlan(op)}
    ensures
      var marker, after := op.MarkerName().At(), Run(ns, plan, w).ns;
      && |Places(after, marker, obj)| >= |Places(ns, marker, obj)|
      && (Quiet(w) ==> |Places(after, marker, obj)| == |Places(ns, marker, obj)|)
  {
    WellFormedNamesApart(op);
    if op.request.operationKind == MOVE { MoveIsGentle(op, markerId); }
    if op.request.operationKind == DELETE { QuarantineIsGentle(op, markerId); }
    UndoIsGentle(op);
    RunConserves(ns, plan, w, op.MarkerName().At(), obj);
  }

  /** A restore needs no marker, so it conserves with respect to any name that it does not rename. */
  lemma RestoreConserves(op: Operation, ns: Namespace, w: World, other: Key, obj: Object)
    requires other != Quarantined(op).At() && other != op.Target().At()
    ensures |Places(Run(ns, RestorePlan(op), w).ns, other, obj)| >= |Places(ns, other, obj)|
    ensures Quiet(w) ==> |Places(Run(ns, RestorePlan(op), w).ns, other, obj)| == |Places(ns, other, obj)|
  {
    assert AllGentle(Then(Flush({op.recovery}), Then(Flush({op.Target().dir}), Done)), other);
    RunConserves(ns, RestorePlan(op), w, other, obj);
  }

  /** Quarantining a file, finalizing, and restoring it to its old path gives back the starting namespace. */
  lemma RestoreUndoesQuarantine(op: Operation, back: Operation, ns: Namespace, markerId: string, w: World)
    requires op.WellFormed() && QuarantineReady(op, ns) && Free(ns, op.MarkerName()) && Lets(w, QuarantinePlan(op, markerId))
    requires w.limit >= Length(QuarantinePlan(op, markerId)) + 5
    requires back.request.operationKind == "restore_file" && back.request.recoveryObjectId != ""
    requires back.request.targetProof == ABSENT && Quarantined(back) == op.Target() && back.Target() == op.Source()
    ensures
      var gone := Run(ns, QuarantinePlan(op, markerId), w);
      var final := Finalized(op, gone.ns, gone.world, true);
      var restored := Run(final.ns, RestorePlan(back), final.world);
      gone.ok && final.ok && RestoreReady(back, final.ns) && restored.ok && restored.ns == ns
  {
    WellFormedNamesApart(op);
    var gone, m := Transferred(op, ns, markerId), op.MarkerName().At();
    ExecQuarantine(op, ns, markerId);
    RunIsExec(ns, QuarantinePlan(op, markerId), w);
    TransferredIsAfter(op, ns, markerId);
    var left := Run(ns, QuarantinePlan(op, markerId), w).world;
    MarkerStaysReadable(op, gone, markerId);
    ExecRemoval(op, gone);
    RunIsExec(gone, RemovalPlan(op), left);
    RestoreRuns(op, back, ns, markerId, Run(gone, RemovalPlan(op), left).world);
  }

  lemma RestoreRuns(op: Operation, back: Operation, ns: Namespace, markerId: string, w: World)
    requires op.WellFormed() && NamesApart(op) && QuarantineReady(op, ns) && Free(ns, op.MarkerName())
    requires Quiet(w) && w.limit >= 3
    requires Quarantined(back) == op.Target() && back.Target() == op.Source()
    ensures
      var final := Transferred(op, ns, markerId) - {op.MarkerName().At()};
      var restored := Run(final, RestorePlan(back), w);
      && Free(final, back.Target()) && Open(final, Quarantined(back), File).Opened?
      && restored.ok && restored.ns == ns
  {
    var final := Transferred(op, ns, markerId) - {op.MarkerName().At()};
    var flushes := Then(Flush({back.recovery}), Then(Flush({back.Target().dir}), Done));
    assert Apply(final, Rename(Quarantined(back), back.Target())) == ns;
    assert Exec(ns, Then(Flush({back.Target().dir}), Done)) == Exec(ns, Done);
    assert Exec(ns, flushes) == Some(ns);
    assert Length(Then(Flush({back.Target().dir}), Done)) == 1 + Length(Done);
    RunIsExec(final, RestorePlan(back), w);
  }
}

