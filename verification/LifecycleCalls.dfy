/** The lifecycle entry points as they run: one system call after another on a volume that may fail, tear a
    write, or be changed by others between any two calls. */
module LifecycleCalls {
  import opened Text
  import opened Volume
  import opened LifecycleMarker
  import opened Lifecycle
  import opened LifecycleCrash
  import opened DirectoryCrash
  import opened Resume
  import opened Compensate

  /** `rewriteLifecycleMarker`. */
  method RewriteMarker(op: Operation, disk: Disk, phase: string, identity: string) returns (ok: bool)
    modifies disk
    ensures forall rest: Plan ::
      Run(old(disk.ns), Rewrite(op, phase, identity, rest), old(disk.world))
        == if ok then Run(disk.ns, rest, disk.world) else Outcome(disk.ns, disk.world, false)
  {
    ok := disk.Do(Truncate(op.MarkerName()));
    if ok { ok := disk.Do(Write(op.MarkerName(), op.MarkerText(phase, identity))); }
    if ok { ok := disk.Do(Sync(op.MarkerName())); }
  }

  /** `createLifecycleMarker`. */
  method CreateMarker(op: Operation, disk: Disk, markerId: string) returns (ok: bool)
    modifies disk
    ensures forall rest: Plan ::
      Run(old(disk.ns), OpenMarker(op, markerId, rest), old(disk.world))
        == if ok then Run(disk.ns, rest, disk.world) else Outcome(disk.ns, disk.world, false)
  {
    ok := disk.Do(Create(op.MarkerName(), Object(markerId, File, "")));
    if ok { ok := RewriteMarker(op, disk, PREPARED, ""); }
  }

  /** `flushMoveDirectories`. */
  method FlushDirectories(op: Operation, disk: Disk) returns (ok: bool)
    modifies disk
    ensures forall rest: Plan ::
      Run(old(disk.ns), FlushBoth(op, rest), old(disk.world))
        == if ok then Run(disk.ns, rest, disk.world) else Outcome(disk.ns, disk.world, false)
  {
    ok := disk.Do(Flush({op.Source().dir}));
    if ok { ok := disk.Do(Flush({op.Target().dir})); }
  }

  /** `moveEngineeringPathV2`: the precondition checks, then the plan, call by call. */
  method MoveEngineeringPath(op: Operation, disk: Disk, markerId: string) returns (ok: bool)
    modifies disk
    ensures Outcome(disk.ns, disk.world, ok) ==
      if MoveReady(op, old(disk.ns)) then Run(old(disk.ns), MovePlan(op, markerId), old(disk.world))
      else Outcome(old(disk.ns), old(disk.world), false)
  {
    if op.request.operationKind != MOVE || op.request.expectedState != "wal_prepared" { return false; }
    if ObserveFile(op, disk.ns, op.Source()) != Match { return false; }
    var caseOnly := op.IsCaseOnly();
    if caseOnly {
      if !op.SameParent() || Fold(op.Source().leaf) != Fold(op.Target().leaf) || op.Source().leaf == op.Target().leaf {
        return false;
      }
    } else {
      if op.request.targetProof != ABSENT || !Free(disk.ns, op.Target()) { return false; }
    }
    ok := CreateMarker(op, disk, markerId);
    if ok { ok := FlushDirectories(op, disk); }
    if caseOnly {
      if ok { ok := disk.Do(Rename(op.Source(), op.Stage())); }
      if ok { ok := FlushDirectories(op, disk); }
      if ok { ok := RewriteMarker(op, disk, CASE_INTERMEDIATE, op.request.sourceFileIdentity); }
      if ok { ok := disk.Do(Rename(op.Stage(), op.Target())); }
      if ok { ok := FlushDirectories(op, disk); }
    } else {
      if ok { ok := disk.Do(Rename(op.Source(), op.Target())); }
      if ok { ok := FlushDirectories(op, disk); }
    }
    if ok { ok := RewriteMarker(op, disk, AFTER, op.request.sourceFileIdentity); }
    if ok { ok := FlushDirectories(op, disk); }
  }

  /** `quarantineEngineeringFileV2`. */
  method QuarantineEngineeringFile(op: Operation, disk: Disk, markerId: string) returns (ok: bool)
    modifies disk
    ensures Outcome(disk.ns, disk.world, ok) ==
      if QuarantineReady(op, old(disk.ns)) then Run(old(disk.ns), QuarantinePlan(op, markerId), old(disk.world))
      else Outcome(old(disk.ns), old(disk.world), false)
  {
    if op.request.operationKind != DELETE || op.request.expectedState != "wal_prepared" { return false; }
    if !Free(disk.ns, op.Target()) || ObserveFile(op, disk.ns, op.Source()) != Match { return false; }
    ok := CreateMarker(op, disk, markerId);
    if ok { ok := disk.Do(Flush({op.Source().dir})); }
    if ok { ok := disk.Do(Rename(op.Source(), op.Target())); }
    if ok { ok := FlushDirectories(op, disk); }
    if ok { ok := RewriteMarker(op, disk, AFTER, op.request.sourceFileIdentity); }
    if ok { ok := disk.Do(Flush({op.Source().dir})); }
  }

  /** `createEngineeringDirectoryV2`; `id` is the identity the volume gives the new directory. */
  method CreateEngineeringDirectory(op: Operation, disk: Disk, markerId: string, id: string) returns (ok: bool)
    modifies disk
    ensures Outcome(disk.ns, disk.world, ok) ==
      if CreateDirectoryReady(op, old(disk.ns)) then Run(old(disk.ns), CreateDirectoryPlan(op, markerId, id), old(disk.world))
      else Outcome(old(disk.ns), old(disk.world), false)
  {
    if op.request.operationKind != CREATE_DIRECTORY || op.request.expectedState != "wal_prepared" { return false; }
    if !Free(disk.ns, op.Target()) || !Free(disk.ns, op.Stage()) { return false; }
    ok := CreateMarker(op, disk, markerId);
    if ok { ok := disk.Do(Create(op.Stage(), Object(id, Directory, ""))); }
    if ok { ok := disk.Do(Flush({id})); }
    if ok { ok := disk.Do(Flush({op.Home()})); }
    if ok { ok := RewriteMarker(op, disk, DIRECTORY_STAGED, id); }
    if ok { ok := disk.Do(Flush({op.Home()})); }
    if ok { ok := CompleteDirectory(op, disk, id); }
  }

  method CompleteDirectory(op: Operation, disk: Disk, id: string) returns (ok: bool)
    modifies disk
    ensures Outcome(disk.ns, disk.world, ok) == Run(old(disk.ns), CompleteDirectoryPlan(op, id), old(disk.world))
  {
    ok := disk.Do(Rename(op.Stage(), op.Target()));
    if ok { ok := disk.Do(Flush({op.Home()})); }
    if ok { ok := RewriteMarker(op, disk, AFTER, id); }
    if ok { ok := disk.Do(Flush({op.Home()})); }
  }

  /** `completeCaseIntermediate` after its own checks. */
  method CompleteCase(op: Operation, disk: Disk) returns (ok: bool)
    modifies disk
    ensures Outcome(disk.ns, disk.world, ok) == Run(old(disk.ns), CompleteCasePlan(op), old(disk.world))
  {
    ok := disk.Do(Rename(op.Stage(), op.Target()));
    if ok { ok := disk.Do(Flush({op.Target().dir})); }
    if ok { ok := RewriteMarker(op, disk, AFTER, op.request.sourceFileIdentity); }
    if ok { ok := disk.Do(Flush({op.Target().dir})); }
  }

  /** `resumeEngineeringFileLifecycleOperationV2`: classify, complete an intermediate, classify again. */
  method ResumeOperation(op: Operation, disk: Disk) returns (ok: bool)
    modifies disk
    ensures Outcome(disk.ns, disk.world, ok) == Resumed(op, old(disk.ns), old(disk.world))
  {
    var verdict := Classify(op, disk.ns);
    match verdict {
      case CaseIntermediate =>
        if !op.ParentsSpelledAlike() || !Free(disk.ns, op.Target()) { return false; }
        ok := CompleteCase(op, disk);
      case DirectoryIntermediate =>
        var marker := ReadMarker(op, disk.ns);
        if !marker.Readable? || !Free(disk.ns, op.Target()) { return false; }
        ok := CompleteDirectory(op, disk, marker.marker.objectIdentity);
      case After => ok := true;
      case _ => return false;
    }
    ok := ok && Classify(op, disk.ns) == After;
  }

  /** `removeLifecycleMarker`. */
  method RemoveMarker(op: Operation, disk: Disk) returns (ok: bool)
    modifies disk
    ensures Outcome(disk.ns, disk.world, ok) == MarkerRemoved(op, old(disk.ns), old(disk.world))
  {
    match ReadMarker(op, disk.ns) {
      case Missing => return true;
      case Torn => return false;
      case Readable(_) =>
    }
    ok := disk.Do(Remove(op.MarkerName()));
    if ok { ok := disk.Do(Flush({op.Home()})); }
  }

  /** `compensateEngineeringFileLifecycleOperationV2`: undo, then remove the marker. */
  method CompensateOperation(op: Operation, disk: Disk) returns (ok: bool)
    modifies disk
    ensures Outcome(disk.ns, disk.world, ok) == Compensated(op, old(disk.ns), old(disk.world))
  {
    if Classify(op, disk.ns) != After { return false; }
    if op.request.operationKind == CREATE_DIRECTORY {
      if !IsEmptyDirectory(disk.ns, disk.ns[op.Target().At()].obj.id) { return false; }
      ok := disk.Do(Remove(op.Target()));
      if ok { ok := disk.Do(Flush({op.Home()})); }
    } else if UsesStage(op) {
      ok := disk.Do(Rename(op.Target(), op.Rollback()));
      if ok { ok := FlushDirectories(op, disk); }
      if ok { ok := disk.Do(Rename(op.Rollback(), op.Source())); }
      if ok { ok := FlushDirectories(op, disk); }
    } else {
      if !Free(disk.ns, op.Source()) { return false; }
      ok := disk.Do(Rename(op.Target(), op.Source()));
      if ok { ok := FlushDirectories(op, disk); }
    }
    if ok { ok := RemoveMarker(op, disk); }
  }

  /** `finalizeEngineeringFileLifecycleOperationV2`. */
  method FinalizeOperation(op: Operation, disk: Disk, expectAfter: bool) returns (ok: bool)
    modifies disk
    ensures Outcome(disk.ns, disk.world, ok) == Finalized(op, old(disk.ns), old(disk.world), expectAfter)
  {
    match ReadMarker(op, disk.ns) {
      case Missing => return true;
      case Torn => return false;
      case Readable(_) =>
    }
    if expectAfter {
      ok := ResumeOperation(op, disk);
      if !ok { return; }
    } else if Classify(op, disk.ns) != Before {
      return false;
    }
    ok := RemoveMarker(op, disk);
  }
}
