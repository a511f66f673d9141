# Verification of the engineering workspace core

A Dafny model of the parts of the repository whose guarantees cannot be read off one branch, with proofs of what they
promise.

- **Native file lifecycle** (`Text`, `LifecycleMarker`, `Utf8`, `CanonicalJson`, `Requests`, `Volume`, `Lifecycle`,
  `LifecycleCalls`, `Disturbed`, `LifecycleCrash`, `DirectoryCrash`, `Resume`, `ParentSpelling`, `Compensate`,
  `CompensationCrash`, `StoppedMoves`, `TakingBack`, `Conservation`, `Replace`, `CreateFile`, `WriteAhead`,
  `ResumeOrder`, `PowerLoss`, `RecoveryScan`, `ScanGuarantees`). A namespace maps a directory and a case-folded leaf to the
  spelling on disk and an object with identity, kind and bytes. An operation is a sequence of primitive calls. A `World`
  says how many calls are made before a crash, where the last write is cut, and what other processes add at free names
  before each call. The entry points are methods on a mutable `Disk`; each equals the run of its plan in every world, and
  the theorems are about those runs, at every moment of them. `Disturbed` carries a plan from phase to phase: each phase
  outlasts what others add, and each call, cut off or not, keeps the claim and touches nothing of anyone else.
- **Change Sets** (`DependencyGraph`, `Preflight`, `Confluence`, `Hunks`, `Segments`, `DraftFiles`, `Revisions`,
  `Splices`, `Selections`, `ChangeSetHistory`). The searches, the preflight, the merging and application of hunks and the group check
  are methods with the loops and recursion of the original. A batch is clean by a definition that does not follow the code.
- **Runs of contract version 2.0** (`RunTypes`, `RunHistory`, `RunTransitions`, `RunReplay`, `Coordinator`,
  `CoordinatorGuarantees`, `CoordinatorRuns`, `ReceiptKeys`). The coordinator is a class with four map fields. Each method
  equals a function from state and arguments to an answer and an effect, and the theorems are about every sequence of calls.
- **Approval decisions** (`ApprovalRules`, `ApprovalProofs`). The group decision is stated by what is among its members;
  the fold is proved to come to it.

Inputs the code takes from outside are parameters: times, fresh ids, the SHA-256 function, path rules, and the checks on
fields that no modelled rule reads (`Rules.shape`, `Rules.report`).

## What the code does that its promise does not say

- A case-only move compares the two parent paths without regard to case, its completion compares them exactly. A move that
  stopped half-way between differently spelled parents is refused by resume (`ParentSpelling.RespellingIsNeverCompleted`
  for one request, `ParentSpelling.StagedForGood` for all, `Resume.CaseResumeCompletes` for the exact condition).
- The source name is free once its file has moved. Whoever puts a file there, spelled as the name, or takes the target so
  before the rename, turns the verdict into neither, and then resume, compensate and finalize refuse
  (`StoppedMoves.StrangersFileBlocksRecovery`). A directory makes the verdict unknown, with the same refusals, and an entry
  under another spelling is passed over (`StoppedMoves.SourceTaken`, `StoppedMoves.TargetTaken`).
  `LifecycleCrash.MoveCrashIsExact` gives the exact condition at every stop, `CompensationCrash.NoVerdictNoRecovery` the refusals.
- The compensation of a case-only move steps through a rollback name that no recovery looks at. If it stops there, nothing
  brings the file back (`CompensationCrash.FirstCallStrands`). That can happen exactly if the rollback name is free when
  the compensation starts (`CompensationCrash.StrandsExactly`); if it is occupied the file stays at the target
  (`CompensationCrash.OccupiedRollbackStays`).
- The compensation of a created directory, stopped after its removal, leaves the marker and the verdict before; only
  finalize for before ends that (`TakingBack.FirstCallTakesBack`, `TakingBack.OnlyFinalizeBeforeEndsIt`).
- A directory creation stages its directory before the marker's own entry is flushed. A power loss there can keep the
  directory and lose the marker, and the verdict is then before (`PowerLoss.CreateDirectoryPowerLoss`).
- Several proposals on one empty line are all kept, and the latest text comes first (`Splices.LaterInsertionsComeFirst`).
- Applying hunks is not the simultaneous replacement when an insertion (an empty line's range) is listed before a
  replacement at the same offset: exactly then some texts are lost (`Splices.AppliedAsMeantExactly`), and accepted proposals
  come to it (`Splices.AcceptedEditsAreLost`). `DraftFiles.MergeKeepsInsertionsLastExactly` says when a merge brings it about.
- Appending operations does not look at the selection: a selected operation may depend on a rejected one afterwards
  (`ChangeSetHistory.AppendCanOpenTheSelection`; exactly when, over whole histories, in
  `ChangeSetHistory.SelectedPartStaysCleanExactly`).
- An undo event recorded through `recordRunEvent` together with an ending status is accepted, and the run can then not be
  restored (`RunReplay.UndoEventIsTaken`, `RunReplay.UndoEventEndsNothing`). More generally an accepted event keeps a run
  restorable exactly when it is disciplined (`RunReplay.RecordKeepsHistoryExactly`).
- Receipt keys are joined with colons, starts, stops and finishes share one map, and neither run ids nor command ids are
  checked for colons. `ReceiptKeys.KeysAgreeExactly` says when two commands share a key. A start can be answered with the
  refusal of a stop (`ReceiptKeys.StopAnswersAStart`), and a finish always with the answer of a stop of the same run under
  the same command id (`ReceiptKeys.StopAnswersAFinish`, `ReceiptKeys.StaleStopAnswersAFinish`).

## Model

| member | source | states |
|---|---|---|
| `LifecycleMarker.ParseOfPrint` | native/engineering-file-access-win32/src/engineering_file_access.cc:2786-2808 | Parsing the printed bytes of a valid marker returns that marker. |
| `LifecycleMarker.PrintOfParse` | native/engineering-file-access-win32/src/engineering_file_access.cc:2791-2808 | Every accepted byte string is the print of the valid marker it parses to: nothing but printed markers is accepted. |
| `LifecycleMarker.NoProperPrefixParses` | native/engineering-file-access-win32/src/engineering_file_access.cc:2786-2813 | A marker cut short anywhere before its end is not accepted, so a torn rewrite is always seen as torn. |
| `Utf8.AcceptsIffWellFormed` | native/engineering-file-access-win32/src/engineering_file_access.cc:2289-2324 | The byte scan accepts exactly the concatenations of encodings of Unicode scalar values (sections 3 and 4 of RFC 3629). |
| `Utf8.IsValidUtf8V2` | native/engineering-file-access-win32/src/engineering_file_access.cc:2289-2324 | The loop answers true if and only if the bytes are such a concatenation. |
| `Utf8.IsUtf8Text` | native/engineering-file-access-win32/src/engineering_file_access.cc:1095-1118 | The loop answers true if and only if the bytes are such a concatenation and hold no zero byte. |
| `CanonicalJson.ReadQuoted` | native/engineering-file-access-win32/src/engineering_file_access.cc:2476-2516 | A canonically written string, followed by anything, is read back as that string with exactly that rest. |
| `CanonicalJson.EscapeHasNoControls` | native/engineering-file-access-win32/src/engineering_file_access.cc:2476-2516 | An escaped string holds no control character. |
| `CanonicalJson.EscapeIsStringBody` | native/engineering-file-access-win32/src/engineering_file_access.cc:2476-2516 | An escaped string is the body of a legal JSON string by the grammar of section 7 of RFC 8259: no bare quotation mark or backslash, and no other escape. |
| `CanonicalJson.AppendString` | native/engineering-file-access-win32/src/engineering_file_access.cc:2476-2516 | The writer refuses exactly what is not UTF-8, leaving its output as it was, and otherwise appends the quoted escape of section 3.2.2.2 of RFC 8785. |
| `CanonicalJson.DecimalRoundTrip` | native/engineering-file-access-win32/src/engineering_file_access.cc:2531-2535 | A number is told by its decimal text. |
| `CanonicalJson.EmitIsPrefixFree` | native/engineering-file-access-win32/src/engineering_file_access.cc:2518-2548 | Of two JSON values of one shape, written one after the other with a delimiter or nothing behind, the texts agree only if values and rests agree. |
| `CanonicalJson.SerializeIsInjective` | native/engineering-file-access-win32/src/engineering_file_access.cc:2518-2548 | Two values with the same canonical text are the same value. |
| `Requests.MutationTextIsUnambiguous` | native/engineering-file-access-win32/src/engineering_file_access.cc:2550-2701 | Two mutation requests with one canonical text agree on every field their active variants serialise, so the hashed text identifies the request. |
| `Requests.LifecycleTextIsUnambiguous` | native/engineering-file-access-win32/src/engineering_file_access.cc:2750-2775 | Two lifecycle requests with one canonical text are equal. |
| `Volume.Disk.Do` | native/engineering-file-access-win32/src/engineering_file_access.cc:1900-1912 | One system call on a volume others add to: create-only, and one turn of a run whatever plan goes on behind it. |
| `Disturbed.AmidCoversTrace` | native/engineering-file-access-win32/src/engineering_file_access.cc:1900-1912 | What holds wherever a plan can stop, torn writes and the additions of others included, holds at every moment of every run of it; what is not the operation's own is never changed; and a run that succeeds ends where the plan ends. |
| `Volume.RunRestricts` | native/engineering-file-access-win32/src/engineering_file_access.cc:1900-1912 | On names the other processes avoid, a run looks exactly like the same run undisturbed. |
| `Volume.RunIsExec` | native/engineering-file-access-win32/src/engineering_file_access.cc:1900-1912 | Undisturbed and given time, a run is the execution of its plan, and succeeds exactly when no call finds its destination occupied. |
| `Volume.RunCommutes` | native/engineering-file-access-win32/src/engineering_file_access.cc:1900-1912 | What others add elsewhere, before a run and during it, is simply there at the end: the run is otherwise what it would be alone, wherever it stops. |
| `LifecycleCalls.RewriteMarker` | native/engineering-file-access-win32/src/engineering_file_access.cc:2810-2813 | The marker rewrite is truncate, write and flush, each of which may be the last call made. |
| `LifecycleCalls.MoveEngineeringPath` | native/engineering-file-access-win32/src/engineering_file_access.cc:4961-5220 | The move, plain or case-only, checks its preconditions and is then the run of its plan, call by call, in any world. |
| `LifecycleCalls.QuarantineEngineeringFile` | native/engineering-file-access-win32/src/engineering_file_access.cc:4732-4841 | The deletion into quarantine is the run of its plan. |
| `LifecycleCalls.CreateEngineeringDirectory` | native/engineering-file-access-win32/src/engineering_file_access.cc:4578-4730 | The directory creation is the run of its plan. |
| `LifecycleCalls.ResumeOperation` | native/engineering-file-access-win32/src/engineering_file_access.cc:5656-5701 | Resume classifies, completes an intermediate state and classifies again; it does what `Resumed` says on every namespace. |
| `LifecycleCalls.CompleteCase` | native/engineering-file-access-win32/src/engineering_file_access.cc:5521-5567 | The completion of a case-only move is the run of its plan. |
| `LifecycleCalls.CompleteDirectory` | native/engineering-file-access-win32/src/engineering_file_access.cc:5569-5613 | The completion of a directory creation is the run of its plan. |
| `LifecycleCalls.CompensateOperation` | native/engineering-file-access-win32/src/engineering_file_access.cc:5703-5912 | Compensate undoes an operation found complete and removes its marker; it does what `Compensated` says on every namespace. |
| `LifecycleCalls.FinalizeOperation` | native/engineering-file-access-win32/src/engineering_file_access.cc:5918-5979 | Finalize removes the marker of an operation found before or after, completing it first where it has to. |
| `LifecycleCalls.RemoveMarker` | native/engineering-file-access-win32/src/engineering_file_access.cc:5390-5414 | A missing marker is fine, a torn one is refused, and any other is removed and its directory flushed. |
| `LifecycleCrash.MoveCrashIsExact` | native/engineering-file-access-win32/src/engineering_file_access.cc:5250-5388 | At every moment of a move, in any world at all (others may take the freed source name, the target, the stage or the marker name): the object is under one of the operation's names, away from the source only beside the operation's own marker; before, intermediate and after are said exactly if the marker is not torn and the object is alone at its start, its stage or its target; unknown exactly beside a torn marker or a directory at one of the names; neither exactly when a stranger's file stands at another of the names; and no entry of anyone else ever changes. |
| `LifecycleCrash.QuarantineCrashIsExact` | native/engineering-file-access-win32/src/engineering_file_access.cc:5250-5388 | The same for a deletion into quarantine. |
| `DirectoryCrash.CreateDirectoryCrashIsExact` | native/engineering-file-access-win32/src/engineering_file_access.cc:5250-5388 | The same for a directory creation, among additions that bring in neither this directory nor this request's marker: each verdict is said exactly under a stated condition on the marker, on where the directory is and on what stands in the way; what is left for neither is a staged directory the marker does not name yet, or a stranger's directory in the way. |
| `Resume.CaseResumeCompletes` | native/engineering-file-access-win32/src/engineering_file_access.cc:5521-5567 | From an intermediate verdict a case-only resume succeeds exactly when the parent paths are spelled alike and the target is free; it then ends in after with the very object that was staged, and otherwise touches nothing. |
| `Resume.CaseResumeIsReentrant` | native/engineering-file-access-win32/src/engineering_file_access.cc:5656-5701 | A case-only resume, stopped anywhere in any world, leaves the object on its stage or at its target; run again it succeeds exactly if the marker is whole and the object is at its target with nothing in the way, or on its stage with parents spelled alike and a free target; then it ends in after with the same object, and otherwise touches nothing. |
| `ParentSpelling.StagedForGood` | native/engineering-file-access-win32/src/engineering_file_access.cc:5521-5535 | Every case-only move between differently spelled parents that stops after its seventh call is found intermediate and refused by every resume in any world. |
| `ParentSpelling.RespellingIsNeverCompleted` | native/engineering-file-access-win32/src/engineering_file_access.cc:5521-5535 | One such request in full: one that request parsing (lines 1648-1677) lets through, accepted by the move, stopped, and refused for good. |
| `StoppedMoves.SourceTaken` | native/engineering-file-access-win32/src/engineering_file_access.cc:5250-5388 | Whatever entry someone puts at the source name just after the rename of a plain move decides the verdict: a directory makes it unknown, a file spelled as the name neither, and another spelling is passed over. |
| `StoppedMoves.TargetTaken` | native/engineering-file-access-win32/src/engineering_file_access.cc:5250-5388 | The same for an entry that takes the target just before the rename. |
| `StoppedMoves.StrangersFileBlocksRecovery` | native/engineering-file-access-win32/src/engineering_file_access.cc:5656-5979 | A stranger's file, spelled as the name, at either moment of any plain move: neither, beside a readable marker, with the user's file in its place; and resume, compensate and finalize refuse in any world. |
| `Resume.DirectoryResumeCompletes` | native/engineering-file-access-win32/src/engineering_file_access.cc:5569-5613 | A directory resume succeeds exactly when the target is free, and leaves the staged directory there. |
| `Resume.DirectoryResumeIsReentrant` | native/engineering-file-access-win32/src/engineering_file_access.cc:5656-5701 | The same for a directory creation: run again after it stopped anywhere, the resume succeeds exactly if the marker is whole and the directory is placed with nothing in the way, or staged with a free target. |
| `Compensate.CompensateUndoesMove` | native/engineering-file-access-win32/src/engineering_file_access.cc:5703-5803 | A completed move, plain or case-only, followed by compensate, while others add whatever they like away from the operation's names before any call of either: what comes out is the starting namespace and what has arrived, with no marker. For a case-only move that holds exactly when the rollback name is free; when it is not, the move stands. |
| `Compensate.CompensateUndoesQuarantine` | native/engineering-file-access-win32/src/engineering_file_access.cc:5805-5839 | The same for a completed quarantine. |
| `Compensate.CompensateUndoesCreation` | native/engineering-file-access-win32/src/engineering_file_access.cc:5841-5912 | A created directory is taken back exactly while it is empty and nothing blocks its stage name, whatever others have added since and wherever; that leaves the starting namespace and their additions. |
| `CompensationCrash.CompensationCrashIsExact` | native/engineering-file-access-win32/src/engineering_file_access.cc:5703-5803 | Wherever the compensation of a completed move or quarantine stops, in any world that does not bring in the object itself: the object is at the target or back at the source and the verdict says which, or it is under the rollback name and the verdict is neither, or unknown beside a directory at one of the names. |
| `CompensationCrash.NoVerdictNoRecovery` | native/engineering-file-access-win32/src/engineering_file_access.cc:5656-5979 | On neither and on unknown, beside a marker, resume, compensate and finalize all refuse and touch nothing. |
| `CompensationCrash.FirstCallStrands` | native/engineering-file-access-win32/src/engineering_file_access.cc:5784-5797 | In every completed case-only move with a free rollback name, a compensation that stops after its first call leaves the object under the rollback name, where all three recovery calls refuse. |
| `CompensationCrash.StrandsExactly` | native/engineering-file-access-win32/src/engineering_file_access.cc:5703-5803 | The compensation of a completed move or quarantine can strand its object, alone or among others, if and only if the operation is a case-only move and its rollback name is free. |
| `CompensationCrash.CompletedStrandsExactly` | native/engineering-file-access-win32/src/engineering_file_access.cc:4961-5220 | Carried to the start: if and only if the operation that passed its checks is a case-only move and its rollback name was free then. |
| `CompensationCrash.OccupiedRollbackStays` | native/engineering-file-access-win32/src/engineering_file_access.cc:5784-5797 | With the rollback name occupied the compensation fails at once, in any world, and the object stands at the target. |
| `TakingBack.TakingBackCrashIsExact` | native/engineering-file-access-win32/src/engineering_file_access.cc:5841-5912 | Wherever the compensation of a created directory stops, among others that bring in neither this directory nor this request's marker: it is at its target, or gone from its target and its stage, and each verdict is said exactly under its condition. |
| `TakingBack.FirstCallTakesBack` | native/engineering-file-access-win32/src/engineering_file_access.cc:5841-5912 | Stopped after its first call it leaves no directory, the marker, and the verdict before. |
| `TakingBack.OnlyFinalizeBeforeEndsIt` | native/engineering-file-access-win32/src/engineering_file_access.cc:5656-5979 | On before, beside a readable marker, resume, compensate and finalize for after refuse and touch nothing; finalize for before removes the marker. |
| `Conservation.TransfersConserve` | native/engineering-file-access-win32/src/engineering_file_access.cc:4732-5220 | Moves, quarantines, case completions and both file compensations, stopped anywhere, keep how often every user object stands in the content and recovery roots. |
| `Conservation.RestoreEngineeringFile` | native/engineering-file-access-win32/src/engineering_file_access.cc:4843-4951 | The restore is the run of its plan. |
| `Conservation.RestoreConserves` | native/engineering-file-access-win32/src/engineering_file_access.cc:4843-4951 | The restore conserves every object as well. |
| `Conservation.RestoreUndoesQuarantine` | native/engineering-file-access-win32/src/engineering_file_access.cc:4732-4951 | Quarantine, finalize, restore to the old path: the namespace is what it was. |
| `Replace.ReplaceFile` | native/engineering-file-access-win32/src/engineering_file_access.cc:6926-7057 | The replacement is the run of its plan; its two later looks at the namespace cannot fail. |
| `Replace.ReplaceNeverLosesOrOverwrites` | native/engineering-file-access-win32/src/engineering_file_access.cc:6926-7057 | At every moment of a replacement, with crashes and with others filling free names at any time: until the recovery copy is removed the original is under the leaf or its recovery name, it is removed only once the candidate was observed in place with the original beside it, after that the candidate stays, and no entry of anyone else ever changes. |
| `Replace.ReplaceEffect` | native/engineering-file-access-win32/src/engineering_file_access.cc:6926-7057 | Undisturbed, a replacement changes the one entry and leaves no staging name behind. |
| `CreateFile.CreateNewFile` | native/engineering-file-access-win32/src/engineering_file_access.cc:7059-7136 | The creation stages, looks again at the leaf and hands over, in any world. |
| `CreateFile.CreateIsAllOrNothing` | native/engineering-file-access-win32/src/engineering_file_access.cc:7081-7113 | At every moment of a creation, wherever it stops, however its write was cut and whatever others put at free names, the leaf and the stage among them: what of ours stands under the leaf is the whole candidate, nothing of theirs changes, and success means the candidate is there. |
| `CreateFile.CreateNeverOverwrites` | native/engineering-file-access-win32/src/engineering_file_access.cc:1900-1912 | Whatever others put at free names at any time, a creation never takes or changes an entry of theirs. |
| `WriteAhead.MoveIsOrdered` | native/engineering-file-access-win32/src/engineering_file_access.cc:4961-5220 | With renames and creates volatile until their directories are flushed, no power loss during a move shows a marker phase that the namespace on the medium does not back. |
| `WriteAhead.QuarantineIsOrdered` | native/engineering-file-access-win32/src/engineering_file_access.cc:4801-4823 | The same for a quarantine. |
| `WriteAhead.CreateDirectoryIsOrdered` | native/engineering-file-access-win32/src/engineering_file_access.cc:4671-4712 | The same for a directory creation. |
| `WriteAhead.CompleteCaseIsOrdered` | native/engineering-file-access-win32/src/engineering_file_access.cc:5551-5565 | After an earlier power loss, so from a settled medium: the same for the completion of a case-only move, whichever phase the marker had reached. |
| `WriteAhead.CompleteDirectoryIsOrdered` | native/engineering-file-access-win32/src/engineering_file_access.cc:5599-5611 | The same for the completion of a directory creation from a settled medium. |
| `ResumeOrder.CaseMoveStopsComplete` | native/engineering-file-access-win32/src/engineering_file_access.cc:5551-5565 | From every medium that a case-only move can leave by merely stopping, between calls or inside a write, with renames pending and marker texts unsynced: whenever a resume is taken up there, no power loss during it shows a marker ahead of the namespace. |
| `ResumeOrder.CreateDirectoryStopsComplete` | native/engineering-file-access-win32/src/engineering_file_access.cc:5599-5611 | The same for every medium a stopped directory creation can leave. |
| `PowerLoss.MoveSurvivesPowerLoss` | native/engineering-file-access-win32/src/engineering_file_access.cc:4961-5220 | A power loss at any point of a move, between calls or inside a write: on every namespace the medium can show, beside any text the marker can have, the object has left the source only beside the marker, so no rename is durable without one, and the verdict says where the object is, exactly as after a mere stop. |
| `PowerLoss.QuarantineSurvivesPowerLoss` | native/engineering-file-access-win32/src/engineering_file_access.cc:4732-4841 | The same for a quarantine. |
| `PowerLoss.CreateDirectoryPowerLoss` | native/engineering-file-access-win32/src/engineering_file_access.cc:4630-4712 | The same for a directory creation, save for one case: the staged directory survives and the marker does not. That is possible exactly while the creations of both wait for their flush; there, and nowhere else, the verdict does not say where the directory is: it says before. |
| `RecoveryScan.Scan.ScanDirectory` | native/engineering-file-access-win32/src/engineering_file_access.cc:2006-2042 | One directory: the budget is charged for every entry, staging leaves are counted, and the children to enter are collected in order. |
| `RecoveryScan.Scan.Collect` | native/engineering-file-access-win32/src/engineering_file_access.cc:2044-2063 | The recursion succeeds exactly when the reachable tree fits the depth limit and the budget, and then counts every staging leaf in it. |
| `RecoveryScan.ScanMutationRecovery` | native/engineering-file-access-win32/src/engineering_file_access.cc:7150-7210 | The scan says clear if and only if the whole reachable tree was seen within the limits, no staging leaf was met, and no binding of this root has created a stage. |
| `RecoveryScan.CleanEverywhere` | native/engineering-file-access-win32/src/engineering_file_access.cc:1998-2063 | A clean tally leaves no staging leaf in any directory that a path of any length can reach. |
| `RecoveryScan.ClearMeansClear` | native/engineering-file-access-win32/src/engineering_file_access.cc:7150-7210 | After a clear scan no staging leaf stands in any directory the scan may enter. |
| `ScanGuarantees.ClearShowsNoMarker` | native/engineering-file-access-win32/src/engineering_file_access.cc:7150-7210 | After a clear scan no readable marker of any operation is left there, and on a volume that files every entry under its spelling's key nothing at all stands at the marker's name. |
| `Volume.RunKeepsFolded` | native/engineering-file-access-win32/src/engineering_file_access.cc:1900-1912 | That every entry stands under the key of its own spelling is kept by every call of every run. |
| `ScanGuarantees.ClearAfterMove` | native/engineering-file-access-win32/src/engineering_file_access.cc:7150-7210 | If a move stopped anywhere, in any world, and the scan is clear, the file is where it was; and the verdict is before exactly if nothing of anyone else stands at the other names. |
| `ScanGuarantees.ClearAfterQuarantine` | native/engineering-file-access-win32/src/engineering_file_access.cc:7150-7210 | The same for a quarantine. |
| `ScanGuarantees.ClearAfterCreateDirectory` | native/engineering-file-access-win32/src/engineering_file_access.cc:7150-7210 | If a directory creation stopped anywhere and the scan is clear, there is no directory, placed or staged. |
| `ScanGuarantees.ClearAfterReplace` | native/engineering-file-access-win32/src/engineering_file_access.cc:7150-7210 | If a replacement stopped anywhere and the scan is clear, the leaf holds the original or the candidate. |
| `CreateFile.ClearAfterCreate` | native/engineering-file-access-win32/src/engineering_file_access.cc:7150-7210 | If a creation stopped anywhere and the scan is clear, its stage leaf is gone, and in no spelling is anything left at its key; the leaf holds nothing of ours or the whole candidate. |
| `DependencyGraph.CycleSearch.HasCycle` | packages/agent-engine/src/change-set.ts:1806-1817 | The recursive search with its two shared sets: a cycle it reports is one, and a node it leaves has been put in dependency order. |
| `DependencyGraph.FindCycle` | packages/agent-engine/src/change-set.ts:1799-1825 | The search over all nodes reports a cycle if and only if the graph has one; otherwise a topological order of all nodes exists. |
| `DependencyGraph.DependencySearch.Visit` | packages/agent-engine/src/change-set.ts:2086-2096 | One call of the search: the target is reachable, or everything reachable has been visited without meeting it. |
| `DependencyGraph.DependsOn` | packages/agent-engine/src/change-set.ts:2081-2098 | True if and only if a dependency path of at least one edge leads to the target. |
| `DependencyGraph.OrderedIsAcyclic` | packages/agent-engine/src/change-set.ts:1799-1825 | A graph whose nodes can all be put in dependency order has no cycle. |
| `Text.PathIsCut` | packages/agent-engine/src/change-set.ts:2076-2079 | A path with a slash is its parent, a slash and a leaf without one: the cut is at the last slash; without a slash the parent is empty. |
| `Preflight.CheckIds` | packages/agent-engine/src/change-set.ts:1776-1825 | Validity, duplicate ids, unknown dependencies and cycles: no problem means there is none of them, and a problem named is real. |
| `Preflight.CollectPaths` | packages/agent-engine/src/change-set.ts:1827-1872 | The four path maps find every operation by its path; two operations claiming one path are reported. |
| `Preflight.CrossCheck` | packages/agent-engine/src/change-set.ts:1874-1905 | Creations against deletions and moves, deletions against moves. |
| `Preflight.ChainCheck` | packages/agent-engine/src/change-set.ts:1907-1920 | A move onto a path that another move frees depends on it. |
| `Preflight.ParentCheck` | packages/agent-engine/src/change-set.ts:1922-1936 | Whatever goes into a directory of the batch depends on its creation. |
| `Preflight.PreflightOperations` | packages/agent-engine/src/change-set.ts:1773-1939 | The preflight admits exactly the clean batches, those in which nothing collides and every ordering the paths demand is a declared dependency; an admitted batch has a dependency order, and any other is refused with a problem that is really there. |
| `Preflight.TopologicalOrderOrders` | packages/agent-engine/src/change-set.ts:1799-1825 | A topological order of the ids arranges the whole batch with every operation after what it depends on. |
| `Confluence.CleanBatchRuns` | packages/agent-engine/src/change-set.ts:1773-1939 | On a tree the batch fits, every dependency order of a clean batch runs with no step finding its source missing, its target occupied or its directory absent, and ends in the simultaneous substitution. |
| `Confluence.SubstitutionIsUnique` | packages/agent-engine/src/change-set.ts:1773-1939 | The substitution leaves no choice. |
| `Confluence.OrderIsIrrelevant` | packages/agent-engine/src/change-set.ts:1773-1939 | Any two dependency orders of a clean batch end in the same tree. |
| `Segments.SegmentSpans` | packages/agent-engine/src/change-set.ts:1308-1322 | The spans and the delimiters between them tile the content, and no span holds the start of a delimiter. |
| `Segments.TilingIsUnique` | packages/agent-engine/src/change-set.ts:1308-1322 | There is one way to cut a content into lines or paragraphs. |
| `Segments.ResolveCharacterRange` | packages/agent-engine/src/change-set.ts:1281-1306 | A range resolves from the start of its first span to the end of its last, within the content, or is refused; an empty range comes of a single empty line and of nothing else. |
| `Hunks.SortIsStable` | packages/agent-engine/src/change-set.ts:1108-1115 | Sorting keeps the members, and every relation between members of equal key stays as it was. |
| `Hunks.ApplyHunks` | packages/agent-engine/src/change-set.ts:1324-1335 | The loop replaces one hunk after the other in the running text, in stable descending order. |
| `Hunks.RightToLeftIsSplice` | packages/agent-engine/src/change-set.ts:1324-1335 | Replacing strictly from right to left is the simultaneous splice, and the length grows by replacement minus range. |
| `Hunks.DescendsExactlyIfInsertionsLast` | packages/agent-engine/src/change-set.ts:1324-1335 | For hunks that are apart, the order of application goes strictly leftwards if and only if no insertion is listed before a replacement at its offset. |
| `Hunks.ApplyIsSplice` | packages/agent-engine/src/change-set.ts:1324-1335 | In those lists the result is the simultaneous splice, with length base plus the sum of replacement minus range. |
| `Splices.AppliedAsMeantExactly` | packages/agent-engine/src/change-set.ts:1324-1335 | For ranges in bounds and apart: every choice of replacement texts is applied as the simultaneous replacement of its ranges if and only if no insertion is listed before a replacement that starts at its offset. |
| `Splices.CandidateIsMeantExactly` | packages/agent-engine/src/change-set.ts:1189-1211 | So a sound draft's candidate is the one meant, whatever its texts, if and only if its selected hunks are listed so. |
| `Splices.AcceptedEditsAreLost` | packages/agent-engine/src/change-set.ts:1079-1117 | Two proposals that are accepted, an empty line filled and then the first character dropped: the candidate is the old content, neither edit shows. |
| `Splices.LaterInsertionsComeFirst` | packages/agent-engine/src/change-set.ts:1079-1117 | However many proposals fill one empty line, each new one is kept beside all the earlier ones, and the candidate has their texts from the latest to the first; there the code's order and the simultaneous replacement agree. |
| `Hunks.SortedReplacementsAreSpliced` | packages/agent-engine/src/change-set.ts:1324-1335 | For sorted ranges that are apart and not empty, what is spliced is the list itself. |
| `Hunks.InsertionFirstIsLost` | packages/agent-engine/src/change-set.ts:1324-1335 | In any text, an insertion listed before a replacement at its offset can be lost: the replacement eats it and leaves base text standing that it should have removed. |
| `DraftFiles.Drafts.Merge` | packages/agent-engine/src/change-set.ts:1079-1117 | The draft array after a merge, or the reason for refusing with the array untouched. |
| `DraftFiles.NewestHunkWins` | packages/agent-engine/src/change-set.ts:1108-1115 | The new hunk is there, and of the old ones exactly those it does not overlap, selected again. |
| `DraftFiles.MergeKeepsSound` | packages/agent-engine/src/change-set.ts:1079-1117 | Merging keeps every file's hunks in bounds, sorted and pairwise apart, paths distinct, and other files as they were. |
| `DraftFiles.MergeKeepsInsertionsLastExactly` | packages/agent-engine/src/change-set.ts:1108-1117 | A merge leaves no insertion before a replacement at its offset if and only if the new hunk does not replace where an old insertion stands. |
| `DraftFiles.ReplacementsStayReplacements` | packages/agent-engine/src/change-set.ts:1108-1117 | Merging real replacements leaves only real replacements. |
| `DraftFiles.Candidate` | packages/agent-engine/src/change-set.ts:1189-1211 | The candidate is the base with the selected hunks applied: their simultaneous splice when no range is empty. |
| `Revisions.DraftOf` | packages/agent-engine/src/change-set.ts:987-1051 | An accepted proposal gives a draft of one selected hunk within its base, and its chapter transition proof, if it has one, is valid and about the very chapter file proposed. |
| `Revisions.DraftsOf` | packages/agent-engine/src/change-set.ts:1053-1077 | An accepted batch gives sound drafts with distinct paths. |
| `Revisions.AreIndivisible` | packages/agent-engine/src/change-set.ts:2231-2268 | The map of group states says yes if and only if no group shows both states. |
| `Revisions.Finalize` | packages/agent-engine/src/change-set.ts:1719-1763 | Operations are finalized exactly when they are clean and no group is split. |
| `Revisions.AppendProposals` | packages/agent-engine/src/change-set.ts:756-795 | Appending proposals re-selects every hunk, merges the drafts one by one and checks what has to be checked. |
| `Revisions.SelectRevision` | packages/agent-engine/src/change-set.ts:824-928 | Selecting applies the choices to files and operations and refuses split groups. |
| `Selections.SelectedPartIsClean` | packages/agent-engine/src/change-set.ts:2123-2147 | A closed selection of a clean batch is a clean batch. |
| `Selections.AcceptedSelectionIsClean` | packages/agent-engine/src/change-set.ts:2100-2149 | Of a clean batch, the selected part of any accepted selection is clean again. |
| `Selections.SelectionIsAcceptedExactly` | packages/agent-engine/src/change-set.ts:2100-2149 | Of a clean batch, a selection is accepted if and only if it names known operations and leaves out no dependency. |
| `ChangeSetHistory.HistoryIsSound` | packages/agent-engine/src/change-set.ts:756-928 | However create, append and select interleave, every revision has sound hunks, a clean batch and whole groups. |
| `ChangeSetHistory.GroupsStayTogether` | packages/agent-engine/src/change-set.ts:2231-2268 | In every revision any two members of one group, hunks or operations, are selected together or not at all. |
| `ChangeSetHistory.CandidatesAreSplices` | packages/agent-engine/src/change-set.ts:1189-1211 | In every revision, a file whose ranges are real replacements has the splice of its selected hunks as candidate. |
| `ChangeSetHistory.AppendKeepsClosureExactly` | packages/agent-engine/src/change-set.ts:1678-1709 | Appending operations keeps the selection closed if and only if the dependencies of the new selected ones are themselves selected. |
| `ChangeSetHistory.SelectedPartIsCleanExactly` | packages/agent-engine/src/change-set.ts:2123-2147 | Of a clean batch, the selected part is a clean batch if and only if the selection is closed. |
| `ChangeSetHistory.SelectedPartStaysCleanExactly` | packages/agent-engine/src/change-set.ts:756-928 | Over every history: the selected part of the current revision is clean if and only if no append since the last accepted selection, nor the creation, selected an operation without its dependencies. |
| `ChangeSetHistory.AppendCanOpenTheSelection` | packages/agent-engine/src/change-set.ts:1678-1709 | It need not be: a concrete append that is accepted and leaves a selected part that is not clean. |
| `ApprovalRules.DefaultRule` | packages/agent-engine/src/approval-rule-registry.ts:136-179 | The default rule of an operation is conditional exactly for the operation its effect rule is documented for. |
| `ApprovalRules.Canonical` | packages/agent-engine/src/approval-decision-proof.ts:680-685 | Exactly the codes that are present. |
| `ApprovalRules.CanonicalOfSameMembers` | packages/agent-engine/src/approval-decision-proof.ts:680-685 | The canonical list depends on the members alone, not on their order or number. |
| `ApprovalRules.Evaluate` | packages/agent-engine/src/approval-decision-proof.ts:480-523 | The reasons are exactly those that block, in canonical order, and the decision follows from them. |
| `ApprovalRules.EvaluateResolvedRule` | packages/agent-engine/src/approval-decision-proof.ts:480-523 | Pushing reasons one by one comes to that evaluation. |
| `ApprovalRules.EligibleExactly` | packages/agent-engine/src/approval-decision-proof.ts:525-547 | A proposal passes without a person if and only if the run is preapproved, its rule is conditional and its evidence is the rule's eligible values with every other field not applicable; it is rejected if and only if its path is hard-denied. |
| `ApprovalProofs.EligibleProofExactly` | packages/agent-engine/src/approval-decision-proof.ts:248-292 | A proof that parses says eligible if and only if it deserves to. |
| `ApprovalProofs.ResolveGroup` | packages/agent-engine/src/approval-decision-proof.ts:416-473 | The fold over the proofs comes to the resolution stated by what is among its members: the strictest decision wins, and any gap needs a person. |
| `ApprovalProofs.ResolutionIsUnique` | packages/agent-engine/src/approval-decision-proof.ts:416-473 | A group has one resolution. |
| `ApprovalProofs.ResolutionIgnoresOrder` | packages/agent-engine/src/approval-decision-proof.ts:416-473 | Permuting the proofs changes neither decision nor reasons. |
| `ApprovalProofs.GroupEligibleExactly` | packages/agent-engine/src/approval-decision-proof.ts:416-473 | A group passes without a person if and only if it is declared complete and unmixed, has the expected number of proofs and at least one, all of them parse and share one group, run, change set and revision, and each one is eligible. |
| `ApprovalProofs.BareArrayIsNeverEligible` | packages/agent-engine/src/approval-decision-proof.ts:419-424 | A bare array of proofs never passes without a person. |
| `RunHistory.PendingHistoryMatches` | packages/agent-engine/src/agent-run-v20.ts:823-925 | The replay loop agrees with the snapshot if and only if the marker it ends with is what the pending value leaves to be read off the log. |
| `RunHistory.ValidateHistory` | packages/agent-engine/src/agent-run-v20.ts:558-600 | The history check accepts if and only if the log is numbered from one, ends where the snapshot does, and its terminal, pending, capability and finish-evidence parts all agree. |
| `RunTransitions.StepAgreesExactly` | packages/agent-engine/src/agent-run-coordinator.ts:706-936 | For every accepted transition the replayed marker goes on abstracting the pending value if and only if the call was disciplined. |
| `RunTransitions.RequestedIsRaised` | packages/agent-engine/src/agent-run-coordinator.ts:876-921 | A request raises in the replay exactly the marker of the pending value the coordinator derives. |
| `RunReplay.RecordKeepsHistoryExactly` | packages/agent-engine/src/agent-run-v20.ts:558-600 | Recording an event on a restorable run leaves it restorable if and only if the call was disciplined. |
| `RunReplay.UndoEventEndsNothing` | packages/agent-engine/src/agent-run-v20.ts:781-799 | An undo event recorded on a run that is still going leaves a history that is refused. |
| `RunReplay.UndoEventIsTaken` | packages/agent-engine/src/agent-run-coordinator.ts:241-293 | Yet the coordinator takes such an event on any run that is still going, exactly if the cancelled snapshot passes the shape check. |
| `RunReplay.FinishKeepsHistory` | packages/agent-engine/src/agent-run-coordinator.ts:1147-1255 | A finish leaves the run restorable: evidence found before the end is found again by the replay, and is earlier than the end. |
| `RunReplay.AuditKeepsHistory` | packages/agent-engine/src/agent-run-coordinator.ts:381-416 | An audit event after the end leaves the run restorable. |
| `Coordinator.AgentRunCoordinator.StartRun` | packages/agent-engine/src/agent-run-coordinator.ts:65-173 | A refusal in the code's order of checks is kept under its receipt and changes nothing else; an accepted start adds run, log and active entry together. |
| `Coordinator.AgentRunCoordinator.StopRun` | packages/agent-engine/src/agent-run-coordinator.ts:174-240 | An accepted stop moves a run that is still going to cancelled, extends its log and frees its scope; every answer is kept under its receipt. |
| `Coordinator.AgentRunCoordinator.RecordRunEvent` | packages/agent-engine/src/agent-run-coordinator.ts:241-293 | An accepted event replaces the run and extends its log by one, freeing the scope if it ends the run; a refused one changes nothing. |
| `Coordinator.AgentRunCoordinator.RecordFinish` | packages/agent-engine/src/agent-run-coordinator.ts:294-380 | A finish is taken only with its evidence found in the log; it ends the run, extends the log, frees the scope and keeps its receipt. |
| `Coordinator.AgentRunCoordinator.RecordTerminalAuditEvent` | packages/agent-engine/src/agent-run-coordinator.ts:381-416 | Only an undo event on an ended run is taken; run and log move on and the active map stays. |
| `Coordinator.AgentRunCoordinator.RestoreRun` | packages/agent-engine/src/agent-run-coordinator.ts:417-441 | A known run is returned as it is; another is taken up exactly when its history holds and its scope has room. |
| `CoordinatorGuarantees.StepKeepsConsistent` | packages/agent-engine/src/agent-run-coordinator.ts:57-493 | Every call keeps the invariant and forgets nothing. |
| `CoordinatorGuarantees.OneRunPerScope` | packages/agent-engine/src/agent-run-coordinator.ts:57-493 | No scope ever has two runs going. |
| `CoordinatorRuns.CallsKeepConsistent` | packages/agent-engine/src/agent-run-coordinator.ts:57-493 | Over every sequence of calls with fresh run ids: the active map names exactly the runs that are not absorbed, logs stay numbered and only grow, an absorbing status never changes, and receipts stay. |
| `CoordinatorRuns.ReplayReturnsFirstAnswer` | packages/agent-engine/src/agent-run-coordinator.ts:65-380 | Repeating a command, whatever happened in between, returns the first answer and alters nothing. |
| `CoordinatorRuns.CallsKeepRestorable` | packages/agent-engine/src/agent-run-coordinator.ts:57-493 | Over every sequence of calls whose accepted events are disciplined, every run stays one that a restore accepts: the incremental view and the replayed view agree. |
| `CoordinatorRuns.RestartTakesUpEveryRun` | packages/agent-engine/src/agent-run-coordinator.ts:417-441 | After a restart every run is taken up again, in any order: none is refused, and none gets in another's way. |
| `ReceiptKeys.KeysAgreeExactly` | packages/agent-engine/src/agent-run-coordinator.ts:1050-1052 | Whatever they contain: two commands, starts, stops or finishes, share a receipt key if and only if they are the same once every run id, scope part and command id is cut at its colons. |
| `ReceiptKeys.PlainKeysAgreeExactly` | packages/agent-engine/src/agent-run-coordinator.ts:1050-1052 | With run ids and scopes free of colons and any command ids: two commands share a key if and only if both are starts or both commands on a run with the same parts, or one is a start whose command id, or whose workspace with the other's command id, spells out the rest of a key on a run called after a scope. |
| `ReceiptKeys.PlainCommandsAreTold` | packages/agent-engine/src/agent-run-coordinator.ts:1050-1052 | With command ids free of colons too, a key tells the command, save that a stop and a finish of one run under one command id share theirs. |
| `ReceiptKeys.CallsShareReceiptExactly` | packages/agent-engine/src/agent-run-coordinator.ts:70-304 | The same conditions decide for any two calls, in whatever states they are made, whether they share a receipt. |
| `ReceiptKeys.SharedKeySharesAnswer` | packages/agent-engine/src/agent-run-coordinator.ts:70-304 | Of two calls that share a key, with any calls in between, the later gets the answer of the earlier and alters nothing. |
| `ReceiptKeys.RunKeysAreUnambiguous` | packages/agent-engine/src/agent-run-coordinator.ts:1050-1052 | With run ids that are safe identifiers and scopes free of colons, the keys of two commands on runs agree only if run, scope and command id agree; starts are covered by the rows above. |
| `ReceiptKeys.ColonsMakeKeysCollide` | packages/agent-engine/src/agent-run-coordinator.ts:174-184 | A run id with a colon in it makes two different commands share a receipt key. |
| `ReceiptKeys.StopAnswersAStart` | packages/agent-engine/src/agent-run-coordinator.ts:70-191 | From the empty coordinator: after a stop of an unknown run called standalone, a start in the standalone scope is answered that the run does not exist, and no run is made. |
| `ReceiptKeys.StopAnswersAFinish` | packages/agent-engine/src/agent-run-coordinator.ts:174-304 | In any consistent state, a finish that reuses the command id of a stop of the same run gets the stop's answer and finishes nothing. |
| `ReceiptKeys.StaleStopAnswersAFinish` | packages/agent-engine/src/agent-run-coordinator.ts:70-304 | From the empty coordinator: start, a stop with a stale revision, and the finish with the right one is refused as stale. |

## Left out

- WriteAhead.MoveIsOrdered: the medium loses any selection of the changes not yet flushed, but settles flushed changes in the order they were made; bytes of user files are not part of it.
- Conservation.RestoreConserves: counts with respect to any name the restore does not rename, since a restore has no marker of its own.
- ScanGuarantees.ClearAfterMove: looks at the directory that holds the marker; the recovery root is not scanned.
- CreateFile.CreateIsAllOrNothing: assumes that others do not bring in the very file that is being created; `CreateFile.CreateNeverOverwrites` assumes nothing.
- DirectoryCrash.CreateDirectoryCrashIsExact: assumes that others bring in neither an entry with the new directory's identity nor a marker that reads as one of this request.
- CompensationCrash.CompensationCrashIsExact: assumes that others do not bring in the very object.
- TakingBack.TakingBackCrashIsExact: assumes that others bring in neither an entry with the directory's identity nor a marker that reads as one of this request.
- PowerLoss.MoveSurvivesPowerLoss: no one else acts; the medium is that of `WriteAhead`, and the bytes of user files are not part of it.
- Confluence.CleanBatchRuns: the tree is compared by exact path; the case-insensitive volume, and path texts that differ only by surrounding blanks, are not identified.
- Revisions.DraftOf: whether a chapter transition proof parses is an uninterpreted predicate (`Rules.proof`); the Story Bible proof is copied by the code without deciding anything, and is left out.
- RunHistory.ValidateHistory: the shape checks on catalog, limits, usage, provider and prompt cache fields, and the prose rules of a finish report, are uninterpreted predicates; `eventRef` is a function of run id and sequence and is not stored.
- Coordinator.AgentRunCoordinator.StartRun: the checks on prompt cache identity, start facts and frozen facts are three flags of the command; only runs of version 2.0 are started or restored.
- CoordinatorRuns.CallsKeepConsistent: assumes that no start gets the id of a run that is already known.
- Case folding covers ASCII letters; normalisation, leaf-name character classes, hard-denied names and the text-file extension list are predicates or left out.
- Other processes add entries at free names; they do not rename or remove what stands, which the native handles prevent for the objects in use.
- The request parsers, receipts, error codes of the native layer, handles, access masks and root re-verification are left out: foreign calls and plumbing.
- SHA-256 is a parameter; what is proved is about the hashed text.
- A JavaScript number is an integer here; fractions and NaN are refused by the safe-integer checks and not modelled.
- A Dafny character stands for one byte in the native codecs; contents of Change Sets are sequences of UTF-16 code units.
- Candidate syntax checks, external validators, checksums, tokens and status fields of a Change Set revision are left out: they decide nothing modelled here.
- Legacy runs and events of versions 1.0 to 1.3, and their restore, are left out: field copying.
- Proof serialisation, checksums and binding comparison of approval proofs are left out; a value of the wrong shape, an unknown operation or an unpaired surrogate counts as `Malformed`.
