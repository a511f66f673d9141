/** The strings commands are remembered under, and when two commands are remembered under the same one. */
module ReceiptKeys {
  import opened Coordinator
  import opened CoordinatorGuarantees
  import opened CoordinatorRuns
  import opened RunTransitions
  import opened RunTypes
  import opened Text

  /** What a receipt is kept for: a start in a scope, or a stop or a finish of a run. */
  datatype Command =
    | OfStart(scope: Scope, id: string)
    | OfRun(run: string, scope: Scope, id: string)

  function KeyOf(c: Command): string {
    match c
    case OfStart(scope, id) => StartKey(scope, id)
    case OfRun(run, scope, id) => RunKey(run, scope, id)
  }

  function CommandOf(st: State, call: Call): Option<Command> {
    match call
    case StartCall(c, _, _) =>
      var scope := ResolveScope(c.scope, c.projectId);
      if scope.Some? then Some(OfStart(scope.value, c.commandId)) else None
    case StopCall(c, _) =>
      var scope := ResolveScope(c.scope, c.projectId);
      if scope.Some? then Some(OfRun(c.runId, scope.value, c.commandId)) else None
    case FinishCall(c, _) =>
      if c.runId in st.runs then Some(OfRun(c.runId, st.runs[c.runId].scope, c.commandId)) else None
    case _ => None
  }

  // ---- Texts cut at their colons ----

  function Split(s: string): (parts: seq<string>)
    ensures parts != []
  {
    if s == "" then [""] else Grown(s[0], Split(s[1..]))
  }

  function Grown(c: char, parts: seq<string>): (more: seq<string>)
    requires parts != []
    ensures more != []
  {
    if c == ':' then [""] + parts else [[c] + parts[0]] + parts[1..]
  }

  lemma GrownInFront(c: char, head: seq<string>, tail: seq<string>)
    requires head != []
    ensures Grown(c, head + tail) == Grown(c, head) + tail
  {
    assert (head + tail)[0] == head[0] && (head + tail)[1..] == head[1..] + tail;
  }

  function Join(parts: seq<string>): string
    requires parts != []
  {
    if |parts| == 1 then parts[0] else parts[0] + ":" + Join(parts[1..])
  }

  lemma {:induction false} JoinOfSplit(s: string)
    ensures Join(Split(s)) == s
  {
    if s != "" {
      var rest := Split(s[1..]);
      JoinOfSplit(s[1..]);
      if s[0] == ':' {
        assert ([""] + rest)[1..] == rest;
        assert "" + ":" == [s[0]];
      } else if |rest| > 1 {
        var more := [[s[0]] + rest[0]] + rest[1..];
        assert more[1..] == rest[1..];
        assert [s[0]] + rest[0] + ":" + Join(rest[1..]) == [s[0]] + (rest[0] + ":" + Join(rest[1..]));
      }
    }
  }

  lemma {:induction false} SplitAppends(a: string, b: string)
    ensures Split(a + ":" + b) == Split(a) + Split(b)
  {
    var s := a + ":" + b;
    if a == "" {
      assert s == ":" + b && s[1..] == b;
    } else {
      SplitAppends(a[1..], b);
      assert s[1..] == a[1..] + ":" + b && s[0] == a[0];
      GrownInFront(a[0], Split(a[1..]), Split(b));
    }
  }

  lemma SplitIsInjective(a: string, b: string)
    ensures Split(a) == Split(b) <==> a == b
  {
    JoinOfSplit(a);
    JoinOfSplit(b);
  }

  lemma {:induction false} PlainIsWhole(s: string)
    requires ':' !in s
    ensures Split(s) == [s]
  {
    if s != "" {
      PlainIsWhole(s[1..]);
      assert [s[0]] + s[1..] == s;
    }
  }

  // ---- When two commands share a key ----

  /** The pieces between the colons of a scope, and of a whole command. */
  function ScopePieces(scope: Scope): seq<string> {
    match scope
    case Standalone => ["standalone"]
    case Workspace(kind, id) => ["workspace"] + Split(kind) + Split(id)
  }

  function Pieces(c: Command): seq<string> {
    match c
    case OfStart(scope, id) => ScopePieces(scope) + Split(id)
    case OfRun(run, scope, id) => Split(run) + ScopePieces(scope) + Split(id)
  }

  lemma WorkspaceSplits(kind: string, id: string)
    ensures Split("workspace" + ":" + kind + ":" + id) == ["workspace"] + Split(kind) + Split(id)
  {
    PlainIsWhole("workspace");
    SplitAppends("workspace", kind);
    SplitAppends("workspace" + ":" + kind, id);
  }

  lemma ScopeSplits(scope: Scope)
    ensures Split(ScopeKey(scope)) == ScopePieces(scope)
  {
    match scope {
      case Standalone => PlainIsWhole("standalone");
      case Workspace(kind, id) =>
        WorkspaceSplits(kind, id);
        assert "workspace:" == "workspace" + ":";
    }
  }

  lemma KeySplits(c: Command)
    ensures Split(KeyOf(c)) == Pieces(c)
  {
    ScopeSplits(c.scope);
    match c {
      case OfStart(scope, id) => SplitAppends(ScopeKey(scope), id);
      case OfRun(run, scope, id) =>
        SplitAppends(run + ":" + ScopeKey(scope), id);
        SplitAppends(run, ScopeKey(scope));
    }
  }

  /** Whatever they contain: two commands share a key exactly when they are the same once every run id, scope and
      command id is cut at its colons. */
  lemma KeysAgreeExactly(a: Command, b: Command)
    ensures KeyOf(a) == KeyOf(b) <==> Pieces(a) == Pieces(b)
  {
    KeySplits(a);
    KeySplits(b);
    SplitIsInjective(KeyOf(a), KeyOf(b));
  }

  predicate HasPlainScope(scope: Scope) {
    scope.Workspace? ==> ':' !in scope.workspaceKind && ':' !in scope.workspaceId
  }

  /** Run id and scope without a colon; the command id is anything. */
  predicate IsPlain(c: Command) {
    HasPlainScope(c.scope) && (c.OfRun? ==> ':' !in c.run)
  }

  /** The starts whose key is that of a command on a run with this id. */
  predicate StartTakesKeyOf(start: Command, other: Command)
    requires start.OfStart? && other.OfRun?
  {
    match start.scope
    case Standalone => other.run == "standalone" && start.id == ScopeKey(other.scope) + ":" + other.id
    case Workspace(kind, id) =>
      && other.run == "workspace"
      && (if other.scope.Standalone? then kind == "standalone" && other.id == id + ":" + start.id
          else kind == "workspace" && id == other.scope.workspaceKind && start.id == other.scope.workspaceId + ":" + other.id)
  }

  /** Two commands with the same key for one of these reasons: they are the same, or one is a start whose command id
      (or whose workspace, with the other's command id) spells out the rest of a key on a run named after a scope. */
  predicate Collide(a: Command, b: Command) {
    match (a, b)
    case (OfStart(_, _), OfRun(_, _, _)) => StartTakesKeyOf(a, b)
    case (OfRun(_, _, _), OfStart(_, _)) => StartTakesKeyOf(b, a)
    case _ => a == b
  }

  /** With run ids and scopes free of colons, and any command ids. */
  lemma PlainKeysAgreeExactly(a: Command, b: Command)
    requires IsPlain(a) && IsPlain(b)
    ensures KeyOf(a) == KeyOf(b) <==> Collide(a, b)
  {
    KeysAgreeExactly(a, b);
    match (a, b) {
      case (OfStart(_, _), OfStart(_, _)) => ScopesAgree(a.scope, a.id, b.scope, b.id);
      case (OfRun(_, _, _), OfRun(_, _, _)) =>
        RunMeetsRun(a, b);
      case (OfStart(_, _), OfRun(_, _, _)) => StartMeetsRun(a, b);
      case (OfRun(_, _, _), OfStart(_, _)) => StartMeetsRun(b, a);
    }
  }

  lemma Regroup(p: seq<string>, q: seq<string>, r: seq<string>)
    ensures p + q + r == p + (q + r)
  {
  }

  lemma RunMeetsRun(a: Command, b: Command)
    requires a.OfRun? && b.OfRun? && IsPlain(a) && IsPlain(b)
    ensures Pieces(a) == Pieces(b) <==> a == b
  {
    PlainIsWhole(a.run);
    PlainIsWhole(b.run);
    var s, t := ScopePieces(a.scope) + Split(a.id), ScopePieces(b.scope) + Split(b.id);
    Regroup([a.run], ScopePieces(a.scope), Split(a.id));
    Regroup([b.run], ScopePieces(b.scope), Split(b.id));
    FirstPiece(a.run, s, b.run, t);
    ScopesAgree(a.scope, a.id, b.scope, b.id);
  }

  lemma FirstPiece(a: string, x: seq<string>, b: string, y: seq<string>)
    ensures [a] + x == [b] + y <==> a == b && x == y
  {
    assert ([a] + x)[1..] == x && ([b] + y)[1..] == y;
    assert ([a] + x)[0] == a && ([b] + y)[0] == b;
  }

  lemma WorkspacePieces(scope: Scope, tail: seq<string>)
    requires HasPlainScope(scope) && scope.Workspace?
    ensures ScopePieces(scope) + tail == ["workspace"] + ([scope.workspaceKind] + ([scope.workspaceId] + tail))
  {
    PlainIsWhole(scope.workspaceKind);
    PlainIsWhole(scope.workspaceId);
  }

  lemma WordsDiffer()
    ensures "workspace" != "standalone"
  {
    assert "workspace"[0] != "standalone"[0];
  }

  lemma ScopesAgree(a: Scope, x: string, b: Scope, y: string)
    requires HasPlainScope(a) && HasPlainScope(b)
    ensures ScopePieces(a) + Split(x) == ScopePieces(b) + Split(y) <==> a == b && x == y
  {
    WordsDiffer();
    SplitIsInjective(x, y);
    var s, t := Split(x), Split(y);
    if a.Workspace? { WorkspacePieces(a, s); }
    if b.Workspace? { WorkspacePieces(b, t); }
    if a.Workspace? && b.Workspace? {
      FirstPiece("workspace", [a.workspaceKind] + ([a.workspaceId] + s), "workspace", [b.workspaceKind] + ([b.workspaceId] + t));
      FirstPiece(a.workspaceKind, [a.workspaceId] + s, b.workspaceKind, [b.workspaceId] + t);
      FirstPiece(a.workspaceId, s, b.workspaceId, t);
    } else {
      FirstPiece("standalone", s, "standalone", t);
      assert (ScopePieces(a) + s)[0] == ScopePieces(a)[0] && (ScopePieces(b) + t)[0] == ScopePieces(b)[0];
    }
  }

  lemma StartMeetsRun(a: Command, b: Command)
    requires a.OfStart? && b.OfRun? && IsPlain(a) && IsPlain(b)
    ensures Pieces(a) == Pieces(b) <==> StartTakesKeyOf(a, b)
  {
    PlainIsWhole(b.run);
    var rest := ScopePieces(b.scope) + Split(b.id);
    assert Pieces(b) == [b.run] + rest;
    if a.scope.Standalone? {
      FirstPiece("standalone", Split(a.id), b.run, rest);
      SplitAppends(ScopeKey(b.scope), b.id);
      ScopeSplits(b.scope);
      SplitIsInjective(a.id, ScopeKey(b.scope) + ":" + b.id);
    } else {
      WorkspacePieces(a.scope, Split(a.id));
      FirstPiece("workspace", [a.scope.workspaceKind] + ([a.scope.workspaceId] + Split(a.id)), b.run, rest);
      WorkspaceStartMeetsRun(a.scope.workspaceKind, a.scope.workspaceId, a.id, b.scope, b.id);
    }
  }

  lemma WorkspaceStartMeetsRun(kind: string, id: string, x: string, scope: Scope, y: string)
    requires HasPlainScope(scope) && ':' !in kind && ':' !in id
    ensures [kind] + ([id] + Split(x)) == ScopePieces(scope) + Split(y)
       <==> if scope.Standalone? then kind == "standalone" && y == id + ":" + x
            else kind == "workspace" && id == scope.workspaceKind && x == scope.workspaceId + ":" + y
  {
    PlainIsWhole(id);
    if scope.Standalone? {
      FirstPiece(kind, [id] + Split(x), "standalone", Split(y));
      SplitAppends(id, x);
      SplitIsInjective(y, id + ":" + x);
    } else {
      WorkspacePieces(scope, Split(y));
      PlainIsWhole(scope.workspaceId);
      FirstPiece(kind, [id] + Split(x), "workspace", [scope.workspaceKind] + ([scope.workspaceId] + Split(y)));
      FirstPiece(id, Split(x), scope.workspaceKind, [scope.workspaceId] + Split(y));
      SplitAppends(scope.workspaceId, y);
      SplitIsInjective(x, scope.workspaceId + ":" + y);
    }
  }

  lemma ColonWithin(a: string, b: string)
    ensures ':' in a + ":" + b
  {
    assert (a + ":" + b)[|a|] == ':';
  }

  /** Without a colon in a command id either, a key tells the command: only a stop and a finish of one run, in one
      scope and under one command id, share theirs. */
  lemma PlainCommandsAreTold(a: Command, b: Command)
    requires IsPlain(a) && IsPlain(b) && ':' !in a.id && ':' !in b.id
    ensures KeyOf(a) == KeyOf(b) <==> a == b
  {
    PlainKeysAgreeExactly(a, b);
    forall x: string, y: string ensures ':' in x + ":" + y {
      ColonWithin(x, y);
    }
  }

  /** Calls are kept apart exactly as their commands are: any two calls, the one made in a later state perhaps. */
  lemma CallsShareReceiptExactly(st: State, call: Call, later: State, other: Call)
    requires CommandOf(st, call).Some? && CommandOf(later, other).Some?
    ensures ReceiptKey(st, call).Some? && ReceiptKey(later, other).Some?
    ensures var a, b := CommandOf(st, call).value, CommandOf(later, other).value;
      && (ReceiptKey(st, call) == ReceiptKey(later, other) <==> Pieces(a) == Pieces(b))
      && (IsPlain(a) && IsPlain(b) ==> (ReceiptKey(st, call) == ReceiptKey(later, other) <==> Collide(a, b)))
  {
    var a, b := CommandOf(st, call).value, CommandOf(later, other).value;
    KeysAgreeExactly(a, b);
    if IsPlain(a) && IsPlain(b) { PlainKeysAgreeExactly(a, b); }
  }

  /** Safe run ids and scope ids have no colon: the key of a command on a run tells the run, the scope and the command. */
  lemma RunKeysAreUnambiguous(a: string, aScope: Scope, aCommand: string, b: string, bScope: Scope, bCommand: string)
    requires IsSafeId(a) && IsSafeId(b) && HasPlainScope(aScope) && HasPlainScope(bScope)
    requires RunKey(a, aScope, aCommand) == RunKey(b, bScope, bCommand)
    ensures a == b && aScope == bScope && aCommand == bCommand
  {
    PlainKeysAgreeExactly(OfRun(a, aScope, aCommand), OfRun(b, bScope, bCommand));
  }

  // ---- Commands that get the answer of another ----

  /** Without that, a command on one run can be answered with the receipt of another. */
  lemma ColonsMakeKeysCollide(run: string, command: string)
    ensures RunKey(run + ":standalone", Standalone, command) == RunKey(run, Standalone, "standalone:" + command)
  {
    assert ":standalone" + ":" == ":" + "standalone:";
    assert "standalone" + ":" == "standalone:";
  }

  /** Whatever happens in between: of two calls that share a key, the later gets the answer of the earlier and alters nothing. */
  lemma SharedKeySharesAnswer(rules: Rules, st: State, call: Call, calls: seq<Call>, other: Call)
    requires IsConsistent(rules, st) && IsFresh(st, call) && AllFresh(rules, Step(rules, st, call), calls)
    requires
      var later := After(rules, Step(rules, st, call), calls);
      ReceiptKey(st, call).Some? && ReceiptKey(later, other) == ReceiptKey(st, call)
    ensures var later := After(rules, Step(rules, st, call), calls);
      AnswerOf(rules, later, other).result == AnswerOf(rules, st, call).result && Step(rules, later, other) == later
  {
    var next := Step(rules, st, call);
    StepKeepsConsistent(rules, st, call);
    CallsKeepConsistent(rules, next, calls);
    AnswerIsKept(rules, st, call);
    ReceiptAnswers(rules, After(rules, next, calls), other);
  }

  lemma NextShares(rules: Rules, st: State, call: Call, other: Call)
    requires IsConsistent(rules, st) && IsFresh(st, call)
    requires ReceiptKey(st, call).Some? && ReceiptKey(st, other) == ReceiptKey(st, call)
    ensures var next := Step(rules, st, call);
      AnswerOf(rules, next, other).result == AnswerOf(rules, st, call).result && Step(rules, next, other) == next
  {
    var next := Step(rules, st, call);
    StepKeepsConsistent(rules, st, call);
    KeyIsStable(st, next, other);
    assert AllFresh(rules, next, []) && After(rules, next, []) == next;
    SharedKeySharesAnswer(rules, st, call, [], other);
  }

  /** After a stop of an unknown run called "standalone", a start in the standalone scope whose command id spells out the
      rest of that key is refused because "the run does not exist", and no run is made, whatever the start asks for. */
  lemma StopAnswersAStart(rules: Rules, stop: StopCommand, start: StartCommand, runId: string, t: string, u: string)
    requires stop.runId == "standalone" && stop.scope == Some(Standalone)
    requires start.scope == Some(Standalone) && start.commandId == "standalone:" + stop.commandId
    ensures var st := Step(rules, EMPTY, StopCall(stop, t));
      && AnswerOf(rules, st, StartCall(start, runId, u)).result == Fail(RunNotFound, None)
      && Step(rules, st, StartCall(start, runId, u)) == st && st.runs == map[]
  {
    assert "standalone:" == "standalone" + ":";
    PlainKeysAgreeExactly(OfRun("standalone", Standalone, stop.commandId), OfStart(Standalone, start.commandId));
    EmptyIsConsistent(rules);
    NextShares(rules, EMPTY, StopCall(stop, t), StartCall(start, runId, u));
    UnknownRunIsNotStopped(rules, EMPTY, stop, t);
  }

  lemma UnknownRunIsNotStopped(rules: Rules, st: State, stop: StopCommand, t: string)
    requires stop.runId !in st.runs && stop.scope.Some? && RunKey(stop.runId, stop.scope.value, stop.commandId) !in st.receipts
    ensures StopAnswer(rules, st, stop, t).result == Fail(RunNotFound, None)
    ensures Settled(st, StopAnswer(rules, st, stop, t)).runs == st.runs
  {
  }

  /** In any state: a finish that reuses the command id of a stop of the same run gets the stop's answer, and the run is not finished. */
  lemma StopAnswersAFinish(rules: Rules, st: State, stop: StopCommand, finish: FinishCommand, t: string, u: string)
    requires IsConsistent(rules, st) && stop.runId in st.runs
    requires finish.runId == stop.runId && finish.commandId == stop.commandId
    requires ResolveScope(stop.scope, stop.projectId) == Some(st.runs[stop.runId].scope)
    ensures var next := Step(rules, st, StopCall(stop, t));
      && AnswerOf(rules, next, FinishCall(finish, u)).result == AnswerOf(rules, st, StopCall(stop, t)).result
      && Step(rules, next, FinishCall(finish, u)) == next
  {
    StopAndFinishShare(st, stop, finish, t, u);
    NextShares(rules, st, StopCall(stop, t), FinishCall(finish, u));
  }

  lemma StopAndFinishShare(st: State, stop: StopCommand, finish: FinishCommand, t: string, u: string)
    requires stop.runId in st.runs && finish.runId == stop.runId && finish.commandId == stop.commandId
    requires ResolveScope(stop.scope, stop.projectId) == Some(st.runs[stop.runId].scope)
    ensures ReceiptKey(st, StopCall(stop, t)).Some?
    ensures ReceiptKey(st, FinishCall(finish, u)) == ReceiptKey(st, StopCall(stop, t))
  {
  }

  lemma StaleStopIsRefused(rules: Rules, st: State, stop: StopCommand, scope: Scope, t: string)
    requires stop.runId in st.runs && st.runs[stop.runId].scope == scope && ResolveScope(stop.scope, stop.projectId) == Some(scope)
    requires RunKey(stop.runId, scope, stop.commandId) !in st.receipts && st.runs[stop.runId].runRevision != stop.expectedRunRevision
    ensures StopAnswer(rules, st, stop, t).result == Fail(RevisionConflict, Some(st.runs[stop.runId]))
    ensures Settled(st, StopAnswer(rules, st, stop, t)).runs == st.runs
  {
  }

  lemma StartMakesTheFirstRun(rules: Rules, start: StartCommand, scope: Scope, runId: string, t: string)
    requires ResolveScope(start.scope, start.projectId) == Some(scope) && StartAnswer(rules, EMPTY, start, runId, t).result.Ok?
    ensures var st := Settled(EMPTY, StartAnswer(rules, EMPTY, start, runId, t));
      && st.runs == map[runId := Initial(start, scope, runId, t)] && st.receipts.Keys == {StartKey(scope, start.commandId)}
  {
  }

  /** From the empty coordinator: a run is started, a stop with a stale revision is refused, and the finish of that
      run, with the right revision, is refused as stale as well. */
  lemma StaleStopAnswersAFinish(rules: Rules, start: StartCommand, scope: Scope, runId: string, stop: StopCommand,
                                finish: FinishCommand, s: string, t: string, u: string)
    requires StartAnswer(rules, EMPTY, start, runId, s).result.Ok?
    requires ResolveScope(start.scope, start.projectId) == ResolveScope(stop.scope, stop.projectId) == Some(scope)
    requires stop.runId == runId == finish.runId && finish.commandId == stop.commandId
    requires IsPlain(OfRun(runId, scope, stop.commandId)) && ':' !in start.commandId && ':' !in stop.commandId
    requires stop.expectedRunRevision == 2 && finish.expectedRunRevision == 1
    ensures
      var begun := Step(rules, EMPTY, StartCall(start, runId, s));
      var st := Step(rules, begun, StopCall(stop, t));
      && runId in st.runs && st.runs[runId].runRevision == finish.expectedRunRevision
      && AnswerOf(rules, st, FinishCall(finish, u)).result == Fail(RevisionConflict, Some(st.runs[runId]))
  {
    var begun := Step(rules, EMPTY, StartCall(start, runId, s));
    EmptyIsConsistent(rules);
    StepKeepsConsistent(rules, EMPTY, StartCall(start, runId, s));
    StartMakesTheFirstRun(rules, start, scope, runId, s);
    PlainCommandsAreTold(OfStart(scope, start.commandId), OfRun(runId, scope, stop.commandId));
    StaleStopIsRefused(rules, begun, stop, scope, t);
    StopAnswersAFinish(rules, begun, stop, finish, t, u);
  }
}
