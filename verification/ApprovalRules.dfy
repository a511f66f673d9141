/** The registered approval rules, and what one rule makes of a policy and the evidence. */
module ApprovalRules {
  import opened Text

  datatype WriteOperation =
    | ReplaceFile | CreateFile | MoveFile | DeleteFile | CreateDirectory
    | ChapterReplace | ChapterCreate | ChapterRename | ChapterReorder | ChapterStatus | ChapterRestore
    | StoryBibleCreate | StoryBiblePatch | StoryBibleStatus | StoryBibleRestore

  datatype EffectRule =
    | CleanChapterBody | BoundedChapterCreate | BoundedStoryBibleCreate
    | NoReferenceImpactStoryBiblePatch | OrdinaryCleanFileReplace | OrdinaryCreateOnly

  datatype Rule = AlwaysHuman(operation: WriteOperation) | Conditional(operation: WriteOperation, effect: EffectRule)

  datatype PathClass = PathNotApplicable | PathOrdinary | PolicyManaged | IgnoredGenerated | HardDenied | PathMixed | PathUnknown
  datatype Freshness = FreshnessNotApplicable | CleanStable | Dirty | Stale | FreshnessUnknown
  datatype CreateOnly = CreateOnlyNotApplicable | Proven | NotProven
  datatype Impact = ImpactNotApplicable | NoImpact | ImpactPresent | ImpactUnknown
  datatype Limits = Within | Exceeded | LimitsUnknown
  datatype Boundary = BoundaryNotApplicable | BoundaryOrdinary | Archive | Delete | Restore

  datatype Evidence = Evidence(
    pathClass: PathClass,
    targetFreshness: Freshness,
    createOnly: CreateOnly,
    referenceImpact: Impact,
    limits: Limits,
    stateBoundary: Boundary
  )

  datatype Policy = WriteBeforeConfirmation | UserPreapprovedRun

  datatype Decision = AutoReviewEligible | HumanConfirmation | Rejected

  datatype Reason =
    | RunPolicyRequiresConfirmation
    | OperationAlwaysHuman
    | TargetNotCleanOrStable
    | PathRequiresConfirmation
    | ReferenceImpact
    | StateBoundary
    | LimitExceeded
    | MixedOrIncompleteEvidence
    | OperationRejected

  const REASON_CODE_ORDER := [
    RunPolicyRequiresConfirmation, OperationAlwaysHuman, TargetNotCleanOrStable, PathRequiresConfirmation,
    ReferenceImpact, StateBoundary, LimitExceeded, MixedOrIncompleteEvidence, OperationRejected
  ]

  /** `eligibleValues` of the effect rules, with "not applicable" where a rule does not name the field. */
  function EligibleValues(effect: EffectRule): Evidence {
    match effect
    case CleanChapterBody =>
      Evidence(PathNotApplicable, CleanStable, CreateOnlyNotApplicable, ImpactNotApplicable, Within, BoundaryOrdinary)
    case BoundedChapterCreate =>
      Evidence(PathNotApplicable, FreshnessNotApplicable, Proven, ImpactNotApplicable, Within, BoundaryOrdinary)
    case BoundedStoryBibleCreate =>
      Evidence(PathNotApplicable, FreshnessNotApplicable, Proven, NoImpact, Within, BoundaryOrdinary)
    case NoReferenceImpactStoryBiblePatch =>
      Evidence(PathNotApplicable, CleanStable, CreateOnlyNotApplicable, NoImpact, Within, BoundaryOrdinary)
    case OrdinaryCleanFileReplace =>
      Evidence(PathOrdinary, CleanStable, CreateOnlyNotApplicable, ImpactNotApplicable, Within, BoundaryOrdinary)
    case OrdinaryCreateOnly =>
      Evidence(PathOrdinary, FreshnessNotApplicable, Proven, ImpactNotApplicable, Within, BoundaryOrdinary)
  }

  /** `EFFECT_RULE_OPERATION`. */
  function DocumentedOperation(effect: EffectRule): WriteOperation {
    match effect
    case CleanChapterBody => ChapterReplace
    case BoundedChapterCreate => ChapterCreate
    case BoundedStoryBibleCreate => StoryBibleCreate
    case NoReferenceImpactStoryBiblePatch => StoryBiblePatch
    case OrdinaryCleanFileReplace => ReplaceFile
    case OrdinaryCreateOnly => CreateFile
  }

  function DefaultRule(operation: WriteOperation): (rule: Rule)
    ensures rule.operation == operation
    ensures rule.Conditional? ==> DocumentedOperation(rule.effect) == operation
    ensures rule.AlwaysHuman? ==> forall effect :: DocumentedOperation(effect) != operation
  {
    match operation
    case ChapterReplace => Conditional(operation, CleanChapterBody)
    case ChapterCreate => Conditional(operation, BoundedChapterCreate)
    case StoryBibleCreate => Conditional(operation, BoundedStoryBibleCreate)
    case StoryBiblePatch => Conditional(operation, NoReferenceImpactStoryBiblePatch)
    case ReplaceFile => Conditional(operation, OrdinaryCleanFileReplace)
    case CreateFile => Conditional(operation, OrdinaryCreateOnly)
    case _ => AlwaysHuman(operation)
  }

  const LEGACY_VERSION := "all-human@1.0"
  const DEFAULT_VERSION := "novel-studio-core@1.0"

  /** The checksums under which the two rule sets are registered. */
  datatype Registry = Registry(legacyChecksum: string, defaultChecksum: string)

  /** `resolveRule`: the version must be registered with that very checksum. */
  function ResolveRule(registry: Registry, version: string, checksum: string, operation: WriteOperation): Option<Rule> {
    if version == LEGACY_VERSION && checksum == registry.legacyChecksum then Some(AlwaysHuman(operation))
    else if version == DEFAULT_VERSION && checksum == registry.defaultChecksum then Some(DefaultRule(operation))
    else None
  }

  // ---- Reason lists ----

  function Filter(codes: seq<Reason>, present: set<Reason>): (kept: seq<Reason>)
    ensures forall r :: r in kept <==> r in codes && r in present
  {
    if codes == [] then []
    else (if codes[0] in present then [codes[0]] else []) + Filter(codes[1..], present)
  }

  lemma OrderIsComplete(r: Reason)
    ensures r in REASON_CODE_ORDER
  {
    assert REASON_CODE_ORDER[0] == RunPolicyRequiresConfirmation && REASON_CODE_ORDER[1] == OperationAlwaysHuman;
    assert REASON_CODE_ORDER[2] == TargetNotCleanOrStable && REASON_CODE_ORDER[3] == PathRequiresConfirmation;
    assert REASON_CODE_ORDER[4] == ReferenceImpact && REASON_CODE_ORDER[5] == StateBoundary;
    assert REASON_CODE_ORDER[6] == LimitExceeded && REASON_CODE_ORDER[7] == MixedOrIncompleteEvidence;
    assert REASON_CODE_ORDER[8] == OperationRejected;
  }

  lemma AllReasonsOrdered()
    ensures forall r: Reason :: r in REASON_CODE_ORDER
  {
    forall r: Reason ensures r in REASON_CODE_ORDER { OrderIsComplete(r); }
  }

  /** `canonicalReasonCodes`: the codes present, each once, in the fixed order. */
  function Canonical(values: seq<Reason>): (codes: seq<Reason>)
    ensures forall r :: r in codes <==> r in values
  {
    AllReasonsOrdered();
    Filter(REASON_CODE_ORDER, set r | r in values)
  }

  /** Only the members matter, not their order or number. */
  lemma CanonicalOfSameMembers(a: seq<Reason>, b: seq<Reason>)
    requires forall r :: r in a <==> r in b
    ensures Canonical(a) == Canonical(b)
  {
    assert (set r | r in a) == (set r | r in b);
  }

  lemma CanonicalIsIdempotent(values: seq<Reason>)
    ensures Canonical(Canonical(values)) == Canonical(values)
  {
    CanonicalOfSameMembers(Canonical(values), values);
  }

  // ---- Evaluation ----

  /** Why a proposal that is not rejected outright still needs a person. */
  predicate Blocks(reason: Reason, rule: Rule, policy: Policy, e: Evidence) {
    match reason
    case RunPolicyRequiresConfirmation => policy != UserPreapprovedRun
    case OperationAlwaysHuman => rule.AlwaysHuman?
    case TargetNotCleanOrStable => e.targetFreshness == Dirty || e.targetFreshness == Stale
    case PathRequiresConfirmation => e.pathClass == PolicyManaged || e.pathClass == IgnoredGenerated
    case ReferenceImpact => e.referenceImpact == ImpactPresent
    case StateBoundary => e.stateBoundary in {Archive, Delete, Restore}
    case LimitExceeded => e.limits == Exceeded
    case MixedOrIncompleteEvidence => HasUnknownOrMixed(e) || (rule.Conditional? && IsUnexplained(rule.effect, e))
    case OperationRejected => false
  }

  /** `hasUnknownOrMixedEvidence`. */
  predicate HasUnknownOrMixed(e: Evidence) {
    || e.pathClass == PathMixed || e.pathClass == PathUnknown
    || e.targetFreshness == FreshnessUnknown
    || e.createOnly == NotProven
    || e.referenceImpact == ImpactUnknown
    || e.limits == LimitsUnknown
  }

  /** `hasUnexplainedEffectRuleMismatch`: a field that is neither as the rule wants it nor a known blocker. */
  predicate IsUnexplained(effect: EffectRule, e: Evidence) {
    var wanted := EligibleValues(effect);
    || (e.pathClass != wanted.pathClass && e.pathClass !in {PolicyManaged, IgnoredGenerated, HardDenied})
    || (e.targetFreshness != wanted.targetFreshness && e.targetFreshness !in {Dirty, Stale})
    || e.createOnly != wanted.createOnly
    || (e.referenceImpact != wanted.referenceImpact && e.referenceImpact != ImpactPresent)
    || (e.limits != wanted.limits && e.limits != Exceeded)
    || (e.stateBoundary != wanted.stateBoundary && e.stateBoundary !in {Archive, Delete, Restore})
  }

  datatype Evaluation = Evaluation(decision: Decision, reasons: seq<Reason>)

  /** The decision a rule comes to, stated by what blocks. */
  ghost predicate IsEvaluation(rule: Rule, policy: Policy, e: Evidence, result: Evaluation) {
    if e.pathClass == HardDenied then result == Evaluation(Rejected, [OperationRejected])
    else
      && (forall r :: r in result.reasons <==> Blocks(r, rule, policy, e))
      && result.reasons == Canonical(result.reasons)
      && result.decision == if result.reasons == [] then AutoReviewEligible else HumanConfirmation
  }

  /** The reasons that block. */
  function Blockers(rule: Rule, policy: Policy, e: Evidence): (blockers: set<Reason>)
    ensures forall r :: r in blockers <==> Blocks(r, rule, policy, e)
  {
    AllReasonsOrdered();
    set r | r in REASON_CODE_ORDER && Blocks(r, rule, policy, e)
  }

  function Evaluate(rule: Rule, policy: Policy, e: Evidence): (result: Evaluation)
    ensures IsEvaluation(rule, policy, e, result)
  {
    if e.pathClass == HardDenied then Evaluation(Rejected, [OperationRejected])
    else
      var reasons := Filter(REASON_CODE_ORDER, Blockers(rule, policy, e));
      AllReasonsOrdered();
      assert (set r | r in reasons) == Blockers(rule, policy, e);
      Evaluation(if reasons == [] then AutoReviewEligible else HumanConfirmation, reasons)
  }

  method Push(reasons: seq<Reason>, condition: bool, r: Reason) returns (pushed: seq<Reason>)
    ensures forall x :: x in pushed <==> x in reasons || (condition && x == r)
  {
    pushed := if condition then reasons + [r] else reasons;
  }

  /** `evaluateResolvedRule`: reasons are pushed one by one and put in order at the end. */
  method EvaluateResolvedRule(rule: Rule, policy: Policy, e: Evidence) returns (result: Evaluation)
    ensures result == Evaluate(rule, policy, e)
  {
    if e.pathClass == HardDenied { return Evaluation(Rejected, [OperationRejected]); }
    var reasons := PushFacts(rule, policy, e);
    reasons := Push(reasons, HasUnknownOrMixed(e), MixedOrIncompleteEvidence);
    reasons := Push(reasons, rule.Conditional? && IsUnexplained(rule.effect, e), MixedOrIncompleteEvidence);
    assert (set r | r in reasons) == Blockers(rule, policy, e) by {
      forall r ensures r in reasons <==> Blocks(r, rule, policy, e) {
      }
    }
    var codes := Canonical(reasons);
    result := Evaluation(if codes == [] then AutoReviewEligible else HumanConfirmation, codes);
  }

  /** The reasons before the evidence is checked for gaps. */
  method PushFacts(rule: Rule, policy: Policy, e: Evidence) returns (reasons: seq<Reason>)
    requires e.pathClass != HardDenied
    ensures forall r :: r in reasons <==> r != MixedOrIncompleteEvidence && Blocks(r, rule, policy, e)
  {
    reasons := Push([], policy != UserPreapprovedRun, RunPolicyRequiresConfirmation);
    reasons := Push(reasons, rule.AlwaysHuman?, OperationAlwaysHuman);
    reasons := Push(reasons, e.targetFreshness == Dirty || e.targetFreshness == Stale, TargetNotCleanOrStable);
    reasons := Push(reasons, e.pathClass == PolicyManaged || e.pathClass == IgnoredGenerated, PathRequiresConfirmation);
    reasons := Push(reasons, e.referenceImpact == ImpactPresent, ReferenceImpact);
    reasons := Push(reasons, e.stateBoundary in {Archive, Delete, Restore}, StateBoundary);
    reasons := Push(reasons, e.limits == Exceeded, LimitExceeded);
  }

  lemma NothingBlocksExactly(rule: Rule, policy: Policy, e: Evidence)
    requires e.pathClass != HardDenied
    ensures Blockers(rule, policy, e) == {} <==> policy == UserPreapprovedRun && rule.Conditional? && e == EligibleValues(rule.effect)
  {
    if Blockers(rule, policy, e) == {} {
      assert !Blocks(RunPolicyRequiresConfirmation, rule, policy, e) && !Blocks(OperationAlwaysHuman, rule, policy, e);
      assert !Blocks(TargetNotCleanOrStable, rule, policy, e) && !Blocks(PathRequiresConfirmation, rule, policy, e);
      assert !Blocks(ReferenceImpact, rule, policy, e) && !Blocks(StateBoundary, rule, policy, e);
      assert !Blocks(LimitExceeded, rule, policy, e) && !Blocks(MixedOrIncompleteEvidence, rule, policy, e);
    }
  }

  /** Nothing passes without a person but a preapproved run, a conditional rule and exactly the evidence that rule wants. */
  lemma EligibleExactly(rule: Rule, policy: Policy, e: Evidence)
    ensures Evaluate(rule, policy, e).decision == AutoReviewEligible
       <==> policy == UserPreapprovedRun && rule.Conditional? && e == EligibleValues(rule.effect)
    ensures Evaluate(rule, policy, e).decision == Rejected <==> e.pathClass == HardDenied
  {
    if e.pathClass == HardDenied {
      assert rule.Conditional? ==> EligibleValues(rule.effect).pathClass != HardDenied;
    } else {
      NothingBlocksExactly(rule, policy, e);
      EmptyExactly(rule, policy, e);
    }
  }

  lemma EmptyExactly(rule: Rule, policy: Policy, e: Evidence)
    requires e.pathClass != HardDenied
    ensures Evaluate(rule, policy, e).reasons == [] <==> Blockers(rule, policy, e) == {}
  {
    var reasons := Filter(REASON_CODE_ORDER, Blockers(rule, policy, e));
    AllReasonsOrdered();
    if reasons != [] { assert reasons[0] in reasons; }
    if Blockers(rule, policy, e) != {} {
      var r :| r in Blockers(rule, policy, e);
      assert r in reasons;
    }
  }
}
