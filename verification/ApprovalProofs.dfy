/** Approval decision proofs, and the decision of a whole consistency group. */
module ApprovalProofs {
  import opened ApprovalRules
  import opened Text

  datatype Binding = Binding(
    workspaceBindingId: string,
    rootBindingId: Option<string>,
    recoveryRootBindingId: Option<string>,
    recoveryGrantRevision: Option<string>,
    runId: string,
    changeSetId: string,
    changeSetRevision: int,
    changeSetChecksum: string,
    consistencyGroupChecksum: string,
    proposalPayloadChecksum: string,
    baseManifestChecksum: Option<string>,
    candidateManifestChecksum: Option<string>,
    referenceImpactChecksum: Option<string>,
    recoverySideEffectChecksum: Option<string>,
    executionWritePolicy: Policy,
    policyRevision: string,
    capabilityRevision: string
  )

  /** A proof as handed in. `Malformed` stands for every value that lacks a field, has one too many, or one of the wrong type. */
  datatype Candidate =
    | Malformed
    | Proof(
        proofId: string,
        ruleSetVersion: string,
        ruleSetChecksum: string,
        operation: WriteOperation,
        effect: Option<EffectRule>,
        decision: Decision,
        reasons: seq<Reason>,
        binding: Binding,
        evidence: Evidence
      )

  const MAX_STRING_LENGTH := 4096
  predicate IsText(s: string) {
    0 < |s| <= MAX_STRING_LENGTH
  }

  predicate IsTextIfAny(s: Option<string>) {
    s.Some? ==> IsText(s.value)
  }

  predicate IsChecksumIfAny(s: Option<string>) {
    s.Some? ==> IsSha256(s.value)
  }

  /** `parseBinding`: the recovery fields come all three or not at all. */
  predicate IsBinding(b: Binding) {
    && IsText(b.workspaceBindingId) && IsTextIfAny(b.rootBindingId)
    && IsTextIfAny(b.recoveryRootBindingId) && IsTextIfAny(b.recoveryGrantRevision)
    && IsText(b.runId) && IsText(b.changeSetId) && 1 <= b.changeSetRevision <= MAX_SAFE_INTEGER
    && IsSha256(b.changeSetChecksum) && IsSha256(b.consistencyGroupChecksum) && IsSha256(b.proposalPayloadChecksum)
    && IsChecksumIfAny(b.baseManifestChecksum) && IsChecksumIfAny(b.candidateManifestChecksum)
    && IsChecksumIfAny(b.referenceImpactChecksum) && IsChecksumIfAny(b.recoverySideEffectChecksum)
    && IsText(b.policyRevision) && IsText(b.capabilityRevision)
    && b.recoveryRootBindingId.Some? == b.recoveryGrantRevision.Some? == b.recoverySideEffectChecksum.Some?
  }

  function EffectOf(rule: Rule): Option<EffectRule> {
    if rule.Conditional? then Some(rule.effect) else None
  }

  /** `parseMainOnlyApprovalDecisionProofV1` accepts: the decision and reasons are the ones the registered rule comes to. */
  predicate Parses(registry: Registry, c: Candidate) {
    && c.Proof?
    && IsText(c.proofId) && IsText(c.ruleSetVersion) && IsSha256(c.ruleSetChecksum)
    && var rule := ResolveRule(registry, c.ruleSetVersion, c.ruleSetChecksum, c.operation);
       && rule.Some?
       && c.effect == EffectOf(rule.value)
       && (c.effect.Some? ==> DocumentedOperation(c.effect.value) == c.operation)
       && IsBinding(c.binding)
       && c.reasons == Canonical(c.reasons)
       && Evaluation(c.decision, c.reasons) == Evaluate(rule.value, c.binding.executionWritePolicy, c.evidence)
  }

  /** What the members of one group have to share. */
  datatype GroupKey = GroupKey(groupChecksum: string, runId: string, changeSetId: string, changeSetRevision: int)

  function KeyOf(c: Candidate): GroupKey
    requires c.Proof?
  {
    GroupKey(c.binding.consistencyGroupChecksum, c.binding.runId, c.binding.changeSetId, c.binding.changeSetRevision)
  }

  /** A group as handed in; a bare array of proofs leaves the other three out. */
  datatype Group = Group(proofs: seq<Candidate>, expectedCount: Option<int>, complete: Option<bool>, mixed: Option<bool>)

  datatype Resolution = Resolution(decision: Decision, reasons: seq<Reason>)

  /** The caller says the group is complete and unmixed, and it has the expected number of members. */
  predicate IsDeclaredWhole(g: Group) {
    && g.complete == Some(true) && g.mixed != Some(true)
    && g.expectedCount.Some? && 1 <= g.expectedCount.value <= MAX_SAFE_INTEGER && g.expectedCount.value == |g.proofs|
  }

  predicate AllParse(registry: Registry, proofs: seq<Candidate>) {
    forall c | c in proofs :: Parses(registry, c)
  }

  predicate SameKey(registry: Registry, proofs: seq<Candidate>) {
    forall a, b | a in proofs && b in proofs && Parses(registry, a) && Parses(registry, b) :: KeyOf(a) == KeyOf(b)
  }

  predicate IsWhole(registry: Registry, g: Group) {
    IsDeclaredWhole(g) && AllParse(registry, g.proofs) && SameKey(registry, g.proofs)
  }

  predicate SomeDecides(registry: Registry, proofs: seq<Candidate>, decision: Decision) {
    exists c :: c in proofs && Parses(registry, c) && c.decision == decision
  }

  predicate SomeGives(registry: Registry, proofs: seq<Candidate>, reason: Reason) {
    exists c :: c in proofs && Parses(registry, c) && reason in c.reasons
  }

  /** The strictest decision among the members that parse. */
  function Strictest(registry: Registry, proofs: seq<Candidate>): Decision {
    if SomeDecides(registry, proofs, Rejected) then Rejected
    else if SomeDecides(registry, proofs, HumanConfirmation) then HumanConfirmation
    else AutoReviewEligible
  }

  function WithGap(decision: Decision, gap: bool): Decision {
    if gap && decision == AutoReviewEligible then HumanConfirmation else decision
  }

  /** The group's decision, stated by what is among its members: the strictest wins, and a gap needs a person. */
  predicate IsResolution(registry: Registry, g: Group, r: Resolution) {
    && r.decision == WithGap(Strictest(registry, g.proofs), !IsWhole(registry, g))
    && r.reasons == Canonical(r.reasons)
    && forall reason :: reason in r.reasons <==>
         SomeGives(registry, g.proofs, reason) || (reason == MixedOrIncompleteEvidence && !IsWhole(registry, g))
  }

  /** There is only one resolution. */
  lemma ResolutionIsUnique(registry: Registry, g: Group, a: Resolution, b: Resolution)
    requires IsResolution(registry, g, a) && IsResolution(registry, g, b)
    ensures a == b
  {
    CanonicalOfSameMembers(a.reasons, b.reasons);
  }

  /** One more member extends what is among the members. */
  lemma MemberAdds(registry: Registry, proofs: seq<Candidate>, c: Candidate)
    ensures Strictest(registry, proofs + [c]) ==
        if !Parses(registry, c) || Strictest(registry, proofs) == Rejected || c.decision == AutoReviewEligible
        then Strictest(registry, proofs) else c.decision
    ensures forall r :: SomeGives(registry, proofs + [c], r) <==>
        SomeGives(registry, proofs, r) || (Parses(registry, c) && r in c.reasons)
    ensures AllParse(registry, proofs + [c]) <==> AllParse(registry, proofs) && Parses(registry, c)
  {
    var more := proofs + [c];
    assert c in more && forall x :: x in more <==> x in proofs || x == c;
    assert forall d :: SomeDecides(registry, more, d) <==> SomeDecides(registry, proofs, d) || (Parses(registry, c) && c.decision == d);
  }

  predicate HasKey(registry: Registry, proofs: seq<Candidate>, key: GroupKey) {
    exists c :: c in proofs && Parses(registry, c) && KeyOf(c) == key
  }

  lemma KeyAdds(registry: Registry, proofs: seq<Candidate>, c: Candidate, key: Option<GroupKey>)
    requires Parses(registry, c)
    requires key.None? ==> forall x | x in proofs :: !Parses(registry, x)
    requires key.Some? ==> HasKey(registry, proofs, key.value)
    ensures key.None? ==> SameKey(registry, proofs + [c]) && HasKey(registry, proofs + [c], KeyOf(c))
    ensures key.Some? ==> HasKey(registry, proofs + [c], key.value)
    ensures key.Some? ==> (SameKey(registry, proofs + [c]) <==> SameKey(registry, proofs) && KeyOf(c) == key.value)
  {
    var more := proofs + [c];
    assert c in more && forall x :: x in more <==> x in proofs || x == c;
    if key.Some? {
      var first :| first in proofs && Parses(registry, first) && KeyOf(first) == key.value;
      assert first in more;
    }
  }

  /** The key of the first member that parses. */
  predicate IsFirstKey(registry: Registry, proofs: seq<Candidate>, key: Option<GroupKey>) {
    && (key.None? ==> forall x | x in proofs :: !Parses(registry, x))
    && (key.Some? ==> HasKey(registry, proofs, key.value))
  }

  predicate HasGap(registry: Registry, proofs: seq<Candidate>) {
    !AllParse(registry, proofs) || !SameKey(registry, proofs)
  }

  lemma NextMember(registry: Registry, proofs: seq<Candidate>, c: Candidate, key: Option<GroupKey>)
    requires IsFirstKey(registry, proofs, key)
    ensures IsFirstKey(registry, proofs + [c], if Parses(registry, c) && key.None? then Some(KeyOf(c)) else key)
    ensures HasGap(registry, proofs + [c]) <==>
        HasGap(registry, proofs) || !Parses(registry, c) || (key.Some? && key.value != KeyOf(c))
  {
    MemberAdds(registry, proofs, c);
    if Parses(registry, c) {
      KeyAdds(registry, proofs, c, key);
    } else {
      UnparsedAdds(registry, proofs, c);
      assert forall x :: x in proofs + [c] <==> x in proofs || x == c;
    }
  }

  lemma UnparsedAdds(registry: Registry, proofs: seq<Candidate>, c: Candidate)
    requires !Parses(registry, c)
    ensures SameKey(registry, proofs + [c]) <==> SameKey(registry, proofs)
    ensures forall key :: HasKey(registry, proofs + [c], key) <==> HasKey(registry, proofs, key)
  {
    var more := proofs + [c];
    assert forall x :: x in more <==> x in proofs || x == c;
  }

  /** The loop of `resolveApprovalDecisionProofGroup`: every member is compared with the first one that parses. */
  method FoldMembers(registry: Registry, proofs: seq<Candidate>) returns (decision: Decision, reasons: seq<Reason>, gap: bool)
    ensures decision == Strictest(registry, proofs)
    ensures forall reason :: reason in reasons <==> SomeGives(registry, proofs, reason)
    ensures gap <==> HasGap(registry, proofs)
  {
    decision, reasons, gap := AutoReviewEligible, [], false;
    var key: Option<GroupKey> := None;
    for i := 0 to |proofs|
      invariant decision == Strictest(registry, proofs[..i])
      invariant forall reason :: reason in reasons <==> SomeGives(registry, proofs[..i], reason)
      invariant gap <==> HasGap(registry, proofs[..i])
      invariant IsFirstKey(registry, proofs[..i], key)
    {
      assert proofs[..i + 1] == proofs[..i] + [proofs[i]];
      MemberAdds(registry, proofs[..i], proofs[i]);
      NextMember(registry, proofs[..i], proofs[i], key);
      decision, reasons, gap, key := Step(registry, proofs[i], decision, reasons, gap, key);
    }
    assert proofs[..|proofs|] == proofs;
  }

  /** One turn of the loop; a member that does not parse only opens a gap. */
  method Step(registry: Registry, c: Candidate, decision: Decision, reasons: seq<Reason>, gap: bool, key: Option<GroupKey>)
    returns (decision': Decision, reasons': seq<Reason>, gap': bool, key': Option<GroupKey>)
    ensures decision' ==
        if !Parses(registry, c) || decision == Rejected || c.decision == AutoReviewEligible then decision else c.decision
    ensures forall r :: r in reasons' <==> r in reasons || (Parses(registry, c) && r in c.reasons)
    ensures gap' <==> gap || !Parses(registry, c) || (key.Some? && key.value != KeyOf(c))
    ensures key' == if Parses(registry, c) && key.None? then Some(KeyOf(c)) else key
  {
    decision', reasons', gap', key' := decision, reasons, gap, key;
    if !Parses(registry, c) {
      gap' := true;
      return;
    }
    reasons' := reasons + c.reasons;
    if c.decision == Rejected {
      decision' := Rejected;
    } else if c.decision == HumanConfirmation && decision != Rejected {
      decision' := HumanConfirmation;
    }
    if key.None? {
      key' := Some(KeyOf(c));
    } else if key.value != KeyOf(c) {
      gap' := true;
    }
  }

  /** `resolveApprovalDecisionProofGroup`. */
  method ResolveGroup(registry: Registry, g: Group) returns (r: Resolution)
    ensures IsResolution(registry, g, r)
  {
    var mixedOrIncomplete :=
      || g.complete != Some(true) || g.mixed == Some(true) || |g.proofs| == 0
      || g.expectedCount.None? || g.expectedCount.value > MAX_SAFE_INTEGER || g.expectedCount.value < 1
      || g.expectedCount.value != |g.proofs|;
    var decision, reasons, gap := FoldMembers(registry, g.proofs);
    mixedOrIncomplete := mixedOrIncomplete || gap;
    if mixedOrIncomplete {
      reasons := reasons + [MixedOrIncompleteEvidence];
      if decision == AutoReviewEligible { decision := HumanConfirmation; }
    }
    CanonicalIsIdempotent(reasons);
    r := Resolution(decision, Canonical(reasons));
  }

  /** The order of the proofs does not matter, and neither does how the group was enumerated. */
  lemma ResolutionIgnoresOrder(registry: Registry, g: Group, permuted: seq<Candidate>, r: Resolution)
    requires multiset(permuted) == multiset(g.proofs)
    ensures IsResolution(registry, g, r) <==> IsResolution(registry, g.(proofs := permuted), r)
  {
    var other := g.(proofs := permuted);
    PermutationHasSameMembers(permuted, g.proofs);
    SameMembersParse(registry, permuted, g.proofs);
    SameMembersDecide(registry, permuted, g.proofs);
    SameMembersGive(registry, permuted, g.proofs);
  }

  lemma PermutationHasSameMembers(a: seq<Candidate>, b: seq<Candidate>)
    requires multiset(a) == multiset(b)
    ensures |a| == |b| && forall c :: c in a <==> c in b
  {
    assert |a| == |multiset(a)|;
    assert forall c :: c in a <==> c in multiset(a);
    assert forall c :: c in b <==> c in multiset(b);
  }

  lemma SameMembersParse(registry: Registry, a: seq<Candidate>, b: seq<Candidate>)
    requires forall c :: c in a <==> c in b
    ensures AllParse(registry, a) <==> AllParse(registry, b)
    ensures SameKey(registry, a) <==> SameKey(registry, b)
  {
  }

  lemma SameMembersDecide(registry: Registry, a: seq<Candidate>, b: seq<Candidate>)
    requires forall c :: c in a <==> c in b
    ensures Strictest(registry, a) == Strictest(registry, b)
  {
  }

  lemma SameMembersGive(registry: Registry, a: seq<Candidate>, b: seq<Candidate>)
    requires forall c :: c in a <==> c in b
    ensures forall reason :: SomeGives(registry, a, reason) <==> SomeGives(registry, b, reason)
  {
  }

  /** A proof that lets its proposal pass without a person. */
  predicate IsEligibleProof(registry: Registry, c: Candidate) {
    && Parses(registry, c)
    && c.binding.executionWritePolicy == UserPreapprovedRun
    && c.effect.Some?
    && c.evidence == EligibleValues(c.effect.value)
  }

  lemma EligibleProofExactly(registry: Registry, c: Candidate)
    requires Parses(registry, c)
    ensures c.decision == AutoReviewEligible <==> IsEligibleProof(registry, c)
  {
    var rule := ResolveRule(registry, c.ruleSetVersion, c.ruleSetChecksum, c.operation).value;
    EligibleExactly(rule, c.binding.executionWritePolicy, c.evidence);
  }

  /** A group passes without a person exactly when it is whole and every one of its proofs is eligible. */
  lemma GroupEligibleExactly(registry: Registry, g: Group, r: Resolution)
    requires IsResolution(registry, g, r)
    ensures r.decision == AutoReviewEligible
       <==> IsWhole(registry, g) && g.proofs != [] && forall c | c in g.proofs :: IsEligibleProof(registry, c)
    ensures r.decision == AutoReviewEligible <==> r.reasons == []
  {
    EligibleMembersExactly(registry, g.proofs);
    if r.decision != AutoReviewEligible && r.reasons == [] {
      assert MixedOrIncompleteEvidence !in r.reasons;
      var c :| c in g.proofs && Parses(registry, c) && c.decision != AutoReviewEligible;
      assert SomeGives(registry, g.proofs, c.reasons[0]);
    }
    assert r.reasons != [] ==> r.reasons[0] in r.reasons;
  }

  lemma ProofGivesReasonsExactly(registry: Registry, c: Candidate)
    requires Parses(registry, c)
    ensures c.decision == AutoReviewEligible <==> c.reasons == []
  {
    var rule := ResolveRule(registry, c.ruleSetVersion, c.ruleSetChecksum, c.operation).value;
    assert IsEvaluation(rule, c.binding.executionWritePolicy, c.evidence, Evaluation(c.decision, c.reasons));
  }

  lemma EligibleMembersExactly(registry: Registry, proofs: seq<Candidate>)
    ensures Strictest(registry, proofs) == AutoReviewEligible
       <==> forall c | c in proofs && Parses(registry, c) :: IsEligibleProof(registry, c)
    ensures forall c | c in proofs && Parses(registry, c) :: c.decision == AutoReviewEligible <==> c.reasons == []
  {
    forall c | c in proofs && Parses(registry, c)
      ensures (c.decision == AutoReviewEligible <==> IsEligibleProof(registry, c))
           && (c.decision == AutoReviewEligible <==> c.reasons == [])
    {
      EligibleProofExactly(registry, c);
      ProofGivesReasonsExactly(registry, c);
    }
    assert forall c | c in proofs && Parses(registry, c) :: SomeDecides(registry, proofs, c.decision);
  }

  /** A bare array of proofs never passes without a person. */
  lemma BareArrayIsNeverEligible(registry: Registry, proofs: seq<Candidate>, r: Resolution)
    requires IsResolution(registry, Group(proofs, None, None, None), r)
    ensures r.decision != AutoReviewEligible && MixedOrIncompleteEvidence in r.reasons
  {
    assert !IsWhole(registry, Group(proofs, None, None, None));
  }
}
