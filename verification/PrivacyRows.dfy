/**
 The privacy routes from the body to the rows: exactly which requests commit, in terms of what was sent, and
 what each column holds afterwards.
 */
module PrivacyRows {
  import opened Wrappers
  import Text
  import opened References
  import opened PrivacyInputs
  import opened PrivacyTransactions
  import opened PrivacyRuns
  import opened SubmitInputs

  // ----- The rules for texts -----

  /** The language of the reference CHECKs. */
  ghost predicate IsReference(value: string) {
    Matches(REFERENCE_PATTERN, value)
  }

  ghost predicate IsDigest(value: string) {
    Matches(DIGEST_PATTERN, value)
  }

  predicate IsSubject(value: string) {
    && 1 <= Text.ByteLen(value) <= 512 && Text.TrimSpace(value) == value
    && forall i :: 0 <= i < |value| ==> ' ' < value[i] && value[i] != '\U{7f}'
  }

  /** A list of references as it was sent: trimmed, each one in the language, none twice. */
  ghost predicate ReferenceList(values: seq<string>) {
    && (forall i :: 0 <= i < |values| ==> IsReference(Text.TrimSpace(values[i])))
    && (forall i, j :: 0 <= i < j < |values| ==> Text.TrimSpace(values[i]) != Text.TrimSpace(values[j]))
  }

  lemma SubjectsAgree(value: string)
    ensures IsSubject(value) <==> CanonicalSubject(value)
  {
    hide Text.TrimSpace, Text.ByteLen;
  }

  lemma ListsAgree(values: seq<string>)
    ensures |Trimmed(values)| == |values|
    ensures ReferenceList(values) <==> CanonicalReferences(Trimmed(values))
  {
    hide Text.TrimSpace, CanonicalReference, Matches;
    forall i | 0 <= i < |values|
      ensures Trimmed(values)[i] == Text.TrimSpace(values[i])
      ensures IsReference(Text.TrimSpace(values[i])) <==> CanonicalReference(Trimmed(values)[i], 128)
    {
      ReferenceIsPattern(Text.TrimSpace(values[i]));
    }
    assert forall i :: 0 <= i < |values| ==> Trimmed(values)[i] in Trimmed(values);
  }

  // ----- A new activity -----

  ghost predicate Registrable(input: ActivityInput) {
    && IsReference(Text.TrimSpace(input.activityKey)) && IsReference(Text.TrimSpace(input.serviceName))
    && 1 <= Text.ByteLen(Text.TrimSpace(input.purpose)) <= 2048
    && 1 <= |input.classifications| <= 16 && |input.recipients| <= 32
    && ReferenceList(input.classifications) && ReferenceList(input.recipients)
    && IsDigest(Text.TrimSpace(input.evidence)) && IsSubject(Text.TrimSpace(input.owner))
  }

  lemma RegistrableIsAcceptable(input: ActivityInput)
    ensures Registrable(input) <==> AcceptableActivity(NormalizedActivity(input))
  {
    hide Text.TrimSpace, Text.ByteLen, CanonicalReference, CanonicalReferences, CanonicalDigest, CanonicalSubject;
    hide Matches, ReferenceList, IsSubject;
    ReferenceIsPattern(Text.TrimSpace(input.activityKey));
    ReferenceIsPattern(Text.TrimSpace(input.serviceName));
    DigestIsPattern(Text.TrimSpace(input.evidence));
    ListsAgree(input.classifications);
    ListsAgree(input.recipients);
    SubjectsAgree(Text.TrimSpace(input.owner));
  }

  /** No other activity has this key. */
  ghost predicate KeyIsFree(t: Tables, key: string) {
    forall other <- t.activities.Keys :: t.activities[other].scope.input.activityKey != key
  }

  /** The exact condition for a new activity. */
  lemma SubmissionCommitsIff(t: Tables, id: ActivityId, requester: string, input: ActivityInput)
    requires Inv(t)
    ensures Commits(t, Submitted(id, requester, input))
            <==> Registrable(input) && IsSubject(requester) && id !in t.activities
                 && KeyIsFree(t, Text.TrimSpace(input.activityKey))
  {
    hide Inv, Registrable, AcceptableActivity, CanonicalSubject, IsSubject, Create, Grows, Text.TrimSpace;
    RegistrableIsAcceptable(input);
    SubjectsAgree(requester);
    if AcceptableActivity(NormalizedActivity(input)) {
      CreateCommits(t, id, NormalizedActivity(input), requester);
    }
  }

  /** The columns of a new activity, each from its own field. */
  ghost predicate RegisteredAs(a: Activity, requester: string, input: ActivityInput) {
    && a.scope.input.activityKey == Text.TrimSpace(input.activityKey)
    && a.scope.input.serviceName == Text.TrimSpace(input.serviceName)
    && a.scope.input.purpose == Text.TrimSpace(input.purpose)
    && TrimmedOf(a.scope.input.classifications, input.classifications)
    && TrimmedOf(a.scope.input.recipients, input.recipients)
    && a.scope.input.evidence == Text.TrimSpace(input.evidence)
    && a.scope.input.owner == Text.TrimSpace(input.owner)
    && a.scope.requester == requester
    && a.status == Draft && a.version == 1 && a.conditions == "" && a.expires == None
  }

  ghost predicate TrimmedOf(stored: seq<string>, sent: seq<string>) {
    |stored| == |sent| && forall i :: 0 <= i < |sent| ==> stored[i] == Text.TrimSpace(sent[i])
  }

  lemma SubmissionIsStored(t: Tables, id: ActivityId, requester: string, input: ActivityInput)
    requires Commits(t, Submitted(id, requester, input))
    ensures var after := Next(t, Submitted(id, requester, input));
            && id !in t.activities && after.activities.Keys == t.activities.Keys + {id}
            && RegisteredAs(after.activities[id], requester, input)
            && (forall other <- t.activities.Keys :: after.activities[other] == t.activities[other])
            && after.evidence == t.evidence
  {
    hide Text.TrimSpace, AcceptableActivity, CanonicalSubject, LegalActivity, KeyTaken;
  }

  // ----- A transition -----

  /** One activity moved to this status, with one evidence row that carries what was sent. */
  ghost predicate MovedAs(t: Tables, after: Tables, id: ActivityId, status: ActivityStatus, actor: string,
                          reason: string, digest: string, conditions: string, expires: Option<Time>)
  {
    && id in t.activities
    && var version := t.activities[id].version + 1;
       && after.activities == t.activities[id := Activity(t.activities[id].scope, status, version, conditions, expires)]
       && after.evidence == t.evidence + [Evidence(id, version, status, actor, reason, digest, expires)]
  }

  lemma TransitionRows(t: Tables, id: ActivityId, status: ActivityStatus, actor: string, reason: string, digest: string,
                       conditions: string, expires: Option<Time>)
    requires id in t.activities && Transition(t, id, status, actor, reason, digest, conditions, expires).Success?
    ensures MovedAs(t, Transition(t, id, status, actor, reason, digest, conditions, expires).value, id, status, actor,
                    reason, digest, conditions, expires)
  {
    hide LegalActivity, LegalEvidence;
  }

  /** The body of an attestation or a submission for review. */
  ghost predicate GoodStep(w: WorkflowInput) {
    && w.expectedVersion > 0 && Text.ByteLen(Text.TrimSpace(w.reason)) <= 4096
    && IsDigest(Text.TrimSpace(w.evidence))
  }

  lemma GoodStepIsAcceptable(w: WorkflowInput)
    ensures GoodStep(w) <==> AcceptableWorkflow(NormalizedWorkflow(w))
  {
    hide Text.TrimSpace, Text.ByteLen, CanonicalDigest, Matches;
    DigestIsPattern(Text.TrimSpace(w.evidence));
  }

  /** The owner, at the expected version of the expected status. */
  predicate OwnersTurn(t: Tables, id: ActivityId, actor: string, from: ActivityStatus, version: int) {
    && id in t.activities && t.activities[id].status == from && t.activities[id].version == version
    && IsSubject(actor) && actor == t.activities[id].scope.input.owner
  }

  /** The exact conditions for the two steps of the owner. */
  lemma OwnerCommitsIff(t: Tables, id: ActivityId, actor: string, w: WorkflowInput)
    requires Inv(t)
    ensures Commits(t, Attested(id, actor, w)) <==> GoodStep(w) && OwnersTurn(t, id, actor, Draft, w.expectedVersion)
    ensures Commits(t, Reviewed(id, actor, w))
            <==> GoodStep(w) && OwnersTurn(t, id, actor, OwnerAttested, w.expectedVersion)
  {
    hide Inv, GoodStep, AcceptableWorkflow, CanonicalSubject, IsSubject, OwnerStep, Grows, Text.TrimSpace;
    GoodStepIsAcceptable(w);
    SubjectsAgree(actor);
    if AcceptableWorkflow(NormalizedWorkflow(w)) {
      OwnerStepCommits(t, id, actor, NormalizedWorkflow(w), Draft, OwnerAttested);
      OwnerStepCommits(t, id, actor, NormalizedWorkflow(w), OwnerAttested, DPOReview);
    }
  }

  lemma OwnerStepRows(t: Tables, id: ActivityId, actor: string, w: WorkflowInput, from: ActivityStatus,
                      status: ActivityStatus)
    requires OwnerStep(t, id, actor, w, from, status).Success?
    ensures MovedAs(t, OwnerStep(t, id, actor, w, from, status).value, id, status, actor, w.reason, w.evidence,
                    "", None)
  {
    hide CanonicalSubject, Transition, MovedAs;
    TransitionRows(t, id, status, actor, w.reason, w.evidence, "", None);
  }

  /** What the two steps leave: the trimmed reason and digest in the evidence, no conditions and no expiry. */
  lemma OwnerIsStored(t: Tables, id: ActivityId, actor: string, w: WorkflowInput)
    ensures Commits(t, Attested(id, actor, w)) ==>
              MovedAs(t, Next(t, Attested(id, actor, w)), id, OwnerAttested, actor,
                      Text.TrimSpace(w.reason), Text.TrimSpace(w.evidence), "", None)
    ensures Commits(t, Reviewed(id, actor, w)) ==>
              MovedAs(t, Next(t, Reviewed(id, actor, w)), id, DPOReview, actor,
                      Text.TrimSpace(w.reason), Text.TrimSpace(w.evidence), "", None)
  {
    hide Text.TrimSpace, AcceptableWorkflow, OwnerStep, MovedAs;
    if Commits(t, Attested(id, actor, w)) {
      OwnerStepRows(t, id, actor, NormalizedWorkflow(w), Draft, OwnerAttested);
    }
    if Commits(t, Reviewed(id, actor, w)) {
      OwnerStepRows(t, id, actor, NormalizedWorkflow(w), OwnerAttested, DPOReview);
    }
  }

  // ----- A decision -----

  /** The body of a decision, with the two readings of the clock. */
  ghost predicate GoodDecision(d: DecisionInput, first: Time, second: Time) {
    && d.expectedVersion > 0 && Text.ByteLen(Text.TrimSpace(d.reason)) <= 4096
    && IsDigest(Text.TrimSpace(d.evidence))
    && match d.decision
       case Some(ConditionallyApproved) =>
         d.expires.Some? && first < d.expires.value <= second + 180 * 24 * 3600 * 1_000_000_000
       case Some(Approved) => d.expires == None
       case Some(Rejected) => d.expires == None
       case _ => false
  }

  lemma GoodDecisionIsAcceptable(d: DecisionInput, first: Time, second: Time)
    ensures GoodDecision(d, first, second) <==> AcceptableDecision(NormalizedDecision(d), first, second)
  {
    hide Text.TrimSpace, Text.ByteLen, CanonicalDigest, Matches;
    DigestIsPattern(Text.TrimSpace(d.evidence));
  }

  /** The exact condition for a decision. */
  lemma DecisionCommitsIff(t: Tables, id: ActivityId, actor: string, d: DecisionInput, first: Time, second: Time)
    requires Inv(t)
    ensures Commits(t, Decided(id, actor, d, first, second))
            <==> && GoodDecision(d, first, second)
                 && id in t.activities && t.activities[id].status == DPOReview
                 && t.activities[id].version == d.expectedVersion && IsSubject(actor)
                 && actor != t.activities[id].scope.requester && actor != t.activities[id].scope.input.owner
  {
    hide Inv, GoodDecision, AcceptableDecision, CanonicalSubject, IsSubject, Decide, Grows, Text.TrimSpace;
    GoodDecisionIsAcceptable(d, first, second);
    SubjectsAgree(actor);
    if AcceptableDecision(NormalizedDecision(d), first, second) {
      DecideCommits(t, id, actor, NormalizedDecision(d), first, second);
    }
  }

  lemma DecideRows(t: Tables, id: ActivityId, actor: string, d: DecisionInput)
    requires Decide(t, id, actor, d).Success?
    ensures d.decision.Some?
    ensures MovedAs(t, Decide(t, id, actor, d).value, id, d.decision.value, actor, d.reason, d.evidence,
                    if d.decision.value == ConditionallyApproved then d.reason else "", d.expires)
  {
    hide CanonicalSubject, Transition, MovedAs;
    TransitionRows(t, id, d.decision.value, actor, d.reason, d.evidence,
                   if d.decision.value == ConditionallyApproved then d.reason else "", d.expires);
  }

  /**
   What a decision leaves: its status and expiry, the trimmed reason as the conditions of a conditional approval
   and of no other, and the author, reason, digest and expiry in the evidence.
   */
  lemma DecisionIsStored(t: Tables, id: ActivityId, actor: string, d: DecisionInput, first: Time, second: Time)
    requires Commits(t, Decided(id, actor, d, first, second))
    ensures d.decision.Some?
    ensures MovedAs(t, Next(t, Decided(id, actor, d, first, second)), id, d.decision.value, actor,
                    Text.TrimSpace(d.reason), Text.TrimSpace(d.evidence),
                    if d.decision == Some(ConditionallyApproved) then Text.TrimSpace(d.reason) else "", d.expires)
  {
    hide Text.TrimSpace, AcceptableDecision, Decide, MovedAs;
    DecideRows(t, id, actor, NormalizedDecision(d));
  }

  // ----- Refusals -----

  /** Which refusal an owner's step meets before it writes anything. */
  lemma OwnerRefusals(t: Tables, id: ActivityId, actor: string, w: WorkflowInput, from: ActivityStatus,
                      status: ActivityStatus)
    ensures var outcome := OwnerStep(t, id, actor, w, from, status);
            && (!IsSubject(actor) <==> outcome == Failure(BadSubject))
            && (IsSubject(actor) && id !in t.activities <==> outcome == Failure(NoSuchActivity))
            && (IsSubject(actor) && id in t.activities ==>
                  var a := t.activities[id];
                  && (a.status != from || a.version != w.expectedVersion <==> outcome == Failure(WrongVersion))
                  && (a.status == from && a.version == w.expectedVersion && a.scope.input.owner != actor
                      <==> outcome == Failure(OwnerOnly)))
  {
    hide CanonicalSubject, IsSubject, LegalActivity, LegalEvidence;
    SubjectsAgree(actor);
  }

  /** Which refusal a decision meets before it writes anything. */
  lemma DecisionRefusals(t: Tables, id: ActivityId, actor: string, d: DecisionInput)
    ensures var outcome := Decide(t, id, actor, d);
            && (!IsSubject(actor) <==> outcome == Failure(BadSubject))
            && (IsSubject(actor) && id !in t.activities <==> outcome == Failure(NoSuchActivity))
            && (IsSubject(actor) && id in t.activities ==>
                  var a := t.activities[id];
                  && (a.status != DPOReview || a.version != d.expectedVersion <==> outcome == Failure(WrongVersion))
                  && (a.status == DPOReview && a.version == d.expectedVersion
                      && (actor == a.scope.requester || actor == a.scope.input.owner)
                      <==> outcome == Failure(MakerChecker)))
  {
    hide CanonicalSubject, IsSubject, LegalActivity, LegalEvidence;
    SubjectsAgree(actor);
  }
}
