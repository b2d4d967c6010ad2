/** The bodies of the privacy routes: normalisation and validation. */
module PrivacyInputs {
  import opened Wrappers
  import Text
  import opened References
  import opened SubmitInputs

  type Time = int

  const DAY: Time := 24 * 3600 * 1_000_000_000

  datatype ActivityInput = ActivityInput(
    activityKey: string,
    serviceName: string,
    purpose: string,
    classifications: seq<string>,
    recipients: seq<string>,
    evidence: string,
    owner: string)

  function NormalizedActivity(input: ActivityInput): ActivityInput {
    ActivityInput(
      Text.TrimSpace(input.activityKey), Text.TrimSpace(input.serviceName), Text.TrimSpace(input.purpose),
      Trimmed(input.classifications), Trimmed(input.recipients),
      Text.TrimSpace(input.evidence), Text.TrimSpace(input.owner))
  }

  predicate CanonicalReferences(values: seq<string>) {
    (forall value <- values :: CanonicalReference(value, 128)) && Distinct(values)
  }

  predicate AcceptableActivity(input: ActivityInput) {
    && CanonicalReference(input.activityKey, 128)
    && CanonicalReference(input.serviceName, 128)
    && input.purpose != "" && Text.ByteLen(input.purpose) <= 2048
    && 1 <= |input.classifications| <= 16 && |input.recipients| <= 32
    && CanonicalReferences(input.classifications)
    && CanonicalReferences(input.recipients)
    && CanonicalDigest(input.evidence)
    && CanonicalSubject(input.owner)
  }

  /** The inner loop of CreatePrivacyActivityInput.Validate: canonical values without a repetition. */
  method ValidateReferences(values: seq<string>) returns (ok: bool)
    ensures ok <==> CanonicalReferences(values)
  {
    var seen: set<string> := {};
    for i := 0 to |values|
      invariant forall value :: value in seen <==> value in values[..i]
      invariant forall k :: 0 <= k < i ==> CanonicalReference(values[k], 128)
      invariant forall j, k :: 0 <= j < k < i ==> values[j] != values[k]
    {
      assert values[i] in values;
      var valid := ValidateReference(values[i], 128);
      if !valid || values[i] in seen {
        return false;
      }
      seen := seen + {values[i]};
    }
    return true;
  }

  /** CreatePrivacyActivityInput.Validate. */
  method ValidateActivity(input: ActivityInput) returns (ok: bool)
    ensures ok <==> AcceptableActivity(input)
  {
    hide CanonicalReference, CanonicalReferences, CanonicalDigest, CanonicalSubject;
    var valid := ValidateReference(input.activityKey, 128);
    if !valid {
      return false;
    }
    valid := ValidateReference(input.serviceName, 128);
    if !valid || input.purpose == "" || Text.ByteLen(input.purpose) > 2048 {
      return false;
    }
    if |input.classifications| == 0 || |input.classifications| > 16 || |input.recipients| > 32 {
      return false;
    }
    var lists := [input.classifications, input.recipients];
    for i := 0 to 2
      invariant forall k :: 0 <= k < i ==> CanonicalReferences(lists[k])
    {
      valid := ValidateReferences(lists[i]);
      if !valid {
        return false;
      }
    }
    assert CanonicalReferences(lists[0]) && CanonicalReferences(lists[1]);
    valid := ValidateDigest(input.evidence);
    if !valid {
      return false;
    }
    ok := ValidateSubject(input.owner);
  }

  /** An attestation, or the submission for review. */
  datatype WorkflowInput = WorkflowInput(expectedVersion: int, reason: string, evidence: string)

  function NormalizedWorkflow(input: WorkflowInput): WorkflowInput {
    input.(reason := Text.TrimSpace(input.reason), evidence := Text.TrimSpace(input.evidence))
  }

  predicate AcceptableWorkflow(input: WorkflowInput) {
    input.expectedVersion > 0 && Text.ByteLen(input.reason) <= 4096 && CanonicalDigest(input.evidence)
  }

  datatype ActivityStatus =
    | Draft | OwnerAttested | DPOReview | ConditionallyApproved | Approved | Rejected | Expired

  /** A decision; `decision` is None for a text that is no status of the enumeration. */
  datatype DecisionInput = DecisionInput(
    expectedVersion: int,
    decision: Option<ActivityStatus>,
    reason: string,
    evidence: string,
    expires: Option<Time>)

  function NormalizedDecision(input: DecisionInput): DecisionInput {
    input.(reason := Text.TrimSpace(input.reason), evidence := Text.TrimSpace(input.evidence))
  }

  predicate Final(s: ActivityStatus) {
    s in {ConditionallyApproved, Approved, Rejected}
  }

  /** PrivacyDecisionInput.Validate reads the clock twice: `first` for the lower bound, `second` for the upper one. */
  predicate AcceptableDecision(input: DecisionInput, first: Time, second: Time) {
    && input.expectedVersion > 0
    && input.decision.Some? && Final(input.decision.value)
    && Text.ByteLen(input.reason) <= 4096
    && CanonicalDigest(input.evidence)
    && if input.decision.value == ConditionallyApproved then
         input.expires.Some? && first < input.expires.value <= second + 180 * DAY
       else input.expires.None?
  }
}
