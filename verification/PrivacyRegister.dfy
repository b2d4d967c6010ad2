/**
 The two tables of the privacy register, updated in place. Every transition reads one locked row, updates it
 and inserts its evidence; a refused evidence row takes the update back.
 */
module PrivacyRegister {
  import opened Wrappers
  import opened References
  import opened PrivacyInputs
  import opened PrivacyTransactions
  import opened PrivacyRuns

  /** A transaction ended as its specification says, and returned the new row if it committed. */
  ghost predicate Settled(spec: Result<Tables, Refusal>, before: Tables, after: Tables,
                          outcome: Result<Activity, Refusal>, id: ActivityId)
  {
    match spec
    case Success(t) => after == t && id in t.activities && outcome == Success(t.activities[id])
    case Failure(e) => after == before && outcome == Failure(e)
  }

  predicate OwnersStep(from: ActivityStatus, status: ActivityStatus) {
    (from == Draft && status == OwnerAttested) || (from == OwnerAttested && status == DPOReview)
  }

  /** On a validated body the owner's step went through exactly if it was the owner's turn, at the expected version. */
  ghost predicate Stepped(before: Tables, after: Tables, outcome: Result<Activity, Refusal>, id: ActivityId,
                          actor: string, input: WorkflowInput, from: ActivityStatus, status: ActivityStatus)
  {
    Inv(before) && AcceptableWorkflow(input) ==>
      && Inv(after)
      && (outcome.Success? <==> OwnerMayStep(before, id, actor, from, input.expectedVersion))
      && (outcome.Success? ==> AtVersion(after, id, status, input.expectedVersion + 1))
  }

  /** The two tables. */
  class Register {
    var activities: map<ActivityId, Activity>
    var evidence: seq<Evidence>

    function Snapshot(): Tables
      reads this
    {
      Tables(activities, evidence)
    }

    constructor ()
      ensures Snapshot() == EMPTY && Inv(Snapshot())
    {
      activities, evidence := map[], [];
    }

    method CreatePrivacyActivity(id: ActivityId, input: ActivityInput, requester: string)
      returns (outcome: Result<Activity, Refusal>)
      modifies this
      ensures Settled(Create(old(Snapshot()), id, input, requester), old(Snapshot()), Snapshot(), outcome, id)
      ensures Inv(old(Snapshot())) && AcceptableActivity(input) ==>
                && Inv(Snapshot())
                && (outcome.Success? <==> CanonicalSubject(requester) && id !in old(activities)
                                          && !KeyTaken(old(activities), input.activityKey))
    {
      hide Inv, AcceptableActivity, CanonicalSubject, Grows, LegalActivity;
      ghost var before := Snapshot();
      if Inv(before) && AcceptableActivity(input) {
        CreateCommits(before, id, input, requester);
      }
      var canonical := ValidateSubject(requester);
      if !canonical {
        return Failure(BadSubject);
      }
      var row := Activity(Scope(input, requester), Draft, 1, "", None);
      if !LegalActivity(row) {
        return Failure(CheckViolation);
      }
      if id in activities || KeyTaken(activities, input.activityKey) {
        return Failure(UniqueViolation);
      }
      activities := activities[id := row];
      return Success(row);
    }

    method AttestPrivacyActivity(id: ActivityId, actor: string, input: WorkflowInput)
      returns (outcome: Result<Activity, Refusal>)
      modifies this
      ensures Settled(Attest(old(Snapshot()), id, actor, input), old(Snapshot()), Snapshot(), outcome, id)
      ensures Stepped(old(Snapshot()), Snapshot(), outcome, id, actor, input, Draft, OwnerAttested)
    {
      outcome := MoveByOwner(id, actor, input, Draft, OwnerAttested);
    }

    method SubmitPrivacyDPOReview(id: ActivityId, actor: string, input: WorkflowInput)
      returns (outcome: Result<Activity, Refusal>)
      modifies this
      ensures Settled(SubmitReview(old(Snapshot()), id, actor, input), old(Snapshot()), Snapshot(), outcome, id)
      ensures Stepped(old(Snapshot()), Snapshot(), outcome, id, actor, input, OwnerAttested, DPOReview)
    {
      outcome := MoveByOwner(id, actor, input, OwnerAttested, DPOReview);
    }

    method MoveByOwner(id: ActivityId, actor: string, input: WorkflowInput, from: ActivityStatus,
                       status: ActivityStatus)
      returns (outcome: Result<Activity, Refusal>)
      modifies this
      ensures Settled(OwnerStep(old(Snapshot()), id, actor, input, from, status),
                      old(Snapshot()), Snapshot(), outcome, id)
      ensures OwnersStep(from, status) ==>
                Stepped(old(Snapshot()), Snapshot(), outcome, id, actor, input, from, status)
    {
      hide Inv, AcceptableWorkflow, CanonicalSubject, Grows, Transition;
      ghost var before := Snapshot();
      if Inv(before) && AcceptableWorkflow(input) && OwnersStep(from, status) {
        OwnerStepCommits(before, id, actor, input, from, status);
      }
      var canonical := ValidateSubject(actor);
      if !canonical {
        return Failure(BadSubject);
      }
      if id !in activities {
        return Failure(NoSuchActivity);
      }
      var activity := activities[id];
      if activity.status != from || activity.version != input.expectedVersion {
        return Failure(WrongVersion);
      }
      if actor != activity.scope.input.owner {
        return Failure(OwnerOnly);
      }
      outcome := TransitionInPlace(id, status, actor, input.reason, input.evidence, "", None);
    }

    method DecidePrivacyActivity(id: ActivityId, actor: string, input: DecisionInput)
      returns (outcome: Result<Activity, Refusal>)
      modifies this
      ensures Settled(Decide(old(Snapshot()), id, actor, input), old(Snapshot()), Snapshot(), outcome, id)
      ensures forall first, second | Inv(old(Snapshot())) && AcceptableDecision(input, first, second) ::
                && Inv(Snapshot())
                && (outcome.Success? <==> ReviewerMayDecide(old(Snapshot()), id, actor, input.expectedVersion))
                && (outcome.Success? ==> AtVersion(Snapshot(), id, input.decision.value, input.expectedVersion + 1))
    {
      hide Inv, AcceptableDecision, CanonicalSubject, Grows, Transition;
      ghost var before := Snapshot();
      forall first, second | Inv(before) && AcceptableDecision(input, first, second)
        ensures Decide(before, id, actor, input).Success?
                <==> ReviewerMayDecide(before, id, actor, input.expectedVersion)
        ensures Inv(After(before, Decide(before, id, actor, input)))
        ensures Decide(before, id, actor, input).Success? ==>
                  AtVersion(Decide(before, id, actor, input).value, id, input.decision.value, input.expectedVersion + 1)
      {
        DecideCommits(before, id, actor, input, first, second);
      }
      var canonical := ValidateSubject(actor);
      if !canonical {
        return Failure(BadSubject);
      }
      if id !in activities {
        return Failure(NoSuchActivity);
      }
      var activity := activities[id];
      if activity.status != DPOReview || activity.version != input.expectedVersion {
        return Failure(WrongVersion);
      }
      if actor == activity.scope.requester || actor == activity.scope.input.owner {
        return Failure(MakerChecker);
      }
      if input.decision.None? {
        return Failure(UnknownStatus);
      }
      var conditions := "";
      if input.decision.value == ConditionallyApproved {
        conditions := input.reason;
      }
      outcome := TransitionInPlace(
        id, input.decision.value, actor, input.reason, input.evidence, conditions, input.expires);
    }

    /** Update, then evidence; a refused evidence row takes the update back. */
    method TransitionInPlace(id: ActivityId, status: ActivityStatus, actor: string, reason: string, digest: string,
                             conditions: string, expires: Option<Time>)
      returns (outcome: Result<Activity, Refusal>)
      requires id in activities
      modifies this
      ensures Settled(Transition(old(Snapshot()), id, status, actor, reason, digest, conditions, expires),
                      old(Snapshot()), Snapshot(), outcome, id)
    {
      var saved := activities[id];
      var row := saved.(status := status, version := saved.version + 1, conditions := conditions, expires := expires);
      if row.version > MAX_VERSION {
        return Failure(OutOfRange);
      }
      if !TriggerAccepts(saved, row) {
        return Failure(TriggerRaised);
      }
      if !LegalActivity(row) {
        return Failure(CheckViolation);
      }
      activities := activities[id := row];
      var proof := Evidence(id, row.version, status, actor, reason, digest, expires);
      if !LegalEvidence(proof) {
        activities := activities[id := saved];
        return Failure(CheckViolation);
      }
      evidence := evidence + [proof];
      return Success(row);
    }
  }
}
