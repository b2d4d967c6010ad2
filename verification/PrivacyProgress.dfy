/** The privacy workflow goes all the way: from any reachable register a new activity can be decided. */
module PrivacyProgress {
  import opened Wrappers
  import Text
  import opened References
  import opened PrivacyInputs
  import opened PrivacyTransactions
  import opened PrivacyRuns
  import opened SubmitInputs

  /** Everybody's part in one decision: the requester's activity, the owner's two steps, the reviewer's decision. */
  datatype Case = Case(
    requester: string,
    input: ActivityInput,
    attestation: WorkflowInput,
    submission: WorkflowInput,
    reviewer: string,
    decision: DecisionInput,
    first: Time,
    second: Time)

  function Owner(c: Case): string {
    NormalizedActivity(c.input).owner
  }

  /** The bodies pass validation, the versions are as expected, and the reviewer is neither requester nor owner. */
  predicate WellPrepared(c: Case) {
    && CanonicalSubject(c.requester) && AcceptableActivity(NormalizedActivity(c.input))
    && AcceptableWorkflow(NormalizedWorkflow(c.attestation)) && c.attestation.expectedVersion == 1
    && AcceptableWorkflow(NormalizedWorkflow(c.submission)) && c.submission.expectedVersion == 2
    && AcceptableDecision(NormalizedDecision(c.decision), c.first, c.second) && c.decision.expectedVersion == 3
    && CanonicalSubject(c.reviewer) && c.reviewer != c.requester && c.reviewer != Owner(c)
  }

  function CaseRun(id: ActivityId, c: Case): seq<Event> {
    [Submitted(id, c.requester, c.input), Attested(id, Owner(c), c.attestation), Reviewed(id, Owner(c), c.submission),
     Decided(id, c.reviewer, c.decision, c.first, c.second)]
  }

  /** The activity of this case, as far as it has come. */
  ghost predicate Stands(t: Tables, id: ActivityId, c: Case, status: ActivityStatus, version: int) {
    && Inv(t) && AtVersion(t, id, status, version)
    && t.activities[id].scope == Scope(NormalizedActivity(c.input), c.requester)
  }

  lemma SubmittedStep(t: Tables, id: ActivityId, c: Case)
    requires Inv(t) && WellPrepared(c) && id !in t.activities
    requires !KeyTaken(t.activities, NormalizedActivity(c.input).activityKey)
    ensures Stands(Next(t, Submitted(id, c.requester, c.input)), id, c, Draft, 1)
  {
    hide Inv, Grows, CanonicalSubject, AcceptableActivity, AcceptableWorkflow, AcceptableDecision, KeyTaken;
    hide NormalizedActivity, LegalActivity;
    CreateCommits(t, id, NormalizedActivity(c.input), c.requester);
  }

  lemma OwnerIsCanonical(c: Case)
    requires WellPrepared(c)
    ensures CanonicalSubject(Owner(c))
  {
    hide CanonicalSubject, AcceptableWorkflow, AcceptableDecision, NormalizedActivity;
  }

  lemma AttestedStep(t: Tables, id: ActivityId, c: Case)
    requires WellPrepared(c) && Stands(t, id, c, Draft, 1)
    ensures Stands(Next(t, Attested(id, Owner(c), c.attestation)), id, c, OwnerAttested, 2)
  {
    hide Inv, CanonicalSubject, AcceptableActivity, AcceptableWorkflow, AcceptableDecision, OwnerStep;
    hide NormalizedActivity;
    OwnerIsCanonical(c);
    OwnerStepCommits(t, id, Owner(c), NormalizedWorkflow(c.attestation), Draft, OwnerAttested);
  }

  lemma ReviewedStep(t: Tables, id: ActivityId, c: Case)
    requires WellPrepared(c) && Stands(t, id, c, OwnerAttested, 2)
    ensures Stands(Next(t, Reviewed(id, Owner(c), c.submission)), id, c, DPOReview, 3)
  {
    hide Inv, CanonicalSubject, AcceptableActivity, AcceptableWorkflow, AcceptableDecision, OwnerStep;
    hide NormalizedActivity;
    OwnerIsCanonical(c);
    OwnerStepCommits(t, id, Owner(c), NormalizedWorkflow(c.submission), OwnerAttested, DPOReview);
  }

  /** A committed decision stores the expiry it was given. */
  lemma DecisionStored(t: Tables, id: ActivityId, actor: string, input: DecisionInput)
    requires Decide(t, id, actor, input).Success?
    ensures var after := Decide(t, id, actor, input).value;
            id in after.activities && after.activities[id].expires == input.expires
  {
    hide CanonicalSubject, LegalActivity, LegalEvidence;
  }

  lemma DecidedStep(t: Tables, id: ActivityId, c: Case)
    requires WellPrepared(c) && Stands(t, id, c, DPOReview, 3)
    ensures var after := Next(t, Decided(id, c.reviewer, c.decision, c.first, c.second));
            && Stands(after, id, c, c.decision.decision.value, 4)
            && after.activities[id].expires == c.decision.expires
  {
    hide Inv, CanonicalSubject, AcceptableActivity, AcceptableWorkflow, AcceptableDecision, Decide;
    hide NormalizedActivity;
    DecideCommits(t, id, c.reviewer, NormalizedDecision(c.decision), c.first, c.second);
    DecisionStored(t, id, c.reviewer, NormalizedDecision(c.decision));
  }

  lemma RunFour(t: Tables, a: Event, b: Event, c: Event, d: Event)
    ensures Run(t, [a, b, c, d]) == Next(Next(Next(Next(t, a), b), c), d)
  {
    hide Next;
    assert [a, b, c, d][..3] == [a, b, c] && [a, b, c][..2] == [a, b] && [a, b][..1] == [a] && [a][..0] == [];
    assert Run(t, [a]) == Next(Run(t, []), a);
    assert Run(t, [a, b]) == Next(Run(t, [a]), b);
    assert Run(t, [a, b, c]) == Next(Run(t, [a, b]), c);
  }

  /**
   From every reachable register: four well prepared requests with the expected versions 1, 2 and 3 take a new
   activity to the decision, whichever it is, with the expiry of that decision.
   */
  lemma CanBeDecided(t: Tables, id: ActivityId, c: Case)
    requires Inv(t) && WellPrepared(c) && id !in t.activities
    requires !KeyTaken(t.activities, NormalizedActivity(c.input).activityKey)
    ensures var after := Run(t, CaseRun(id, c));
            && Inv(after) && AtVersion(after, id, c.decision.decision.value, 4)
            && after.activities[id].expires == c.decision.expires
  {
    hide Inv, WellPrepared, KeyTaken, Next, Run;
    SubmittedStep(t, id, c);
    var draft := Next(t, Submitted(id, c.requester, c.input));
    AttestedStep(draft, id, c);
    var attested := Next(draft, Attested(id, Owner(c), c.attestation));
    ReviewedStep(attested, id, c);
    DecidedStep(Next(attested, Reviewed(id, Owner(c), c.submission)), id, c);
    RunFour(t, CaseRun(id, c)[0], CaseRun(id, c)[1], CaseRun(id, c)[2], CaseRun(id, c)[3]);
  }

  /** A conditional approval stays in every continuation, whatever the clock reads in it. */
  lemma ConditionalApprovalOutlivesExpiry(t: Tables, id: ActivityId, c: Case, rest: seq<Event>)
    requires Inv(t) && WellPrepared(c) && id !in t.activities
    requires !KeyTaken(t.activities, NormalizedActivity(c.input).activityKey)
    requires c.decision.decision == Some(ConditionallyApproved)
    ensures var after := Run(t, CaseRun(id, c) + rest);
            && id in after.activities && after.activities[id].status == ConditionallyApproved
            && after.activities[id].expires == c.decision.expires != None
  {
    hide Inv, WellPrepared, KeyTaken, Next, Run, CaseRun;
    CanBeDecided(t, id, c);
    DecisionIsFinal(Run(t, CaseRun(id, c)), rest, id);
    RunConcat(t, CaseRun(id, c), rest);
    ConditionalHasExpiry(c);
  }

  lemma ConditionalHasExpiry(c: Case)
    requires WellPrepared(c) && c.decision.decision == Some(ConditionallyApproved)
    ensures c.decision.expires.Some? && c.first < c.decision.expires.value
  {
    hide CanonicalSubject, AcceptableActivity, AcceptableWorkflow, CanonicalDigest;
  }

  // ----- A concrete register -----

  const EXAMPLE_DIGEST: string := "sha256:" + seq(64, i => '0')

  /** Conditionally approved for one day, at time zero. */
  const EXAMPLE_CASE := Case(
    "anna", ActivityInput("a", "s", "p", ["c"], [], EXAMPLE_DIGEST, "olga"),
    WorkflowInput(1, "", EXAMPLE_DIGEST), WorkflowInput(2, "", EXAMPLE_DIGEST),
    "berta", DecisionInput(3, Some(ConditionallyApproved), "", EXAMPLE_DIGEST, Some(DAY)), 0, 0)

  lemma ExampleTexts()
    ensures Text.Plain("a") && Text.Plain("s") && Text.Plain("p") && Text.Plain("c")
    ensures Text.Plain("anna") && Text.Plain("olga") && Text.Plain("berta")
    ensures Text.Plain(EXAMPLE_DIGEST) && CanonicalDigest(EXAMPLE_DIGEST)
    ensures Text.TrimSpace("") == "" && Text.ByteLen("") == 0
  {
    hide Text.Plain;
    Text.PlainText("a");
    Text.PlainText("s");
    Text.PlainText("p");
    Text.PlainText("c");
    Text.PlainText("anna");
    Text.PlainText("olga");
    Text.PlainText("berta");
    assert |"sha256:"| == 7 && EXAMPLE_DIGEST[..7] == "sha256:";
    DigestIsAscii(EXAMPLE_DIGEST);
    Text.PlainText(EXAMPLE_DIGEST);
  }

  lemma ExampleIsAcceptable()
    ensures NormalizedActivity(EXAMPLE_CASE.input) == EXAMPLE_CASE.input
    ensures AcceptableActivity(EXAMPLE_CASE.input)
  {
    hide Text.TrimSpace, Text.ByteLen, CanonicalDigest;
    ExampleTexts();
    assert Trimmed(["c"])[0] == "c" && Trimmed(["c"]) == ["c"] && Trimmed([]) == [];
  }

  lemma ExampleIsPrepared()
    ensures WellPrepared(EXAMPLE_CASE)
  {
    hide Text.TrimSpace, Text.ByteLen, CanonicalDigest, AcceptableActivity, NormalizedActivity;
    ExampleTexts();
    ExampleIsAcceptable();
  }

  /** From an empty register, and for every continuation of the run. */
  lemma ExampleOutlivesExpiry(rest: seq<Event>)
    ensures var after := Run(EMPTY, CaseRun(1, EXAMPLE_CASE) + rest);
            && 1 in after.activities && after.activities[1].status == ConditionallyApproved
            && after.activities[1].expires == Some(DAY)
  {
    hide Inv, WellPrepared, Run;
    FreshRunKeeps([]);
    EmptyRun();
    ExampleIsPrepared();
    ConditionalApprovalOutlivesExpiry(EMPTY, 1, EXAMPLE_CASE, rest);
  }

  lemma EmptyRun()
    ensures Run(EMPTY, []) == EMPTY
  {
  }
}
