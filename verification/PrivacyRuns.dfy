/** What holds in every run of the privacy register, with any number of concurrent callers. */
module PrivacyRuns {
  import opened Wrappers
  import opened References
  import opened PrivacyInputs
  import opened PrivacyTransactions

  // ----- Runs -----

  /** A request that reached its handler; the handler normalises and validates the body before it calls the store. */
  datatype Event =
    | Submitted(id: ActivityId, requester: string, input: ActivityInput)
    | Attested(id: ActivityId, actor: string, workflow: WorkflowInput)
    | Reviewed(id: ActivityId, actor: string, workflow: WorkflowInput)
    | Decided(id: ActivityId, actor: string, decision: DecisionInput, first: Time, second: Time)

  /** The transaction of the event; None if the handler rejects the body. */
  function Transaction(t: Tables, e: Event): Option<Result<Tables, Refusal>> {
    match e
    case Submitted(id, requester, input) =>
      var normalized := NormalizedActivity(input);
      if AcceptableActivity(normalized) then Some(Create(t, id, normalized, requester)) else None
    case Attested(id, actor, workflow) =>
      var normalized := NormalizedWorkflow(workflow);
      if AcceptableWorkflow(normalized) then Some(Attest(t, id, actor, normalized)) else None
    case Reviewed(id, actor, workflow) =>
      var normalized := NormalizedWorkflow(workflow);
      if AcceptableWorkflow(normalized) then Some(SubmitReview(t, id, actor, normalized)) else None
    case Decided(id, actor, decision, first, second) =>
      var normalized := NormalizedDecision(decision);
      if AcceptableDecision(normalized, first, second) then Some(Decide(t, id, actor, normalized)) else None
  }

  predicate Commits(t: Tables, e: Event) {
    Transaction(t, e).Some? && Transaction(t, e).value.Success?
  }

  function Next(t: Tables, e: Event): Tables {
    if Commits(t, e) then Transaction(t, e).value.value else t
  }

  function Run(t: Tables, run: seq<Event>): Tables {
    if run == [] then t else Next(Run(t, run[..|run| - 1]), run[|run| - 1])
  }

  // ----- The evidence of one activity -----

  function Rows(evidence: seq<Evidence>, id: ActivityId): seq<Evidence> {
    if evidence == [] then [] else
    var last := evidence[|evidence| - 1];
    var rest := Rows(evidence[..|evidence| - 1], id);
    if last.activity == id then rest + [last] else rest
  }

  lemma RowsAppend(evidence: seq<Evidence>, e: Evidence, id: ActivityId)
    ensures Rows(evidence + [e], id) == Rows(evidence, id) + if e.activity == id then [e] else []
  {
    assert (evidence + [e])[..|evidence|] == evidence;
  }

  lemma {:induction false} RowsBelong(evidence: seq<Evidence>, id: ActivityId)
    ensures forall e <- Rows(evidence, id) :: e in evidence && e.activity == id
    ensures (forall e <- evidence :: e.activity != id) ==> Rows(evidence, id) == []
  {
    if evidence != [] {
      var init, last := evidence[..|evidence| - 1], evidence[|evidence| - 1];
      assert evidence == init + [last];
      RowsBelong(init, id);
    }
  }

  /** The decisions that lead to a status, in order. */
  function Path(s: ActivityStatus): seq<ActivityStatus> {
    match s
    case Draft => []
    case OwnerAttested => [OwnerAttested]
    case DPOReview => [OwnerAttested, DPOReview]
    case _ => [OwnerAttested, DPOReview, s]
  }

  /** Row `k` is the decision with which the activity reached version `k + 2`, by somebody who may make it. */
  ghost predicate GoodRow(a: Activity, row: Evidence, k: nat)
    requires k < |Path(a.status)|
  {
    && row.decision == Path(a.status)[k]
    && row.version == k + 2
    && (k < 2 ==> row.actor == a.scope.input.owner && row.expires == None)
    && (k == 2 ==> row.actor != a.scope.input.owner && row.actor != a.scope.requester && row.expires == a.expires)
  }

  ghost predicate ActivityInv(t: Tables, id: ActivityId)
    requires id in t.activities
  {
    var a, rows := t.activities[id], Rows(t.evidence, id);
    && LegalActivity(a)
    && a.status != Expired
    && |rows| == |Path(a.status)| && a.version == 1 + |rows|
    && forall k :: 0 <= k < |rows| ==> GoodRow(a, rows[k], k)
  }

  ghost predicate Inv(t: Tables) {
    && (forall id <- t.activities.Keys :: ActivityInv(t, id))
    && (forall e <- t.evidence :: e.activity in t.activities && LegalEvidence(e))
    && (forall a, b | a in t.activities && b in t.activities && a != b ::
          t.activities[a].scope.input.activityKey != t.activities[b].scope.input.activityKey)
  }

  // ----- Each transaction -----

  /** Validation and the CHECKs agree: what the handler lets through, the columns accept. */
  lemma AcceptedActivityIsLegal(input: ActivityInput, requester: string)
    requires AcceptableActivity(input) && CanonicalSubject(requester)
    ensures LegalActivity(Activity(Scope(input, requester), Draft, 1, "", None))
    ensures Matches(REFERENCE_PATTERN, input.activityKey) && Matches(REFERENCE_PATTERN, input.serviceName)
    ensures Matches(DIGEST_PATTERN, input.evidence)
  {
    ReferenceIsPattern(input.activityKey);
    ReferenceIsPattern(input.serviceName);
    DigestIsPattern(input.evidence);
  }

  /** A transition as the tables show it. */
  ghost predicate Moves(t: Tables, after: Tables, id: ActivityId, row: Evidence, conditions: string) {
    && id in t.activities && row.activity == id
    && after == Tables(
         t.activities[id := t.activities[id].(status := row.decision, version := row.version,
                                              conditions := conditions, expires := row.expires)],
         t.evidence + [row])
  }

  /** With no status or expiry out of place, the transition goes through: no guard of either table fires. */
  lemma TransitionCommits(t: Tables, id: ActivityId, status: ActivityStatus, actor: string, reason: string,
                          digest: string, conditions: string, expires: Option<Time>)
    requires id in t.activities && LegalActivity(t.activities[id]) && t.activities[id].version <= 3
    requires status != Draft && (status == ConditionallyApproved <==> expires.Some?)
    requires LegalSubject(actor) && |reason| <= 4096 && |conditions| <= 4096 && CanonicalDigest(digest)
    ensures var row := Evidence(id, t.activities[id].version + 1, status, actor, reason, digest, expires);
            && Transition(t, id, status, actor, reason, digest, conditions, expires).Success?
            && Moves(t, Transition(t, id, status, actor, reason, digest, conditions, expires).value, id, row,
                     conditions)
            && LegalEvidence(row)
            && LegalActivity(Transition(t, id, status, actor, reason, digest, conditions, expires).value.activities[id])
  {
    hide LegalScope, CanonicalDigest;
  }

  /** The row of a transition is the next one of its activity, and one its actor may write. */
  ghost predicate FitsNext(t: Tables, after: Tables, row: Evidence)
    requires row.activity in t.activities && row.activity in after.activities
  {
    var before, a := t.activities[row.activity], after.activities[row.activity];
    && LegalEvidence(row) && LegalActivity(a)
    && row.version == before.version + 1 && a.status != Expired
    && Path(a.status) == Path(before.status) + [a.status]
    && GoodRow(a, row, |Path(before.status)|)
  }

  lemma MovedActivity(t: Tables, after: Tables, id: ActivityId, row: Evidence, conditions: string)
    requires Moves(t, after, id, row, conditions) && ActivityInv(t, id) && FitsNext(t, after, row)
    ensures ActivityInv(after, id)
  {
    hide LegalActivity, LegalEvidence;
    RowsAppend(t.evidence, row, id);
    var rows, a := Rows(t.evidence, id), after.activities[id];
    forall k | 0 <= k < |rows|
      ensures GoodRow(a, rows[k], k)
    {
      assert GoodRow(t.activities[id], rows[k], k);
    }
  }

  lemma OtherActivity(t: Tables, after: Tables, id: ActivityId, row: Evidence, conditions: string, x: ActivityId)
    requires Moves(t, after, id, row, conditions) && x in t.activities && x != id && ActivityInv(t, x)
    ensures ActivityInv(after, x)
  {
    hide LegalActivity, GoodRow;
    RowsAppend(t.evidence, row, x);
  }

  lemma MoveKeepsInv(t: Tables, after: Tables, id: ActivityId, row: Evidence, conditions: string)
    requires Inv(t) && Moves(t, after, id, row, conditions) && FitsNext(t, after, row)
    ensures Inv(after)
  {
    hide LegalActivity, LegalEvidence, ActivityInv, GoodRow;
    forall x | x in after.activities.Keys
      ensures ActivityInv(after, x)
    {
      if x == id {
        MovedActivity(t, after, id, row, conditions);
      } else {
        OtherActivity(t, after, id, row, conditions, x);
      }
    }
    assert LegalEvidence(row);
  }

  lemma CreateKeepsInv(t: Tables, id: ActivityId, row: Activity)
    requires Inv(t) && id !in t.activities && !KeyTaken(t.activities, row.scope.input.activityKey)
    requires LegalActivity(row) && row.status == Draft && row.version == 1
    ensures Inv(t.(activities := t.activities[id := row]))
  {
    var after := t.(activities := t.activities[id := row]);
    hide LegalActivity, LegalEvidence;
    RowsBelong(t.evidence, id);
    forall x | x in after.activities.Keys
      ensures ActivityInv(after, x)
    {
      if x != id {
        assert ActivityInv(t, x);
      }
    }
  }

  // ----- The exact conditions -----

  predicate AtVersion(t: Tables, id: ActivityId, status: ActivityStatus, version: int) {
    id in t.activities && t.activities[id].status == status && t.activities[id].version == version
  }

  lemma SubjectIsLegal(actor: string)
    requires CanonicalSubject(actor)
    ensures LegalSubject(actor)
  {
  }

  predicate OwnerMayStep(t: Tables, id: ActivityId, actor: string, from: ActivityStatus, version: int) {
    AtVersion(t, id, from, version) && CanonicalSubject(actor) && actor == t.activities[id].scope.input.owner
  }

  /** The rules of one transition: the right next status, an expiry only where it belongs, the right actor. */
  predicate MayWrite(a: Activity, status: ActivityStatus, actor: string, expires: Option<Time>) {
    && (|| (a.status == Draft && status == OwnerAttested)
        || (a.status == OwnerAttested && status == DPOReview)
        || (a.status == DPOReview && Final(status)))
    && (status == ConditionallyApproved <==> expires.Some?)
    && if Final(status) then actor != a.scope.input.owner && actor != a.scope.requester
       else actor == a.scope.input.owner
  }

  lemma WrittenRowFits(t: Tables, after: Tables, row: Evidence, conditions: string)
    requires Moves(t, after, row.activity, row, conditions) && ActivityInv(t, row.activity)
    requires MayWrite(t.activities[row.activity], row.decision, row.actor, row.expires)
    requires row.version == t.activities[row.activity].version + 1
    requires LegalEvidence(row) && LegalActivity(after.activities[row.activity])
    ensures FitsNext(t, after, row)
  {
    hide LegalEvidence, LegalActivity, Rows;
  }

  lemma MoveGrows(t: Tables, after: Tables, id: ActivityId, row: Evidence, conditions: string)
    requires Moves(t, after, id, row, conditions)
    requires row.version == t.activities[id].version + 1 && !Final(t.activities[id].status)
    ensures Grows(t, after)
  {
  }

  lemma BeforeFinal(t: Tables, id: ActivityId)
    requires Inv(t) && id in t.activities && !Final(t.activities[id].status)
    ensures ActivityInv(t, id) && LegalActivity(t.activities[id]) && t.activities[id].version <= 3
  {
    assert ActivityInv(t, id);
    hide LegalActivity, Rows;
  }

  lemma TransitionKeeps(t: Tables, id: ActivityId, status: ActivityStatus, actor: string, reason: string,
                        digest: string, conditions: string, expires: Option<Time>)
    requires Inv(t) && id in t.activities && MayWrite(t.activities[id], status, actor, expires)
    requires CanonicalSubject(actor) && |reason| <= 4096 && |conditions| <= 4096 && CanonicalDigest(digest)
    ensures var outcome := Transition(t, id, status, actor, reason, digest, conditions, expires);
            && outcome.Success? && Inv(outcome.value) && Grows(t, outcome.value)
            && AtVersion(outcome.value, id, status, t.activities[id].version + 1)
  {
    BeforeFinal(t, id);
    SubjectIsLegal(actor);
    hide CanonicalSubject, CanonicalDigest, Inv, ActivityInv, LegalActivity, LegalEvidence, LegalSubject;
    hide Transition, Grows;
    TransitionCommits(t, id, status, actor, reason, digest, conditions, expires);
    var row := Evidence(id, t.activities[id].version + 1, status, actor, reason, digest, expires);
    var after := Transition(t, id, status, actor, reason, digest, conditions, expires).value;
    WrittenRowFits(t, after, row, conditions);
    MoveGrows(t, after, id, row, conditions);
    hide FitsNext;
    MoveKeepsInv(t, after, id, row, conditions);
  }

  lemma OwnerStepMoves(t: Tables, id: ActivityId, actor: string, input: WorkflowInput, from: ActivityStatus,
                       status: ActivityStatus)
    requires Inv(t) && AcceptableWorkflow(input) && OwnerMayStep(t, id, actor, from, input.expectedVersion)
    requires (from == Draft && status == OwnerAttested) || (from == OwnerAttested && status == DPOReview)
    ensures var outcome := OwnerStep(t, id, actor, input, from, status);
            && outcome.Success? && Inv(outcome.value) && Grows(t, outcome.value)
            && AtVersion(outcome.value, id, status, input.expectedVersion + 1)
  {
    hide CanonicalSubject, CanonicalDigest, Inv, Grows, Transition;
    TransitionKeeps(t, id, status, actor, input.reason, input.evidence, "", None);
  }

  /** On a validated body: the owner's step commits iff the activity is where the caller expects it. */
  lemma OwnerStepCommits(t: Tables, id: ActivityId, actor: string, input: WorkflowInput, from: ActivityStatus,
                         status: ActivityStatus)
    requires Inv(t) && AcceptableWorkflow(input)
    requires (from == Draft && status == OwnerAttested) || (from == OwnerAttested && status == DPOReview)
    ensures OwnerStep(t, id, actor, input, from, status).Success?
            <==> OwnerMayStep(t, id, actor, from, input.expectedVersion)
    ensures OwnerStep(t, id, actor, input, from, status).Success? ==>
              var after := OwnerStep(t, id, actor, input, from, status).value;
              Inv(after) && Grows(t, after) && AtVersion(after, id, status, input.expectedVersion + 1)
  {
    hide CanonicalSubject, Inv, AcceptableWorkflow, Grows, Transition;
    if OwnerMayStep(t, id, actor, from, input.expectedVersion) {
      OwnerStepMoves(t, id, actor, input, from, status);
    }
  }

  predicate ReviewerMayDecide(t: Tables, id: ActivityId, actor: string, version: int) {
    && AtVersion(t, id, DPOReview, version) && CanonicalSubject(actor)
    && actor != t.activities[id].scope.input.owner && actor != t.activities[id].scope.requester
  }

  lemma DecideMoves(t: Tables, id: ActivityId, actor: string, input: DecisionInput, first: Time, second: Time)
    requires Inv(t) && AcceptableDecision(input, first, second)
    requires ReviewerMayDecide(t, id, actor, input.expectedVersion)
    ensures var outcome := Decide(t, id, actor, input);
            && outcome.Success? && Inv(outcome.value) && Grows(t, outcome.value)
            && AtVersion(outcome.value, id, input.decision.value, input.expectedVersion + 1)
  {
    hide CanonicalSubject, CanonicalDigest, Inv, Grows, Transition;
    var status := input.decision.value;
    TransitionKeeps(t, id, status, actor, input.reason, input.evidence,
                    if status == ConditionallyApproved then input.reason else "", input.expires);
  }

  /** A decision commits iff the activity is in review at that version and the actor is neither requester nor owner. */
  lemma DecideCommits(t: Tables, id: ActivityId, actor: string, input: DecisionInput, first: Time, second: Time)
    requires Inv(t) && AcceptableDecision(input, first, second)
    ensures Decide(t, id, actor, input).Success? <==> ReviewerMayDecide(t, id, actor, input.expectedVersion)
    ensures Decide(t, id, actor, input).Success? ==>
              var after := Decide(t, id, actor, input).value;
              && Inv(after) && Grows(t, after)
              && AtVersion(after, id, input.decision.value, input.expectedVersion + 1)
  {
    hide CanonicalSubject, Inv, Grows, Transition;
    if ReviewerMayDecide(t, id, actor, input.expectedVersion) {
      DecideMoves(t, id, actor, input, first, second);
    }
  }

  /** Later tables: activities stay, scopes are as they were, versions never go back, evidence is only added. */
  ghost predicate Grows(t: Tables, after: Tables) {
    && (forall id <- t.activities.Keys ::
          id in after.activities && after.activities[id].scope == t.activities[id].scope
          && KeepsOrAdvances(t.activities[id], after.activities[id]))
    && t.evidence <= after.evidence
  }

  predicate KeepsOrAdvances(before: Activity, after: Activity) {
    after == before || (after.version > before.version && !Final(before.status))
  }

  // ----- Every run -----

  /** A validated activity is refused only for its key or its identifier, never by a CHECK. */
  lemma CreateCommits(t: Tables, id: ActivityId, input: ActivityInput, requester: string)
    requires Inv(t) && AcceptableActivity(input)
    ensures Create(t, id, input, requester).Success?
            <==> CanonicalSubject(requester) && id !in t.activities && !KeyTaken(t.activities, input.activityKey)
    ensures Create(t, id, input, requester).Success? ==>
              var after := Create(t, id, input, requester).value;
              Inv(after) && Grows(t, after) && AtVersion(after, id, Draft, 1)
  {
    hide Inv, Grows, CanonicalSubject, LegalActivity, KeyTaken, AcceptableActivity;
    if CanonicalSubject(requester) {
      AcceptedActivityIsLegal(input, requester);
    }
    if Create(t, id, input, requester).Success? {
      CreateKeepsInv(t, id, Activity(Scope(input, requester), Draft, 1, "", None));
      CreateGrows(t, id, Activity(Scope(input, requester), Draft, 1, "", None));
    }
  }

  lemma CreateGrows(t: Tables, id: ActivityId, row: Activity)
    requires id !in t.activities
    ensures Grows(t, t.(activities := t.activities[id := row]))
  {
  }

  lemma StepKeeps(t: Tables, e: Event)
    requires Inv(t)
    ensures Inv(Next(t, e)) && Grows(t, Next(t, e))
  {
    hide Inv, AcceptableActivity, AcceptableWorkflow, AcceptableDecision, OwnerStep, Decide, Create;
    match e
    case Submitted(id, requester, input) =>
      if AcceptableActivity(NormalizedActivity(input)) {
        CreateCommits(t, id, NormalizedActivity(input), requester);
      }
    case Attested(id, actor, workflow) =>
      if AcceptableWorkflow(NormalizedWorkflow(workflow)) {
        OwnerStepCommits(t, id, actor, NormalizedWorkflow(workflow), Draft, OwnerAttested);
      }
    case Reviewed(id, actor, workflow) =>
      if AcceptableWorkflow(NormalizedWorkflow(workflow)) {
        OwnerStepCommits(t, id, actor, NormalizedWorkflow(workflow), OwnerAttested, DPOReview);
      }
    case Decided(id, actor, decision, first, second) =>
      if AcceptableDecision(NormalizedDecision(decision), first, second) {
        DecideCommits(t, id, actor, NormalizedDecision(decision), first, second);
      }
  }

  lemma GrowsTransitive(a: Tables, b: Tables, c: Tables)
    requires Grows(a, b) && Grows(b, c)
    ensures Grows(a, c)
  {
    forall id | id in a.activities.Keys
      ensures id in c.activities && c.activities[id].scope == a.activities[id].scope
      ensures KeepsOrAdvances(a.activities[id], c.activities[id])
    {
      assert KeepsOrAdvances(a.activities[id], b.activities[id]);
      assert KeepsOrAdvances(b.activities[id], c.activities[id]);
    }
  }

  lemma {:induction false} RunKeeps(t: Tables, run: seq<Event>)
    requires Inv(t)
    ensures Inv(Run(t, run)) && Grows(t, Run(t, run))
  {
    hide Inv, Next;
    if run != [] {
      var before := Run(t, run[..|run| - 1]);
      RunKeeps(t, run[..|run| - 1]);
      StepKeeps(before, run[|run| - 1]);
      GrowsTransitive(t, before, Run(t, run));
    }
  }

  lemma FreshRunKeeps(run: seq<Event>)
    ensures Inv(Run(EMPTY, run))
  {
    assert Inv(EMPTY);
    RunKeeps(EMPTY, run);
  }

  /** The version counts the evidence rows, which carry the versions 2, 3, ... along the path to the status. */
  ghost predicate VersionsAgree(a: Activity, rows: seq<Evidence>) {
    && a.version == 1 + |rows| <= 4
    && |rows| == |Path(a.status)|
    && forall k :: 0 <= k < |rows| ==> rows[k].version == k + 2 && rows[k].decision == Path(a.status)[k]
  }

  lemma VersionsAgreeInTables(t: Tables, id: ActivityId)
    requires id in t.activities && ActivityInv(t, id)
    ensures VersionsAgree(t.activities[id], Rows(t.evidence, id)) && ExpiryMatchesStatus(t.activities[id])
  {
    hide Rows, LegalScope;
    var a, rows := t.activities[id], Rows(t.evidence, id);
    forall k | 0 <= k < |rows|
      ensures rows[k].version == k + 2 && rows[k].decision == Path(a.status)[k]
    {
      assert GoodRow(a, rows[k], k);
    }
  }

  /**
   Every run of a fresh register: versions and evidence agree without a gap, an expiry is stored exactly for
   conditional approvals, and nothing is ever `expired`.
   */
  lemma VersionsMatchEvidence(run: seq<Event>, id: ActivityId)
    requires id in Run(EMPTY, run).activities
    ensures var t := Run(EMPTY, run);
            && VersionsAgree(t.activities[id], Rows(t.evidence, id))
            && (t.activities[id].status == ConditionallyApproved <==> t.activities[id].expires.Some?)
            && t.activities[id].status != Expired
  {
    FreshRunKeeps(run);
    assert ActivityInv(Run(EMPTY, run), id);
    hide Inv, Run, Rows, VersionsAgree, LegalActivity;
    VersionsAgreeInTables(Run(EMPTY, run), id);
  }

  /** Who may have written a row. */
  predicate RightActor(scope: Scope, e: Evidence) {
    if Final(e.decision) then e.actor != scope.requester && e.actor != scope.input.owner
    else e.decision in {OwnerAttested, DPOReview} && e.actor == scope.input.owner
  }

  lemma RightActorInTables(t: Tables, e: Evidence)
    requires e in t.evidence && e.activity in t.activities && ActivityInv(t, e.activity)
    ensures RightActor(t.activities[e.activity].scope, e)
  {
    RowsComplete(t.evidence, e);
    var rows, a := Rows(t.evidence, e.activity), t.activities[e.activity];
    hide Rows, LegalActivity;
    var k :| 0 <= k < |rows| && rows[k] == e;
    assert GoodRow(a, rows[k], k);
  }

  /** Separation of duty: the owner attests and submits; the decision is made by neither owner nor requester. */
  lemma DutiesSeparated(run: seq<Event>, e: Evidence)
    requires e in Run(EMPTY, run).evidence
    ensures e.activity in Run(EMPTY, run).activities
    ensures RightActor(Run(EMPTY, run).activities[e.activity].scope, e)
  {
    FreshRunKeeps(run);
    hide Run, RightActor, LegalEvidence;
    assert ActivityInv(Run(EMPTY, run), e.activity);
    hide ActivityInv;
    RightActorInTables(Run(EMPTY, run), e);
  }

  lemma {:induction false} RowsComplete(evidence: seq<Evidence>, e: Evidence)
    requires e in evidence
    ensures e in Rows(evidence, e.activity)
  {
    var init, last := evidence[..|evidence| - 1], evidence[|evidence| - 1];
    assert evidence == init + [last];
    if e in init {
      RowsComplete(init, e);
    }
  }

  /** A decided activity never changes again, not even when its expiry has passed. */
  lemma DecisionIsFinal(t: Tables, run: seq<Event>, id: ActivityId)
    requires Inv(t) && id in t.activities && Final(t.activities[id].status)
    ensures id in Run(t, run).activities && Run(t, run).activities[id] == t.activities[id]
  {
    RunKeeps(t, run);
  }

  // ----- Compare and set -----

  /** The version a caller expects, for the events that carry one. */
  function Expects(e: Event): Option<(ActivityId, int)> {
    match e
    case Submitted(_, _, _) => None
    case Attested(id, _, workflow) => Some((id, workflow.expectedVersion))
    case Reviewed(id, _, workflow) => Some((id, workflow.expectedVersion))
    case Decided(id, _, decision, _, _) => Some((id, decision.expectedVersion))
  }

  /** Whoever commits had the expected version right, and leaves the next one behind. */
  lemma CommitTakesVersion(t: Tables, e: Event)
    requires Inv(t) && Commits(t, e) && Expects(e).Some?
    ensures var (id, version) := Expects(e).value;
            && id in t.activities && t.activities[id].version == version
            && id in Next(t, e).activities && Next(t, e).activities[id].version == version + 1
  {
    hide Inv, AcceptableWorkflow, AcceptableDecision, OwnerStep, Decide, CanonicalSubject, Grows;
    match e
    case Attested(id, actor, workflow) =>
      OwnerStepCommits(t, id, actor, NormalizedWorkflow(workflow), Draft, OwnerAttested);
    case Reviewed(id, actor, workflow) =>
      OwnerStepCommits(t, id, actor, NormalizedWorkflow(workflow), OwnerAttested, DPOReview);
    case Decided(id, actor, decision, first, second) =>
      DecideCommits(t, id, actor, NormalizedDecision(decision), first, second);
  }

  lemma RunThrough(t: Tables, run: seq<Event>, i: nat, j: nat)
    requires i < j <= |run|
    ensures Run(t, run[..j]) == Run(Next(Run(t, run[..i]), run[i]), run[i + 1..j])
  {
    hide Next;
    var first := run[..i + 1];
    assert first[..i] == run[..i] && Run(t, first) == Next(Run(t, run[..i]), run[i]);
    hide Run;
    assert run[..j] == first + run[i + 1..j];
    RunConcat(t, first, run[i + 1..j]);
  }

  /** A commit at position `i` leaves the version above the expected one at every later position. */
  lemma VersionMovedOn(t: Tables, run: seq<Event>, i: nat, j: nat)
    requires Inv(t) && i < j <= |run|
    requires Expects(run[i]).Some? && Commits(Run(t, run[..i]), run[i])
    ensures var (id, version) := Expects(run[i]).value;
            id in Run(t, run[..j]).activities && Run(t, run[..j]).activities[id].version > version
  {
    hide Inv, Next, Run, Commits;
    var before := Run(t, run[..i]);
    RunKeeps(t, run[..i]);
    CommitTakesVersion(before, run[i]);
    StepKeeps(before, run[i]);
    RunKeeps(Next(before, run[i]), run[i + 1..j]);
    RunThrough(t, run, i, j);
  }

  /** Of all callers that expect the same version of the same activity, at most one commits, in any interleaving. */
  lemma OneWinner(t: Tables, run: seq<Event>, i: nat, j: nat)
    requires Inv(t) && i < j < |run|
    requires Expects(run[i]).Some? && Expects(run[i]) == Expects(run[j])
    requires Commits(Run(t, run[..i]), run[i])
    ensures !Commits(Run(t, run[..j]), run[j])
  {
    hide Inv, Next, Run, Commits, Grows;
    RunKeeps(t, run[..j]);
    VersionMovedOn(t, run, i, j);
    if Commits(Run(t, run[..j]), run[j]) {
      CommitTakesVersion(Run(t, run[..j]), run[j]);
    }
  }

  lemma {:induction false} RunConcat(t: Tables, a: seq<Event>, b: seq<Event>)
    ensures Run(t, a + b) == Run(Run(t, a), b)
  {
    if b == [] {
      assert a + b == a;
    } else {
      assert (a + b)[..|a + b| - 1] == a + b[..|b| - 1];
      RunConcat(t, a, b[..|b| - 1]);
    }
  }
}
