/**
 The transactions of the privacy register: activities with an optimistic version, and one evidence row for
 each version after the first. Every transition reads one locked row, updates it through the version trigger
 and inserts its evidence, in one transaction.
 */
module PrivacyTransactions {
  import opened Wrappers
  import opened References
  import opened PrivacyInputs

  type ActivityId = nat

  /** The columns the trigger makes immutable. */
  datatype Scope = Scope(input: ActivityInput, requester: string)

  datatype Activity = Activity(
    scope: Scope,
    status: ActivityStatus,
    version: int,
    conditions: string,
    expires: Option<Time>)

  datatype Evidence = Evidence(
    activity: ActivityId,
    version: int,
    decision: ActivityStatus,
    actor: string,
    reason: string,
    digest: string,
    expires: Option<Time>)

  datatype Tables = Tables(activities: map<ActivityId, Activity>, evidence: seq<Evidence>)

  const EMPTY := Tables(map[], [])

  /** The largest BIGINT. */
  const MAX_VERSION: int := 0x7FFF_FFFF_FFFF_FFFF

  datatype Refusal =
    | CheckViolation | UniqueViolation | ForeignKeyViolation | TriggerRaised | OutOfRange
    | BadSubject | NoSuchActivity | WrongVersion | OwnerOnly | MakerChecker | UnknownStatus

  // ----- CHECK constraints -----

  predicate LegalSubject(subject: string) {
    1 <= |subject| <= 512
  }

  /** The cross-column constraint: an expiry is stored for conditional approvals and for nothing else. */
  predicate ExpiryMatchesStatus(a: Activity) {
    a.status == ConditionallyApproved <==> a.expires.Some?
  }

  /** The regular expressions of the columns, decided by the characterisations proved beside them. */
  predicate LegalScope(s: Scope) {
    && CanonicalReference(s.input.activityKey, 128) && CanonicalReference(s.input.serviceName, 128)
    && 1 <= |s.input.purpose| <= 2048
    && 1 <= |s.input.classifications| <= 16 && |s.input.recipients| <= 32
    && CanonicalDigest(s.input.evidence)
    && LegalSubject(s.requester) && LegalSubject(s.input.owner)
  }

  predicate LegalActivity(a: Activity) {
    LegalScope(a.scope) && a.version > 0 && |a.conditions| <= 4096 && ExpiryMatchesStatus(a)
  }

  predicate LegalEvidence(e: Evidence) {
    && e.version > 0 && e.decision != Draft && LegalSubject(e.actor)
    && |e.reason| <= 4096 && CanonicalDigest(e.digest)
  }

  predicate KeyTaken(activities: map<ActivityId, Activity>, key: string) {
    exists id <- activities.Keys :: activities[id].scope.input.activityKey == key
  }

  // ----- Statements -----

  function InsertActivity(t: Tables, id: ActivityId, scope: Scope): Result<Tables, Refusal> {
    var row := Activity(scope, Draft, 1, "", None);
    if !LegalActivity(row) then Failure(CheckViolation)
    else if id in t.activities || KeyTaken(t.activities, scope.input.activityKey) then Failure(UniqueViolation)
    else Success(t.(activities := t.activities[id := row]))
  }

  /** The trigger of 0004: scope fields are immutable and the version advances by exactly one. */
  predicate TriggerAccepts(before: Activity, after: Activity) {
    after.scope == before.scope && after.version == before.version + 1
  }

  function UpdateActivity(t: Tables, id: ActivityId, row: Activity): Result<Tables, Refusal>
    requires id in t.activities
  {
    if row.version > MAX_VERSION then Failure(OutOfRange)
    else if !TriggerAccepts(t.activities[id], row) then Failure(TriggerRaised)
    else if !LegalActivity(row) then Failure(CheckViolation)
    else Success(t.(activities := t.activities[id := row]))
  }

  function InsertEvidence(t: Tables, e: Evidence): Result<Tables, Refusal> {
    if !LegalEvidence(e) then Failure(CheckViolation)
    else if e.activity !in t.activities then Failure(ForeignKeyViolation)
    else Success(t.(evidence := t.evidence + [e]))
  }

  // ----- Transactions -----

  function Create(t: Tables, id: ActivityId, input: ActivityInput, requester: string): Result<Tables, Refusal> {
    if !CanonicalSubject(requester) then Failure(BadSubject) else InsertActivity(t, id, Scope(input, requester))
  }

  /** transitionPrivacyActivity. */
  function Transition(t: Tables, id: ActivityId, status: ActivityStatus, actor: string, reason: string, digest: string,
                      conditions: string, expires: Option<Time>): Result<Tables, Refusal>
    requires id in t.activities
  {
    var a := t.activities[id];
    var row := a.(status := status, version := a.version + 1, conditions := conditions, expires := expires);
    var updated :- UpdateActivity(t, id, row);
    InsertEvidence(updated, Evidence(id, updated.activities[id].version, status, actor, reason, digest, expires))
  }

  /** AttestPrivacyActivity and SubmitPrivacyDPOReview: the owner moves the activity from `from` to `status`. */
  function OwnerStep(t: Tables, id: ActivityId, actor: string, input: WorkflowInput, from: ActivityStatus,
                     status: ActivityStatus): Result<Tables, Refusal>
  {
    if !CanonicalSubject(actor) then Failure(BadSubject)
    else if id !in t.activities then Failure(NoSuchActivity)
    else if t.activities[id].status != from || t.activities[id].version != input.expectedVersion then
      Failure(WrongVersion)
    else if actor != t.activities[id].scope.input.owner then Failure(OwnerOnly)
    else Transition(t, id, status, actor, input.reason, input.evidence, "", None)
  }

  function Attest(t: Tables, id: ActivityId, actor: string, input: WorkflowInput): Result<Tables, Refusal> {
    OwnerStep(t, id, actor, input, Draft, OwnerAttested)
  }

  function SubmitReview(t: Tables, id: ActivityId, actor: string, input: WorkflowInput): Result<Tables, Refusal> {
    OwnerStep(t, id, actor, input, OwnerAttested, DPOReview)
  }

  function Decide(t: Tables, id: ActivityId, actor: string, input: DecisionInput): Result<Tables, Refusal> {
    if !CanonicalSubject(actor) then Failure(BadSubject)
    else if id !in t.activities then Failure(NoSuchActivity)
    else if t.activities[id].status != DPOReview || t.activities[id].version != input.expectedVersion then
      Failure(WrongVersion)
    else if actor == t.activities[id].scope.requester || actor == t.activities[id].scope.input.owner then
      Failure(MakerChecker)
    else if input.decision.None? then Failure(UnknownStatus)
    else
      Transition(t, id, input.decision.value, actor, input.reason, input.evidence,
                 if input.decision.value == ConditionallyApproved then input.reason else "", input.expires)
  }

  function After(t: Tables, outcome: Result<Tables, Refusal>): Tables {
    if outcome.Success? then outcome.value else t
  }
}
