/**
 What each transaction of the store does to the three tables, as a function of the tables it starts
 from. Every transaction is all or nothing: Failure means that the tables stay as they were.
 */
module OnboardingTransactions {
  import opened Wrappers
  import Text
  import opened OnboardingSchema

  const LEASE: Time := 60 * SECOND
  const LEASE_EXPIRED_ERROR := "operation lease expired before a durable result was recorded"
  const LEASE_EXPIRED_REASON := "external operation lease expired; manual reconciliation required"

  // ----- What an operation moves its request to -----

  function ClaimableStatus(kind: OperationKind): RequestStatus {
    if kind.Provision? then Approved else Invited
  }

  function RunningStatus(kind: OperationKind): RequestStatus {
    if kind.Provision? then Provisioning else Activating
  }

  function ResultStatus(kind: OperationKind, success: bool): RequestStatus {
    match kind
    case Provision => if success then Invited else ProvisioningAmbiguous
    case Activate => if success then Active else ActivationAmbiguous
  }

  function ResultWord(kind: OperationKind, success: bool): DecisionWord {
    match kind
    case Provision => if success then InvitedWord else ProvisioningAmbiguousWord
    case Activate => if success then ActiveWord else ActivationAmbiguousWord
  }

  function ResultOutcome(success: bool): OperationStatus {
    if success then Succeeded else Ambiguous
  }

  // ----- Transactions -----

  /** The maker/checker rule. */
  function CanApprove(requester: string, approver: string): Option<Refusal> {
    if Text.IsBlank(requester) || Text.IsBlank(approver) then Some(SubjectRequired)
    else if requester == approver then Some(MakerChecker)
    else None
  }

  function Create(t: Tables, id: RequestId, identity: Identity, now: Time): Result<Tables, Refusal> {
    InsertRequest(t, id, identity, now)
  }

  function Decide(t: Tables, words: set<DecisionWord>, id: RequestId, approver: string, choice: string,
                  reason: string, now: Time): Result<Tables, Refusal>
  {
    if id !in t.requests then Failure(NoSuchRequest) else
    var request := t.requests[id];
    if request.status != Submitted then Failure(WrongStatus(request.status)) else
    var denied := CanApprove(request.identity.requester, approver);
    if denied.Some? then Failure(denied.value)
    else if choice != "approve" && choice != "reject" then Failure(UnknownDecision) else
    var status, word := if choice == "approve" then Approved else Rejected,
                        if choice == "approve" then ApprovedWord else RejectedWord;
    var updated :- UpdateRequest(t, id, request.(status := status), now);
    InsertDecision(updated, words, Decision(id, word, approver, reason))
  }

  /** The keycloak_user_id column of a new operation; a provision operation leaves it at its default. */
  function ClaimUser(kind: OperationKind, keycloakUser: string): string {
    if kind.Provision? then "" else keycloakUser
  }

  /** Claims an operation: one statement that moves the request and inserts the running operation. */
  function Claim(t: Tables, key: OperationKey, keycloakUser: string, now: Time): Result<Tables, Refusal> {
    if key.kind.Activate? && keycloakUser == "" then Failure(KeycloakUserRequired)
    else if key.request !in t.requests || t.requests[key.request].status != ClaimableStatus(key.kind) then
      Failure(NotClaimable)
    else
      var updated :- UpdateRequest(t, key.request, t.requests[key.request].(status := RunningStatus(key.kind)), now);
      InsertOperation(updated, key, Operation(Running, ClaimUser(key.kind, keycloakUser), now + LEASE, "", now))
  }

  /** Records the outcome of an external call. */
  function Record(t: Tables, words: set<DecisionWord>, key: OperationKey, success: bool, actor: string,
                  reason: string, now: Time): Result<Tables, Refusal>
  {
    if key !in t.operations || t.operations[key].status != Running then Failure(OperationNotRunning) else
    var row := t.operations[key].(status := ResultOutcome(success), lastError := reason, lease := now);
    var finished :- UpdateOperation(t, key, row, now);
    if key.request !in finished.requests || finished.requests[key.request].status != RunningStatus(key.kind) then
      Failure(StatusMoved)
    else
      var moved := finished.requests[key.request].(status := ResultStatus(key.kind, success));
      var updated :- UpdateRequest(finished, key.request, moved, now);
      InsertDecision(updated, words, Decision(key.request, ResultWord(key.kind, success), actor, reason))
  }

  /** The request update of the reaper: its guard names both running statuses, and matching no row is no error. */
  function ReapRequest(t: Tables, key: OperationKey, now: Time): Result<Tables, Refusal> {
    if key.request in t.requests && t.requests[key.request].status in {Provisioning, Activating} then
      UpdateRequest(t, key.request, t.requests[key.request].(status := ResultStatus(key.kind, false)), now)
    else
      Success(t)
  }

  /** The three writes of the reaper for one selected row. */
  function ReapRow(t: Tables, words: set<DecisionWord>, key: OperationKey, actor: string, now: Time)
    : (r: Result<Tables, Refusal>)
    requires key in t.operations
    ensures r.Success? ==> r.value.operations.Keys == t.operations.Keys
  {
    var row := t.operations[key].(status := Ambiguous, lastError := LEASE_EXPIRED_ERROR, lease := now);
    var finished :- UpdateOperation(t, key, row, now);
    var updated :- ReapRequest(finished, key, now);
    InsertDecision(updated, words, Decision(key.request, ResultWord(key.kind, false), actor, LEASE_EXPIRED_REASON))
  }

  predicate Expired(t: Tables, key: OperationKey, now: Time) {
    key in t.operations && t.operations[key].status == Running && t.operations[key].lease < now
  }

  /**
   A possible answer of the reaper's query: FOR UPDATE SKIP LOCKED may leave out any expired row, and
   there is no ORDER BY.
   */
  predicate Selectable(t: Tables, batch: seq<OperationKey>, now: Time) {
    && (forall key <- batch :: Expired(t, key, now))
    && (forall i, j :: 0 <= i < j < |batch| ==> batch[i] != batch[j])
  }

  /** The reaper's loop over the rows of one transaction. */
  function Reap(t: Tables, words: set<DecisionWord>, batch: seq<OperationKey>, actor: string, now: Time)
    : Result<Tables, Refusal>
    requires forall key <- batch :: key in t.operations
    decreases |batch|
  {
    if batch == [] then Success(t) else
    var next :- ReapRow(t, words, batch[0], actor, now);
    Reap(next, words, batch[1..], actor, now)
  }

  /** The tables after a transaction: the new ones if it committed, the old ones otherwise. */
  function After(t: Tables, outcome: Result<Tables, Refusal>): Tables {
    if outcome.Success? then outcome.value else t
  }
}
