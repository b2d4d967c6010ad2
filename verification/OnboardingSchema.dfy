/**
 The three onboarding tables with every guard the migrations put on them, and the four statements
 the service issues against them. A statement that a guard refuses changes nothing.

 An operation row is addressed by its (request, kind) pair, which UNIQUE (request_id, operation_kind)
 makes a key; the surrogate uuid columns are natural numbers where a row needs a name of its own.
 */
module OnboardingSchema {
  import opened Wrappers

  type RequestId = nat

  /** A point in time, in nanoseconds. */
  type Time = int

  const SECOND: Time := 1_000_000_000

  datatype RequestStatus =
    | Submitted | Approved | Provisioning | Rejected | Invited | ProvisioningFailed | ProvisioningAmbiguous
    | Activating | ActivationFailed | ActivationAmbiguous | Active

  datatype OperationKind = Provision | Activate

  datatype OperationStatus = Running | Succeeded | Failed | Ambiguous

  /** The texts that occur in the decision column or in its CHECK. */
  datatype DecisionWord =
    | ApprovedWord | RejectedWord | InvitedWord | ProvisioningFailedWord | ActiveWord | ActivationFailedWord
    | ProvisionAmbiguousWord | ProvisioningAmbiguousWord | ActivationAmbiguousWord

  /** The CHECK on the decision column as the migrations leave it. */
  const SHIPPED_WORDS: set<DecisionWord> := {
    ApprovedWord, RejectedWord, InvitedWord, ProvisioningFailedWord, ActiveWord, ActivationFailedWord,
    ProvisionAmbiguousWord, ActivationAmbiguousWord
  }

  /** The same CHECK with the word the code writes for a provisioning that may or may not have happened. */
  const INTENDED_WORDS: set<DecisionWord> := SHIPPED_WORDS + {ProvisioningAmbiguousWord}

  /** The columns of a request that the trigger makes immutable. */
  datatype Identity = Identity(
    organization: string,
    email: string,
    firstName: string,
    lastName: string,
    roles: seq<string>,
    requester: string)

  datatype Request = Request(identity: Identity, status: RequestStatus, updatedAt: Time)

  datatype OperationKey = OperationKey(request: RequestId, kind: OperationKind)

  datatype Operation = Operation(
    status: OperationStatus,
    keycloakUser: string,
    lease: Time,
    lastError: string,
    updatedAt: Time)

  datatype Decision = Decision(request: RequestId, word: DecisionWord, actor: string, reason: string)

  datatype Tables = Tables(
    requests: map<RequestId, Request>,
    operations: map<OperationKey, Operation>,
    decisions: seq<Decision>)

  const EMPTY: Tables := Tables(map[], map[], [])

  /** Why a statement, or the transaction around it, was refused. */
  datatype Refusal =
    | CheckViolation | UniqueViolation | ForeignKeyViolation | ImmutableField
    | NoSuchRequest | WrongStatus(found: RequestStatus) | SubjectRequired | MakerChecker | UnknownDecision
    | NotClaimable | KeycloakUserRequired | OperationNotRunning | StatusMoved

  // ----- CHECK constraints -----

  predicate LegalIdentity(i: Identity) {
    && 1 <= |i.organization| <= 255
    && 3 <= |i.email| <= 320
    && 1 <= |i.firstName| <= 255
    && 1 <= |i.lastName| <= 255
    && |i.roles| > 0
    && 1 <= |i.requester| <= 512
  }

  predicate LegalOperation(o: Operation) {
    |o.keycloakUser| <= 512 && |o.lastError| <= 2048
  }

  predicate LegalActor(actor: string) {
    1 <= |actor| <= 512
  }

  predicate LegalReason(reason: string) {
    |reason| <= 1024
  }

  predicate LegalDecision(d: Decision, words: set<DecisionWord>) {
    d.word in words && LegalActor(d.actor) && LegalReason(d.reason)
  }

  // ----- UNIQUE constraints and partial unique indexes -----

  predicate SamePerson(a: Identity, b: Identity) {
    a.organization == b.organization && a.email == b.email
  }

  /** Another request of the same person already has the status of `row`. */
  predicate Twin(requests: map<RequestId, Request>, id: RequestId, row: Request) {
    exists other <- requests.Keys ::
      other != id && SamePerson(requests[other].identity, row.identity) && requests[other].status == row.status
  }

  predicate ApprovalOutcome(word: DecisionWord) {
    word in {ApprovedWord, RejectedWord}
  }

  predicate ActivationOutcome(word: DecisionWord) {
    word in {ActiveWord, ActivationFailedWord}
  }

  /** One of the two partial unique indexes allows only one of these rows. */
  predicate SameOutcome(a: Decision, b: Decision) {
    && a.request == b.request
    && (|| (ApprovalOutcome(a.word) && ApprovalOutcome(b.word))
        || (ActivationOutcome(a.word) && ActivationOutcome(b.word)))
  }

  predicate AlreadyDecided(decisions: seq<Decision>, d: Decision) {
    exists i :: 0 <= i < |decisions| && SameOutcome(decisions[i], d)
  }

  // ----- The state the guards protect -----

  ghost predicate UniquePersonStatus(requests: map<RequestId, Request>) {
    forall id <- requests.Keys :: !Twin(requests, id, requests[id])
  }

  ghost predicate OneOutcome(decisions: seq<Decision>) {
    forall i, j :: 0 <= i < j < |decisions| ==> !SameOutcome(decisions[i], decisions[j])
  }

  /** Every constraint of the three tables at once. */
  ghost predicate Constraints(t: Tables, words: set<DecisionWord>) {
    && (forall id <- t.requests.Keys :: LegalIdentity(t.requests[id].identity))
    && UniquePersonStatus(t.requests)
    && (forall key <- t.operations.Keys :: key.request in t.requests && LegalOperation(t.operations[key]))
    && (forall d <- t.decisions :: d.request in t.requests && LegalDecision(d, words))
    && OneOutcome(t.decisions)
  }

  // ----- Statements -----

  /** INSERT INTO onboarding_requests. */
  function InsertRequest(t: Tables, id: RequestId, identity: Identity, now: Time): Result<Tables, Refusal> {
    var row := Request(identity, Submitted, now);
    if !LegalIdentity(identity) then Failure(CheckViolation)
    else if id in t.requests || Twin(t.requests, id, row) then Failure(UniqueViolation)
    else Success(t.(requests := t.requests[id := row]))
  }

  /** UPDATE of one row of onboarding_requests, through the immutability trigger. */
  function UpdateRequest(t: Tables, id: RequestId, row: Request, now: Time): Result<Tables, Refusal>
    requires id in t.requests
  {
    if row.identity != t.requests[id].identity then Failure(ImmutableField)
    else if Twin(t.requests, id, row) then Failure(UniqueViolation)
    else Success(t.(requests := t.requests[id := row.(updatedAt := now)]))
  }

  /** INSERT INTO onboarding_external_operations. */
  function InsertOperation(t: Tables, key: OperationKey, row: Operation): Result<Tables, Refusal> {
    if !LegalOperation(row) then Failure(CheckViolation)
    else if key in t.operations then Failure(UniqueViolation)
    else if key.request !in t.requests then Failure(ForeignKeyViolation)
    else Success(t.(operations := t.operations[key := row]))
  }

  /** UPDATE of one row of onboarding_external_operations, through the identity trigger. */
  function UpdateOperation(t: Tables, key: OperationKey, row: Operation, now: Time): Result<Tables, Refusal>
    requires key in t.operations
  {
    if row.keycloakUser != t.operations[key].keycloakUser then Failure(ImmutableField)
    else if !LegalOperation(row) then Failure(CheckViolation)
    else Success(t.(operations := t.operations[key := row.(updatedAt := now)]))
  }

  /** INSERT INTO onboarding_decisions. */
  function InsertDecision(t: Tables, words: set<DecisionWord>, d: Decision): Result<Tables, Refusal> {
    if !LegalDecision(d, words) then Failure(CheckViolation)
    else if AlreadyDecided(t.decisions, d) then Failure(UniqueViolation)
    else if d.request !in t.requests then Failure(ForeignKeyViolation)
    else Success(t.(decisions := t.decisions + [d]))
  }

  // ----- The guards in plain words -----

  /** UNIQUE (organization_id, email, status): no two requests agree in all three columns. */
  lemma UniqueMeans(requests: map<RequestId, Request>)
    ensures UniquePersonStatus(requests)
            <==> forall a, b | a in requests && b in requests && a != b ::
                   !(&& requests[a].identity.organization == requests[b].identity.organization
                     && requests[a].identity.email == requests[b].identity.email
                     && requests[a].status == requests[b].status)
  {
    if UniquePersonStatus(requests) {
      forall a, b | a in requests && b in requests && a != b
        ensures !(&& requests[a].identity.organization == requests[b].identity.organization
                  && requests[a].identity.email == requests[b].identity.email
                  && requests[a].status == requests[b].status)
      {
        assert a in requests.Keys && !Twin(requests, a, requests[a]) && b in requests.Keys;
      }
    }
  }

  /** The two partial unique indexes: one approval or rejection, and one activation outcome, for each request. */
  lemma OneOutcomeMeans(decisions: seq<Decision>)
    ensures OneOutcome(decisions)
            <==> forall i, j | 0 <= i < j < |decisions| && decisions[i].request == decisions[j].request ::
                   && !(decisions[i].word in {ApprovedWord, RejectedWord}
                        && decisions[j].word in {ApprovedWord, RejectedWord})
                   && !(decisions[i].word in {ActiveWord, ActivationFailedWord}
                        && decisions[j].word in {ActiveWord, ActivationFailedWord})
  {
    if OneOutcome(decisions) {
      forall i, j | 0 <= i < j < |decisions| && decisions[i].request == decisions[j].request
        ensures !(decisions[i].word in {ApprovedWord, RejectedWord}
                  && decisions[j].word in {ApprovedWord, RejectedWord})
        ensures !(decisions[i].word in {ActiveWord, ActivationFailedWord}
                  && decisions[j].word in {ActiveWord, ActivationFailedWord})
      {
        assert !SameOutcome(decisions[i], decisions[j]);
      }
    }
  }

  // ----- The row guards are exact -----

  /** With every constraint in force, an update goes through if and only if every constraint holds after it. */
  lemma UpdateRequestExact(t: Tables, words: set<DecisionWord>, id: RequestId, row: Request, now: Time)
    requires Constraints(t, words)
    requires id in t.requests && row.identity == t.requests[id].identity
    ensures UpdateRequest(t, id, row, now).Success?
            <==> Constraints(t.(requests := t.requests[id := row.(updatedAt := now)]), words)
  {
    var after := t.requests[id := row.(updatedAt := now)];
    if Twin(t.requests, id, row) {
      var other :| other in t.requests.Keys && other != id && SamePerson(t.requests[other].identity, row.identity)
                   && t.requests[other].status == row.status;
      assert other in after.Keys && Twin(after, id, after[id]);
    } else {
      forall x | x in after.Keys
        ensures !Twin(after, x, after[x])
      {
        if x != id {
          assert !Twin(t.requests, x, t.requests[x]);
        }
      }
    }
  }

  /** The same for a new request. */
  lemma InsertRequestExact(t: Tables, words: set<DecisionWord>, id: RequestId, identity: Identity, now: Time)
    requires Constraints(t, words) && id !in t.requests
    ensures InsertRequest(t, id, identity, now).Success?
            <==> Constraints(t.(requests := t.requests[id := Request(identity, Submitted, now)]), words)
  {
    var row := Request(identity, Submitted, now);
    var after := t.requests[id := row];
    if Twin(t.requests, id, row) {
      var other :| other in t.requests.Keys && other != id && SamePerson(t.requests[other].identity, row.identity)
                   && t.requests[other].status == row.status;
      assert other in after.Keys && Twin(after, id, after[id]);
    } else {
      forall x | x in after.Keys
        ensures !Twin(after, x, after[x])
      {
        if x != id {
          assert !Twin(t.requests, x, t.requests[x]);
        }
      }
      if Constraints(t.(requests := after), words) {
        assert after[id].identity == identity;
      }
    }
  }

  /** The same for a new decision row. */
  lemma InsertDecisionExact(t: Tables, words: set<DecisionWord>, d: Decision)
    requires Constraints(t, words)
    ensures InsertDecision(t, words, d).Success? <==> Constraints(t.(decisions := t.decisions + [d]), words)
  {
    var after := t.decisions + [d];
    assert after[|t.decisions|] == d && d in after;
    if AlreadyDecided(t.decisions, d) {
      var i :| 0 <= i < |t.decisions| && SameOutcome(t.decisions[i], d);
      assert SameOutcome(after[i], after[|t.decisions|]);
    }
  }
}
