/**
 The store: three tables that its transactions update in place, statement by statement. A transaction
 that meets a refused statement rolls back to the tables it started from.
 */
module OnboardingStore {
  import opened Wrappers
  import opened OnboardingSchema
  import opened OnboardingTransactions
  import opened OnboardingInvariant
  import opened OnboardingCommits
  import Reaper

  /** A transaction ended as its specification says: committed with the new tables, or rolled back. */
  ghost predicate Settled(spec: Result<Tables, Refusal>, before: Tables, after: Tables, outcome: Result<(), Refusal>) {
    match spec
    case Success(t) => outcome.Success? && after == t
    case Failure(e) => outcome == Failure(e) && after == before
  }

  class Store {
    const words: set<DecisionWord>
    var requests: map<RequestId, Request>
    var operations: map<OperationKey, Operation>
    var decisions: seq<Decision>

    function Snapshot(): Tables
      reads this
    {
      Tables(requests, operations, decisions)
    }

    constructor (words: set<DecisionWord>)
      ensures this.words == words && Snapshot() == EMPTY
      ensures Inv(Snapshot(), words)
    {
      this.words := words;
      requests, operations, decisions := map[], map[], [];
    }

    // ----- Statements -----

    method UpdateRequestRow(id: RequestId, row: Request, now: Time) returns (outcome: Result<(), Refusal>)
      requires id in requests
      modifies this`requests
      ensures Settled(UpdateRequest(old(Snapshot()), id, row, now), old(Snapshot()), Snapshot(), outcome)
    {
      if row.identity != requests[id].identity {
        return Failure(ImmutableField);
      }
      if Twin(requests, id, row) {
        return Failure(UniqueViolation);
      }
      requests := requests[id := row.(updatedAt := now)];
      return Success(());
    }

    method InsertOperationRow(key: OperationKey, row: Operation) returns (outcome: Result<(), Refusal>)
      modifies this`operations
      ensures Settled(InsertOperation(old(Snapshot()), key, row), old(Snapshot()), Snapshot(), outcome)
    {
      if !LegalOperation(row) {
        return Failure(CheckViolation);
      }
      if key in operations {
        return Failure(UniqueViolation);
      }
      if key.request !in requests {
        return Failure(ForeignKeyViolation);
      }
      operations := operations[key := row];
      return Success(());
    }

    method UpdateOperationRow(key: OperationKey, row: Operation, now: Time) returns (outcome: Result<(), Refusal>)
      requires key in operations
      modifies this`operations
      ensures Settled(UpdateOperation(old(Snapshot()), key, row, now), old(Snapshot()), Snapshot(), outcome)
    {
      if row.keycloakUser != operations[key].keycloakUser {
        return Failure(ImmutableField);
      }
      if !LegalOperation(row) {
        return Failure(CheckViolation);
      }
      operations := operations[key := row.(updatedAt := now)];
      return Success(());
    }

    method InsertDecisionRow(d: Decision) returns (outcome: Result<(), Refusal>)
      modifies this`decisions
      ensures Settled(InsertDecision(old(Snapshot()), words, d), old(Snapshot()), Snapshot(), outcome)
    {
      if !LegalDecision(d, words) {
        return Failure(CheckViolation);
      }
      if AlreadyDecided(decisions, d) {
        return Failure(UniqueViolation);
      }
      if d.request !in requests {
        return Failure(ForeignKeyViolation);
      }
      decisions := decisions + [d];
      return Success(());
    }

    method Rollback(saved: Tables)
      modifies this
      ensures Snapshot() == saved
    {
      requests, operations, decisions := saved.requests, saved.operations, saved.decisions;
    }

    // ----- Transactions -----

    method Create(id: RequestId, identity: Identity, now: Time) returns (outcome: Result<(), Refusal>)
      modifies this
      ensures Settled(OnboardingTransactions.Create(old(Snapshot()), id, identity, now),
                      old(Snapshot()), Snapshot(), outcome)
      ensures Inv(old(Snapshot()), words) ==>
                Inv(Snapshot(), words) && (outcome.Success? <==> CreateAllowed(old(Snapshot()), id, identity))
    {
      ghost var before := Snapshot();
      if Inv(before, words) {
        CreateCommits(before, words, id, identity, now);
      }
      var row := Request(identity, Submitted, now);
      if !LegalIdentity(identity) {
        return Failure(CheckViolation);
      }
      if id in requests || Twin(requests, id, row) {
        return Failure(UniqueViolation);
      }
      requests := requests[id := row];
      return Success(());
    }

    method Decide(id: RequestId, approver: string, choice: string, reason: string, now: Time)
      returns (outcome: Result<(), Refusal>)
      modifies this
      ensures Settled(OnboardingTransactions.Decide(old(Snapshot()), words, id, approver, choice, reason, now),
                      old(Snapshot()), Snapshot(), outcome)
      ensures Inv(old(Snapshot()), words) ==>
                && Inv(Snapshot(), words)
                && (outcome.Success? <==> DecideAllowed(old(Snapshot()), words, id, approver, choice, reason))
    {
      ghost var before := Snapshot();
      if Inv(before, words) {
        DecideCommits(before, words, id, approver, choice, reason, now);
      }
      var saved := Snapshot();
      if id !in requests {
        return Failure(NoSuchRequest);
      }
      var request := requests[id];
      if request.status != Submitted {
        return Failure(WrongStatus(request.status));
      }
      var denied := CanApprove(request.identity.requester, approver);
      if denied.Some? {
        return Failure(denied.value);
      }
      var status, word := Rejected, RejectedWord;
      if choice == "approve" {
        status, word := Approved, ApprovedWord;
      } else if choice != "reject" {
        return Failure(UnknownDecision);
      }
      outcome := UpdateRequestRow(id, request.(status := status), now);
      if outcome.Success? {
        outcome := InsertDecisionRow(Decision(id, word, approver, reason));
      }
      if outcome.Failure? {
        Rollback(saved);
      }
    }

    /** ClaimProvisioning and ClaimActivation: one statement each, which the database undoes as a whole. */
    method Claim(key: OperationKey, keycloakUser: string, now: Time) returns (outcome: Result<(), Refusal>)
      modifies this
      ensures Settled(OnboardingTransactions.Claim(old(Snapshot()), key, keycloakUser, now),
                      old(Snapshot()), Snapshot(), outcome)
      ensures Inv(old(Snapshot()), words) ==>
                && Inv(Snapshot(), words)
                && (outcome.Success? <==> ClaimAllowed(old(Snapshot()), key, keycloakUser))
    {
      ghost var before := Snapshot();
      if Inv(before, words) {
        ClaimCommits(before, words, key, keycloakUser, now);
      }
      var saved := Snapshot();
      if key.kind.Activate? && keycloakUser == "" {
        return Failure(KeycloakUserRequired);
      }
      if key.request !in requests || requests[key.request].status != ClaimableStatus(key.kind) {
        return Failure(NotClaimable);
      }
      outcome := UpdateRequestRow(key.request, requests[key.request].(status := RunningStatus(key.kind)), now);
      if outcome.Success? {
        outcome := InsertOperationRow(key, Operation(Running, ClaimUser(key.kind, keycloakUser), now + LEASE, "", now));
      }
      if outcome.Failure? {
        Rollback(saved);
      }
    }

    method RecordProvisioningResult(id: RequestId, actor: string, success: bool, reason: string, now: Time)
      returns (outcome: Result<(), Refusal>)
      modifies this
      ensures Recorded(old(Snapshot()), OperationKey(id, Provision), success, actor, reason, now, Snapshot(), outcome)
    {
      if success {
        outcome := RecordExternalResult(
          id, actor, Provision, Provisioning, Invited, InvitedWord, reason, Succeeded, now);
      } else {
        outcome := RecordExternalResult(
          id, actor, Provision, Provisioning, ProvisioningAmbiguous, ProvisioningAmbiguousWord, reason, Ambiguous, now);
      }
    }

    method RecordActivationResult(id: RequestId, actor: string, success: bool, reason: string, now: Time)
      returns (outcome: Result<(), Refusal>)
      modifies this
      ensures Recorded(old(Snapshot()), OperationKey(id, Activate), success, actor, reason, now, Snapshot(), outcome)
    {
      if success {
        outcome := RecordExternalResult(
          id, actor, Activate, Activating, Active, ActiveWord, reason, Succeeded, now);
      } else {
        outcome := RecordExternalResult(
          id, actor, Activate, Activating, ActivationAmbiguous, ActivationAmbiguousWord, reason, Ambiguous, now);
      }
    }

    /** A result was recorded as specified, and from a coupled store exactly when it is allowed. */
    ghost predicate Recorded(before: Tables, key: OperationKey, success: bool, actor: string, reason: string, now: Time,
                             after: Tables, outcome: Result<(), Refusal>)
    {
      && Settled(Record(before, words, key, success, actor, reason, now), before, after, outcome)
      && (Inv(before, words) ==>
            && Inv(after, words)
            && (outcome.Success? <==> RecordAllowed(before, words, key, success, actor, reason)))
    }

    method RecordExternalResult(id: RequestId, actor: string, kind: OperationKind, expected: RequestStatus,
                                next: RequestStatus, word: DecisionWord, reason: string, result: OperationStatus,
                                now: Time)
      returns (outcome: Result<(), Refusal>)
      requires result in {Succeeded, Ambiguous} && expected == RunningStatus(kind)
      requires next == ResultStatus(kind, result == Succeeded) && word == ResultWord(kind, result == Succeeded)
      modifies this
      ensures Recorded(old(Snapshot()), OperationKey(id, kind), result == Succeeded, actor, reason, now,
                       Snapshot(), outcome)
    {
      var key := OperationKey(id, kind);
      ghost var before := Snapshot();
      if Inv(before, words) {
        RecordCommits(before, words, key, result == Succeeded, actor, reason, now);
      }
      var saved := Snapshot();
      if key !in operations || operations[key].status != Running {
        return Failure(OperationNotRunning);
      }
      var row := operations[key].(status := result, lastError := reason, lease := now);
      outcome := UpdateOperationRow(key, row, now);
      if outcome.Success? && (id !in requests || requests[id].status != expected) {
        outcome := Failure(StatusMoved);
      }
      if outcome.Success? {
        outcome := UpdateRequestRow(id, requests[id].(status := next), now);
      }
      if outcome.Success? {
        outcome := InsertDecisionRow(Decision(id, word, actor, reason));
      }
      if outcome.Failure? {
        Rollback(saved);
      }
    }

    /** The three writes of the reaper's loop body; the caller rolls back if one is refused. */
    method ReapRowInPlace(key: OperationKey, actor: string, now: Time) returns (outcome: Result<(), Refusal>)
      requires key in operations
      modifies this
      ensures match ReapRow(old(Snapshot()), words, key, actor, now)
              case Success(t) => outcome.Success? && Snapshot() == t
              case Failure(e) => outcome == Failure(e)
    {
      var target, word := ProvisioningAmbiguous, ProvisioningAmbiguousWord;
      if key.kind == Activate {
        target, word := ActivationAmbiguous, ActivationAmbiguousWord;
      }
      var row := operations[key].(status := Ambiguous, lastError := LEASE_EXPIRED_ERROR, lease := now);
      outcome := UpdateOperationRow(key, row, now);
      if outcome.Success? && key.request in requests && requests[key.request].status in {Provisioning, Activating} {
        outcome := UpdateRequestRow(key.request, requests[key.request].(status := target), now);
      }
      if outcome.Success? {
        outcome := InsertDecisionRow(Decision(key.request, word, actor, LEASE_EXPIRED_REASON));
      }
    }

    /** The reaper's loop; the caller rolls back if a write is refused. */
    method ReapRowsInPlace(rows: seq<OperationKey>, actor: string, now: Time) returns (outcome: Result<(), Refusal>)
      requires forall key <- rows :: key in operations
      modifies this
      ensures match Reap(old(Snapshot()), words, rows, actor, now)
              case Success(t) => outcome.Success? && Snapshot() == t
              case Failure(e) => outcome == Failure(e)
    {
      hide ReapRow;
      var i := 0;
      assert rows[i..] == rows;
      while i < |rows|
        invariant 0 <= i <= |rows|
        invariant forall key <- rows :: key in operations
        invariant Reap(Snapshot(), words, rows[i..], actor, now) == Reap(old(Snapshot()), words, rows, actor, now)
      {
        assert rows[i..][0] == rows[i] && rows[i..][1..] == rows[i + 1..];
        outcome := ReapRowInPlace(rows[i], actor, now);
        if outcome.Failure? {
          return;
        }
        i := i + 1;
      }
      outcome := Success(());
    }

    /** `rows` is what the query of the transaction returned. */
    method ReapExpiredExternalOperations(rows: seq<OperationKey>, actor: string, now: Time)
      returns (outcome: Result<(), Refusal>)
      requires Selectable(Snapshot(), rows, now)
      modifies this
      ensures Settled(Reap(old(Snapshot()), words, rows, actor, now), old(Snapshot()), Snapshot(), outcome)
      ensures Inv(old(Snapshot()), words) ==>
                && Inv(Snapshot(), words)
                && (outcome.Success? <==> Reaper.BatchReapable(old(Snapshot()), words, rows, actor))
                && (outcome.Success? ==> Snapshot() == Reaper.Reaped(old(Snapshot()), rows, actor, now))
    {
      hide Inv, Reaper.Reaped, Reaper.BatchReapable;
      ghost var before := Snapshot();
      if Inv(before, words) {
        Reaper.ReapCommits(before, words, rows, actor, now);
      }
      var saved := Snapshot();
      outcome := ReapRowsInPlace(rows, actor, now);
      if outcome.Failure? {
        Rollback(saved);
      }
    }
  }
}
