/**
 When each single-request transaction commits, exactly, and that a commit is one automaton step.
 The conditions name the guards that can fire. The guards they do not name (the unique operation key,
 the two partial unique indexes, the second row count of a recorded result, the foreign keys and the
 immutability triggers) never fire from a state that the service can be in.
 */
module OnboardingCommits {
  import opened Wrappers
  import opened OnboardingSchema
  import opened OnboardingTransactions
  import opened OnboardingInvariant
  import opened DecisionLog

  /** Another request of the same person is already in status `s`. */
  predicate Blocked(t: Tables, id: RequestId, s: RequestStatus)
    requires id in t.requests
  {
    Twin(t.requests, id, t.requests[id].(status := s))
  }

  /** The rows written for `id` so far leave room for a decision with this word. */
  lemma NoOutcomeYet(t: Tables, words: set<DecisionWord>, d: Decision)
    requires Inv(t, words) && d.request in t.requests
    requires t.requests[d.request].status in {Submitted, Provisioning, Activating}
    requires ApprovalOutcome(d.word) ==> t.requests[d.request].status == Submitted
    ensures !AlreadyDecided(t.decisions, d)
  {
    InvCoupled(t, words, d.request);
    hide Inv, Words;
    if AlreadyDecided(t.decisions, d) {
      var i :| 0 <= i < |t.decisions| && SameOutcome(t.decisions[i], d);
      WordsInclude(t.decisions, i);
    }
  }

  /** A status update, alone: every constraint survives it. */
  lemma UpdatedConstraints(t: Tables, words: set<DecisionWord>, id: RequestId, s: RequestStatus, now: Time)
    requires Constraints(t, words) && id in t.requests && !Blocked(t, id, s)
    ensures UpdateRequest(t, id, t.requests[id].(status := s), now).Success?
    ensures Constraints(UpdateRequest(t, id, t.requests[id].(status := s), now).value, words)
  {
    hide Constraints;
    UpdateRequestExact(t, words, id, t.requests[id].(status := s), now);
  }

  /** A legal operation row, alone: every constraint survives it. */
  lemma OperationConstraints(t: Tables, words: set<DecisionWord>, key: OperationKey, row: Operation)
    requires Constraints(t, words) && key.request in t.requests && LegalOperation(row)
    ensures Constraints(t.(operations := t.operations[key := row]), words)
  {
    hide UniquePersonStatus, OneOutcome;
  }

  lemma InsertedConstraints(t: Tables, words: set<DecisionWord>, d: Decision)
    requires Constraints(t, words) && InsertDecision(t, words, d).Success?
    ensures Constraints(InsertDecision(t, words, d).value, words)
  {
    hide Constraints;
    InsertDecisionExact(t, words, d);
  }

  // ----- Create -----

  predicate CreateAllowed(t: Tables, id: RequestId, identity: Identity) {
    && LegalIdentity(identity)
    && id !in t.requests
    && !exists other <- t.requests.Keys ::
         SamePerson(t.requests[other].identity, identity) && t.requests[other].status == Submitted
  }

  /** A new request is accepted unless the person already has a submitted one; it starts with an empty log. */
  lemma CreateCommits(t: Tables, words: set<DecisionWord>, id: RequestId, identity: Identity, now: Time)
    requires Inv(t, words)
    ensures Create(t, id, identity, now).Success? <==> CreateAllowed(t, id, identity)
    ensures Create(t, id, identity, now).Success? ==>
              var after := Create(t, id, identity, now).value;
              && Inv(after, words)
              && after == t.(requests := t.requests[id := Request(identity, Submitted, now)])
  {
    var row := Request(identity, Submitted, now);
    assert id !in t.requests ==>
        (Twin(t.requests, id, row) <==> exists other <- t.requests.Keys ::
           SamePerson(t.requests[other].identity, identity) && t.requests[other].status == Submitted);
    if Create(t, id, identity, now).Success? {
      InvParts(t, words);
      InsertRequestExact(t, words, id, identity, now);
      CreatedCoupled(t, words, id, row);
    }
  }

  lemma CreatedCoupled(t: Tables, words: set<DecisionWord>, id: RequestId, row: Request)
    requires Inv(t, words) && id !in t.requests && row.status == Submitted
    ensures var after := t.(requests := t.requests[id := row]);
            && (forall x <- after.requests.Keys :: Coupled(after, x))
            && (forall d <- after.decisions :: d.request in after.requests && Separated(after, d))
  {
    var after := t.(requests := t.requests[id := row]);
    forall x | x in after.requests.Keys
      ensures Coupled(after, x)
    {
      if x == id {
        if Words(t.decisions, id) != [] {
          WordsHold(t.decisions, id, Words(t.decisions, id)[0]);
        }
      } else {
        assert Coupled(t, x);
      }
    }
    forall d | d in after.decisions
      ensures d.request in after.requests && Separated(after, d)
    {
      assert Separated(t, d);
    }
  }

  // ----- Decide -----

  function DecisionStatus(choice: string): RequestStatus {
    if choice == "approve" then Approved else Rejected
  }

  predicate DecideAllowed(t: Tables, words: set<DecisionWord>, id: RequestId, approver: string, choice: string,
                          reason: string)
  {
    && id in t.requests
    && t.requests[id].status == Submitted
    && CanApprove(t.requests[id].identity.requester, approver) == None
    && ((choice == "approve" && ApprovedWord in words) || (choice == "reject" && RejectedWord in words))
    && LegalActor(approver) && LegalReason(reason)
    && !Blocked(t, id, DecisionStatus(choice))
  }

  function DecidedWord(choice: string): DecisionWord {
    if choice == "approve" then ApprovedWord else RejectedWord
  }

  /** What a decision does to the tables. */
  ghost predicate Decides(t: Tables, after: Tables, id: RequestId, approver: string, choice: string, reason: string,
                          now: Time)
  {
    && id in t.requests
    && after.requests == t.requests[id := t.requests[id].(status := DecisionStatus(choice), updatedAt := now)]
    && after.operations == t.operations
    && after.decisions == t.decisions + [Decision(id, DecidedWord(choice), approver, reason)]
  }

  lemma DecideCommits(t: Tables, words: set<DecisionWord>, id: RequestId, approver: string, choice: string,
                      reason: string, now: Time)
    requires Inv(t, words)
    ensures Decide(t, words, id, approver, choice, reason, now).Success?
            <==> DecideAllowed(t, words, id, approver, choice, reason)
    ensures Decide(t, words, id, approver, choice, reason, now).Success? ==>
              var after := Decide(t, words, id, approver, choice, reason, now).value;
              && Inv(after, words) && Advances(t, after, id)
              && Decides(t, after, id, approver, choice, reason, now)
  {
    hide Inv, Advances, Twin, AlreadyDecided, LegalActor, LegalReason;
    if id in t.requests && t.requests[id].status == Submitted {
      NoOutcomeYet(t, words, Decision(id, DecidedWord(choice), approver, reason));
      var outcome := Decide(t, words, id, approver, choice, reason, now);
      if outcome.Success? {
        DecideKeepsInv(t, words, outcome.value, id, approver, choice, reason, now);
      }
    }
  }

  lemma DecideKeepsInv(t: Tables, words: set<DecisionWord>, after: Tables, id: RequestId, approver: string,
                       choice: string, reason: string, now: Time)
    requires Inv(t, words) && DecideAllowed(t, words, id, approver, choice, reason)
    requires Decides(t, after, id, approver, choice, reason, now)
    ensures Inv(after, words) && Advances(t, after, id)
  {
    hide Inv, Constraints, Coupled, Advances, Twin, AlreadyDecided;
    var d := Decision(id, DecidedWord(choice), approver, reason);
    NoOutcomeYet(t, words, d);
    InvParts(t, words);
    InvCoupled(t, words, id);
    UpdatedConstraints(t, words, id, DecisionStatus(choice), now);
    InsertedConstraints(t.(requests := after.requests), words, d);
    DecideAdvances(t, after, id, approver, choice, reason, now);
    AdvanceKeepsCoupling(t, words, after, id);
  }

  lemma DecideAdvances(t: Tables, after: Tables, id: RequestId, approver: string, choice: string, reason: string,
                       now: Time)
    requires Decides(t, after, id, approver, choice, reason, now) && Coupled(t, id)
    requires t.requests[id].status == Submitted
    ensures Advances(t, after, id)
    ensures after.decisions[|t.decisions|..] == [Decision(id, DecidedWord(choice), approver, reason)]
  {
    hide Words;
    assert after.decisions[|t.decisions|..] == [Decision(id, DecidedWord(choice), approver, reason)];
    forall kind
      ensures OperationState(after, OperationKey(id, kind)) == ExpectedOperation(kind, DecisionStatus(choice))
    {
      assert OperationState(after, OperationKey(id, kind)) == OperationState(t, OperationKey(id, kind));
    }
  }

  // ----- Claim -----

  predicate ClaimAllowed(t: Tables, key: OperationKey, keycloakUser: string) {
    && (key.kind.Activate? ==> 1 <= |keycloakUser| <= 512)
    && key.request in t.requests
    && t.requests[key.request].status == ClaimableStatus(key.kind)
    && !Blocked(t, key.request, RunningStatus(key.kind))
  }

  /** What a claim does to the tables. */
  ghost predicate Claims(t: Tables, after: Tables, key: OperationKey, keycloakUser: string, now: Time) {
    && key.request in t.requests
    && after.requests == t.requests[key.request :=
         t.requests[key.request].(status := RunningStatus(key.kind), updatedAt := now)]
    && after.operations
       == t.operations[key := Operation(Running, ClaimUser(key.kind, keycloakUser), now + LEASE, "", now)]
    && after.decisions == t.decisions
  }

  lemma NoOperationYet(t: Tables, words: set<DecisionWord>, key: OperationKey)
    requires Inv(t, words)
    requires key.request in t.requests && t.requests[key.request].status == ClaimableStatus(key.kind)
    ensures key !in t.operations
  {
    InvCoupled(t, words, key.request);
    hide Inv;
    assert key == OperationKey(key.request, key.kind);
    assert OperationState(t, key) == None;
  }

  /** A claim never meets an operation row that exists already. */
  lemma ClaimCommits(t: Tables, words: set<DecisionWord>, key: OperationKey, keycloakUser: string, now: Time)
    requires Inv(t, words)
    ensures Claim(t, key, keycloakUser, now).Success? <==> ClaimAllowed(t, key, keycloakUser)
    ensures Claim(t, key, keycloakUser, now).Success? ==>
              var after := Claim(t, key, keycloakUser, now).value;
              && Inv(after, words) && Advances(t, after, key.request)
              && Claims(t, after, key, keycloakUser, now) && key !in t.operations
  {
    hide Inv, Advances, Twin;
    if key.request in t.requests && t.requests[key.request].status == ClaimableStatus(key.kind) {
      NoOperationYet(t, words, key);
      if Claim(t, key, keycloakUser, now).Success? {
        ClaimKeepsInv(t, words, Claim(t, key, keycloakUser, now).value, key, keycloakUser, now);
      }
    }
  }

  lemma ClaimKeepsInv(t: Tables, words: set<DecisionWord>, after: Tables, key: OperationKey, keycloakUser: string,
                      now: Time)
    requires Inv(t, words) && ClaimAllowed(t, key, keycloakUser) && Claims(t, after, key, keycloakUser, now)
    ensures Inv(after, words) && Advances(t, after, key.request)
  {
    hide Inv, Constraints, Coupled, Advances, Twin;
    InvParts(t, words);
    InvCoupled(t, words, key.request);
    UpdatedConstraints(t, words, key.request, RunningStatus(key.kind), now);
    OperationConstraints(t.(requests := after.requests), words, key, after.operations[key]);
    ClaimAdvances(t, after, key, keycloakUser, now);
    assert after.decisions[|t.decisions|..] == [];
    AdvanceKeepsCoupling(t, words, after, key.request);
  }

  lemma ClaimAdvances(t: Tables, after: Tables, key: OperationKey, keycloakUser: string, now: Time)
    requires Claims(t, after, key, keycloakUser, now) && Coupled(t, key.request)
    requires t.requests[key.request].status == ClaimableStatus(key.kind)
    ensures Advances(t, after, key.request)
  {
    assert key == OperationKey(key.request, key.kind);
    forall kind
      ensures OperationState(after, OperationKey(key.request, kind))
              == ExpectedOperation(kind, RunningStatus(key.kind))
    {
      if kind != key.kind {
        assert OperationState(after, OperationKey(key.request, kind))
            == OperationState(t, OperationKey(key.request, kind))
            == ExpectedOperation(kind, ClaimableStatus(key.kind));
      }
    }
    assert after.decisions[|t.decisions|..] == [];
  }

  // ----- Record -----

  /** Nothing here looks at the clock: a result that arrives after its lease is still accepted. */
  predicate RecordAllowed(t: Tables, words: set<DecisionWord>, key: OperationKey, success: bool, actor: string,
                          reason: string)
  {
    && key in t.operations && t.operations[key].status == Running && key.request in t.requests
    && ResultWord(key.kind, success) in words
    && LegalActor(actor) && LegalReason(reason)
    && !Blocked(t, key.request, ResultStatus(key.kind, success))
  }

  /** A running operation has its request in the running status of its kind, and no other operation of it runs. */
  lemma RunningCoupling(t: Tables, words: set<DecisionWord>, key: OperationKey)
    requires Inv(t, words)
    ensures key in t.operations && t.operations[key].status == Running
            <==> key.request in t.requests && t.requests[key.request].status == RunningStatus(key.kind)
    ensures key in t.operations && t.operations[key].status == Running ==>
              forall other <- t.operations.Keys ::
                other.request == key.request && t.operations[other].status == Running ==> other == key
  {
    hide UniquePersonStatus, OneOutcome, Words;
    assert key == OperationKey(key.request, key.kind);
    if key.request in t.requests {
      InvCoupled(t, words, key.request);
      hide Inv;
      assert OperationState(t, key) == ExpectedOperation(key.kind, t.requests[key.request].status);
      forall other | other in t.operations.Keys && other.request == key.request
        ensures OperationState(t, other) == ExpectedOperation(other.kind, t.requests[key.request].status)
      {
        assert other == OperationKey(other.request, other.kind);
      }
    }
  }

  /** What finishing an operation does to the tables. */
  ghost predicate Finishes(t: Tables, after: Tables, key: OperationKey, success: bool, actor: string, error: string,
                           reason: string, now: Time)
  {
    && key in t.operations && key.request in t.requests
    && after.requests == t.requests[key.request :=
         t.requests[key.request].(status := ResultStatus(key.kind, success), updatedAt := now)]
    && after.operations == t.operations[key :=
         t.operations[key].(status := ResultOutcome(success), lastError := error, lease := now, updatedAt := now)]
    && after.decisions == t.decisions + [Decision(key.request, ResultWord(key.kind, success), actor, reason)]
  }

  lemma FinishedOperations(t: Tables, after: Tables, key: OperationKey, success: bool,
                           actor: string, error: string, reason: string, now: Time)
    requires Finishes(t, after, key, success, actor, error, reason, now) && Coupled(t, key.request)
    requires t.requests[key.request].status == RunningStatus(key.kind)
    ensures forall kind :: OperationState(after, OperationKey(key.request, kind))
                           == ExpectedOperation(kind, ResultStatus(key.kind, success))
  {
    assert key == OperationKey(key.request, key.kind);
    forall kind
      ensures OperationState(after, OperationKey(key.request, kind))
              == ExpectedOperation(kind, ResultStatus(key.kind, success))
    {
      if kind != key.kind {
        assert OperationState(after, OperationKey(key.request, kind))
            == OperationState(t, OperationKey(key.request, kind))
            == ExpectedOperation(kind, RunningStatus(key.kind));
      }
    }
  }

  lemma FinishAdvances(t: Tables, after: Tables, key: OperationKey, success: bool,
                       actor: string, error: string, reason: string, now: Time)
    requires Finishes(t, after, key, success, actor, error, reason, now) && Coupled(t, key.request)
    requires t.requests[key.request].status == RunningStatus(key.kind)
    ensures Advances(t, after, key.request)
    ensures after.decisions[|t.decisions|..] == [Decision(key.request, ResultWord(key.kind, success), actor, reason)]
  {
    FinishedOperations(t, after, key, success, actor, error, reason, now);
    var d := Decision(key.request, ResultWord(key.kind, success), actor, reason);
    assert after.decisions[|t.decisions|..] == [d];
    assert Trail(RunningStatus(key.kind)) + Spell([d]) == Trail(ResultStatus(key.kind, success));
  }

  lemma FinishKeepsInv(t: Tables, words: set<DecisionWord>, after: Tables, key: OperationKey, success: bool,
                       actor: string, error: string, reason: string, now: Time)
    requires Inv(t, words) && Finishes(t, after, key, success, actor, error, reason, now)
    requires t.requests[key.request].status == RunningStatus(key.kind)
    requires !Blocked(t, key.request, ResultStatus(key.kind, success))
    requires |error| <= 2048
    requires LegalDecision(Decision(key.request, ResultWord(key.kind, success), actor, reason), words)
    ensures Inv(after, words)
  {
    hide Inv, Constraints, Coupled, Advances, Twin, AlreadyDecided;
    var d := Decision(key.request, ResultWord(key.kind, success), actor, reason);
    NoOutcomeYet(t, words, d);
    InvParts(t, words);
    InvCoupled(t, words, key.request);
    UpdatedConstraints(t, words, key.request, ResultStatus(key.kind, success), now);
    OperationLegal(t, words, key);
    OperationConstraints(t.(requests := after.requests), words, key, after.operations[key]);
    InsertedConstraints(Tables(after.requests, after.operations, t.decisions), words, d);
    FinishAdvances(t, after, key, success, actor, error, reason, now);
    AdvanceKeepsCoupling(t, words, after, key.request);
  }

  lemma OperationLegal(t: Tables, words: set<DecisionWord>, key: OperationKey)
    requires Constraints(t, words) && key in t.operations
    ensures LegalOperation(t.operations[key])
  {
    hide UniquePersonStatus, OneOutcome;
  }

  lemma RecordCommits(t: Tables, words: set<DecisionWord>, key: OperationKey, success: bool, actor: string,
                      reason: string, now: Time)
    requires Inv(t, words)
    ensures Record(t, words, key, success, actor, reason, now).Success?
            <==> RecordAllowed(t, words, key, success, actor, reason)
    ensures Record(t, words, key, success, actor, reason, now).Success? ==>
              var after := Record(t, words, key, success, actor, reason, now).value;
              && Inv(after, words) && Advances(t, after, key.request)
              && Finishes(t, after, key, success, actor, reason, reason, now)
    ensures Record(t, words, key, success, actor, reason, now) != Failure(StatusMoved)
  {
    hide Advances, Twin, AlreadyDecided;
    if key in t.operations && t.operations[key].status == Running {
      RunningCoupling(t, words, key);
      InvParts(t, words);
      InvCoupled(t, words, key.request);
      OperationLegal(t, words, key);
      hide Inv, Constraints, Coupled, Words;
      NoOutcomeYet(t, words, Decision(key.request, ResultWord(key.kind, success), actor, reason));
      var outcome := Record(t, words, key, success, actor, reason, now);
      if outcome.Success? {
        FinishAdvances(t, outcome.value, key, success, actor, reason, reason, now);
        FinishKeepsInv(t, words, outcome.value, key, success, actor, reason, reason, now);
      }
    }
  }
}
