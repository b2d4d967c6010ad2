/**
 The coupling of the three tables. For a request in a given status, the other two tables are fully
 determined as far as that request is concerned: which operations exist, in which state, and which
 words its decision log spells. Every committed transaction moves each request it touches along one
 edge of a small automaton, and nothing else.
 */
module OnboardingInvariant {
  import opened Wrappers
  import opened OnboardingSchema
  import opened OnboardingTransactions
  import opened DecisionLog

  // ----- The lifecycle automaton -----

  /** The one-step successors of a status. */
  predicate Edge(a: RequestStatus, b: RequestStatus) {
    match a
    case Submitted => b in {Approved, Rejected}
    case Approved => b == Provisioning
    case Provisioning => b in {Invited, ProvisioningAmbiguous}
    case Invited => b == Activating
    case Activating => b in {Active, ActivationAmbiguous}
    case _ => false
  }

  /** The words the log of a request in this status spells. */
  function Trail(s: RequestStatus): seq<DecisionWord> {
    match s
    case Submitted => []
    case Rejected => [RejectedWord]
    case Approved | Provisioning => [ApprovedWord]
    case ProvisioningAmbiguous => [ApprovedWord, ProvisioningAmbiguousWord]
    case Invited | Activating => [ApprovedWord, InvitedWord]
    case Active => [ApprovedWord, InvitedWord, ActiveWord]
    case ActivationAmbiguous => [ApprovedWord, InvitedWord, ActivationAmbiguousWord]
    case ProvisioningFailed => [ApprovedWord, ProvisioningFailedWord]
    case ActivationFailed => [ApprovedWord, InvitedWord, ActivationFailedWord]
  }

  /** The state of the operation of this kind for a request in this status; None if there is none. */
  function ExpectedOperation(kind: OperationKind, s: RequestStatus): Option<OperationStatus> {
    match kind
    case Provision => (
      match s
      case Submitted | Approved | Rejected => None
      case Provisioning => Some(Running)
      case ProvisioningAmbiguous => Some(Ambiguous)
      case ProvisioningFailed => Some(Failed)
      case Invited | Activating | Active | ActivationAmbiguous | ActivationFailed => Some(Succeeded))
    case Activate => (
      match s
      case Activating => Some(Running)
      case Active => Some(Succeeded)
      case ActivationAmbiguous => Some(Ambiguous)
      case ActivationFailed => Some(Failed)
      case _ => None)
  }

  /** The statuses a request can have; the two failure statuses of the enumeration are never written. */
  predicate Used(s: RequestStatus) {
    !s.ProvisioningFailed? && !s.ActivationFailed?
  }

  function OperationState(t: Tables, key: OperationKey): Option<OperationStatus> {
    if key in t.operations then Some(t.operations[key].status) else None
  }

  // ----- The invariant -----

  ghost predicate Coupled(t: Tables, id: RequestId)
    requires id in t.requests
  {
    var s := t.requests[id].status;
    && Used(s)
    && Words(t.decisions, id) == Trail(s)
    && (forall kind :: OperationState(t, OperationKey(id, kind)) == ExpectedOperation(kind, s))
  }

  /** Whoever approved or rejected a request is not its requester, and neither subject is blank. */
  ghost predicate Separated(t: Tables, d: Decision)
    requires d.request in t.requests
  {
    ApprovalOutcome(d.word) ==> CanApprove(t.requests[d.request].identity.requester, d.actor) == None
  }

  ghost predicate Inv(t: Tables, words: set<DecisionWord>) {
    && Constraints(t, words)
    && (forall id <- t.requests.Keys :: Coupled(t, id))
    && (forall d <- t.decisions :: Separated(t, d))
  }

  /** Parts of the invariant, for proofs that need no more of it. */
  lemma InvParts(t: Tables, words: set<DecisionWord>)
    requires Inv(t, words)
    ensures Constraints(t, words) && UniquePersonStatus(t.requests)
    ensures forall d <- t.decisions :: d.request in t.requests && Separated(t, d)
  {
  }

  lemma InvCoupled(t: Tables, words: set<DecisionWord>, id: RequestId)
    requires Inv(t, words) && id in t.requests
    ensures Coupled(t, id)
  {
  }

  // ----- One automaton step -----

  /** The rows that say that `id` moved from `a` to `b`: none for a claim, one otherwise. */
  ghost predicate Reports(rows: seq<Decision>, id: RequestId, a: RequestStatus, b: RequestStatus) {
    && |rows| <= 1
    && (forall d <- rows :: d.request == id)
    && Trail(a) + Spell(rows) == Trail(b)
  }

  /** `after` differs from `t` in one automaton step of request `id`, and in nothing that is another request's. */
  ghost predicate Advances(t: Tables, after: Tables, id: RequestId) {
    && id in t.requests && after.requests.Keys == t.requests.Keys
    && (forall x <- t.requests.Keys :: after.requests[x].identity == t.requests[x].identity)
    && (forall x <- t.requests.Keys :: x != id ==> after.requests[x] == t.requests[x])
    && Edge(t.requests[id].status, after.requests[id].status)
    && (forall key <- t.operations.Keys + after.operations.Keys :: key.request != id ==>
          key in t.operations && key in after.operations && after.operations[key] == t.operations[key])
    && (forall kind :: OperationState(after, OperationKey(id, kind))
                       == ExpectedOperation(kind, after.requests[id].status))
    && t.decisions <= after.decisions
    && Reports(after.decisions[|t.decisions|..], id, t.requests[id].status, after.requests[id].status)
  }

  lemma LogOfExtension(before: seq<Decision>, after: seq<Decision>, id: RequestId, moved: RequestId)
    requires before <= after && |after| <= |before| + 1
    requires forall d <- after[|before|..] :: d.request == moved
    ensures Log(after, id) == Log(before, id) + if id == moved then after[|before|..] else []
    ensures Words(after, id) == Words(before, id) + if id == moved then Spell(after[|before|..]) else []
  {
    if |after| == |before| {
      assert after == before;
    } else {
      assert after == before + [after[|before|]];
      LogAppend(before, after[|before|], id);
    }
  }

  lemma AdvanceKeepsOthers(t: Tables, after: Tables, id: RequestId, x: RequestId)
    requires Advances(t, after, id) && x in t.requests && x != id && Coupled(t, x)
    ensures Coupled(after, x)
  {
    LogOfExtension(t.decisions, after.decisions, x, id);
    forall kind
      ensures OperationState(after, OperationKey(x, kind)) == OperationState(t, OperationKey(x, kind))
    {
      var key := OperationKey(x, kind);
      if key in t.operations || key in after.operations {
        assert key in t.operations.Keys + after.operations.Keys;
      }
    }
  }

  lemma AdvanceKeepsMoved(t: Tables, after: Tables, id: RequestId)
    requires Advances(t, after, id) && Coupled(t, id)
    ensures Coupled(after, id)
  {
    LogOfExtension(t.decisions, after.decisions, id, id);
  }

  lemma AdvanceKeepsSeparation(t: Tables, after: Tables, id: RequestId)
    requires Advances(t, after, id)
    requires forall d <- t.decisions :: d.request in t.requests && Separated(t, d)
    requires forall d <- after.decisions[|t.decisions|..] :: d.request in after.requests && Separated(after, d)
    ensures forall d <- after.decisions :: d.request in after.requests && Separated(after, d)
  {
    assert after.decisions == t.decisions + after.decisions[|t.decisions|..];
    forall d | d in after.decisions
      ensures d.request in after.requests && Separated(after, d)
    {
      if d in t.decisions {
        assert Separated(t, d);
      }
    }
  }

  /** One automaton step keeps the coupling. */
  lemma AdvanceKeepsCoupling(t: Tables, words: set<DecisionWord>, after: Tables, id: RequestId)
    requires Inv(t, words) && Advances(t, after, id) && Constraints(after, words)
    requires forall d <- after.decisions[|t.decisions|..] :: d.request in after.requests && Separated(after, d)
    ensures Inv(after, words)
  {
    forall x | x in after.requests.Keys
      ensures Coupled(after, x)
    {
      assert Coupled(t, x);
      if x == id {
        AdvanceKeepsMoved(t, after, id);
      } else {
        AdvanceKeepsOthers(t, after, id, x);
      }
    }
    AdvanceKeepsSeparation(t, after, id);
  }
}
