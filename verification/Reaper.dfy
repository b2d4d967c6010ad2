/**
 The reaper: one transaction that marks every expired running operation it selected, in whatever order
 the query returns them. Its loop issues three writes for each row and fails as a whole if one is refused.
 */
module Reaper {
  import opened Wrappers
  import opened OnboardingSchema
  import opened OnboardingTransactions
  import opened OnboardingInvariant
  import opened OnboardingCommits
  import opened DecisionLog

  /** One row can be reaped: its word passes the CHECK, and its person has no request in the target status. */
  predicate RowReapable(t: Tables, words: set<DecisionWord>, key: OperationKey) {
    && key.request in t.requests
    && ResultWord(key.kind, false) in words
    && !Blocked(t, key.request, ResultStatus(key.kind, false))
  }

  /** The exact condition for a whole batch to commit, in terms of the tables before it only. */
  predicate BatchReapable(t: Tables, words: set<DecisionWord>, batch: seq<OperationKey>, actor: string) {
    && (batch == [] || LegalActor(actor))
    && (forall key <- batch :: RowReapable(t, words, key))
  }

  function ReapDecision(key: OperationKey, actor: string): Decision {
    Decision(key.request, ResultWord(key.kind, false), actor, LEASE_EXPIRED_REASON)
  }

  function ReapDecisions(batch: seq<OperationKey>, actor: string): seq<Decision> {
    seq(|batch|, i requires 0 <= i < |batch| => ReapDecision(batch[i], actor))
  }

  function ReapedOperation(row: Operation, now: Time): Operation {
    Operation(Ambiguous, row.keycloakUser, now, LEASE_EXPIRED_ERROR, now)
  }

  /** The request of a reaped operation; the kind of its one running operation decides the ambiguous status. */
  function ReapedRequest(row: Request, id: RequestId, batch: set<OperationKey>, now: Time): Request {
    if OperationKey(id, Provision) in batch then row.(status := ProvisioningAmbiguous, updatedAt := now)
    else if OperationKey(id, Activate) in batch then row.(status := ActivationAmbiguous, updatedAt := now)
    else row
  }

  function Keys(batch: seq<OperationKey>): set<OperationKey> {
    set key | key in batch
  }

  /** The tables after a committed batch, row by row and without a loop. */
  function Reaped(t: Tables, batch: seq<OperationKey>, actor: string, now: Time): Tables {
    Tables(
      map id | id in t.requests :: ReapedRequest(t.requests[id], id, Keys(batch), now),
      map key | key in t.operations ::
        if key in Keys(batch) then ReapedOperation(t.operations[key], now) else t.operations[key],
      t.decisions + ReapDecisions(batch, actor))
  }

  lemma LeaseTextsFit()
    ensures |LEASE_EXPIRED_ERROR| <= 2048 && LegalReason(LEASE_EXPIRED_REASON)
  {
  }

  /** One row: it goes through if and only if it is reapable, and it is the failure of its own kind. */
  lemma ReapRowCommits(t: Tables, words: set<DecisionWord>, key: OperationKey, actor: string, now: Time)
    requires Inv(t, words) && key in t.operations && t.operations[key].status == Running
    ensures ReapRow(t, words, key, actor, now).Success? <==> RowReapable(t, words, key) && LegalActor(actor)
    ensures ReapRow(t, words, key, actor, now).Success? ==>
              var after := ReapRow(t, words, key, actor, now).value;
              && Inv(after, words) && Advances(t, after, key.request)
              && Finishes(t, after, key, false, actor, LEASE_EXPIRED_ERROR, LEASE_EXPIRED_REASON, now)
  {
    hide Inv, Constraints, Coupled, Words, Advances, Twin, AlreadyDecided;
    RunningCoupling(t, words, key);
    LeaseTextsFit();
    InvParts(t, words);
    InvCoupled(t, words, key.request);
    OperationLegal(t, words, key);
    NoOutcomeYet(t, words, ReapDecision(key, actor));
    var outcome := ReapRow(t, words, key, actor, now);
    if outcome.Success? {
      FinishAdvances(t, outcome.value, key, false, actor, LEASE_EXPIRED_ERROR, LEASE_EXPIRED_REASON, now);
      FinishKeepsInv(t, words, outcome.value, key, false, actor, LEASE_EXPIRED_ERROR, LEASE_EXPIRED_REASON, now);
    }
  }

  /** A batch of distinct running operations; what the query returns is one. */
  ghost predicate RunningBatch(t: Tables, batch: seq<OperationKey>) {
    && (forall key <- batch :: key in t.operations && t.operations[key].status == Running)
    && (forall i, j :: 0 <= i < j < |batch| ==> batch[i] != batch[j])
  }

  /**
   Moving one request out of a running status gives another running one no new twin and takes none away:
   a new twin would have shared the running status of the other before.
   */
  lemma TwinsUntouched(t: Tables, after: Tables, moved: RequestId, other: RequestId, target: RequestStatus)
    requires UniquePersonStatus(t.requests)
    requires moved in t.requests && other in t.requests && moved != other
    requires after.requests.Keys == t.requests.Keys
    requires forall id <- t.requests.Keys :: after.requests[id].identity == t.requests[id].identity
    requires forall id <- t.requests.Keys :: id != moved ==> after.requests[id] == t.requests[id]
    requires t.requests[moved].status != target
    requires after.requests[moved].status == target ==> t.requests[moved].status == t.requests[other].status
    ensures Blocked(after, other, target) <==> Blocked(t, other, target)
  {
    var row := t.requests[other].(status := target);
    assert !Twin(t.requests, other, t.requests[other]);
    assert moved in t.requests.Keys;
    forall id | id in t.requests.Keys && id != other && SamePerson(t.requests[id].identity, row.identity)
      ensures t.requests[id].status == target <==> after.requests[id].status == target
    {
    }
  }

  /** Reaping one row neither blocks nor unblocks another one: they are of different requests. */
  lemma OtherRowUntouched(t: Tables, words: set<DecisionWord>, after: Tables, key: OperationKey, other: OperationKey,
                          actor: string, error: string, reason: string, now: Time)
    requires Inv(t, words) && key != other
    requires key in t.operations && t.operations[key].status == Running
    requires other in t.operations && t.operations[other].status == Running
    requires Finishes(t, after, key, false, actor, error, reason, now)
    ensures other.request != key.request
    ensures other in after.operations && after.operations[other] == t.operations[other]
    ensures RowReapable(after, words, other) <==> RowReapable(t, words, other)
  {
    RunningCoupling(t, words, key);
    RunningCoupling(t, words, other);
    InvParts(t, words);
    hide Inv, Constraints, Coupled, Twin, UniquePersonStatus;
    TwinsUntouched(t, after, key.request, other.request, ResultStatus(other.kind, false));
  }

  /** The result of a batch, one row first. */
  lemma ReapedUnfolds(t: Tables, next: Tables, batch: seq<OperationKey>, actor: string, now: Time)
    requires batch != [] && RunningBatch(t, batch)
    requires forall i :: 1 <= i < |batch| ==> batch[i].request != batch[0].request
    requires Finishes(t, next, batch[0], false, actor, LEASE_EXPIRED_ERROR, LEASE_EXPIRED_REASON, now)
    ensures Reaped(next, batch[1..], actor, now) == Reaped(t, batch, actor, now)
  {
    hide ReapedRequest, ResultStatus, ResultWord;
    var key, rest := batch[0], batch[1..];
    assert batch == [key] + rest;
    assert ReapDecisions(batch, actor) == [ReapDecision(key, actor)] + ReapDecisions(rest, actor);
    assert Keys(batch) == {key} + Keys(rest);
    ReapedRows(t, next, key, Keys(rest), now);
  }

  lemma ReapedRows(t: Tables, next: Tables, key: OperationKey, rest: set<OperationKey>, now: Time)
    requires forall other <- rest :: other.request != key.request
    requires key.request in t.requests && key in t.operations
    requires next.requests == t.requests[key.request :=
               t.requests[key.request].(status := ResultStatus(key.kind, false), updatedAt := now)]
    requires next.operations == t.operations[key := ReapedOperation(t.operations[key], now)]
    ensures forall id <- t.requests.Keys ::
              ReapedRequest(next.requests[id], id, rest, now) == ReapedRequest(t.requests[id], id, {key} + rest, now)
    ensures forall other <- t.operations.Keys ::
              (if other in rest then ReapedOperation(next.operations[other], now) else next.operations[other])
              == if other in {key} + rest then ReapedOperation(t.operations[other], now) else t.operations[other]
  {
    assert key == OperationKey(key.request, key.kind);
  }

  /**
   The reaper commits if and only if every row of its batch could be reaped alone, and then the result
   is the row-by-row one. Rows of one batch never collide with each other.
   */
  lemma {:induction false} ReapCommits(t: Tables, words: set<DecisionWord>, batch: seq<OperationKey>, actor: string,
                                       now: Time)
    requires Inv(t, words) && RunningBatch(t, batch)
    ensures Reap(t, words, batch, actor, now).Success? <==> BatchReapable(t, words, batch, actor)
    ensures Reap(t, words, batch, actor, now).Success? ==>
              var after := Reap(t, words, batch, actor, now).value;
              Inv(after, words) && after == Reaped(t, batch, actor, now)
    decreases |batch|
  {
    hide Inv, ReapRow;
    if batch == [] {
      assert Reaped(t, batch, actor, now) == t;
      hide Reaped;
    } else if ReapRow(t, words, batch[0], actor, now).Failure? {
      assert batch[0] in batch;
      ReapRowCommits(t, words, batch[0], actor, now);
    } else {
      var next := FirstRowReaped(t, words, batch, actor, now);
      ReapCommits(next, words, batch[1..], actor, now);
    }
  }

  /** The first row went through: what is left is the same question about the rest of the batch. */
  lemma FirstRowReaped(t: Tables, words: set<DecisionWord>, batch: seq<OperationKey>, actor: string, now: Time)
    returns (next: Tables)
    requires Inv(t, words) && batch != [] && RunningBatch(t, batch)
    requires batch[0] in batch && ReapRow(t, words, batch[0], actor, now).Success?
    ensures ReapRow(t, words, batch[0], actor, now) == Success(next)
    ensures Inv(next, words) && RunningBatch(next, batch[1..])
    ensures BatchReapable(t, words, batch, actor) <==> BatchReapable(next, words, batch[1..], actor)
    ensures Reaped(next, batch[1..], actor, now) == Reaped(t, batch, actor, now)
  {
    hide Inv, Advances, ReapRow, RowReapable, Reaped, Finishes;
    next := ReapRow(t, words, batch[0], actor, now).value;
    ReapRowCommits(t, words, batch[0], actor, now);
    RestUntouched(t, words, next, batch, actor, now);
    ReapedUnfolds(t, next, batch, actor, now);
  }

  lemma RestUntouched(t: Tables, words: set<DecisionWord>, next: Tables, batch: seq<OperationKey>, actor: string,
                      now: Time)
    requires Inv(t, words) && Inv(next, words) && batch != [] && RunningBatch(t, batch)
    requires Finishes(t, next, batch[0], false, actor, LEASE_EXPIRED_ERROR, LEASE_EXPIRED_REASON, now)
    ensures RunningBatch(next, batch[1..])
    ensures forall i :: 1 <= i < |batch| ==> batch[i].request != batch[0].request
    ensures RowReapable(t, words, batch[0]) && LegalActor(actor) ==>
              (BatchReapable(t, words, batch, actor) <==> BatchReapable(next, words, batch[1..], actor))
  {
    hide Inv, Finishes, RowReapable;
    var rest := batch[1..];
    assert batch == [batch[0]] + rest;
    forall i | 0 <= i < |rest|
      ensures rest[i] in next.operations && next.operations[rest[i]].status == Running
      ensures RowReapable(next, words, rest[i]) <==> RowReapable(t, words, rest[i])
      ensures rest[i].request != batch[0].request
    {
      assert batch[0] in batch && batch[i + 1] in batch;
      OtherRowUntouched(t, words, next, batch[0], batch[i + 1], actor, LEASE_EXPIRED_ERROR, LEASE_EXPIRED_REASON, now);
    }
    assert forall i :: 1 <= i < |batch| ==> rest[i - 1] == batch[i];
  }

  // ----- The order of the rows does not matter -----

  lemma {:induction false} LogOfReaped(batch: seq<OperationKey>, actor: string, id: RequestId)
    requires forall i, j :: 0 <= i < j < |batch| ==> batch[i].request != batch[j].request
    ensures (forall key <- batch :: key.request != id) ==> Log(ReapDecisions(batch, actor), id) == []
    ensures forall key <- batch :: key.request == id ==>
                                     Log(ReapDecisions(batch, actor), id) == [ReapDecision(key, actor)]
    decreases |batch|
  {
    if batch != [] {
      var init, last := batch[..|batch| - 1], batch[|batch| - 1];
      assert batch == init + [last];
      LogOfReaped(init, actor, id);
      assert ReapDecisions(batch, actor) == ReapDecisions(init, actor) + [ReapDecision(last, actor)];
      LogAppend(ReapDecisions(init, actor), ReapDecision(last, actor), id);
    }
  }

  lemma DistinctRequests(t: Tables, words: set<DecisionWord>, batch: seq<OperationKey>)
    requires Inv(t, words) && RunningBatch(t, batch)
    ensures forall i, j :: 0 <= i < j < |batch| ==> batch[i].request != batch[j].request
  {
    forall i, j | 0 <= i < j < |batch|
      ensures batch[i].request != batch[j].request
    {
      assert batch[i] in batch && batch[j] in batch;
      RunningCoupling(t, words, batch[i]);
    }
  }

  /** Any two orders of the same rows: same verdict, same requests and operations, same log of every request. */
  lemma ReapOrderIrrelevant(t: Tables, words: set<DecisionWord>, batch: seq<OperationKey>, other: seq<OperationKey>,
                            actor: string, now: Time)
    requires Inv(t, words) && RunningBatch(t, batch)
    requires multiset(batch) == multiset(other)
    ensures forall key <- other :: key in t.operations
    ensures var a, b := Reap(t, words, batch, actor, now), Reap(t, words, other, actor, now);
            && (a.Success? <==> b.Success?)
            && (a.Success? ==>
                  && a.value.requests == b.value.requests
                  && a.value.operations == b.value.operations
                  && forall id :: Log(a.value.decisions, id) == Log(b.value.decisions, id))
  {
    PermutedBatch(t, batch, other);
    ReapCommits(t, words, batch, actor, now);
    ReapCommits(t, words, other, actor, now);
    DistinctRequests(t, words, batch);
    DistinctRequests(t, words, other);
    assert Keys(batch) == Keys(other);
    forall id
      ensures Log(Reaped(t, batch, actor, now).decisions, id) == Log(Reaped(t, other, actor, now).decisions, id)
    {
      LogConcat(t.decisions, ReapDecisions(batch, actor), id);
      LogConcat(t.decisions, ReapDecisions(other, actor), id);
      LogOfReaped(batch, actor, id);
      LogOfReaped(other, actor, id);
    }
  }

  lemma PermutedBatch(t: Tables, batch: seq<OperationKey>, other: seq<OperationKey>)
    requires RunningBatch(t, batch) && multiset(batch) == multiset(other)
    ensures RunningBatch(t, other)
    ensures forall key :: key in batch <==> key in other
    ensures |batch| == |other|
  {
    assert |multiset(batch)| == |batch| && |multiset(other)| == |other|;
    forall key
      ensures key in batch <==> key in other
    {
      assert key in batch <==> key in multiset(batch);
      assert key in other <==> key in multiset(other);
    }
    forall i, j | 0 <= i < j < |other|
      ensures other[i] != other[j]
    {
      if other[i] == other[j] {
        var key := other[i];
        assert other == other[..j] + [other[j]] + other[j + 1..];
        assert multiset(other) == multiset(other[..j]) + multiset{key} + multiset(other[j + 1..]);
        assert other[..j][i] == key;
        assert multiset(other)[key] >= 2;
        DistinctOnce(batch, key);
      }
    }
  }

  lemma {:induction false} DistinctOnce(batch: seq<OperationKey>, key: OperationKey)
    requires forall i, j :: 0 <= i < j < |batch| ==> batch[i] != batch[j]
    ensures multiset(batch)[key] <= 1
    decreases |batch|
  {
    if batch != [] {
      var init, last := batch[..|batch| - 1], batch[|batch| - 1];
      assert batch == init + [last];
      DistinctOnce(init, key);
      assert last !in init;
    }
  }
}
