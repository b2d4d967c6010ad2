/**
 Who may do what, and what it leaves in the tables: the three privileged requests, the recorded results and
 the reaper, in terms of what was sent and of the texts that the code writes.
 */
module OnboardingGate {
  import opened Wrappers
  import Text
  import opened OnboardingSchema
  import opened OnboardingTransactions
  import opened OnboardingInvariant
  import opened OnboardingCommits
  import opened OnboardingLifecycle
  import opened OnboardingService
  import opened OnboardingSafety
  import opened SubmitInputs
  import Reaper

  // ----- The gate -----

  /** Someone the authentication let in and who holds the approver role. */
  predicate Entitled(cfg: Config, p: Principal) {
    && cfg.approverRole in p.roles
    && Text.TrimSpace(p.subject) == p.subject && 1 <= Text.ByteLen(p.subject) <= 512
  }

  /** Without the approver role, a decision, a provision or an activation changes nothing at all. */
  lemma RoleIsRequired(cfg: Config, s: System, e: Event)
    requires e.DecideRequest? || e.StartHandler?
    requires cfg.approverRole !in (if e.DecideRequest? then e.approver.roles else e.operator.roles)
    ensures Next(cfg, s, e) == s
  {
  }

  /** No other request of the same organization and address has this status. */
  ghost predicate Alone(t: Tables, id: RequestId, status: RequestStatus)
    requires id in t.requests
  {
    forall other <- t.requests.Keys ::
      other != id
      && t.requests[other].identity.organization == t.requests[id].identity.organization
      && t.requests[other].identity.email == t.requests[id].identity.email
      ==> t.requests[other].status != status
  }

  lemma AloneIsNotBlocked(t: Tables, id: RequestId, status: RequestStatus)
    requires id in t.requests
    ensures Alone(t, id, status) <==> !Blocked(t, id, status)
  {
  }

  // ----- A decision -----

  /** What a decision needs, in terms of the request as it was sent. */
  ghost predicate MayBeDecided(cfg: Config, s: System, approver: Principal, id: RequestId, choice: string,
                               reason: string)
  {
    && Entitled(cfg, approver)
    && id in s.tables.requests && s.tables.requests[id].status == Submitted
    && !Text.IsBlank(s.tables.requests[id].identity.requester)
    && s.tables.requests[id].identity.requester != approver.subject
    && |Text.TrimSpace(reason)| <= 1024
    && (|| (choice == "approve" && ApprovedWord in cfg.words && Alone(s.tables, id, Approved))
        || (choice == "reject" && RejectedWord in cfg.words && Alone(s.tables, id, Rejected)))
  }

  /** The exact condition for a decision, from the route to the tables. */
  lemma DecisionCommitsIff(cfg: Config, s: System, approver: Principal, id: RequestId, choice: string, reason: string)
    requires ServiceInv(cfg, s)
    ensures Committed(cfg, s, DecideRequest(approver, id, choice, reason))
            <==> MayBeDecided(cfg, s, approver, id, choice, reason)
  {
    hide CallsInv, HandlersInv, EvidenceInv, CatalogueInv, Inv, Advances, Decide, Alone, Blocked, Text.TrimSpace;
    EntitledIsApprover(cfg, approver);
    DecideCommits(s.tables, cfg.words, id, approver.subject, choice, Text.TrimSpace(reason), s.now);
    if id in s.tables.requests {
      AloneIsNotBlocked(s.tables, id, Approved);
      AloneIsNotBlocked(s.tables, id, Rejected);
    }
  }

  lemma EntitledIsApprover(cfg: Config, p: Principal)
    ensures Entitled(cfg, p) <==> Approver(cfg, p)
    ensures Entitled(cfg, p) ==> LegalActor(p.subject) && !Text.IsBlank(p.subject)
  {
  }

  /** A committed decision: one status, and one row with its word, its author and its trimmed reason. */
  lemma DecisionIsStored(cfg: Config, s: System, approver: Principal, id: RequestId, choice: string, reason: string)
    requires ServiceInv(cfg, s) && Committed(cfg, s, DecideRequest(approver, id, choice, reason))
    ensures var t, after := s.tables, Next(cfg, s, DecideRequest(approver, id, choice, reason)).tables;
            && id in t.requests && after.operations == t.operations
            && after.requests == t.requests[id := t.requests[id].(
                 status := if choice == "approve" then Approved else Rejected, updatedAt := s.now)]
            && after.decisions == t.decisions + [
                 Decision(id, if choice == "approve" then ApprovedWord else RejectedWord, approver.subject,
                          Text.TrimSpace(reason))]
  {
    hide CallsInv, HandlersInv, EvidenceInv, CatalogueInv, Inv, Advances, Decide, Text.TrimSpace;
    DecideCommits(s.tables, cfg.words, id, approver.subject, choice, Text.TrimSpace(reason), s.now);
  }

  /** Which refusal a decision meets before it writes anything; one of them is answered as forbidden. */
  lemma DecisionRefusals(cfg: Config, s: System, approver: Principal, id: RequestId, choice: string, reason: string)
    requires Entitled(cfg, approver) && choice in ["approve", "reject"]
    ensures var outcome := Transaction(cfg, s, DecideRequest(approver, id, choice, reason));
            && outcome.Some?
            && (outcome.value == Failure(NoSuchRequest) <==> id !in s.tables.requests)
            && (id in s.tables.requests ==>
                  var row := s.tables.requests[id];
                  && (row.status != Submitted <==> outcome.value == Failure(WrongStatus(row.status)))
                  && (row.status == Submitted && Text.TrimSpace(row.identity.requester) == ""
                      <==> outcome.value == Failure(SubjectRequired))
                  && (row.status == Submitted && Text.TrimSpace(row.identity.requester) != ""
                      && row.identity.requester == approver.subject
                      <==> outcome.value == Failure(MakerChecker)))
  {
    hide Text.TrimSpace, Twin, AlreadyDecided;
  }

  // ----- A claim -----

  lemma UserFits(user: string)
    requires UsableKeycloakUser(user)
    ensures 1 <= |Text.TrimSpace(user)| <= 512
  {
    Text.TrimLeftShorter(user);
  }

  ghost predicate MayBeClaimed(cfg: Config, s: System, h: nat, operator: Principal, key: OperationKey, user: string) {
    && Entitled(cfg, operator) && h !in s.handlers && key.request in s.tables.requests
    && match key.kind
       case Provision =>
         s.tables.requests[key.request].status == Approved && Alone(s.tables, key.request, Provisioning)
       case Activate =>
         && Text.TrimSpace(user) != "" && Text.ByteLen(user) <= 512
         && s.tables.requests[key.request].status == Invited && Alone(s.tables, key.request, Activating)
  }

  /** The exact condition for a claim, from the route to the tables. */
  lemma ClaimCommitsIff(cfg: Config, s: System, h: nat, operator: Principal, key: OperationKey, user: string)
    requires ServiceInv(cfg, s)
    ensures Committed(cfg, s, StartHandler(h, operator, key, user))
            <==> MayBeClaimed(cfg, s, h, operator, key, user)
  {
    hide CallsInv, HandlersInv, EvidenceInv, CatalogueInv, Inv, Advances, Claim, Claims, Alone, Blocked;
    hide Text.TrimSpace;
    EntitledIsApprover(cfg, operator);
    if key.kind.Activate? && UsableKeycloakUser(user) {
      UserFits(user);
    }
    ClaimCommits(s.tables, cfg.words, key, Text.TrimSpace(user), s.now);
    if key.request in s.tables.requests {
      AloneIsNotBlocked(s.tables, key.request, RunningStatus(key.kind));
    }
  }

  /** A committed claim: the running status, one operation leased for 60 seconds, and its handler. */
  lemma ClaimIsStored(cfg: Config, s: System, h: nat, operator: Principal, key: OperationKey, user: string)
    requires ServiceInv(cfg, s) && Committed(cfg, s, StartHandler(h, operator, key, user))
    ensures var t, next := s.tables, Next(cfg, s, StartHandler(h, operator, key, user));
            && key.request in t.requests && key !in t.operations
            && next.tables.requests == t.requests[key.request := t.requests[key.request].(
                 status := if key.kind == Provision then Provisioning else Activating, updatedAt := s.now)]
            && next.tables.operations == t.operations[key := Operation(
                 Running, if key.kind == Provision then "" else Text.TrimSpace(user), s.now + 60 * 1_000_000_000, "",
                 s.now)]
            && next.tables.decisions == t.decisions
            && next.handlers == s.handlers[h := Handler(key, operator.subject, s.now, Claimed)]
  {
    hide CallsInv, HandlersInv, EvidenceInv, CatalogueInv, Inv, Advances, Claim, Text.TrimSpace;
    ClaimCommits(s.tables, cfg.words, key, Text.TrimSpace(user), s.now);
  }

  // ----- A result -----

  /** The text that a handler stores with its result, in the operation and in the log. */
  function ResultText(kind: OperationKind, success: bool): string {
    match (kind, success)
    case (Provision, true) => "Keycloak invitation completed"
    case (Provision, false) => "Keycloak invitation failed"
    case (Activate, true) => "Keycloak organization group assignment completed"
    case (Activate, false) => "Keycloak organization group assignment failed"
  }

  /** What the outcome of a call is called in the request and in the log. */
  function OutcomeNames(kind: OperationKind, success: bool): (RequestStatus, DecisionWord) {
    match (kind, success)
    case (Provision, true) => (Invited, InvitedWord)
    case (Provision, false) => (ProvisioningAmbiguous, ProvisioningAmbiguousWord)
    case (Activate, true) => (Active, ActiveWord)
    case (Activate, false) => (ActivationAmbiguous, ActivationAmbiguousWord)
  }

  /** One finished operation in all three tables: its outcome, its text and its author. */
  ghost predicate FinishedAs(t: Tables, after: Tables, key: OperationKey, success: bool, actor: string, error: string,
                             reason: string, now: Time)
  {
    var (status, word) := OutcomeNames(key.kind, success);
    && key.request in t.requests && key in t.operations
    && after.requests == t.requests[key.request := t.requests[key.request].(status := status, updatedAt := now)]
    && after.operations == t.operations[key := t.operations[key].(
         status := if success then Succeeded else Ambiguous, lastError := error, lease := now, updatedAt := now)]
    && after.decisions == t.decisions + [Decision(key.request, word, actor, reason)]
  }

  /** The exact condition for a result: its operation still runs, and its word and its status are free. */
  lemma ResultCommitsIff(cfg: Config, s: System, h: nat)
    requires ServiceInv(cfg, s) && h in s.handlers && s.handlers[h].phase.Returned?
    ensures var key := s.handlers[h].key;
            var (status, word) := OutcomeNames(key.kind, s.handlers[h].phase.success);
            Committed(cfg, s, RecordResult(h))
            <==> && key in s.tables.operations && s.tables.operations[key].status == Running
                 && key.request in s.tables.requests
                 && word in cfg.words && Alone(s.tables, key.request, status)
  {
    hide CallsInv, EvidenceInv, CatalogueInv, Inv, Advances, Record, Alone, Blocked;
    var row := s.handlers[h];
    assert HandlerInv(s, row);
    RecordCommits(s.tables, cfg.words, row.key, row.phase.success, row.operator,
                  ResultReason(row.key.kind, row.phase.success), s.now);
    if row.key.request in s.tables.requests {
      AloneIsNotBlocked(s.tables, row.key.request, OutcomeNames(row.key.kind, row.phase.success).0);
    }
  }

  /** A recorded result is written by the operator who claimed, with the text of its outcome. */
  lemma ResultIsStored(cfg: Config, s: System, h: nat)
    requires ServiceInv(cfg, s) && Committed(cfg, s, RecordResult(h))
    ensures h in s.handlers && s.handlers[h].phase.Returned?
    ensures var row, after := s.handlers[h], Next(cfg, s, RecordResult(h)).tables;
            var text := ResultText(row.key.kind, row.phase.success);
            FinishedAs(s.tables, after, row.key, row.phase.success, row.operator, text, text, s.now)
  {
    hide CallsInv, HandlersInv, EvidenceInv, CatalogueInv, Inv, Advances, Record;
    assert h in s.handlers && s.handlers[h].phase.Returned?;
    var row := s.handlers[h];
    RecordCommits(s.tables, cfg.words, row.key, row.phase.success, row.operator,
                  ResultReason(row.key.kind, row.phase.success), s.now);
  }

  /** A result that is not allowed meets the first of these refusals. */
  lemma ResultRefusals(cfg: Config, s: System, h: nat)
    requires ServiceInv(cfg, s) && h in s.handlers && s.handlers[h].phase.Returned?
    ensures var outcome := Transaction(cfg, s, RecordResult(h));
            && outcome.Some?
            && (outcome.value == Failure(OperationNotRunning)
                <==> s.handlers[h].key !in s.tables.operations
                     || s.tables.operations[s.handlers[h].key].status != Running)
            && outcome.value != Failure(StatusMoved)
  {
    hide CallsInv, HandlersInv, EvidenceInv, CatalogueInv, Inv, Twin, AlreadyDecided, Advances, Finishes;
    hide LegalActor, LegalReason, LegalOperation, ResultReason;
    var row := s.handlers[h];
    RecordCommits(s.tables, cfg.words, row.key, row.phase.success, row.operator,
                  ResultReason(row.key.kind, row.phase.success), s.now);
  }

  // ----- The reaper -----

  const REAPED_ERROR := "operation lease expired before a durable result was recorded"
  const REAPED_REASON := "external operation lease expired; manual reconciliation required"

  /** The log rows of a pass, in the order of its batch. */
  ghost predicate PassLog(before: seq<Decision>, after: seq<Decision>, batch: seq<OperationKey>, actor: string) {
    && |after| == |before| + |batch| && after[..|before|] == before
    && forall i :: 0 <= i < |batch| ==>
         after[|before| + i] == Decision(batch[i].request, OutcomeNames(batch[i].kind, false).1, actor, REAPED_REASON)
  }

  /** What a pass leaves of one operation and its request. */
  ghost predicate TakenAs(t: Tables, after: Tables, key: OperationKey, now: Time) {
    && key in t.operations && key in after.operations && key.request in after.requests
    && after.operations[key]
       == t.operations[key].(status := Ambiguous, lastError := REAPED_ERROR, lease := now, updatedAt := now)
    && after.requests[key.request].status == OutcomeNames(key.kind, false).0
  }

  lemma ReapedLog(t: Tables, batch: seq<OperationKey>, actor: string, now: Time)
    requires Reaper.RunningBatch(t, batch)
    ensures PassLog(t.decisions, Reaper.Reaped(t, batch, actor, now).decisions, batch, actor)
  {
    hide Reaper.ReapedOperation, Reaper.ReapedRequest;
  }

  lemma ReapedRow(t: Tables, words: set<DecisionWord>, batch: seq<OperationKey>, actor: string, now: Time,
                  key: OperationKey)
    requires Inv(t, words) && Reaper.RunningBatch(t, batch) && key in batch
    ensures TakenAs(t, Reaper.Reaped(t, batch, actor, now), key, now)
  {
    hide Inv;
    ReapedStatus(t, words, batch, actor, now, key);
    assert key in Reaper.Keys(batch);
  }

  /** A selected operation that can be written: running, its lease over, its word and the ambiguous status free. */
  ghost predicate MayBeReaped(cfg: Config, s: System, key: OperationKey) {
    var (status, word) := OutcomeNames(key.kind, false);
    && key in s.tables.operations && s.tables.operations[key].status == Running
    && s.tables.operations[key].lease < s.now
    && word in cfg.words && key.request in s.tables.requests && Alone(s.tables, key.request, status)
  }

  lemma ReapableRow(cfg: Config, s: System, key: OperationKey)
    ensures MayBeReaped(cfg, s, key)
            <==> Expired(s.tables, key, s.now) && Reaper.RowReapable(s.tables, cfg.words, key)
  {
    hide Blocked, Alone;
    if key.request in s.tables.requests {
      AloneIsNotBlocked(s.tables, key.request, OutcomeNames(key.kind, false).0);
    }
  }

  /** The exact condition for a pass: all of its operations can be written, none is there twice, and the actor fits. */
  lemma PassCommitsIff(cfg: Config, s: System, batch: seq<OperationKey>)
    requires ServiceInv(cfg, s)
    ensures Committed(cfg, s, RunReaper(batch))
            <==> && (forall key <- batch :: MayBeReaped(cfg, s, key))
                 && (forall i, j :: 0 <= i < j < |batch| ==> batch[i] != batch[j])
                 && (batch == [] || 1 <= |cfg.serviceActor| <= 512)
  {
    hide CallsInv, HandlersInv, EvidenceInv, CatalogueInv, Inv, Reap, MayBeReaped, Reaper.RowReapable;
    forall key
      ensures MayBeReaped(cfg, s, key)
              <==> Expired(s.tables, key, s.now) && Reaper.RowReapable(s.tables, cfg.words, key)
    {
      ReapableRow(cfg, s, key);
    }
    if Selectable(s.tables, batch, s.now) {
      Reaper.ReapCommits(s.tables, cfg.words, batch, cfg.serviceActor, s.now);
    }
  }

  /** A committed pass writes its texts in the name of the service actor, one row for each operation, in its order. */
  lemma PassIsStored(cfg: Config, s: System, batch: seq<OperationKey>)
    requires ServiceInv(cfg, s) && Committed(cfg, s, RunReaper(batch))
    ensures var after := Next(cfg, s, RunReaper(batch)).tables;
            && PassLog(s.tables.decisions, after.decisions, batch, cfg.serviceActor)
            && forall key <- batch :: TakenAs(s.tables, after, key, s.now)
  {
    hide CallsInv, HandlersInv, EvidenceInv, CatalogueInv, Inv, Reap, Reaper.BatchReapable, Reaper.Reaped;
    hide PassLog, TakenAs;
    assert Selectable(s.tables, batch, s.now);
    Reaper.ReapCommits(s.tables, cfg.words, batch, cfg.serviceActor, s.now);
    ReapedLog(s.tables, batch, cfg.serviceActor, s.now);
    forall key | key in batch
      ensures TakenAs(s.tables, Reaper.Reaped(s.tables, batch, cfg.serviceActor, s.now), key, s.now)
    {
      ReapedRow(s.tables, cfg.words, batch, cfg.serviceActor, s.now, key);
    }
  }

  // ----- Over runs -----

  /** This event is the claim of a handler by somebody entitled. */
  predicate ClaimedBy(cfg: Config, e: Event, operator: string, key: OperationKey) {
    e.StartHandler? && Entitled(cfg, e.operator) && e.operator.subject == operator && e.key == key
  }

  /** This event is a decision by somebody entitled. */
  predicate DecidedBy(cfg: Config, e: Event, d: Decision) {
    && e.DecideRequest? && Entitled(cfg, e.approver) && e.approver.subject == d.actor && e.id == d.request
    && ((e.choice == "approve" && d.word == ApprovedWord) || (e.choice == "reject" && d.word == RejectedWord))
  }

  /** Whoever holds a handler held the approver role when claiming it. */
  lemma {:induction false} OperatorsHeldRole(cfg: Config, now: Time, run: seq<Event>, h: nat) returns (i: nat)
    requires h in Run(cfg, Start(now), run).handlers
    ensures i < |run|
    ensures var row := Run(cfg, Start(now), run).handlers[h]; ClaimedBy(cfg, run[i], row.operator, row.key)
  {
    hide Entitled, TablesAfter, ServiceInv;
    assert run != [];
    var n := |run| - 1;
    var before := Run(cfg, Start(now), run[..n]);
    RunIsSafe(cfg, now, run[..n]);
    if run[n].StartHandler? && run[n].handler == h && Committed(cfg, before, run[n]) {
      i := n;
      ClaimerEntitled(cfg, before, run[n]);
    } else {
      HandlerKept(cfg, before, run[n], h);
      i := OperatorsHeldRole(cfg, now, run[..n], h);
    }
  }

  lemma ClaimerEntitled(cfg: Config, s: System, e: Event)
    requires ServiceInv(cfg, s) && e.StartHandler? && Committed(cfg, s, e)
    ensures ClaimedBy(cfg, e, e.operator.subject, e.key)
    ensures Next(cfg, s, e).handlers == s.handlers[e.handler := Handler(e.key, e.operator.subject, s.now, Claimed)]
  {
    hide ServiceInv, Entitled, Committed, Next;
    ClaimCommitsIff(cfg, s, e.handler, e.operator, e.key, e.keycloakUser);
    ClaimIsStored(cfg, s, e.handler, e.operator, e.key, e.keycloakUser);
  }

  lemma HandlerKept(cfg: Config, s: System, e: Event, h: nat)
    requires h in Next(cfg, s, e).handlers
    requires !(e.StartHandler? && e.handler == h && Committed(cfg, s, e))
    ensures h in s.handlers
    ensures Next(cfg, s, e).handlers[h].operator == s.handlers[h].operator
    ensures Next(cfg, s, e).handlers[h].key == s.handlers[h].key
  {
    hide TablesAfter;
  }

  /** Where a row of the log comes from: an entitled decision, an entitled operator, or the service itself. */
  ghost predicate Attributed(cfg: Config, run: seq<Event>, d: Decision) {
    match d.word
    case ApprovedWord | RejectedWord => exists i :: 0 <= i < |run| && DecidedBy(cfg, run[i], d)
    case InvitedWord => Operated(cfg, run, d.actor, OperationKey(d.request, Provision))
    case ActiveWord => Operated(cfg, run, d.actor, OperationKey(d.request, Activate))
    case ProvisioningAmbiguousWord =>
      d.actor == cfg.serviceActor || Operated(cfg, run, d.actor, OperationKey(d.request, Provision))
    case ActivationAmbiguousWord =>
      d.actor == cfg.serviceActor || Operated(cfg, run, d.actor, OperationKey(d.request, Activate))
    case _ => false
  }

  ghost predicate Operated(cfg: Config, run: seq<Event>, operator: string, key: OperationKey) {
    exists i :: 0 <= i < |run| && ClaimedBy(cfg, run[i], operator, key)
  }

  lemma AttributedLonger(cfg: Config, run: seq<Event>, e: Event, d: Decision)
    requires Attributed(cfg, run, d)
    ensures Attributed(cfg, run + [e], d)
  {
    hide DecidedBy, ClaimedBy;
    assert forall i :: 0 <= i < |run| ==> (run + [e])[i] == run[i];
  }

  /** The rows that one event adds. */
  lemma NewRowsAttributed(cfg: Config, now: Time, run: seq<Event>, e: Event, d: Decision)
    requires var s := Run(cfg, Start(now), run);
             d in Next(cfg, s, e).tables.decisions && d !in s.tables.decisions
    ensures Attributed(cfg, run + [e], d)
  {
    hide Run, ServiceInv, Next, Committed, DecidedBy, ClaimedBy, Entitled;
    var s := Run(cfg, Start(now), run);
    RunIsSafe(cfg, now, run);
    OnlyThreeWrite(cfg, s, e);
    assert (run + [e])[|run|] == e;
    match e
    case DecideRequest(approver, id, choice, reason) =>
      DeciderEntitled(cfg, s, e, d);
    case RecordResult(h) =>
      ResultAttributed(cfg, now, run, h, d);
    case RunReaper(batch) =>
      PassIsStored(cfg, s, batch);
      PassRowIsTheReapers(s.tables.decisions, Next(cfg, s, e).tables.decisions, batch, cfg.serviceActor, d);
  }

  lemma ResultAttributed(cfg: Config, now: Time, run: seq<Event>, h: nat, d: Decision)
    requires ServiceInv(cfg, Run(cfg, Start(now), run))
    requires var s := Run(cfg, Start(now), run);
             && Committed(cfg, s, RecordResult(h))
             && d in Next(cfg, s, RecordResult(h)).tables.decisions && d !in s.tables.decisions
    ensures Attributed(cfg, run + [RecordResult(h)], d)
  {
    hide Run, ServiceInv, Next, Committed, ClaimedBy, Operated;
    var s, longer := Run(cfg, Start(now), run), run + [RecordResult(h)];
    ResultIsStored(cfg, s, h);
    var i := OperatorsHeldRole(cfg, now, run, h);
    assert longer[i] == run[i];
    OperatedAt(cfg, longer, i, s.handlers[h].operator, s.handlers[h].key);
    assert s.handlers[h].key == OperationKey(d.request, s.handlers[h].key.kind);
  }

  lemma OperatedAt(cfg: Config, run: seq<Event>, i: nat, operator: string, key: OperationKey)
    requires i < |run| && ClaimedBy(cfg, run[i], operator, key)
    ensures Operated(cfg, run, operator, key)
  {
  }

  lemma PassRowIsTheReapers(before: seq<Decision>, after: seq<Decision>, batch: seq<OperationKey>, actor: string,
                            d: Decision)
    requires PassLog(before, after, batch, actor) && d in after && d !in before
    ensures d.actor == actor && d.word in {ProvisioningAmbiguousWord, ActivationAmbiguousWord}
  {
    assert after == after[..|before|] + after[|before|..];
    var i :| 0 <= i < |batch| && after[|before|..][i] == d;
    assert after[|before| + i] == d;
    assert d == Decision(batch[i].request, OutcomeNames(batch[i].kind, false).1, actor, REAPED_REASON);
  }

  lemma DeciderEntitled(cfg: Config, s: System, e: Event, d: Decision)
    requires ServiceInv(cfg, s) && e.DecideRequest? && Committed(cfg, s, e)
    requires d in Next(cfg, s, e).tables.decisions && d !in s.tables.decisions
    ensures DecidedBy(cfg, e, d) && d.word in {ApprovedWord, RejectedWord}
  {
    hide ServiceInv, Next, Committed, Entitled, Alone;
    DecisionCommitsIff(cfg, s, e.approver, e.id, e.choice, e.reason);
    DecisionIsStored(cfg, s, e.approver, e.id, e.choice, e.reason);
  }

  lemma OnlyThreeWrite(cfg: Config, s: System, e: Event)
    requires ServiceInv(cfg, s) && Next(cfg, s, e).tables.decisions != s.tables.decisions
    ensures Committed(cfg, s, e) && (e.DecideRequest? || e.RecordResult? || e.RunReaper?)
  {
    hide ServiceInv, Inv, Create, Claim, Decide, Record, Reap, Acceptable, Normalized, Approver, UsableKeycloakUser;
    hide Text.TrimSpace, Advances, Claims, Authenticated;
    assert Inv(s.tables, cfg.words) by {
      InvOf(cfg, s);
    }
    match e
    case SubmitRequest(id, requester, input) =>
      CreateCommits(s.tables, cfg.words, id, IdentityOf(Normalized(input), requester), s.now);
    case StartHandler(h, operator, key, user) =>
      if Committed(cfg, s, e) {
        ClaimIsStored(cfg, s, h, operator, key, user);
      }
    case _ =>
  }

  lemma InvOf(cfg: Config, s: System)
    requires ServiceInv(cfg, s)
    ensures Inv(s.tables, cfg.words)
  {
  }

  /**
   In every run, every row of every log is attributed: approvals and rejections to somebody who held the
   approver role at the decision, results to somebody who held it at the claim, and only ambiguous results
   otherwise to the service itself.
   */
  lemma {:induction false} LogIsAttributed(cfg: Config, now: Time, run: seq<Event>, d: Decision)
    requires d in Run(cfg, Start(now), run).tables.decisions
    ensures Attributed(cfg, run, d)
  {
    hide Next, Attributed;
    assert run != [];
    var init, e := run[..|run| - 1], run[|run| - 1];
    assert run == init + [e];
    if d in Run(cfg, Start(now), init).tables.decisions {
      LogIsAttributed(cfg, now, init, d);
      AttributedLonger(cfg, init, e, d);
    } else {
      NewRowsAttributed(cfg, now, init, e, d);
    }
  }
}
