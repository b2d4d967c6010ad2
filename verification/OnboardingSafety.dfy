/** What holds in every state of every run of the service. */
module OnboardingSafety {
  import opened Wrappers
  import Text
  import opened OnboardingSchema
  import opened OnboardingTransactions
  import opened OnboardingInvariant
  import opened OnboardingCommits
  import opened OnboardingService
  import opened DecisionLog
  import opened SubmitInputs
  import Reaper

  // ----- What no transaction undoes -----

  /**
   `after` is a later state than `t`: no row is gone, identities and decision rows are as they were, and an
   operation that has an outcome keeps its whole row.
   */
  ghost predicate Grows(t: Tables, after: Tables) {
    && (forall id <- t.requests.Keys :: id in after.requests && after.requests[id].identity == t.requests[id].identity)
    && (forall key <- t.operations.Keys ::
          key in after.operations && KeepsOutcome(t.operations[key], after.operations[key]))
    && t.decisions <= after.decisions
  }

  predicate KeepsOutcome(before: Operation, after: Operation) {
    after == before
    || (before.status == Running && after.status != Running && after.keycloakUser == before.keycloakUser)
  }

  lemma GrowsReflexive(t: Tables)
    ensures Grows(t, t)
  {
  }

  lemma FinishGrows(t: Tables, after: Tables, key: OperationKey, success: bool, actor: string, error: string,
                    reason: string, now: Time)
    requires Finishes(t, after, key, success, actor, error, reason, now) && t.operations[key].status == Running
    ensures Grows(t, after)
  {
  }

  lemma ReapedGrows(t: Tables, batch: seq<OperationKey>, actor: string, now: Time)
    requires Reaper.RunningBatch(t, batch)
    ensures Grows(t, Reaper.Reaped(t, batch, actor, now))
  {
  }

  lemma CreateKeeps(t: Tables, words: set<DecisionWord>, id: RequestId, identity: Identity, now: Time)
    requires Inv(t, words)
    ensures Inv(After(t, Create(t, id, identity, now)), words)
    ensures Grows(t, After(t, Create(t, id, identity, now)))
  {
    hide Inv;
    CreateCommits(t, words, id, identity, now);
  }

  lemma ClaimKeeps(t: Tables, words: set<DecisionWord>, key: OperationKey, keycloakUser: string, now: Time)
    requires Inv(t, words)
    ensures Inv(After(t, Claim(t, key, keycloakUser, now)), words)
    ensures Grows(t, After(t, Claim(t, key, keycloakUser, now)))
  {
    hide Inv, Advances;
    ClaimCommits(t, words, key, keycloakUser, now);
  }

  lemma DecideKeeps(t: Tables, words: set<DecisionWord>, id: RequestId, approver: string, choice: string,
                    reason: string, now: Time)
    requires Inv(t, words)
    ensures Inv(After(t, Decide(t, words, id, approver, choice, reason, now)), words)
    ensures Grows(t, After(t, Decide(t, words, id, approver, choice, reason, now)))
  {
    hide Inv, Advances;
    DecideCommits(t, words, id, approver, choice, reason, now);
  }

  lemma RecordKeeps(t: Tables, words: set<DecisionWord>, key: OperationKey, success: bool, actor: string,
                    reason: string, now: Time)
    requires Inv(t, words)
    ensures Inv(After(t, Record(t, words, key, success, actor, reason, now)), words)
    ensures Grows(t, After(t, Record(t, words, key, success, actor, reason, now)))
  {
    hide Inv, Advances, Grows, Finishes;
    GrowsReflexive(t);
    RecordCommits(t, words, key, success, actor, reason, now);
    var outcome := Record(t, words, key, success, actor, reason, now);
    if outcome.Success? {
      FinishGrows(t, outcome.value, key, success, actor, reason, reason, now);
    }
  }

  lemma ReapKeeps(t: Tables, words: set<DecisionWord>, batch: seq<OperationKey>, actor: string, now: Time)
    requires Inv(t, words) && Selectable(t, batch, now)
    ensures Inv(After(t, Reap(t, words, batch, actor, now)), words)
    ensures Grows(t, After(t, Reap(t, words, batch, actor, now)))
  {
    hide Inv, Grows, Reaper.Reaped, Reaper.BatchReapable;
    GrowsReflexive(t);
    Reaper.ReapCommits(t, words, batch, actor, now);
    ReapedGrows(t, batch, actor, now);
  }

  /** Each committed transaction keeps the coupling and grows the tables; nothing else changes them. */
  lemma TablesKeep(cfg: Config, s: System, e: Event)
    requires Inv(s.tables, cfg.words)
    ensures Inv(Next(cfg, s, e).tables, cfg.words)
    ensures Grows(s.tables, Next(cfg, s, e).tables)
  {
    hide Inv, Grows;
    var t := s.tables;
    GrowsReflexive(t);
    match e
    case SubmitRequest(id, requester, input) =>
      CreateKeeps(t, cfg.words, id, IdentityOf(Normalized(input), requester), s.now);
    case DecideRequest(approver, id, choice, reason) =>
      DecideKeeps(t, cfg.words, id, approver.subject, choice, Text.TrimSpace(reason), s.now);
    case StartHandler(handler, operator, key, keycloakUser) =>
      ClaimKeeps(t, cfg.words, key, Text.TrimSpace(keycloakUser), s.now);
    case RecordResult(handler) =>
      if handler in s.handlers && s.handlers[handler].phase.Returned? {
        var h := s.handlers[handler];
        RecordKeeps(t, cfg.words, h.key, h.phase.success, h.operator,
                    ResultReason(h.key.kind, h.phase.success), s.now);
      }
    case RunReaper(batch) =>
      if Selectable(t, batch, s.now) {
        ReapKeeps(t, cfg.words, batch, cfg.serviceActor, s.now);
      }
    case _ =>
  }

  // ----- Handlers and their external calls -----

  ghost predicate Called(calls: seq<Call>, key: OperationKey) {
    exists call <- calls :: call.key == key
  }

  /** When the call began, the log of its request read `approved`, and for a group assignment `approved, invited`. */
  ghost predicate Justified(t: Tables, call: Call) {
    && call.key in t.operations
    && call.decisionsBefore <= |t.decisions|
    && Trail(ClaimableStatus(call.key.kind)) <= Words(t.decisions[..call.decisionsBefore], call.key.request)
  }

  /** No two calls are for the same request and kind. */
  ghost predicate CallsInv(s: System) {
    && (forall call <- s.calls :: Justified(s.tables, call))
    && (forall i, j :: 0 <= i < j < |s.calls| ==> s.calls[i].key != s.calls[j].key)
  }

  /** What a handler can rely on, wherever it is. */
  ghost predicate HandlerInv(s: System, h: Handler) {
    && h.key in s.tables.operations
    && (s.tables.operations[h.key].status == Running ==> s.tables.operations[h.key].lease == h.claimedAt + LEASE)
    && h.claimedAt <= s.now
    && LegalActor(h.operator)
    && match h.phase
       case Claimed => !Called(s.calls, h.key)
       case Calling(startedAt) =>
         Called(s.calls, h.key) && h.claimedAt <= startedAt <= s.now <= startedAt + CALL_TIMEOUT
       case Returned(success) => Called(s.calls, h.key) && (success ==> h.key in s.completed)
  }

  ghost predicate HandlersInv(s: System) {
    && (forall h <- s.handlers.Keys :: HandlerInv(s, s.handlers[h]))
    && (forall h, g | h in s.handlers && g in s.handlers && h != g :: s.handlers[h].key != s.handlers[g].key)
  }

  /** An operation is recorded as succeeded only if its call was made and returned success. */
  ghost predicate EvidenceInv(s: System) {
    && (forall key <- s.completed :: Called(s.calls, key))
    && (forall key <- s.tables.operations.Keys :: s.tables.operations[key].status == Succeeded ==> key in s.completed)
  }

  /** Every stored request is for the configured organization and asks for distinct catalogue roles. */
  ghost predicate CatalogueInv(cfg: Config, s: System) {
    forall id <- s.tables.requests.Keys ::
      var identity := s.tables.requests[id].identity;
      && identity.organization == cfg.organization
      && (forall role <- identity.roles :: role in cfg.allowedRoles)
      && Distinct(identity.roles)
  }

  ghost predicate ServiceInv(cfg: Config, s: System) {
    Inv(s.tables, cfg.words) && CallsInv(s) && HandlersInv(s) && EvidenceInv(s) && CatalogueInv(cfg, s)
  }

  /** An operation row shows that its claim was allowed, whatever happened since. */
  lemma OperationShowsApproval(t: Tables, words: set<DecisionWord>, key: OperationKey)
    requires Inv(t, words) && key in t.operations
    ensures Trail(ClaimableStatus(key.kind)) <= Words(t.decisions, key.request)
  {
    hide UniquePersonStatus, OneOutcome, Words;
    assert key == OperationKey(key.request, key.kind);
    InvCoupled(t, words, key.request);
    hide Inv;
    assert OperationState(t, key) == ExpectedOperation(key.kind, t.requests[key.request].status);
  }

  lemma JustifiedStays(t: Tables, after: Tables, call: Call)
    requires Grows(t, after) && Justified(t, call)
    ensures Justified(after, call)
  {
    assert after.decisions[..call.decisionsBefore] == t.decisions[..call.decisionsBefore];
  }

  lemma NewCallJustified(words: set<DecisionWord>, t: Tables, key: OperationKey)
    requires Inv(t, words) && key in t.operations
    ensures Justified(t, Call(key, |t.decisions|))
  {
    OperationShowsApproval(t, words, key);
    hide Inv;
    assert t.decisions[..|t.decisions|] == t.decisions;
  }

  lemma CallsKeep(words: set<DecisionWord>, s: System, e: Event, after: Tables)
    requires Inv(s.tables, words) && CallsInv(s) && HandlersInv(s) && Grows(s.tables, after)
    ensures forall call <- CallsAfter(s, e) :: Justified(after, call)
    ensures forall i, j :: 0 <= i < j < |CallsAfter(s, e)| ==> CallsAfter(s, e)[i].key != CallsAfter(s, e)[j].key
  {
    var calls := CallsAfter(s, e);
    if calls != s.calls {
      var h := s.handlers[e.handler];
      assert HandlerInv(s, h) && !Called(s.calls, h.key);
      NewCallJustified(words, s.tables, h.key);
    }
    hide Inv, Grows, Justified, HandlerInv;
    forall call | call in calls
      ensures Justified(after, call)
    {
      JustifiedStays(s.tables, after, call);
    }
  }

  lemma HandlerStays(s: System, next: System, h: Handler)
    requires HandlerInv(s, h) && Grows(s.tables, next.tables)
    requires s.now <= next.now && s.calls <= next.calls && s.completed <= next.completed
    requires h.phase.Calling? ==> next.now <= h.phase.startedAt + CALL_TIMEOUT
    requires h.phase.Claimed? ==> !Called(next.calls, h.key)
    ensures HandlerInv(next, h)
  {
    if Called(s.calls, h.key) {
      var call :| call in s.calls && call.key == h.key;
      assert call in next.calls;
    }
  }

  /** Time moves forward, and no call in flight outlives its timeout. */
  lemma TimeKeeps(s: System, e: Event)
    ensures s.now <= TimeAfter(s, e)
    ensures forall g <- s.handlers.Keys :: s.handlers[g].phase.Calling? ==>
              TimeAfter(s, e) == s.now || TimeAfter(s, e) <= s.handlers[g].phase.startedAt + CALL_TIMEOUT
  {
  }

  /** The event is handler `g` beginning or ending its call. */
  predicate Moves(s: System, e: Event, g: nat)
    requires g in s.handlers
  {
    || (e.BeginCall? && e.handler == g && s.handlers[g].phase.Claimed?)
    || (e.EndCall? && e.handler == g && s.handlers[g].phase.Calling?)
  }

  /** A handler that the event does not move. */
  lemma IdleHandlerKeeps(s: System, e: Event, after: Tables, g: nat)
    requires HandlersInv(s) && Grows(s.tables, after) && g in s.handlers
    requires !Moves(s, e, g)
    ensures HandlerInv(System(after, TimeAfter(s, e), s.handlers, CallsAfter(s, e), CompletedAfter(s, e)),
                       s.handlers[g])
  {
    var next := System(after, TimeAfter(s, e), s.handlers, CallsAfter(s, e), CompletedAfter(s, e));
    assert HandlerInv(s, s.handlers[g]);
    TimeKeeps(s, e);
    hide Grows, TimeAfter;
    HandlerStays(s, next, s.handlers[g]);
  }

  /** HandlerInv looks at everything but the other handlers. */
  lemma HandlerInvLocal(s: System, next: System, h: Handler)
    requires HandlerInv(s, h)
    requires next.tables == s.tables && next.now == s.now && next.calls == s.calls && next.completed == s.completed
    ensures HandlerInv(next, h)
  {
  }

  /** The handler that begins or ends its call. */
  lemma MovedHandlerKeeps(cfg: Config, s: System, e: Event)
    requires HandlersInv(s) && (e.BeginCall? || e.EndCall?)
    requires e.handler in s.handlers && Moves(s, e, e.handler)
    ensures e.handler in HandlersAfter(cfg, s, e)
    ensures HandlerInv(Next(cfg, s, e), HandlersAfter(cfg, s, e)[e.handler])
  {
    var next, h := Next(cfg, s, e), s.handlers[e.handler];
    assert HandlerInv(s, h);
    if e.BeginCall? {
      assert next.calls[|s.calls|].key == h.key && next.calls[|s.calls|] in next.calls;
    }
  }

  /** A handler starts only with a committed claim. */
  lemma StartShape(cfg: Config, s: System, e: Event)
    requires e.StartHandler? && HandlersAfter(cfg, s, e) != s.handlers
    ensures Approver(cfg, e.operator) && e.handler !in s.handlers
    ensures HandlersAfter(cfg, s, e) == s.handlers[e.handler := Handler(e.key, e.operator.subject, s.now, Claimed)]
    ensures Claim(s.tables, e.key, Text.TrimSpace(e.keycloakUser), s.now) == Success(TablesAfter(cfg, s, e))
  {
    hide Text.TrimSpace, Claim;
  }

  /** The handler that just claimed its operation: nobody has called for it yet. */
  lemma NewHandlerKeeps(cfg: Config, s: System, e: Event)
    requires Inv(s.tables, cfg.words) && CallsInv(s) && e.StartHandler?
    requires HandlersAfter(cfg, s, e) != s.handlers
    ensures e.key !in s.tables.operations
    ensures HandlerInv(Next(cfg, s, e), Handler(e.key, e.operator.subject, s.now, Claimed))
  {
    hide Inv, Advances, Text.TrimSpace, TablesAfter, HandlersAfter, Claim, ClaimAllowed, Justified;
    StartShape(cfg, s, e);
    ClaimCommits(s.tables, cfg.words, e.key, Text.TrimSpace(e.keycloakUser), s.now);
    JustifiedKeys(s);
  }

  lemma JustifiedKeys(s: System)
    requires CallsInv(s)
    ensures forall key :: Called(s.calls, key) ==> key in s.tables.operations
  {
  }

  /** Every handler after the event is an old one, the one that moved, or the one that started. */
  lemma HandlersShape(cfg: Config, s: System, e: Event, g: nat)
    requires g in HandlersAfter(cfg, s, e)
    ensures g in s.handlers ==> HandlersAfter(cfg, s, e)[g].key == s.handlers[g].key
    ensures g in s.handlers && !Moves(s, e, g) ==> HandlersAfter(cfg, s, e)[g] == s.handlers[g]
    ensures g !in s.handlers ==> e.StartHandler? && e.handler == g && HandlersAfter(cfg, s, e) != s.handlers
  {
    hide Transaction;
    if e.StartHandler? && HandlersAfter(cfg, s, e) != s.handlers {
      StartShape(cfg, s, e);
    }
  }

  lemma HandlerKeeps(cfg: Config, s: System, e: Event, g: nat)
    requires Inv(s.tables, cfg.words) && CallsInv(s) && HandlersInv(s) && Grows(s.tables, TablesAfter(cfg, s, e))
    requires g in HandlersAfter(cfg, s, e)
    ensures HandlerInv(Next(cfg, s, e), HandlersAfter(cfg, s, e)[g])
  {
    hide Inv, CallsInv, HandlersInv, Grows, TablesAfter, HandlersAfter, Claim;
    HandlersShape(cfg, s, e, g);
    if g !in s.handlers {
      StartShape(cfg, s, e);
      NewHandlerKeeps(cfg, s, e);
    } else if Moves(s, e, g) {
      MovedHandlerKeeps(cfg, s, e);
    } else {
      var after := TablesAfter(cfg, s, e);
      IdleHandlerKeeps(s, e, after, g);
      HandlerInvLocal(System(after, TimeAfter(s, e), s.handlers, CallsAfter(s, e), CompletedAfter(s, e)),
                      Next(cfg, s, e), s.handlers[g]);
    }
  }

  lemma HandlersKeep(cfg: Config, s: System, e: Event)
    requires Inv(s.tables, cfg.words) && CallsInv(s) && HandlersInv(s) && Grows(s.tables, TablesAfter(cfg, s, e))
    ensures HandlersInv(Next(cfg, s, e))
  {
    hide Inv, CallsInv, Grows, TablesAfter, HandlersAfter, HandlerInv;
    var after := HandlersAfter(cfg, s, e);
    forall g | g in after.Keys
      ensures HandlerInv(Next(cfg, s, e), after[g])
    {
      HandlerKeeps(cfg, s, e, g);
    }
    forall h, g | h in after && g in after && h != g
      ensures after[h].key != after[g].key
    {
      HandlersShape(cfg, s, e, h);
      HandlersShape(cfg, s, e, g);
      if h !in s.handlers || g !in s.handlers {
        StartShape(cfg, s, e);
        NewHandlerKeeps(cfg, s, e);
        HandlerKeysKnown(s);
      }
    }
  }

  lemma HandlerKeysKnown(s: System)
    requires HandlersInv(s)
    ensures forall g <- s.handlers.Keys :: s.handlers[g].key in s.tables.operations
  {
    forall g | g in s.handlers.Keys
      ensures s.handlers[g].key in s.tables.operations
    {
      assert HandlerInv(s, s.handlers[g]);
    }
  }

  // ----- Evidence and catalogue -----

  /** The only way to a succeeded operation is to record a call that returned success. */
  lemma NewlySucceeded(cfg: Config, s: System, e: Event, key: OperationKey)
    requires Inv(s.tables, cfg.words)
    requires key in TablesAfter(cfg, s, e).operations && TablesAfter(cfg, s, e).operations[key].status == Succeeded
    requires key in s.tables.operations ==> s.tables.operations[key].status != Succeeded
    ensures e.RecordResult? && e.handler in s.handlers
    ensures s.handlers[e.handler].key == key && s.handlers[e.handler].phase == Returned(true)
  {
    var t := s.tables;
    hide Inv, Advances, Text.TrimSpace, ResultReason;
    match e
    case StartHandler(_, _, claimed, user) =>
      ClaimCommits(t, cfg.words, claimed, Text.TrimSpace(user), s.now);
    case DecideRequest(approver, id, choice, reason) =>
      DecideCommits(t, cfg.words, id, approver.subject, choice, Text.TrimSpace(reason), s.now);
    case RecordResult(handler) =>
      if handler in s.handlers && s.handlers[handler].phase.Returned? {
        var h := s.handlers[handler];
        RecordCommits(t, cfg.words, h.key, h.phase.success, h.operator,
                      ResultReason(h.key.kind, h.phase.success), s.now);
      }
    case RunReaper(batch) =>
      if Selectable(t, batch, s.now) {
        Reaper.ReapCommits(t, cfg.words, batch, cfg.serviceActor, s.now);
      }
    case _ =>
  }

  lemma EvidenceKeep(cfg: Config, s: System, e: Event)
    requires Inv(s.tables, cfg.words) && HandlersInv(s) && EvidenceInv(s)
    ensures EvidenceInv(Next(cfg, s, e))
  {
    var next := Next(cfg, s, e);
    hide Inv, TablesAfter, HandlersAfter;
    forall key | key in next.tables.operations.Keys && next.tables.operations[key].status == Succeeded
      ensures key in next.completed
    {
      if !(key in s.tables.operations && s.tables.operations[key].status == Succeeded) {
        NewlySucceeded(cfg, s, e, key);
        assert HandlerInv(s, s.handlers[e.handler]);
      }
    }
    forall key | key in next.completed
      ensures Called(next.calls, key)
    {
      if key !in s.completed {
        assert HandlerInv(s, s.handlers[e.handler]);
      }
      var call :| call in s.calls && call.key == key;
      assert call in next.calls;
    }
  }

  /** The only way into the request table is an accepted submission. */
  lemma NewlySubmitted(cfg: Config, s: System, e: Event, id: RequestId)
    requires Inv(s.tables, cfg.words)
    requires id in TablesAfter(cfg, s, e).requests && id !in s.tables.requests
    ensures e.SubmitRequest? && Acceptable(Normalized(e.input), cfg.organization, cfg.allowedRoles, cfg.parse)
    ensures TablesAfter(cfg, s, e).requests[id].identity == IdentityOf(Normalized(e.input), e.requester)
  {
    var t := s.tables;
    hide Inv, Acceptable, Normalized, ResultReason, Text.TrimSpace;
    match e
    case StartHandler(_, _, claimed, user) =>
      ClaimCommits(t, cfg.words, claimed, Text.TrimSpace(user), s.now);
    case DecideRequest(approver, id, choice, reason) =>
      DecideCommits(t, cfg.words, id, approver.subject, choice, Text.TrimSpace(reason), s.now);
    case RecordResult(handler) =>
      if handler in s.handlers && s.handlers[handler].phase.Returned? {
        var h := s.handlers[handler];
        RecordCommits(t, cfg.words, h.key, h.phase.success, h.operator,
                      ResultReason(h.key.kind, h.phase.success), s.now);
      }
    case RunReaper(batch) =>
      if Selectable(t, batch, s.now) {
        Reaper.ReapCommits(t, cfg.words, batch, cfg.serviceActor, s.now);
      }
    case _ =>
  }

  lemma CatalogueKeep(cfg: Config, s: System, e: Event)
    requires Inv(s.tables, cfg.words) && CatalogueInv(cfg, s) && Grows(s.tables, TablesAfter(cfg, s, e))
    ensures CatalogueInv(cfg, Next(cfg, s, e))
  {
    hide Inv, TablesAfter, Acceptable, Normalized, Distinct;
    forall id | id in TablesAfter(cfg, s, e).requests.Keys
      ensures var identity := TablesAfter(cfg, s, e).requests[id].identity;
              && identity.organization == cfg.organization
              && (forall role <- identity.roles :: role in cfg.allowedRoles)
              && Distinct(identity.roles)
    {
      if id !in s.tables.requests {
        NewlySubmitted(cfg, s, e, id);
        NormalizedRoles(e.input, cfg.organization, cfg.allowedRoles, cfg.parse);
      }
    }
  }

  // ----- Every run -----

  lemma StepKeeps(cfg: Config, s: System, e: Event)
    requires ServiceInv(cfg, s)
    ensures ServiceInv(cfg, Next(cfg, s, e))
    ensures Grows(s.tables, Next(cfg, s, e).tables)
  {
    TablesKeep(cfg, s, e);
    CallsKeep(cfg.words, s, e, TablesAfter(cfg, s, e));
    hide Inv, Grows, HandlersInv, EvidenceInv, CatalogueInv, TablesAfter, HandlersAfter, Justified;
    HandlersKeep(cfg, s, e);
    EvidenceKeep(cfg, s, e);
    CatalogueKeep(cfg, s, e);
  }

  lemma {:induction false} RunKeeps(cfg: Config, s: System, run: seq<Event>)
    requires ServiceInv(cfg, s)
    ensures ServiceInv(cfg, Run(cfg, s, run))
  {
    hide ServiceInv, Next;
    if run != [] {
      RunKeeps(cfg, s, run[..|run| - 1]);
      StepKeeps(cfg, Run(cfg, s, run[..|run| - 1]), run[|run| - 1]);
    }
  }

  /** The whole invariant holds in every state of every run of a fresh service, for any set of allowed words. */
  lemma RunIsSafe(cfg: Config, now: Time, run: seq<Event>)
    ensures ServiceInv(cfg, Run(cfg, Start(now), run))
  {
    assert ServiceInv(cfg, Start(now));
    RunKeeps(cfg, Start(now), run);
  }

  lemma GrowsTransitive(a: Tables, b: Tables, c: Tables)
    requires Grows(a, b) && Grows(b, c)
    ensures Grows(a, c)
  {
  }

  /** Nothing that is in the tables is ever taken back, over any stretch of any run. */
  lemma {:induction false} RunGrows(cfg: Config, s: System, run: seq<Event>)
    requires ServiceInv(cfg, s)
    ensures Grows(s.tables, Run(cfg, s, run).tables)
  {
    hide ServiceInv, Next, Grows;
    GrowsReflexive(s.tables);
    if run != [] {
      var before := Run(cfg, s, run[..|run| - 1]);
      RunGrows(cfg, s, run[..|run| - 1]);
      RunKeeps(cfg, s, run[..|run| - 1]);
      StepKeeps(cfg, before, run[|run| - 1]);
      GrowsTransitive(s.tables, before.tables, Run(cfg, s, run).tables);
    }
  }
}
