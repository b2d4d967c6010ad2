/**
 The running service: any number of HTTP handlers and the reaper, interleaved at every transaction, with
 crashes between steps and a clock that only moves forward. A run is any sequence of events; an event
 that is not enabled leaves the system as it is, which also stands for a transaction the database aborts.
 */
module OnboardingService {
  import opened Wrappers
  import Text
  import opened OnboardingSchema
  import opened OnboardingTransactions
  import opened SubmitInputs

  /** How long an external call may take. */
  const CALL_TIMEOUT: Time := 20 * SECOND

  datatype Principal = Principal(subject: string, roles: seq<string>)

  datatype Config = Config(
    words: set<DecisionWord>,
    serviceActor: string,
    approverRole: string,
    organization: string,
    allowedRoles: set<string>,
    parse: AddressParser)

  /** Where a handler is between its claim and its recorded result. */
  datatype Phase = Claimed | Calling(startedAt: Time) | Returned(success: bool)

  datatype Handler = Handler(key: OperationKey, operator: string, claimedAt: Time, phase: Phase)

  /** One external call, InviteUser or AssignApprovedRoleGroups, and how many decision rows existed when it began. */
  datatype Call = Call(key: OperationKey, decisionsBefore: nat)

  datatype System = System(
    tables: Tables,
    now: Time,
    handlers: map<nat, Handler>,
    calls: seq<Call>,
    completed: set<OperationKey>)

  datatype Event =
    | SubmitRequest(id: RequestId, requester: Principal, input: SubmitInput)
    | DecideRequest(approver: Principal, id: RequestId, choice: string, reason: string)
    | StartHandler(handler: nat, operator: Principal, key: OperationKey, keycloakUser: string)
    | BeginCall(handler: nat)
    | EndCall(handler: nat, success: bool)
    | RecordResult(handler: nat)
    | Crash(handler: nat)
    | RunReaper(batch: seq<OperationKey>)
    | Tick(to: Time)

  /** An authenticated subject is trimmed, present and at most 512 bytes. */
  predicate Authenticated(p: Principal) {
    Text.TrimSpace(p.subject) == p.subject && p.subject != "" && Text.ByteLen(p.subject) <= 512
  }

  /** The privileged routes also require the approver role. */
  predicate Approver(cfg: Config, p: Principal) {
    Authenticated(p) && cfg.approverRole in p.roles
  }

  function IdentityOf(input: SubmitInput, requester: Principal): Identity {
    Identity(input.organization, input.email, input.firstName, input.lastName, input.roles, requester.subject)
  }

  function ResultReason(kind: OperationKind, success: bool): string {
    match kind
    case Provision => if success then "Keycloak invitation completed" else "Keycloak invitation failed"
    case Activate => if success then "Keycloak organization group assignment completed"
                     else "Keycloak organization group assignment failed"
  }

  predicate UsableKeycloakUser(user: string) {
    !Text.IsBlank(user) && Text.ByteLen(user) <= 512
  }

  /** The transaction an event asks for, if the handler lets it reach the store. */
  function Transaction(cfg: Config, s: System, e: Event): Option<Result<Tables, Refusal>> {
    match e
    case SubmitRequest(id, requester, input) =>
      var normalized := Normalized(input);
      if Authenticated(requester) && Acceptable(normalized, cfg.organization, cfg.allowedRoles, cfg.parse) then
        Some(Create(s.tables, id, IdentityOf(normalized, requester), s.now))
      else None
    case DecideRequest(approver, id, choice, reason) =>
      if Approver(cfg, approver) && choice in ["approve", "reject"] then
        Some(Decide(s.tables, cfg.words, id, approver.subject, choice, Text.TrimSpace(reason), s.now))
      else None
    case StartHandler(handler, operator, key, keycloakUser) =>
      if Approver(cfg, operator) && handler !in s.handlers && (key.kind.Activate? ==> UsableKeycloakUser(keycloakUser))
      then
        Some(Claim(s.tables, key, Text.TrimSpace(keycloakUser), s.now))
      else None
    case RecordResult(handler) =>
      if handler in s.handlers && s.handlers[handler].phase.Returned? then
        var h := s.handlers[handler];
        Some(Record(s.tables, cfg.words, h.key, h.phase.success, h.operator,
                    ResultReason(h.key.kind, h.phase.success), s.now))
      else None
    case RunReaper(batch) =>
      if Selectable(s.tables, batch, s.now) then Some(Reap(s.tables, cfg.words, batch, cfg.serviceActor, s.now))
      else None
    case _ => None
  }

  function TablesAfter(cfg: Config, s: System, e: Event): Tables {
    var transaction := Transaction(cfg, s, e);
    if transaction.Some? then After(s.tables, transaction.value) else s.tables
  }

  function HandlersAfter(cfg: Config, s: System, e: Event): map<nat, Handler> {
    match e
    case StartHandler(handler, operator, key, _) =>
      var claim := Transaction(cfg, s, e);
      if claim.Some? && claim.value.Success? then
        s.handlers[handler := Handler(key, operator.subject, s.now, Claimed)]
      else s.handlers
    case BeginCall(handler) =>
      if handler in s.handlers && s.handlers[handler].phase.Claimed? then
        s.handlers[handler := s.handlers[handler].(phase := Calling(s.now))]
      else s.handlers
    case EndCall(handler, success) =>
      if handler in s.handlers && s.handlers[handler].phase.Calling? then
        s.handlers[handler := s.handlers[handler].(phase := Returned(success))]
      else s.handlers
    case RecordResult(handler) =>
      if handler in s.handlers && s.handlers[handler].phase.Returned? then s.handlers - {handler} else s.handlers
    case Crash(handler) => s.handlers - {handler}
    case _ => s.handlers
  }

  function CallsAfter(s: System, e: Event): seq<Call> {
    if e.BeginCall? && e.handler in s.handlers && s.handlers[e.handler].phase.Claimed? then
      s.calls + [Call(s.handlers[e.handler].key, |s.tables.decisions|)]
    else s.calls
  }

  function CompletedAfter(s: System, e: Event): set<OperationKey> {
    if e.EndCall? && e.success && e.handler in s.handlers && s.handlers[e.handler].phase.Calling? then
      s.completed + {s.handlers[e.handler].key}
    else s.completed
  }

  /** Time passes, but never beyond the timeout of a call in flight: the call has ended by then. */
  function TimeAfter(s: System, e: Event): Time {
    if && e.Tick? && s.now <= e.to
       && (forall h <- s.handlers.Keys ::
             s.handlers[h].phase.Calling? ==> e.to <= s.handlers[h].phase.startedAt + CALL_TIMEOUT)
    then e.to else s.now
  }

  function Next(cfg: Config, s: System, e: Event): System {
    System(TablesAfter(cfg, s, e), TimeAfter(s, e), HandlersAfter(cfg, s, e), CallsAfter(s, e), CompletedAfter(s, e))
  }

  function Start(now: Time): System {
    System(EMPTY, now, map[], [], {})
  }

  /** The state after a whole run. */
  function Run(cfg: Config, s: System, run: seq<Event>): System {
    if run == [] then s else Next(cfg, Run(cfg, s, run[..|run| - 1]), run[|run| - 1])
  }

  lemma {:induction false} RunConcat(cfg: Config, s: System, a: seq<Event>, b: seq<Event>)
    ensures Run(cfg, s, a + b) == Run(cfg, Run(cfg, s, a), b)
  {
    if b == [] {
      assert a + b == a;
    } else {
      assert (a + b)[..|a + b| - 1] == a + b[..|b| - 1];
      RunConcat(cfg, s, a, b[..|b| - 1]);
    }
  }
}
