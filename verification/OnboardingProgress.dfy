/**
 The guards leave a way through. From any reachable state a new request can be taken to every status that
 is reachable at all, as long as no other request of its person stands in the way; and so the bound on the
 requests of one person is reached.
 */
module OnboardingProgress {
  import Text
  import opened OnboardingSchema
  import opened OnboardingTransactions
  import opened OnboardingInvariant
  import opened OnboardingCommits
  import opened OnboardingService
  import opened OnboardingSafety
  import opened OnboardingSchedules
  import opened OnboardingTheorems
  import opened OnboardingAdmission
  import Gate = OnboardingGate
  import opened SubmitInputs
  import opened DecisionLog

  // ----- One more request than before, in a given status -----

  /** `s` has one request more than `base`, in this status; all others are as they were. */
  ghost predicate Ahead(cfg: Config, base: System, s: System, id: RequestId, identity: Identity, status: RequestStatus)
  {
    && ServiceInv(cfg, s)
    && id !in base.tables.requests && s.tables.requests.Keys == base.tables.requests.Keys + {id}
    && (forall x <- base.tables.requests.Keys :: s.tables.requests[x] == base.tables.requests[x])
    && s.tables.requests[id].identity == identity && s.tables.requests[id].status == status
  }

  /** No request of this person has a status on the way. */
  ghost predicate Clear(t: Tables, identity: Identity, way: set<RequestStatus>) {
    forall other <- t.requests.Keys ::
      SamePerson(t.requests[other].identity, identity) ==> t.requests[other].status !in way
  }

  predicate SameThreads(s: System, next: System) {
    next.handlers == s.handlers && next.now == s.now
  }

  lemma AheadParts(cfg: Config, base: System, s: System, id: RequestId, identity: Identity, status: RequestStatus)
    requires Ahead(cfg, base, s, id, identity, status)
    ensures ServiceInv(cfg, s) && Inv(s.tables, cfg.words)
    ensures id in s.tables.requests && s.tables.requests[id].identity == identity
    ensures s.tables.requests[id].status == status
  {
  }

  lemma AheadUnblocked(cfg: Config, base: System, s: System, id: RequestId, identity: Identity, status: RequestStatus,
      way: set<RequestStatus>, target: RequestStatus)
    requires Ahead(cfg, base, s, id, identity, status) && Clear(base.tables, identity, way) && target in way
    ensures !Blocked(s.tables, id, target)
  {
    hide ServiceInv;
  }

  lemma AheadMoves(cfg: Config, base: System, s: System, next: System, id: RequestId, identity: Identity,
      status: RequestStatus, target: RequestStatus)
    requires Ahead(cfg, base, s, id, identity, status) && ServiceInv(cfg, next)
    requires next.tables.requests
             == s.tables.requests[id := s.tables.requests[id].(status := target, updatedAt := s.now)]
    ensures Ahead(cfg, base, next, id, identity, target)
  {
    hide ServiceInv;
  }

  lemma AheadStays(cfg: Config, base: System, s: System, next: System, id: RequestId, identity: Identity,
      status: RequestStatus)
    requires Ahead(cfg, base, s, id, identity, status) && ServiceInv(cfg, next) && next.tables == s.tables
    ensures Ahead(cfg, base, next, id, identity, status)
  {
    hide ServiceInv;
  }

  // ----- Submission and decision -----

  lemma SubmitTables(cfg: Config, s: System, id: RequestId, requester: Principal, input: SubmitInput)
    requires ServiceInv(cfg, s) && id !in s.tables.requests && Authenticated(requester)
    requires Acceptable(Normalized(input), cfg.organization, cfg.allowedRoles, cfg.parse)
    requires LegalIdentity(IdentityOf(Normalized(input), requester))
    requires Clear(s.tables, IdentityOf(Normalized(input), requester), {Submitted})
    ensures TablesAfter(cfg, s, SubmitRequest(id, requester, input)).requests
            == s.tables.requests[id := Request(IdentityOf(Normalized(input), requester), Submitted, s.now)]
  {
    hide Inv, CallsInv, HandlersInv, EvidenceInv, CatalogueInv;
    hide Acceptable, Normalized, Authenticated, LegalIdentity, Create, IdentityOf, SamePerson;
    CreateCommits(s.tables, cfg.words, id, IdentityOf(Normalized(input), requester), s.now);
  }

  lemma SubmitStep(cfg: Config, s: System, id: RequestId, requester: Principal, input: SubmitInput)
    requires ServiceInv(cfg, s) && id !in s.tables.requests && Authenticated(requester)
    requires Acceptable(Normalized(input), cfg.organization, cfg.allowedRoles, cfg.parse)
    requires LegalIdentity(IdentityOf(Normalized(input), requester))
    requires Clear(s.tables, IdentityOf(Normalized(input), requester), {Submitted})
    ensures var next := Next(cfg, s, SubmitRequest(id, requester, input));
            && Ahead(cfg, s, next, id, IdentityOf(Normalized(input), requester), Submitted)
            && SameThreads(s, next) && next.calls == s.calls
  {
    hide ServiceInv, Inv, Acceptable, Normalized, Authenticated, LegalIdentity, TablesAfter, IdentityOf, Clear;
    StepKeeps(cfg, s, SubmitRequest(id, requester, input));
    SubmitTables(cfg, s, id, requester, input);
  }

  lemma SubjectFits(p: Principal)
    requires Authenticated(p)
    ensures LegalActor(p.subject) && !Text.IsBlank(p.subject)
  {
  }

  lemma EmptyReason()
    ensures Text.TrimSpace("") == "" && LegalReason("")
  {
  }

  predicate MayDecide(cfg: Config, identity: Identity, approver: Principal, choice: string) {
    && Approver(cfg, approver) && !Text.IsBlank(identity.requester) && identity.requester != approver.subject
    && ((choice == "approve" && ApprovedWord in cfg.words) || (choice == "reject" && RejectedWord in cfg.words))
  }

  lemma DecisionDecides(cfg: Config, base: System, s: System, id: RequestId, identity: Identity, approver: Principal,
      choice: string, way: set<RequestStatus>)
    requires Ahead(cfg, base, s, id, identity, Submitted) && MayDecide(cfg, identity, approver, choice)
    requires Clear(base.tables, identity, way) && DecisionStatus(choice) in way
    ensures Decides(s.tables, TablesAfter(cfg, s, DecideRequest(approver, id, choice, "")), id,
                    approver.subject, choice, "", s.now)
  {
    hide ServiceInv, Inv, Blocked, Authenticated, Text.TrimSpace, LegalActor, Text.IsBlank, Decide, LegalReason;
    hide Advances, Ahead, Clear, Decides, DecisionStatus;
    AheadParts(cfg, base, s, id, identity, Submitted);
    AheadUnblocked(cfg, base, s, id, identity, Submitted, way, DecisionStatus(choice));
    SubjectFits(approver);
    EmptyReason();
    DecideCommits(s.tables, cfg.words, id, approver.subject, choice, "", s.now);
    assert DecideAllowed(s.tables, cfg.words, id, approver.subject, choice, "");
  }

  lemma DecisionStep(cfg: Config, base: System, s: System, id: RequestId, identity: Identity, approver: Principal,
      choice: string, way: set<RequestStatus>)
    requires Ahead(cfg, base, s, id, identity, Submitted) && MayDecide(cfg, identity, approver, choice)
    requires Clear(base.tables, identity, way) && DecisionStatus(choice) in way
    ensures var next := Next(cfg, s, DecideRequest(approver, id, choice, ""));
            && Ahead(cfg, base, next, id, identity, DecisionStatus(choice))
            && SameThreads(s, next) && next.calls == s.calls
  {
    hide ServiceInv, Inv, MayDecide, TablesAfter, Ahead, Clear, DecisionStatus;
    var e := DecideRequest(approver, id, choice, "");
    AheadParts(cfg, base, s, id, identity, Submitted);
    StepKeeps(cfg, s, e);
    DecisionDecides(cfg, base, s, id, identity, approver, choice, way);
    AheadMoves(cfg, base, s, Next(cfg, s, e), id, identity, Submitted, DecisionStatus(choice));
  }

  // ----- One external operation -----

  predicate MayOperate(cfg: Config, s: System, h: nat, operator: Principal, user: string) {
    Approver(cfg, operator) && h !in s.handlers && UsableKeycloakUser(user)
  }

  lemma ClaimClaims(cfg: Config, base: System, s: System, h: nat, identity: Identity, operator: Principal,
      key: OperationKey, user: string, way: set<RequestStatus>)
    requires Ahead(cfg, base, s, key.request, identity, ClaimableStatus(key.kind))
    requires MayOperate(cfg, s, h, operator, user)
    requires Clear(base.tables, identity, way) && RunningStatus(key.kind) in way
    ensures var e := StartHandler(h, operator, key, user);
            && Claims(s.tables, TablesAfter(cfg, s, e), key, Text.TrimSpace(user), s.now)
            && HandlersAfter(cfg, s, e) == s.handlers[h := Handler(key, operator.subject, s.now, Claimed)]
  {
    hide ServiceInv, Inv, Ahead, Blocked, Approver, Text.TrimSpace, UsableKeycloakUser, Claim, Advances, Claims, Clear;
    AheadParts(cfg, base, s, key.request, identity, ClaimableStatus(key.kind));
    AheadUnblocked(cfg, base, s, key.request, identity, ClaimableStatus(key.kind), way, RunningStatus(key.kind));
    Gate.UserFits(user);
    ClaimCommits(s.tables, cfg.words, key, Text.TrimSpace(user), s.now);
    assert ClaimAllowed(s.tables, key, Text.TrimSpace(user));
  }

  lemma ClaimStep(cfg: Config, base: System, s: System, h: nat, identity: Identity, operator: Principal,
      key: OperationKey, user: string, way: set<RequestStatus>)
    requires Ahead(cfg, base, s, key.request, identity, ClaimableStatus(key.kind))
    requires MayOperate(cfg, s, h, operator, user)
    requires Clear(base.tables, identity, way) && RunningStatus(key.kind) in way
    ensures var next := Next(cfg, s, StartHandler(h, operator, key, user));
            && Ahead(cfg, base, next, key.request, identity, RunningStatus(key.kind))
            && next.handlers == s.handlers[h := Handler(key, operator.subject, s.now, Claimed)]
            && next.now == s.now && next.calls == s.calls && next.tables.decisions == s.tables.decisions
  {
    hide ServiceInv, Inv, Ahead, MayOperate, Text.TrimSpace, TablesAfter, HandlersAfter, Clear, ClaimableStatus;
    hide RunningStatus;
    var e := StartHandler(h, operator, key, user);
    AheadParts(cfg, base, s, key.request, identity, ClaimableStatus(key.kind));
    StepKeeps(cfg, s, e);
    ClaimClaims(cfg, base, s, h, identity, operator, key, user, way);
    AheadMoves(cfg, base, s, Next(cfg, s, e), key.request, identity, ClaimableStatus(key.kind),
               RunningStatus(key.kind));
  }

  lemma BeginStep(cfg: Config, s: System, h: nat)
    requires h in s.handlers && s.handlers[h].phase == Claimed
    ensures var next := Next(cfg, s, BeginCall(h));
            && next.tables == s.tables && next.now == s.now
            && next.calls == s.calls + [Call(s.handlers[h].key, |s.tables.decisions|)]
            && next.handlers == s.handlers[h := s.handlers[h].(phase := Calling(s.now))]
  {
  }

  lemma EndStep(cfg: Config, s: System, h: nat, success: bool)
    requires h in s.handlers && s.handlers[h].phase.Calling?
    ensures var next := Next(cfg, s, EndCall(h, success));
            && next.tables == s.tables && next.now == s.now && next.calls == s.calls
            && next.handlers == s.handlers[h := s.handlers[h].(phase := Returned(success))]
  {
  }

  lemma CallSteps(cfg: Config, s: System, h: nat, success: bool)
    requires ServiceInv(cfg, s) && h in s.handlers && s.handlers[h].phase == Claimed
    ensures var next := Next(cfg, Next(cfg, s, BeginCall(h)), EndCall(h, success));
            && ServiceInv(cfg, next) && next.tables == s.tables && next.now == s.now
            && next.calls == s.calls + [Call(s.handlers[h].key, |s.tables.decisions|)]
            && next.handlers == s.handlers[h := s.handlers[h].(phase := Returned(success))]
  {
    hide ServiceInv, Next;
    StepKeeps(cfg, s, BeginCall(h));
    StepKeeps(cfg, Next(cfg, s, BeginCall(h)), EndCall(h, success));
    BeginStep(cfg, s, h);
    EndStep(cfg, Next(cfg, s, BeginCall(h)), h, success);
  }

  lemma RecordRest(cfg: Config, s: System, h: nat)
    requires h in s.handlers && s.handlers[h].phase.Returned?
    ensures var next := Next(cfg, s, RecordResult(h));
            next.handlers == s.handlers - {h} && next.now == s.now && next.calls == s.calls
  {
    hide TablesAfter;
  }

  lemma RecordFinishes(cfg: Config, base: System, s: System, h: nat, identity: Identity, key: OperationKey,
      success: bool, way: set<RequestStatus>)
    requires Ahead(cfg, base, s, key.request, identity, RunningStatus(key.kind))
    requires ResultWord(key.kind, success) in cfg.words
    requires h in s.handlers && s.handlers[h].key == key && s.handlers[h].phase == Returned(success)
    requires Clear(base.tables, identity, way) && ResultStatus(key.kind, success) in way
    ensures Finishes(s.tables, Next(cfg, s, RecordResult(h)).tables, key, success, s.handlers[h].operator,
                     ResultReason(key.kind, success), ResultReason(key.kind, success), s.now)
  {
    hide ServiceInv, Inv, Next, Blocked, Ahead, Clear, ResultReason, ResultStatus, RunningStatus, ResultWord, Finishes;
    AheadParts(cfg, base, s, key.request, identity, RunningStatus(key.kind));
    RunningCoupling(s.tables, cfg.words, key);
    AheadUnblocked(cfg, base, s, key.request, identity, RunningStatus(key.kind), way, ResultStatus(key.kind, success));
    ResultAgainstReaper(cfg, s, h);
  }

  lemma RecordStep(cfg: Config, base: System, s: System, h: nat, identity: Identity, key: OperationKey,
      success: bool, way: set<RequestStatus>)
    requires Ahead(cfg, base, s, key.request, identity, RunningStatus(key.kind))
    requires ResultWord(key.kind, success) in cfg.words
    requires h in s.handlers && s.handlers[h].key == key && s.handlers[h].phase == Returned(success)
    requires Clear(base.tables, identity, way) && ResultStatus(key.kind, success) in way
    ensures var next := Next(cfg, s, RecordResult(h));
            && Ahead(cfg, base, next, key.request, identity, ResultStatus(key.kind, success))
            && next.handlers == s.handlers - {h} && next.now == s.now && next.calls == s.calls
  {
    hide ServiceInv, Inv, Next, Ahead, Clear, ResultReason, ResultStatus, RunningStatus, ResultWord;
    AheadParts(cfg, base, s, key.request, identity, RunningStatus(key.kind));
    RecordFinishes(cfg, base, s, h, identity, key, success, way);
    RecordRest(cfg, s, h);
    StepKeeps(cfg, s, RecordResult(h));
    AheadMoves(cfg, base, s, Next(cfg, s, RecordResult(h)), key.request, identity, RunningStatus(key.kind),
               ResultStatus(key.kind, success));
  }

  lemma HandlerLeaves(handlers: map<nat, Handler>, h: nat, row: Handler)
    requires h !in handlers
    ensures handlers[h := row] - {h} == handlers
  {
  }

  /** A handler that claims, calls and records. */
  function Performs(h: nat, operator: Principal, key: OperationKey, user: string, success: bool): seq<Event> {
    [StartHandler(h, operator, key, user), BeginCall(h), EndCall(h, success), RecordResult(h)]
  }

  lemma OperationPerformed(cfg: Config, base: System, s: System, h: nat, identity: Identity, operator: Principal,
      key: OperationKey, user: string, success: bool, way: set<RequestStatus>)
    requires Ahead(cfg, base, s, key.request, identity, ClaimableStatus(key.kind))
    requires MayOperate(cfg, s, h, operator, user)
    requires ResultWord(key.kind, success) in cfg.words
    requires Clear(base.tables, identity, way)
    requires RunningStatus(key.kind) in way && ResultStatus(key.kind, success) in way
    ensures var after := Run(cfg, s, Performs(h, operator, key, user, success));
            && Ahead(cfg, base, after, key.request, identity, ResultStatus(key.kind, success)) && SameThreads(s, after)
            && after.calls == s.calls + [Call(key, |s.tables.decisions|)]
  {
    hide ServiceInv, Next, Run, Ahead, Clear, ClaimableStatus, RunningStatus, ResultStatus, ResultWord;
    var claimed := Next(cfg, s, StartHandler(h, operator, key, user));
    var returned := Next(cfg, Next(cfg, claimed, BeginCall(h)), EndCall(h, success));
    ClaimStep(cfg, base, s, h, identity, operator, key, user, way);
    hide MayOperate;
    AheadParts(cfg, base, claimed, key.request, identity, RunningStatus(key.kind));
    CallSteps(cfg, claimed, h, success);
    AheadStays(cfg, base, claimed, returned, key.request, identity, RunningStatus(key.kind));
    RecordStep(cfg, base, returned, h, identity, key, success, way);
    HandlerLeaves(s.handlers, h, Handler(key, operator.subject, s.now, Returned(success)));
    RunFour(cfg, s, StartHandler(h, operator, key, user), BeginCall(h), EndCall(h, success), RecordResult(h));
  }

  /** A handler that crashes right after its claim. */
  function Abandons(h: nat, operator: Principal, key: OperationKey, user: string): seq<Event> {
    [StartHandler(h, operator, key, user), Crash(h)]
  }

  lemma OperationAbandoned(cfg: Config, base: System, s: System, h: nat, identity: Identity, operator: Principal,
      key: OperationKey, user: string, way: set<RequestStatus>)
    requires Ahead(cfg, base, s, key.request, identity, ClaimableStatus(key.kind))
    requires MayOperate(cfg, s, h, operator, user)
    requires Clear(base.tables, identity, way) && RunningStatus(key.kind) in way
    ensures var after := Run(cfg, s, Abandons(h, operator, key, user));
            && Ahead(cfg, base, after, key.request, identity, RunningStatus(key.kind)) && SameThreads(s, after)
            && after.calls == s.calls
  {
    hide ServiceInv, Next, Run, Ahead, Clear, ClaimableStatus, RunningStatus;
    var claimed := Next(cfg, s, StartHandler(h, operator, key, user));
    ClaimStep(cfg, base, s, h, identity, operator, key, user, way);
    hide MayOperate;
    AheadParts(cfg, base, claimed, key.request, identity, RunningStatus(key.kind));
    StepKeeps(cfg, claimed, Crash(h));
    CrashStep(cfg, claimed, h);
    AheadStays(cfg, base, claimed, Next(cfg, claimed, Crash(h)), key.request, identity, RunningStatus(key.kind));
    HandlerLeaves(s.handlers, h, Handler(key, operator.subject, s.now, Claimed));
    RunTwo(cfg, s, StartHandler(h, operator, key, user), Crash(h));
  }

  // ----- To every status -----

  /** Who takes part in a run: the requester and the submission, the approver, who also operates, and a handler. */
  datatype Cast = Cast(requester: Principal, input: SubmitInput, approver: Principal, user: string, handler: nat)

  function Person(cast: Cast): Identity {
    IdentityOf(Normalized(cast.input), cast.requester)
  }

  predicate Ready(cfg: Config, cast: Cast) {
    && Authenticated(cast.requester) && Approver(cfg, cast.approver)
    && cast.requester.subject != cast.approver.subject
    && Acceptable(Normalized(cast.input), cfg.organization, cfg.allowedRoles, cfg.parse)
    && FitsColumns(Normalized(cast.input))
    && UsableKeycloakUser(cast.user)
  }

  /** The stage from which one more segment leads to this status. */
  function Stage(target: RequestStatus): RequestStatus {
    match target
    case Approved | Rejected => Submitted
    case Provisioning | Invited | ProvisioningAmbiguous => Approved
    case _ => Invited
  }

  function Level(target: RequestStatus): nat {
    match target
    case Submitted => 0
    case Approved | Rejected => 1
    case Provisioning | Invited | ProvisioningAmbiguous => 2
    case _ => 3
  }

  /** The statuses that the last segment goes through. */
  function Segment(target: RequestStatus): set<RequestStatus> {
    match target
    case Invited | ProvisioningAmbiguous => {Provisioning, target}
    case Active | ActivationAmbiguous => {Activating, target}
    case _ => {target}
  }

  /** All statuses on the way to this one. */
  function Way(target: RequestStatus): set<RequestStatus>
    decreases Level(target)
  {
    Segment(target) + if target == Submitted then {} else Way(Stage(target))
  }

  /** The external calls of the last segment. */
  function SegmentCalls(id: RequestId, target: RequestStatus): seq<OperationKey> {
    match target
    case Invited | ProvisioningAmbiguous => [OperationKey(id, Provision)]
    case Active | ActivationAmbiguous => [OperationKey(id, Activate)]
    case _ => []
  }

  /** The external calls on the way, in order. */
  function CallsOn(id: RequestId, target: RequestStatus): seq<OperationKey>
    decreases Level(target)
  {
    (if target == Submitted then [] else CallsOn(id, Stage(target))) + SegmentCalls(id, target)
  }

  function KeysOf(calls: seq<Call>): (keys: seq<OperationKey>)
    ensures |keys| == |calls| && forall i :: 0 <= i < |calls| ==> keys[i] == calls[i].key
  {
    seq(|calls|, i requires 0 <= i < |calls| => calls[i].key)
  }

  function LastSegment(cast: Cast, id: RequestId, target: RequestStatus): seq<Event> {
    var provision, activate := OperationKey(id, Provision), OperationKey(id, Activate);
    match target
    case Submitted => [SubmitRequest(id, cast.requester, cast.input)]
    case Approved => [DecideRequest(cast.approver, id, "approve", "")]
    case Rejected => [DecideRequest(cast.approver, id, "reject", "")]
    case Provisioning => Abandons(cast.handler, cast.approver, provision, cast.user)
    case Activating => Abandons(cast.handler, cast.approver, activate, cast.user)
    case Invited => Performs(cast.handler, cast.approver, provision, cast.user, true)
    case ProvisioningAmbiguous => Performs(cast.handler, cast.approver, provision, cast.user, false)
    case Active => Performs(cast.handler, cast.approver, activate, cast.user, true)
    case _ => Performs(cast.handler, cast.approver, activate, cast.user, false)
  }

  function RunTo(cast: Cast, id: RequestId, target: RequestStatus): seq<Event>
    decreases Level(target)
  {
    (if target == Submitted then [] else RunTo(cast, id, Stage(target))) + LastSegment(cast, id, target)
  }

  /** The status is one the code can write, and its words are allowed. */
  ghost predicate Writable(cfg: Config, target: RequestStatus) {
    Used(target) && forall word <- Trail(target) :: word in cfg.words
  }

  lemma RequesterNotBlank(cfg: Config, cast: Cast)
    requires Ready(cfg, cast)
    ensures !Text.IsBlank(Person(cast).requester) && Person(cast).requester != cast.approver.subject
  {
    hide Text.TrimSpace, Text.IsBlank, Normalized, Acceptable, FitsColumns, UsableKeycloakUser;
    SubjectFits(cast.requester);
  }

  lemma DecisionSegment(cfg: Config, base: System, s: System, id: RequestId, cast: Cast, target: RequestStatus)
    requires target in {Approved, Rejected} && Ready(cfg, cast) && Writable(cfg, target)
    requires Ahead(cfg, base, s, id, Person(cast), Submitted) && Clear(base.tables, Person(cast), Way(target))
    ensures var after := Run(cfg, s, LastSegment(cast, id, target));
            Ahead(cfg, base, after, id, Person(cast), target) && SameThreads(s, after) && after.calls == s.calls
  {
    hide Run, Next, Ahead, Clear, Person, Text.IsBlank;
    RequesterNotBlank(cfg, cast);
    hide Authenticated, Acceptable, FitsColumns, UsableKeycloakUser, Normalized;
    var choice := if target == Approved then "approve" else "reject";
    assert Trail(target)[0] in cfg.words;
    DecisionStep(cfg, base, s, id, Person(cast), cast.approver, choice, Way(target));
    RunOne(cfg, s, DecideRequest(cast.approver, id, choice, ""));
  }

  lemma OperationSegment(cfg: Config, base: System, s: System, id: RequestId, cast: Cast, target: RequestStatus)
    requires Level(target) >= 2 && Used(target) && Writable(cfg, target)
    requires Ready(cfg, cast) && cast.handler !in s.handlers
    requires Ahead(cfg, base, s, id, Person(cast), Stage(target)) && Clear(base.tables, Person(cast), Way(target))
    ensures var after := Run(cfg, s, LastSegment(cast, id, target));
            && Ahead(cfg, base, after, id, Person(cast), target) && SameThreads(s, after)
            && KeysOf(after.calls) == KeysOf(s.calls) + SegmentCalls(id, target)
  {
    hide Run, Ahead, Clear, Person, Authenticated, Approver, Acceptable, FitsColumns, UsableKeycloakUser;
    hide Performs, Abandons, Normalized;
    var kind := if Level(target) == 2 then Provision else Activate;
    var key := OperationKey(id, kind);
    if target == RunningStatus(kind) {
      OperationAbandoned(cfg, base, s, cast.handler, Person(cast), cast.approver, key, cast.user, Way(target));
    } else {
      var success := target == ResultStatus(kind, true);
      assert Trail(target)[|Trail(target)| - 1] == ResultWord(kind, success);
      OperationPerformed(cfg, base, s, cast.handler, Person(cast), cast.approver, key, cast.user, success, Way(target));
    }
  }

  lemma StageIsOnTheWay(cfg: Config, base: System, cast: Cast, target: RequestStatus)
    requires target != Submitted && Writable(cfg, target) && Clear(base.tables, Person(cast), Way(target))
    ensures Writable(cfg, Stage(target)) && Clear(base.tables, Person(cast), Way(Stage(target)))
  {
    hide Person, SamePerson;
    assert forall word <- Trail(Stage(target)) :: word in Trail(target);
  }

  /**
   From every safe state a new request has a run to every status the code can write, if no request of its
   person has a status on the way; everything else stays as it was.
   */
  lemma {:induction false} CanReach(cfg: Config, base: System, id: RequestId, cast: Cast, target: RequestStatus)
    requires ServiceInv(cfg, base) && id !in base.tables.requests
    requires Ready(cfg, cast) && cast.handler !in base.handlers && Writable(cfg, target)
    requires Clear(base.tables, Person(cast), Way(target))
    ensures var after := Run(cfg, base, RunTo(cast, id, target));
            && Ahead(cfg, base, after, id, Person(cast), target) && SameThreads(base, after)
            && KeysOf(after.calls) == KeysOf(base.calls) + CallsOn(id, target)
    decreases Level(target)
  {
    hide ServiceInv, Run, Next, Ahead, Clear, Person, Authenticated, Approver, Acceptable, FitsColumns;
    hide UsableKeycloakUser, Normalized, LastSegment, Writable, Trail, KeysOf, SegmentCalls;
    if target == Submitted {
      SubmitStage(cfg, base, id, cast);
      assert CallsOn(id, target) == [] && KeysOf(base.calls) + [] == KeysOf(base.calls) by {
        NoCallsYet(id);
      }
    } else {
      StageIsOnTheWay(cfg, base, cast, target);
      CanReach(cfg, base, id, cast, Stage(target));
      var s := Run(cfg, base, RunTo(cast, id, Stage(target)));
      if Level(target) == 1 {
        DecisionSegment(cfg, base, s, id, cast, target);
        DecisionsCallNobody(id, target);
        assert KeysOf(s.calls) + [] == KeysOf(s.calls);
      } else {
        WritableIsUsed(cfg, target);
        OperationSegment(cfg, base, s, id, cast, target);
      }
      RunConcat(cfg, base, RunTo(cast, id, Stage(target)), LastSegment(cast, id, target));
      assert KeysOf(base.calls) + CallsOn(id, Stage(target)) + SegmentCalls(id, target)
          == KeysOf(base.calls) + CallsOn(id, target);
    }
  }

  lemma NoCallsYet(id: RequestId)
    ensures CallsOn(id, Submitted) == []
  {
  }

  lemma DecisionsCallNobody(id: RequestId, target: RequestStatus)
    requires Level(target) == 1
    ensures SegmentCalls(id, target) == []
  {
  }

  lemma CallsOfActive(id: RequestId)
    ensures CallsOn(id, Active) == [OperationKey(id, Provision), OperationKey(id, Activate)]
  {
    assert CallsOn(id, Approved) == [];
  }

  lemma WritableIsUsed(cfg: Config, target: RequestStatus)
    requires Writable(cfg, target)
    ensures Used(target)
  {
  }

  lemma SubmitStage(cfg: Config, base: System, id: RequestId, cast: Cast)
    requires ServiceInv(cfg, base) && id !in base.tables.requests && Ready(cfg, cast)
    requires Clear(base.tables, Person(cast), Way(Submitted))
    ensures var after := Run(cfg, base, RunTo(cast, id, Submitted));
            && Ahead(cfg, base, after, id, Person(cast), Submitted) && SameThreads(base, after)
            && after.calls == base.calls
  {
    hide ServiceInv, Run, Next, Ahead, Clear, Authenticated, Approver, Acceptable, LegalIdentity;
    hide UsableKeycloakUser, Normalized, IdentityOf, FitsColumns;
    AcceptedFitsColumns(cfg, cast.input, cast.requester);
    assert Way(Submitted) == {Submitted};
    SubmitStep(cfg, base, id, cast.requester, cast.input);
    RunOne(cfg, base, SubmitRequest(id, cast.requester, cast.input));
    assert RunTo(cast, id, Submitted) == [SubmitRequest(id, cast.requester, cast.input)];
  }

  /** For one: the whole way to `active`, with the log of the integration script. */
  lemma CanBecomeActive(cfg: Config, s: System, id: RequestId, cast: Cast)
    requires ServiceInv(cfg, s) && id !in s.tables.requests && Ready(cfg, cast) && cast.handler !in s.handlers
    requires {ApprovedWord, InvitedWord, ActiveWord} <= cfg.words
    requires Clear(s.tables, Person(cast), {Submitted, Approved, Provisioning, Invited, Activating, Active})
    ensures var after := Run(cfg, s, RunTo(cast, id, Active));
            && id in after.tables.requests && after.tables.requests[id].status == Active
            && Words(after.tables.decisions, id) == [ApprovedWord, InvitedWord, ActiveWord]
            && KeysOf(after.calls) == KeysOf(s.calls) + [OperationKey(id, Provision), OperationKey(id, Activate)]
  {
    hide ServiceInv, Run, Ahead, Clear, Person, Ready, RunTo, Words, CallsOn, KeysOf;
    CallsOfActive(id);
    assert Way(Active) == {Submitted, Approved, Provisioning, Invited, Activating, Active};
    CanReach(cfg, s, id, cast, Active);
    var after := Run(cfg, s, RunTo(cast, id, Active));
    AheadParts(cfg, s, after, id, Person(cast), Active);
    hide Inv;
    InvCoupled(after.tables, cfg.words, id);
  }
}
