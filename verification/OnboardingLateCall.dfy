/** A run from empty tables to a call in flight whose operation the reaper has marked ambiguous already. */
module OnboardingLateCall {
  import opened OnboardingSchema
  import opened OnboardingInvariant
  import opened OnboardingCommits
  import opened OnboardingService
  import opened OnboardingSafety
  import opened OnboardingSchedules
  import opened OnboardingTheorems
  import opened OnboardingLimits
  import opened OnboardingAdmission
  import opened OnboardingDeadEnds
  import opened OnboardingLease
  import opened OnboardingProgress
  import opened OnboardingWedge
  import opened SubmitInputs

  /** The statuses from approval to a failed provision. */
  const PROVISION_WAY: set<RequestStatus> := {Provisioning, ProvisioningAmbiguous}

  /** The handler claims, waits a moment too long, and calls. */
  function Dawdles(h: nat, operator: Principal, key: OperationKey, user: string, claimedAt: Time): seq<Event> {
    [StartHandler(h, operator, key, user), Tick(claimedAt + PROMPT + 1), BeginCall(h)]
  }

  /** A call in flight that began too late, of an operation that the reaper can take. */
  ghost predicate LateInFlight(cfg: Config, s: System, h: nat, key: OperationKey) {
    && ServiceInv(cfg, s)
    && h in s.handlers && s.handlers[h].key == key && s.handlers[h].phase.Calling?
    && s.handlers[h].phase.startedAt > s.handlers[h].claimedAt + PROMPT
    && IsRunning(s.tables, key) && CanReap(cfg, s.tables, key)
  }

  /** In the tables after the claim the operation runs and its row can be written. */
  lemma ClaimedIsReapable(cfg: Config, base: System, s: System, id: RequestId, identity: Identity)
    requires Ahead(cfg, base, s, id, identity, Provisioning) && Clear(base.tables, identity, PROVISION_WAY)
    requires ProvisioningAmbiguousWord in cfg.words && LegalActor(cfg.serviceActor)
    ensures IsRunning(s.tables, OperationKey(id, Provision)) && CanReap(cfg, s.tables, OperationKey(id, Provision))
  {
    hide ServiceInv, Inv, Ahead, Clear, Blocked, LegalActor;
    AheadParts(cfg, base, s, id, identity, Provisioning);
    AheadUnblocked(cfg, base, s, id, identity, Provisioning, PROVISION_WAY, ProvisioningAmbiguous);
    RunningCoupling(s.tables, cfg.words, OperationKey(id, Provision));
  }

  /** The three steps, from a claimed operation on. */
  lemma DawdlingSteps(cfg: Config, claimed: System, h: nat, key: OperationKey, operator: string)
    requires ServiceInv(cfg, claimed) && IsRunning(claimed.tables, key) && CanReap(cfg, claimed.tables, key)
    requires claimed.handlers == map[h := Handler(key, operator, claimed.now, Claimed)]
    ensures LateInFlight(cfg, Next(cfg, Next(cfg, claimed, Tick(claimed.now + PROMPT + 1)), BeginCall(h)), h, key)
  {
    hide ServiceInv, Next, CanReap;
    var waited := Next(cfg, claimed, Tick(claimed.now + PROMPT + 1));
    TickStep(cfg, claimed, claimed.now + PROMPT + 1);
    StepKeeps(cfg, claimed, Tick(claimed.now + PROMPT + 1));
    BeginStep(cfg, waited, h);
    StepKeeps(cfg, waited, BeginCall(h));
  }

  /** From an approved request alone in the service to a late call. */
  lemma DawdlingRun(cfg: Config, base: System, s: System, id: RequestId, cast: Cast)
    requires Ahead(cfg, base, s, id, Person(cast), Approved) && s.handlers == map[]
    requires Ready(cfg, cast) && Clear(base.tables, Person(cast), PROVISION_WAY)
    requires ProvisioningAmbiguousWord in cfg.words && LegalActor(cfg.serviceActor)
    ensures var key := OperationKey(id, Provision);
            var after := Run(cfg, s, Dawdles(cast.handler, cast.approver, key, cast.user, s.now));
            LateInFlight(cfg, after, cast.handler, key)
  {
    hide ServiceInv, Next, Run, Ahead, Clear, Person, LegalActor, CanReap, Acceptable, Authenticated, FitsColumns;
    hide UsableKeycloakUser, Approver, LateInFlight;
    var key := OperationKey(id, Provision);
    var claimed := Next(cfg, s, StartHandler(cast.handler, cast.approver, key, cast.user));
    ClaimStep(cfg, base, s, cast.handler, Person(cast), cast.approver, key, cast.user, PROVISION_WAY);
    AheadParts(cfg, base, claimed, id, Person(cast), Provisioning);
    ClaimedIsReapable(cfg, base, claimed, id, Person(cast));
    DawdlingSteps(cfg, claimed, cast.handler, key, cast.approver.subject);
    RunThree(cfg, s, StartHandler(cast.handler, cast.approver, key, cast.user), Tick(s.now + PROMPT + 1),
             BeginCall(cast.handler));
  }

  lemma NobodyInTheWay(now: Time, identity: Identity, way: set<RequestStatus>)
    ensures Clear(Start(now).tables, identity, way)
  {
  }

  lemma ApprovedIsWritable(cfg: Config)
    requires ApprovedWord in cfg.words
    ensures Writable(cfg, Approved)
  {
  }

  /**
   A late call is real: this run leads from empty tables to one, and on to the moment when the operation is
   ambiguous while the call is still in flight.
   */
  lemma LateCallReachable(cfg: Config, now: Time, cast: Cast, id: RequestId) returns (run: seq<Event>, rest: seq<Event>)
    requires Ready(cfg, cast) && {ApprovedWord, ProvisioningAmbiguousWord} <= cfg.words && LegalActor(cfg.serviceActor)
    ensures var s := Run(cfg, Start(now), run);
            && LateInFlight(cfg, s, cast.handler, OperationKey(id, Provision))
            && CaughtInFlight(s, Run(cfg, Start(now), run + rest), cast.handler)
  {
    hide ServiceInv, Next, Run, Ready, Ahead, Clear, Person, Writable, RunTo, Dawdles, LegalActor, CanReap;
    StartIsSafe(cfg, now);
    NobodyInTheWay(now, Person(cast), Way(Approved));
    NobodyInTheWay(now, Person(cast), PROVISION_WAY);
    ApprovedIsWritable(cfg);
    CanReach(cfg, Start(now), id, cast, Approved);
    var toApproved := RunTo(cast, id, Approved);
    var s := Run(cfg, Start(now), toApproved);
    DawdlingRun(cfg, Start(now), s, id, cast);
    var toCall := Dawdles(cast.handler, cast.approver, OperationKey(id, Provision), cast.user, s.now);
    run := toApproved + toCall;
    RunConcat(cfg, Start(now), toApproved, toCall);
    rest := LateCallCaught(cfg, Run(cfg, Start(now), run), cast.handler);
    RunConcat(cfg, Start(now), run, rest);
  }

  /** With the word corrected, in the concrete service. */
  lemma ExampleCallIsCaught(now: Time) returns (run: seq<Event>, rest: seq<Event>)
    ensures var cfg := ExampleConfig(INTENDED_WORDS);
            var s := Run(cfg, Start(now), run);
            && LateInFlight(cfg, s, EXAMPLE_CAST.handler, OperationKey(1, Provision))
            && CaughtInFlight(s, Run(cfg, Start(now), run + rest), EXAMPLE_CAST.handler)
  {
    hide Run, Ready, LateInFlight, CaughtInFlight;
    ExampleIsReady(INTENDED_WORDS);
    run, rest := LateCallReachable(ExampleConfig(INTENDED_WORDS), now, EXAMPLE_CAST, 1);
  }
}
