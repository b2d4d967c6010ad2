/** Runs of the service that wedge the reaper: by the missing word, and by a second request of one person. */
module OnboardingWedge {
  import opened Wrappers
  import Text
  import opened OnboardingSchema
  import opened OnboardingTransactions
  import opened OnboardingInvariant
  import opened OnboardingCommits
  import opened OnboardingService
  import opened OnboardingSafety
  import opened OnboardingSchedules
  import opened OnboardingDeadEnds
  import opened OnboardingProgress
  import opened SubmitInputs
  import Reaper

  /** The service has nobody at work and an expired operation that nobody can end: no full pass helps any more. */
  ghost predicate WedgedBy(cfg: Config, s: System, key: OperationKey) {
    ServiceInv(cfg, s) && Expired(s.tables, key, s.now) && Stuck(cfg, s, key) && Wedged(cfg, s)
  }

  /** An abandoned operation whose row cannot be written wedges the reaper once its lease is over. */
  lemma Overdue(cfg: Config, s: System, key: OperationKey) returns (to: Time)
    requires ServiceInv(cfg, s) && s.handlers == map[]
    requires key.request in s.tables.requests && s.tables.requests[key.request].status == RunningStatus(key.kind)
    requires !Reaper.RowReapable(s.tables, cfg.words, key)
    ensures WedgedBy(cfg, Run(cfg, s, [Tick(to)]), key)
  {
    hide ServiceInv, Inv, Next, Run, Wedged, Reaper.RowReapable, RunningStatus;
    ServiceParts(cfg, s);
    RunningCoupling(s.tables, cfg.words, key);
    var lease := s.tables.operations[key].lease;
    to := if s.now <= lease then lease + 1 else s.now;
    TickStep(cfg, s, to);
    RunOne(cfg, s, Tick(to));
    StepKeeps(cfg, s, Tick(to));
    ReaperWedged(cfg, Next(cfg, s, Tick(to)), key);
  }

  lemma StartIsSafe(cfg: Config, now: Time)
    ensures ServiceInv(cfg, Start(now))
  {
    RunIsSafe(cfg, now, []);
  }

  /** Without the word one abandoned provision is enough. */
  lemma MissingWordWedges(cfg: Config, now: Time, cast: Cast, id: RequestId) returns (run: seq<Event>)
    requires Ready(cfg, cast) && ApprovedWord in cfg.words && ProvisioningAmbiguousWord !in cfg.words
    ensures WedgedBy(cfg, Run(cfg, Start(now), run), OperationKey(id, Provision))
  {
    hide ServiceInv, Run, Next, Ready, RunTo, Person, Way, WedgedBy;
    StartIsSafe(cfg, now);
    CanReach(cfg, Start(now), id, cast, Provisioning);
    var s := Run(cfg, Start(now), RunTo(cast, id, Provisioning));
    var to := Overdue(cfg, s, OperationKey(id, Provision));
    run := RunTo(cast, id, Provisioning) + [Tick(to)];
    RunConcat(cfg, Start(now), RunTo(cast, id, Provisioning), [Tick(to)]);
  }

  lemma RunningWayIsOpen(kind: OperationKind)
    ensures ResultStatus(kind, false) !in Way(RunningStatus(kind))
    ensures Trail(RunningStatus(kind)) <= Trail(ResultStatus(kind, false)) && Used(RunningStatus(kind))
  {
    assert Way(Submitted) == {Submitted} && Way(Approved) == {Approved, Submitted};
    assert Way(Provisioning) == {Provisioning, Approved, Submitted};
    assert Way(Invited) == {Invited, Provisioning, Approved, Submitted};
  }

  lemma RunningIsWritable(cfg: Config, kind: OperationKind)
    requires Writable(cfg, ResultStatus(kind, false))
    ensures Writable(cfg, RunningStatus(kind))
  {
    RunningWayIsOpen(kind);
    hide Trail, Used, ResultStatus, RunningStatus;
    forall word | word in Trail(RunningStatus(kind))
      ensures word in Trail(ResultStatus(kind, false))
    {
    }
  }

  /** The first request of the person stands in the ambiguous status, the second one is abandoned on its way. */
  lemma TwinIsBlocked(cfg: Config, base: System, first: System, s: System, cast: Cast, a: RequestId, b: RequestId,
      kind: OperationKind)
    requires Ahead(cfg, base, first, a, Person(cast), ResultStatus(kind, false))
    requires Ahead(cfg, first, s, b, Person(cast), RunningStatus(kind))
    ensures !Reaper.RowReapable(s.tables, cfg.words, OperationKey(b, kind))
    ensures b in s.tables.requests && s.tables.requests[b].status == RunningStatus(kind)
  {
    hide ServiceInv, Person;
    assert a in s.tables.requests.Keys && a != b;
    assert SamePerson(s.tables.requests[a].identity, s.tables.requests[b].identity);
  }

  lemma SecondIsClear(cfg: Config, now: Time, first: System, cast: Cast, a: RequestId, kind: OperationKind)
    requires Ahead(cfg, Start(now), first, a, Person(cast), ResultStatus(kind, false))
    ensures Clear(first.tables, Person(cast), Way(RunningStatus(kind)))
  {
    RunningWayIsOpen(kind);
    hide ServiceInv, Person, Way, ResultStatus, RunningStatus;
  }

  /**
   With every word allowed, two requests of one person are enough: the first one ambiguous for good, the
   second one abandoned in the same operation. So the right word in the CHECK does not cure it.
   */
  lemma TwinWedges(cfg: Config, now: Time, cast: Cast, a: RequestId, b: RequestId, kind: OperationKind)
    returns (run: seq<Event>)
    requires Ready(cfg, cast) && a != b && Writable(cfg, ResultStatus(kind, false))
    ensures WedgedBy(cfg, Run(cfg, Start(now), run), OperationKey(b, kind))
    ensures Run(cfg, Start(now), run).tables.requests.Keys == {a, b}
  {
    hide ServiceInv, Run, Next, Ready, RunTo, Person, Way, Writable, ResultStatus, RunningStatus, Stuck, Wedged;
    StartIsSafe(cfg, now);
    CanReach(cfg, Start(now), a, cast, ResultStatus(kind, false));
    var first := Run(cfg, Start(now), RunTo(cast, a, ResultStatus(kind, false)));
    SecondIsClear(cfg, now, first, cast, a, kind);
    RunningIsWritable(cfg, kind);
    CanReach(cfg, first, b, cast, RunningStatus(kind));
    var s := Run(cfg, first, RunTo(cast, b, RunningStatus(kind)));
    TwinIsBlocked(cfg, Start(now), first, s, cast, a, b, kind);
    var to := Overdue(cfg, s, OperationKey(b, kind));
    var toFirst, toSecond := RunTo(cast, a, ResultStatus(kind, false)), RunTo(cast, b, RunningStatus(kind));
    run := toFirst + toSecond + [Tick(to)];
    RunConcat(cfg, Start(now), toFirst, toSecond);
    RunConcat(cfg, Start(now), toFirst + toSecond, [Tick(to)]);
    RunOne(cfg, s, Tick(to));
    TickKeepsTables(cfg, s, to);
  }

  lemma TickKeepsTables(cfg: Config, s: System, to: Time)
    ensures Next(cfg, s, Tick(to)).tables == s.tables
  {
  }

  // ----- A concrete service -----

  function ExampleConfig(words: set<DecisionWord>): Config {
    Config(words, "reaper", "approver", "org", {"member"}, address => Some(address))
  }

  const EXAMPLE_CAST := Cast(
    Principal("anna", []), SubmitInput("org", "x@org", "X", "Y", ["member"]), Principal("berta", ["approver"]), "u1", 0)

  lemma ExampleTexts()
    ensures Text.Plain("org") && Text.Plain("x@org") && Text.Plain("X") && Text.Plain("Y")
    ensures Text.Plain("member") && Text.Plain("anna") && Text.Plain("berta") && Text.Plain("u1")
  {
    hide Text.Plain;
    Text.PlainText("org");
    Text.PlainText("x@org");
    Text.PlainText("X");
    Text.PlainText("Y");
    Text.PlainText("member");
    Text.PlainText("anna");
    Text.PlainText("berta");
    Text.PlainText("u1");
  }

  lemma ExampleIsNormal()
    ensures Normalized(EXAMPLE_CAST.input) == EXAMPLE_CAST.input && Trimmed(["member"]) == ["member"]
  {
    hide Text.TrimSpace, Text.ByteLen;
    ExampleTexts();
    assert Trimmed(["member"])[0] == "member" && Trimmed(["member"]) == ["member"];
  }

  lemma ExampleIsAcceptable()
    ensures Acceptable(EXAMPLE_CAST.input, "org", {"member"}, ExampleConfig({}).parse)
  {
    hide Text.TrimSpace, Text.ByteLen;
    ExampleTexts();
    ExampleIsNormal();
  }

  lemma ExampleIsReady(words: set<DecisionWord>)
    ensures Ready(ExampleConfig(words), EXAMPLE_CAST)
  {
    hide Text.TrimSpace, Text.ByteLen, Acceptable, Normalized;
    ExampleTexts();
    ExampleIsNormal();
    ExampleIsAcceptable();
    assert ExampleConfig(words).parse == ExampleConfig({}).parse;
  }

  /** With the CHECK as shipped: anna's request is approved by berta, claimed, and its handler crashes. */
  lemma ShippedWordsWedge(now: Time) returns (run: seq<Event>)
    ensures WedgedBy(ExampleConfig(SHIPPED_WORDS), Run(ExampleConfig(SHIPPED_WORDS), Start(now), run),
                     OperationKey(1, Provision))
  {
    hide WedgedBy, Run, Ready;
    ExampleIsReady(SHIPPED_WORDS);
    run := MissingWordWedges(ExampleConfig(SHIPPED_WORDS), now, EXAMPLE_CAST, 1);
  }

  /** With the word corrected, for either kind of operation. */
  lemma IntendedWordsWedge(now: Time, kind: OperationKind) returns (run: seq<Event>)
    ensures WedgedBy(ExampleConfig(INTENDED_WORDS), Run(ExampleConfig(INTENDED_WORDS), Start(now), run),
                     OperationKey(2, kind))
  {
    hide WedgedBy, Run, Ready;
    ExampleIsReady(INTENDED_WORDS);
    assert Writable(ExampleConfig(INTENDED_WORDS), ResultStatus(kind, false));
    run := TwinWedges(ExampleConfig(INTENDED_WORDS), now, EXAMPLE_CAST, 1, 2, kind);
  }
}
