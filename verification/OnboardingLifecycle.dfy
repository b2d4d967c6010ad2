/**
 The three tables refine one variable per request: its status. Every event is, for every request, a
 stutter or one step of the lifecycle automaton, and the rows that hang on a request change only with it.
 */
module OnboardingLifecycle {
  import opened Wrappers
  import Text
  import opened OnboardingSchema
  import opened OnboardingTransactions
  import opened OnboardingInvariant
  import opened OnboardingCommits
  import opened OnboardingService
  import opened OnboardingSafety
  import opened DecisionLog
  import opened SubmitInputs
  import Reaper

  /** The abstract state of one request: None before it is submitted. */
  function Life(t: Tables, id: RequestId): Option<RequestStatus> {
    if id in t.requests then Some(t.requests[id].status) else None
  }

  predicate LifeStep(a: Option<RequestStatus>, b: Option<RequestStatus>) {
    b.Some? && if a.None? then b.value == Submitted else Edge(a.value, b.value)
  }

  /** The words a step writes. */
  function Written(a: Option<RequestStatus>): seq<DecisionWord> {
    if a.None? then [] else Trail(a.value)
  }

  /** Nothing that belongs to the request changed in any of the three tables. */
  ghost predicate Stutters(t: Tables, after: Tables, id: RequestId) {
    && (id in t.requests <==> id in after.requests)
    && (id in t.requests ==> after.requests[id] == t.requests[id])
    && (forall kind :: SameRow(t, after, OperationKey(id, kind)))
    && Log(after.decisions, id) == Log(t.decisions, id)
  }

  ghost predicate SameRow(t: Tables, after: Tables, key: OperationKey) {
    && (key in t.operations <==> key in after.operations)
    && (key in t.operations ==> after.operations[key] == t.operations[key])
  }

  /** One automaton step, and the log grew by exactly the words of that step. */
  ghost predicate Steps(t: Tables, after: Tables, id: RequestId) {
    && LifeStep(Life(t, id), Life(after, id))
    && Written(Life(t, id)) <= Written(Life(after, id))
    && Words(after.decisions, id)
       == Words(t.decisions, id) + Written(Life(after, id))[|Written(Life(t, id))|..]
  }

  /** The requests an event is about. */
  function Touched(s: System, e: Event): set<RequestId> {
    match e
    case SubmitRequest(id, _, _) => {id}
    case DecideRequest(_, id, _, _) => {id}
    case StartHandler(_, _, key, _) => {key.request}
    case RecordResult(handler) => if handler in s.handlers then {s.handlers[handler].key.request} else {}
    case RunReaper(batch) => set key | key in batch :: key.request
    case _ => {}
  }

  predicate Committed(cfg: Config, s: System, e: Event) {
    Transaction(cfg, s, e).Some? && Transaction(cfg, s, e).value.Success?
  }

  lemma SpellConcat(a: seq<Decision>, b: seq<Decision>)
    ensures Spell(a + b) == Spell(a) + Spell(b)
  {
  }

  /** One automaton step of the tables, seen from its request. */
  lemma AdvanceSteps(t: Tables, after: Tables, id: RequestId)
    requires Advances(t, after, id)
    ensures Steps(t, after, id)
  {
    LogOfExtension(t.decisions, after.decisions, id, id);
    hide Words;
    var rows, a, b := after.decisions[|t.decisions|..], t.requests[id].status, after.requests[id].status;
    assert Reports(rows, id, a, b);
    hide Reports, Advances, Trail, Edge;
    assert Spell(rows) == Trail(b)[|Trail(a)|..];
  }

  /** The same step, seen from any other request. */
  lemma AdvanceStutters(t: Tables, after: Tables, id: RequestId, x: RequestId)
    requires Advances(t, after, id) && x != id
    ensures Stutters(t, after, x)
  {
    LogOfExtension(t.decisions, after.decisions, x, id);
    hide Words, Log, Reports;
    forall kind
      ensures SameRow(t, after, OperationKey(x, kind))
    {
      var key := OperationKey(x, kind);
      if key in t.operations || key in after.operations {
        assert key in t.operations.Keys + after.operations.Keys;
      }
    }
  }

  lemma CreateIsLocal(t: Tables, words: set<DecisionWord>, id: RequestId, row: Request, x: RequestId)
    requires Inv(t, words) && id !in t.requests && row.status == Submitted
    ensures var after := t.(requests := t.requests[id := row]);
            if x == id then Steps(t, after, x) else Stutters(t, after, x)
  {
  }

  /** A committed batch: each of its requests makes one step, all others stutter. */
  lemma BatchIsLocal(t: Tables, words: set<DecisionWord>, batch: seq<OperationKey>, actor: string, now: Time,
                     x: RequestId)
    requires Inv(t, words) && Reaper.RunningBatch(t, batch)
    ensures var after := Reaper.Reaped(t, batch, actor, now);
            if x in (set key | key in batch :: key.request) then Steps(t, after, x) else Stutters(t, after, x)
  {
    var rows := Reaper.ReapDecisions(batch, actor);
    Reaper.DistinctRequests(t, words, batch);
    Reaper.LogOfReaped(batch, actor, x);
    LogConcat(t.decisions, rows, x);
    SpellConcat(Log(t.decisions, x), Log(rows, x));
    if key :| key in batch && key.request == x {
      assert Log(rows, x) == [Reaper.ReapDecision(key, actor)];
      BatchStep(t, words, batch, actor, now, key);
    } else {
      var after := Reaper.Reaped(t, batch, actor, now);
      forall kind
        ensures SameRow(t, after, OperationKey(x, kind))
      {
        assert OperationKey(x, kind) !in batch;
      }
    }
  }

  /** The batch holds at most one key of a request, and that one decides its new status. */
  lemma ReapedStatus(t: Tables, words: set<DecisionWord>, batch: seq<OperationKey>, actor: string, now: Time,
                     key: OperationKey)
    requires Inv(t, words) && Reaper.RunningBatch(t, batch) && key in batch
    ensures Life(t, key.request) == Some(RunningStatus(key.kind))
    ensures Life(Reaper.Reaped(t, batch, actor, now), key.request) == Some(ResultStatus(key.kind, false))
  {
    RunningCoupling(t, words, key);
    hide Inv;
    assert key == OperationKey(key.request, key.kind) && key in Reaper.Keys(batch);
    var provision := OperationKey(key.request, Provision);
    assert provision in Reaper.Keys(batch) ==>
        provision in t.operations.Keys && t.operations[provision].status == Running;
  }

  lemma FailureStep(kind: OperationKind)
    ensures LifeStep(Some(RunningStatus(kind)), Some(ResultStatus(kind, false)))
    ensures Trail(ResultStatus(kind, false)) == Trail(RunningStatus(kind)) + [ResultWord(kind, false)]
  {
  }

  lemma BatchStep(t: Tables, words: set<DecisionWord>, batch: seq<OperationKey>, actor: string, now: Time,
                  key: OperationKey)
    requires Inv(t, words) && Reaper.RunningBatch(t, batch) && key in batch
    requires Words(Reaper.Reaped(t, batch, actor, now).decisions, key.request)
             == Words(t.decisions, key.request) + Spell([Reaper.ReapDecision(key, actor)])
    ensures Steps(t, Reaper.Reaped(t, batch, actor, now), key.request)
  {
    ReapedStatus(t, words, batch, actor, now, key);
    FailureStep(key.kind);
    assert Spell([Reaper.ReapDecision(key, actor)]) == [ResultWord(key.kind, false)];
    hide Inv, Words, Spell, Trail, ResultStatus, RunningStatus, ResultWord, LifeStep, Life, Reaper.Reaped;
  }

  // ----- Every event is a step of the automaton -----

  lemma SubmitRefines(cfg: Config, s: System, e: Event, x: RequestId)
    requires Inv(s.tables, cfg.words) && e.SubmitRequest? && Committed(cfg, s, e)
    ensures var after := TablesAfter(cfg, s, e);
            if x in Touched(s, e) then Steps(s.tables, after, x) else Stutters(s.tables, after, x)
  {
    var identity := IdentityOf(Normalized(e.input), e.requester);
    CreateCommits(s.tables, cfg.words, e.id, identity, s.now);
    CreateIsLocal(s.tables, cfg.words, e.id, Request(identity, Submitted, s.now), x);
    hide Inv, Steps, Stutters, Acceptable, Normalized;
  }

  lemma ReaperRefines(cfg: Config, s: System, e: Event, x: RequestId)
    requires Inv(s.tables, cfg.words) && e.RunReaper? && Committed(cfg, s, e)
    ensures var after := TablesAfter(cfg, s, e);
            if x in Touched(s, e) then Steps(s.tables, after, x) else Stutters(s.tables, after, x)
  {
    hide Inv, Steps, Stutters, Reaper.Reaped, Reaper.BatchReapable;
    Reaper.ReapCommits(s.tables, cfg.words, e.batch, cfg.serviceActor, s.now);
    BatchIsLocal(s.tables, cfg.words, e.batch, cfg.serviceActor, s.now, x);
  }

  /** A decision, a claim or a recorded result. */
  lemma SingleAdvances(cfg: Config, s: System, e: Event) returns (id: RequestId)
    requires Inv(s.tables, cfg.words) && Committed(cfg, s, e) && !e.SubmitRequest? && !e.RunReaper?
    ensures Touched(s, e) == {id} && Advances(s.tables, TablesAfter(cfg, s, e), id)
  {
    var t := s.tables;
    hide Inv, Advances, Text.TrimSpace, ResultReason, Claim, Decide, Record;
    match e
    case StartHandler(_, _, key, user) =>
      ClaimCommits(t, cfg.words, key, Text.TrimSpace(user), s.now);
      id := key.request;
    case DecideRequest(approver, decided, choice, reason) =>
      DecideCommits(t, cfg.words, decided, approver.subject, choice, Text.TrimSpace(reason), s.now);
      id := decided;
    case RecordResult(handler) =>
      var h := s.handlers[handler];
      RecordCommits(t, cfg.words, h.key, h.phase.success, h.operator,
                    ResultReason(h.key.kind, h.phase.success), s.now);
      id := h.key.request;
  }

  /**
   The refinement. A committed transaction is one automaton step of each request it is about, with the log
   growing by the words of that step, and a stutter of every other request; everything else is a stutter.
   */
  lemma EventRefines(cfg: Config, s: System, e: Event, x: RequestId)
    requires ServiceInv(cfg, s)
    ensures var after := Next(cfg, s, e).tables;
            if Committed(cfg, s, e) && x in Touched(s, e) then Steps(s.tables, after, x)
            else Stutters(s.tables, after, x)
  {
    assert Inv(s.tables, cfg.words);
    hide ServiceInv, Inv, Steps, Transaction;
    if !Committed(cfg, s, e) {
      assert TablesAfter(cfg, s, e) == s.tables;
    } else if e.SubmitRequest? {
      SubmitRefines(cfg, s, e, x);
    } else if e.RunReaper? {
      ReaperRefines(cfg, s, e, x);
    } else {
      var id := SingleAdvances(cfg, s, e);
      if x == id {
        AdvanceSteps(s.tables, TablesAfter(cfg, s, e), id);
      } else {
        AdvanceStutters(s.tables, TablesAfter(cfg, s, e), id, x);
      }
    }
  }

  // ----- A bound on every run -----

  /** How many steps a request in this state can still make. */
  function Rank(a: Option<RequestStatus>): nat {
    match a
    case None => 6
    case Some(Submitted) => 5
    case Some(Approved) => 4
    case Some(Provisioning) => 3
    case Some(Invited) => 2
    case Some(Activating) => 1
    case _ => 0
  }

  /** How often the request changed its status, or appeared, in a run. */
  function Transitions(cfg: Config, s: System, run: seq<Event>, id: RequestId): nat {
    if run == [] then 0 else
    var init := run[..|run| - 1];
    Transitions(cfg, s, init, id)
    + if Life(Run(cfg, s, init).tables, id) != Life(Run(cfg, s, run).tables, id) then 1 else 0
  }

  /** Each event costs a request at least as much rank as it makes transitions. */
  lemma EventCostsRank(cfg: Config, s: System, e: Event, id: RequestId)
    requires ServiceInv(cfg, s)
    ensures var a, b := Life(s.tables, id), Life(Next(cfg, s, e).tables, id);
            Rank(b) + (if a != b then 1 else 0) <= Rank(a)
  {
    hide ServiceInv, Next, Committed, Touched;
    EventRefines(cfg, s, e, id);
  }

  lemma {:induction false} TransitionsBounded(cfg: Config, s: System, run: seq<Event>, id: RequestId)
    requires ServiceInv(cfg, s)
    ensures Transitions(cfg, s, run, id) + Rank(Life(Run(cfg, s, run).tables, id)) <= Rank(Life(s.tables, id))
  {
    if run != [] {
      var init, e := run[..|run| - 1], run[|run| - 1];
      hide ServiceInv, Next, Rank, Life;
      TransitionsBounded(cfg, s, init, id);
      RunKeeps(cfg, s, init);
      EventCostsRank(cfg, Run(cfg, s, init), e, id);
    }
  }

  /** A request is submitted once and then changes its status at most five times, however long the service runs. */
  lemma SixTransitionsAtMost(cfg: Config, now: Time, run: seq<Event>, id: RequestId)
    ensures Transitions(cfg, Start(now), run, id) <= 6
    ensures Transitions(cfg, Start(now), run, id) == 0 <==> id !in Run(cfg, Start(now), run).tables.requests
  {
    RunIsSafe(cfg, now, []);
    TransitionsBounded(cfg, Start(now), run, id);
    AppearedOnce(cfg, now, run, id);
  }

  lemma {:induction false} AppearedOnce(cfg: Config, now: Time, run: seq<Event>, id: RequestId)
    ensures Transitions(cfg, Start(now), run, id) == 0 <==> id !in Run(cfg, Start(now), run).tables.requests
  {
    if run != [] {
      var init, e := run[..|run| - 1], run[|run| - 1];
      AppearedOnce(cfg, now, init, id);
      RunIsSafe(cfg, now, init);
      hide ServiceInv, Next, Committed, Touched;
      EventRefines(cfg, Run(cfg, Start(now), init), e, id);
    }
  }
}
