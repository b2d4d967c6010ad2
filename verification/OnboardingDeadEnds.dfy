/**
 When the reaper is stuck. A row that it cannot write, because the word is not allowed or because another
 request of the person has the ambiguous status for good, undoes every pass that selects it.
 */
module OnboardingDeadEnds {
  import opened Wrappers
  import Text
  import opened OnboardingSchema
  import opened OnboardingTransactions
  import opened OnboardingInvariant
  import opened OnboardingCommits
  import opened OnboardingService
  import opened OnboardingSafety
  import opened OnboardingSchedules
  import opened OnboardingTheorems
  import opened OnboardingLifecycle
  import opened DecisionLog
  import opened OnboardingLimits
  import opened SubmitInputs
  import Reaper

  // ----- What is never undone -----

  /** A finished request keeps its status over every run; an ambiguous one too. */
  lemma {:induction false} FinishedStays(cfg: Config, s: System, run: seq<Event>, id: RequestId)
    requires ServiceInv(cfg, s) && id in s.tables.requests && Rank(Life(s.tables, id)) == 0
    ensures Life(Run(cfg, s, run).tables, id) == Life(s.tables, id)
  {
    if run != [] {
      var init := run[..|run| - 1];
      hide ServiceInv, Next, Rank, Life;
      FinishedStays(cfg, s, init, id);
      RunKeeps(cfg, s, init);
      EventCostsRank(cfg, Run(cfg, s, init), run[|run| - 1], id);
    }
  }

  /** So a request that is kept out of a final status by another one is kept out for good. */
  lemma BlockedStays(cfg: Config, s: System, run: seq<Event>, id: RequestId, status: RequestStatus)
    requires ServiceInv(cfg, s) && id in s.tables.requests && Rank(Some(status)) == 0
    requires Blocked(s.tables, id, status)
    ensures id in Run(cfg, s, run).tables.requests && Blocked(Run(cfg, s, run).tables, id, status)
  {
    hide ServiceInv, Run, Rank;
    RunGrows(cfg, s, run);
    var t := s.tables;
    var other :| other in t.requests.Keys && other != id && t.requests[other].status == status
                 && SamePerson(t.requests[other].identity, t.requests[id].identity);
    FinishedStays(cfg, s, run, other);
  }

  // ----- Whether the reaper can take a row -----

  /**
   The reaper can take a running operation: the word is allowed, no other request of the person has the
   ambiguous status, and its own name fits the column.
   */
  predicate CanReap(cfg: Config, t: Tables, key: OperationKey) {
    Reaper.RowReapable(t, cfg.words, key) && LegalActor(cfg.serviceActor)
  }

  lemma UnreapableStays(cfg: Config, s: System, run: seq<Event>, key: OperationKey)
    requires ServiceInv(cfg, s) && key.request in s.tables.requests && !Reaper.RowReapable(s.tables, cfg.words, key)
    ensures !Reaper.RowReapable(Run(cfg, s, run).tables, cfg.words, key)
  {
    hide ServiceInv, Run, Blocked;
    if ResultWord(key.kind, false) in cfg.words {
      BlockedStays(cfg, s, run, key.request, ResultStatus(key.kind, false));
    }
  }

  lemma RunningHasRequest(cfg: Config, s: System, key: OperationKey)
    requires ServiceInv(cfg, s) && IsRunning(s.tables, key)
    ensures key.request in s.tables.requests && s.tables.requests[key.request].status == RunningStatus(key.kind)
  {
    assert Inv(s.tables, cfg.words);
    RunningCoupling(s.tables, cfg.words, key);
    hide ServiceInv, Inv;
  }

  /** A pass that selects a row it cannot write changes nothing at all. */
  lemma PassIsVain(cfg: Config, s: System, batch: seq<OperationKey>, key: OperationKey)
    requires ServiceInv(cfg, s) && key in batch && !CanReap(cfg, s.tables, key)
    ensures Next(cfg, s, RunReaper(batch)) == s
  {
    hide ServiceInv, Next, Inv, Reap, Reaper.Reaped, Reaper.RowReapable, Selectable;
    ServiceParts(cfg, s);
    ReaperShape(cfg, s, batch);
    if Selectable(s.tables, batch, s.now) {
      SelectableRuns(s.tables, batch, s.now);
      Reaper.ReapCommits(s.tables, cfg.words, batch, cfg.serviceActor, s.now);
    }
  }

  lemma ServiceParts(cfg: Config, s: System)
    requires ServiceInv(cfg, s)
    ensures Inv(s.tables, cfg.words) && HandlersInv(s)
  {
  }

  lemma SelectableRuns(t: Tables, batch: seq<OperationKey>, now: Time)
    requires Selectable(t, batch, now)
    ensures Reaper.RunningBatch(t, batch)
  {
  }

  /** Time passes and everybody but `keep` crashes; then a pass takes this row. */
  lemma ReaperTakes(cfg: Config, s: System, key: OperationKey, keep: set<nat>, to: Time) returns (run: seq<Event>)
    requires ServiceInv(cfg, s) && IsRunning(s.tables, key) && CanReap(cfg, s.tables, key)
    requires s.now <= to && s.tables.operations[key].lease < to
    requires forall h <- s.handlers.Keys :: h in keep && s.handlers[h].phase.Calling? ==>
               to <= s.handlers[h].phase.startedAt + CALL_TIMEOUT
    ensures Run(cfg, s, run) == s.(handlers := Kept(s.handlers, keep), now := to)
    ensures var after := Next(cfg, Run(cfg, s, run), RunReaper([key]));
            OperationState(after.tables, key) == Some(Ambiguous) && after.handlers == Kept(s.handlers, keep)
  {
    hide ServiceInv, Next, Run, Inv;
    var quiet := s.(handlers := Kept(s.handlers, keep));
    var crashes := OthersCrash(cfg, s, keep);
    TickStep(cfg, quiet, to);
    RunOne(cfg, quiet, Tick(to));
    RunConcat(cfg, s, crashes, [Tick(to)]);
    run := crashes + [Tick(to)];
    ServiceParts(cfg, s);
    ReaperShape(cfg, quiet.(now := to), [key]);
    OneRowReaped(s.tables, cfg.words, key, cfg.serviceActor, to);
  }

  lemma OneRowReaped(t: Tables, words: set<DecisionWord>, key: OperationKey, actor: string, now: Time)
    requires Inv(t, words) && Expired(t, key, now) && Reaper.RowReapable(t, words, key) && LegalActor(actor)
    ensures Selectable(t, [key], now)
    ensures OperationState(After(t, Reap(t, words, [key], actor, now)), key) == Some(Ambiguous)
  {
    hide Inv, Reap, Reaper.RowReapable;
    Reaper.ReapCommits(t, words, [key], actor, now);
  }

  /**
   The exact condition: a running operation is safe from the reaper in every continuation if and only if its
   row cannot be written now. Then each pass that selects it changes nothing.
   */
  lemma NeverReapedIff(cfg: Config, s: System, key: OperationKey)
    requires ServiceInv(cfg, s) && IsRunning(s.tables, key)
    ensures (forall run, batch | key in batch :: Next(cfg, Run(cfg, s, run), RunReaper(batch)) == Run(cfg, s, run))
            <==> !CanReap(cfg, s.tables, key)
  {
    hide ServiceInv, Next, Run, Reaper.RowReapable, LegalActor;
    RunningHasRequest(cfg, s, key);
    if CanReap(cfg, s.tables, key) {
      var lease := s.tables.operations[key].lease;
      var run := ReaperTakes(cfg, s, key, {}, if s.now <= lease then lease + 1 else s.now);
      assert key in [key];
    } else {
      forall run, batch | key in batch
        ensures Next(cfg, Run(cfg, s, run), RunReaper(batch)) == Run(cfg, s, run)
      {
        RunKeeps(cfg, s, run);
        if !Reaper.RowReapable(s.tables, cfg.words, key) {
          UnreapableStays(cfg, s, run, key);
        }
        PassIsVain(cfg, Run(cfg, s, run), batch, key);
      }
    }
  }

  // ----- Whether anybody can end an operation -----

  /** An operation that is ambiguous got there through a row that could be written, and still could. */
  lemma AmbiguousIsReapable(t: Tables, words: set<DecisionWord>, key: OperationKey)
    requires Inv(t, words) && key in t.operations
    ensures t.operations[key].status in {Running, Succeeded, Ambiguous}
    ensures t.operations[key].status == Ambiguous ==> Reaper.RowReapable(t, words, key)
  {
    hide Inv, Words, Log, OneOutcome, Constraints, Twin;
    InvParts(t, words);
    OperationOfRequest(t, words, key);
    InvCoupled(t, words, key.request);
    var status := t.requests[key.request].status;
    assert key == OperationKey(key.request, key.kind);
    assert OperationState(t, key) == ExpectedOperation(key.kind, status);
    if t.operations[key].status == Ambiguous {
      assert status == ResultStatus(key.kind, false);
      assert Words(t.decisions, key.request)[|Trail(status)| - 1] == ResultWord(key.kind, false);
      WordsHold(t.decisions, key.request, ResultWord(key.kind, false));
      WordIsLegal(t, words);
      assert t.requests[key.request].(status := status) == t.requests[key.request];
    }
  }

  lemma OperationOfRequest(t: Tables, words: set<DecisionWord>, key: OperationKey)
    requires Constraints(t, words) && key in t.operations
    ensures key.request in t.requests
  {
    hide UniquePersonStatus, OneOutcome;
  }

  lemma WordIsLegal(t: Tables, words: set<DecisionWord>)
    requires Constraints(t, words)
    ensures forall d <- t.decisions :: d.word in words
  {
    hide UniquePersonStatus, OneOutcome;
  }

  /** No handler can still bring a success: each one that holds this operation has seen its call fail. */
  predicate Hopeless(s: System, key: OperationKey) {
    forall h <- s.handlers.Keys :: s.handlers[h].key == key ==> s.handlers[h].phase == Returned(false)
  }

  predicate Held(s: System, key: OperationKey) {
    exists h <- s.handlers.Keys :: s.handlers[h].key == key
  }

  /** Somebody can still write the failure of this operation: the reaper, or the handler that holds it. */
  predicate CanFail(cfg: Config, s: System, key: OperationKey) {
    Reaper.RowReapable(s.tables, cfg.words, key) && (LegalActor(cfg.serviceActor) || Held(s, key))
  }

  /** A running operation that nobody can end. */
  ghost predicate Stuck(cfg: Config, s: System, key: OperationKey) {
    IsRunning(s.tables, key) && Hopeless(s, key) && !CanFail(cfg, s, key)
  }

  /** No claim takes a running operation again. */
  lemma NoSecondClaim(cfg: Config, s: System, e: Event, key: OperationKey)
    requires ServiceInv(cfg, s) && IsRunning(s.tables, key)
    requires e.StartHandler? && e.key == key
    ensures HandlersAfter(cfg, s, e) == s.handlers && TablesAfter(cfg, s, e) == s.tables
  {
    hide ServiceInv, Inv, Text.TrimSpace, UsableKeycloakUser, Claim, Claims, Advances;
    ServiceParts(cfg, s);
    RunningHasRequest(cfg, s, key);
    ClaimCommits(s.tables, cfg.words, key, Text.TrimSpace(e.keycloakUser), s.now);
  }

  lemma HopelessStays(cfg: Config, s: System, e: Event, key: OperationKey)
    requires ServiceInv(cfg, s) && IsRunning(s.tables, key) && Hopeless(s, key)
    ensures Hopeless(Next(cfg, s, e), key)
    ensures Held(Next(cfg, s, e), key) ==> Held(s, key)
  {
    hide ServiceInv, TablesAfter, Transaction;
    if e.StartHandler? && e.key == key {
      NoSecondClaim(cfg, s, e, key);
    }
  }

  /** A failure that cannot be written is refused. */
  lemma FailureRefused(cfg: Config, s: System, h: nat)
    requires ServiceInv(cfg, s) && h in s.handlers && s.handlers[h].phase == Returned(false)
    requires Stuck(cfg, s, s.handlers[h].key)
    ensures Next(cfg, s, RecordResult(h)).tables == s.tables
  {
    hide ServiceInv, Next, Blocked;
    RunningHasRequest(cfg, s, s.handlers[h].key);
    ResultAgainstReaper(cfg, s, h);
  }

  lemma OtherResult(cfg: Config, s: System, h: nat, key: OperationKey)
    requires ServiceInv(cfg, s) && h in s.handlers && s.handlers[h].phase.Returned? && s.handlers[h].key != key
    requires key in s.tables.operations
    ensures var after := Next(cfg, s, RecordResult(h)).tables;
            key in after.operations && after.operations[key] == s.tables.operations[key]
  {
    hide ServiceInv, Next, Blocked, ResultReason;
    ResultAgainstReaper(cfg, s, h);
  }

  /** Submissions, decisions and claims leave the operations of others alone. */
  lemma RestOfOperations(cfg: Config, s: System, e: Event, key: OperationKey)
    requires ServiceInv(cfg, s) && IsRunning(s.tables, key)
    requires e.SubmitRequest? || e.DecideRequest? || e.StartHandler?
    ensures var after := TablesAfter(cfg, s, e);
            key in after.operations && after.operations[key] == s.tables.operations[key]
  {
    hide ServiceInv, Inv, Text.TrimSpace, UsableKeycloakUser, Acceptable, Normalized, Claim, Create, Decide, Advances;
    ServiceParts(cfg, s);
    match e
    case SubmitRequest(id, requester, input) =>
      CreateCommits(s.tables, cfg.words, id, IdentityOf(Normalized(input), requester), s.now);
    case DecideRequest(approver, id, choice, reason) =>
      DecideCommits(s.tables, cfg.words, id, approver.subject, choice, Text.TrimSpace(reason), s.now);
    case StartHandler(_, _, claimed, user) =>
      ClaimCommits(s.tables, cfg.words, claimed, Text.TrimSpace(user), s.now);
      RunningHasRequest(cfg, s, key);
  }

  lemma PassStep(cfg: Config, s: System, batch: seq<OperationKey>, key: OperationKey)
    requires ServiceInv(cfg, s) && IsRunning(s.tables, key) && !CanReap(cfg, s.tables, key)
    ensures var after := Next(cfg, s, RunReaper(batch)).tables;
            key in after.operations && after.operations[key] == s.tables.operations[key]
  {
    hide ServiceInv, Inv, Next, Reap, Reaper.RowReapable, Selectable;
    if key in batch {
      PassIsVain(cfg, s, batch, key);
    } else {
      ServiceParts(cfg, s);
      ReaperShape(cfg, s, batch);
      if Selectable(s.tables, batch, s.now) {
        OutsideBatch(s.tables, cfg.words, batch, cfg.serviceActor, s.now, key);
      }
    }
  }

  lemma QuietStep(cfg: Config, s: System, e: Event)
    requires Transaction(cfg, s, e).None?
    ensures Next(cfg, s, e).tables == s.tables
  {
    hide Transaction;
  }

  lemma StuckStep(cfg: Config, s: System, e: Event, key: OperationKey)
    requires ServiceInv(cfg, s) && Stuck(cfg, s, key)
    ensures var after := Next(cfg, s, e).tables;
            key in after.operations && after.operations[key] == s.tables.operations[key]
  {
    hide ServiceInv, Reaper.RowReapable, Record, Reap, Selectable, TablesAfter;
    match e
    case RecordResult(h) =>
      if h in s.handlers && s.handlers[h].phase.Returned? {
        if s.handlers[h].key == key {
          FailureRefused(cfg, s, h);
        } else {
          OtherResult(cfg, s, h, key);
        }
      } else {
        QuietStep(cfg, s, e);
      }
    case RunReaper(batch) => PassStep(cfg, s, batch, key);
    case SubmitRequest(_, _, _) => RestOfOperations(cfg, s, e, key);
    case DecideRequest(_, _, _, _) => RestOfOperations(cfg, s, e, key);
    case StartHandler(_, _, _, _) => RestOfOperations(cfg, s, e, key);
    case _ => QuietStep(cfg, s, e);
  }

  /** A stuck operation is stuck for good: no run ever changes its row again. */
  lemma {:induction false} StuckForGood(cfg: Config, s: System, run: seq<Event>, key: OperationKey)
    requires ServiceInv(cfg, s) && Stuck(cfg, s, key)
    ensures Stuck(cfg, Run(cfg, s, run), key)
    ensures Run(cfg, s, run).tables.operations[key] == s.tables.operations[key]
  {
    hide ServiceInv, Next, Reaper.RowReapable, Hopeless, Held, LegalActor;
    if run != [] {
      var init, e := run[..|run| - 1], run[|run| - 1];
      var before := Run(cfg, s, init);
      StuckForGood(cfg, s, init, key);
      RunKeeps(cfg, s, init);
      StuckStep(cfg, before, e, key);
      HopelessStays(cfg, before, e, key);
      RunningHasRequest(cfg, before, key);
      if !Reaper.RowReapable(before.tables, cfg.words, key) {
        UnreapableStays(cfg, before, [e], key);
        RunOne(cfg, before, e);
      }
    }
  }

  /** In particular, an operation whose row cannot be written ends by a recorded success or not at all. */
  lemma StuckUntilSuccess(cfg: Config, s: System, run: seq<Event>, key: OperationKey)
    requires ServiceInv(cfg, s) && IsRunning(s.tables, key) && !Reaper.RowReapable(s.tables, cfg.words, key)
    ensures var after := Run(cfg, s, run);
            key in after.tables.operations
            && (after.tables.operations[key] == s.tables.operations[key]
                || (after.tables.operations[key].status == Succeeded && key in after.completed && !Hopeless(s, key)))
  {
    hide ServiceInv, Run, Reaper.RowReapable, Hopeless;
    RunGrows(cfg, s, run);
    RunKeeps(cfg, s, run);
    RunningHasRequest(cfg, s, key);
    UnreapableStays(cfg, s, run, key);
    var after := Run(cfg, s, run);
    ServiceParts(cfg, after);
    AmbiguousIsReapable(after.tables, cfg.words, key);
    if after.tables.operations[key].status == Succeeded {
      SucceededIsCompleted(cfg, after, key);
    }
    if Hopeless(s, key) {
      StuckForGood(cfg, s, run, key);
    }
  }

  lemma SucceededIsCompleted(cfg: Config, s: System, key: OperationKey)
    requires ServiceInv(cfg, s) && key in s.tables.operations && s.tables.operations[key].status == Succeeded
    ensures key in s.completed
  {
  }

  /** The row of this operation is the same in every continuation. */
  ghost predicate NeverChanges(cfg: Config, s: System, key: OperationKey)
    requires key in s.tables.operations
  {
    forall run :: key in Run(cfg, s, run).tables.operations
                  && Run(cfg, s, run).tables.operations[key] == s.tables.operations[key]
  }

  /** The exact condition for an operation whose handler is gone or has seen its call fail. */
  lemma NeverChangesIff(cfg: Config, s: System, key: OperationKey)
    requires ServiceInv(cfg, s) && IsRunning(s.tables, key) && Hopeless(s, key)
    ensures NeverChanges(cfg, s, key) <==> !CanFail(cfg, s, key)
  {
    hide ServiceInv, Next, Run, Reaper.RowReapable, LegalActor;
    if !CanFail(cfg, s, key) {
      hide Hopeless;
      forall run
        ensures key in Run(cfg, s, run).tables.operations
        ensures Run(cfg, s, run).tables.operations[key] == s.tables.operations[key]
      {
        StuckForGood(cfg, s, run, key);
      }
    } else {
      var run := EndsSomehow(cfg, s, key);
      assert Run(cfg, s, run).tables.operations[key] != s.tables.operations[key];
    }
  }

  lemma EndsSomehow(cfg: Config, s: System, key: OperationKey) returns (run: seq<Event>)
    requires ServiceInv(cfg, s) && IsRunning(s.tables, key) && Hopeless(s, key) && CanFail(cfg, s, key)
    ensures OperationState(Run(cfg, s, run).tables, key) == Some(Ambiguous)
  {
    hide ServiceInv, Next, Run, Blocked, LegalActor;
    RunningHasRequest(cfg, s, key);
    if LegalActor(cfg.serviceActor) {
      var lease := s.tables.operations[key].lease;
      var before := ReaperTakes(cfg, s, key, {}, if s.now <= lease then lease + 1 else s.now);
      run := before + [RunReaper([key])];
      RunOne(cfg, Run(cfg, s, before), RunReaper([key]));
      RunConcat(cfg, s, before, [RunReaper([key])]);
    } else {
      var h :| h in s.handlers.Keys && s.handlers[h].key == key;
      ResultAgainstReaper(cfg, s, h);
      run := [RecordResult(h)];
      RunOne(cfg, s, RecordResult(h));
    }
  }

  // ----- The reaper as a whole -----

  /** Every pass of the reaper in this run found all expired operations: no row was locked by somebody else. */
  ghost predicate FullPasses(cfg: Config, s: System, run: seq<Event>) {
    forall i :: 0 <= i < |run| && run[i].RunReaper? ==>
      var before := Run(cfg, s, run[..i]);
      forall key :: Expired(before.tables, key, before.now) ==> key in run[i].batch
  }

  /** No full pass changes anything, for any operation, in any continuation. */
  ghost predicate Wedged(cfg: Config, s: System) {
    forall run: seq<Event>, i: int | FullPasses(cfg, s, run) && 0 <= i < |run| && run[i].RunReaper? ::
      Run(cfg, s, run[..i + 1]) == Run(cfg, s, run[..i])
  }

  lemma PassAt(cfg: Config, s: System, run: seq<Event>, i: nat)
    requires i < |run|
    ensures Run(cfg, s, run[..i + 1]) == Next(cfg, Run(cfg, s, run[..i]), run[i])
  {
    hide Next;
    assert run[..i + 1][..i] == run[..i];
    LastEvent(cfg, s, run[..i + 1]);
  }

  /** One expired operation that is stuck wedges the reaper for good, for all operations. */
  lemma ReaperWedged(cfg: Config, s: System, key: OperationKey)
    requires ServiceInv(cfg, s) && Expired(s.tables, key, s.now) && Stuck(cfg, s, key)
    ensures Wedged(cfg, s)
  {
    hide ServiceInv, Next, Run, Reaper.RowReapable, Hopeless, Held, LegalActor;
    forall run: seq<Event>, i: int | FullPasses(cfg, s, run) && 0 <= i < |run| && run[i].RunReaper?
      ensures Run(cfg, s, run[..i + 1]) == Run(cfg, s, run[..i])
    {
      var before := Run(cfg, s, run[..i]);
      StuckForGood(cfg, s, run[..i], key);
      ClockForward(cfg, s, run[..i]);
      assert Expired(before.tables, key, before.now);
      RunKeeps(cfg, s, run[..i]);
      PassIsVain(cfg, before, run[i].batch, key);
      PassAt(cfg, s, run, i);
    }
  }

  /** A reaper whose own name does not fit its column never changes anything. */
  lemma NamelessReaper(cfg: Config, s: System)
    requires ServiceInv(cfg, s) && !LegalActor(cfg.serviceActor)
    ensures Wedged(cfg, s)
  {
    hide ServiceInv, Next, Run, Reaper.RowReapable, LegalActor;
    forall run: seq<Event>, i: int | FullPasses(cfg, s, run) && 0 <= i < |run| && run[i].RunReaper?
      ensures Run(cfg, s, run[..i + 1]) == Run(cfg, s, run[..i])
    {
      var before := Run(cfg, s, run[..i]);
      RunKeeps(cfg, s, run[..i]);
      PassAt(cfg, s, run, i);
      if run[i].batch != [] {
        PassIsVain(cfg, before, run[i].batch, run[i].batch[0]);
      } else {
        EmptyPass(cfg, before);
      }
    }
  }

  lemma EmptyPass(cfg: Config, s: System)
    ensures Next(cfg, s, RunReaper([])) == s
  {
  }

  lemma {:induction false} Enumerated(keys: set<OperationKey>) returns (batch: seq<OperationKey>)
    ensures forall key :: key in batch <==> key in keys
    ensures forall i, j :: 0 <= i < j < |batch| ==> batch[i] != batch[j]
  {
    if key :| key in keys {
      var rest := Enumerated(keys - {key});
      batch := [key] + rest;
    } else {
      batch := [];
    }
  }

  /** A possible answer of the query that leaves out no expired operation. */
  predicate FullBatch(s: System, batch: seq<OperationKey>) {
    && Selectable(s.tables, batch, s.now)
    && forall key <- s.tables.operations.Keys :: Expired(s.tables, key, s.now) ==> key in batch
  }

  /** Every operation that was expired is ambiguous now. */
  ghost predicate AllTaken(s: System, after: System) {
    forall key | Expired(s.tables, key, s.now) :: OperationState(after.tables, key) == Some(Ambiguous)
  }

  ghost predicate AllReapable(cfg: Config, s: System) {
    forall key | Expired(s.tables, key, s.now) :: CanReap(cfg, s.tables, key)
  }

  /** A full pass that can write every row takes them all. */
  lemma FullPassTakes(cfg: Config, s: System, batch: seq<OperationKey>)
    requires ServiceInv(cfg, s) && AllReapable(cfg, s) && FullBatch(s, batch)
    ensures AllTaken(s, Next(cfg, s, RunReaper(batch)))
  {
    hide ServiceInv, Inv, Next, Reap, Reaper.RowReapable, LegalActor;
    ServiceParts(cfg, s);
    ReaperShape(cfg, s, batch);
    Reaper.ReapCommits(s.tables, cfg.words, batch, cfg.serviceActor, s.now);
  }

  lemma FullBatchExists(cfg: Config, s: System) returns (batch: seq<OperationKey>)
    ensures FullBatch(s, batch) && FullPasses(cfg, s, [RunReaper(batch)])
  {
    hide Next;
    var t := s.tables;
    batch := Enumerated(set key | key in t.operations && Expired(t, key, s.now));
    assert [RunReaper(batch)][..0] == [] && Run(cfg, s, []) == s;
  }

  /** A full pass took something, so the reaper is not wedged. */
  lemma TakenIsNotWedged(cfg: Config, s: System, batch: seq<OperationKey>)
    requires FullPasses(cfg, s, [RunReaper(batch)]) && Next(cfg, s, RunReaper(batch)) != s
    ensures !Wedged(cfg, s)
  {
    hide Next, Run, FullPasses;
    var run := [RunReaper(batch)];
    PassAt(cfg, s, run, 0);
    EmptyRun(cfg, s);
    assert run[..0] == [] && Run(cfg, s, run[..0]) == s && Run(cfg, s, run[..0 + 1]) != s;
  }

  lemma UnwritableWedges(cfg: Config, s: System, key: OperationKey)
    requires ServiceInv(cfg, s) && Expired(s.tables, key, s.now)
    requires Hopeless(s, key) && !CanReap(cfg, s.tables, key)
    ensures Wedged(cfg, s)
  {
    hide ServiceInv, Hopeless, Held, Reaper.RowReapable, LegalActor, Wedged;
    if LegalActor(cfg.serviceActor) {
      ReaperWedged(cfg, s, key);
    } else {
      NamelessReaper(cfg, s);
    }
  }

  /**
   The exact condition for the whole reaper. When nobody else can end the expired operations, the reaper is
   wedged for good if and only if one of their rows cannot be written. Otherwise there is a full pass, and every
   full pass takes them all.
   */
  lemma WedgedIff(cfg: Config, s: System)
    requires ServiceInv(cfg, s) && exists key :: Expired(s.tables, key, s.now)
    requires forall key | Expired(s.tables, key, s.now) :: Hopeless(s, key)
    ensures Wedged(cfg, s) <==> exists key :: Expired(s.tables, key, s.now) && !CanReap(cfg, s.tables, key)
    ensures !Wedged(cfg, s) ==>
              && (exists batch :: FullBatch(s, batch))
              && forall batch | FullBatch(s, batch) :: AllTaken(s, Next(cfg, s, RunReaper(batch)))
  {
    hide ServiceInv, Next, Run, CanReap, Stuck, Hopeless, FullBatch, FullPasses, Wedged;
    if exists key :: Expired(s.tables, key, s.now) && !CanReap(cfg, s.tables, key) {
      var key :| Expired(s.tables, key, s.now) && !CanReap(cfg, s.tables, key);
      UnwritableWedges(cfg, s, key);
    } else {
      forall batch | FullBatch(s, batch)
        ensures AllTaken(s, Next(cfg, s, RunReaper(batch)))
      {
        FullPassTakes(cfg, s, batch);
      }
      var batch := FullBatchExists(cfg, s);
      var key :| Expired(s.tables, key, s.now);
      assert OperationState(Next(cfg, s, RunReaper(batch)).tables, key) == Some(Ambiguous);
      TakenIsNotWedged(cfg, s, batch);
    }
  }
}
