/** The lease against the call timeout: exactly which calls in flight the reaper can mark ambiguous. */
module OnboardingLease {
  import opened Wrappers
  import Text
  import opened OnboardingSchema
  import opened OnboardingTransactions
  import opened OnboardingInvariant
  import opened OnboardingCommits
  import opened OnboardingService
  import opened OnboardingSafety
  import opened OnboardingSchedules
  import opened OnboardingTheorems
  import opened OnboardingLimits
  import opened OnboardingDeadEnds
  import Reaper

  /** The handler is in the middle of its call, as it was in `s`, and its operation is ambiguous already. */
  predicate CaughtInFlight(s: System, after: System, h: nat)
    requires h in s.handlers
  {
    && h in after.handlers && after.handlers[h] == s.handlers[h]
    && OperationState(after.tables, s.handlers[h].key) == Some(Ambiguous)
  }

  predicate Prompt(h: Handler)
    requires h.phase.Calling?
  {
    h.phase.startedAt <= h.claimedAt + PROMPT
  }

  /** The call is out of the reaper's reach: it began early enough, or its row cannot be written. */
  predicate OutOfReach(cfg: Config, s: System, h: Handler)
    requires h.phase.Calling?
  {
    Prompt(h) || !CanReap(cfg, s.tables, h.key)
  }

  // ----- A late call is caught -----

  /**
   The others crash, the call uses its whole timeout, and the reaper comes: a late call is still in flight
   when its operation becomes ambiguous.
   */
  lemma LateCallCaught(cfg: Config, s: System, h: nat) returns (run: seq<Event>)
    requires ServiceInv(cfg, s) && h in s.handlers && s.handlers[h].phase.Calling?
    requires IsRunning(s.tables, s.handlers[h].key) && !OutOfReach(cfg, s, s.handlers[h])
    ensures CaughtInFlight(s, Run(cfg, s, run), h)
  {
    hide ServiceInv, Run, Next, CanReap;
    var handler := s.handlers[h];
    HandlerOf(cfg, s, h);
    var before := ReaperTakes(cfg, s, handler.key, {h}, handler.phase.startedAt + CALL_TIMEOUT);
    var pass := RunReaper([handler.key]);
    run := before + [pass];
    RunOne(cfg, Run(cfg, s, before), pass);
    RunConcat(cfg, s, before, [pass]);
  }

  lemma HandlerOf(cfg: Config, s: System, h: nat)
    requires ServiceInv(cfg, s) && h in s.handlers
    ensures HandlerInv(s, s.handlers[h])
    ensures forall g <- s.handlers.Keys :: g != h ==> s.handlers[g].key != s.handlers[h].key
  {
  }

  // ----- Any other call is not -----

  /** While the handler is as it was, its operation runs; and once it has moved on, it never is as it was again. */
  ghost predicate Untouched(s: System, after: System, h: nat)
    requires h in s.handlers
  {
    var handler := s.handlers[h];
    && handler.key in after.tables.operations
    && (forall g <- after.handlers.Keys :: after.handlers[g].key == handler.key ==>
          (g == h && after.handlers[g] == handler && IsRunning(after.tables, handler.key))
          || after.handlers[g].phase.Returned?)
  }

  lemma ClaimedOnce(cfg: Config, s: System, e: Event, key: OperationKey)
    requires ServiceInv(cfg, s) && key in s.tables.operations
    requires e.StartHandler? && e.key == key
    ensures HandlersAfter(cfg, s, e) == s.handlers
  {
    hide ServiceInv, Inv, UsableKeycloakUser, Claim, Claims, Advances;
    ServiceParts(cfg, s);
    ClaimCommits(s.tables, cfg.words, key, Text.TrimSpace(e.keycloakUser), s.now);
  }

  /** The operation of a call in flight changes only by its own record, or by a pass that reaches it. */
  lemma InFlightStep(cfg: Config, s: System, e: Event, h: nat)
    requires ServiceInv(cfg, s) && h in s.handlers && s.handlers[h].phase.Calling?
    requires IsRunning(s.tables, s.handlers[h].key) && OutOfReach(cfg, s, s.handlers[h])
    ensures IsRunning(Next(cfg, s, e).tables, s.handlers[h].key)
  {
    hide ServiceInv, Record, Reap, Selectable, TablesAfter, CanReap;
    var key := s.handlers[h].key;
    HandlerOf(cfg, s, h);
    match e
    case RecordResult(g) =>
      if g in s.handlers && s.handlers[g].phase.Returned? {
        OtherResult(cfg, s, g, key);
      } else {
        QuietStep(cfg, s, e);
      }
    case RunReaper(batch) =>
      if Prompt(s.handlers[h]) {
        PromptCallsNotReaped(cfg, s, h, batch);
      } else {
        PassStep(cfg, s, batch, key);
      }
    case SubmitRequest(_, _, _) => RestOfOperations(cfg, s, e, key);
    case DecideRequest(_, _, _, _) => RestOfOperations(cfg, s, e, key);
    case StartHandler(_, _, _, _) => RestOfOperations(cfg, s, e, key);
    case _ => QuietStep(cfg, s, e);
  }

  lemma HandlersStep(cfg: Config, s: System, now: System, e: Event, h: nat)
    requires ServiceInv(cfg, now) && h in s.handlers && s.handlers[h].phase.Calling? && Untouched(s, now, h)
    ensures forall g <- Next(cfg, now, e).handlers.Keys :: Next(cfg, now, e).handlers[g].key == s.handlers[h].key ==>
              (g == h && g in now.handlers && Next(cfg, now, e).handlers[g] == now.handlers[g] == s.handlers[h])
              || Next(cfg, now, e).handlers[g].phase.Returned?
  {
    hide ServiceInv, TablesAfter, Transaction, IsRunning;
    if e.StartHandler? && e.key == s.handlers[h].key {
      ClaimedOnce(cfg, now, e, e.key);
    }
  }

  lemma ReachStays(cfg: Config, s: System, run: seq<Event>, h: Handler)
    requires ServiceInv(cfg, s) && h.phase.Calling? && OutOfReach(cfg, s, h) && h.key.request in s.tables.requests
    ensures OutOfReach(cfg, Run(cfg, s, run), h)
  {
    hide ServiceInv, Run, Reaper.RowReapable, LegalActor;
    if !Reaper.RowReapable(s.tables, cfg.words, h.key) {
      UnreapableStays(cfg, s, run, h.key);
    }
  }

  lemma UntouchedStep(cfg: Config, s: System, now: System, e: Event, h: nat)
    requires ServiceInv(cfg, now) && h in s.handlers && s.handlers[h].phase.Calling? && Untouched(s, now, h)
    requires OutOfReach(cfg, now, s.handlers[h])
    ensures Untouched(s, Next(cfg, now, e), h)
  {
    hide ServiceInv, Next, OutOfReach, IsRunning;
    HandlersStep(cfg, s, now, e, h);
    StepKeeps(cfg, now, e);
    TablesGrow(cfg, now, e);
    if h in now.handlers && now.handlers[h] == s.handlers[h] {
      InFlightStep(cfg, now, e, h);
    }
  }

  lemma TablesGrow(cfg: Config, s: System, e: Event)
    requires ServiceInv(cfg, s)
    ensures Grows(s.tables, Next(cfg, s, e).tables)
  {
    hide Next, Grows, Inv;
    TablesKeep(cfg, s, e);
  }

  lemma {:induction false} UntouchedInEveryRun(cfg: Config, s: System, run: seq<Event>, h: nat)
    requires ServiceInv(cfg, s) && h in s.handlers && s.handlers[h].phase.Calling?
    requires IsRunning(s.tables, s.handlers[h].key) && OutOfReach(cfg, s, s.handlers[h])
    ensures Untouched(s, Run(cfg, s, run), h)
  {
    hide ServiceInv, Next, OutOfReach, IsRunning;
    RunningHasRequest(cfg, s, s.handlers[h].key);
    if run == [] {
      HandlerOf(cfg, s, h);
    } else {
      hide Untouched;
      var init := run[..|run| - 1];
      UntouchedInEveryRun(cfg, s, init, h);
      RunKeeps(cfg, s, init);
      ReachStays(cfg, s, init, s.handlers[h]);
      UntouchedStep(cfg, s, Run(cfg, s, init), run[|run| - 1], h);
    }
  }

  /**
   The exact condition: a call in flight can be marked ambiguous if and only if it began more than 40 seconds
   after its claim and the reaper can write its row.
   */
  lemma CaughtInFlightIff(cfg: Config, s: System, h: nat)
    requires ServiceInv(cfg, s) && h in s.handlers && s.handlers[h].phase.Calling?
    requires IsRunning(s.tables, s.handlers[h].key)
    ensures (exists run :: CaughtInFlight(s, Run(cfg, s, run), h))
            <==> s.handlers[h].phase.startedAt > s.handlers[h].claimedAt + 40 * SECOND
                 && CanReap(cfg, s.tables, s.handlers[h].key)
  {
    hide ServiceInv, Run, CanReap;
    if OutOfReach(cfg, s, s.handlers[h]) {
      forall run
        ensures !CaughtInFlight(s, Run(cfg, s, run), h)
      {
        UntouchedInEveryRun(cfg, s, run, h);
      }
    } else {
      var run := LateCallCaught(cfg, s, h);
    }
  }
}
