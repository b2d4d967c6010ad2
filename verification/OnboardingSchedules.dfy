/** Short runs, and what they leave alone: the building blocks of the runs that other modules construct. */
module OnboardingSchedules {
  import opened OnboardingSchema
  import opened OnboardingService
  import opened OnboardingSafety

  lemma RunOne(cfg: Config, s: System, e: Event)
    ensures Run(cfg, s, [e]) == Next(cfg, s, e)
  {
    hide Next;
    assert [e][..0] == [] && Run(cfg, s, []) == s;
  }

  lemma RunTwo(cfg: Config, s: System, a: Event, b: Event)
    ensures Run(cfg, s, [a, b]) == Next(cfg, Next(cfg, s, a), b)
  {
    hide Next;
    assert [a, b][..1] == [a];
    RunOne(cfg, s, a);
  }

  lemma RunThree(cfg: Config, s: System, a: Event, b: Event, c: Event)
    ensures Run(cfg, s, [a, b, c]) == Next(cfg, Next(cfg, Next(cfg, s, a), b), c)
  {
    hide Next;
    RunTwo(cfg, s, a, b);
    assert [a, b, c][..2] == [a, b];
  }

  lemma RunFour(cfg: Config, s: System, a: Event, b: Event, c: Event, d: Event)
    ensures Run(cfg, s, [a, b, c, d]) == Next(cfg, Next(cfg, Next(cfg, Next(cfg, s, a), b), c), d)
  {
    hide Next;
    RunThree(cfg, s, a, b, c);
    assert [a, b, c, d][..3] == [a, b, c];
  }

  lemma LastEvent(cfg: Config, s: System, run: seq<Event>)
    requires run != []
    ensures Run(cfg, s, run) == Next(cfg, Run(cfg, s, run[..|run| - 1]), run[|run| - 1])
  {
  }

  lemma {:induction false} ClockForward(cfg: Config, s: System, run: seq<Event>)
    ensures s.now <= Run(cfg, s, run).now
  {
    if run != [] {
      ClockForward(cfg, s, run[..|run| - 1]);
      TimeKeeps(Run(cfg, s, run[..|run| - 1]), run[|run| - 1]);
    }
  }

  lemma CrashStep(cfg: Config, s: System, h: nat)
    ensures Next(cfg, s, Crash(h)) == s.(handlers := s.handlers - {h})
  {
  }

  lemma TickStep(cfg: Config, s: System, to: Time)
    requires s.now <= to
    requires forall h <- s.handlers.Keys ::
               s.handlers[h].phase.Calling? ==> to <= s.handlers[h].phase.startedAt + CALL_TIMEOUT
    ensures Next(cfg, s, Tick(to)) == s.(now := to)
  {
  }

  /** The handlers that are in `keep`. */
  function Kept(handlers: map<nat, Handler>, keep: set<nat>): map<nat, Handler> {
    map h | h in handlers && h in keep :: handlers[h]
  }

  /** All other handlers may crash, one after the other. */
  lemma {:induction false} OthersCrash(cfg: Config, s: System, keep: set<nat>) returns (run: seq<Event>)
    ensures Run(cfg, s, run) == s.(handlers := Kept(s.handlers, keep))
    decreases s.handlers.Keys - keep
  {
    hide Next, Run;
    if h :| h in s.handlers && h !in keep {
      var next := s.(handlers := s.handlers - {h});
      CrashStep(cfg, s, h);
      assert h in s.handlers.Keys - keep && next.handlers.Keys - keep < s.handlers.Keys - keep;
      var rest := OthersCrash(cfg, next, keep);
      assert Kept(next.handlers, keep) == Kept(s.handlers, keep);
      RunOne(cfg, s, Crash(h));
      RunConcat(cfg, s, [Crash(h)], rest);
      run := [Crash(h)] + rest;
    } else {
      run := [];
      assert Kept(s.handlers, keep) == s.handlers;
      EmptyRun(cfg, s);
    }
  }

  lemma EmptyRun(cfg: Config, s: System)
    ensures Run(cfg, s, []) == s
  {
  }
}
