/**
 What each critical section of the token client does for its callers, in every interleaving: who gets a
 token, who gets an error, and why.
 */
module TokenOutcomes {
  import opened Wrappers
  import Text
  import opened TokenCache
  import opened TokenTheorems

  /** The token request failed, or its response is not a usable bearer token. */
  predicate Refused(response: Option<Response>) {
    response.None? || response.value.tokenType != "Bearer" || Text.TrimSpace(response.value.token) == ""
    || response.value.expiresIn <= 0 || response.value.expiresIn > MAX_INT64
  }

  /** The caller and everybody waiting on the same flight are served this outcome; nobody else moves. */
  ghost predicate AllServed(s: State, next: State, c: CallerId, outcome: Option<Taken>) {
    && c in s.callers && next.callers.Keys == s.callers.Keys
    && (forall d <- s.callers.Keys :: next.callers[d]
          == if d == c || s.callers[d].Waiting? then Served(outcome, s.flights) else s.callers[d])
    && next.leader == None && next.cell == s.cell && next.grants == s.grants && next.now == s.now
  }

  lemma LandServes(s: State, c: CallerId, outcome: Option<Taken>)
    requires Inv(s) && s.leader == Some(c)
    ensures AllServed(s, Land(s, outcome), c, outcome)
  {
    hide CacheInv, GrantsInv, FetchInv, HandInv;
  }

  lemma StepAfter(now: Time, run: seq<Event>, e: Event)
    ensures Run(true, Start(now), run + [e]) == Next(true, Run(true, Start(now), run), e)
  {
    hide Next;
    assert (run + [e])[..|run|] == run;
  }

  /** A caller that finishes hands its token to itself and to everybody who joined its flight, wherever it came from. */
  lemma FinishServesAll(now: Time, run: seq<Event>, c: CallerId)
    requires c in Run(true, Start(now), run).callers && Run(true, Start(now), run).callers[c].Finishing?
    ensures var s := Run(true, Start(now), run);
            AllServed(s, Run(true, Start(now), run + [Finish(c)]), c, Some(s.callers[c].result))
  {
    hide Run, Inv;
    RunIsSafe(now, run);
    var s := Run(true, Start(now), run);
    LeaderOf(s, c);
    StepAfter(now, run, Finish(c));
    LandServes(s, c, Some(s.callers[c].result));
  }

  /** A failed request, or a response that is not usable, is an error for exactly these callers. */
  lemma RefusalServesAll(now: Time, run: seq<Event>, c: CallerId, response: Option<Response>)
    requires c in Run(true, Start(now), run).callers && Run(true, Start(now), run).callers[c].Fetching?
    requires Refused(response)
    ensures var s := Run(true, Start(now), run);
            AllServed(s, Run(true, Start(now), run + [Respond(c, response)]), c, None)
  {
    hide Run, Inv;
    RunIsSafe(now, run);
    var s := Run(true, Start(now), run);
    LeaderOf(s, c);
    StepAfter(now, run, Respond(c, response));
    LandServes(s, c, None);
  }

  /** Any other response is kept as it is, and nobody is served yet. */
  lemma UsableIsKept(now: Time, run: seq<Event>, c: CallerId, response: Response)
    requires c in Run(true, Start(now), run).callers && Run(true, Start(now), run).callers[c].Fetching?
    requires !Refused(Some(response))
    requires Run(true, Start(now), run).callers[c].startedAt <= response.mintedAt <= Run(true, Start(now), run).now
    ensures var s := Run(true, Start(now), run);
            Run(true, Start(now), run + [Respond(c, Some(response))])
            == s.(callers := s.callers[c := Fetched(s.callers[c].startedAt, response)])
  {
    hide Run, Text.TrimSpace;
    StepAfter(now, run, Respond(c, Some(response)));
  }

  /** A caller that missed leads a flight if there is none, and otherwise waits on the one there is. */
  lemma JoinLeadsOrWaits(now: Time, run: seq<Event>, c: CallerId)
    requires c in Run(true, Start(now), run).callers && Run(true, Start(now), run).callers[c].Missed?
    ensures var s, next := Run(true, Start(now), run), Run(true, Start(now), run + [Join(c)]);
            next == if exists d <- s.callers.Keys :: Flying(s.callers[d])
                    then s.(callers := s.callers[c := Waiting(s.flights)])
                    else s.(callers := s.callers[c := Rechecking], leader := Some(c), flights := s.flights + 1)
  {
    hide Run;
    RunIsSafe(now, run);
    var s := Run(true, Start(now), run);
    StepAfter(now, run, Join(c));
    LeaderFlies(s);
  }

  lemma LeaderFlies(s: State)
    requires Inv(s)
    ensures s.leader.Some? <==> exists d <- s.callers.Keys :: Flying(s.callers[d])
  {
    hide CacheInv, GrantsInv, FetchInv, HandInv;
    if s.leader.Some? {
      assert s.leader.value in s.callers.Keys && Flying(s.callers[s.leader.value]);
    }
  }

  /** The check inside the flight: the cached token while it is fresh, a request of its own afterwards. */
  lemma RecheckServesOrFetches(now: Time, run: seq<Event>, c: CallerId)
    requires c in Run(true, Start(now), run).callers && Run(true, Start(now), run).callers[c].Rechecking?
    ensures var s, next := Run(true, Start(now), run), Run(true, Start(now), run + [Recheck(c)]);
            && c in next.callers
            && (s.grants == [] ==> next.callers[c] == Fetching(s.now))
            && (s.grants != [] && s.grants[|s.grants| - 1].response.expiresIn <= MAX_EXPIRES_IN ==>
                  var last := s.grants[|s.grants| - 1];
                  next.callers[c] == if s.now < last.writtenAt + (last.response.expiresIn - 30) * SECOND
                                     then Finishing(Taken(last.response.token, s.now, FromCache)) else Fetching(s.now))
  {
    hide Run, Inv;
    RunIsSafe(now, run);
    var s := Run(true, Start(now), run);
    StepAfter(now, run, Recheck(c));
    if s.grants == [] {
      EmptyCache(s);
    } else {
      CacheHoldsLastGrant(s);
    }
  }

  lemma EmptyCache(s: State)
    requires Inv(s) && s.grants == []
    ensures s.cell.value == ""
  {
    hide FlightInv, GrantsInv, FetchInv, HandInv;
  }

  /** A write grants the fetched token, in the cache and in the hand of its caller. */
  lemma WriteGrants(now: Time, run: seq<Event>, c: CallerId)
    requires c in Run(true, Start(now), run).callers && Run(true, Start(now), run).callers[c].Fetched?
    ensures var s, next := Run(true, Start(now), run), Run(true, Start(now), run + [Write(c)]);
            var phase := s.callers[c];
            && next.grants == s.grants + [Grant(phase.begun, phase.response, s.now)]
            && next.callers == s.callers[c := Finishing(Taken(phase.response.token, s.now, FromServer))]
  {
    hide Run;
    StepAfter(now, run, Write(c));
  }

  /** The event is the end of this flight by a failed request or an unusable response. */
  predicate EndsInRefusal(s: State, e: Event, flight: nat) {
    e.Respond? && Refused(e.response) && s.flights == flight
    && e.caller in s.callers && s.callers[e.caller].Fetching?
  }

  /** Nobody is served an error for any other reason than that the request of the flight failed or was refused. */
  lemma {:induction false} FailuresAreRefusals(now: Time, run: seq<Event>, c: CallerId) returns (i: nat)
    requires c in Run(true, Start(now), run).callers
    requires Run(true, Start(now), run).callers[c].Served? && Run(true, Start(now), run).callers[c].outcome == None
    ensures i < |run|
    ensures EndsInRefusal(Run(true, Start(now), run[..i]), run[i], Run(true, Start(now), run).callers[c].served)
  {
    hide Inv, Next, EndsInRefusal;
    assert run != [];
    var n := |run| - 1;
    var before, after := Run(true, Start(now), run[..n]), Run(true, Start(now), run);
    if c in before.callers && before.callers[c] == after.callers[c] {
      i := FailuresAreRefusals(now, run[..n], c);
      assert run[..n][..i] == run[..i];
    } else {
      i := n;
      NewFailureIsRefusal(before, run[n], c);
    }
  }

  lemma NewFailureIsRefusal(s: State, e: Event, c: CallerId)
    requires var next := Next(true, s, e);
             && c in next.callers && next.callers[c].Served? && next.callers[c].outcome == None
             && (c in s.callers ==> s.callers[c] != next.callers[c])
    ensures EndsInRefusal(s, e, Next(true, s, e).callers[c].served)
  {
    hide Text.TrimSpace;
  }

  /** For one: the second caller of the late join is served the cached token. */
  lemma LateJoinerIsServed()
    ensures var s := Run(true, Start(0), LATE_JOIN + [Finish(2)]);
            2 in s.callers && s.callers[2] == Served(Some(Taken("token", 0, FromCache)), 2)
  {
    hide Run;
    RecheckIsNeeded();
    FinishServesAll(0, LATE_JOIN, 2);
  }
}
