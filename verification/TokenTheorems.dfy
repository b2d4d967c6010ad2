/** What the token cache promises its callers and the token endpoint, in every interleaving. */
module TokenTheorems {
  import opened Wrappers
  import Text
  import opened TokenCache

  predicate Requesting(phase: Phase) {
    phase.Fetching? || phase.Fetched?
  }

  /** At most one token request is under way. */
  lemma OneRequestInFlight(now: Time, run: seq<Event>, c: CallerId, d: CallerId)
    requires c in Run(true, Start(now), run).callers && Requesting(Run(true, Start(now), run).callers[c])
    requires d in Run(true, Start(now), run).callers && Requesting(Run(true, Start(now), run).callers[d])
    ensures c == d
  {
    RunIsSafe(now, run);
  }

  /** Everybody who joined the same flight got the same outcome. */
  lemma JoinersAgree(now: Time, run: seq<Event>, c: CallerId, d: CallerId)
    requires c in Run(true, Start(now), run).callers && Run(true, Start(now), run).callers[c].Served?
    requires d in Run(true, Start(now), run).callers && Run(true, Start(now), run).callers[d].Served?
    requires Run(true, Start(now), run).callers[c].served == Run(true, Start(now), run).callers[d].served
    ensures Run(true, Start(now), run).callers[c] == Run(true, Start(now), run).callers[d]
  {
    RunIsSafe(now, run);
  }

  /** A fetch begins no earlier than 30 seconds before the end of the lifetime that the last grant announced. */
  lemma FetchOnlyWhenDue(now: Time, run: seq<Event>, f: Fetch)
    requires f in Run(true, Start(now), run).fetches && f.grantsBefore > 0
    ensures var grants := Run(true, Start(now), run).grants;
            && f.grantsBefore <= |grants|
            && var g := grants[f.grantsBefore - 1];
               g.response.expiresIn <= MAX_EXPIRES_IN ==>
                 g.writtenAt + (g.response.expiresIn - 30) * SECOND <= f.at
  {
    RunIsSafe(now, run);
    var s := Run(true, Start(now), run);
    assert FetchWasDue(s.grants, f) && GrantsInv(s);
    var g := s.grants[..f.grantsBefore][f.grantsBefore - 1];
    hide Run, Lifetime, FlightInv, CacheInv, HandInv;
    assert Usable(s.grants[f.grantsBefore - 1].response);
    LifetimeExact(g.response.expiresIn);
  }

  /** Consecutive grants are at least the announced lifetime less 30 seconds apart. */
  lemma ConsecutiveGrants(s: State, i: nat, least: nat)
    requires Inv(s) && i + 1 < |s.grants|
    requires least <= s.grants[i].response.expiresIn <= MAX_EXPIRES_IN
    ensures s.grants[i + 1].writtenAt - s.grants[i].writtenAt >= (least - 30) * SECOND
  {
    hide FlightInv, CacheInv, HandInv, FetchInv, Lifetime;
    assert Usable(s.grants[i].response);
    LifetimeExact(s.grants[i].response.expiresIn);
    assert Renewal(s.grants[i]) <= s.grants[i + 1].startedAt;
    assert s.grants[i + 1].startedAt <= s.grants[i + 1].writtenAt;
  }

  /** Moments at least `step` apart from each to the next add up. */
  lemma {:induction false} StepsAddUp(times: seq<Time>, i: nat, j: nat, step: int)
    requires i <= j < |times|
    requires forall k :: i <= k < j ==> times[k + 1] - times[k] >= step
    ensures times[j] - times[i] >= (j - i) * step
    decreases j
  {
    if i < j {
      StepsAddUp(times, i, j - 1, step);
    }
  }

  function WriteTimes(grants: seq<Grant>): (times: seq<Time>)
    ensures |times| == |grants| && forall k :: 0 <= k < |grants| ==> times[k] == grants[k].writtenAt
  {
    seq(|grants|, k requires 0 <= k < |grants| => grants[k].writtenAt)
  }

  /** So `k` grants of at least E seconds span at least (k - 1)(E - 30) seconds. */
  lemma GrantsSpan(now: Time, run: seq<Event>, i: nat, j: nat, least: nat)
    requires i <= j < |Run(true, Start(now), run).grants| && least >= 30
    requires forall k :: i <= k < j ==>
               least <= Run(true, Start(now), run).grants[k].response.expiresIn <= MAX_EXPIRES_IN
    ensures var grants := Run(true, Start(now), run).grants;
            grants[j].writtenAt - grants[i].writtenAt >= (j - i) * ((least - 30) * SECOND)
  {
    RunIsSafe(now, run);
    hide Inv, Run;
    var s := Run(true, Start(now), run);
    var times := WriteTimes(s.grants);
    forall k | i <= k < j
      ensures times[k + 1] - times[k] >= (least - 30) * SECOND
    {
      assert least <= s.grants[k].response.expiresIn;
      ConsecutiveGrants(s, k, least);
    }
    StepsAddUp(times, i, j, (least - 30) * SECOND);
  }

  /** When the server lets the token of this grant expire. */
  function RealExpiry(g: Grant): Time {
    g.response.mintedAt + g.response.expiresIn * SECOND
  }

  /** The grant behind a token in hand, and how much longer that token is good for. */
  ghost predicate GrantWithLife(g: Grant, taken: Taken) {
    var delay, life := g.writtenAt - g.response.mintedAt, RealExpiry(g) - taken.at;
    && g.response.token == taken.token
    && g.startedAt <= g.response.mintedAt <= g.writtenAt <= taken.at
    && match taken.source
       case FromCache => life > 30 * SECOND - delay
       case FromServer => life == g.response.expiresIn * SECOND - delay
  }

  /** The same under the client's timeout: the write came within 15 seconds of the request. */
  ghost predicate LifeUnderTimeout(g: Grant, taken: Taken) {
    var life := RealExpiry(g) - taken.at;
    g.writtenAt <= g.startedAt + HTTP_TIMEOUT ==>
      match taken.source
      case FromCache => life > 15 * SECOND
      case FromServer => life >= g.response.expiresIn * SECOND - 15 * SECOND
  }

  /**
   No caller is ever handed an invented text: every token, from the first check, from the check inside the
   flight, from the server, or from the flight of somebody else, was granted. One from the cache has more than
   30 seconds of real life left, less the time from its issue to its write; a new one has its whole
   lifetime, less that time.
   */
  lemma TokensHaveLife(now: Time, run: seq<Event>, c: CallerId)
    requires c in Run(true, Start(now), run).callers && InHand(Run(true, Start(now), run).callers[c]).Some?
    ensures var s := Run(true, Start(now), run);
            exists g <- s.grants :: GrantWithLife(g, InHand(s.callers[c]).value)
                                    && LifeUnderTimeout(g, InHand(s.callers[c]).value)
  {
    RunIsSafe(now, run);
    var s := Run(true, Start(now), run);
    hide Run, Lifetime;
    LifeInState(s, c);
  }

  lemma LifeInState(s: State, c: CallerId)
    requires Inv(s) && c in s.callers && InHand(s.callers[c]).Some?
    ensures exists g <- s.grants :: GrantWithLife(g, InHand(s.callers[c]).value)
                                    && LifeUnderTimeout(g, InHand(s.callers[c]).value)
  {
    hide Lifetime, FlightInv, CacheInv, FetchInv;
    var taken := InHand(s.callers[c]).value;
    assert Granted(s.grants, taken);
    var i :| 0 <= i < |s.grants| && GrantOf(s.grants[i], taken);
    var g := s.grants[i];
    assert Usable(g.response);
    LifetimeExact(g.response.expiresIn);
    assert g in s.grants && GrantWithLife(g, taken) && LifeUnderTimeout(g, taken);
  }

  /** In particular, whatever a flight serves was granted. */
  lemma ServedTokensAreGranted(now: Time, run: seq<Event>, c: CallerId)
    requires c in Run(true, Start(now), run).callers && Run(true, Start(now), run).callers[c].Served?
    requires Run(true, Start(now), run).callers[c].outcome.Some?
    ensures var s := Run(true, Start(now), run);
            exists g <- s.grants :: g.response.token == s.callers[c].outcome.value.token
  {
    TokensHaveLife(now, run, c);
    hide Run;
  }

  lemma CacheHoldsLastGrant(s: State)
    requires Inv(s) && s.grants != []
    ensures var last := s.grants[|s.grants| - 1];
            && s.cell.value == last.response.token != ""
            && (last.response.expiresIn <= MAX_EXPIRES_IN ==>
                  s.cell.expiry == last.writtenAt + (last.response.expiresIn - 30) * SECOND)
  {
    hide Lifetime, FlightInv, FetchInv, HandInv;
    var last := s.grants[|s.grants| - 1];
    assert Usable(last.response);
    LifetimeExact(last.response.expiresIn);
  }

  /** A new caller is served from the cache exactly until 30 seconds before the end of the last announced lifetime. */
  lemma ServedWhileFresh(now: Time, run: seq<Event>, c: CallerId)
    requires c !in Run(true, Start(now), run).callers && Run(true, Start(now), run).grants != []
    ensures var s, next := Run(true, Start(now), run), Run(true, Start(now), run + [Arrive(c)]);
            var last := s.grants[|s.grants| - 1];
            last.response.expiresIn <= MAX_EXPIRES_IN ==>
              && c in next.callers
              && next.callers[c] == if s.now < last.writtenAt + (last.response.expiresIn - 30) * SECOND
                                    then Hit(Taken(last.response.token, s.now, FromCache)) else Missed
  {
    hide Run, Inv, Usable, Lifetime;
    RunIsSafe(now, run);
    var s := Run(true, Start(now), run);
    CacheHoldsLastGrant(s);
    assert (run + [Arrive(c)])[..|run|] == run;
    RunStep(true, Start(now), run + [Arrive(c)], |run|);
    assert (run + [Arrive(c)])[..|run| + 1] == run + [Arrive(c)];
  }

  // ----- Why the flight checks again -----

  /** Two callers miss an empty cache; the second one reaches the flight after the first one has landed. */
  const LATE_JOIN: seq<Event> := [
    Arrive(1), Arrive(2), Join(1), Recheck(1),
    Respond(1, Some(Response("token", "Bearer", 300, 0))), Write(1), Finish(1),
    Join(2), Recheck(2)
  ]

  lemma {:induction false} RunStep(recheck: bool, s: State, run: seq<Event>, k: nat)
    requires k < |run|
    ensures Run(recheck, s, run[..k + 1]) == Next(recheck, Run(recheck, s, run[..k]), run[k])
  {
    assert run[..k + 1][..k] == run[..k];
  }

  const NEW := Taken("token", 0, FromServer)

  /** The state after the first caller has landed and the second one has joined. */
  function LandedState(second: Phase): State {
    State(0, Cell("token", 270 * SECOND), Some(2), 2,
          map[1 := Served(Some(NEW), 1), 2 := second],
          [Fetch(0, 0)], [Grant(0, Response("token", "Bearer", 300, 0), 0)], map[1 := Some(NEW)])
  }

  const LATE_RESPONSE := Response("token", "Bearer", 300, 0)

  lemma LateResponseUsable()
    ensures Usable(LATE_RESPONSE)
  {
    assert !Text.IsSpace(LATE_RESPONSE.token[0]);
  }

  lemma BothMiss(recheck: bool)
    ensures Run(recheck, Start(0), LATE_JOIN[..2])
            == State(0, Cell("", 0), None, 0, map[1 := Missed, 2 := Missed], [], [], map[])
  {
    var s := Start(0);
    assert Run(recheck, s, LATE_JOIN[..0]) == s;
    RunStep(recheck, s, LATE_JOIN, 0);
    RunStep(recheck, s, LATE_JOIN, 1);
  }

  lemma FirstCallerFetches(recheck: bool)
    ensures Run(recheck, Start(0), LATE_JOIN[..4])
            == State(0, Cell("", 0), Some(1), 1, map[1 := Fetching(0), 2 := Missed], [Fetch(0, 0)], [], map[])
  {
    hide Run;
    BothMiss(recheck);
    RunStep(recheck, Start(0), LATE_JOIN, 2);
    assert Run(recheck, Start(0), LATE_JOIN[..3]).callers == map[1 := Rechecking, 2 := Missed];
    RunStep(recheck, Start(0), LATE_JOIN, 3);
  }

  lemma FirstCallerWrites(recheck: bool)
    ensures Run(recheck, Start(0), LATE_JOIN[..6])
            == State(0, Cell("token", 270 * SECOND), Some(1), 1, map[1 := Finishing(NEW), 2 := Missed],
                     [Fetch(0, 0)], [Grant(0, LATE_RESPONSE, 0)], map[])
  {
    hide Run, Usable, Cached;
    FirstCallerFetches(recheck);
    LateResponseUsable();
    RunStep(recheck, Start(0), LATE_JOIN, 4);
    assert Run(recheck, Start(0), LATE_JOIN[..5]).callers == map[1 := Fetched(0, LATE_RESPONSE), 2 := Missed];
    RunStep(recheck, Start(0), LATE_JOIN, 5);
  }

  lemma FirstCallerLands(recheck: bool)
    ensures Run(recheck, Start(0), LATE_JOIN[..8]) == LandedState(Rechecking)
  {
    hide Run, Usable, Cached;
    FirstCallerWrites(recheck);
    RunStep(recheck, Start(0), LATE_JOIN, 6);
    assert Run(recheck, Start(0), LATE_JOIN[..7]).callers == map[1 := Served(Some(NEW), 1), 2 := Missed];
    RunStep(recheck, Start(0), LATE_JOIN, 7);
  }

  /**
   Without the check inside the flight the second caller fetches at once, with a grant of 300 seconds in the
   cache: FetchOnlyWhenDue would be false. With it, the second caller is handed the cached token.
   */
  lemma RecheckIsNeeded()
    ensures Run(false, Start(0), LATE_JOIN)
            == LandedState(Fetching(0)).(fetches := [Fetch(0, 0), Fetch(0, 1)])
    ensures Run(true, Start(0), LATE_JOIN) == LandedState(Finishing(Taken("token", 0, FromCache)))
  {
    assert LATE_JOIN[..9] == LATE_JOIN;
    FirstCallerLands(false);
    RunStep(false, Start(0), LATE_JOIN, 8);
    FirstCallerLands(true);
    RunStep(true, Start(0), LATE_JOIN, 8);
  }
}
