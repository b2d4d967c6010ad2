/**
 The client-credentials token: a cache under a mutex, refreshed through single flight. Any number of
 callers interleave at every critical section; the flight runs one function at a time and hands its
 result to everybody who joined it.
 */
module TokenCache {
  import opened Wrappers
  import Text

  type Time = int
  type CallerId = nat

  const SECOND: Time := 1_000_000_000
  const SKEW: Time := 30 * SECOND
  const HTTP_TIMEOUT: Time := 15 * SECOND

  // ----- Lifetimes in 64 bits -----

  const MAX_INT64: int := 0x7FFF_FFFF_FFFF_FFFF

  /** Go's 64-bit integers wrap around. */
  function Wrap64(x: int): (r: int)
    ensures -MAX_INT64 - 1 <= r <= MAX_INT64
    ensures -MAX_INT64 - 1 <= x <= MAX_INT64 ==> r == x
  {
    (x + 0x8000_0000_0000_0000) % 0x1_0000_0000_0000_0000 - 0x8000_0000_0000_0000
  }

  /** `time.Duration(expiresIn)*time.Second - tokenRefreshSkew`. */
  function Lifetime(expiresIn: int): int {
    Wrap64(Wrap64(expiresIn * SECOND) - SKEW)
  }

  /** The lifetimes that survive the arithmetic: up to about 292 years. */
  const MAX_EXPIRES_IN: int := 9_223_372_066

  lemma LifetimeExact(expiresIn: int)
    requires 0 < expiresIn <= MAX_INT64
    ensures Lifetime(expiresIn) == (expiresIn - 30) * SECOND <==> expiresIn <= MAX_EXPIRES_IN
    ensures Lifetime(expiresIn) <= (expiresIn - 30) * SECOND
  {
    var x := expiresIn * SECOND;
    var k := (x + 0x8000_0000_0000_0000) / 0x1_0000_0000_0000_0000;
    assert Wrap64(x) == x - k * 0x1_0000_0000_0000_0000;
    assert k >= 0;
    if expiresIn <= MAX_EXPIRES_IN {
      assert k <= 1;
    }
  }

  /** One second more, and the token counts as expired for the last 292 years. */
  lemma LongLifetimesWrap()
    ensures Lifetime(MAX_EXPIRES_IN + 1) < -292 * 365 * 24 * 3600 * SECOND
  {
  }

  // ----- The cache -----

  datatype Cell = Cell(value: string, expiry: Time)

  /** What the check under the mutex finds. */
  function Cached(cell: Cell, now: Time): Option<string> {
    if cell.value != "" && now < cell.expiry then Some(cell.value) else None
  }

  /**
   What a check at `later` finds after a write at `at`: the token, exactly until 30 seconds before the end of
   its announced lifetime. A lifetime beyond the 64 bits never counts for longer than announced.
   */
  lemma CheckAfterWrite(token: string, expiresIn: int, at: Time, later: Time)
    requires token != "" && 0 < expiresIn <= MAX_INT64
    ensures expiresIn <= MAX_EXPIRES_IN ==>
              Cached(Cell(token, at + Lifetime(expiresIn)), later)
              == if later < at + (expiresIn - 30) * SECOND then Some(token) else None
    ensures later >= at + (expiresIn - 30) * SECOND ==> Cached(Cell(token, at + Lifetime(expiresIn)), later) == None
  {
    hide Lifetime;
    LifetimeExact(expiresIn);
  }

  // ----- Callers and the flight -----

  /** A decoded token response; `mintedAt` is when the server issued it. */
  datatype Response = Response(token: string, tokenType: string, expiresIn: int, mintedAt: Time)

  /** The acceptance rule of fetchClientCredentialsToken. */
  predicate Usable(r: Response) {
    r.tokenType == "Bearer" && !Text.IsBlank(r.token) && 0 < r.expiresIn <= MAX_INT64
  }

  datatype Source = FromCache | FromServer

  /** A token that was handed out: found in the cache, or written to it, at this moment. */
  datatype Taken = Taken(token: string, at: Time, source: Source)

  /** Where a caller is. `flight` counts the flights, so that joiners can be told apart. */
  datatype Phase =
    | Missed
    | Waiting(flight: nat)
    | Rechecking
    | Fetching(startedAt: Time)
    | Fetched(begun: Time, response: Response)
    | Finishing(result: Taken)
    | Hit(hit: Taken)
    | Served(outcome: Option<Taken>, served: nat)

  /** A token that was written to the cache. */
  datatype Grant = Grant(startedAt: Time, response: Response, writtenAt: Time)

  /** A fetch, and how many grants had been written when it began. */
  datatype Fetch = Fetch(at: Time, grantsBefore: nat)

  datatype State = State(
    now: Time,
    cell: Cell,
    leader: Option<CallerId>,
    flights: nat,
    callers: map<CallerId, Phase>,
    fetches: seq<Fetch>,
    grants: seq<Grant>,
    outcomes: map<nat, Option<Taken>>)

  datatype Event =
    | Arrive(caller: CallerId)
    | Join(caller: CallerId)
    | Recheck(caller: CallerId)
    | Respond(caller: CallerId, response: Option<Response>)
    | Write(caller: CallerId)
    | Finish(caller: CallerId)
    | Tick(to: Time)

  /** The flight ends: the leader and everybody who joined it get the same outcome. */
  function Land(s: State, outcome: Option<Taken>): State {
    s.(leader := None,
       outcomes := s.outcomes[s.flights := outcome],
       callers := map c | c in s.callers ::
         if s.callers[c] == Waiting(s.flights) || Some(c) == s.leader then Served(outcome, s.flights)
         else s.callers[c])
  }

  /** One critical section of one caller; `recheck` says whether the flight checks the cache again before it fetches. */
  function Next(recheck: bool, s: State, e: Event): State {
    match e
    case Arrive(c) =>
      if c in s.callers then s else
      var hit := Cached(s.cell, s.now);
      s.(callers := s.callers[c := if hit.Some? then Hit(Taken(hit.value, s.now, FromCache)) else Missed])
    case Join(c) =>
      if c !in s.callers || !s.callers[c].Missed? then s
      else if s.leader.Some? then s.(callers := s.callers[c := Waiting(s.flights)])
      else s.(callers := s.callers[c := Rechecking], leader := Some(c), flights := s.flights + 1)
    case Recheck(c) =>
      if c !in s.callers || !s.callers[c].Rechecking? then s else
      var hit := Cached(s.cell, s.now);
      if recheck && hit.Some? then s.(callers := s.callers[c := Finishing(Taken(hit.value, s.now, FromCache))])
      else s.(callers := s.callers[c := Fetching(s.now)], fetches := s.fetches + [Fetch(s.now, |s.grants|)])
    case Respond(c, response) =>
      if c !in s.callers || !s.callers[c].Fetching? then s
      else if response.None? || !Usable(response.value) then Land(s, None)
      // The server issued the token while the request was under way.
      else if !(s.callers[c].startedAt <= response.value.mintedAt <= s.now) then s
      else s.(callers := s.callers[c := Fetched(s.callers[c].startedAt, response.value)])
    case Write(c) =>
      if c !in s.callers || !s.callers[c].Fetched? then s else
      var phase := s.callers[c];
      s.(cell := Cell(phase.response.token, s.now + Lifetime(phase.response.expiresIn)),
         grants := s.grants + [Grant(phase.begun, phase.response, s.now)],
         callers := s.callers[c := Finishing(Taken(phase.response.token, s.now, FromServer))])
    case Finish(c) =>
      if c !in s.callers || !s.callers[c].Finishing? then s else Land(s, Some(s.callers[c].result))
    case Tick(to) =>
      if s.now <= to
         && forall c <- s.callers.Keys :: s.callers[c].Fetching? ==> to <= s.callers[c].startedAt + HTTP_TIMEOUT
      then s.(now := to) else s
  }

  function Run(recheck: bool, s: State, run: seq<Event>): State {
    if run == [] then s else Next(recheck, Run(recheck, s, run[..|run| - 1]), run[|run| - 1])
  }

  /** A fresh client: the zero values of its fields. */
  function Start(now: Time): State {
    State(now, Cell("", 0), None, 0, map[], [], [], map[])
  }

  /** What the caller has in hand. */
  function InHand(phase: Phase): Option<Taken> {
    match phase
    case Finishing(result) => Some(result)
    case Hit(hit) => Some(hit)
    case Served(outcome, _) => outcome
    case _ => None
  }

  // ----- The critical sections in place -----

  /** The client: its two fields behind the mutex, and around them the callers and the flight. */
  class TokenClient {
    var tokenValue: string
    var tokenExpiry: Time
    ghost var world: State

    ghost predicate Valid()
      reads this
    {
      world.cell == Cell(tokenValue, tokenExpiry)
    }

    constructor (ghost now: Time)
      ensures Valid() && world == Start(now)
    {
      tokenValue, tokenExpiry := "", 0;
      world := Start(now);
    }

    /** The check of an arriving caller. */
    method FirstCheck(ghost caller: CallerId, now: Time) returns (token: Option<string>)
      requires Valid() && now == world.now && caller !in world.callers
      modifies this
      ensures Valid() && world == Next(true, old(world), Arrive(caller))
      ensures caller in world.callers
      ensures if token.Some? then InHand(world.callers[caller]) == Some(Taken(token.value, now, FromCache))
              else world.callers[caller] == Missed
    {
      token := None;
      if tokenValue != "" && now < tokenExpiry {
        token := Some(tokenValue);
      }
      world := Next(true, world, Arrive(caller));
    }

    /** The check of the caller in flight: without a token it goes on to fetch one. */
    method SecondCheck(ghost caller: CallerId, now: Time) returns (token: Option<string>)
      requires Valid() && now == world.now && caller in world.callers && world.callers[caller] == Rechecking
      modifies this
      ensures Valid() && world == Next(true, old(world), Recheck(caller))
      ensures caller in world.callers
      ensures if token.Some? then InHand(world.callers[caller]) == Some(Taken(token.value, now, FromCache))
              else world.callers[caller] == Fetching(now)
    {
      token := None;
      if tokenValue != "" && now < tokenExpiry {
        token := Some(tokenValue);
      }
      world := Next(true, world, Recheck(caller));
    }

    /** The write of a fetched token. */
    method WriteToken(ghost caller: CallerId, token: string, expiresIn: int, now: Time)
      requires Valid() && now == world.now && caller in world.callers && world.callers[caller].Fetched?
      requires world.callers[caller].response.token == token && world.callers[caller].response.expiresIn == expiresIn
      modifies this
      ensures Valid() && world == Next(true, old(world), Write(caller))
      ensures caller in world.callers && InHand(world.callers[caller]) == Some(Taken(token, now, FromServer))
    {
      tokenValue := token;
      tokenExpiry := now + Lifetime(expiresIn);
      world := Next(true, world, Write(caller));
    }
  }

  // ----- The invariant -----

  predicate Flying(phase: Phase) {
    phase.Rechecking? || phase.Fetching? || phase.Fetched? || phase.Finishing?
  }

  /** The earliest time of the next fetch after this grant. */
  function Renewal(g: Grant): Time {
    g.writtenAt + Lifetime(g.response.expiresIn)
  }

  /** Nothing was granted yet, or the last grant may be renewed at `at`. */
  predicate RenewalDue(grants: seq<Grant>, at: Time) {
    grants != [] ==> Renewal(grants[|grants| - 1]) <= at
  }

  ghost predicate FlightInv(s: State) {
    && (forall c <- s.callers.Keys :: Flying(s.callers[c]) <==> s.leader == Some(c))
    && (s.leader.Some? ==> s.leader.value in s.callers && s.flights > 0)
    && (forall c <- s.callers.Keys :: s.callers[c].Waiting? ==> s.leader.Some? && s.callers[c].flight == s.flights)
    && (forall c <- s.callers.Keys :: s.callers[c].Served? ==>
          s.callers[c].served in s.outcomes && s.outcomes[s.callers[c].served] == s.callers[c].outcome)
    && (forall n <- s.outcomes.Keys :: n <= s.flights && (s.leader.Some? ==> n < s.flights))
  }

  ghost predicate CacheInv(s: State) {
    if s.grants == [] then s.cell.value == ""
    else
      var last := s.grants[|s.grants| - 1];
      s.cell == Cell(last.response.token, Renewal(last)) && s.cell.value != ""
  }

  ghost predicate GrantsInv(s: State) {
    && (forall i :: 0 <= i < |s.grants| ==>
          var g := s.grants[i];
          Usable(g.response) && g.startedAt <= g.response.mintedAt <= g.writtenAt <= s.now)
    && (forall i :: 0 < i < |s.grants| ==> Renewal(s.grants[i - 1]) <= s.grants[i].startedAt)
  }

  ghost predicate FetchInv(s: State) {
    && (forall f <- s.fetches :: FetchWasDue(s.grants, f))
    && (forall c <- s.callers.Keys :: FlierInv(s, s.callers[c]))
  }

  ghost predicate FetchWasDue(grants: seq<Grant>, f: Fetch) {
    f.grantsBefore <= |grants| && RenewalDue(grants[..f.grantsBefore], f.at)
  }

  /** What the caller in flight knows about its own fetch. */
  ghost predicate FlierInv(s: State, phase: Phase) {
    match phase
    case Fetching(startedAt) => startedAt <= s.now && RenewalDue(s.grants, startedAt)
    case Fetched(begun, response) =>
      Usable(response) && begun <= response.mintedAt <= s.now && RenewalDue(s.grants, begun)
    case _ => true
  }

  /** Whatever token a caller has in hand was granted: just now, or earlier and not yet due for renewal. */
  ghost predicate HandInv(s: State) {
    forall c <- s.callers.Keys :: InHand(s.callers[c]).Some? ==> Granted(s.grants, InHand(s.callers[c]).value)
  }

  ghost predicate Granted(grants: seq<Grant>, taken: Taken) {
    exists i :: 0 <= i < |grants| && GrantOf(grants[i], taken)
  }

  predicate GrantOf(g: Grant, taken: Taken) {
    && g.response.token == taken.token
    && g.writtenAt <= taken.at
    && match taken.source
       case FromCache => taken.at < Renewal(g)
       case FromServer => taken.at == g.writtenAt
  }

  ghost predicate Inv(s: State) {
    FlightInv(s) && CacheInv(s) && GrantsInv(s) && FetchInv(s) && HandInv(s)
  }

  // ----- Every critical section keeps it -----

  /** One caller moves on; the cache, the grants and the clock stay. */
  lemma CallerMoves(s: State, next: State, c: CallerId)
    requires Inv(s) && c in next.callers && next.callers == s.callers[c := next.callers[c]]
    requires next.now == s.now && next.cell == s.cell && next.grants == s.grants
    requires FlightInv(next) && FlierInv(next, next.callers[c])
    requires InHand(next.callers[c]).Some? ==> Granted(next.grants, InHand(next.callers[c]).value)
    requires forall f <- next.fetches :: FetchWasDue(next.grants, f)
    ensures Inv(next)
  {
    hide FlightInv, FetchWasDue, RenewalDue, Granted, Usable, Renewal;
    forall x | x in next.callers.Keys
      ensures FlierInv(next, next.callers[x])
    {
      if x != c {
        assert FlierInv(s, s.callers[x]);
      }
    }
  }

  lemma FlightMoves(s: State, next: State, c: CallerId)
    requires FlightInv(s) && c in s.callers && s.leader == Some(c)
    requires c in next.callers && Flying(next.callers[c]) && next.callers == s.callers[c := next.callers[c]]
    requires next.leader == s.leader && next.flights == s.flights && next.outcomes == s.outcomes
    ensures FlightInv(next)
  {
  }

  lemma FlightLands(s: State, outcome: Option<Taken>)
    requires FlightInv(s) && s.leader.Some?
    ensures FlightInv(Land(s, outcome))
  {
  }

  lemma LandKeeps(s: State, outcome: Option<Taken>)
    requires Inv(s) && s.leader.Some? && (outcome.Some? ==> Granted(s.grants, outcome.value))
    ensures Inv(Land(s, outcome))
  {
    hide FlightInv, FetchWasDue, RenewalDue, Granted, Usable, Renewal;
    FlightLands(s, outcome);
    var next := Land(s, outcome);
    forall x | x in next.callers.Keys
      ensures FlierInv(next, next.callers[x])
      ensures InHand(next.callers[x]).Some? ==> Granted(next.grants, InHand(next.callers[x]).value)
    {
      assert FlierInv(s, s.callers[x]);
    }
  }

  /** What the cache answers comes from the last grant. */
  lemma CachedIsGranted(s: State)
    requires Inv(s)
    ensures var hit := Cached(s.cell, s.now); hit.Some? ==> Granted(s.grants, Taken(hit.value, s.now, FromCache))
  {
    hide FlightInv, FetchInv, HandInv, Usable;
    if Cached(s.cell, s.now).Some? {
      assert GrantOf(s.grants[|s.grants| - 1], Taken(Cached(s.cell, s.now).value, s.now, FromCache));
    }
  }

  /** The check finds the token of the last grant, or that grant is due. */
  lemma DueOrCached(s: State)
    requires CacheInv(s)
    ensures RenewalDue(s.grants, s.now) || Cached(s.cell, s.now).Some?
  {
  }

  lemma ArriveKeeps(s: State, c: CallerId)
    requires Inv(s)
    ensures Inv(Next(true, s, Arrive(c)))
  {
    var next := Next(true, s, Arrive(c));
    if c !in s.callers {
      ArriveKeepsFlight(s, next, c);
      hide FlightInv, FetchWasDue, Usable;
      CachedIsGranted(s);
      hide Granted, CacheInv, HandInv, GrantsInv;
      CallerMoves(s, next, c);
    }
  }

  lemma ArriveKeepsFlight(s: State, next: State, c: CallerId)
    requires FlightInv(s) && c !in s.callers && next == Next(true, s, Arrive(c))
    ensures FlightInv(next)
  {
  }

  lemma JoinKeeps(s: State, c: CallerId)
    requires Inv(s)
    ensures Inv(Next(true, s, Join(c)))
  {
    var next := Next(true, s, Join(c));
    if c in s.callers && s.callers[c].Missed? {
      JoinKeepsFlight(s, next, c);
      hide FlightInv, CacheInv, HandInv, GrantsInv, FetchWasDue;
      CallerMoves(s, next, c);
    }
  }

  lemma JoinKeepsFlight(s: State, next: State, c: CallerId)
    requires FlightInv(s) && c in s.callers && s.callers[c].Missed? && next == Next(true, s, Join(c))
    ensures FlightInv(next)
  {
  }

  lemma LeaderOf(s: State, c: CallerId)
    requires Inv(s) && c in s.callers && Flying(s.callers[c])
    ensures s.leader == Some(c) && FlierInv(s, s.callers[c])
  {
  }

  /** The check inside the flight: a fetch begins only when the last grant is due. */
  lemma RecheckKeeps(s: State, c: CallerId)
    requires Inv(s)
    ensures Inv(Next(true, s, Recheck(c)))
  {
    hide FlightInv, GrantsInv, HandInv, Usable, Granted, Renewal, CacheInv, Cached, RenewalDue;
    if c in s.callers && s.callers[c].Rechecking? {
      var next := Next(true, s, Recheck(c));
      LeaderOf(s, c);
      FlightMoves(s, next, c);
      CachedIsGranted(s);
      DueOrCached(s);
      assert s.grants[..|s.grants|] == s.grants;
      forall f | f in next.fetches
        ensures FetchWasDue(next.grants, f)
      {
      }
      CallerMoves(s, next, c);
    }
  }

  lemma RespondKeeps(s: State, c: CallerId, response: Option<Response>)
    requires Inv(s)
    ensures Inv(Next(true, s, Respond(c, response)))
  {
    hide FlightInv, GrantsInv, HandInv, CacheInv, RenewalDue, Usable, FetchWasDue;
    if c in s.callers && s.callers[c].Fetching? {
      LeaderOf(s, c);
      if response.None? || !Usable(response.value) {
        LandKeeps(s, None);
      } else if s.callers[c].startedAt <= response.value.mintedAt <= s.now {
        var next := Next(true, s, Respond(c, response));
        FlightMoves(s, next, c);
        CallerMoves(s, next, c);
      }
    }
  }

  lemma WriteKeeps(s: State, c: CallerId)
    requires Inv(s)
    ensures Inv(Next(true, s, Write(c)))
  {
    hide FlightInv, GrantsInv, CacheInv, FlierInv, FetchWasDue, Granted;
    if c in s.callers && s.callers[c].Fetched? {
      var next := Next(true, s, Write(c));
      LeaderOf(s, c);
      FlightMoves(s, next, c);
      WriteKeepsGrants(s, c);
      GrantAppended(s, next);
      WrittenIsGranted(s, c);
      forall x | x in next.callers.Keys && x != c
        ensures FlierInv(next, next.callers[x])
      {
        OthersOnGround(s, next, c, x);
      }
    }
  }

  lemma WrittenIsGranted(s: State, c: CallerId)
    requires c in s.callers && s.callers[c].Fetched?
    ensures var next := Next(true, s, Write(c));
            next.callers[c].Finishing? && Granted(next.grants, next.callers[c].result)
  {
    var next := Next(true, s, Write(c));
    assert GrantOf(next.grants[|s.grants|], next.callers[c].result);
  }

  lemma WriteKeepsGrants(s: State, c: CallerId)
    requires Inv(s) && c in s.callers && s.callers[c].Fetched? && FlierInv(s, s.callers[c])
    ensures CacheInv(Next(true, s, Write(c))) && GrantsInv(Next(true, s, Write(c)))
    ensures FlierInv(Next(true, s, Write(c)), Next(true, s, Write(c)).callers[c])
  {
    hide FlightInv, FetchInv, HandInv;
  }

  lemma OthersOnGround(s: State, next: State, c: CallerId, x: CallerId)
    requires FlightInv(s) && s.leader == Some(c) && x in s.callers && x != c
    ensures FlierInv(next, s.callers[x])
  {
  }

  lemma GrantAppended(s: State, next: State)
    requires s.grants <= next.grants
    ensures forall f | FetchWasDue(s.grants, f) :: FetchWasDue(next.grants, f)
    ensures forall taken | Granted(s.grants, taken) :: Granted(next.grants, taken)
  {
    forall f | FetchWasDue(s.grants, f)
      ensures FetchWasDue(next.grants, f)
    {
      assert next.grants[..f.grantsBefore] == s.grants[..f.grantsBefore];
    }
    forall taken | Granted(s.grants, taken)
      ensures Granted(next.grants, taken)
    {
      var i :| 0 <= i < |s.grants| && GrantOf(s.grants[i], taken);
      assert GrantOf(next.grants[i], taken);
    }
  }

  lemma TickKeeps(s: State, to: Time)
    requires Inv(s)
    ensures Inv(Next(true, s, Tick(to)))
  {
    var next := Next(true, s, Tick(to));
    hide Usable, RenewalDue, FetchWasDue, Granted, Renewal;
    forall x | x in next.callers.Keys
      ensures FlierInv(next, next.callers[x])
    {
      assert FlierInv(s, s.callers[x]);
    }
  }

  lemma StepKeeps(s: State, e: Event)
    requires Inv(s)
    ensures Inv(Next(true, s, e))
  {
    match e
    case Arrive(c) => ArriveKeeps(s, c);
    case Join(c) => JoinKeeps(s, c);
    case Recheck(c) => RecheckKeeps(s, c);
    case Respond(c, response) => RespondKeeps(s, c, response);
    case Write(c) => WriteKeeps(s, c);
    case Tick(to) => TickKeeps(s, to);
    case Finish(c) =>
      if c in s.callers && s.callers[c].Finishing? {
        LeaderOf(s, c);
        LandKeeps(s, Some(s.callers[c].result));
      }
  }

  lemma {:induction false} RunKeeps(s: State, run: seq<Event>)
    requires Inv(s)
    ensures Inv(Run(true, s, run))
  {
    hide Inv, Next;
    if run != [] {
      RunKeeps(s, run[..|run| - 1]);
      StepKeeps(Run(true, s, run[..|run| - 1]), run[|run| - 1]);
    }
  }

  lemma RunIsSafe(now: Time, run: seq<Event>)
    ensures Inv(Run(true, Start(now), run))
  {
    assert Inv(Start(now));
    RunKeeps(Start(now), run);
  }
}
