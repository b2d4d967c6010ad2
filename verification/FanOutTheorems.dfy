/** What the group assignment promises in every schedule, and the worker pool as Go runs it. */
module FanOutTheorems {
  import opened Wrappers
  import Text
  import opened FanOut

  // ----- The pool in place -----

  /** The error slice and the workers of one call. */
  class Pool {
    const roles: seq<string>
    const groups: map<string, string>
    const errs: array<Option<Problem>>
    var next: nat
    var workers: map<nat, Phase>
    var verdict: Option<Verdict>
    ghost var puts: seq<nat>
    ghost var sent: map<nat, string>
    ghost var answers: map<nat, Answer>

    ghost predicate Valid()
      reads this
    {
      errs.Length == |roles|
    }

    ghost function Contents(): (s: State)
      requires Valid()
      reads this, errs
      ensures |s.errs| == |roles|
    {
      State(next, workers, errs[..], puts, sent, answers, verdict)
    }

    constructor (roles: seq<string>, groups: map<string, string>)
      ensures Valid() && fresh(errs)
      ensures this.roles == roles && this.groups == groups
      ensures Contents() == Start(roles)
    {
      this.roles, this.groups := roles, groups;
      errs := new Option<Problem>[|roles|](_ => None);
      next, workers, verdict := 0, map[], None;
      puts, sent, answers := [], map[], map[];
      new;
      assert errs[..] == Start(roles).errs;
    }

    /** One turn of the spawning loop; the pool blocks it while four workers are busy. */
    method SpawnNext()
      requires Valid()
      modifies this
      ensures Contents() == Next(roles, groups, old(Contents()), Spawn)
    {
      if verdict == None && next < |roles| {
        var role := roles[next];
        if role !in groups || Text.TrimSpace(groups[role]) == "" {
          verdict := Some(Unmapped(role));
        } else if |workers| < LIMIT {
          workers, next := workers[next := Spawned(groups[role])], next + 1;
        }
      }
    }

    /** A worker sends its PUT. */
    method SendPut(i: nat)
      requires Valid()
      modifies this
      ensures Contents() == Next(roles, groups, old(Contents()), Send(i))
    {
      if i in workers && workers[i].Spawned? {
        puts, sent := puts + [i], sent[i := workers[i].group];
        workers := workers[i := InFlight];
      }
    }

    /** A worker gets its answer, or fails to send. */
    method Receive(i: nat, answer: Answer)
      requires Valid()
      modifies this
      ensures Contents() == Next(roles, groups, old(Contents()), Reply(i, answer))
    {
      if i in workers && (workers[i] == InFlight || (workers[i].Spawned? && answer == NoAnswer)) {
        workers, answers := workers[i := Answered(answer)], answers[i := answer];
      }
    }

    /** A worker writes its own error slot, if it has an error, and leaves the pool. */
    method FinishWorker(i: nat)
      requires Valid() && Inv(roles, groups, Contents())
      modifies this, errs
      ensures Valid() && Contents() == Next(roles, groups, old(Contents()), WriteSlot(i))
      ensures forall j :: 0 <= j < |roles| && j != i ==> errs[j] == old(errs[j])
    {
      if i in workers && workers[i].Answered? {
        assert PositionInv(roles, Contents(), i);
        if workers[i].answer != NO_CONTENT {
          errs[i] := Some(Problem(roles[i], workers[i].answer));
        }
        workers := workers - {i};
      }
    }

    /** `errors.Join` over the slots. */
    method Join() returns (problems: seq<Problem>)
      requires Valid()
      ensures problems == Present(errs[..])
    {
      problems := [];
      for i := 0 to errs.Length
        invariant problems == Present(errs[..i])
      {
        assert errs[..i + 1][..i] == errs[..i];
        if errs[i].Some? {
          problems := problems + [errs[i].value];
        }
      }
      assert errs[..errs.Length] == errs[..];
    }

    /** The wait for the pool to empty, and the joined result. */
    method WaitForAll()
      requires Valid()
      modifies this
      ensures Contents() == Next(roles, groups, old(Contents()), Wait)
    {
      if verdict == None && next >= |roles| && workers == map[] {
        var problems := Join();
        verdict := Some(Joined(problems));
      }
    }
  }

  /**
   AssignApprovedRoleGroups under a schedule, with the token the client got, if any. Without a user or a token
   nothing is sent.
   */
  method AssignApprovedRoleGroups(user: string, token: Option<string>, roles: seq<string>, groups: map<string, string>,
      schedule: seq<Event>)
    returns (verdict: Option<Verdict>)
    ensures Text.IsBlank(user) ==> verdict == Some(MissingUser)
    ensures !Text.IsBlank(user) && token == None ==> verdict == Some(NoToken)
    ensures !Text.IsBlank(user) && token.Some? ==> verdict == Run(roles, groups, schedule).verdict
  {
    if Text.TrimSpace(user) == "" {
      return Some(MissingUser);
    }
    if token == None {
      return Some(NoToken);
    }
    var pool := new Pool(roles, groups);
    for i := 0 to |schedule|
      invariant pool.Valid() && fresh(pool) && fresh(pool.errs) && pool.roles == roles && pool.groups == groups
      invariant pool.Contents() == Run(roles, groups, schedule[..i])
    {
      assert schedule[..i + 1][..i] == schedule[..i];
      RunIsSafe(roles, groups, schedule[..i]);
      match schedule[i]
      case Spawn => pool.SpawnNext();
      case Send(w) => pool.SendPut(w);
      case Reply(w, answer) => pool.Receive(w, answer);
      case WriteSlot(w) => pool.FinishWorker(w);
      case Wait => pool.WaitForAll();
    }
    assert schedule[..|schedule|] == schedule;
    verdict := pool.verdict;
  }

  // ----- At most four at a time, each role once -----

  function PutsInFlight(s: State): set<nat> {
    set i | i in s.workers && s.workers[i].InFlight?
  }

  /**
   In every schedule: at most four PUTs at a time, never two for the same role position, and each one for the
   group of its own role.
   */
  lemma AtMostFourPuts(roles: seq<string>, groups: map<string, string>, run: seq<Event>)
    ensures |PutsInFlight(Run(roles, groups, run))| <= 4
    ensures DistinctPositions(Run(roles, groups, run).puts)
    ensures forall i <- Run(roles, groups, run).puts :: i < |roles| && Mapped(groups, roles[i])
    ensures var s := Run(roles, groups, run);
            forall i <- s.puts ::
              i in s.sent && i < |roles| && roles[i] in groups && s.sent[i] == groups[roles[i]]
  {
    RunIsSafe(roles, groups, run);
    RunKeepsGroups(roles, groups, run);
    var s := Run(roles, groups, run);
    Subset(PutsInFlight(s), s.workers.Keys);
  }

  // ----- The result -----

  /**
   Every failed position, and no other, has its problem in the list, with its own role and its own answer, in
   the order of the roles.
   */
  ghost predicate Accounts(roles: seq<string>, answers: map<nat, Answer>, problems: seq<Problem>, failed: seq<nat>) {
    && |problems| == |failed|
    && (forall k :: 0 <= k < |failed| ==>
          && failed[k] < |roles| && failed[k] in answers
          && problems[k] == Problem(roles[failed[k]], answers[failed[k]]))
    && (forall j, k :: 0 <= j < k < |failed| ==> failed[j] < failed[k])
    && (forall i: nat :: i in failed <==> i < |roles| && i in answers && answers[i] != HttpStatus(204))
  }

  /** The filled slots, by their positions. */
  ghost predicate FilledAt(errs: seq<Option<Problem>>, problems: seq<Problem>, filled: seq<nat>) {
    && |problems| == |filled|
    && (forall k :: 0 <= k < |filled| ==> filled[k] < |errs| && errs[filled[k]] == Some(problems[k]))
    && (forall j, k :: 0 <= j < k < |filled| ==> filled[j] < filled[k])
    && (forall i: nat :: i in filled <==> i < |errs| && errs[i].Some?)
  }

  lemma EmptySlotAdded(errs: seq<Option<Problem>>, problems: seq<Problem>, filled: seq<nat>)
    requires FilledAt(errs, problems, filled)
    ensures FilledAt(errs + [None], problems, filled)
  {
  }

  lemma FullSlotAdded(errs: seq<Option<Problem>>, problems: seq<Problem>, filled: seq<nat>, problem: Problem)
    requires FilledAt(errs, problems, filled)
    ensures FilledAt(errs + [Some(problem)], problems + [problem], filled + [|errs|])
  {
    forall k | 0 <= k < |filled|
      ensures filled[k] < |errs|
    {
      assert filled[k] in filled;
    }
  }

  lemma {:induction false} PresentKeepsAll(errs: seq<Option<Problem>>) returns (filled: seq<nat>)
    ensures FilledAt(errs, Present(errs), filled)
  {
    if errs == [] {
      filled := [];
    } else {
      var init, last := errs[..|errs| - 1], errs[|errs| - 1];
      assert errs == init + [last];
      var rest := PresentKeepsAll(init);
      hide FilledAt;
      match last
      case None =>
        EmptySlotAdded(init, Present(init), rest);
        filled := rest;
      case Some(problem) =>
        FullSlotAdded(init, Present(init), rest, problem);
        filled := rest + [|init|];
    }
  }

  /** The slots of a finished call: a function of the answers, in the order of the roles. */
  function SlotsOf(roles: seq<string>, answers: map<nat, Answer>): seq<Option<Problem>>
    requires forall i :: 0 <= i < |roles| ==> i in answers
  {
    seq(|roles|, i requires 0 <= i < |roles| => SlotOf(roles[i], answers[i]))
  }

  lemma JoinedState(roles: seq<string>, groups: map<string, string>, s: State)
    requires Inv(roles, groups, s) && s.verdict.Some? && s.verdict.value.Joined?
    ensures forall i :: 0 <= i < |roles| ==> i in s.answers && (s.answers[i].HttpStatus? ==> i in s.puts)
    ensures s.errs == SlotsOf(roles, s.answers)
    ensures s.verdict == Some(Joined(Present(s.errs)))
  {
    hide Present;
    forall i | 0 <= i < |roles|
      ensures i in s.answers && s.errs[i] == SlotOf(roles[i], s.answers[i])
      ensures s.answers[i].HttpStatus? ==> i in s.puts
    {
      assert PositionInv(roles, s, i);
    }
  }

  /** The call returns nil exactly if every role got its own PUT and every PUT was answered 204. */
  lemma NilMeansAllAssigned(roles: seq<string>, groups: map<string, string>, run: seq<Event>)
    requires Run(roles, groups, run).verdict.Some?
    ensures var s := Run(roles, groups, run);
            s.verdict == Some(Joined([]))
            <==> forall i :: 0 <= i < |roles| ==> i in s.puts && i in s.answers && s.answers[i] == NO_CONTENT
  {
    hide Run, Mapped, PoolInv, AnswerInv;
    RunIsSafe(roles, groups, run);
    var s := Run(roles, groups, run);
    if s.verdict.value.Joined? {
      JoinedState(roles, groups, s);
      hide Inv;
      assert forall i :: 0 <= i < |roles| ==> (s.errs[i].None? <==> s.answers[i] == NO_CONTENT);
      assert forall slot <- s.errs :: slot.Some? ==> exists i :: 0 <= i < |roles| && s.errs[i] == slot;
    } else {
      assert s.next < |roles| && PositionInv(roles, s, s.next);
    }
  }

  /** No failure is dropped: a finished call returns the errors of its failed PUTs, one for each, in order. */
  lemma NoProblemIsLost(roles: seq<string>, groups: map<string, string>, run: seq<Event>) returns (failed: seq<nat>)
    requires Run(roles, groups, run).verdict.Some? && Run(roles, groups, run).verdict.value.Joined?
    ensures var s := Run(roles, groups, run);
            && Accounts(roles, s.answers, s.verdict.value.problems, failed)
            && |s.verdict.value.problems|
               == |set i: nat | i < |roles| && i in s.answers && s.answers[i] != HttpStatus(204)|
            && forall i: nat :: i < |roles| ==> i in s.answers
  {
    hide Run, Inv, Present, FilledAt, Accounts, SlotsOf;
    RunIsSafe(roles, groups, run);
    var s := Run(roles, groups, run);
    JoinedState(roles, groups, s);
    failed := PresentKeepsAll(s.errs);
    FilledAccounts(roles, s.answers, Present(s.errs), failed);
  }

  lemma FilledAccounts(roles: seq<string>, answers: map<nat, Answer>, problems: seq<Problem>, failed: seq<nat>)
    requires forall i :: 0 <= i < |roles| ==> i in answers
    requires FilledAt(SlotsOf(roles, answers), problems, failed)
    ensures Accounts(roles, answers, problems, failed)
    ensures |problems| == |set i: nat | i < |roles| && i in answers && answers[i] != HttpStatus(204)|
  {
    var errs := SlotsOf(roles, answers);
    assert forall i: nat :: i < |roles| ==> errs[i] == SlotOf(roles[i], answers[i]);
    hide SlotsOf;
    CountedOnce(failed, set i: nat | i < |roles| && i in answers && answers[i] != HttpStatus(204));
  }

  lemma {:induction false} CountedOnce(positions: seq<nat>, members: set<nat>)
    requires forall j, k :: 0 <= j < k < |positions| ==> positions[j] < positions[k]
    requires forall i :: i in members <==> i in positions
    ensures |members| == |positions|
    decreases |positions|
  {
    if positions == [] {
      assert members == {};
    } else {
      var init, last := positions[..|positions| - 1], positions[|positions| - 1];
      assert positions == init + [last];
      CountedOnce(init, members - {last});
    }
  }

  /** The result depends on the answers alone: with the same answers two schedules return the same errors in order. */
  lemma ResultIgnoresSchedule(roles: seq<string>, groups: map<string, string>, a: seq<Event>, b: seq<Event>)
    requires Run(roles, groups, a).verdict.Some? && Run(roles, groups, a).verdict.value.Joined?
    requires Run(roles, groups, b).verdict.Some? && Run(roles, groups, b).verdict.value.Joined?
    requires Run(roles, groups, a).answers == Run(roles, groups, b).answers
    ensures Run(roles, groups, a).verdict == Run(roles, groups, b).verdict
  {
    RunIsSafe(roles, groups, a);
    RunIsSafe(roles, groups, b);
    JoinedState(roles, groups, Run(roles, groups, a));
    JoinedState(roles, groups, Run(roles, groups, b));
  }

  /** The mapping has no group for this role, or only white space. */
  predicate Groupless(groups: map<string, string>, role: string) {
    role !in groups || Text.TrimSpace(groups[role]) == ""
  }

  /**
   The first role without a group ends the call with an error that names it, and no role from its position on
   is ever touched.
   */
  lemma UnmappedStops(roles: seq<string>, groups: map<string, string>, run: seq<Event>, k: nat)
    requires k < |roles| && Groupless(groups, roles[k])
    requires forall i :: 0 <= i < k ==> !Groupless(groups, roles[i])
    ensures var s := Run(roles, groups, run);
            && (forall i <- s.puts :: i < k)
            && (s.verdict.Some? ==> s.verdict == Some(Unmapped(roles[k])))
  {
    hide Run, AllPositions, PoolInv, VerdictInv, Groupless;
    RunIsSafe(roles, groups, run);
    UnmappedInState(roles, groups, Run(roles, groups, run), k);
  }

  lemma UnmappedInState(roles: seq<string>, groups: map<string, string>, s: State, k: nat)
    requires PoolInv(roles, groups, s) && VerdictInv(roles, groups, s)
    requires k < |roles| && Groupless(groups, roles[k])
    requires forall i :: 0 <= i < k ==> !Groupless(groups, roles[i])
    ensures (forall i <- s.puts :: i < k) && (s.verdict.Some? ==> s.verdict == Some(Unmapped(roles[k])))
  {
    hide Text.TrimSpace, Present, DistinctPositions;
    assert s.next <= k;
  }

  /** Nothing else ends the call early. */
  lemma MappedNeverStops(roles: seq<string>, groups: map<string, string>, run: seq<Event>)
    requires forall role <- roles :: !Groupless(groups, role)
    ensures var s := Run(roles, groups, run); s.verdict.Some? ==> s.verdict.value.Joined?
  {
    RunIsSafe(roles, groups, run);
    var s := Run(roles, groups, run);
    assert s.next < |roles| ==> roles[s.next] in roles && Mapped(groups, roles[s.next]);
    hide Run, Mapped, Groupless;
  }

  // ----- Every schedule ends -----

  function PhaseRank(phase: Phase): nat {
    match phase
    case Spawned(_) => 3
    case InFlight => 2
    case Answered(_) => 1
  }

  /** The steps that position `i` still has to go. */
  function PositionRank(s: State, i: nat): nat {
    if i >= s.next then 4 else if i in s.workers then PhaseRank(s.workers[i]) else 0
  }

  /** The steps that the first `n` positions still have to go. */
  function Rank(s: State, n: nat): (r: nat) {
    if n == 0 then 0 else Rank(s, n - 1) + PositionRank(s, n - 1)
  }

  /** Only position `i` moves among the first `n`. */
  lemma {:induction false} RankMoves(s: State, next: State, i: nat, n: nat)
    requires forall j :: 0 <= j < n && j != i ==> PositionRank(next, j) == PositionRank(s, j)
    requires PositionRank(next, i) < PositionRank(s, i)
    ensures if i < n then Rank(next, n) < Rank(s, n) else Rank(next, n) == Rank(s, n)
  {
    if n > 0 {
      RankMoves(s, next, i, n - 1);
    }
  }

  lemma {:induction false} RankStays(s: State, next: State, n: nat)
    requires s.next == next.next && s.workers == next.workers
    ensures Rank(next, n) == Rank(s, n)
  {
    if n > 0 {
      RankStays(s, next, n - 1);
    }
  }

  function Potential(roles: seq<string>, s: State): nat {
    Rank(s, |roles|) + if s.verdict == None then 1 else 0
  }

  lemma StepsCost(roles: seq<string>, groups: map<string, string>, s: State, e: Event)
    requires Inv(roles, groups, s)
    ensures var next := Next(roles, groups, s, e); next != s ==> Potential(roles, next) < Potential(roles, s)
  {
    var next := Next(roles, groups, s, e);
    if next != s {
      hide Mapped, Present, PositionInv, VerdictInv;
      match e
      case Spawn =>
        if next.next == s.next { RankStays(s, next, |roles|); } else { RankMoves(s, next, s.next, |roles|); }
      case Send(i) => RankMoves(s, next, i, |roles|);
      case Reply(i, _) => RankMoves(s, next, i, |roles|);
      case WriteSlot(i) => RankMoves(s, next, i, |roles|);
      case Wait => RankStays(s, next, |roles|);
    }
  }

  /** The number of events of a run that changed something. */
  function Effective(roles: seq<string>, groups: map<string, string>, run: seq<Event>): nat {
    if run == [] then 0
    else
      var before := Run(roles, groups, run[..|run| - 1]);
      Effective(roles, groups, run[..|run| - 1])
      + if Next(roles, groups, before, run[|run| - 1]) == before then 0 else 1
  }

  lemma {:induction false} StartRank(roles: seq<string>, n: nat)
    ensures Rank(Start(roles), n) == 4 * n
  {
    if n > 0 {
      StartRank(roles, n - 1);
    }
  }

  /** No schedule has more than four steps for each role and one for the result. */
  lemma {:induction false} ScheduleIsBounded(roles: seq<string>, groups: map<string, string>, run: seq<Event>)
    ensures Effective(roles, groups, run) + Potential(roles, Run(roles, groups, run)) <= 4 * |roles| + 1
  {
    hide Inv, Next;
    if run == [] {
      StartRank(roles, |roles|);
    } else {
      var before := Run(roles, groups, run[..|run| - 1]);
      ScheduleIsBounded(roles, groups, run[..|run| - 1]);
      RunIsSafe(roles, groups, run[..|run| - 1]);
      StepsCost(roles, groups, before, run[|run| - 1]);
      hide Potential, Rank;
    }
  }

  /**
   And no schedule is stuck before the call has returned: the blocked spawning loop always waits for a worker
   that can move.
   */
  lemma NeverStuck(roles: seq<string>, groups: map<string, string>, run: seq<Event>)
    requires Run(roles, groups, run).verdict == None
    ensures exists e :: Next(roles, groups, Run(roles, groups, run), e) != Run(roles, groups, run)
  {
    RunIsSafe(roles, groups, run);
    var s := Run(roles, groups, run);
    hide Run, Mapped, Present, PositionInv;
    if s.workers == map[] {
      assert |s.workers| == 0;
      var e := if s.next < |roles| then Spawn else Wait;
      assert Next(roles, groups, s, e) != s;
    } else {
      var i :| i in s.workers;
      var e := match s.workers[i]
        case Spawned(_) => Send(i)
        case InFlight => Reply(i, NoAnswer)
        case Answered(_) => WriteSlot(i);
      assert Next(roles, groups, s, e).workers != s.workers;
    }
  }
}
