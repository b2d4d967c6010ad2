/**
 Assigning a user to the groups of the approved roles: one PUT for each role, each by its own worker, at
 most four workers at a time. A schedule is any sequence of events; an event that is not enabled changes
 nothing, so that a full pool blocks the spawning loop.
 */
module FanOut {
  import opened Wrappers
  import Text

  const LIMIT: nat := 4

  /** How one PUT ended. */
  datatype Answer = HttpStatus(code: nat) | NoAnswer

  const NO_CONTENT := HttpStatus(204)

  datatype Problem = Problem(role: string, answer: Answer)

  /** What the call returns: `Joined([])` is Go's nil. */
  datatype Verdict = MissingUser | NoToken | Unmapped(role: string) | Joined(problems: seq<Problem>)

  /** A spawned worker has captured the group of its role. */
  datatype Phase = Spawned(group: string) | InFlight | Answered(answer: Answer)

  /**
   `errs` are the error slots; `puts`, `sent` and `answers` record the requests, their groups and their answers,
   by role position.
   */
  datatype State = State(
    next: nat,
    workers: map<nat, Phase>,
    errs: seq<Option<Problem>>,
    puts: seq<nat>,
    sent: map<nat, string>,
    answers: map<nat, Answer>,
    verdict: Option<Verdict>)

  datatype Event = Spawn | Send(sender: nat) | Reply(worker: nat, answer: Answer) | WriteSlot(writer: nat) | Wait

  predicate Mapped(groups: map<string, string>, role: string) {
    role in groups && !Text.IsBlank(groups[role])
  }

  function SlotOf(role: string, answer: Answer): Option<Problem> {
    if answer == NO_CONTENT then None else Some(Problem(role, answer))
  }

  /** `errors.Join` drops the empty slots. */
  function Present(errs: seq<Option<Problem>>): (problems: seq<Problem>)
    ensures problems == [] <==> forall slot <- errs :: slot.None?
  {
    if errs == [] then []
    else Present(errs[..|errs| - 1]) + (match errs[|errs| - 1] case None => [] case Some(problem) => [problem])
  }

  function Start(roles: seq<string>): State {
    State(0, map[], seq(|roles|, i => None), [], map[], map[], None)
  }

  function Next(roles: seq<string>, groups: map<string, string>, s: State, e: Event): (next: State)
    requires |s.errs| == |roles|
    ensures |next.errs| == |roles|
  {
    match e
    case Spawn =>
      if s.verdict.Some? || s.next >= |roles| then s
      else if !Mapped(groups, roles[s.next]) then s.(verdict := Some(Unmapped(roles[s.next])))
      else if |s.workers| >= LIMIT then s
      else s.(next := s.next + 1, workers := s.workers[s.next := Spawned(groups[roles[s.next]])])
    case Send(i) =>
      if i !in s.workers || !s.workers[i].Spawned? then s
      else s.(workers := s.workers[i := InFlight], puts := s.puts + [i], sent := s.sent[i := s.workers[i].group])
    case Reply(i, answer) =>
      // A request that cannot even be built fails without a PUT.
      if i !in s.workers || !(s.workers[i].InFlight? || (s.workers[i].Spawned? && answer.NoAnswer?)) then s
      else s.(workers := s.workers[i := Answered(answer)], answers := s.answers[i := answer])
    case WriteSlot(i) =>
      if i !in s.workers || !s.workers[i].Answered? || i >= |roles| then s
      else s.(workers := s.workers - {i}, errs := s.errs[i := SlotOf(roles[i], s.workers[i].answer)])
    case Wait =>
      if s.verdict.Some? || s.next < |roles| || s.workers != map[] then s
      else s.(verdict := Some(Joined(Present(s.errs))))
  }

  function Run(roles: seq<string>, groups: map<string, string>, run: seq<Event>): (s: State)
    ensures |s.errs| == |roles|
  {
    if run == [] then Start(roles) else Next(roles, groups, Run(roles, groups, run[..|run| - 1]), run[|run| - 1])
  }

  // ----- The invariant -----

  /** How one position of the role list is doing. */
  ghost predicate PositionInv(roles: seq<string>, s: State, i: nat)
    requires |s.errs| == |roles| && i < |roles|
  {
    if i >= s.next then
      i !in s.workers && i !in s.puts && i !in s.answers && s.errs[i] == None
    else if i in s.workers then
      && s.errs[i] == None
      && (s.workers[i].Spawned? ==> i !in s.puts && i !in s.answers)
      && (s.workers[i].InFlight? ==> i in s.puts && i !in s.answers)
      && (s.workers[i].Answered? ==> i in s.answers && s.answers[i] == s.workers[i].answer && AnswerInv(s, i))
    else
      i in s.answers && s.errs[i] == SlotOf(roles[i], s.answers[i]) && AnswerInv(s, i)
  }

  /** Only a request that went out can have been answered by the server. */
  ghost predicate AnswerInv(s: State, i: nat)
    requires i in s.answers
  {
    s.answers[i].HttpStatus? ==> i in s.puts
  }

  predicate DistinctPositions(puts: seq<nat>) {
    forall i, j :: 0 <= i < j < |puts| ==> puts[i] != puts[j]
  }

  ghost predicate VerdictInv(roles: seq<string>, groups: map<string, string>, s: State)
    requires s.next <= |roles|
  {
    match s.verdict
    case None => true
    case Some(Unmapped(role)) => s.next < |roles| && role == roles[s.next] && !Mapped(groups, role)
    case Some(Joined(problems)) => s.next == |roles| && s.workers == map[] && problems == Present(s.errs)
    case _ => false
  }

  ghost predicate AllPositions(roles: seq<string>, s: State)
    requires |s.errs| == |roles|
  {
    forall i :: 0 <= i < |roles| ==> PositionInv(roles, s, i)
  }

  /** The pool as a whole. */
  ghost predicate PoolInv(roles: seq<string>, groups: map<string, string>, s: State) {
    && s.next <= |roles| && |s.errs| == |roles|
    && |s.workers| <= LIMIT
    && (forall i <- s.workers.Keys :: i < s.next)
    && (forall i <- s.answers.Keys :: i < s.next)
    && (forall i <- s.puts :: i < s.next)
    && DistinctPositions(s.puts)
    && (forall i :: 0 <= i < s.next ==> Mapped(groups, roles[i]))
  }

  ghost predicate Inv(roles: seq<string>, groups: map<string, string>, s: State) {
    PoolInv(roles, groups, s) && AllPositions(roles, s) && VerdictInv(roles, groups, s)
  }

  lemma WorkerCount(workers: map<nat, Phase>, i: nat, phase: Phase)
    ensures i in workers ==> |workers[i := phase]| == |workers|
    ensures i !in workers ==> |workers[i := phase]| == |workers| + 1
    ensures |workers - {i}| <= |workers|
  {
    if i in workers {
      assert workers[i := phase].Keys == workers.Keys;
    } else {
      assert workers[i := phase].Keys == workers.Keys + {i};
    }
    assert (workers - {i}).Keys == workers.Keys - {i};
    Subset((workers - {i}).Keys, workers.Keys);
  }

  lemma {:induction false} Subset<T>(small: set<T>, large: set<T>)
    requires small <= large
    ensures |small| <= |large|
  {
    if small != {} {
      var x :| x in small;
      Subset(small - {x}, large - {x});
    }
  }

  /** Two states agree on a position other than the one that moves. */
  ghost predicate SameAt(s: State, next: State, j: nat)
    requires |s.errs| == |next.errs| && j < |s.errs|
  {
    && (j < s.next <==> j < next.next)
    && (j in s.workers <==> j in next.workers) && (j in s.workers ==> s.workers[j] == next.workers[j])
    && (j in s.answers <==> j in next.answers) && (j in s.answers ==> s.answers[j] == next.answers[j])
    && (j in s.puts <==> j in next.puts)
    && s.errs[j] == next.errs[j]
  }

  lemma OthersKeep(roles: seq<string>, s: State, next: State, i: nat)
    requires |s.errs| == |next.errs| == |roles|
    requires AllPositions(roles, s)
    requires forall j :: 0 <= j < |roles| && j != i ==> SameAt(s, next, j)
    requires i < |roles| ==> PositionInv(roles, next, i)
    ensures AllPositions(roles, next)
  {
    hide SlotOf;
    forall j | 0 <= j < |roles|
      ensures PositionInv(roles, next, j)
    {
      if j != i {
        assert PositionInv(roles, s, j) && SameAt(s, next, j);
      }
    }
  }

  lemma WorkerPool(roles: seq<string>, groups: map<string, string>, s: State, i: nat, e: Event)
    requires PoolInv(roles, groups, s) && VerdictInv(roles, groups, s) && i in s.workers
    requires i in s.puts ==> !s.workers[i].Spawned?
    requires e == Send(i) || e == WriteSlot(i) || (e.Reply? && e.worker == i)
    ensures PoolInv(roles, groups, Next(roles, groups, s, e)) && VerdictInv(roles, groups, Next(roles, groups, s, e))
  {
    hide Mapped, Present, SlotOf;
    var next := Next(roles, groups, s, e);
    WorkerCount(s.workers, i, if i in next.workers then next.workers[i] else InFlight);
  }

  lemma WorkerPositions(roles: seq<string>, s: State, i: nat, e: Event)
    requires |s.errs| == |roles| && AllPositions(roles, s) && i in s.workers && i < s.next <= |roles|
    requires e == Send(i) || e == WriteSlot(i) || (e.Reply? && e.worker == i)
    ensures AllPositions(roles, Next(roles, map[], s, e))
  {
    hide SlotOf, Mapped, Present;
    assert PositionInv(roles, s, i);
    OthersKeep(roles, s, Next(roles, map[], s, e), i);
  }

  /** A worker moves on. */
  lemma WorkerMoves(roles: seq<string>, groups: map<string, string>, s: State, i: nat, e: Event)
    requires Inv(roles, groups, s) && i in s.workers
    requires e == Send(i) || e == WriteSlot(i) || (e.Reply? && e.worker == i)
    ensures Inv(roles, groups, Next(roles, groups, s, e))
  {
    hide Mapped, Present, SlotOf, VerdictInv, AnswerInv, DistinctPositions;
    assert PositionInv(roles, s, i);
    WorkerPool(roles, groups, s, i, e);
    WorkerPositions(roles, s, i, e);
    assert Next(roles, map[], s, e) == Next(roles, groups, s, e);
  }

  lemma SpawnPositions(roles: seq<string>, s: State, next: State, group: string)
    requires |s.errs| == |roles| && s.next < |roles|
    requires AllPositions(roles, s)
    requires next == s.(next := s.next + 1, workers := s.workers[s.next := Spawned(group)])
    ensures AllPositions(roles, next)
  {
    hide SlotOf, AnswerInv;
    assert PositionInv(roles, s, s.next);
    OthersKeep(roles, s, next, s.next);
  }

  lemma SpawnPool(roles: seq<string>, groups: map<string, string>, s: State, next: State, group: string)
    requires PoolInv(roles, groups, s) && s.next < |roles| && |s.workers| < LIMIT
    requires Mapped(groups, roles[s.next])
    requires next == s.(next := s.next + 1, workers := s.workers[s.next := Spawned(group)])
    ensures PoolInv(roles, groups, next)
  {
    hide Mapped, DistinctPositions;
    WorkerCount(s.workers, s.next, Spawned(group));
  }

  lemma SpawnWorkerKeeps(roles: seq<string>, groups: map<string, string>, s: State, next: State, group: string)
    requires Inv(roles, groups, s) && s.verdict == None && s.next < |roles| && |s.workers| < LIMIT
    requires Mapped(groups, roles[s.next])
    requires next == s.(next := s.next + 1, workers := s.workers[s.next := Spawned(group)])
    ensures Inv(roles, groups, next)
  {
    hide Mapped, Present, AllPositions, DistinctPositions;
    assert |s.errs| == |roles|;
    SpawnPool(roles, groups, s, next, group);
    SpawnPositions(roles, s, next, group);
  }

  lemma UnmappedKeeps(roles: seq<string>, groups: map<string, string>, s: State, next: State)
    requires Inv(roles, groups, s) && s.verdict == None && s.next < |roles|
    requires !Mapped(groups, roles[s.next])
    requires next == s.(verdict := Some(Unmapped(roles[s.next])))
    ensures Inv(roles, groups, next)
  {
    hide Mapped, Present, SlotOf, PositionInv;
    SamePositions(roles, s, next);
  }

  lemma SpawnKeeps(roles: seq<string>, groups: map<string, string>, s: State)
    requires Inv(roles, groups, s)
    ensures Inv(roles, groups, Next(roles, groups, s, Spawn))
  {
    var next := Next(roles, groups, s, Spawn);
    assert |s.errs| == |roles|;
    hide Mapped, Present, SlotOf, PositionInv, Inv;
    if s.verdict == None && s.next < |roles| {
      if !Mapped(groups, roles[s.next]) {
        UnmappedKeeps(roles, groups, s, next);
      } else if |s.workers| < LIMIT {
        SpawnWorkerKeeps(roles, groups, s, next, groups[roles[s.next]]);
      }
    }
  }

  lemma SamePositions(roles: seq<string>, s: State, next: State)
    requires |s.errs| == |roles| && AllPositions(roles, s)
    requires next == s.(verdict := next.verdict)
    ensures AllPositions(roles, next)
  {
    OthersKeep(roles, s, next, |roles|);
  }

  lemma StepKeeps(roles: seq<string>, groups: map<string, string>, s: State, e: Event)
    requires Inv(roles, groups, s)
    ensures Inv(roles, groups, Next(roles, groups, s, e))
  {
    match e
    case Spawn => SpawnKeeps(roles, groups, s);
    case Send(i) => if i in s.workers { WorkerMoves(roles, groups, s, i, e); }
    case Reply(i, _) => if i in s.workers { WorkerMoves(roles, groups, s, i, e); }
    case WriteSlot(i) => if i in s.workers { WorkerMoves(roles, groups, s, i, e); }
    case Wait =>
      var next := Next(roles, groups, s, Wait);
      hide Mapped, Present, PositionInv;
      SamePositions(roles, s, next);
  }

  lemma {:induction false} RunIsSafe(roles: seq<string>, groups: map<string, string>, run: seq<Event>)
    ensures Inv(roles, groups, Run(roles, groups, run))
  {
    if run == [] {
      assert Inv(roles, groups, Start(roles));
    } else {
      RunIsSafe(roles, groups, run[..|run| - 1]);
      hide Inv, Next, PositionInv;
      StepKeeps(roles, groups, Run(roles, groups, run[..|run| - 1]), run[|run| - 1]);
    }
  }

  // ----- Which group each PUT is for -----

  /** Every worker has, and every PUT had, the group of its own role. */
  ghost predicate GroupsInv(roles: seq<string>, groups: map<string, string>, s: State) {
    && (forall i <- s.workers.Keys :: s.workers[i].Spawned? ==>
          i < |roles| && roles[i] in groups && s.workers[i].group == groups[roles[i]])
    && (forall i <- s.puts :: i in s.sent)
    && (forall i <- s.sent.Keys :: i < |roles| && roles[i] in groups && s.sent[i] == groups[roles[i]])
  }

  lemma StepKeepsGroups(roles: seq<string>, groups: map<string, string>, s: State, e: Event)
    requires |s.errs| == |roles| && GroupsInv(roles, groups, s)
    ensures GroupsInv(roles, groups, Next(roles, groups, s, e))
  {
    hide Present, SlotOf, Text.IsBlank;
  }

  lemma {:induction false} RunKeepsGroups(roles: seq<string>, groups: map<string, string>, run: seq<Event>)
    ensures GroupsInv(roles, groups, Run(roles, groups, run))
  {
    hide Next, GroupsInv;
    if run == [] {
      StartHasNoGroups(roles, groups);
    } else {
      RunKeepsGroups(roles, groups, run[..|run| - 1]);
      StepKeepsGroups(roles, groups, Run(roles, groups, run[..|run| - 1]), run[|run| - 1]);
    }
  }

  lemma StartHasNoGroups(roles: seq<string>, groups: map<string, string>)
    ensures GroupsInv(roles, groups, Start(roles))
  {
  }
}
