/** The bound on the requests of one person is reached: one request in each reachable status at the same time. */
module OnboardingBound {
  import opened OnboardingSchema
  import opened OnboardingInvariant
  import opened OnboardingService
  import opened OnboardingSafety
  import opened OnboardingSchedules
  import opened OnboardingLimits
  import opened OnboardingProgress

  /** An order in which no request has to pass a status that an earlier one occupies. */
  predicate Passable(order: seq<RequestStatus>) {
    forall j, k :: 0 <= j < k < |order| ==> order[j] !in Way(order[k])
  }

  /** The statuses from the end of the lifecycle to its beginning. */
  function FromTheEnd(words: set<DecisionWord>): seq<RequestStatus> {
    [Active, ActivationAmbiguous, Rejected]
    + (if ProvisioningAmbiguousWord in words then [ProvisioningAmbiguous] else [])
    + [Activating, Invited, Provisioning, Approved, Submitted]
  }

  predicate Fresh(s: System, ids: seq<RequestId>) {
    && (forall id <- ids :: id !in s.tables.requests)
    && (forall j, k :: 0 <= j < k < |ids| ==> ids[j] != ids[k])
  }

  /** The person has no request at all. */
  ghost predicate Unknown(t: Tables, person: Identity) {
    forall other <- t.requests.Keys :: !SamePerson(t.requests[other].identity, person)
  }

  function RunToAll(cast: Cast, ids: seq<RequestId>, order: seq<RequestStatus>): seq<Event>
    requires |ids| == |order|
  {
    if ids == [] then []
    else
      var n := |ids| - 1;
      RunToAll(cast, ids[..n], order[..n]) + RunTo(cast, ids[n], order[n])
  }

  /** One request in each status of the order, and no other request that was not there before. */
  ghost predicate Placed(cfg: Config, s: System, after: System, ids: seq<RequestId>, order: seq<RequestStatus>,
                         person: Identity)
    requires |ids| == |order|
  {
    && ServiceInv(cfg, after) && SameThreads(s, after)
    && (forall x <- after.tables.requests.Keys :: x in s.tables.requests || x in ids)
    && (forall x <- s.tables.requests.Keys ::
          x in after.tables.requests && after.tables.requests[x] == s.tables.requests[x])
    && (forall k :: 0 <= k < |ids| ==> PlacedAt(after.tables, ids[k], order[k], person))
  }

  predicate PlacedAt(t: Tables, id: RequestId, status: RequestStatus, person: Identity) {
    id in t.requests && t.requests[id].identity == person && t.requests[id].status == status
  }

  /** The way of the next request is clear: the person's other requests are further on. */
  lemma NextIsClear(cfg: Config, s: System, after: System, ids: seq<RequestId>, order: seq<RequestStatus>,
      person: Identity, n: nat)
    requires |ids| == |order| && n < |ids| && Passable(order) && Unknown(s.tables, person)
    requires Placed(cfg, s, after, ids[..n], order[..n], person)
    ensures Clear(after.tables, person, Way(order[n]))
  {
    hide ServiceInv, Way, SamePerson;
    forall other | other in after.tables.requests.Keys && SamePerson(after.tables.requests[other].identity, person)
      ensures after.tables.requests[other].status !in Way(order[n])
    {
      assert other !in s.tables.requests;
      var k :| 0 <= k < n && ids[..n][k] == other;
      assert PlacedAt(after.tables, ids[..n][k], order[..n][k], person);
    }
  }

  lemma OneMorePlaced(cfg: Config, s: System, before: System, after: System, ids: seq<RequestId>,
      order: seq<RequestStatus>, person: Identity, n: nat)
    requires |ids| == |order| && n < |ids| && Fresh(s, ids)
    requires Placed(cfg, s, before, ids[..n], order[..n], person)
    requires Ahead(cfg, before, after, ids[n], person, order[n]) && SameThreads(before, after)
    ensures Placed(cfg, s, after, ids[..n + 1], order[..n + 1], person)
  {
    hide ServiceInv;
    var more, stages := ids[..n + 1], order[..n + 1];
    assert more == ids[..n] + [ids[n]] && stages == order[..n] + [order[n]];
    forall k | 0 <= k < n + 1
      ensures PlacedAt(after.tables, more[k], stages[k], person)
    {
      if k < n {
        assert PlacedAt(before.tables, ids[..n][k], order[..n][k], person);
      }
    }
  }

  lemma NextIsFresh(cfg: Config, s: System, after: System, ids: seq<RequestId>, order: seq<RequestStatus>,
      person: Identity, n: nat)
    requires |ids| == |order| && n < |ids| && Fresh(s, ids)
    requires Placed(cfg, s, after, ids[..n], order[..n], person)
    ensures ServiceInv(cfg, after) && SameThreads(s, after) && ids[n] !in after.tables.requests
  {
    hide ServiceInv;
    assert ids[n] !in ids[..n];
  }

  lemma {:induction false} AllPlaced(cfg: Config, s: System, cast: Cast, ids: seq<RequestId>, order: seq<RequestStatus>,
      n: nat)
    requires ServiceInv(cfg, s) && Ready(cfg, cast) && cast.handler !in s.handlers
    requires |ids| == |order| && n <= |ids| && Fresh(s, ids) && Unknown(s.tables, Person(cast))
    requires Passable(order) && forall status <- order :: Writable(cfg, status)
    ensures Placed(cfg, s, Run(cfg, s, RunToAll(cast, ids[..n], order[..n])), ids[..n], order[..n], Person(cast))
  {
    hide ServiceInv, Run, Ready, Person, Unknown, Writable, Passable, Fresh, Clear, Ahead, RunTo;
    if n == 0 {
      assert RunToAll(cast, [], []) == [] && Run(cfg, s, []) == s by {
        EmptyRun(cfg, s);
      }
    } else {
      AllPlaced(cfg, s, cast, ids, order, n - 1);
      hide Placed;
      var before := Run(cfg, s, RunToAll(cast, ids[..n - 1], order[..n - 1]));
      var after := Run(cfg, before, RunTo(cast, ids[n - 1], order[n - 1]));
      NextIsFresh(cfg, s, before, ids, order, Person(cast), n - 1);
      NextIsClear(cfg, s, before, ids, order, Person(cast), n - 1);
      CanReach(cfg, before, ids[n - 1], cast, order[n - 1]);
      OneMorePlaced(cfg, s, before, after, ids, order, Person(cast), n - 1);
      assert ids[..n][..n - 1] == ids[..n - 1] && order[..n][..n - 1] == order[..n - 1];
      RunConcat(cfg, s, RunToAll(cast, ids[..n - 1], order[..n - 1]), RunTo(cast, ids[n - 1], order[n - 1]));
    }
  }

  /** The distance from the end. */
  function Distance(s: RequestStatus): nat {
    match s
    case Active => 0
    case ActivationAmbiguous => 1
    case Rejected => 2
    case ProvisioningAmbiguous => 3
    case Activating => 4
    case Invited => 5
    case Provisioning => 6
    case Approved => 7
    case Submitted => 8
    case _ => 9
  }

  /** The way to a status keeps at least its distance. */
  lemma WayKeepsDistance(target: RequestStatus)
    requires Used(target)
    ensures forall s <- Way(target) :: Distance(target) <= Distance(s)
    decreases Level(target)
  {
    if target != Submitted {
      WayKeepsDistance(Stage(target));
    }
  }

  lemma EndFirstApproaches(words: set<DecisionWord>)
    ensures forall j, k :: 0 <= j < k < |FromTheEnd(words)| ==>
              Distance(FromTheEnd(words)[j]) < Distance(FromTheEnd(words)[k])
    ensures forall status <- FromTheEnd(words) :: Used(status)
    ensures |FromTheEnd(words)| == if ProvisioningAmbiguousWord in words then 9 else 8
  {
    if ProvisioningAmbiguousWord in words {
      assert FromTheEnd(words) == [Active, ActivationAmbiguous, Rejected, ProvisioningAmbiguous, Activating, Invited,
                                   Provisioning, Approved, Submitted];
    } else {
      assert FromTheEnd(words) == [Active, ActivationAmbiguous, Rejected, Activating, Invited, Provisioning, Approved,
                                   Submitted];
    }
  }

  lemma EndFirstIsPassable(cfg: Config)
    requires {ApprovedWord, RejectedWord, InvitedWord, ActiveWord, ActivationAmbiguousWord} <= cfg.words
    ensures Passable(FromTheEnd(cfg.words))
    ensures forall status <- FromTheEnd(cfg.words) :: Writable(cfg, status)
    ensures |FromTheEnd(cfg.words)| == if ProvisioningAmbiguousWord in cfg.words then 9 else 8
  {
    hide FromTheEnd, Way, Distance, Writable, Used;
    var order := FromTheEnd(cfg.words);
    EndFirstApproaches(cfg.words);
    forall j, k | 0 <= j < k < |order|
      ensures order[j] !in Way(order[k])
    {
      assert Used(order[k]);
      WayKeepsDistance(order[k]);
    }
    forall status | status in order
      ensures Writable(cfg, status)
    {
      AllowedIsWritable(cfg, status);
    }
  }

  lemma AllowedIsWritable(cfg: Config, status: RequestStatus)
    requires {ApprovedWord, RejectedWord, InvitedWord, ActiveWord, ActivationAmbiguousWord} <= cfg.words
    requires status in FromTheEnd(cfg.words)
    ensures Writable(cfg, status)
  {
  }

  lemma {:induction false} DistinctCount(ids: seq<RequestId>, members: set<RequestId>)
    requires forall j, k :: 0 <= j < k < |ids| ==> ids[j] != ids[k]
    requires forall id :: id in members <==> id in ids
    ensures |members| == |ids|
    decreases |ids|
  {
    if ids == [] {
      assert members == {};
    } else {
      var init, last := ids[..|ids| - 1], ids[|ids| - 1];
      assert ids == init + [last];
      DistinctCount(init, members - {last});
    }
  }

  /**
   The bound of PersonBound is exact: from every safe state in which a person has no request there is a run
   after which this person has nine of them at once, eight without the word.
   */
  lemma BoundIsReached(cfg: Config, s: System, cast: Cast, ids: seq<RequestId>)
    requires ServiceInv(cfg, s) && Ready(cfg, cast) && cast.handler !in s.handlers
    requires {ApprovedWord, RejectedWord, InvitedWord, ActiveWord, ActivationAmbiguousWord} <= cfg.words
    requires |ids| == |FromTheEnd(cfg.words)| && Fresh(s, ids) && Unknown(s.tables, Person(cast))
    ensures var after := Run(cfg, s, RunToAll(cast, ids, FromTheEnd(cfg.words)));
            |RequestsOf(after.tables, Person(cast))| == (if ProvisioningAmbiguousWord in cfg.words then 9 else 8)
  {
    hide ServiceInv, Run, Ready, Person, Writable, Passable, FromTheEnd, RunToAll;
    var order := FromTheEnd(cfg.words);
    var after := Run(cfg, s, RunToAll(cast, ids, order));
    EndFirstIsPassable(cfg);
    AllPlaced(cfg, s, cast, ids, order, |ids|);
    assert ids[..|ids|] == ids && order[..|ids|] == order;
    forall x | x in ids
      ensures x in RequestsOf(after.tables, Person(cast))
    {
      var k :| 0 <= k < |ids| && ids[k] == x;
      assert PlacedAt(after.tables, ids[k], order[k], Person(cast));
    }
    DistinctCount(ids, RequestsOf(after.tables, Person(cast)));
  }
}
