/**
 What the guards and the clock allow: the word the migrations miss, how many requests one person can have, and
 how the lease covers the call timeout.
 */
module OnboardingLimits {
  import opened OnboardingSchema
  import opened OnboardingTransactions
  import opened OnboardingInvariant
  import opened OnboardingService
  import opened OnboardingSafety
  import opened OnboardingTheorems
  import opened DecisionLog
  import Reaper

  // ----- The words the code writes against the words the table allows -----

  /** Every word the code writes, except one, is in the CHECK of the migrations. */
  lemma ShippedWordsMissOne()
    ensures ProvisioningAmbiguousWord !in SHIPPED_WORDS
    ensures forall kind, success ::
              ResultWord(kind, success) in SHIPPED_WORDS <==> !(kind == Provision && !success)
    ensures forall kind, success :: ResultWord(kind, success) in INTENDED_WORDS
  {
  }

  lemma NoAmbiguousProvision(t: Tables, words: set<DecisionWord>, id: RequestId)
    requires Inv(t, words) && ProvisioningAmbiguousWord !in words && id in t.requests
    ensures t.requests[id].status != ProvisioningAmbiguous
  {
    InvParts(t, words);
    InvCoupled(t, words, id);
    hide Inv, UniquePersonStatus, OneOutcome;
    if t.requests[id].status == ProvisioningAmbiguous {
      assert Words(t.decisions, id)[1] == ProvisioningAmbiguousWord;
      WordsHold(t.decisions, id, ProvisioningAmbiguousWord);
    }
  }

  /** Without the word, no request is ever provisioning_ambiguous. */
  lemma AmbiguousUnreachable(cfg: Config, now: Time, run: seq<Event>, id: RequestId)
    requires ProvisioningAmbiguousWord !in cfg.words && id in Run(cfg, Start(now), run).tables.requests
    ensures Run(cfg, Start(now), run).tables.requests[id].status != ProvisioningAmbiguous
  {
    RunIsSafe(cfg, now, run);
    hide Inv, Run, CallsInv, HandlersInv, EvidenceInv, CatalogueInv;
    NoAmbiguousProvision(Run(cfg, Start(now), run).tables, cfg.words, id);
  }

  /** A pass of the reaper touches the tables only, and the operations of its batch only. */
  lemma ReaperShape(cfg: Config, s: System, batch: seq<OperationKey>)
    ensures Next(cfg, s, RunReaper(batch)) == s.(tables := Next(cfg, s, RunReaper(batch)).tables)
    ensures Next(cfg, s, RunReaper(batch)).tables
            == if Selectable(s.tables, batch, s.now)
               then After(s.tables, Reap(s.tables, cfg.words, batch, cfg.serviceActor, s.now)) else s.tables
  {
    hide Reap, Selectable;
  }

  lemma OutsideBatch(t: Tables, words: set<DecisionWord>, batch: seq<OperationKey>, actor: string, now: Time,
                     key: OperationKey)
    requires Inv(t, words) && Selectable(t, batch, now)
    requires key in t.operations && key !in batch
    ensures var after := After(t, Reap(t, words, batch, actor, now));
            key in after.operations && after.operations[key] == t.operations[key]
  {
    hide Inv, Reaper.BatchReapable, Reap;
    Reaper.ReapCommits(t, words, batch, actor, now);
  }

  // ----- How many requests one person can have -----

  /** All statuses a request can be in; the one that needs a missing word is left out. */
  function ReachableStatuses(words: set<DecisionWord>): set<RequestStatus> {
    {Submitted, Approved, Provisioning, Rejected, Invited, Activating, ActivationAmbiguous, Active}
    + if ProvisioningAmbiguousWord in words then {ProvisioningAmbiguous} else {}
  }

  ghost function RequestsOf(t: Tables, person: Identity): set<RequestId> {
    set id | id in t.requests && SamePerson(t.requests[id].identity, person)
  }

  /** Requests of one person have different statuses, so there are no more of them than statuses. */
  lemma {:induction false} DistinctStatuses(t: Tables, ids: set<RequestId>, statuses: set<RequestStatus>)
    requires forall id <- ids :: id in t.requests && t.requests[id].status in statuses
    requires forall a, b :: a in ids && b in ids && a != b ==> t.requests[a].status != t.requests[b].status
    ensures |ids| <= |statuses|
    decreases ids
  {
    if id :| id in ids {
      DistinctStatuses(t, ids - {id}, statuses - {t.requests[id].status});
    }
  }

  lemma StatusIsReachable(t: Tables, words: set<DecisionWord>, id: RequestId)
    requires Inv(t, words) && id in t.requests
    ensures t.requests[id].status in ReachableStatuses(words)
  {
    InvCoupled(t, words, id);
    if ProvisioningAmbiguousWord !in words {
      NoAmbiguousProvision(t, words, id);
    }
    hide Inv, Words;
  }

  lemma PersonStatusesDiffer(t: Tables, words: set<DecisionWord>, a: RequestId, b: RequestId)
    requires Inv(t, words) && a in t.requests && b in t.requests && a != b
    requires SamePerson(t.requests[a].identity, t.requests[b].identity)
    ensures t.requests[a].status != t.requests[b].status
  {
    InvParts(t, words);
    hide Inv, Constraints;
    assert !Twin(t.requests, a, t.requests[a]);
  }

  /** No more requests than reachable statuses, and at most one that is active. */
  ghost predicate FewRequests(t: Tables, words: set<DecisionWord>, person: Identity) {
    && |RequestsOf(t, person)| <= (if ProvisioningAmbiguousWord in words then 9 else 8)
    && (forall a, b | a in RequestsOf(t, person) && b in RequestsOf(t, person) ::
          t.requests[a].status == Active && t.requests[b].status == Active ==> a == b)
  }

  lemma FewRequestsInTables(t: Tables, words: set<DecisionWord>, person: Identity)
    requires Inv(t, words)
    ensures FewRequests(t, words, person)
  {
    hide Inv;
    var ids := RequestsOf(t, person);
    forall id | id in ids
      ensures t.requests[id].status in ReachableStatuses(words)
    {
      StatusIsReachable(t, words, id);
    }
    forall a, b | a in ids && b in ids && a != b
      ensures t.requests[a].status != t.requests[b].status
    {
      PersonStatusesDiffer(t, words, a, b);
    }
    DistinctStatuses(t, ids, ReachableStatuses(words));
  }

  /** In every run, one person has at most nine requests, eight under the shipped words, and at most one is active. */
  lemma PersonBound(cfg: Config, now: Time, run: seq<Event>, person: Identity)
    ensures FewRequests(Run(cfg, Start(now), run).tables, cfg.words, person)
  {
    RunIsSafe(cfg, now, run);
    hide Inv, Run, CallsInv, HandlersInv, EvidenceInv, CatalogueInv, FewRequests;
    FewRequestsInTables(Run(cfg, Start(now), run).tables, cfg.words, person);
  }

  // ----- The lease and the call timeout -----

  /** A call that began within 40 seconds of its claim ends before its lease, and only then. */
  const PROMPT: Time := 40 * SECOND

  /**
   While a call is in flight its operation cannot be reaped if the call began promptly. If it began later,
   the operation can be reaped at the latest moment the call may still be in flight.
   */
  lemma LeaseCoversPromptCalls(cfg: Config, s: System, handler: nat)
    requires ServiceInv(cfg, s) && handler in s.handlers && s.handlers[handler].phase.Calling?
    requires IsRunning(s.tables, s.handlers[handler].key)
    ensures var h := s.handlers[handler];
            && (h.phase.startedAt <= h.claimedAt + PROMPT ==> !Expired(s.tables, h.key, s.now))
            && (Expired(s.tables, h.key, h.phase.startedAt + CALL_TIMEOUT)
                <==> h.phase.startedAt > h.claimedAt + PROMPT)
  {
    assert HandlerInv(s, s.handlers[handler]);
  }

  /** So a committed pass of the reaper marks a call in flight ambiguous only if that call began late. */
  lemma PromptCallsNotReaped(cfg: Config, s: System, handler: nat, batch: seq<OperationKey>)
    requires ServiceInv(cfg, s) && handler in s.handlers && s.handlers[handler].phase.Calling?
    requires s.handlers[handler].phase.startedAt <= s.handlers[handler].claimedAt + PROMPT
    ensures var key, after := s.handlers[handler].key, Next(cfg, s, RunReaper(batch)).tables;
            key in s.tables.operations && key in after.operations
            && after.operations[key] == s.tables.operations[key]
  {
    var key := s.handlers[handler].key;
    assert HandlerInv(s, s.handlers[handler]);
    assert Inv(s.tables, cfg.words);
    if IsRunning(s.tables, key) {
      LeaseCoversPromptCalls(cfg, s, handler);
    }
    ReaperShape(cfg, s, batch);
    hide ServiceInv, Inv, HandlerInv, Next, Reap;
    if Selectable(s.tables, batch, s.now) {
      OutsideBatch(s.tables, cfg.words, batch, cfg.serviceActor, s.now, key);
    }
  }
}
