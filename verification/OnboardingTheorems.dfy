/** What the coupling gives a reader: statements about every run of the service. */
module OnboardingTheorems {
  import opened Wrappers
  import opened OnboardingSchema
  import opened OnboardingTransactions
  import opened OnboardingInvariant
  import opened OnboardingCommits
  import opened OnboardingService
  import opened OnboardingSafety
  import opened DecisionLog

  // ----- Coupling -----

  ghost predicate IsRunning(t: Tables, key: OperationKey) {
    key in t.operations && t.operations[key].status == Running
  }

  /** A provision runs iff its request is provisioning, an activation iff it is activating, never both. */
  lemma CouplingInEveryRun(cfg: Config, now: Time, run: seq<Event>, id: RequestId)
    ensures var t := Run(cfg, Start(now), run).tables;
            && (IsRunning(t, OperationKey(id, Provision))
                <==> id in t.requests && t.requests[id].status == Provisioning)
            && (IsRunning(t, OperationKey(id, Activate))
                <==> id in t.requests && t.requests[id].status == Activating)
            && !(IsRunning(t, OperationKey(id, Provision)) && IsRunning(t, OperationKey(id, Activate)))
  {
    RunIsSafe(cfg, now, run);
    var t := Run(cfg, Start(now), run).tables;
    assert Inv(t, cfg.words);
    hide Inv, Run;
    RunningCoupling(t, cfg.words, OperationKey(id, Provision));
    RunningCoupling(t, cfg.words, OperationKey(id, Activate));
  }

  // ----- The log determines the status -----

  /** The status a reader reconstructs from the log alone, and from whether an operation is running. */
  function Replay(words: seq<DecisionWord>, running: bool): RequestStatus {
    if words == [] then Submitted else
    match words[|words| - 1]
    case ApprovedWord => if running then Provisioning else Approved
    case RejectedWord => Rejected
    case InvitedWord => if running then Activating else Invited
    case ProvisioningFailedWord => ProvisioningFailed
    case ActiveWord => Active
    case ActivationFailedWord => ActivationFailed
    case ProvisionAmbiguousWord | ProvisioningAmbiguousWord => ProvisioningAmbiguous
    case ActivationAmbiguousWord => ActivationAmbiguous
  }

  /** The logs of finished requests. An ambiguous word is the last one of its log. */
  predicate CompleteLog(log: seq<DecisionWord>) {
    || log == [RejectedWord]
    || log == [ApprovedWord, ProvisioningAmbiguousWord]
    || log == [ApprovedWord, InvitedWord, ActivationAmbiguousWord]
    || log == [ApprovedWord, InvitedWord, ActiveWord]
  }

  /** The words are the beginning of one of the four complete logs. */
  ghost predicate PrefixOfComplete(words: seq<DecisionWord>) {
    exists complete :: CompleteLog(complete) && words <= complete
  }

  ghost predicate HasRunning(t: Tables, id: RequestId) {
    exists kind :: IsRunning(t, OperationKey(id, kind))
  }

  lemma TrailReplays(s: RequestStatus)
    requires Used(s)
    ensures Replay(Trail(s), s in {Provisioning, Activating}) == s
    ensures PrefixOfComplete(Trail(s)) && |Trail(s)| <= 3
  {
    var complete :=
      match s
      case Rejected => [RejectedWord]
      case ProvisioningAmbiguous => [ApprovedWord, ProvisioningAmbiguousWord]
      case ActivationAmbiguous => [ApprovedWord, InvitedWord, ActivationAmbiguousWord]
      case _ => [ApprovedWord, InvitedWord, ActiveWord];
    assert CompleteLog(complete) && Trail(s) <= complete;
  }

  lemma LogDeterminesStatus(cfg: Config, now: Time, run: seq<Event>, id: RequestId)
    requires id in Run(cfg, Start(now), run).tables.requests
    ensures var t := Run(cfg, Start(now), run).tables;
            && t.requests[id].status == Replay(Words(t.decisions, id), HasRunning(t, id))
            && PrefixOfComplete(Words(t.decisions, id)) && |Words(t.decisions, id)| <= 3
  {
    RunIsSafe(cfg, now, run);
    CouplingInEveryRun(cfg, now, run, id);
    var t := Run(cfg, Start(now), run).tables;
    assert Inv(t, cfg.words);
    hide Inv, Run, Words;
    InvCoupled(t, cfg.words, id);
    hide IsRunning, Trail, Replay, PrefixOfComplete;
    var status := t.requests[id].status;
    assert HasRunning(t, id) <==> status in {Provisioning, Activating} by {
      assert IsRunning(t, OperationKey(id, Provision)) ==> HasRunning(t, id);
      assert IsRunning(t, OperationKey(id, Activate)) ==> HasRunning(t, id);
    }
    TrailReplays(status);
  }

  // ----- External calls happen at most once, and only after their approval -----

  function CallCount(calls: seq<Call>, key: OperationKey): nat {
    if calls == [] then 0 else
    CallCount(calls[..|calls| - 1], key) + if calls[|calls| - 1].key == key then 1 else 0
  }

  lemma {:induction false} DistinctCallsCount(calls: seq<Call>, key: OperationKey)
    requires forall i, j :: 0 <= i < j < |calls| ==> calls[i].key != calls[j].key
    ensures CallCount(calls, key) <= 1
    ensures CallCount(calls, key) == 0 <==> !Called(calls, key)
  {
    if calls != [] {
      var init := calls[..|calls| - 1];
      assert calls == init + [calls[|calls| - 1]];
      DistinctCallsCount(init, key);
    }
  }

  /** The k-th row of a log, in the whole table; rows of one log keep their order. */
  lemma {:induction false} LogPosition(decisions: seq<Decision>, id: RequestId, k: nat) returns (i: nat)
    requires k < |Log(decisions, id)|
    ensures i < |decisions| && decisions[i] == Log(decisions, id)[k]
    ensures k < |Log(decisions[..i + 1], id)| && Log(decisions[..i + 1], id)[k] == decisions[i]
    ensures |Log(decisions[..i + 1], id)| == k + 1
  {
    var last := |decisions| - 1;
    var init := decisions[..last];
    if k < |Log(init, id)| {
      i := LogPosition(init, id, k);
      assert decisions[..i + 1] == init[..i + 1];
    } else {
      i := last;
      assert decisions[..i + 1] == decisions;
    }
  }

  lemma LogOrder(decisions: seq<Decision>, id: RequestId) returns (a: nat, b: nat)
    requires |Log(decisions, id)| >= 2
    ensures a < b < |decisions|
    ensures decisions[a] == Log(decisions, id)[0] && decisions[b] == Log(decisions, id)[1]
    ensures decisions[a].request == id && decisions[b].request == id
  {
    hide Log;
    b := LogPosition(decisions, id, 1);
    var early, late := decisions[..b], decisions[b..];
    LogAppend(early, decisions[b], id);
    assert decisions[..b + 1] == early + [decisions[b]];
    LogHolds(decisions, id, decisions[b]);
    a := LogPosition(early, id, 0);
    LogConcat(early, late, id);
    assert decisions == early + late;
    LogHolds(decisions, id, decisions[a]);
  }

  /** Over any run, with any number of handlers and crashes: one call for each request and kind, at the most. */
  lemma CalledAtMostOnce(cfg: Config, now: Time, run: seq<Event>, key: OperationKey)
    ensures CallCount(Run(cfg, Start(now), run).calls, key) <= 1
    ensures CallCount(Run(cfg, Start(now), run).calls, key) == 0
            ==> OperationState(Run(cfg, Start(now), run).tables, key) != Some(Succeeded)
  {
    RunIsSafe(cfg, now, run);
    hide Inv, HandlersInv, CatalogueInv, Run, Justified;
    DistinctCallsCount(Run(cfg, Start(now), run).calls, key);
  }

  /** An approval row of the request by somebody who is not its requester. */
  ghost predicate ApprovedByAnother(t: Tables, i: nat, id: RequestId) {
    && i < |t.decisions| && id in t.requests
    && t.decisions[i].request == id && t.decisions[i].word == ApprovedWord
    && t.decisions[i].actor != t.requests[id].identity.requester
  }

  ghost predicate InvitedAt(t: Tables, i: nat, id: RequestId) {
    i < |t.decisions| && t.decisions[i].request == id && t.decisions[i].word == InvitedWord
  }

  lemma ActivationJustified(t: Tables, words: set<DecisionWord>, call: Call) returns (a: nat, b: nat)
    requires Inv(t, words) && Justified(t, call) && call.key.kind == Activate
    ensures a < b < call.decisionsBefore
    ensures ApprovedByAnother(t, a, call.key.request) && InvitedAt(t, b, call.key.request)
  {
    hide Inv, Constraints, Log;
    InvParts(t, words);
    var early, id := t.decisions[..call.decisionsBefore], call.key.request;
    assert Words(early, id)[..2] == [ApprovedWord, InvitedWord];
    a, b := LogOrder(early, id);
    assert early[a].word == Words(early, id)[0] && early[b].word == Words(early, id)[1];
    assert t.decisions[a] in t.decisions && Separated(t, t.decisions[a]);
  }

  lemma InvitationJustified(t: Tables, words: set<DecisionWord>, call: Call) returns (a: nat)
    requires Inv(t, words) && Justified(t, call) && call.key.kind == Provision
    ensures a < call.decisionsBefore && ApprovedByAnother(t, a, call.key.request)
  {
    hide Inv, Constraints, Log;
    InvParts(t, words);
    var early, id := t.decisions[..call.decisionsBefore], call.key.request;
    assert Words(early, id)[..1] == [ApprovedWord];
    a := LogPosition(early, id, 0);
    LogHolds(early, id, early[a]);
    assert early[a].word == Words(early, id)[0];
    assert t.decisions[a] in t.decisions && Separated(t, t.decisions[a]);
  }

  /** Before a group assignment began, an approval by another person and then an invitation were on record. */
  lemma GroupCallFollowsApproval(cfg: Config, now: Time, run: seq<Event>, call: Call)
    requires call in Run(cfg, Start(now), run).calls && call.key.kind == Activate
    ensures var t := Run(cfg, Start(now), run).tables;
            exists a: nat, b: nat :: a < b < call.decisionsBefore
              && ApprovedByAnother(t, a, call.key.request) && InvitedAt(t, b, call.key.request)
  {
    RunIsSafe(cfg, now, run);
    hide Inv, Justified, HandlersInv, EvidenceInv, CatalogueInv, Run, ApprovedByAnother, InvitedAt;
    var a, b := ActivationJustified(Run(cfg, Start(now), run).tables, cfg.words, call);
  }

  /** Before an invitation was sent, an approval by another person was on record. */
  lemma InvitationFollowsApproval(cfg: Config, now: Time, run: seq<Event>, call: Call)
    requires call in Run(cfg, Start(now), run).calls && call.key.kind == Provision
    ensures var t := Run(cfg, Start(now), run).tables;
            exists a: nat :: a < call.decisionsBefore && ApprovedByAnother(t, a, call.key.request)
  {
    RunIsSafe(cfg, now, run);
    hide Inv, Justified, HandlersInv, EvidenceInv, CatalogueInv, Run, ApprovedByAnother;
    var a := InvitationJustified(Run(cfg, Start(now), run).tables, cfg.words, call);
  }

  function SuccessKey(d: Decision): OperationKey {
    OperationKey(d.request, if d.word == InvitedWord then Provision else Activate)
  }

  lemma SuccessWordShown(t: Tables, words: set<DecisionWord>, d: Decision)
    requires Inv(t, words) && d in t.decisions && d.word in {InvitedWord, ActiveWord}
    ensures OperationState(t, SuccessKey(d)) == Some(Succeeded)
  {
    InvParts(t, words);
    InvCoupled(t, words, d.request);
    hide Inv, Constraints, Words;
    WordsHold(t.decisions, d.request, d.word);
    assert OperationState(t, SuccessKey(d)) == ExpectedOperation(SuccessKey(d).kind, t.requests[d.request].status);
  }

  /** `invited` and `active` are on record only if the external call was made and returned success. */
  lemma SuccessWordsHaveEvidence(cfg: Config, now: Time, run: seq<Event>, d: Decision)
    requires d in Run(cfg, Start(now), run).tables.decisions && d.word in {InvitedWord, ActiveWord}
    ensures SuccessKey(d) in Run(cfg, Start(now), run).completed
    ensures CallCount(Run(cfg, Start(now), run).calls, SuccessKey(d)) == 1
  {
    RunIsSafe(cfg, now, run);
    CalledAtMostOnce(cfg, now, run, SuccessKey(d));
    hide Inv, Justified, HandlersInv, CatalogueInv, Run, CallsInv;
    SuccessWordShown(Run(cfg, Start(now), run).tables, cfg.words, d);
  }

  // ----- One outcome for each operation -----

  /** The first recorded outcome, whoever records it, stays: the row never changes again. */
  lemma OutcomeIsFinal(cfg: Config, s: System, run: seq<Event>, key: OperationKey)
    requires ServiceInv(cfg, s) && key in s.tables.operations && s.tables.operations[key].status != Running
    ensures var after := Run(cfg, s, run).tables;
            key in after.operations && after.operations[key] == s.tables.operations[key]
  {
    RunGrows(cfg, s, run);
  }

  lemma ReasonFits(kind: OperationKind, success: bool)
    ensures LegalReason(ResultReason(kind, success))
  {
  }

  lemma RecordVerdict(t: Tables, words: set<DecisionWord>, key: OperationKey, success: bool, actor: string,
                      reason: string, now: Time)
    requires Inv(t, words) && LegalActor(actor) && LegalReason(reason)
    ensures var after := After(t, Record(t, words, key, success, actor, reason, now));
            if IsRunning(t, key) && key.request in t.requests && ResultWord(key.kind, success) in words
               && !Blocked(t, key.request, ResultStatus(key.kind, success))
            then Finishes(t, after, key, success, actor, reason, reason, now)
            else after == t
  {
    hide Inv, Advances, Twin, Finishes;
    RecordCommits(t, words, key, success, actor, reason, now);
  }

  lemma RecordShape(cfg: Config, s: System, handler: nat)
    requires handler in s.handlers && s.handlers[handler].phase.Returned?
    ensures var h := s.handlers[handler];
            Next(cfg, s, RecordResult(handler)).tables
            == After(s.tables, Record(s.tables, cfg.words, h.key, h.phase.success, h.operator,
                                      ResultReason(h.key.kind, h.phase.success), s.now))
  {
    hide Record, ResultReason;
  }

  /**
   A handler records its result. After a reap nothing changes. Before one, the result counts whatever the
   clock says: only the words and a request of the same person in the target status can stop it.
   */
  lemma ResultAgainstReaper(cfg: Config, s: System, handler: nat)
    requires ServiceInv(cfg, s) && handler in s.handlers && s.handlers[handler].phase.Returned?
    ensures var h, t, after := s.handlers[handler], s.tables, Next(cfg, s, RecordResult(handler)).tables;
            if IsRunning(t, h.key) && h.key.request in t.requests
               && ResultWord(h.key.kind, h.phase.success) in cfg.words
               && !Blocked(t, h.key.request, ResultStatus(h.key.kind, h.phase.success))
            then Finishes(t, after, h.key, h.phase.success, h.operator, ResultReason(h.key.kind, h.phase.success),
                          ResultReason(h.key.kind, h.phase.success), s.now)
            else after == t
  {
    var h := s.handlers[handler];
    assert HandlerInv(s, h);
    assert Inv(s.tables, cfg.words);
    ReasonFits(h.key.kind, h.phase.success);
    RecordShape(cfg, s, handler);
    hide ServiceInv, ResultReason, Inv, HandlerInv, Record, Finishes, Blocked, Next;
    RecordVerdict(s.tables, cfg.words, h.key, h.phase.success, h.operator,
                  ResultReason(h.key.kind, h.phase.success), s.now);
  }
}
