/**
 The whole way of an approved role: the configuration maps it to a group, validation admits it to a request,
 the table keeps it, and the activation assigns it.
 */
module ApprovedAssignment {
  import opened Wrappers
  import ConfigRoles
  import FanOut
  import FanOutTheorems
  import OnboardingInvariant
  import OnboardingSafety
  import OnboardingSchema
  import OnboardingService
  import SubmitInputs

  lemma RequestRolesAreMapped(cfg: OnboardingService.Config, allowed: string, mapping: string,
      decode: ConfigRoles.Decoder, c: ConfigRoles.Catalogue, s: OnboardingService.System,
      id: OnboardingSchema.RequestId)
    requires ConfigRoles.Loaded(allowed, mapping, decode, c) && cfg.allowedRoles == c.allowedRoles
    requires OnboardingSafety.CatalogueInv(cfg, s) && id in s.tables.requests
    ensures forall role <- s.tables.requests[id].identity.roles :: FanOut.Mapped(c.groups, role)
    ensures SubmitInputs.Distinct(s.tables.requests[id].identity.roles)
  {
    hide FanOut.Mapped, ConfigRoles.Loaded, SubmitInputs.Distinct;
    ConfigRoles.CatalogueIsMapped(allowed, mapping, decode, c);
  }

  /**
   For every request of every run of the service, under every schedule of the assignment: no role lacks a
   group, every role of the request has exactly one position and so at most one PUT, and the call returns nil
   exactly if each of those PUTs was answered 204.
   */
  lemma ApprovedRolesAreAssigned(cfg: OnboardingService.Config, allowed: string, mapping: string,
      decode: ConfigRoles.Decoder, c: ConfigRoles.Catalogue,
      now: OnboardingSchema.Time, run: seq<OnboardingService.Event>, id: OnboardingSchema.RequestId,
      schedule: seq<FanOut.Event>)
    requires ConfigRoles.Loaded(allowed, mapping, decode, c) && cfg.allowedRoles == c.allowedRoles
    requires id in OnboardingService.Run(cfg, OnboardingService.Start(now), run).tables.requests
    ensures var t := OnboardingService.Run(cfg, OnboardingService.Start(now), run).tables;
            var roles := t.requests[id].identity.roles;
            var s := FanOut.Run(roles, c.groups, schedule);
            && SubmitInputs.Distinct(roles)
            && FanOut.DistinctPositions(s.puts)
            && (s.verdict.Some? ==> s.verdict.value.Joined?)
            && (s.verdict.Some? ==>
                  (s.verdict == Some(FanOut.Joined([])) <==>
                   forall i :: 0 <= i < |roles| ==>
                     i in s.puts && i in s.answers && s.answers[i] == FanOut.NO_CONTENT))
  {
    OnboardingSafety.RunIsSafe(cfg, now, run);
    var s := OnboardingService.Run(cfg, OnboardingService.Start(now), run);
    assert OnboardingSafety.CatalogueInv(cfg, s);
    hide OnboardingService.Run, OnboardingSafety.ServiceInv, OnboardingSafety.CatalogueInv;
    hide ConfigRoles.Loaded, FanOut.Mapped, FanOut.Run, FanOut.DistinctPositions, SubmitInputs.Distinct;
    RequestRolesAreMapped(cfg, allowed, mapping, decode, c, s, id);
    var roles := s.tables.requests[id].identity.roles;
    FanOutTheorems.MappedNeverStops(roles, c.groups, schedule);
    FanOutTheorems.AtMostFourPuts(roles, c.groups, schedule);
    if FanOut.Run(roles, c.groups, schedule).verdict.Some? {
      FanOutTheorems.NilMeansAllAssigned(roles, c.groups, schedule);
    }
  }

  // ----- An active request has all its groups -----

  type Schedules = OnboardingSchema.RequestId -> seq<FanOut.Event>

  /** The event is the end of the group assignment of this request, reported as a success. */
  predicate EndsAssignment(s: OnboardingService.System, e: OnboardingService.Event, id: OnboardingSchema.RequestId) {
    && e.EndCall? && e.success && e.handler in s.handlers && s.handlers[e.handler].phase.Calling?
    && s.handlers[e.handler].key == OnboardingSchema.OperationKey(id, OnboardingSchema.Activate)
  }

  /** The call under this schedule returned nil. */
  predicate ReturnedNil(roles: seq<string>, groups: map<string, string>, schedule: seq<FanOut.Event>) {
    FanOut.Run(roles, groups, schedule).verdict == Some(FanOut.Joined([]))
  }

  /** The activation handlers of this run report a success only if their group assignment returned nil. */
  ghost predicate Honest(cfg: OnboardingService.Config, groups: map<string, string>, now: OnboardingSchema.Time,
      run: seq<OnboardingService.Event>, schedules: Schedules)
  {
    forall i, id | 0 <= i < |run| && EndsAssignment(Before(cfg, now, run, i), run[i], id) ::
      id in Before(cfg, now, run, i).tables.requests
      ==> ReturnedNil(Before(cfg, now, run, i).tables.requests[id].identity.roles, groups, schedules(id))
  }

  function Before(cfg: OnboardingService.Config, now: OnboardingSchema.Time, run: seq<OnboardingService.Event>, i: nat)
    : OnboardingService.System
    requires i <= |run|
  {
    OnboardingService.Run(cfg, OnboardingService.Start(now), run[..i])
  }

  /** A completed group assignment ended somewhere in the run. */
  lemma {:induction false} CompletedSomewhere(cfg: OnboardingService.Config, now: OnboardingSchema.Time,
      run: seq<OnboardingService.Event>, id: OnboardingSchema.RequestId) returns (i: nat)
    requires OnboardingSchema.OperationKey(id, OnboardingSchema.Activate)
             in OnboardingService.Run(cfg, OnboardingService.Start(now), run).completed
    ensures i < |run| && EndsAssignment(Before(cfg, now, run, i), run[i], id)
  {
    hide OnboardingService.TablesAfter, OnboardingService.HandlersAfter;
    var n := |run| - 1;
    assert run != [];
    if EndsAssignment(Before(cfg, now, run, n), run[n], id) {
      i := n;
    } else {
      i := CompletedSomewhere(cfg, now, run[..n], id);
      assert run[..n][..i] == run[..i];
    }
  }

  lemma ActiveIsCompleted(cfg: OnboardingService.Config, s: OnboardingService.System, id: OnboardingSchema.RequestId)
    requires OnboardingSafety.ServiceInv(cfg, s)
    requires id in s.tables.requests && s.tables.requests[id].status == OnboardingSchema.Active
    ensures OnboardingSchema.OperationKey(id, OnboardingSchema.Activate) in s.completed
  {
    assert OnboardingInvariant.Coupled(s.tables, id);
    var key := OnboardingSchema.OperationKey(id, OnboardingSchema.Activate);
    assert OnboardingInvariant.OperationState(s.tables, key) == Some(OnboardingSchema.Succeeded);
  }

  lemma HolderHasRequest(cfg: OnboardingService.Config, s: OnboardingService.System, h: nat)
    requires OnboardingSafety.ServiceInv(cfg, s) && h in s.handlers
    ensures s.handlers[h].key.request in s.tables.requests
  {
    hide OnboardingInvariant.Coupled, OnboardingInvariant.Separated, OnboardingSafety.CallsInv;
    hide OnboardingSafety.EvidenceInv, OnboardingSafety.CatalogueInv, OnboardingSchema.UniquePersonStatus;
    assert OnboardingSafety.HandlerInv(s, s.handlers[h]);
  }

  /** What a handler in its call knows of its request, now and at any later time. */
  lemma SameRolesLater(cfg: OnboardingService.Config, now: OnboardingSchema.Time, run: seq<OnboardingService.Event>,
      i: nat, id: OnboardingSchema.RequestId)
    requires i < |run| && EndsAssignment(Before(cfg, now, run, i), run[i], id)
    ensures var early, late := Before(cfg, now, run, i), Before(cfg, now, run, |run|);
            && id in early.tables.requests && id in late.tables.requests
            && late.tables.requests[id].identity == early.tables.requests[id].identity
  {
    hide OnboardingService.Run, OnboardingSafety.ServiceInv;
    var start := OnboardingService.Start(now);
    OnboardingSafety.RunIsSafe(cfg, now, run[..i]);
    var early := Before(cfg, now, run, i);
    HolderHasRequest(cfg, early, run[i].handler);
    OnboardingSafety.RunGrows(cfg, early, run[i..]);
    OnboardingService.RunConcat(cfg, start, run[..i], run[i..]);
    assert run[..i] + run[i..] == run[..|run|];
  }

  /**
   End to end: a request is `active` only if the PUT of every role it asks for was sent and answered 204.
   Nothing is asked of the configuration, only that a handler does not report a success that it did not see.
   */
  lemma ActiveHasAllGroups(cfg: OnboardingService.Config, groups: map<string, string>, now: OnboardingSchema.Time,
      run: seq<OnboardingService.Event>, schedules: Schedules, id: OnboardingSchema.RequestId)
    requires Honest(cfg, groups, now, run, schedules)
    requires id in OnboardingService.Run(cfg, OnboardingService.Start(now), run).tables.requests
    requires OnboardingService.Run(cfg, OnboardingService.Start(now), run).tables.requests[id].status
             == OnboardingSchema.Active
    ensures var t := OnboardingService.Run(cfg, OnboardingService.Start(now), run).tables;
            var roles := t.requests[id].identity.roles;
            var s := FanOut.Run(roles, groups, schedules(id));
            forall i :: 0 <= i < |roles| ==>
              i in s.puts && i in s.answers && s.answers[i] == FanOut.NO_CONTENT && FanOut.Mapped(groups, roles[i])
  {
    hide OnboardingService.Run, OnboardingSafety.ServiceInv, FanOut.Run, FanOut.Mapped, EndsAssignment;
    OnboardingSafety.RunIsSafe(cfg, now, run);
    assert run[..|run|] == run;
    var s := Before(cfg, now, run, |run|);
    ActiveIsCompleted(cfg, s, id);
    var i := CompletedSomewhere(cfg, now, run, id);
    SameRolesLater(cfg, now, run, i, id);
    var roles := s.tables.requests[id].identity.roles;
    assert ReturnedNil(roles, groups, schedules(id));
    FanOutTheorems.NilMeansAllAssigned(roles, groups, schedules(id));
    FanOutTheorems.AtMostFourPuts(roles, groups, schedules(id));
  }
}
