/** The validators of a submission against the CHECKs of its table. */
module OnboardingAdmission {
  import opened Wrappers
  import Text
  import opened OnboardingSchema
  import opened OnboardingTransactions
  import opened OnboardingInvariant
  import opened OnboardingCommits
  import opened OnboardingLifecycle
  import opened OnboardingService
  import opened OnboardingSafety
  import opened SubmitInputs

  /** What the columns ask for and the validators do not check. */
  predicate FitsColumns(input: SubmitInput) {
    |input.organization| <= 255 && 3 <= |input.email|
  }

  /**
   What the handler lets through fits the columns, except for two lengths that no validator looks at: the
   configured organization, and an address of less than three characters if the mail parser yields one.
   */
  lemma AcceptedFitsColumns(cfg: Config, input: SubmitInput, requester: Principal)
    requires Authenticated(requester)
    requires Acceptable(Normalized(input), cfg.organization, cfg.allowedRoles, cfg.parse)
    ensures LegalIdentity(IdentityOf(Normalized(input), requester)) <==> FitsColumns(Normalized(input))
  {
    hide Text.TrimSpace, Text.ByteLen;
    Text.TrimSpaceIdempotent(input.organization);
    Text.TrimSpaceIdempotent(input.firstName);
    Text.TrimSpaceIdempotent(input.lastName);
  }

  /** What a submission must be like, in terms of the body as it was sent. */
  ghost predicate Welcome(cfg: Config, requester: Principal, input: SubmitInput) {
    // The caller.
    && Text.TrimSpace(requester.subject) == requester.subject && 1 <= Text.ByteLen(requester.subject) <= 512
    // The organization and the address.
    && Text.TrimSpace(input.organization) == cfg.organization && 1 <= |cfg.organization| <= 255
    && cfg.parse(Text.TrimSpace(input.email)) == Some(Text.TrimSpace(input.email))
    && 3 <= |Text.TrimSpace(input.email)| && Text.ByteLen(Text.TrimSpace(input.email)) <= 320
    // The names.
    && 1 <= Text.ByteLen(Text.TrimSpace(input.firstName)) <= 255
    && 1 <= Text.ByteLen(Text.TrimSpace(input.lastName)) <= 255
    // The roles.
    && input.roles != []
    && (forall i :: 0 <= i < |input.roles| ==> Text.TrimSpace(input.roles[i]) in cfg.allowedRoles)
    && (forall i, j :: 0 <= i < j < |input.roles| ==>
          Text.TrimSpace(input.roles[i]) != Text.TrimSpace(input.roles[j]))
  }

  /** No submitted request has the same organization and address. */
  ghost predicate FirstOfItsPerson(t: Tables, input: SubmitInput) {
    forall other <- t.requests.Keys ::
      t.requests[other].identity.organization == Text.TrimSpace(input.organization)
      && t.requests[other].identity.email == Text.TrimSpace(input.email)
      ==> t.requests[other].status != Submitted
  }

  lemma WelcomeIsAccepted(cfg: Config, requester: Principal, input: SubmitInput)
    ensures Welcome(cfg, requester, input)
            <==> Authenticated(requester)
                 && Acceptable(Normalized(input), cfg.organization, cfg.allowedRoles, cfg.parse)
                 && FitsColumns(Normalized(input))
  {
    hide Text.TrimSpace, Text.ByteLen;
    Text.TrimSpaceIdempotent(input.organization);
    Text.TrimSpaceIdempotent(input.email);
    Text.TrimSpaceIdempotent(input.firstName);
    Text.TrimSpaceIdempotent(input.lastName);
    TrimmedIdempotent(input.roles);
    RolesSpelledOut(input.roles, cfg.allowedRoles);
  }

  lemma RolesSpelledOut(roles: seq<string>, allowedRoles: set<string>)
    ensures |Trimmed(roles)| == |roles|
    ensures (forall role <- Trimmed(roles) :: role in allowedRoles)
            <==> forall i :: 0 <= i < |roles| ==> Text.TrimSpace(roles[i]) in allowedRoles
    ensures Distinct(Trimmed(roles))
            <==> forall i, j :: 0 <= i < j < |roles| ==> Text.TrimSpace(roles[i]) != Text.TrimSpace(roles[j])
  {
    hide Text.TrimSpace;
    assert forall i :: 0 <= i < |roles| ==> Trimmed(roles)[i] == Text.TrimSpace(roles[i]);
    if forall role <- Trimmed(roles) :: role in allowedRoles {
      forall i | 0 <= i < |roles|
        ensures Text.TrimSpace(roles[i]) in allowedRoles
      {
        assert Trimmed(roles)[i] in Trimmed(roles);
      }
    }
  }

  /** A submission is stored iff the body and its sender are welcome and it is the first submitted one of its person. */
  lemma SubmissionCommitsIff(cfg: Config, s: System, id: RequestId, requester: Principal, input: SubmitInput)
    requires ServiceInv(cfg, s)
    ensures Committed(cfg, s, SubmitRequest(id, requester, input))
            <==> Welcome(cfg, requester, input) && id !in s.tables.requests && FirstOfItsPerson(s.tables, input)
  {
    hide CallsInv, HandlersInv, EvidenceInv, CatalogueInv, Inv, Create, Welcome;
    hide Acceptable, Authenticated, LegalIdentity, FitsColumns, Text.TrimSpace;
    WelcomeIsAccepted(cfg, requester, input);
    CreateCommits(s.tables, cfg.words, id, IdentityOf(Normalized(input), requester), s.now);
    if Authenticated(requester) && Acceptable(Normalized(input), cfg.organization, cfg.allowedRoles, cfg.parse) {
      AcceptedFitsColumns(cfg, input, requester);
    }
  }

  /** The row that a submission leaves: each column from its own field. */
  ghost predicate StoredAs(identity: Identity, requester: Principal, input: SubmitInput) {
    && identity.organization == Text.TrimSpace(input.organization)
    && identity.email == Text.TrimSpace(input.email)
    && identity.firstName == Text.TrimSpace(input.firstName)
    && identity.lastName == Text.TrimSpace(input.lastName)
    && |identity.roles| == |input.roles|
    && (forall i :: 0 <= i < |input.roles| ==> identity.roles[i] == Text.TrimSpace(input.roles[i]))
    && identity.requester == requester.subject
  }

  /** A committed submission adds one row, with every column as it was sent, and changes nothing else. */
  lemma SubmissionIsStored(cfg: Config, s: System, id: RequestId, requester: Principal, input: SubmitInput)
    requires ServiceInv(cfg, s) && Committed(cfg, s, SubmitRequest(id, requester, input))
    ensures var t, after := s.tables, Next(cfg, s, SubmitRequest(id, requester, input)).tables;
            && id !in t.requests && after.requests.Keys == t.requests.Keys + {id}
            && StoredAs(after.requests[id].identity, requester, input)
            && after.requests[id].status == Submitted && after.requests[id].updatedAt == s.now
            && (forall other <- t.requests.Keys :: after.requests[other] == t.requests[other])
            && after.operations == t.operations && after.decisions == t.decisions
  {
    hide CallsInv, HandlersInv, EvidenceInv, CatalogueInv, Inv, Create;
    hide Acceptable, Authenticated, LegalIdentity, Text.TrimSpace;
    CreateCommits(s.tables, cfg.words, id, IdentityOf(Normalized(input), requester), s.now);
  }

  /** A request can only come from a submission. */
  lemma NewlySubmittedBy(cfg: Config, s: System, e: Event, id: RequestId)
    requires ServiceInv(cfg, s) && id !in s.tables.requests && id in Next(cfg, s, e).tables.requests
    ensures e.SubmitRequest? && e.id == id && Committed(cfg, s, e)
  {
    hide CallsInv, HandlersInv, EvidenceInv, CatalogueInv, Inv, Transaction, StoredAs;
    NewlySubmitted(cfg, s, e, id);
    assert Committed(cfg, s, e);
    SubmissionIsStored(cfg, s, e.id, e.requester, e.input);
  }

  /** In every run, every stored request says what a submission of this run said, in every column and for good. */
  lemma {:induction false} RequestsAreAsSubmitted(cfg: Config, now: Time, run: seq<Event>, id: RequestId)
    returns (i: nat)
    requires id in Run(cfg, Start(now), run).tables.requests
    ensures i < |run| && run[i].SubmitRequest? && run[i].id == id
    ensures Welcome(cfg, run[i].requester, run[i].input)
    ensures StoredAs(Run(cfg, Start(now), run).tables.requests[id].identity, run[i].requester, run[i].input)
  {
    hide ServiceInv, Next, Committed, Welcome, StoredAs, FirstOfItsPerson;
    assert run != [];
    var n := |run| - 1;
    var before := Run(cfg, Start(now), run[..n]);
    RunIsSafe(cfg, now, run[..n]);
    if id in before.tables.requests {
      i := RequestsAreAsSubmitted(cfg, now, run[..n], id);
      IdentityStays(cfg, before, run[n], id);
    } else {
      i := n;
      NewlySubmittedBy(cfg, before, run[n], id);
      SubmissionCommitsIff(cfg, before, id, run[n].requester, run[n].input);
      SubmissionIsStored(cfg, before, id, run[n].requester, run[n].input);
    }
  }

  lemma IdentityStays(cfg: Config, s: System, e: Event, id: RequestId)
    requires ServiceInv(cfg, s) && id in s.tables.requests
    ensures var after := Next(cfg, s, e).tables;
            id in after.requests && after.requests[id].identity == s.tables.requests[id].identity
  {
    hide CallsInv, HandlersInv, EvidenceInv, CatalogueInv, Inv, Next;
    TablesKeep(cfg, s, e);
  }

  /** A service configured for an organization of more than 255 characters never stores a request. */
  lemma LongOrganizationRefusesAll(cfg: Config, now: Time, run: seq<Event>)
    requires |cfg.organization| > 255
    ensures Run(cfg, Start(now), run).tables == EMPTY
  {
    RunIsSafe(cfg, now, run);
    var t := Run(cfg, Start(now), run).tables;
    hide Run, CallsInv, HandlersInv, EvidenceInv, Coupled, Separated, UniquePersonStatus, OneOutcome;
    assert t.decisions != [] ==> t.decisions[0] in t.decisions && t.decisions[0].request in t.requests;
    assert forall id <- t.requests.Keys :: LegalIdentity(t.requests[id].identity);
    assert t.requests == map[] && t.operations == map[];
  }
}
