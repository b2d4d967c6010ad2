# Verification of the admin service

A Dafny model of the onboarding and privacy service in `internal/admin`, and of the PostgreSQL migrations
that guard its tables. The model keeps the branches, constants, texts and error cases of the code; what it
proves holds for every input, every interleaving of handlers and every run. `dafny verify dfyconfig.toml`
checks it.

## What is modelled

**The onboarding store** (`OnboardingSchema`, `OnboardingTransactions`, `OnboardingStore`). Three tables:
requests, external operations, decisions. Every CHECK, UNIQUE constraint, partial unique index, foreign key
and immutability trigger that a write can meet is a guard of a statement, and a refused statement rolls its
transaction back. `OnboardingStore.Store` updates the tables in place, statement by statement; each of its
transactions is proved equal to a function of the tables, and the lemmas are about these functions. The
allowed decision words are a parameter of everything.

**The coupling** (`OnboardingInvariant`, `OnboardingCommits`, `Reaper`). For a request in a given status the
operation rows and the words of its log are fully determined. Each transaction commits exactly under a stated
condition on the tables before it, keeps the coupling, and moves each request it touches along one edge of
the lifecycle automaton. For the reaper that condition speaks of the whole batch at once, and the result does
not depend on the order in which the query returns the rows.

**The running service** (`OnboardingService`, `OnboardingSafety`, `OnboardingTheorems`, `OnboardingLifecycle`,
`OnboardingLimits`, `OnboardingAdmission`, `OnboardingGate`, `OnboardingDeadEnds`, `OnboardingLease`; and,
constructing runs, `OnboardingSchedules`, `OnboardingProgress`, `OnboardingBound`, `OnboardingWedge`,
`OnboardingLateCall`).
Handlers are threads that claim, call Keycloak and record, each step a separate event. They may crash after any
step, the reaper may run at any time on any selection of expired rows (`FOR UPDATE SKIP LOCKED` without
`ORDER BY`), and a clock moves forward. An event that is not enabled changes nothing, which also stands for a
transaction the database aborts. `OnboardingAdmission` and `OnboardingGate` say in terms of what was sent who may
do what, and which value each column of each row then holds.

**The privacy register** (`PrivacyInputs`, `References`, `PrivacyTransactions`, `PrivacyRuns`, `PrivacyRows`,
`PrivacyProgress`, `PrivacyRegister`). The validators against the regular expressions of the
CHECKs, the versioned workflow with its evidence rows, and its runs.

**The Keycloak client** (`TokenCache`, `TokenTheorems`, `TokenOutcomes`, `FanOut`, `FanOutTheorems`). The token cache
with its single flight in 64-bit arithmetic and real time, and the worker pool of the group assignment.

**Roles** (`SubmitInputs`, `ConfigRoles`, `Lists`, `Roles`, `ApprovedAssignment`) from configuration, token or
proxy header to the group assignment, and the cache of signing keys (`KeyCache`).

## Results about the code

- The code writes the decision word `provisioning_ambiguous` (internal/admin/store.go:166,
  internal/admin/store.go:215); the CHECK has `provision_ambiguous` (db/migrations/0003_external_operations.sql:40).
  With the shipped list, no request ever becomes `provisioning_ambiguous`, and one abandoned provision wedges the
  reaper: every full pass rolls back for good, with all the operations batched with it (`ShippedWordsWedge`).
- Correcting the word does not cure it. If a request of a person is ambiguous, which is final, and another request
  of that person is abandoned in the same kind of operation, the second can never be written either, and every full
  pass rolls back for good (`TwinWedges`, `IntendedWordsWedge`). The exact conditions are `NeverReapedIff` for
  one operation and `WedgedIff` for the reaper as a whole: a missing word, a twin in the ambiguous status, or a
  service actor whose name does not fit its column.
- A collision on `UNIQUE (organization_id, email, status)` is possible whenever one person has several
  requests. Every commit condition names it (`Blocked`). It bounds a person to nine requests, and nine are possible.
- `time.Duration(expiresIn)*time.Second` wraps around for lifetimes above 9 223 372 066 seconds; a token of one
  second more counts as long expired. Below that limit the arithmetic is exact.
- The lease covers the call timeout exactly for calls that begin within 40 seconds of their claim. Nothing in the
  code bounds that delay, and a later call can be marked ambiguous while it is in flight (`CaughtInFlightIff`,
  `ExampleCallIsCaught`).
- No validator looks at the length of the configured organization. Above 255 characters the table refuses every
  submission (`LongOrganizationRefusesAll`).
- A conditional approval of a privacy activity stays as it is after its expiry: no transition leads to `expired`
  (`ConditionalApprovalOutlivesExpiry`, `ExampleOutlivesExpiry`).
- The check of the token cache inside the flight is necessary: without it a second request can start while a fresh
  token is cached (`RecheckIsNeeded`).

## Model

| member | source | states |
|---|---|---|
| OnboardingSchema.UpdateRequestExact | db/migrations/0001_onboarding.sql:5-17 | the row guard of UNIQUE (organization_id, email, status) is exact: an update that keeps the identity passes iff every constraint of all tables holds after it |
| OnboardingSchema.InsertRequestExact | db/migrations/0001_onboarding.sql:5-17 | a fresh request is inserted iff every CHECK and UNIQUE constraint holds after the insert |
| OnboardingSchema.InsertDecisionExact | db/migrations/0003_external_operations.sql:38-40 | a decision row is inserted iff word list, lengths, foreign key and both partial unique indexes hold after the insert |
| OnboardingSchema.UniqueMeans | db/migrations/0001_onboarding.sql:16 | the modelled constraint is the one of the table: no two requests agree in organization, email and status |
| OnboardingSchema.OneOutcomeMeans | db/migrations/0001_onboarding.sql:28-30 | the modelled indexes: at most one approval or rejection, and one activation outcome, for each request |
| OnboardingCommits.NoOutcomeYet | db/migrations/0001_onboarding.sql:28-30 | in coupled tables the one-approval and one-activation indexes never refuse the row that a decision, a result or the reaper writes |
| OnboardingCommits.NoOperationYet | db/migrations/0003_external_operations.sql:16 | a claimable request has no operation row of that kind, so UNIQUE (request_id, operation_kind) never fires |
| OnboardingCommits.CreateCommits | internal/admin/store.go:51-57 | a submission commits iff its columns pass the CHECKs, its id is new and the person has no submitted request; the coupling is kept and nothing else changes |
| OnboardingCommits.DecideCommits | internal/admin/store.go:66-100 | a decision commits iff the request is submitted, maker differs from checker, the word is allowed, the texts fit and no request of the person has the target status; it is one automaton step and keeps the coupling |
| OnboardingCommits.ClaimCommits | internal/admin/store.go:102-153 | a claim commits iff the request is in the claimable status of its kind, the user id fits and no request of the person has the running status; it leases the operation for 60 seconds and writes no decision |
| OnboardingCommits.RecordCommits | internal/admin/store.go:169-196 | a result commits iff its operation is running, its word is allowed, the texts fit and the target status is free, whatever the lease says; the second row-count check never fails |
| OnboardingCommits.RunningCoupling | internal/admin/store.go:175-188 | an operation runs iff its request has the running status of its kind, and no other operation of that request runs |
| OnboardingInvariant.AdvanceKeepsCoupling | internal/admin/store.go:88-93 | one automaton step of one request keeps the whole three-table invariant |
| OnboardingStore.Store.constructor | db/migrations/0001_onboarding.sql:5-26 | empty tables satisfy the invariant |
| OnboardingStore.Store.UpdateRequestRow | db/migrations/0001_onboarding.sql:35-52 | the trigger refuses a change of identity, UNIQUE refuses a twin, otherwise the row is replaced with a new update time |
| OnboardingStore.Store.InsertOperationRow | db/migrations/0003_external_operations.sql:4-17 | an operation row is refused by CHECK, UNIQUE or the foreign key, or added |
| OnboardingStore.Store.UpdateOperationRow | db/migrations/0003_external_operations.sql:22-36 | the identity trigger and the CHECKs of an operation update |
| OnboardingStore.Store.InsertDecisionRow | db/migrations/0001_onboarding.sql:19-30 | a decision row is refused by CHECK, an index or the foreign key, or appended |
| OnboardingStore.Store.Create | internal/admin/store.go:51-57 | in place as specified, and from a coupled store successful exactly when allowed |
| OnboardingStore.Store.Decide | internal/admin/store.go:66-100 | in place as specified, rolled back on any refusal, and from a coupled store successful exactly when allowed |
| OnboardingStore.Store.Claim | internal/admin/store.go:102-153 | request and operation row change together or not at all, and from a coupled store exactly when allowed |
| OnboardingStore.Store.RecordProvisioningResult | internal/admin/store.go:162-167 | success becomes invited, failure provisioning_ambiguous, all three tables or none |
| OnboardingStore.Store.RecordActivationResult | internal/admin/store.go:155-160 | success becomes active, failure activation_ambiguous, all three tables or none |
| OnboardingStore.Store.RecordExternalResult | internal/admin/store.go:169-196 | the three writes of a result with both row-count checks and the rollback |
| OnboardingStore.Store.ReapRowInPlace | internal/admin/store.go:214-228 | the three writes of the reaper's loop body, with the loose status guard |
| OnboardingStore.Store.ReapRowsInPlace | internal/admin/store.go:209-229 | the reaper's loop |
| OnboardingStore.Store.ReapExpiredExternalOperations | internal/admin/store.go:198-237 | from a coupled store the pass commits iff the whole batch is reapable, then every row is reaped as in the closed form, otherwise nothing changes |
| Reaper.ReapRowCommits | internal/admin/store.go:214-228 | one row commits iff its word is allowed and its person has no request in the target status; the guard on both running statuses always hits the one row and never mislabels the kind |
| Reaper.OtherRowUntouched | db/migrations/0001_onboarding.sql:16 | reaping one row neither enables nor blocks another row of the batch, even for requests of the same person |
| Reaper.ReapCommits | internal/admin/store.go:198-237 | a batch of running operations commits iff the actor fits and every row is reapable in the tables before the pass; the result is the row-by-row closed form and keeps the coupling |
| Reaper.ReapOrderIrrelevant | internal/admin/store.go:204-229 | every permutation of a batch gives the same verdict, the same request and operation tables and the same log of every request |
| Reaper.LogOfReaped | internal/admin/store.go:226-228 | a committed pass adds exactly one row to the log of each of its requests and none to any other |
| OnboardingSafety.StepKeeps | internal/admin/http.go:238-303 | every step of a handler, a crash, a reaper pass and a tick keep the coupling and the facts about calls, handlers, evidence and stored roles |
| OnboardingSafety.RunIsSafe | internal/admin/http.go:238-303 | the invariant holds after every run of the service from empty tables |
| OnboardingSafety.RunGrows | db/migrations/0001_onboarding.sql:35-52 | over any run no request or operation disappears, identities and recorded outcomes stay and the log is only extended |
| OnboardingSafety.NewlySucceeded | internal/admin/http.go:260-303 | an operation becomes succeeded only when a handler records a call that returned success |
| OnboardingTheorems.CouplingInEveryRun | internal/admin/store.go:102-153 | in every run a provision is running iff its request is provisioning, an activation iff it is activating, and never both |
| OnboardingTheorems.LogDeterminesStatus | integration/run-local.sh:203-205 | in every run the status is the replay of the log and of what is running, and the log is a prefix of one of the four complete logs |
| OnboardingTheorems.CalledAtMostOnce | internal/admin/http.go:260-303 | in every run with any number of handlers, crashes and reaps each request sees at most one InviteUser and at most one AssignApprovedRoleGroups call, and an operation is recorded as succeeded only if its call was made |
| OnboardingTheorems.GroupCallFollowsApproval | internal/admin/model.go:91-99 | before a group assignment began, an approval by somebody other than the requester and then an invitation were on record |
| OnboardingTheorems.InvitationFollowsApproval | internal/admin/model.go:91-99 | before an invitation was sent, an approval by somebody other than the requester was on record |
| OnboardingTheorems.SuccessWordsHaveEvidence | internal/admin/http.go:266-270 | `invited` or `active` is on record only if exactly one such call was made and it returned success |
| OnboardingTheorems.OutcomeIsFinal | internal/admin/store.go:175-181 | the first recorded outcome of an operation, by a handler or by the reaper, never changes again |
| OnboardingTheorems.ResultAgainstReaper | internal/admin/store.go:175-188 | a result after a reap changes no table; before a reap it is accepted however late, unless the word or the target status refuses it |
| OnboardingLifecycle.EventRefines | internal/admin/model.go:13-25 | forward simulation: a committed transaction is one automaton step of each request it touches, with the log growing by the words of that step, and a stutter of every other request; every abort is a stutter |
| OnboardingLifecycle.TransitionsBounded | internal/admin/store.go:51-237 | from any safe state the transitions of a request in any run are bounded by its rank |
| OnboardingLifecycle.SixTransitionsAtMost | internal/admin/store.go:51-237 | in any run a request is submitted once and changes its status at most five times |
| OnboardingLimits.ShippedWordsMissOne | db/migrations/0003_external_operations.sql:40 | of the words the code writes, exactly the one of a failed or reaped provision is missing from the shipped CHECK |
| OnboardingLimits.AmbiguousUnreachable | internal/admin/store.go:166 | without the word no run has a provisioning_ambiguous request |
| OnboardingDeadEnds.FinishedStays | internal/admin/store.go:51-237 | a rejected, active or ambiguous request keeps its status over every run |
| OnboardingDeadEnds.BlockedStays | db/migrations/0001_onboarding.sql:16 | a request that another one of its person keeps out of a final status is kept out for good |
| OnboardingDeadEnds.PassIsVain | internal/admin/store.go:204-229 | for any word list, a pass that selects one row it cannot write changes nothing at all, for none of its rows |
| OnboardingDeadEnds.NeverReapedIff | internal/admin/store.go:214-228 | exact: a running operation is never taken by the reaper, in any continuation, iff its word is not allowed, another request of the person has the ambiguous status, or the reaper's own name does not fit its column |
| OnboardingDeadEnds.AmbiguousIsReapable | internal/admin/store.go:214-228 | an operation that is ambiguous is one whose row can be written; no other outcome but success exists beside it |
| OnboardingDeadEnds.StuckUntilSuccess | internal/admin/store.go:162-167 | a running operation whose row cannot be written is, after any continuation, unchanged or recorded as succeeded, the latter only if a handler could still bring a success |
| OnboardingDeadEnds.StuckForGood | internal/admin/store.go:169-196 | once its handler is gone or has seen the call fail, such an operation is never changed by any run |
| OnboardingDeadEnds.NeverChangesIff | internal/admin/store.go:169-237 | exact: an operation whose handler is gone or has seen the call fail never changes iff nobody can write its failure |
| OnboardingDeadEnds.ReaperWedged | internal/admin/store.go:198-237 | one expired operation of that kind makes every full pass of every continuation a no-op, for all operations |
| OnboardingDeadEnds.FullPassTakes | internal/admin/store.go:198-237 | a pass that finds all expired operations and can write every row makes each of them ambiguous |
| OnboardingDeadEnds.WedgedIff | internal/admin/store.go:198-237 | exact: when nobody else can end the expired operations, the reaper is wedged for good iff one of their rows cannot be written; otherwise a full pass exists and every full pass makes all of them ambiguous |
| OnboardingWedge.MissingWordWedges | db/migrations/0003_external_operations.sql:40 | without the word, one approved and abandoned provision wedges the reaper |
| OnboardingWedge.TwinWedges | db/migrations/0001_onboarding.sql:16 | with every word allowed, two requests of one person wedge it, for either kind of operation: the first ambiguous, the second abandoned in the same operation |
| OnboardingWedge.ShippedWordsWedge | db/migrations/0003_external_operations.sql:40 | a concrete service with the shipped words and a run from empty tables to a wedged reaper |
| OnboardingWedge.IntendedWordsWedge | internal/admin/store.go:214-219 | a concrete service with the word corrected and runs to a wedged reaper, by a provision and by an activation |
| OnboardingLimits.PersonBound | db/migrations/0001_onboarding.sql:16 | in every run one organization and email pair has at most nine requests, eight without the word, and at most one active |
| OnboardingLimits.LeaseCoversPromptCalls | internal/admin/http.go:290-292 | a call in flight that began within 40 seconds of its claim is not expired; the last moment of a call is beyond the lease iff it began later |
| OnboardingLimits.PromptCallsNotReaped | internal/admin/store.go:204-222 | no reaper pass touches the operation of a call in flight that began within 40 seconds of its claim |
| OnboardingLease.LateCallCaught | internal/admin/http.go:260-262 | a later call can be marked ambiguous while it is still in flight: a run that does it |
| OnboardingLease.CaughtInFlightIff | internal/admin/http.go:260-262 | exact, over all continuations: a call in flight can be marked ambiguous iff it began more than 40 seconds after its claim and its row can be written |
| OnboardingLateCall.LateCallReachable | internal/admin/http.go:285-292 | a late call is real: a run from empty tables to one, and on to the moment when its operation is ambiguous while it is still in flight |
| OnboardingLateCall.ExampleCallIsCaught | internal/admin/http.go:285-292 | the same in a concrete service with the word corrected |
| OnboardingAdmission.AcceptedFitsColumns | db/migrations/0001_onboarding.sql:7-12 | an authenticated, accepted and normalised submission satisfies every column CHECK iff the configured organization has at most 255 characters and the address at least 3 |
| OnboardingAdmission.SubmissionCommitsIff | internal/admin/http.go:58-81 | exact, from the handler to the table and in terms of the body as it was sent: stored iff the subject is trimmed and fits, organization, address and names pass trimmed, the trimmed roles are distinct members of the catalogue, the id is new and the person has no submitted request |
| OnboardingAdmission.SubmissionIsStored | internal/admin/store.go:51-57 | a committed submission adds one row whose organization, email, first name, last name and roles are the trimmed ones of the body, each from its own field, with the subject of the sender; nothing else changes |
| OnboardingAdmission.RequestsAreAsSubmitted | internal/admin/http.go:58-81 | in every run every stored request says, column by column, what an acceptable submission of that run said |
| OnboardingAdmission.LongOrganizationRefusesAll | internal/admin/model.go:62-64 | a service configured for an organization of more than 255 characters never stores anything |
| OnboardingGate.RoleIsRequired | internal/admin/http.go:327-336 | without the approver role a decision, a provision or an activation changes nothing at all: tables, handlers and calls stay |
| OnboardingGate.DecisionCommitsIff | internal/admin/http.go:83-115 | exact, from the route to the tables: a decision commits iff its author holds the approver role and is not the requester, the request is submitted, the choice is `approve` or `reject` with its word allowed, the trimmed reason fits and nobody is in the way |
| OnboardingGate.DecisionIsStored | internal/admin/store.go:88-99 | a committed decision sets one status and appends one row with its word, its author and its trimmed reason |
| OnboardingGate.DecisionRefusals | internal/admin/model.go:91-99 | which refusal an approver meets: no such request, wrong status, missing subject, or maker/checker, and the last one iff requester and approver are the same |
| OnboardingGate.ClaimCommitsIff | internal/admin/http.go:238-285 | exact: a provision or an activation is claimed iff its operator holds the approver role, the status is the claimable one, a user of at most 512 bytes is named for an activation, and nobody is in the way |
| OnboardingGate.ClaimIsStored | internal/admin/store.go:102-153 | a committed claim sets the running status, leases one operation for 60 seconds with the trimmed user, and starts the handler of this operator |
| OnboardingGate.ResultCommitsIff | internal/admin/store.go:169-196 | exact: a result is recorded iff its operation still runs, its word is allowed and its status is free |
| OnboardingGate.ResultIsStored | internal/admin/http.go:264-303 | a recorded result writes, in all three tables, the outcome of the call, the text of that outcome and the operator who claimed |
| OnboardingGate.ResultRefusals | internal/admin/store.go:175-188 | a result is refused as not running iff its operation has an outcome; a moved status never refuses it |
| OnboardingGate.PassCommitsIff | internal/admin/store.go:198-237 | exact, in plain terms: a pass commits iff each of its operations is running with its lease over, has its word allowed and its ambiguous status free, none is there twice, and the actor fits |
| OnboardingGate.PassIsStored | internal/admin/store.go:209-229 | a committed pass marks each of its operations ambiguous with the lease text and appends one row for each, in order, in the name of the service actor |
| OnboardingGate.OperatorsHeldRole | internal/admin/http.go:327-336 | in every run whoever holds a handler held the approver role at the claim that started it |
| OnboardingGate.LogIsAttributed | internal/admin/http.go:83-115 | in every run every approval and rejection is by somebody who held the approver role at that decision, every recorded result by somebody who held it at the claim, and only ambiguous results otherwise by the service actor |
| OnboardingProgress.OperationPerformed | internal/admin/http.go:274-303 | a handler that claims, calls and records takes a request from its claimable status to the result status, with one call, if no request of the person is in the way |
| OnboardingProgress.OperationAbandoned | internal/admin/http.go:274-303 | a handler that crashes after its claim leaves the request in the running status and makes no call |
| OnboardingProgress.CanReach | internal/admin/store.go:51-196 | from every safe state a new request has a run to every status the code can write, if no request of its person is in the way; all other requests stay as they were, and the new calls are those on the way, by key and in order |
| OnboardingProgress.CanBecomeActive | integration/run-local.sh:200-205 | in particular to `active`, with the log approved, invited, active and one call of each kind, in that order |
| OnboardingBound.BoundIsReached | db/migrations/0001_onboarding.sql:16 | the bound is exact: from every safe state a person without requests has a run to nine at the same time, eight without the word |
| SubmitInputs.Normalize | internal/admin/model.go:48-59 | the slice loop yields every field and every role trimmed |
| SubmitInputs.Validate | internal/admin/model.go:61-89 | no error iff organization, address and names are acceptable and the trimmed roles are distinct members of the catalogue; otherwise the first problem in the order of the checks, with the name field or role it is about |
| SubmitInputs.FirstProblemIsUnique | internal/admin/model.go:61-89 | that problem, the offending role included, is determined by the input |
| SubmitInputs.NormalizedRoles | internal/admin/model.go:74-87 | what validation accepted after normalisation is stored as distinct catalogue roles, and normalising twice changes nothing |
| PrivacyInputs.ValidateReferences | internal/admin/model.go:169-180 | the loop accepts iff all values are canonical references and distinct |
| PrivacyInputs.ValidateActivity | internal/admin/model.go:153-190 | accepted iff every field rule holds |
| References.ValidateReference | internal/admin/model.go:251-261 | accepts exactly the canonical references of at most `limit` characters, although it counts bytes |
| References.ReferenceIsPattern | db/migrations/0004_privacy_governance.sql:13-14 | at limit 128 the accepted texts are exactly the language of the CHECK pattern `[a-z][a-z0-9_.-]{0,127}` |
| References.ValidateDigest | internal/admin/model.go:231-241 | accepts exactly `sha256:` and 64 lower-case hexadecimal digits |
| References.DigestIsPattern | db/migrations/0004_privacy_governance.sql:18 | the accepted digests are exactly the language of the CHECK pattern |
| References.ValidateSubject | internal/admin/model.go:263-273 | accepts exactly trimmed texts of 1 to 512 bytes without control characters or spaces |
| PrivacyRegister.Register.CreatePrivacyActivity | internal/admin/privacy.go:11-27 | in place as specified; on a validated body it commits iff the requester is canonical and id and key are free, and keeps the invariant |
| PrivacyRegister.Register.AttestPrivacyActivity | internal/admin/privacy.go:47-67 | in place as specified; on a validated body it commits iff the owner attests a draft at its version, which becomes owner_attested at the next one |
| PrivacyRegister.Register.SubmitPrivacyDPOReview | internal/admin/privacy.go:69-89 | in place as specified; on a validated body it commits iff the owner submits an attested activity at its version, which becomes dpo_review at the next one |
| PrivacyRegister.Register.DecidePrivacyActivity | internal/admin/privacy.go:91-116 | in place as specified; on a validated body it commits iff the activity is in review at that version and the actor is neither requester nor owner |
| PrivacyRegister.Register.TransitionInPlace | internal/admin/privacy.go:118-141 | row update through the version trigger and evidence insert, both or neither |
| PrivacyRuns.AcceptedActivityIsLegal | db/migrations/0004_privacy_governance.sql:11-28 | a validated activity with a canonical requester satisfies every column CHECK at insert, patterns included |
| PrivacyRuns.CreateCommits | internal/admin/privacy.go:11-27 | a validated activity is refused only for its requester, its id or its key, never by a CHECK |
| PrivacyRuns.OwnerStepCommits | internal/admin/privacy.go:47-89 | an owner's step commits iff the activity is in the expected status at the expected version and the actor is its owner |
| PrivacyRuns.DecideCommits | internal/admin/privacy.go:91-116 | a decision commits iff the activity is in review at that version and the actor is neither requester nor owner; no CHECK and no trigger can refuse it then |
| PrivacyRows.SubmissionCommitsIff | internal/admin/http.go:117-139 | exact, in terms of the body as it was sent and the languages of the CHECKs: an activity is registered iff its trimmed fields are legal, the sender is canonical, the id is new and the key is free |
| PrivacyRows.SubmissionIsStored | internal/admin/privacy.go:11-27 | each column of a new activity holds the trimmed value of its own field; it is a draft at version 1 without conditions or expiry |
| PrivacyRows.OwnerCommitsIff | internal/admin/privacy.go:47-89 | exact, for the body as it was sent: an attestation or a submission for review commits iff the body is good and the owner sends it at the expected version of the expected status |
| PrivacyRows.OwnerIsStored | internal/admin/privacy.go:66-88 | what the two steps leave in both tables: the next version, no conditions and no expiry, and one evidence row with actor, trimmed reason and trimmed digest |
| PrivacyRows.DecisionCommitsIff | internal/admin/privacy.go:91-116 | exact, for the body as it was sent: a decision commits iff the body is good, with an expiry within 180 days iff conditional, the activity is in review at that version, and the actor is neither requester nor owner |
| PrivacyRows.DecisionIsStored | internal/admin/privacy.go:110-141 | the conditions are the trimmed reason of a conditional approval and empty otherwise; the evidence row has actor, trimmed reason, trimmed digest and expiry |
| PrivacyRows.OwnerRefusals | internal/admin/privacy.go:47-89 | which refusal an owner step meets: bad subject, no such activity, wrong version, or not the owner |
| PrivacyRows.DecisionRefusals | internal/admin/privacy.go:91-109 | which refusal a decision meets: bad subject, no such activity, wrong version, or maker/checker, and the last one iff the actor is requester or owner |
| PrivacyRuns.VersionsMatchEvidence | db/migrations/0004_privacy_governance.sql:27 | in every run version is 1 plus the evidence rows, which carry 2, 3, ... along the status path; an expiry is stored iff conditionally approved; `expired` never occurs |
| PrivacyRuns.DutiesSeparated | internal/admin/privacy.go:107-109 | in every run attestation and submission are by the owner, and every final decision is by neither requester nor owner |
| PrivacyRuns.DecisionIsFinal | internal/admin/privacy.go:104-106 | a decided activity never changes again |
| PrivacyProgress.CanBeDecided | internal/admin/privacy.go:11-116 | from every reachable register, four well prepared requests expecting versions 1, 2 and 3 take a new activity to its decision, with version 4 and the expiry that was given |
| PrivacyProgress.ConditionalApprovalOutlivesExpiry | internal/admin/privacy.go:104-106 | a conditional approval reached that way, and its expiry, are the same in every continuation, whatever the clock reads |
| PrivacyProgress.ExampleOutlivesExpiry | internal/admin/privacy.go:104-106 | the same for a concrete activity from an empty register |
| PrivacyRuns.CommitTakesVersion | db/migrations/0004_privacy_governance.sql:60-62 | whoever commits expected the current version and leaves the next one |
| PrivacyRuns.OneWinner | internal/admin/privacy.go:60-62 | of all callers that expect one version of one activity at most one commits, in any interleaving |
| TokenCache.LifetimeExact | internal/admin/keycloak.go:191 | in 64 bits the cached lifetime is expires_in less 30 seconds iff expires_in is at most 9223372066, and is never more |
| TokenCache.LongLifetimesWrap | internal/admin/keycloak.go:191 | one second more wraps to a lifetime of less than minus 292 years |
| TokenCache.CheckAfterWrite | internal/admin/keycloak.go:168-192 | a check after a write finds the token exactly until 30 seconds before the end of its announced lifetime, and never longer, whatever the lifetime |
| TokenCache.TokenClient.FirstCheck | internal/admin/keycloak.go:168-174 | the section of an arriving caller, on the two fields in place, is its step of the interleaving: a found token is in its hand, otherwise it goes on to the flight |
| TokenCache.TokenClient.SecondCheck | internal/admin/keycloak.go:178-184 | the section inside the flight: a found token ends the flight, otherwise a fetch begins at this moment |
| TokenCache.TokenClient.WriteToken | internal/admin/keycloak.go:189-193 | the section after the fetch: both fields are written and the new token is in the caller's hand |
| TokenCache.StepKeeps | internal/admin/keycloak.go:167-199 | every critical section of every caller keeps the invariant of flight, cache, grants, fetches and hits |
| TokenCache.RunIsSafe | internal/admin/keycloak.go:167-199 | the invariant holds in every interleaving of any number of callers |
| TokenTheorems.OneRequestInFlight | internal/admin/keycloak.go:162-166 | at most one token request is in flight |
| TokenTheorems.JoinersAgree | internal/admin/keycloak.go:175-198 | all callers that joined one flight got the same outcome |
| TokenTheorems.FetchOnlyWhenDue | internal/admin/keycloak.go:175-184 | a fetch starts only at or after the last grant's write plus expires_in less 30 seconds |
| TokenTheorems.ConsecutiveGrants | internal/admin/keycloak.go:167-199 | consecutive grants of at least E seconds are written at least E - 30 seconds apart |
| TokenTheorems.GrantsSpan | internal/admin/keycloak.go:167-199 | k successive grants of at least E seconds span at least (k - 1)(E - 30) seconds |
| TokenTheorems.TokensHaveLife | internal/admin/keycloak.go:167-199 | every token that any caller is handed, at either check, from the server or by joining, was granted; one from the cache has more than 30 seconds of real life left less the time from mint to write, a new one its whole lifetime less that time; more than 15 seconds, or the lifetime less 15, under the client timeout |
| TokenTheorems.ServedTokensAreGranted | internal/admin/keycloak.go:175-198 | in particular a flight never serves a text that was not granted |
| TokenTheorems.ServedWhileFresh | internal/admin/keycloak.go:162-174 | a new caller is served from the cache iff the moment is before the last grant's write plus expires_in less 30 seconds |
| TokenTheorems.RecheckIsNeeded | internal/admin/keycloak.go:176-184 | without the check inside the flight a nine-event run fetches again at once; with it the same run has the cached token in hand, which is then served (`TokenOutcomes.LateJoinerIsServed`) |
| TokenOutcomes.FinishServesAll | internal/admin/keycloak.go:179-198 | in every interleaving the end of a flight with a token, cached or new, serves it to its caller and to everybody waiting, and moves nobody else |
| TokenOutcomes.RefusalServesAll | internal/admin/keycloak.go:185-198 | in every interleaving a failed request, or a response that is not a usable bearer token, is the error of exactly these callers, and the cache stays |
| TokenOutcomes.FailuresAreRefusals | internal/admin/keycloak.go:185-198 | in every run a caller is served an error only because the request of its own flight failed or was refused |
| TokenOutcomes.JoinLeadsOrWaits | internal/admin/keycloak.go:175 | in every interleaving a caller that missed waits on the flight under way, and leads a new one iff there is none |
| TokenOutcomes.RecheckServesOrFetches | internal/admin/keycloak.go:178-185 | in every interleaving the check inside the flight takes the last granted token iff its renewal moment has not come, and fetches otherwise |
| TokenOutcomes.LateJoinerIsServed | internal/admin/keycloak.go:176-184 | the second caller of the late join is served the cached token |
| FanOut.StepKeeps | internal/admin/keycloak.go:119-151 | every step of the spawning loop and of every worker keeps the pool invariant: at most four workers, each role position spawned once, each slot written by its own worker |
| FanOutTheorems.Pool.SpawnNext | internal/admin/keycloak.go:126-131 | one turn of the loop: an unmapped role ends the call, a full pool blocks it |
| FanOutTheorems.Pool.Receive | internal/admin/keycloak.go:133-144 | an answer, or a failure to build or send the request, moves only its own worker |
| FanOutTheorems.Pool.FinishWorker | internal/admin/keycloak.go:134-147 | a worker writes its own slot of the error slice and no other |
| FanOutTheorems.Pool.Join | internal/admin/keycloak.go:151 | the joined errors are the filled slots in order, which are all of them (`PresentKeepsAll`) |
| FanOutTheorems.PresentKeepsAll | internal/admin/keycloak.go:151 | the joined list has exactly one entry for each filled slot, in the order of the slots |
| FanOutTheorems.AssignApprovedRoleGroups | internal/admin/keycloak.go:111-152 | blank user and missing token end the call before anything is sent; otherwise the in-place pool follows the state machine under every schedule |
| FanOutTheorems.AtMostFourPuts | internal/admin/keycloak.go:126-131 | in every schedule at most four PUTs are in flight, no position is sent twice, and each PUT is for the group that the mapping has for its own role |
| FanOutTheorems.NilMeansAllAssigned | internal/admin/keycloak.go:115-151 | a call that returned, returned nil iff every role had its own PUT and every PUT was answered 204 |
| FanOutTheorems.NoProblemIsLost | internal/admin/keycloak.go:117-151 | a call that joined returns one error for each position that was not answered 204 and for no other, with its role and its answer, in role order |
| FanOutTheorems.ResultIgnoresSchedule | internal/admin/keycloak.go:121-151 | two schedules with the same answers return the same errors in the same order |
| FanOutTheorems.UnmappedStops | internal/admin/keycloak.go:126-129 | the first role without a group, or with a blank one, ends the call with an error naming it, and no role from its position on is ever sent |
| FanOutTheorems.MappedNeverStops | internal/admin/keycloak.go:123-126 | with all roles mapped the early return is never taken |
| FanOutTheorems.ScheduleIsBounded | internal/admin/keycloak.go:119-151 | no schedule has more than four effective steps for each role and one for the result |
| FanOutTheorems.NeverStuck | internal/admin/keycloak.go:120-150 | before the call has returned some step is always enabled |
| Lists.SplitJoin | internal/admin/config.go:125 | splitting at commas loses nothing and leaves no comma in a part |
| Lists.PartOfEntry | internal/admin/config.go:125-131 | the entries are exactly the trimmed parts that are not empty |
| Lists.EntriesConcat | internal/admin/config.go:125-131 | the entries come in the order of their parts, each as often as it occurs |
| ConfigRoles.AllowedRoles | internal/admin/config.go:125-134 | the loop collects exactly the entries of the variable |
| ConfigRoles.LoadRoles | internal/admin/config.go:125-149 | accepted iff there is a role, the mapping decodes and every role has a non-blank group; otherwise the first failing check is reported, naming any role without a group; the mapping is trimmed for the catalogue and untouched elsewhere |
| ConfigRoles.CatalogueIsMapped | internal/admin/config.go:142-148 | an accepted configuration has a trimmed, non-empty group for every role of the catalogue |
| ConfigRoles.LoadedIsUnique | internal/admin/config.go:142-148 | the order in which the loop visits the catalogue does not show in the result |
| ApprovedAssignment.ApprovedRolesAreAssigned | internal/admin/keycloak.go:119-151 | with an accepted configuration, for every stored request of every run and under every schedule: no role is unmapped, each role has exactly one position and at most one PUT, and nil is returned iff all were answered 204 |
| ApprovedAssignment.ActiveHasAllGroups | internal/admin/http.go:260-268 | end to end: in every run a request is `active` only if the PUT of every role it asks for was sent and answered 204, if handlers report a success only for a nil result |
| Roles.RolesFromClaims | internal/admin/auth.go:222-246 | the roles are the stable first-occurrence dedupe of the valid slugs of the realm roles followed by the approved clients' roles |
| Roles.DedupedIsUnique | internal/admin/auth.go:222-246 | that specification determines the list completely |
| Roles.GrantedRoles | internal/admin/auth.go:222-246 | a token grants a role iff it is a canonical slug named by the realm or by an approved client |
| Roles.CandidatesInOrder | internal/admin/auth.go:239-244 | the candidates are the realm roles, then the roles of each approved client, in the order in which the clients are configured |
| Roles.ValidatedRoles | internal/admin/auth.go:89-105 | the header is accepted iff every entry is a canonical slug, and then it grants its entries in order |
| Roles.HasRole | internal/admin/auth.go:34-41 | true iff the role is held |
| KeyCache.StepKeeps | internal/admin/auth.go:248-334 | every critical section keeps the cache equal to the newest document and every returned key trusted |
| KeyCache.ReturnedKeysAreTrusted | internal/admin/auth.go:248-268 | in every interleaving a returned key stood in the newest document of that moment, which was under five minutes old or was loaded during the call |
| KeyCache.MissingKeysAreUnknown | internal/admin/auth.go:259-267 | a call returns no key only if its own load failed or the newest document, loaded during the call, has no such key |
| KeyCache.AnsweredWhileFresh | internal/admin/auth.go:248-255 | in every interleaving a new caller gets its key at once iff the newest document has it and was loaded less than five minutes ago, and then that key; otherwise it goes on to load |
| KeyCache.LoadAnswers | internal/admin/auth.go:248-268 | a new caller that is not answered at once and loads a document gets the key that this document has under its id, or none |
| KeyCache.LoadReplacesOrFails | internal/admin/auth.go:270-334 | in every interleaving a load without a document, or with no approved key in it, fails its caller and leaves the cache; any other document replaces the cached one |
| KeyCache.ReadAnswers | internal/admin/auth.go:262-267 | in every interleaving a caller that loaded gets its key iff the newest document at that moment has it |
| KeyCache.FailuresAreFailedLoads | internal/admin/auth.go:259-261 | in every run a call fails only if its own load brought no document or an empty one |
| KeyCache.KeyHolder.FirstCheck | internal/admin/auth.go:249-255 | the section of an arriving caller, on the two fields in place, is its step of the interleaving |
| KeyCache.KeyHolder.Replace | internal/admin/auth.go:329-332 | a document replaces the cached one as a whole, as the step of its loader, and then exactly its key ids are fresh |
| KeyCache.KeyHolder.SecondCheck | internal/admin/auth.go:262-267 | the look after the load returns what the document there at that moment says |
| Text.TrimSpaceIdempotent | internal/admin/model.go:50-53 | trimming twice is trimming once |
| Text.TrimSpaceIs | internal/admin/model.go:50-53 | trimming takes white space off both ends, all of it and nothing else |
| Text.ByteLenAscii | internal/admin/model.go:252 | Go's byte length and the database's character length agree exactly on ASCII texts |
| Text.ByteLenConcat | internal/admin/model.go:252 | byte lengths add up over the characters |
| Text.CharBytesLeast | internal/admin/model.go:252 | a character counts as the fewest bytes that UTF-8 needs for it |

## Left out

- PostgreSQL and pgx: pool, SQL text, isolation, locking and serialization retries; a transaction is atomic, and an abort is an event that changes nothing. Whether the reaper's connection is busy while its rows are open is not modelled; the rows are a list that was read before.
- Row identifiers are natural numbers, and an operation is addressed by its request and kind; the `created_at`, `attempt` and `external_reference` columns, which nothing reads or changes, are not part of the model, nor is the `UpdatedAt` that `Decide` makes up for its reply.
- HTTP, TLS, URLs, headers, status codes and JSON; external calls are nondeterministic outcomes with a duration.
- `mail.ParseAddress` and the JSON decoder of the role mapping are parameters; texts are sequences of code points, so invalid UTF-8 is not modelled.
- JWT parsing, RSA, SHA-256, base64, the filter of the keys in a JWKS document, and the trusted proxy's address ranges.
- singleflight and errgroup: one running function for the key with a shared result, and a counting limit, are taken from their documentation.
- Clock and rounding: time is one monotone integer in nanoseconds; the microseconds of stored timestamps and clock steps are not modelled.
- `GetPrivacyActivity`, health check, process start-up, signals, the URL, CIDR and client-id variables of `LoadConfig`.
- Scheduling of the reaper: any selection of expired rows may be reaped at any time; the 15 second ticker of `StartReconciler` is not modelled.
- Separation of duty: requester separation is enforced by the decision only; nothing is claimed about who operates provisioning and activation beyond the approver role.
- KeyHolder.Replace: the document is the map of approved keys after the filter.
- FullPasses: a pass that skips a stuck row because somebody else holds its lock can still take the others; the statements about a wedged reaper are about passes that find all expired rows.
