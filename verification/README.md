# Verified model of the workflow engine's action core

This project models the parts of the workflow engine that decide whether a
consequential action happens once, happens as confirmed, and can be accounted for
afterwards, and proves what they promise.

The centre is the **durable action protocol**: a proposal is confirmed, submitted,
authorized against committed facts and signed policy, written together with an outbox
row, claimed, dispatched to a provider, and reconciled. `Protocol.dfy` states it as a
small-step system. Every SQLite transaction of the store and of the provider is one
step; any number of requests, confirmations, cancellations, delivery workers and
reconcilers interleave; each carries its program counter and the snapshots it has read,
which may be stale; and each may crash before any step. The policy service runs along:
its state is part of the system, any of its calls may come between two steps, and the
gateway's checks read it. What the code does not decide (fresh identifiers, iteration
order, whether a connector or the provider raises, how much time passes, which bindings
are deployed) is chosen freely by the run; the clock does not step back.
`ProtocolInvariant.dfy` gives the inductive invariant in rely-guarantee form,
`ProtocolTransactions.dfy` and `ProtocolSteps.dfy` show that every step keeps it,
`ProtocolSafety.dfy` lifts it to whole runs, and `ProtocolTheorems.dfy`, `Guards.dfy`,
`Sourcing.dfy`, `Stamping.dfy`, `Delivery.dfy`, `Takeovers.dfy`, `ClaimSpacing.dfy`,
`Cancellation.dfy` and `QuietKeys.dfy` derive what no run violates. What a call achieves
when nothing interrupts it is the subject of `Submission.dfy`, `ConfirmRuns.dfy`,
`WorkerRuns.dfy`, `BatchRuns.dfy` and `Outcomes.dfy`. `CancelRace.dfy` and `TakeoverRuns.dfy` hold
concrete runs, set on the stage of `SampleRun.dfy`.

Around it stand the signed policy lifecycle with its cache (`Policy.dfy`,
`PolicyEffects.dfy`, `PolicyStore.dfy`), the sequenced inbox (`Inbox.dfy`), the audit hash chain
(`AuditChain.dfy`), the connector registry (`ConnectorRegistry.dfy`), the procedure
executor (`Procedure.dfy`, `ProcedureExecutor.dfy`), the rate limiter (`RateLimiter.dfy`)
and the steering loop (`Steering.dfy`). Objects that the source updates in place are
classes here (`SQLiteCoreStore`, `SandboxConnector`, `PolicyRegistry`,
`SQLitePolicyRepository`, `PolicyService`, `ConversationInbox`, `ConversationService`,
`AuditTrail`, `Executor`, `Limiter`); each method is proved against a function or relation
on values, and the theorems are about those.

Conventions: times are integers and amounts reals; JSON documents are finite maps; HMAC
and SHA-256 over canonical JSON are injective constructors; a null or empty evidence
reference is `None`; identifiers from a UUID generator are picked fresh. `commits`,
`calls`, `accepted`, `admitted` and `visited` are history variables that no step reads.

Four claims hold only under a condition, which the project states and delimits:

- A cancelled proposal need not stay without an action. At the instant of its write an
  uninterrupted cancel cancels only if no action carries the key
  (`Cancellation.AtomicCancel`); an overtaken one leaves an action exactly when one was
  inserted between its lookup and its write (`Cancellation.InterleavedCancel`). After the
  write, one appears exactly when a later step inserts it (`Cancellation.CancelThenInsert`),
  which cannot happen if at the write no call bears the key and none is started under it
  later (`QuietKeys.CancelledForGood`). Both failures are real:
  `CancelRace.CancelCanLoseTheRace` overtakes a cancel, and in
  `CancelRace.ConfirmCanOutliveCancel` a confirm that has passed its checks goes on to
  authorize the action after a cancel that nothing interrupted.
- A row can be claimed more often than `max_attempts`, because a lease that runs out is
  taken over. In every run the claims are at most that maximum plus the takeovers
  (`Takeovers.ClaimsAreBounded`), and for all settings and any number of takeovers some run
  attains the bound (`TakeoverRuns.BoundIsAttained`). A row that is not taken over keeps to
  the maximum, to one holder and to its retry schedule (`Takeovers.UndisturbedRow`,
  `ClaimSpacing.ClaimsAreSpaced`).
- An audit write verifies exactly when the entry has no null scalar, no empty document and
  no extra key (`AuditChain.WriteVerifies`); entries built by the audit logger always do,
  and `AuditChain.ExtraKeyBreaksTheChain` is an entry that does not.
- The rate limit holds on every clock exactly for a limit of at most one or an empty
  window (`RateLimiter.ClockMatters`). With any other settings it holds while the clock
  does not step back (`RateLimiter.AdmissionsAreLimited`), and every single step back
  breaks it after a suitable history (`RateLimiter.StepBackBreaksTheLimit`).

The documentation of the steering loop says a response is verified; a negative iteration
budget returns the filtered text without any verification (`Steering.SteerResponse`
states both cases). The settings only allow 0 to 5, a caller's argument is not checked.

Verify with `dafny verify dfyconfig.toml`.

## Model

| member | source | states |
|---|---|---|
| `ProtocolSafety.ReachableInv` | workflow_engine/core/kernel.py:387-604 | in every state of every run from an empty store and ledger the invariant holds: keys unique, logs legal, ledger and calls consistent, outbox and proposals consistent, case versions counted, every client's assumptions met, at most one holder per claimed action |
| `ProtocolSafety.RunKept` | workflow_engine/core/kernel.py:387-604 | any run from a state with the invariant keeps it and undoes nothing: commands, terminal actions, closed proposals and effects stay as they are |
| `ProtocolSteps.ClientStepOk` | workflow_engine/core/gateway.py:100-201 | one step of any program keeps the shared invariant, leaves its own client's assumptions true, and takes a claim only on an action that was AUTHORIZED |
| `ProtocolInvariant.PcStable` | workflow_engine/core/gateway.py:138-201 | what a client relies on at its program counter survives every step of any other client that does not hold the same claim |
| `ProtocolTheorems.StoresAgree` | workflow_engine/integrations/sandbox.py:282-342 | in every run, a succeeded or reconciled action has exactly its own command in the ledger, a failed one has nothing there, and every effect belongs to an action that is dispatched, unknown, succeeded or reconciled |
| `ProtocolTheorems.FailedNeverTakesEffect` | workflow_engine/core/kernel.py:1093-1117 | once an action is FAILED, no continuation of the run puts an effect under its key |
| `ProtocolTheorems.DispatchedAtMostOnce` | workflow_engine/core/gateway.py:138-178 | over every run the provider's dispatch is invoked at most once per idempotency key |
| `ProtocolWriters.CallsAreRecorded` | workflow_engine/core/gateway.py:163-178 | the call history grows by exactly the key passed to dispatch, at that step only, and the effect ledger has a single writer |
| `ProtocolTheorems.ReconcilersOnlyQuery` | workflow_engine/core/gateway.py:183-201 | whatever happens around it, no step of a reconciliation calls dispatch or changes the provider |
| `Outcomes.DispatchDecides` | workflow_engine/integrations/sandbox.py:304-327 | from any reachable state an uninterrupted dispatch of an AUTHORIZED action calls the provider once and records the status, log and effect that the provider's scenario calls for |
| `Outcomes.ReconciliationDecides` | workflow_engine/integrations/sandbox.py:329-342 | an uninterrupted reconciliation of a DISPATCHED or UNKNOWN action ends RECONCILED exactly when the ledger holds its effect, otherwise UNKNOWN; its log gains the step into doubt, if still to be taken, and the finding; nothing else changes |
| `ProtocolTheorems.FactsCurrentAtInsertion` | workflow_engine/core/action_service.py:258-303 | at the instant an action is inserted every authoritative parameter equals the case's current VERIFIED fact, every required parameter is there, and so is the consent and the approval the catalog asks for, despite concurrent fact commits |
| `Sourcing.InsertedActionWasBacked` | workflow_engine/core/action_service.py:226-283 | an action about to be inserted repeats the call's own request, its case runs the request's procedure version, and since the call began the payload of the request's own resource equalled every authoritative parameter and, where the catalog binds one, named the customer of the case; a missing refund amount is read from the amount and a missing currency as USD |
| `Stamping.InsertedActionIsStamped` | workflow_engine/core/gateway.py:100-136 | whatever the request carried, the action a call adds to the store bears the binding that was enabled for it and, in a governed gateway, the activation signature of its package, which was active, intact, of the case's procedure and permitting the action, all in one state since the call began |
| `Stamping.PolicyNeverStopsDispatch` | workflow_engine/core/gateway.py:138-162 | in every state of every run of a governed gateway, after any activations, retirements, restarts and key rotations, a stored action is stamped with the signature of its stored, intact, executable package, which permits it, so the policy check of its dispatch passes |
| `Submission.SubmitDispatchesItsOwn` | workflow_engine/core/action_service.py:183-304 | whatever else runs and whoever inserts it, the action a submit call dispatches bears the request's key, asks for the same action with the same parameters (for refunds contained in them) under the same policy package, and is on a case of the request's customer |
| `Submission.RepeatedSubmission` | workflow_engine/core/action_service.py:186-222 | from any reachable state a request under a taken key goes on to dispatch the stored action exactly when it asks for the same thing for the same customer, ends otherwise, and adds and changes nothing |
| `Submission.FreshSubmission` | workflow_engine/core/action_service.py:224-304 | from any reachable state a request under a free key that meets the catalog, its resource, its case, the policy and the bindings is inserted: one AUTHORIZED action with the request's own command and stamps, its two events, its outbox row, its VERIFIED facts and its case's new version, and nothing else |
| `ProtocolTheorems.VersionCounts` | workflow_engine/core/kernel.py:387-465 | a case's version always equals its fact commits plus the actions inserted on it |
| `ProtocolWriters.OnlyInsertAdds` | workflow_engine/core/kernel.py:429-465 | no step but the insert of authorize adds an action |
| `ProtocolTheorems.LogsAreLegalPaths` | workflow_engine/core/kernel.py:447-454 | at every moment each action's event log is a path of the state graph from REQUESTED to the stored status |
| `ProtocolTheorems.TerminalIsAbsorbing` | workflow_engine/core/kernel.py:1093-1117 | a succeeded, failed or reconciled action never changes again and no command ever changes |
| `ProtocolTheorems.ConfirmedIsExecuted` | workflow_engine/actions/bridge.py:146-213 | a proposal that confirm takes from PENDING to CONFIRMED names, then and forever, an action with its key, name, case, policy package and customer, whose parameters equal the offer (for refunds are contained in it) |
| `ProtocolTheorems.ConfirmInsertsTheOffer` | workflow_engine/core/action_service.py:285-303 | an action that confirm itself inserts has exactly the offer's parameters, refunds included |
| `ProtocolTheorems.OnlyConfirmConfirms` | workflow_engine/actions/bridge.py:377-390 | a proposal becomes CONFIRMED only by confirm's final write or by a cancel that found the action |
| `ProtocolTheorems.ConfirmedNamesItsAction` | workflow_engine/core/kernel.py:696-739 | in every run a proposal is CONFIRMED exactly when it names an existing action with its own key |
| `ProtocolTheorems.ClosedProposalsAreAbsorbing` | workflow_engine/core/kernel.py:696-739 | offers never change and a confirmed, cancelled or expired proposal never changes at all |
| `ProtocolTheorems.ExpiredOnlyAfterDeadline` | workflow_engine/actions/bridge.py:365-375 | a proposal is marked EXPIRED only when its deadline has passed |
| `Guards.ConfirmationIsGuarded` | workflow_engine/actions/bridge.py:146-165 | a call about to confirm was started to confirm that proposal by its owner, and since it began saw the stored proposal pending and unexpired, and its resource version, connector binding and evidence in order |
| `Guards.CancellationIsGuarded` | workflow_engine/actions/bridge.py:215-235 | a call about to cancel, or to recover a confirmation, was started to cancel that proposal by its owner and since it began saw the stored proposal pending |
| `Guards.ConfirmedActionIsSigned` | workflow_engine/actions/bridge.py:166-197 | the command a confirmation is about to insert names the confirming actor and carries the evidence the action requires |
| `ConfirmRuns.ConfirmDecides` | workflow_engine/actions/bridge.py:146-197 | an uninterrupted confirmation submits the offer, field by field, exactly when the proposal is pending, in time, its customer's and its actor's, and resource version, binding and evidence hold; it expires a late one and changes nothing otherwise |
| `ConfirmRuns.ConfirmExecutes` | workflow_engine/actions/bridge.py:146-213 | from any reachable state a proposal that can be confirmed and whose request is in order is executed by some run of its confirmation alone: the offer's own action is inserted, dispatched once and recorded as the provider's scenario says, and the proposal is CONFIRMED with it |
| `ConfirmRuns.StatusDecides` | workflow_engine/actions/bridge.py:237-255 | an uninterrupted status request expires the proposal exactly when it is pending, late, its customer's and, if an actor is named, its actor's; otherwise nothing changes |
| `Cancellation.AtomicCancel` | workflow_engine/actions/bridge.py:215-235 | an uninterrupted cancel confirms a proposal whose action exists, cancels it only when no action carries its key at the instant of the write, and touches nothing it does not own |
| `Cancellation.InterleavedCancel` | workflow_engine/actions/bridge.py:229-235 | an overtaken cancel leaves an action under the key exactly when a client inserted one, with its case still at the version it had seen, between lookup and write |
| `Cancellation.CancelThenInsert` | workflow_engine/actions/bridge.py:215-235 | after an uninterrupted cancel that found no action, any continuation ends with an action under the key exactly when one of its steps inserts it |
| `QuietKeys.CancelledForGood` | workflow_engine/actions/bridge.py:215-235 | if no call bears the key when the cancel has written and no submission or confirmation under it starts later, the proposal stays CANCELLED and no action ever carries its key |
| `QuietKeys.QuietKeyStaysFree` | workflow_engine/core/action_service.py:183-303 | from any reachable state, a key that no call bears and no later call brings never gets an action |
| `CancelRace.CancelCanLoseTheRace` | workflow_engine/actions/bridge.py:229-235 | a concrete run from the empty store in which an overtaken cancel ends with a CANCELLED proposal whose key an action carries |
| `CancelRace.ConfirmCanOutliveCancel` | workflow_engine/actions/bridge.py:146-213 | a concrete run in which a confirm past its checks authorizes the action after a cancel that nothing interrupted |
| `Delivery.NoActionIsLost` | workflow_engine/core/kernel.py:429-465 | every action has exactly one outbox row, not DELIVERED while the action is AUTHORIZED, QUARANTINED only with the maximum attempts, and otherwise due again at some time |
| `WorkerRuns.DueActionIsDelivered` | workflow_engine/core/workers.py:34-61 | from any reachable state an uninterrupted worker asking for one row delivers the oldest due one, counting one attempt and touching no other row, and has its action dispatched if that is still AUTHORIZED and leaves it alone otherwise |
| `BatchRuns.BatchIsDelivered` | workflow_engine/core/workers.py:34-76 | from any reachable state and for any limit an uninterrupted worker delivers every row of the batch it claims, each after one more attempt, has the action of each dispatched unless that is under way or done, and touches no other row and no other action |
| `WorkerRuns.FailedDeliveryIsPutBack` | workflow_engine/core/workers.py:61-76 | when the dispatch raises before its claim the row awaits its retry at exactly now plus the backoff while attempts are left, and is QUARANTINED otherwise; nothing else in the stores has changed |
| `Takeovers.ClaimsAreBounded` | workflow_engine/core/workers.py:34-76 | in every run, crashes and expired leases included, a row is claimed at most max_attempts times plus once for each claim that took over an unsettled lease |
| `TakeoverRuns.BoundIsAttained` | workflow_engine/core/kernel.py:878-911 | for every lease, every maximum and every number of takeovers some run from the empty store claims a row exactly that often |
| `Takeovers.UndisturbedRow` | workflow_engine/core/kernel.py:928-949 | a row that has not been taken over is claimed at most max_attempts times, awaits a retry only below the maximum and within its backoff, and has one holder at most |
| `Delivery.AttemptsCountClaims` | workflow_engine/core/kernel.py:878-911 | over any run a row's attempts are the number of times it was claimed |
| `ClaimSpacing.ClaimsAreSpaced` | workflow_engine/core/workers.py:34-76 | unless the row is taken over, its k-th and next claim lie at least the k-th backoff apart |
| `ClaimSpacing.RetryFollowsBackoff` | workflow_engine/core/workers.py:60-75 | a row not taken over that waits for the retry of its k-th claim becomes due no sooner than that claim plus the k-th backoff and no later than now plus it |
| `ClaimSpacing.ClaimTakesWhatIsFree` | workflow_engine/core/kernel.py:887-897 | a claim takes no row whose lease still runs, and with room in the limit it takes every available row that waits or whose lease has run out |
| `ClaimSpacing.TakeoverComesLate` | workflow_engine/core/kernel.py:887-904 | in every run a claim that takes over an unsettled lease comes more than the lease's seconds after the claim it overtakes |
| `CoreTables.BatchIsClaimable` | workflow_engine/core/kernel.py:887-897 | a claimed batch holds only available rows that wait, await a retry or bear a lapsed lease, and all of them when it is shorter than the limit |
| `Delivery.DelaysGrow` | workflow_engine/core/workers.py:60-69 | delays lie between 1 and 300 seconds and never shrink as attempts grow |
| `Delivery.DelaysDouble` | workflow_engine/core/workers.py:64-68 | the delay is one second after the first attempt and doubles with each further one until it reaches 300 seconds |
| `CoreTables.LegalLogIsPath` | workflow_engine/core/kernel.py:1098-1115 | a legal log starts at REQUESTED, ends at the status and steps along edges of the state graph |
| `CoreTables.BackfillLogIsLegal` | workflow_engine/core/kernel.py:338-356 | the log reconstructed for an old action is legal whatever its status |
| `CoreTables.LeaseRowsAt` | workflow_engine/core/kernel.py:896-904 | leasing a batch leases each of its rows once and leaves the others alone |
| `CoreStore.BackfillMakesLogsLegal` | workflow_engine/core/kernel.py:330-371 | after the migration every action's log is legal, for any set of old actions |
| `CoreStore.SQLiteCoreStore.Initialize` | workflow_engine/core/kernel.py:330-371 | the first run gives every action without events its reconstructed log and changes no other log; a later run changes nothing |
| `CoreStore.SQLiteCoreStore.Reconstruct` | workflow_engine/core/kernel.py:345-366 | appends one action's reconstructed log after all existing events and no other log changes |
| `CoreStore.SQLiteCoreStore.ClaimOutbox` | workflow_engine/core/kernel.py:878-911 | leases distinct rows that are available and either wait, await a retry or bear a lease that has run out, oldest first, as many as the limit and the table permit, and nothing else |
| `CoreStore.SQLiteCoreStore.SelectDue` | workflow_engine/core/kernel.py:887-897 | the selection is in order of creation and holds no row under a running lease; with room in the limit it holds every available row that waits, awaits a retry or bears a lapsed lease |
| `CoreStore.SQLiteCoreStore.InsertAction` | workflow_engine/core/kernel.py:429-465 | version check, action, two events and outbox row commit together or nothing changes |
| `CoreStore.SQLiteCoreStore.AppendFact` | workflow_engine/core/kernel.py:387-414 | the fact is written and the version bumped exactly when the expected version matches |
| `CoreStore.SQLiteCoreStore.CreateCase` | workflow_engine/core/kernel.py:373-379 | a case is created at version 0 unless it exists |
| `CoreStore.SQLiteCoreStore.ClaimAction` | workflow_engine/core/kernel.py:579-604 | the claim is won exactly when the action is AUTHORIZED, and then it is DISPATCHED and logged |
| `CoreStore.SQLiteCoreStore.TransitionAction` | workflow_engine/core/kernel.py:539-577 | the status is set and logged exactly when the expected status is stored |
| `CoreStore.SQLiteCoreStore.CreateProposal` | workflow_engine/core/kernel.py:615-657 | a new proposal is stored PENDING without an action |
| `CoreStore.SQLiteCoreStore.TransitionProposal` | workflow_engine/core/kernel.py:696-739 | the compare-and-set changes status and, if given, the action id, or nothing |
| `CoreStore.SQLiteCoreStore.UpdateOutbox` | workflow_engine/core/kernel.py:928-949 | a row is settled and its lease dropped whoever holds it |
| `Provider.SandboxConnector.Dispatch` | workflow_engine/integrations/sandbox.py:304-327 | an existing effect is replayed; otherwise reply and ledger follow the scenario, with at most one effect per key |
| `Provider.EffectIsTheFirst` | workflow_engine/integrations/sandbox.py:282-302 | whatever follows, the ledger keeps under a key the command of the first dispatch that took effect |
| `Provider.SandboxConnector.Commit` | workflow_engine/integrations/sandbox.py:282-302 | the first command committed under a key stays |
| `Provider.SandboxConnector.PutResource` | workflow_engine/integrations/sandbox.py:214-236 | the payload is replaced and the version is 1 or one more than before |
| `Provider.SandboxConnector.SetScenario` | workflow_engine/integrations/sandbox.py:255-262 | the scenario of one key changes and no other |
| `Provider.QueriesAreTruthful` | workflow_engine/integrations/sandbox.py:329-342 | after any operations on an empty provider a query reports an action performed exactly when some dispatch under its key took effect, and the effect is the first such dispatch's own command |
| `Provider.ProviderRemembers` | workflow_engine/integrations/sandbox.py:214-271 | after any operations on an empty provider a key has the scenario last scripted for it, success if none was, and a resource the payload last seeded, its version counting the seedings |
| `Policy.CacheAgrees` | workflow_engine/core/policy_store.py:158-234 | after any service calls and restarts the registry answers require_active exactly as the repository does, with the same package |
| `Policy.AuthorizationIsStable` | workflow_engine/core/gateway.py:100-170 | a stamped action passes the snapshot and allowed-action checks, against repository and registry, after any activations, retirements and key rotations that retain old keys |
| `Policy.ActiveIsUnique` | workflow_engine/core/policy_store.py:58-62 | at most one package is active per procedure and jurisdiction |
| `Policy.ActiveWasReviewed` | workflow_engine/core/policy.py:52-64 | an active package was approved by somebody other than its author |
| `Policy.ActivateSucceeds` | workflow_engine/core/policy_store.py:212-227 | activating a stored approved package always makes it active |
| `Policy.ActivationNeverRefused` | workflow_engine/core/policy_store.py:86-118 | an activation is stopped neither by a rival's signature nor by the uniqueness index |
| `Policy.NextKeeps` | workflow_engine/core/policy_store.py:158-234 | every service call and restart keeps repository, index and registry consistent and changes neither rules nor activation signature of an activated package |
| `Policy.MadeSignerVerifies` | workflow_engine/core/policy.py:40-115 | a signer is constructed exactly from a key of eight characters or more, and whatever other keys it holds it verifies each package it approves, activates and retires |
| `Policy.RotationRetains` | workflow_engine/core/policy.py:40-50 | a new signer retains the old keys exactly when each is handed over for verification and none is replaced under its own id |
| `PolicyEffects.DraftIsStored` | workflow_engine/core/policy_store.py:183-202 | an admissible draft is stored as it is and no other row changes; any other changes nothing |
| `PolicyEffects.ApprovalIsStored` | workflow_engine/core/policy_store.py:204-210 | in every reachable state a draft approved by somebody other than its author is stored as approved by them and verifies, other rows unchanged; any other approval changes nothing |
| `PolicyEffects.ActivationTakesEffect` | workflow_engine/core/policy_store.py:212-227 | in every reachable state activating an approved package makes it the active one in repository and registry with nothing else about it changed, retires exactly the active packages of its procedure and jurisdiction with stamps and rules kept, and leaves all other rows alone |
| `PolicyEffects.RetirementTakesEffect` | workflow_engine/core/policy_store.py:229-234 | in every reachable state retiring the active package stores it as RETIRED; neither repository nor registry returns it as active then or after any later calls, its stamp is still accepted with the same rules, and no other row changes |
| `PolicyEffects.RestartTakesEffect` | main.py:201-202 | in every reachable state a restart installs its signer, leaves the rows alone and fills the registry with exactly the stored executable packages, the active ones as active |
| `PolicyEffects.TamperedPackageFails` | workflow_engine/core/policy.py:66-85 | a package that verifies does not verify with any signed field changed or without its signature, and no draft verifies |
| `PolicyEffects.SnapshotIsExact` | workflow_engine/core/policy_store.py:170-181 | in every reachable state repository and registry accept a stamp exactly when it is the activation signature of a stored active or retired package |
| `PolicyStore.PolicyService.CreateDraft` | workflow_engine/core/policy_store.py:183-202 | a draft is stored exactly when it is new, is a draft and allows only catalogued actions |
| `PolicyStore.PolicyService.Approve` | workflow_engine/core/policy_store.py:204-210 | a draft is signed and stored as approved exactly when the approver is not the author |
| `PolicyStore.PolicyService.Activate` | workflow_engine/core/policy_store.py:212-227 | rivals are retired and the package activated in one transaction, registry included, or nothing changes |
| `PolicyStore.PolicyService.Retire` | workflow_engine/core/policy_store.py:229-234 | a verified active package is stored as retired and leaves the active cache |
| `PolicyStore.PolicyService.RequireActive` | workflow_engine/core/policy_store.py:163-168 | returns the stored package exactly when it is active and verifies, and refreshes the registry with it |
| `PolicyStore.PolicyService.RequireAuthorizationSnapshot` | workflow_engine/core/policy_store.py:170-181 | returns the stored package exactly when it is executable history, verifies and carries the activation signature |
| `PolicyStore.PolicyService.Hydrate` | workflow_engine/core/policy_store.py:158-161 | succeeds exactly when all executable history verifies, and then an empty registry holds that history and nothing else; otherwise it holds what a listing of the rows has before its first executable package that does not verify |
| `PolicyStore.PolicyService.Restart` | main.py:201-202 | clearing and hydrating is the restart step of the lifecycle: the registry holds exactly the executable history if all of it verifies, and nothing that does not |
| `PolicyStore.SQLitePolicyRepository.ReplaceActive` | workflow_engine/core/policy_store.py:86-118 | retirements and activation commit together unless the index refuses, and then nothing changes |
| `PolicyStore.SQLitePolicyRepository.Save` | workflow_engine/core/policy_store.py:65-84 | the upsert goes through exactly when the index accepts it |
| `PolicyStore.PolicyRegistry.LoadHistory` | workflow_engine/core/policy.py:132-139 | an executable package that verifies is cached, as active only if it is active |
| `PolicyStore.PolicyRegistry.Load` | workflow_engine/core/policy.py:126-130 | only an active package that verifies is cached |
| `PolicyStore.ReplacedByStatements` | workflow_engine/core/policy_store.py:93-117 | the statements of a replacement amount to retiring every rival and activating the package |
| `Inbox.InboxConverges` | workflow_engine/core/kernel.py:776-840 | after a baseline k, as many redelivery rounds as messages, each in any order, accept k+1..k+n exactly once, in order, and nothing else |
| `Inbox.RoundAcceptsOne` | workflow_engine/core/kernel.py:776-840 | each round accepts at least one message while any remain |
| `Inbox.AcceptedIsGapFree` | workflow_engine/core/kernel.py:776-840 | for every delivery sequence the numbers accepted per provider and conversation are a gap-free run ending at last_sequence |
| `Inbox.AcceptedAtMostOnce` | workflow_engine/core/kernel.py:776-840 | no message id of a provider is accepted twice |
| `Inbox.AcceptanceIsExact` | workflow_engine/core/kernel.py:776-840 | after any deliveries a message is accepted exactly when its id has not been accepted and it has no sequence, or its conversation has no accepted number, or it is the last one plus one; it is parked exactly when it is further ahead; otherwise nothing changes |
| `Inbox.VerdictFromHistory` | workflow_engine/core/kernel.py:776-840 | the verdict, and the number a parked message is told to wait for, follow from the history of accepted messages alone |
| `Inbox.ConversationInbox.AcceptMessage` | workflow_engine/core/kernel.py:776-840 | verdict and tables follow the acceptance rule, the verdict is the one the history of accepted messages calls for, and quarantined rows keep their original columns on redelivery |
| `Inbox.ConversationService.ProcessTurn` | workflow_engine/conversation/service.py:65-104 | the processor runs exactly for accepted messages and never twice for one message id |
| `AuditChain.LoggedEntriesVerify` | workflow_engine/audit/logger.py:89-112 | any sequence of logged entries yields a valid chain with one row each |
| `AuditChain.LoggedEntriesAreTold` | workflow_engine/audit/logger.py:89-112 | the i-th logged entry is the i-th row, whose columns and documents hold exactly what the entry says, an absent or empty field being NULL |
| `AuditChain.WriteVerifies` | workflow_engine/database/repository.py:390-431 | a write keeps a valid chain valid exactly when every key of the entry survives storage |
| `AuditChain.ExtraKeyBreaksTheChain` | workflow_engine/database/repository.py:390-431 | an entry with a key the table lacks leaves a row that does not verify |
| `AuditChain.HeadDeterminesTrail` | workflow_engine/database/repository.py:434-462 | two valid chains with the same head hash are identical |
| `AuditChain.TamperingIsDetected` | workflow_engine/database/repository.py:434-462 | changing the content of any row of a valid chain makes it invalid |
| `AuditChain.BackfillCompletesTheChain` | workflow_engine/database/db.py:301-333 | a valid hashed prefix followed by unhashed rows becomes a valid chain and the prefix is untouched |
| `AuditChain.BackfillRow` | workflow_engine/database/db.py:310-332 | the backfill keeps every row's content, hashes every row and alters no hashed row |
| `AuditChain.BackfillRunsOnce` | workflow_engine/database/db.py:301-333 | a second backfill changes nothing |
| `AuditChain.AuditTrail.VerifyChain` | workflow_engine/database/repository.py:434-462 | valid exactly when the chain is, otherwise checked is the length of its longest valid prefix |
| `AuditChain.AuditTrail.BackfillHashes` | workflow_engine/database/db.py:301-333 | the loop computes the backfill of the stored rows |
| `AuditChain.AuditTrail.Write` | workflow_engine/database/repository.py:390-431 | one row is appended, linked to the last hash |
| `ConnectorRegistry.BindingIsPinned` | workflow_engine/integrations/registry.py:419-446 | the stamp of the connector chosen at authorization resolves to that connector, now and under any later accepted configuration that keeps the binding |
| `ConnectorRegistry.Accepts` | workflow_engine/integrations/registry.py:74-190 | a configuration is accepted exactly when every binding's base and transport settings are valid, one is enabled per action and identities are unique |
| `ConnectorRegistry.BuildRegistry` | workflow_engine/integrations/registry.py:374-417 | the loop builds the registry of all bindings, or fails if one cannot be connected |
| `ConnectorRegistry.ResolvedHolds` | workflow_engine/integrations/registry.py:405-417 | every binding of a configuration with unique identities is found under its own key |
| `ConnectorRegistry.BuildIsExact` | workflow_engine/integrations/registry.py:374-404 | a registry is built exactly when every binding can be connected: a sandbox database outside production, found by id or by action name, REST with a contract that loads and HTTPS in production, a factory that loads, and never a WebSocket |
| `ConnectorRegistry.UnpinnedIsExact` | workflow_engine/integrations/registry.py:419-446 | without a pin a lookup finds exactly the enabled binding of the action, if there is one, with a connector made from its own settings |
| `ConnectorRegistry.PinnedIsExact` | workflow_engine/integrations/registry.py:419-446 | with a pin it finds exactly the binding that bears id, version and contract, enabled or not, and nothing for an incomplete pin |
| `ConnectorRegistry.TransportIsExact` | workflow_engine/integrations/registry.py:61-175 | a transport is accepted exactly when it keeps to its scheme and calls an allowed host, names its secret by reference, reads each status code in one way, pending only if it can ask again, and waits at most 120 seconds |
| `Procedure.RunsFollowTheProcedure` | workflow_engine/procedures/executor.py:193-360 | after one start and any transitions, refused ones included, visited steps are a path of the declared graph, exactly the current one is active, and the session agrees |
| `Procedure.TransitionOk` | workflow_engine/procedures/executor.py:264-327 | a transition succeeds exactly when it is permitted, never fails on entry, and a refused one changes nothing |
| `Procedure.TargetsExist` | workflow_engine/procedures/loader.py:63-105 | in a valid procedure every permitted target is the end or a declared step that exists |
| `Procedure.ValidateProcedure` | workflow_engine/procedures/loader.py:63-105 | accepts exactly the well-formed procedures; otherwise reports a missing id, or the first step in error and what is first wrong with it |
| `ProcedureExecutor.Executor.constructor` | workflow_engine/procedures/executor.py:101-139 | builds the graph of the definition, the end being reachable from every step |
| `ProcedureExecutor.Executor.Start` | workflow_engine/procedures/executor.py:193-227 | starts at the first step unless already in progress |
| `ProcedureExecutor.Executor.EnterStep` | workflow_engine/procedures/executor.py:229-262 | an existing step becomes active and current, and the session is brought in line |
| `ProcedureExecutor.Executor.Transition` | workflow_engine/procedures/executor.py:264-327 | a permitted transition completes the current step and enters the target or ends |
| `ProcedureExecutor.Executor.Complete` | workflow_engine/procedures/executor.py:329-348 | the procedure ends, nothing is current, and the session says so |
| `RateLimiter.AdmissionsAreLimited` | workflow_engine/middleware/rate_limiter.py:47-67 | with a nondecreasing clock every half-open interval of the window's length holds at most max_requests admissions of a key |
| `RateLimiter.RejectedOnlyWhenFull` | workflow_engine/middleware/rate_limiter.py:52-66 | a request is admitted exactly when the window ending with it holds fewer than max_requests admissions of the full history |
| `RateLimiter.RequestRefines` | workflow_engine/middleware/rate_limiter.py:52-66 | the pruned list and the full history agree on what is recent from now on |
| `RateLimiter.KeysAreIndependent` | workflow_engine/middleware/rate_limiter.py:47-67 | a key's log is what its own requests alone would have made |
| `RateLimiter.AdmittedWereLetThrough` | workflow_engine/middleware/rate_limiter.py:52-66 | the history of a key is exactly the times of its requests that were let through |
| `RateLimiter.ClockMatters` | workflow_engine/middleware/rate_limiter.py:47-67 | the limit holds on every clock, steps back included, exactly when max_requests is at most one or the window is empty |
| `RateLimiter.StepBackBreaksTheLimit` | workflow_engine/middleware/rate_limiter.py:47-67 | with any other settings and any two times, a clock falling from the later to the earlier breaks the limit after a history that is nondecreasing up to that step |
| `RateLimiter.AnyClockIsFine` | workflow_engine/middleware/rate_limiter.py:47-67 | with a limit of at most one or an empty window every window of every key stays within the limit on any clock |
| `RateLimiter.BackwardClockBreaksTheLimit` | workflow_engine/middleware/rate_limiter.py:47-67 | requests at 5, 5, 20 and then 5 again put three admissions into one window of limit two |
| `RateLimiter.Limiter.Dispatch` | workflow_engine/middleware/rate_limiter.py:47-67 | prunes and extends the key's list, leaves other keys alone, and admits as specified |
| `Steering.SteerResponse` | workflow_engine/agents/guardrails.py:283-394 | at most max_iterations rewrites and one more verification; a text in error is final only when the rewrites are used up, there is no generator or it returns nothing; the result is the fallback or exactly the last filtered text, verified without error; no verification at all when disabled or with a negative budget |
| `Steering.Judge` | workflow_engine/agents/guardrails.py:434-469 | INVALID with a rewrite hint exactly when a finding is an error, SATISFIABLE exactly when none is but one is a warning, NOT_APPLICABLE exactly without findings |

## Left out

- Routes, UI, MCP facade, channel adapters and other middleware: input, output and wiring.
- Agents, prompts, pattern rails, Z3 and SymPy rules: checking and filtering are arbitrary functions in `Steering`.
- REST, OpenAPI, YAML, secrets and JWT: foreign calls; in `ConnectorRegistry` a contract or a factory either loads or does not.
- SQL text, Pydantic coercion and UUIDs: tables are maps, records datatypes, new identifiers fresh.
- Refund and Reg E decisions, jurisdiction checks, RBAC and the response contract: single-branch case analysis. The action catalog is an arbitrary table.
- Preparing a proposal (`propose` beyond storing it): any offer may be stored, so the theorems hold for every way of preparing one.
- Idempotency keys (`_idempotency_key`): any key may be used. A proposal confirmed through cancel's recovery is therefore only shown to name an action with its key.
- Handoffs: their compare-and-set repeats the one of actions.
- `update_action`, `mark_dispatched`, `update_handoff` and `enqueue_outbox`: no code in scope calls them, so they are not steps.
- Gateway, bridge, action service and workers as objects: they have no state of their own, so their calls are programs of the step system; counters of a worker run are not modelled.
- Which actions the reconciliation worker lists (by status and age): a reconciliation may start on any action at any time, so the theorems hold for every choice.
- Outcome details, error texts, timestamps of events, lease owners, and fact sources, evidence and expiry dates: carried along by the source, read by no modelled decision.
- Customer bindings of a resource that are not text: the source compares their printed form.
- Audit scalars other than strings: `AuditChain` has none, and the logger writes none.
- The rate limiter's off switch and its exemption of the health check: they bypass it.
- Bootstrap policies, which startup writes past the service: the lifecycle starts from an empty repository.
- A registry that is a plain mapping of connectors: it ignores bindings.
- Procedure hooks, audit calls inside the executor, escalation, and the order of the list of completed steps (a set here).
- PolicyStore.PolicyService.Hydrate: does not fix the order of the listing, because only a failure could show it.
- ConnectorRegistry.Accepts: does not model the pattern of a Python factory name and the fields of OpenAPI operations, because they only restrict foreign text.
