# ANI IAM: models and proofs of its step protocols

The service decides who may act in which tenant. Its `internal/biz` layer is a set of protocols over
transactional storage; this project models those protocols, with the storage steps the `internal/data`
layer and its SQL give them, and proves what every run of them keeps.

A transaction is one step that commits or leaves everything as it was. Where the source changes
fields step by step there is a class whose methods equal a specification function; where it computes,
there are functions. Main results are lemmas over every run: a run is a sequence of steps of any number
of workers, with crashes, lost or unseen commits, redelivery and arbitrary arguments. Beside them stand,
for every operation, when it succeeds (both directions, in the stored fields), what it then writes, and
what each refusal is told.

| file | subject |
|---|---|
| `Ids.dfy`, `UuidText.dfy`, `Sorting.dfy` | identifiers, 64-bit integers, time; text forms of identifiers; sorting by key |
| `TenantLifecycle.dfy`, `TenantReplication.dfy`, `LifecycleDecisions.dfy`, `LifecycleRefinement.dfy` | replication of tenant lifecycle logs: rules, stored steps, what each input is taken for, refinement of the owner's log and staleness |
| `CoreProjection.dfy` | the per-tenant Core projection |
| `BootstrapModel.dfy`, `BootstrapRuns.dfy`, `BootstrapDecisions.dfy`, `BootstrapGuarantees.dfy`, `BootstrapQueue.dfy` | the Bootstrap job queue, its worker and its administration |
| `BrokerModel.dfy`, `BrokerRuns.dfy`, `BrokerReceiver.dfy`, `DlqReplay.dfy` | broker receipt, quarantine and operator replay |
| `RefreshTokens.dfy` | refresh-token rotation with reuse detection |
| `WorkloadRegistry.dfy`, `RegistryForms.dfy`, `RegistryIndex.dfy`, `RegistryGuarantees.dfy`, `AuthorityRevision.dfy` | the target registry and the authority revision |
| `WorkloadCredentials.dfy`, `WorkloadChain.dfy`, `WorkloadDecisions.dfy`, `WorkloadVersions.dfy`, `WorkloadOutlives.dfy` | workload token, delegation, verification, continuation |
| `MutationLedger.dfy`, `Administrators.dfy` | exactly-once administration; the last administrator |
| `ApiKeyUsage.dfy`, `InvitationToken.dfy`, `Backoff.dfy`, `Notifications.dfy` | the usage buffer, invitation tokens, retry delays and the notification outboxes |

Check everything with `dafny verify dfyconfig.toml`.

## What turned out not to hold

- The newest observation of an API key is not always kept. `RecordAPIKeyUse` writes only when the stored
  time is more than 15 minutes older, and the entry is then acknowledged away
  (`ApiKeyUsage.MaximumIsNotAlwaysKept` gives an input). `FlushKeepsMaximumIff` is the exact condition,
  `NoObservationLostBeyondThrottle` the bound that does hold over every interleaving.
- Repeated flushes do not always empty that buffer. Every update of a key passes the constraint trigger of
  `api_keys` (migrations/202609080003_tenant_workload_api_key.sql:202-232), which refuses an active key whose
  workload or membership is not active; suspending a membership leaves its keys active
  (internal/biz/tenant_authorization.go:301-381). An entry of such a key stops every flush at itself.
  `ApiKeyUsage.SuspensionHoldsTheBuffer` gives the input, `ReachableFlushEmptiesIff` the exact condition on
  every reachable buffer, and `BlockedHeadHoldsEverything` shows that nothing behind the oldest one gets out.
- A continuation may outlive its delegation and its workload token. `WorkloadOutlives.ContinuationOutlives`
  gives a run for every registered continuation target open to API keys, `SessionOutlives` the registered
  session target as such a case. `WorkloadChain.ContinuationNestsIff` is the exact condition: the subject's
  credential itself ends by then. `ExpiriesNest` states the bounds that always hold.

## Model

| member | source | states |
|---|---|---|
| `TenantLifecycle.Project` | internal/biz/tenant_lifecycle.go:128-167 | an applied event advances the position and the tenant version by exactly one; any other accepted outcome changes neither fact nor position |
| `TenantLifecycle.Observe` | internal/biz/tenant_lifecycle.go:172-189 | any outcome but a fresh observation leaves the heartbeat and its receipt time untouched |
| `TenantLifecycle.Activate` | internal/biz/tenant_lifecycle.go:203-208 | a newly activated pipeline is fresh at no instant |
| `TenantReplication.Incremented` | internal/data/governance_snapshot_rebuild.go:355-370 | a catch-up increment moves the shadow generation by exactly one position |
| `TenantReplication.Advance` | internal/data/governance_snapshot_rebuild.go:325-372 | a catch-up page never moves a shadow generation backwards or to another epoch |
| `TenantReplication.AdvanceKeeps` | internal/data/governance_snapshot_rebuild.go:341-370 | whatever every single increment keeps, a whole page keeps |
| `TenantReplication.StepNeverRegresses` | internal/data/governance_lifecycle.go:22-110 | for arbitrary input: no tenant loses a version, changes status under one or leaves disabled; the position never falls; frozen while a snapshot is required |
| `TenantReplication.RunNeverRegresses` | internal/data/governance_snapshot_rebuild.go:375-402 | the same over any run, activations included, with every receipt kept unchanged |
| `TenantReplication.NothingSilentlySkipped` | internal/biz/tenant_lifecycle.go:124-155 | an accepted event is inside the applied prefix or a snapshot is required |
| `TenantReplication.RedeliveryIsNoOp` | internal/data/governance_lifecycle.go:38-47 | a redelivery at any later time reports the first outcome as a duplicate and changes nothing |
| `TenantReplication.WatermarksNeverFall` | internal/biz/tenant_lifecycle.go:180-188 | for arbitrary input the held watermarks only rise; only an activation drops the heartbeat |
| `TenantReplication.SupersededBuildIsAbandoned` | internal/data/governance_snapshot_rebuild.go:112-123 | a build whose base is no longer live neither catches up nor goes live |
| `TenantReplication.ActivationIsComplete` | internal/data/governance_snapshot_rebuild.go:375-402 | going live covers every retained event and reported commit of the epoch and starts at exactly the caught-up position |
| `TenantReplication.GoesLiveIff` | internal/data/governance_snapshot_rebuild.go:375-402 | a build goes live exactly when it was started against what is live, reaches everything retained and reported of its epoch, is not behind the applied position and takes no tenant back; with nothing live it always may |
| `TenantReplication.LiveStaysSpent` | internal/data/governance_snapshot_rebuild.go:375-402 | in every run the live generation is one that was activated, so it is never activated again |
| `LifecycleRefinement.NextApplies` | internal/biz/tenant_lifecycle.go:148-166 | the owner's next entry is applied to a prefix, neither refused nor taken for a gap |
| `LifecycleRefinement.ProjectPublished` | internal/biz/tenant_lifecycle.go:128-167 | the owner's events never conflict; they apply exactly when next in the current epoch with no snapshot outstanding |
| `LifecycleRefinement.AdvancePrefix` | internal/data/governance_snapshot_rebuild.go:325-372 | catch-up over true receipts leaves a prefix fold at its own position |
| `LifecycleRefinement.ReachableIsPrefix` | internal/biz/tenant_lifecycle.go:128-208 | over any run with losses, duplicates, gaps, rebuilds and epoch changes the live facts are the owner's fold of exactly the first `applied` entries |
| `LifecycleRefinement.FreshMissesOnlyRecent` | internal/biz/tenant_lifecycle.go:191-196 | every entry missing from a fresh projection was committed less than 30 seconds ago |
| `LifecycleRefinement.ViewAgreesWithFresh` | migrations/202609160001_governance_integration.sql:138-147 | the reader's view deadline and the service's freshness rule agree on every reachable store |
| `LifecycleRefinement.OnlyNewObservationsRenew` | internal/biz/tenant_lifecycle.go:172-189 | only a heartbeat not kept before, of this epoch and observed later, renews the window |
| `LifecycleRefinement.NeverFreshWithoutObservation` | internal/biz/tenant_lifecycle.go:198-208 | after an activation no run, however long, is ever fresh before a new heartbeat is observed in it |
| `LifecycleRefinement.NextDeliveryApplies` | internal/data/governance_lifecycle.go:36-110 | the next event under an unused identity is applied, without conflict, and adds one receipt |
| `LifecycleRefinement.BacklogCatchesUp` | internal/data/governance_lifecycle.go:22-110 | in-order delivery of the rest reaches it all without a new snapshot |
| `LifecycleRefinement.LongerPrefixCovers` | internal/data/queries/governance_snapshot_rebuild.sql:43-51 | a longer prefix of one owner's log always covers a shorter one |
| `LifecycleRefinement.AdvanceReachesEnd` | internal/data/governance_snapshot_rebuild.go:325-372 | over a complete backlog a long enough page takes a build to its end |
| `LifecycleRefinement.RebuildGoesLive` | internal/data/governance_snapshot_rebuild.go:164-402 | a truthful snapshot, caught up and activated, makes exactly the owner's prefix live |
| `LifecycleRefinement.HeartbeatFreshens` | internal/biz/tenant_lifecycle.go:172-196 | a complete projection is fresh for 30 seconds after each new heartbeat at its count, an idle owner's included |
| `LifecycleRefinement.RebuildBecomesFresh` | internal/data/governance_snapshot_rebuild.go:164-402 | from every reachable store, the first included, a rebuild and one heartbeat make the projection fresh |
| `LifecycleDecisions.WholeIff` | internal/biz/tenant_lifecycle.go:45-106 | which events, heartbeats and envelopes are valid |
| `LifecycleDecisions.ProjectedExactly` | internal/biz/tenant_lifecycle.go:128-167 | which event is applied, in conflict, counted or asks for a snapshot, and the position and fact it leaves |
| `LifecycleDecisions.ObservedExactly` | internal/biz/tenant_lifecycle.go:172-189 | which heartbeat is taken, older, in conflict or of another epoch |
| `LifecycleDecisions.FreshIff` | internal/biz/tenant_lifecycle.go:191-196 | everything known is applied and both times of the last observation are less than 30 seconds old |
| `LifecycleDecisions.ActivatedExactly` | internal/biz/tenant_lifecycle.go:203-208 | the pipeline a new generation starts with |
| `LifecycleDecisions.ReceivedExactly` | internal/data/governance_lifecycle.go:22-110 | when a delivery is kept and what it changes; a redelivery changes nothing |
| `LifecycleDecisions.LoadedIff` | internal/data/governance_snapshot_rebuild.go:164-217 | when a snapshot begins a build, and the build it begins |
| `LifecycleDecisions.IncrementEndsOrMoves` | internal/data/governance_snapshot_rebuild.go:341-370 | a missing or unfit increment ends the build, any other moves it by one |
| `LifecycleDecisions.IncrementedIff` | internal/data/governance_snapshot_rebuild.go:341-370 | which increment applies plainly |
| `CoreProjection.Project` | internal/biz/core_lifecycle_projection.go:88-117 | a version gap leaves a repair owed for a higher version |
| `CoreProjection.RedeliveryIdempotent` | internal/biz/core_lifecycle_projection.go:88-117 | repeating any accepted message changes nothing |
| `CoreProjection.RunLaws` | internal/biz/core_lifecycle_projection.go:86-117 | versions never fall, repair is sticky with a required version above the version, disabled never advances, and every accepted version is reached or required |
| `CoreProjection.FullIsLast` | internal/biz/core_lifecycle_projection.go:113-116 | the projection of a full history is its last record |
| `CoreProjection.DeliveredStaysAtPrefix` | internal/biz/core_lifecycle_projection.go:88-117 | any true message leaves the projection at a prefix; at the next or the base version it records the message whole |
| `CoreProjection.AnyOrderStaysAtPrefix` | internal/biz/core_lifecycle_projection.go:86-117 | any order, loss and repetition of true messages never conflicts and stays a prefix fold |
| `CoreProjection.SnapshotAgreesWithFullHistory` | internal/biz/core_lifecycle_projection.go:99-108 | a snapshot at k with k+1..n agrees with the history 1..n on version and status, and wholly after any event at k or later |
| `CoreProjection.GapOnDisabledStillAsksForRepair` | internal/biz/core_lifecycle_projection.go:109-115 | on a disabled tenant the next version conflicts and a later one still asks for repair |
| `CoreProjection.ProjectedExactly` | internal/biz/core_lifecycle_projection.go:88-117 | which message is recorded, counted, asks for repair or is refused |
| `CoreProjection.ValidIff` | internal/biz/core_lifecycle_projection.go:40-84 | which messages are valid; only lifecycle messages carry a fact |
| `BootstrapRuns.StepKeepsInv` | internal/data/core_bootstrap_dispatcher.go:61-214 | every step keeps job, record, lease and operation invariants |
| `BootstrapRuns.FinishJobSucceeds` | internal/data/core_bootstrap_dispatcher.go:61-66 | the record slot and lease of a claim are always free when it is closed |
| `BootstrapRuns.RecoverKeepsInv` | internal/data/core_bootstrap_dispatcher.go:117-133 | closing an abandoned claim is never refused and keeps the invariants |
| `BootstrapGuarantees.AttemptRecordsAreContiguous` | internal/data/core_bootstrap_dispatcher.go:86-214 | attempt records are exactly 1..n, n one less while claimed; leases never repeat; a cycle never passes 20; no attempt is deferred |
| `BootstrapGuarantees.OnlyTheCurrentLeaseSaves` | internal/data/core_bootstrap_dispatcher.go:174-192 | saving without the current lease is refused and changes nothing; with it, exactly that attempt is recorded |
| `BootstrapGuarantees.StaleSaveIsRefusedForever` | internal/data/core_bootstrap_dispatcher.go:181-192 | a claim once recorded can never be saved again in any continuation |
| `BootstrapGuarantees.ClassifiedFailureIsAccepted` | internal/biz/core_bootstrap_dispatcher.go:57-78 | every classification is one the queue accepts for any claim it handed out, which holds the lease |
| `BootstrapGuarantees.FailureIsFiledAs` | internal/biz/core_bootstrap_dispatcher.go:57-78 | which failures end the cycle at once and which are tried again, and the code each is filed under |
| `BootstrapGuarantees.LiveLeaseExcludes` | internal/data/core_bootstrap_dispatcher.go:117-124 | while a lease runs nobody else gets the job |
| `BootstrapGuarantees.LeaseIsEarned` | internal/data/core_bootstrap_dispatcher.go:134-152 | a lease runs 30 seconds, on a job that is pending, due, unsettled and, to expire, past expiry |
| `BootstrapGuarantees.AbandonedClaimIsClosed` | internal/data/core_bootstrap_dispatcher.go:117-133 | an expired claim is closed under its own number and lease, done exactly when settled, in attention exactly when the cycle is spent |
| `BootstrapGuarantees.SaveIsExact` | internal/data/core_bootstrap_dispatcher.go:191-211 | a save leaves done exactly when settled, attention exactly when final or spent, and otherwise pending until its retry time |
| `BootstrapGuarantees.SaveFlagsAttention` | internal/data/core_bootstrap_dispatcher.go:195-211 | attention is reported exactly for a job left so or an operation already so |
| `BootstrapGuarantees.RetryDelayIsDoubling` | internal/biz/core_bootstrap_dispatcher.go:79-84 | the queue's wait is the doubling law capped at 30 seconds |
| `BootstrapGuarantees.RetryWaitsOut` | internal/data/core_bootstrap_dispatcher.go:205-211 | a retryable failure is not claimed again before its delay has passed |
| `BootstrapGuarantees.OneInvitationPerOperation` | internal/data/core_bootstrap_worker.go:197-250 | at most one invitation per operation, the same one in every later state |
| `BootstrapGuarantees.InvitationNeedsAuthority` | internal/biz/core_bootstrap_worker.go:84-171 | an invitation is made only for an untouched operation under current authority and a fresh active tenant, at generation 1 for seven days |
| `BootstrapGuarantees.ReissueMovesOneGeneration` | internal/biz/core_bootstrap_administration.go:74-176 | a reissue keeps the invitation, raises its generation by one and reopens the operation |
| `BootstrapGuarantees.RetryOpensOneCycle` | internal/data/core_bootstrap_job_administration.go:15-64 | a retry reopens exactly an unsettled job in attention, with a new cycle and its history kept |
| `BootstrapGuarantees.ReconcileIsIdempotent` | internal/biz/core_bootstrap_worker.go:84-171 | initializing again, at any later time, returns the first invitation or is refused, and changes nothing |
| `BootstrapGuarantees.ExpiryTouchesOnlyItsGeneration` | internal/biz/core_bootstrap_worker.go:175-241 | an expiry for g acts exactly when the waiting invitation is still at g and past expiry, on both clocks |
| `BootstrapGuarantees.StaleExpiryIsHarmless` | internal/biz/core_bootstrap_administration.go:146-160 | after a reissue no older expiry job ever changes anything |
| `BootstrapGuarantees.DoneMeansSettledForever` | internal/data/core_bootstrap_dispatcher.go:70-85 | a job is done only when the operation settles it, and both stay so |
| `BootstrapDecisions.ReconciledIff` | internal/biz/core_bootstrap_worker.go:84-171 | an initialization succeeds exactly with an earlier result or with everything ready, and then makes one invitation for seven days |
| `BootstrapDecisions.ReconcileRefusalsAreTold` | internal/biz/core_bootstrap_worker.go:84-171 | what each refused initialization is told |
| `BootstrapDecisions.ExpiredIff` | internal/biz/core_bootstrap_worker.go:175-241 | an expiry succeeds exactly with nothing to expire or with the due invitation of its generation, and then expires that |
| `BootstrapDecisions.ExpireRefusalsAreTold` | internal/biz/core_bootstrap_worker.go:175-241 | what each refused expiry is told |
| `BootstrapDecisions.ReissuedIff` | internal/biz/core_bootstrap_administration.go:74-176 | when a reissue succeeds, and that it opens the next generation for seven days |
| `BootstrapDecisions.ReissueRefusalsAreTold` | internal/biz/core_bootstrap_administration.go:74-176 | what each refused reissue is told |
| `BootstrapDecisions.RetriedIff` | internal/data/core_bootstrap_job_administration.go:15-64 | an operator's retry succeeds exactly on a job left in attention at the seen attempt whose work is still to be done |
| `BootstrapDecisions.RetryRefusalsAreTold` | internal/data/core_bootstrap_job_administration.go:15-64 | what each refused retry is told |
| `BootstrapDecisions.LeasedIff` | internal/data/core_bootstrap_dispatcher.go:92-153 | exactly a pending, due and unsettled job is leased, for 30 seconds under its next number |
| `BootstrapDecisions.ClaimFailsIff` | internal/data/core_bootstrap_dispatcher.go:92-153 | a claim fails only for a candidate that is no job, and then writes nothing |
| `BootstrapDecisions.SavedIff` | internal/data/core_bootstrap_dispatcher.go:163-214 | a save succeeds exactly for the claim in hand, and never defers |
| `BootstrapDecisions.SavedExactly` | internal/data/core_bootstrap_dispatcher.go:191-211 | the attempt record and the job as a save leaves them |
| `BootstrapDecisions.SavedAfterDoubling` | internal/data/core_bootstrap_dispatcher.go:205-211 | a retry waits the doubling law of its place in the cycle |
| `BootstrapDecisions.AcceptedIff` | internal/data/invitation_bootstrap.go:51-78 | exactly a pending invitation of a waiting operation is accepted |
| `BootstrapDecisions.EndedExactly` | internal/data/queries/tenant_invitations.sql:24-26 | a pending invitation ends once, and a superseded operation is over |
| `BootstrapQueue.DispatchWorks` | internal/biz/core_bootstrap_dispatcher.go:85-119 | every claimed job is worked on and saved, and nothing else is |
| `BootstrapQueue.ReportIsExact` | internal/biz/core_bootstrap_dispatcher.go:100-119 | when a dispatch reports attention, a failure, a refusal or nothing |
| `BootstrapQueue.Store.CloseLease` | internal/data/core_bootstrap_dispatcher.go:61-66 | record and lease close together or not at all |
| `BootstrapQueue.Store.ClaimCandidate` | internal/data/core_bootstrap_dispatcher.go:92-153 | one candidate's transaction, rolled back on error |
| `BootstrapQueue.Store.ClaimNext` | internal/data/core_bootstrap_dispatcher.go:86-162 | the candidate loop stops at the first lease or error |
| `BootstrapQueue.Store.SaveResult` | internal/data/core_bootstrap_dispatcher.go:163-214 | saving equals its specification, refusals changing nothing |
| `BootstrapQueue.Store.ReconcileWork` | internal/biz/core_bootstrap_worker.go:84-171 | the worker's initialization equals its specification |
| `BootstrapQueue.Store.ExpireWork` | internal/biz/core_bootstrap_worker.go:175-241 | the worker's expiry equals its specification |
| `BootstrapQueue.Store.DispatchNext` | internal/biz/core_bootstrap_dispatcher.go:85-119 | one dispatch equals claim, work, classify and save with its exact report (a lost lease is none, attention outranks a failure), and is a run of the machine all guarantees speak of |
| `BrokerRuns.ReceiveStores` | internal/data/core_broker.go:204-284 | a receipt keeps exactly this position, event and bytes; an event already accepted leaves the projection untouched |
| `BrokerRuns.ReceiveSkipsQuarantine` | internal/data/core_broker.go:175-200 | a quarantined position is never applied by ordinary receipt, and is reported only for the same bytes and subject |
| `BrokerRuns.AcknowledgedMeansKept` | internal/biz/core_broker.go:63-93 | in every run an acknowledged position has its own bytes committed as a receipt or in quarantine |
| `BrokerRuns.OneDeliveryOutstanding` | internal/data/core_nats.go:181-236 | at most one delivery is held; it is the broker's outstanding, unacknowledged one |
| `BrokerRuns.NothingOvertakes` | internal/data/core_nats.go:181-236 | until a delivery is acknowledged every run fetches only it and acknowledges nothing |
| `BrokerRuns.QuarantineIsFinal` | internal/data/core_broker.go:286-336 | a position quarantined before receipt is never received by the ordinary path, and its row never changes |
| `BrokerRuns.AcceptedEventAppliesOnce` | internal/data/core_broker.go:236-264 | no later receipt of an accepted event moves the projection |
| `BrokerRuns.RedeliveryIsStable` | internal/data/core_broker.go:265-284 | after a lost acknowledgement the same delivery is accepted without change |
| `BrokerRuns.ReceiptNeedsAuthority` | internal/data/core_broker.go:204-226 | a receipt names the current publisher and receiver, two principals, on a configured route of its kind |
| `BrokerRuns.EveryRunKeepsOneAuthority` | internal/data/core_broker.go:236-246 | all receipts of one event were accepted under one authority for one content |
| `BrokerRuns.ReceivedIff` | internal/data/core_broker.go:204-284 | when a delivery is received, and the one receipt then kept |
| `BrokerRuns.RefusalsAreTold` | internal/data/core_broker.go:204-284 | what each refused receipt is: authority denied, content in conflict, form invalid |
| `BrokerRuns.QuarantineComesFirst` | internal/data/core_broker.go:175-200 | quarantine is looked at before anything is applied |
| `BrokerRuns.QuarantinedExactly` | internal/data/core_broker.go:286-336 | a first quarantine keeps the whole message and reason, a repetition the first |
| `BrokerRuns.HandledExactly` | internal/biz/core_broker.go:63-85 | a delivery may be acknowledged, is refused under its reason, or is asked for again, each exactly when its receipt ended so |
| `BrokerRuns.UnavailableIsRetried` | internal/biz/core_broker.go:83-85 | an unavailable database or unseen commit quarantines and acknowledges nothing and leaves the delivery to be fetched again |
| `BrokerRuns.QuarantineHasItsReason` | internal/biz/core_broker.go:69-93 | in every run whatever is quarantined, and whatever is acknowledged without a receipt, was refused at some step for the recorded reason |
| `BrokerReceiver.Receiver.Next` | internal/data/core_nats.go:181-215 | the slot refuses a second delivery while one is pending |
| `BrokerReceiver.Receiver.FinishDelivery` | internal/data/core_nats.go:216-236 | only the pending id finishes, and the slot is emptied even when the broker did not confirm |
| `BrokerReceiver.Receiver.ReceiveNext` | internal/biz/core_broker.go:63-93 | a call equals its specification, of which the outcome laws speak, and is a run of the machine all guarantees speak of; only a durable delivery ends without error |
| `BrokerReceiver.CallOutcome` | internal/biz/core_broker.go:63-93 | what one whole call does to storage and broker for each end of its receipt |
| `DlqReplay.Transact` | internal/biz/core_dlq_administration.go:207-271 | a refused replay changes nothing |
| `DlqReplay.TransactStores` | internal/data/core_dlq_administration.go:127-159 | a replay applies the retained original and only grows receipts |
| `DlqReplay.RecordFailure` | internal/data/core_dlq_administration.go:187-232 | recording a failure applies no event, result or success |
| `DlqReplay.StepKeepsInv` | internal/biz/core_dlq_administration.go:184-295 | every interleaving of replays, records, crashes and ordinary receipts keeps log and open calls consistent |
| `DlqReplay.NumbersAreContiguous` | migrations/202609140007_core_broker_dlq_replay.sql:36-47 | an entry's attempts are numbered 1..n without gap |
| `DlqReplay.QuarantinedIsAppliedIffLogged` | internal/data/core_dlq_administration.go:127-232 | in every run a quarantined delivery gains a stored receipt, of the retained bytes, exactly when a successful replay of it was logged |
| `DlqReplay.ReplayLogIsExact` | internal/biz/core_dlq_administration.go:184-295 | in every run numbers are contiguous, no id stands for two attempts, and a committed replay is exactly one with a success row, its position holding a receipt |
| `DlqReplay.FailureRecordIsTruthful` | internal/data/core_dlq_administration.go:195-231 | an uncertain commit is left alone exactly when it did apply; otherwise one failed attempt with the next number is added |
| `DlqReplay.SuccessIsReplayed` | internal/biz/core_dlq_administration.go:225-239 | later requests change nothing and get the stored result exactly while admitted and unexpired |
| `DlqReplay.FirstReplayAppliesIff` | internal/biz/core_dlq_administration.go:207-271 | a first request applies exactly when both rounds of checks pass, the entry is as it was seen and its receipt succeeds |
| `DlqReplay.ReplayRefusalsAreTold` | internal/biz/core_dlq_administration.go:297-318 | what each refused replay is filed under |
| `DlqReplay.ReplayedExactly` | internal/biz/core_dlq_administration.go:184-295 | whether a replay's writes stand, and whether its call knows |
| `DlqReplay.KindIsOutcome` | internal/biz/core_dlq_administration.go:245-262 | how a first success is reported |
| `DlqReplay.ReplayDesk.Transaction` | internal/biz/core_dlq_administration.go:207-271 | the replay transaction equals its specification |
| `DlqReplay.ReplayDesk.FailureTransaction` | internal/data/core_dlq_administration.go:187-232 | the failure transaction equals its specification |
| `DlqReplay.ReplayDesk.ReplayEntry` | internal/biz/core_dlq_administration.go:184-295 | a call replies only with a seen, committed success, and is otherwise a run that settles or abandons its attempt |
| `RefreshTokens.EveryRunKeepsOneChain` | internal/biz/platform_session.go:53-150 | exactly one active token while the family is active, consumed tokens form one replacement chain, the absolute deadline is fixed, reuse is audited at most once, and an active family has an active grant and session |
| `RefreshTokens.BossRefreshSucceedsIff` | internal/biz/platform_session.go:170-181 | a platform refresh succeeds exactly for the active token inside every deadline and in good standing; every refusal is told its reason |
| `RefreshTokens.ConsoleRefreshNeedsLockedState` | internal/data/session_postgres.go:540-576 | a tenant refresh needs all of it to hold on the locked state, whatever was read before |
| `RefreshTokens.ConsoleRefreshSucceedsIff` | internal/biz/session.go:154-286 | a tenant refresh succeeds exactly when alive and unobjectionable both when read and when locked, and unchanged in between |
| `RefreshTokens.ConsoleRefusalsAreTold` | internal/biz/session.go:530-555 | what each refused tenant refresh is told |
| `RefreshTokens.RefreshNestsDeadlines` | internal/biz/session.go:571-588 | access expiry is within idle expiry within the unchanged absolute one, each the earliest of its limits |
| `RefreshTokens.ReuseRevokes` | internal/data/session_postgres.go:217-266 | at either console a consumed token is refused and leaves the family revoked without a live token, with one audit and a new grant version if it was active |
| `RefreshTokens.DeadFamilyNeverRefreshes` | internal/biz/platform_session.go:170-181 | once family or grant is dead no refresh of it ever succeeds |
| `RefreshTokens.ReplayEndsTheFamily` | internal/biz/platform_session.go:71-80 | at either console a token presented twice locks out its holder and everyone else |
| `RefreshTokens.RevocationIsFinal` | internal/data/platform_session.go:85-117 | no step lifts a revocation or revives a consumed token |
| `RefreshTokens.LogoutSignsOut` | internal/data/session_postgres.go:268-350 | logging out with any token of the session ends session, grant, family and live token, each version rising once; an unknown token changes nothing |
| `RefreshTokens.RevocationSignsOut` | internal/data/target_slice.go:632-663 | so does revoking the principal's sessions |
| `RefreshTokens.SigningOutIsFinal` | internal/biz/platform_session.go:128-150 | after either no refresh succeeds in any continuation |
| `RefreshTokens.PlatformSession.RotateTo` | internal/data/platform_session.go:68-84 | consume, replace and slide equal the rotation |
| `RefreshTokens.PlatformSession.RefreshSession` | internal/biz/platform_session.go:53-126 | state and reply equal the specification |
| `RefreshTokens.PlatformSession.LogoutSession` | internal/biz/platform_session.go:128-150 | logout revokes session, grant, family and live token, once |
| `WorkloadRegistry.KeyInjective` | workloadregistry/registry.go:81-81 | a composite key of separator-free parts reads back uniquely against any query |
| `WorkloadRegistry.EndpointInjective` | workloadregistry/registry.go:376-382 | so does an endpoint key |
| `RegistryIndex.SetWithin` | workloadregistry/registry.go:254-266 | accepts exactly the non-empty, repetition-free lists of allowed values |
| `RegistryIndex.SourcesAreValid` | workloadregistry/registry.go:230-250 | accepts exactly 1 to 16 valid sources with distinct operations |
| `RegistryIndex.TargetIsValid` | workloadregistry/registry.go:180-252 | accepts exactly the valid targets |
| `RegistryForms.NameIff` | workloadregistry/registry.go:77-79 | which texts are names |
| `RegistryForms.AudienceIff` | workloadregistry/registry.go:77-79 | which texts are audiences |
| `RegistryForms.RpcMatches` | workloadregistry/registry.go:77-79 | every service and method name make a method text |
| `RegistryForms.RpcParts` | workloadregistry/registry.go:77-79 | every method text reads as a service and a method name |
| `RegistryForms.HttpPathIff` | workloadregistry/registry.go:180-252 | which paths are clean |
| `RegistryForms.SourceIff` | workloadregistry/registry.go:180-252 | which sources are valid |
| `RegistryForms.TargetIff` | workloadregistry/registry.go:180-252 | which targets of each kind are valid |
| `RegistryForms.DocumentIff` | workloadregistry/registry.go:102-178 | which documents are accepted |
| `RegistryForms.AllowedIff` | workloadregistry/registry.go:370-374 | which subjects a source allows |
| `RegistryIndex.Parse` | workloadregistry/registry.go:102-178 | accepts exactly the documents the rule admits and indexes exactly their targets |
| `RegistryIndex.LookupIsScan` | workloadregistry/registry.go:316-331 | lookup answers as a linear scan does, for any two strings |
| `RegistryIndex.MethodIsScan` | workloadregistry/registry.go:332-341 | so does lookup by RPC |
| `RegistryIndex.HttpIsScan` | workloadregistry/registry.go:374-386 | so does lookup by exact audience, method and path |
| `RegistryGuarantees.QueriesAreScans` | workloadregistry/registry.go:316-386 | all queries of an accepted document are scans |
| `RegistryGuarantees.ReceiverDepthIsOne` | workloadregistry/registry.go:161-169 | exactly caller targets have a receiver, which has none and is enabled if they are |
| `RegistryGuarantees.GroupsArePairs` | workloadregistry/registry.go:170-176 | authority groups are symmetric pairs of enabled HTTP targets |
| `RegistryGuarantees.RevisionIgnoresOrderOnly` | workloadregistry/registry.go:141-158 | two revisions agree exactly when the targets differ in list order at most |
| `RegistryGuarantees.NormalSourceIff` | workloadregistry/registry.go:143-148 | normal forms of sources agree exactly when they differ in the order of kinds at most |
| `RegistryGuarantees.PermutedDocumentsAgree` | workloadregistry/registry.go:342-347 | permuting the lists of a document changes no revision |
| `AuthorityRevision.WorkloadAuthorityRevision` | internal/biz/workload_authority.go:40-79 | succeeds exactly for a qualifying caller, with the value of the snapshot; an unsound identity is told apart |
| `AuthorityRevision.QualifiesIff` | internal/biz/workload_authority.go:40-79 | which callers and snapshots qualify, the identity the same in both |
| `AuthorityRevision.BothOperationsShareTheRevision` | internal/biz/workload_authority.go:38-79 | both operations of a group get one and the same value |
| `AuthorityRevision.RevisionDetectsEveryChange` | internal/biz/workload_authority.go:51-78 | equal values mean equal audience, identity, grants, versions and target revisions |
| `WorkloadCredentials.NarrowExpiry` | internal/biz/workload_invocation.go:208-215 | the narrowing loop computes the earliest set limit, in whole seconds |
| `WorkloadChain.DelegationFacts` | internal/biz/workload_invocation.go:175-236 | a delegation is for a live token's current caller and the subject the permission check named |
| `WorkloadChain.PermittedIff` | internal/biz/authorization.go:359-408 | the permission check passes exactly an unexpired access token whose session grant stands, or an active, unexpired key, and names whom it stands for |
| `WorkloadChain.DelegationNeedsStanding` | internal/biz/workload_invocation.go:175-236 | a delegation is issued on such a credential only |
| `WorkloadChain.VerifiedSubjectStands` | internal/biz/workload_invocation.go:348-394 | whenever a delegation or continuation verifies, its key or session still stands at the version it was issued for |
| `WorkloadChain.VerifyFacts` | internal/biz/workload_invocation.go:238-292 | a verification rests on one live token and delegation of the same caller and binding, and passes them on |
| `WorkloadChain.ContinuationFacts` | internal/biz/workload_invocation.go:413-451 | a verified continuation is genuine, live, and for its own receiver and binding |
| `WorkloadChain.TokenNeedsAuthority` | internal/biz/workload_invocation.go:146-173 | a token needs the identity's current grant on an enabled caller target at its reviewed revision |
| `WorkloadChain.DelegationNeedsAuthority` | internal/biz/workload_invocation.go:175-203 | a delegation needs a registered invocation of the token's own target and an allowed kind of subject |
| `WorkloadChain.VerifyNeedsAuthority` | internal/biz/workload_invocation.go:238-292 | a verification needs the receiver grant, one environment, the caller's current identity, the matching policy and the subject's standing |
| `WorkloadChain.ContinuationNeedsAuthority` | internal/biz/workload_invocation.go:413-451 | a recheck needs the same receiver, the same receiver grants and the subject's standing |
| `WorkloadDecisions.ResolvedIff` | internal/biz/workload.go:62-77 | a peer resolves to exactly its bound principal and binding at their versions |
| `WorkloadDecisions.AuthorizedIff` | internal/biz/workload.go:87-108 | authority is a sound identity, an enabled target and an active grant |
| `WorkloadDecisions.CurrentCallerIff` | internal/biz/workload_invocation.go:294-310 | a caller is current exactly when nothing it was issued under has changed |
| `WorkloadDecisions.FindSourceIsFirst` | workloadregistry/registry.go:362-369 | a source is found exactly when one has the operation and mode |
| `WorkloadDecisions.RegisteredIff` | internal/biz/workload_invocation.go:54-62 | which requests name a registered invocation, and what the others are told |
| `WorkloadDecisions.CurrentSubjectIff` | internal/biz/workload_invocation.go:348-394 | when a subject may still act, and what it is told otherwise |
| `WorkloadDecisions.TokenIssuedIff` | internal/biz/workload_invocation.go:146-173 | when a workload token is issued, which one, and what each refusal is told |
| `WorkloadDecisions.DelegationIssuedIff` | internal/biz/workload_invocation.go:175-236 | when a delegation is issued and which one |
| `WorkloadDecisions.DelegationRefusalsAreTold` | internal/biz/workload_invocation.go:175-236 | what each refused delegation is told |
| `WorkloadDecisions.VerifiedIff` | internal/biz/workload_invocation.go:238-292 | when an invocation verifies, and the continuation it then hands out |
| `WorkloadDecisions.VerifyRefusalsAreTold` | internal/biz/workload_invocation.go:238-292 | what each refused verification is told |
| `WorkloadDecisions.ContinuationVerifiedIff` | internal/biz/workload_invocation.go:413-451 | when a continuation verifies again |
| `WorkloadDecisions.RecheckRefusalsAreTold` | internal/biz/workload_invocation.go:413-451 | what each refused recheck is told |
| `WorkloadDecisions.PermissionRefusalsAreTold` | internal/biz/authorization.go:359-408 | what an unpermitted credential is told |
| `WorkloadChain.VerifiedTracesToDelegation` | internal/biz/workload_invocation.go:175-292 | every verified invocation traces to the one step of the run that issued its very delegation, at which the permission check passed for its subject |
| `WorkloadChain.ContinuationTracesToDelegation` | internal/biz/workload_invocation.go:413-451 | a verified continuation traces to one verification by its receiver and the earlier step that issued the delegation verified there |
| `WorkloadChain.ExpiriesNest` | internal/biz/workload_invocation.go:205-217 | issued expiries nest, and an invocation verifies only before all of them |
| `WorkloadChain.ContinuationNestsIff` | internal/biz/workload_invocation.go:276-291 | a continuation ends by its delegation's, or its token's, expiry exactly when the subject's credential does |
| `WorkloadOutlives.ContinuationOutlives` | internal/biz/workload_invocation.go:413-451 | a run, for every continuation target and for people and API keys alike, in which the invocation is delegated and verifies and later the continuation still verifies with token and delegation dead |
| `WorkloadOutlives.SessionOutlives` | registrations/workload-targets.v1.json:668-713 | the registered session target is such a case for both kinds of subject |
| `WorkloadVersions.RunKeepsKnown` | internal/biz/workload_invocation.go:294-310 | no credential is ever ahead of the rows it rests on, its receiver's included |
| `WorkloadVersions.RaisedTokenIsDead` | internal/biz/workload_invocation.go:294-310 | a token from before a principal, binding or grant bump neither delegates nor verifies again |
| `WorkloadVersions.RaisedDelegationIsDead` | internal/biz/workload_invocation.go:348-394 | nor does a delegation after a bump of its caller's or its subject's versions |
| `WorkloadVersions.RaisedContinuationIsDead` | internal/biz/workload_invocation.go:413-451 | nor does a continuation after a bump of any principal, binding, grant or key version of its caller, its subject or its receiver |
| `MutationLedger.EffectsAreExactlyOnce` | internal/biz/idempotency.go:62-99 | over any trace each key commits at most one effect, and the state is each executed mutation applied once |
| `MutationLedger.EachKeyCommitsOnce` | internal/biz/idempotency.go:62-99 | the same from the first state: keys on the ledger are exactly those committed, each once |
| `MutationLedger.LaterRequestsReplay` | internal/biz/platform_mutations.go:116-136 | after an effect, seen or not, the key only ever replays, conflicts or expires |
| `MutationLedger.UnauthorizedNeverSeesReceipts` | internal/biz/platform_mutations.go:94-115 | an unauthorized platform caller's reply does not depend on any receipt |
| `MutationLedger.FirstRequestExecutes` | internal/biz/platform_mutations.go:88-157 | exactly a first request of an admitted caller executes, once, with a ledger row kept for a day |
| `MutationLedger.RefusalsAreTold` | internal/biz/platform_mutations.go:88-157 | what each refusal is told, in the order of the checks |
| `MutationLedger.KeyUsableIff` | internal/biz/platform_mutations.go:62-82 | which keys are usable at each boundary |
| `MutationLedger.TrimIsExact` | internal/biz/idempotency.go:43-47 | trimming removes white space at both ends and nothing else |
| `MutationLedger.TrimIdempotent` | internal/biz/idempotency.go:43-47 | a tenant key names the same row however it is padded |
| `MutationLedger.Ledger.Mutate` | internal/biz/platform_mutations.go:88-157 | state, ledger and reply equal the specification |
| `Administrators.ProtectedMeansAlone` | internal/biz/tenant_authorization.go:501-515 | the guard holds exactly for the only administrator |
| `Administrators.UpdateRefusedIffNoneLeft` | internal/biz/tenant_authorization.go:301-381 | an update is refused exactly when it would leave no administrator |
| `Administrators.UnbindRefusedIffNoneLeft` | internal/biz/tenant_authorization.go:441-490 | so is an unbinding |
| `Administrators.EveryRunKeepsAnAdministrator` | internal/biz/platform_membership.go:72-148 | any run at either boundary keeps an administrator able to log in |
| `Administrators.AdministratorIff` | internal/biz/tenant_authorization.go:501-515 | who counts as an administrator able to log in |
| `Administrators.UpdatedIff` | internal/biz/tenant_authorization.go:301-381 | when a member's status changes, what is then stored, and what a refusal is told |
| `Administrators.BoundIff` | internal/biz/platform_membership.go:103-123 | when a role is bound, what is then stored, and what a refusal is told |
| `Administrators.UnboundIff` | internal/biz/tenant_authorization.go:441-490 | when a role is unbound, what is then stored, and what a refusal is told |
| `Administrators.RoleChangesIff` | internal/biz/platform_mutations.go:181-255 | when roles are created, changed and deleted |
| `Administrators.ProtectPlatformAdministrator` | internal/biz/platform_membership.go:50-71 | the counting loop decides exactly the guard |
| `Administrators.PlatformAdministration.UpdateMember` | internal/biz/platform_membership.go:72-102 | stored rows follow the specification |
| `Administrators.PlatformAdministration.BindMember` | internal/biz/platform_membership.go:103-123 | stored rows follow the specification |
| `Administrators.PlatformAdministration.UnbindMember` | internal/biz/platform_membership.go:124-148 | stored rows follow the specification |
| `ApiKeyUsage.NoObservationLostBeyondThrottle` | internal/data/api_key_usage_redis.go:33-123 | over every interleaving what is known of a key is within 15 minutes of its newest observation and never beyond it |
| `ApiKeyUsage.ExactUnlessForgotten` | internal/data/api_key_usage_redis.go:41-47 | the exact maximum survives a step unless and only unless that step removes an entry the row is behind |
| `ApiKeyUsage.FlushKeepsMaximumIff` | internal/data/queries/persistence.sql:1083-1093 | when flushing one entry keeps the maximum, in terms of the stored time |
| `ApiKeyUsage.MaximumIsNotAlwaysKept` | internal/data/queries/persistence.sql:1083-1093 | a concrete use within the throttle that is forgotten |
| `ApiKeyUsage.ObservedExactly` | internal/data/api_key_usage_redis.go:33-84 | an observation keeps the later of two times, for its own member only |
| `ApiKeyUsage.RecordableIff` | migrations/202609080003_tenant_workload_api_key.sql:202-232 | which entries can be recorded |
| `ApiKeyUsage.RecordedExactly` | internal/data/queries/persistence.sql:1083-1093 | recording writes a time more than 15 minutes past the stored one and nothing else |
| `ApiKeyUsage.AcknowledgedExactly` | internal/data/api_key_usage_redis.go:41-47 | an acknowledgement removes what was recorded unless a later use has come in |
| `ApiKeyUsage.FlushClearsPrefix` | internal/data/api_key_usage_redis.go:90-123 | a flush clears exactly the entries before the first that cannot be recorded |
| `ApiKeyUsage.RepeatedFlushEmptiesIff` | internal/data/api_key_usage_redis.go:86-123 | repeated flushes empty the buffer exactly when every entry can be recorded |
| `ApiKeyUsage.ReachableFlushEmptiesIff` | internal/biz/authorization.go:389-410 | in every reachable world they empty it exactly when no buffered key is unrevoked with its workload suspended |
| `ApiKeyUsage.BlockedHeadHoldsEverything` | migrations/202609080003_tenant_workload_api_key.sql:202-232 | while the oldest entry is blocked no flush changes anything |
| `ApiKeyUsage.SuspensionHoldsTheBuffer` | internal/biz/tenant_authorization.go:301-381 | a concrete use followed by a suspension that holds the buffer until the key is revoked |
| `ApiKeyUsage.MemberRoundTrip` | internal/data/api_key_usage_redis.go:125-140 | every written member reads back |
| `ApiKeyUsage.Aggregator.ObserveUse` | internal/data/api_key_usage_redis.go:33-84 | the observe script keeps the larger time |
| `ApiKeyUsage.Aggregator.Flush` | internal/data/api_key_usage_redis.go:90-123 | the flush loop equals its specification and reports how far it came |
| `InvitationToken.PrintedTokenParses` | internal/biz/invitation_password.go:58-86 | a printed token parses to its target exactly when the acceptance rules admit it |
| `InvitationToken.ParsedTokenIsPrinted` | internal/biz/invitation_acceptance.go:84-121 | whatever parses is the printed token of the returned target |
| `InvitationToken.AcceptedIffPrinted` | internal/biz/invitation_password.go:58-86 | accepted and printed strings are the same set |
| `InvitationToken.TokenInjective` | internal/biz/tenant_invitations.go:131-146 | a token identifies its target and its secret |
| `InvitationToken.PrintedForm` | internal/biz/tenant_invitations.go:131-146 | when there is a token, and its text |
| `InvitationToken.AcceptableIff` | internal/biz/invitation_acceptance.go:84-121 | targets are accepted under version 7 identifiers only |
| `UuidText.ParsePrint` | internal/biz/invitation_password.go:64-77 | parsing inverts printing on every identifier |
| `UuidText.ParsedIff` | internal/biz/invitation_acceptance.go:84-121 | every spelling that reads as an identifier |
| `UuidText.SplitJoin` | internal/biz/invitation_acceptance.go:97-97 | splitting inverts joining separator-free parts |
| `UuidText.JoinSplit` | internal/biz/invitation_acceptance.go:97-97 | joining inverts splitting on every string |
| `Backoff.PasswordBackoff` | internal/biz/password_action_notification.go:182-194 | the doubling loop computes min(2^(n-1), 300) seconds without overflow |
| `Backoff.IdentityDelayIsDoubling` | internal/biz/identity_notification.go:121-124 | the shift form is the same law |
| `Backoff.BootstrapDelayIsDoubling` | internal/biz/core_bootstrap_dispatcher.go:79-84 | the Bootstrap delay is min(2^(n-1), 30) seconds, zero below attempt 1 |
| `Backoff.DelaysGrow` | internal/biz/identity_notification.go:121-124 | delays never shrink from attempt to attempt and stay within their caps |
| `Notifications.Failure` | internal/biz/identity_notification.go:114-134 | a failed attempt is rescheduled exactly when not permanent, below 20, and due before expiry |
| `Notifications.FailedExactly` | internal/biz/identity_notification.go:114-134 | which failure is tried again, cancelled or left to an operator, and when |
| `Notifications.ClaimedExactly` | internal/data/queries/persistence.sql:581-613 | when a row is claimed, and what a claim writes |
| `Notifications.CheckedExactly` | internal/biz/identity_notification.go:155-171 | what a claim is found to be |
| `Notifications.SentExactly` | internal/biz/identity_notification.go:172-187 | only a cleared claim is sent, and ends delivered or failed |
| `Notifications.FinishedExactly` | internal/data/password_action_notification_outbox.go:84-157 | a claim is saved over its own row version only |
| `Notifications.CancelledExactly` | internal/data/queries/persistence.sql:547-560 | withdrawing cancels exactly what is still cancellable |
| `Notifications.IdentityRunsAreBounded` | internal/biz/identity_notification.go:144-188 | in every run at most 20 submissions, none repeated, never rescheduled at or after expiry |
| `Notifications.PasswordAttemptsFitLifetime` | internal/data/queries/persistence.sql:581-613 | for any lifetime, an attempt numbered n was made only if the action outlives the n-th earliest claim |
| `Notifications.PasswordRunsAreBounded` | internal/biz/password_action_notification.go:99-194 | within the thirty minutes of an action at most 14 attempts and submissions, none repeated, never rescheduled at or after expiry |
| `Notifications.SubmissionsPossibleIff` | internal/biz/password_action_notification.go:99-194 | for any lifetime n submissions are possible exactly when the n-th earliest claim precedes expiry |
| `Notifications.FourteenIsExact` | internal/biz/password_action.go:15-15 | 14 submissions happen in some run, 15 in none, and 21 would take a life beyond 3811 seconds |
| `Notifications.DispatchSettlesIff` | internal/biz/password_action_notification.go:155-180 | when one dispatch brings a due row to rest |
| `Notifications.SettlesOnlySo` | internal/data/queries/persistence.sql:547-560 | over every run a row comes to rest exactly by a cancellation or by the save of its current claim with a final outcome |
| `Notifications.PasswordPastExpiry` | internal/data/queries/persistence.sql:581-613 | past expiry no password claim is added; with none in flight the row comes to rest exactly by a cancellation |
| `Notifications.IdentityPastExpiry` | internal/biz/identity_notification.go:144-188 | a claim at or past expiry brings an identity row to rest without a submission |
| `Notifications.Outbox.Fail` | internal/biz/identity_notification.go:114-134 | the failure rules of both families equal their specification |
| `Notifications.Outbox.CancelRow` | internal/data/queries/tenant_invitations.sql:37-40 | withdrawing the source cancels what is still cancellable |
| `Notifications.Outbox.DispatchNext` | internal/biz/identity_notification.go:144-188 | a dispatch equals its specification |

## Left out

- Hashes, signatures and JSON: a digest or signed credential is represented by its contents, which makes it injective; JSON syntax, encodings and the exact digests are not modelled.
- Time: one clock value per transaction and database precision (microseconds; milliseconds for key usage, nanoseconds for outboxes and Core effective times); rounding between Go and PostgreSQL is not modelled.
- Snapshot paging, cursors and reader authority: a shadow generation is loaded in one step from consistent facts, and any other reason to give it up is the step `Abandon`.
- Truthful published watermarks: heartbeats are required to report commits truthfully, so a heartbeat refused for a falling published watermark is possible but not characterised.
- TenantReplication.Advance: the 500-increment limit of a page is any number here, so nothing depends on it.
- BootstrapModel.Reconcile: authority, lifecycle, catalogue and access checks are inputs of the step; role, outbox and audit rows written beside the invitation are not modelled.
- BootstrapQueue.Store.ClaimNext: the discovery query is an input (the candidate list), so its order and its limit of 32 are not modelled.
- BrokerModel.ReceiveInTransaction: grants, the creating-fact check and the Bootstrap receipt are inputs of the step.
- DlqReplay.Transact: configuration provenance and human authority are inputs of the step; listings and cursors are not modelled.
- RefreshTokens.EveryRunKeepsOneChain: one family; switching tenants, which also rotates a token, is not modelled, and neither are throttling and the request header checks.
- WorkloadRegistry.ValidTarget: the document is taken as decoded; the raw-byte digest and the duplicate-key scan of the JSON text are not modelled, and a path that `path.Clean` leaves alone is described by its segments.
- RegistryIndex.Parse: returned targets are values, so the independence of returned copies is not at stake.
- WorkloadCredentials.IssueToken: the issue functions are modelled on values, with the audit write as the input `recorded`; the order of signing and audit is not modelled.
- WorkloadCredentials.PeerShape: letters outside ASCII have no case here.
- WorkloadCredentials.CheckPermission: the membership, access, lifecycle and role facts behind a permission are one input (`permits`); policy scopes are not modelled.
- WorkloadCredentials.Verify: signature keys, token size and header checks, and the permission decision's own audit are not modelled; a caller that mints or verifies is taken to be let through by the workload middleware in the same instant.
- MutationLedger.Execute: business mutations are arbitrary functions of the state; audit rows are part of that state.
- Administrators.EveryRunKeepsAnAdministrator: whether a principal can log in is fixed; disabling principals, temporary lockout and lifecycle state are outside these operations.
- ApiKeyUsage.Next: a workload is suspended and revoked key by key, where one membership covers all its keys at once.
- ApiKeyUsage.IsBatch: members with equal times may come in any order, where Redis orders them by text.
- InvitationToken.TenantToken: text is a sequence of characters; non-ASCII text is rejected by both.
- UuidText.Parse: follows the identifier library's documented input forms, the library itself being outside the repository.
- Notifications.Dispatch: one row at a time; rows do not influence each other. Secrets, payload validation and receipt syntax are inputs. Dispatchers' clocks are unrelated, but one's own does not go back between its claim and its save.
- Composition, configuration, connections, TLS, logging and metrics; OIDC and password login; recovery approvals; shadow mode: little state, or none that the protocols above depend on.
