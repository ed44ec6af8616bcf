# Verified models of the console's crash-safe and concurrent cores

The project models the parts of the Hysteria console that must stay right under crashes,
retries and concurrency, and a few exact data cores beside them. Each part has a value-level
model (files, records and steps as functions), the source's operations as classes, methods and
loops proved against it, and theorems about whole runs.

Files are `DurableFile.File`: the visible content together with every content a machine crash
may leave. An atomic write may fail before the replace, become visible without being durable,
or become durable. A crash anywhere between two writes is the later write not happening
followed by a crash step; a crash step may pick any possible content of each file.

| part | modules |
|---|---|
| credential rotation, deletion, revocation | `Credentials`, `RevocationQueue`, `QueueRuns`, `RotationReceipts`, `CredentialProtocol`, `ProtocolInvariant`, `ProtocolSteps`, `RevocationCoverage`, `RequestOutcomes`, `WorkerOutcomes`, `RecordLaws`, `UsersHistory`, `RotationOnce`, `RotationReinstalls`, `DeletionSafety`, `ProtocolWitnesses`, `CredentialServer` |
| binary updater with rollback | `UpdaterProtocol`, `UpdaterSafety`, `UpdaterRuns`, `UpdaterRecovery`, `UpdaterWitnesses`, `Updater` |
| password work limiter | `OrderedTable`, `PasswordWorkLimiter`, `LimiterWindows`, `LimiterEvictions` |
| statistics reader | `StatsWire`, `StatsFormat`, `StatsText` |
| device slots | `DeviceAdmission`, `DeviceSlots`, `StaleCounts` |
| billing calendar | `Calendar`, `BillingCycle` |
| alert claims | `AlertClaims`, `AlertRuns` |
| authorization plan and its cache | `AccessPlan`, `AccessPlanMeaning`, `LandingMeaning`, `UsageMeaning` |
| traffic refresh and reset | `TrafficLedger`, `TrafficConservation` |
| fail-closed static services | `StaticAccess`, `StaticAccessRuns` |
| rule packs | `RulePacks`, `RuleMeaning` |

Assumptions of the credential model: a token with its UUID is one credential; fresh tokens,
nonces and digests never collide; the clock does not go back and a request reads it once.
Under one reading per request the 300 s receipt never outlives the 600 s task.

## What the code does not keep, and when exactly it does

- The worker claims a task, inspects users.json and discards a retired task in three separate
  locked sections. A request that commits under the same key in between loses its task
  (`CollisionLosesTask`). `RunsCoveredExactly` says that this discard is the only way, and
  `RunsAreCovered` that it cannot happen while no request commits the task the worker holds.
- A request's credential can be installed a second time. `ReinstalledExactly`: after the save
  that made it visible some run installs it again if and only if that save was not durable,
  namely a machine crash back to the former content and the replay of the request. What is
  installed and answered stays the same credential from the first receipt on
  (`OneCredentialPerReceipt`, `OneCredentialPerRequest`).
- The updater takes an unsettled live binary for settled in three decisions: reconcile
  reports an interruption before the replacement, a new operation records the binary it
  starts from, and an update whose reinstall failed without a message reports `failed`
  (`UpdaterSafety.TrustsUnsettled`). `StatusFixesBinary` holds for every run without them and
  `TrustIsExact` says that each of them, and no other act, opens a run that misreports;
  `InterruptedReconcileMisreports` and `ScheduleOnUnsettledMisreports` are such runs from the
  start.
- An operation can become `downloading` twice, exactly when the first of these saves was not
  durable (`EnteredAgainExactly`).
- A rollback whose restart fails in an operation that never recorded the replacement leaves a
  barrier that no reconcile can leave (`BarrierCanBeLeftExactly`, `BarrierIsPermanent`,
  reached in `BarrierIsReached`).
- Per-source windows hold over all runs exactly when the global burst is below the number of
  tracked sources, as configured (20 and 1024), or no larger than the source burst
  (`SourceBoundExactly`).
- Device slots: a count older than one already used can overfill them, as can a reservation
  that expires before its device connects (`OvertakingCountOverfills`, `ExpiryOverfills`).
  `SlotsHoldExactly` says for every run, whatever the order of counts and whatever expires,
  exactly when none of its points lets the limit be exceeded; `CountOverfillsExactly` and
  `ExpiryOverfillsExactly` say it for one request and for one expiry.
- Fixed-length cycles without an anchor overlap unless they are one day long
  (`UnanchoredPartitionExactly`); with one they begin exactly when it is not in the future
  (`FixedCycleBegunExactly`).
- A wall clock that steps back, or a delay of the TTL, lets a key be claimed while its first
  holder still dispatches; `ClaimsAreApart` says that while nothing gives the key up this is
  the only way.
- A recovery of a static service and a fail-closed stop share no lock. A stop marked between
  the recovery's look for the marker and its removal loses its recovery intent, with the
  service down and the recovery reporting success (`CrossedStopIsLost`); `IntentSurvives`
  says that no other run loses one.
- Cycle settings are read under another lock than the usage files, and the preserved bytes
  belong to one first day. A change of settings during or after a refresh may lose the user's
  bytes from the displayed total or count some twice: `SettingsChangeExactly` is the equation,
  `ChangeBeforePreserving`, `ChangeBeforeZeroing` and `ChangeAfterRefresh` the exact
  conditions.

## Model

| member | source | states |
|---|---|---|
| `DurableFile.AtomicFile.WriteAtomic` | hysteria/state_store.py:103-132 | an atomic write changes nothing before the replace; after it the new text is visible, and the only possible content after a crash once the directory is synced; an unsynced directory leaves both contents possible |
| `RevocationQueue.TaskQueue.Prepare` | hysteria/revocation_queue.py:103-166 | inserts or refreshes a task, refuses another binding of its key and a 513th task, and keeps the bound in every possible content |
| `RevocationQueue.TaskQueue.AddStaticServices` | hysteria/revocation_queue.py:169-194 | adds services still to be handled and pulls the next attempt forward to now; nothing for an absent task |
| `RevocationQueue.TaskQueue.ClaimDue` | hysteria/revocation_queue.py:197-230 | leases the head of the due tasks (smallest next attempt, creation time, key), and nothing when none is due |
| `RevocationQueue.TaskQueue.ReleaseClaim` | hysteria/revocation_queue.py:233-247 | makes the task due again after the clamped delay without touching its progress |
| `RevocationQueue.TaskQueue.CompleteAttempt` | hysteria/revocation_queue.py:250-297 | records an attempt and removes the task only when it is finished |
| `RevocationQueue.TaskQueue.Discard` | hysteria/revocation_queue.py:300-308 | removes the task and no other |
| `QueueRuns.HistoriesAreFaithful` | hysteria/revocation_queue.py:169-297 | over whole histories `kick_successes` is min(2, trailing successful attempts) and the recorded services are those required and not handled since |
| `QueueRuns.TrailingIsLastAttempts` | hysteria/revocation_queue.py:250-297 | two trailing successes are the last two attempts, whatever happened between them |
| `QueueRuns.CompletionIsEarned` | hysteria/revocation_queue.py:250-297 | an attempt removes the task if and only if the last two attempts succeeded and every service ever required was handled after it was last required |
| `QueueRuns.LeaseEndsFirst` | hysteria/revocation_queue.py:197-247 | while a lease runs the task is claimed again only after a release, attempt or discard of it |
| `QueueRuns.ClaimsAreSeparated` | hysteria/revocation_queue.py:197-292 | two claims of one task less than 15 s apart have a release, an attempt or a discard of it between them |
| `QueueRuns.EveryTaskBecomesClaimable` | hysteria/revocation_queue.py:148-292 | after any run every task is claimable again within 15 s of the last operation, and at most 512 tasks are held |
| `QueueRuns.FinishingMovesBehind` | hysteria/revocation_queue.py:233-308 | finishing another task removes it, and nothing else, from the line before a waiting due task |
| `QueueRuns.WaitingTaskAdvances` | hysteria/revocation_queue.py:197-292 | without arrivals only tasks ahead of a waiting due task are claimed, and each finished claim shortens that line by one |
| `RotationReceipts.ReceiptStore.LookupBound` | hysteria/rotation_recovery.py:141-171 | finds a live receipt only for a session bound to it, pruning expired ones; a failed prune is an error |
| `RotationReceipts.ReceiptStore.Prepare` | hysteria/rotation_recovery.py:174-240 | keeps an existing receipt (user, session and previous generation must match), or adds one expiring after 300 s unless 256 are live |
| `RotationReceipts.ReceiptStore.BindReplacementSession` | hysteria/rotation_recovery.py:243-281 | binds a second session only through a bound one and keeps the last four |
| `RotationReceipts.ReceiptStore.Discard` | hysteria/rotation_recovery.py:284-295 | drops the receipt and no other |
| `RotationReceipts.ReceiptStore.PruneExpired` | hysteria/rotation_recovery.py:120-138 | drops exactly the expired receipts |
| `CredentialServer.Server.RecoverableUserRotation` | hysteria/credential_service.py:191-258 | the request up to its receipt: lookup, account checks, fresh credential or replay, as the transaction `CredentialProtocol.Rotate` |
| `CredentialServer.Server.CommitWithReceipt` | hysteria/credential_service.py:239-306 | receipt first, then the write-ahead task, then the commit |
| `CredentialServer.Server.CommitCanonical` | hysteria/credential_service.py:308-376 | commit, replay, or drop both records when another change superseded the request; `RequestOutcomes.ReplyIsShown` says what an `ok` reply then means |
| `CredentialServer.Server.SaveRotated` | hysteria/credential_service.py:51-86 | a save whose durability is uncertain counts as committed only when the new credential is visibly there |
| `CredentialServer.Server.AdminRotateUser` | hysteria/admin_credential_service.py:43-176 | the administrator rotation: revision check, write-ahead task, commit |
| `CredentialServer.Server.DeleteAccount` | hysteria/user_deletion_service.py:28-93 | the deletion: revision check, write-ahead task, commit, purge only after a durable save |
| `CredentialServer.Server.SaveWithout` | hysteria/user_deletion_service.py:62-70 | saving the users without the deleted account, the others unchanged |
| `CredentialServer.Server.ClaimTask` | hysteria/revocation_service.py:202-208 | the worker leases the head of the queue |
| `CredentialServer.Server.InspectUsers` | hysteria/revocation_service.py:215-294 | under the usage lock: redo a deletion, or judge a rotation task current, pending or stale |
| `CredentialServer.Server.SettleTask` | hysteria/revocation_service.py:270-337 | retire, give back or record the side effects of the task decided on |
| `CredentialServer.Server.Record` | hysteria/revocation_queue.py:250-297 | an attempt that completes its task marks the commit done |
| `CredentialServer.Server.RecordKickAttempt` | hysteria/revocation_service.py:117-135 | a handler records its own kick through the same queue operation |
| `ProtocolSteps.CoreKept` | hysteria/credential_service.py:191-376 | every step of requests, replays, deletions, worker and crashes keeps the protocol invariant `ProtocolInvariant.Core` over all possible contents of the three files |
| `RevocationCoverage.CoverageIsExact` | hysteria/revocation_service.py:202-337 | a step loses the task of a visible change if and only if the worker discards the task of a commit that users.json shows |
| `RevocationCoverage.RunsCoveredExactly` | hysteria/credential_service.py:191-376 | in every run, every visible change has its task in every possible queue content (or completed, or a later commit was visible) if and only if that discard never happens |
| `RevocationCoverage.RunsAreCovered` | hysteria/revocation_service.py:202-337 | it never happens in runs in which no request commits the very task the worker is holding |
| `ProtocolWitnesses.CollisionLosesTask` | hysteria/revocation_service.py:202-337 | a run of six steps in which the worker, deciding on what it claimed, discards the task of a committed rotation |
| `RotationOnce.ReadyIsPledged` | hysteria/rotation_recovery.py:174-240 | once a request has its receipt, before it installs anything, every receipt file a crash may leave binds the key to one credential |
| `RotationOnce.RequestAgrees` | hysteria/credential_service.py:201-376 | while that receipt lives, every request with its key, whether it answers, raises or dies, installs and answers with that credential only, and gives the receipt up only when it is superseded and installs nothing |
| `RotationOnce.PledgeKept` | hysteria/credential_service.py:201-376 | no other step and no crash takes a live receipt away |
| `RotationOnce.OneCredentialPerReceipt` | hysteria/credential_service.py:201-376 | the same over all interleavings, replays and crashes, from the first durable receipt on |
| `RotationOnce.OneCredentialPerRequest` | hysteria/credential_service.py:201-376 | a request that installed a credential or answered has that receipt, so the same holds after it even when it raised or died before its answer |
| `RotationReinstalls.InstalledAtMostOnce` | hysteria/credential_service.py:308-376 | between machine crashes no credential becomes visible twice |
| `RotationReinstalls.NeverInstalledAgain` | hysteria/credential_service.py:308-376 | while every possible content of users.json has lost the user or shows the credential or a later one, as after a durable save, no run of any requests and crashes installs the credential again |
| `RotationReinstalls.UndoneSaveReinstalls` | hysteria/credential_service.py:308-376 | after an unsynced save a machine crash and the replay install the same credential again |
| `RotationReinstalls.ReinstalledExactly` | hysteria/credential_service.py:51-86 | after the save that made its credential visible, some run makes it visible again if and only if that save was not durable |
| `RotationOnce.ReplyIsBacked` | hysteria/rotation_recovery.py:174-240 | an `ok` reply, and an installed credential whatever the reply, is backed by a receipt in every possible receipt file that names the requesting session |
| `UsersHistory.StepEvolves` | hysteria/credential_service.py:308-376 | whatever a step leaves possible in users.json was possible before, or removes one account, creates one with a fresh credential, or moves one to a newer credential |
| `UsersHistory.StaysBeyond` | hysteria/credential_service.py:308-376 | a user every possible content has lost, or moved to some credential, never shows an earlier one again in any run |
| `DeletionSafety.PurgeIsSafe` | hysteria/user_deletion_service.py:38-79 | history is purged only when no possible content of users.json holds the deleted account |
| `DeletionSafety.PurgedStaysGone` | hysteria/user_deletion_service.py:38-79 | once a user is purged, no possible content of users.json at any later time of any run holds an incarnation of the account that was possible before |
| `DeletionSafety.ReplacementSurvives` | hysteria/revocation_service.py:216-246 | a task for a purged incarnation, claimed at any later time, neither removes nor purges the account that has the name then |
| `DeletionSafety.OnlyNamedAccountsEnd` | hysteria/revocation_service.py:216-246 | in every run an account is removed or purged only when the request or the task names the very revision that has the name |
| `DeletionSafety.PassingMeansGone` | hysteria/revocation_service.py:216-246 | a deletion task passes only when the named revision is gone or had already changed |
| `DeletionSafety.DeletionsLeaveCompleted` | hysteria/revocation_service.py:216-246 | a queued deletion leaves the queue only after it has passed |
| `DeletionSafety.DeletionsAreCarriedOut` | hysteria/revocation_service.py:202-337 | in every run a durably queued deletion is still in every possible queue content or has passed |
| `UpdaterSafety.InvKept` | hysteria/hysteria_update.py:838-1160 | every step of update, reconcile, redelivery and crash keeps: each possible record tells the truth about each possible live binary |
| `UpdaterRuns.StatusFixesBinary` | hysteria/hysteria_update.py:838-1160 | after any run without a decision of `UpdaterSafety.TrustsUnsettled`, whatever a crash leaves: failed, skipped and rolled_back mean the binary from before the operation; a changed binary with done is the verified candidate that passed readiness |
| `UpdaterRuns.TrustIsExact` | hysteria/hysteria_update.py:1036-1129 | that condition is exact, decision by decision: from a sound state an act leaves a state from which some run misreports the binary if and only if it reports an interruption or starts an operation on a live binary that is not durable, or closes as failed after a reinstall that failed without a message |
| `UpdaterWitnesses.ScheduleOnUnsettledMisreports` | hysteria/hysteria_update.py:305-339 | a run from the start: an update ends as done in a record that is not durable over a reinstall that is not durable, a new operation is scheduled, its delivery fails, and a crash brings the former binary under failed |
| `UpdaterWitnesses.InterruptedReconcileMisreports` | hysteria/hysteria_update.py:1081-1160 | a run from the start: a killed reconcile and one that trusts its unsynced reinstall, after which a crash brings the new binary back under failed |
| `UpdaterRuns.DownloadsOnce` | hysteria/hysteria_update.py:294-429 | no operation id saves the start of its download durably twice, whatever is redelivered |
| `UpdaterRuns.EnteredAgainExactly` | hysteria/hysteria_update.py:971-985 | after any run, an operation whose record has become downloading may become so again if and only if that save was not durable |
| `UpdaterRuns.ReportNeverOverwrites` | hysteria/hysteria_update.py:379-420 | a failed-delivery report changes only the very generation that is still scheduled and never downloaded |
| `UpdaterRuns.BarrierLeftByRollback` | hysteria/hysteria_update.py:1094-1160 | in every run, short of a machine crash, rollback_failed is left only by a reconcile that durably reinstalled this operation's last-good binary, has seen it pass the probes since, and closes as rolled back |
| `UpdaterRuns.BarrierCanBeLeftExactly` | hysteria/hysteria_update.py:715-748 | reconcile can act on the barrier if and only if the record says the binary was replaced or the candidate is live |
| `UpdaterRuns.BarrierIsPermanent` | hysteria/hysteria_update.py:1094-1160 | a barrier without either is never left, whatever happens next |
| `UpdaterWitnesses.BarrierIsReached` | hysteria/hysteria_update.py:1081-1160 | a run from the start that ends in such a barrier: killed before recording the replacement, and a reinstall whose service fails its probes |
| `Updater.Updater.Schedule` | hysteria/hysteria_update.py:305-339 | a new generation of the operation is scheduled, refused while one is pending or behind the barrier |
| `Updater.Updater.ReportDelivery` | hysteria/hysteria_update.py:379-420 | a delivery report leaves every advanced state alone |
| `Updater.Updater.ApplyUpdate` | hysteria/hysteria_update.py:838-1072 | the whole update as a run of the protocol; a blocked gate touches no binary; done with a changed binary is the candidate, with last-good the former one; a smooth update ends that way |
| `Updater.Updater.Replace` | hysteria/hysteria_update.py:969-1072 | backup, record, replace, verify in this order, with the except clause on every failure |
| `Updater.Updater.Rollback` | hysteria/hysteria_update.py:1036-1072 | the except clause: restore only when this operation owns the rollback context; closing as failed then means a reinstall that failed without a message |
| `Updater.Updater.EnterRollback` | hysteria/hysteria_update.py:725-748 | whether the operation owns the rollback context and has a binary to go back to |
| `Updater.Updater.RestoreLastGood` | hysteria/hysteria_update.py:698-708 | restored if and only if the reinstall was durable and the restored service healthy |
| `Updater.Updater.Reconcile` | hysteria/hysteria_update.py:1081-1160 | by the status found: a finished or scheduled operation is left alone, one killed while downloading fails, one killed with its candidate live goes back to last-good, and the barrier is left only with last-good live |
| `Updater.Updater.StatusHolds` | hysteria/hysteria_update.py:838-1160 | the class keeps status and live binary in agreement over its whole trace |
| `PasswordWorkLimiter.Lease.Release` | hysteria/auth_service.py:57-68 | a lease returns one permit however often it is released, never above the maximum |
| `PasswordWorkLimiter.Limiter.TryAcquire` | hysteria/auth_service.py:130-168 | the whole new state and the decision of one request; permits and tracked sources stay within their caps |
| `PasswordWorkLimiter.Limiter.CleanupSources` | hysteria/auth_service.py:119-123 | prunes every tracked source and drops the emptied ones |
| `PasswordWorkLimiter.CleanedMeans` | hysteria/auth_service.py:119-123 | cleaning keeps exactly the sources with an unexpired grant |
| `LimiterWindows.GlobalWindow` | hysteria/auth_service.py:130-168 | no window of the configured length ever holds more grants than the global burst |
| `LimiterWindows.SourceWindow` | hysteria/auth_service.py:130-168 | with global burst below the source bound, no window holds more grants of one source than its burst |
| `LimiterWindows.DecisionIsExact` | hysteria/auth_service.py:130-168 | the bounded table decides like the full history: granted if and only if both windows have room and a permit is free |
| `LimiterWindows.CleaningMakesRoom` | hysteria/auth_service.py:141-147 | the eviction loop then evicts nobody: cleaning alone makes room |
| `LimiterWindows.LiveSourcesStay` | hysteria/auth_service.py:141-147 | a source with an unexpired grant is still tracked |
| `LimiterWindows.CapsHold` | hysteria/auth_service.py:57-168 | tracked sources and outstanding leases stay within their caps in every run; a second release changes nothing |
| `LimiterEvictions.SourceBoundExactly` | hysteria/auth_service.py:130-168 | for every configuration: no window of any run exceeds the source burst if and only if the global burst is below the number of tracked sources or no larger than the source burst |
| `StatsWire.Wire.ReadVarint` | hysteria/tuic_stats_client.py:40-52 | the accumulating loop reads what the recursive definition of a varint says, stays inside the input and leaves the offset behind it |
| `StatsWire.Wire.ReadBytes` | hysteria/tuic_stats_client.py:54-60 | takes the bytes, or fails without reading past the end |
| `StatsWire.Wire.ReadField` | hysteria/tuic_stats_client.py:62-78 | one field of the generator |
| `StatsWire.ReadStat` | hysteria/tuic_stats_client.py:81-97 | the row loop is the fold of the fields |
| `StatsWire.DecodeResponse` | hysteria/tuic_stats_client.py:100-116 | the response loop is the fold of the rows within both size limits |
| `StatsFormat.VarintExact` | hysteria/tuic_stats_client.py:40-52 | a number is read if and only if the input starts with one of its encodings; it is below 2^64 |
| `StatsFormat.StatExact` | hysteria/tuic_stats_client.py:81-97 | a row is read if and only if the bytes are an encoding of it, unknown fields and either field order included |
| `StatsFormat.DecodeExact` | hysteria/tuic_stats_client.py:100-116 | a response decodes to a list of rows if and only if it is an encoding of it within the size limits |
| `DeviceAdmission.DeviceLedger.Reserve` | hysteria/auth_backend.py:667-775 | one reservation: pruning, reflection, decision and the new ledger; a failed save admits nobody |
| `DeviceAdmission.SavedExactly` | hysteria/auth_backend.py:756-770 | the ledger is saved if and only if the request changes it |
| `DeviceSlots.SlotsHold` | hysteria/auth_backend.py:714-756 | live connections never exceed the limit for any lag, connects, disconnects and failed saves, while no reservation expires and counts are used in the order they were taken |
| `DeviceSlots.FreeSlotIsGranted` | hysteria/auth_backend.py:714-756 | with nothing pending and a current count a device is admitted if and only if a slot is free |
| `StaleCounts.SlotsHoldExactly` | hysteria/auth_backend.py:667-775 | over every run, with counts in any order, any expiry and failed saves: no point of it lets the connections exceed the limit, then or in a continuation from that time on, if and only if at no point the devices admitted outnumber those connected by the moment last used and the reservations pending; then the limit holds |
| `StaleCounts.OverfillsExactly` | hysteria/auth_backend.py:667-775 | after any such run that is still within the limit, some continuation exceeds it if and only if they do |
| `StaleCounts.CountOverfillsExactly` | hysteria/auth_backend.py:714-756 | the same right after a saved request with any count at any time, without the clock going back |
| `StaleCounts.ExpiryOverfillsExactly` | hysteria/auth_backend.py:714-724 | after any such run, pruning expired reservations opens the limit if and only if the devices admitted outnumber those connected by the moment last used and the reservations that have not expired |
| `DeviceSlots.OvertakingCountOverfills` | hysteria/auth_backend.py:733-756 | a count older than one already used admits one device too many |
| `DeviceSlots.ExpiryOverfills` | hysteria/auth_backend.py:714-724 | a reservation that expires before its device connects does too |
| `BillingCycle.CycleHoldsToday` | hysteria/cycle.py:44-121 | start <= today < next start, in calendar mode and for fixed cycles whose anchor is not in the future |
| `BillingCycle.CyclesPartition` | hysteria/cycle.py:44-121 | another day has the same boundaries if and only if it lies between them |
| `BillingCycle.NextStartBegins` | hysteria/cycle.py:102-121 | the next start is the first day of its own cycle |
| `BillingCycle.FixedCycleBegunExactly` | hysteria/cycle.py:89-99 | a fixed cycle has begun if and only if its anchor is not in the future |
| `BillingCycle.UnanchoredPartitionExactly` | hysteria/cycle.py:44-121 | fixed cycles without a stored or given anchor partition the days if and only if they are one day long |
| `BillingCycle.CycleDays` | hysteria/cycle.py:124-142 | the loop lists exactly the consecutive days from start to today |
| `BillingCycle.SettlementAnchorMeans` | hysteria/cycle.py:44-51 | the anchor is the last settlement day not after today |
| `BillingCycle.NextMonth` | hysteria/cycle.py:116-121 | 32 days after the first of a month lie in the following month, for all month lengths and leap years |
| `Calendar.OrderIsOrdinal` | hysteria/cycle.py:44-142 | date order is day-number order |
| `AlertClaims.SucceededMeansAllSent` | hysteria/alerts.py:616-652 | a dispatch counts as delivered if and only if a channel is configured and every configured one was sent |
| `AlertClaims.AlertState.ClaimAlert` | hysteria/alerts.py:368-408 | returns its token exactly when the key is neither delivered nor claimed within the TTL, the claim is well formed and its save durable; the slot then holds it; the same claim as `Apply` |
| `AlertClaims.AlertState.FinishAlertClaim` | hysteria/alerts.py:411-433 | completes or releases only the claim with this token, and says which; the same finish as `Apply` |
| `AlertClaims.AlertState.Clear` | hysteria/alerts.py:331-361 | drops exactly the slots of the selected kinds and users |
| `AlertClaims.AlertState.DispatchOnce` | hysteria/alerts.py:436-454 | a claim that is granted is dispatched and its result returned after a durable finish, the slot delivered exactly when every configured channel was sent and free otherwise; a suppressed one returns an empty result; no other slot changes |
| `AlertRuns.DeliveredOnlyByHolder` | hysteria/alerts.py:411-454 | in any possible content a key becomes delivered only when the holder of the slot's claim finishes a successful dispatch |
| `AlertRuns.StaleFinishChangesNothing` | hysteria/alerts.py:411-433 | once its slot is lost, in the visible file, no run of claims, finishes, clears and crashes lets the process change anything |
| `AlertRuns.FinishActsExactly` | hysteria/alerts.py:411-433 | a finish with a dispatch result changes the file if and only if its process has not lost the slot |
| `AlertRuns.LostExactlyWhenTaken` | hysteria/alerts.py:331-433 | a process loses its slot exactly by a saved claim of the place, a clear, its own finish, its death or a machine crash |
| `AlertRuns.ReservationEndsExactly` | hysteria/alerts.py:331-454 | an act ends a granted claim, in some content a crash may leave, if and only if it is a saved release by the holder of the slot, a clear, a claim of another key in the place, or a claim of the key at or after the TTL or before the claim |
| `AlertRuns.ClaimsAreApart` | hysteria/alerts.py:368-433 | over runs with crashes, deaths and stale finishes: while nothing gives the key up, another claim of it is granted if and only if the slot is still the claim and the clock reads at least the TTL later, or earlier |
| `AlertRuns.DeadClaimExpires` | hysteria/alerts.py:368-408 | after the TTL the claim of a dead process can be taken over |
| `AccessPlan.LookupIsDirect` | hysteria/authorization_service.py:114-150 | any sound cache answers like direct summation, rejections included, stays sound and is within the bound after every cached answer |
| `AccessPlan.CallsAreDirect` | hysteria/authorization_service.py:129-150 | so does every sequence of lookups |
| `AccessPlan.AuthorizationService.CycleUsageSumStrict` | hysteria/authorization_service.py:91-104 | the summing loop with its validation |
| `AccessPlan.AuthorizationService.CachedCycleUsageSum` | hysteria/authorization_service.py:129-150 | the cached lookup and its effect on the cache |
| `AccessPlan.AuthorizationService.BuildStaticAccessPlan` | hysteria/authorization_service.py:181-251 | the plan through the cache is the plan of direct summation, and the cache stays within the current bound |
| `AccessPlan.AuthorizationService.BuildLandingAccessPlan` | hysteria/authorization_service.py:253-303 | the loop builds the landing plan of `LandingPlan`, whose content and rejections `LandingMeaning.LandingExact` gives |
| `AccessPlanMeaning.PlanExact` | hysteria/authorization_service.py:181-251 | rejected if and only if the cycle settings or the multiplier are unreadable or some account is faulty; otherwise denies the inactive and exhausted, admits the other provisioned ones, names nobody else |
| `AccessPlanMeaning.IdentitiesDiffer` | hysteria/authorization_service.py:236-250 | admitted accounts never share an identity |
| `AccessPlanMeaning.LandingIdentitiesDiffer` | hysteria/authorization_service.py:253-303 | landing identities belong to admitted users and differ from each other and from every direct one |
| `TrafficLedger.Ledger.CycleRawForUser` | hysteria/billing_service.py:182-201 | the user's cycle bytes |
| `TrafficLedger.Ledger.PreservedRawForCycle` | hysteria/billing_service.py:144-156 | the sum over the preserved bucket |
| `TrafficLedger.Ledger.AddPreservedForUser` | hysteria/billing_service.py:158-180 | adds to the bucket and drops those of earlier cycles |
| `TrafficLedger.Ledger.ZeroCycleDailyHourly` | hysteria/billing_service.py:102-139 | zeroes the selected users inside the cycle and nothing else |
| `TrafficLedger.Ledger.MutateUserUsage` | hysteria/traffic_mutation_service.py:67-98 | refresh and reset of one user, refused for an unknown user or another revision |
| `TrafficLedger.Ledger.ResetAll` | hysteria/traffic_mutation_service.py:124-144 | the books after it are `ResetBooks`, the preserved file untouched |
| `TrafficConservation.RefreshConserves` | hysteria/traffic_mutation_service.py:67-98 | refreshing conserves the displayed total; resetting lowers it by exactly the user's bytes |
| `TrafficConservation.InterruptedRefreshLosesNothing` | hysteria/traffic_mutation_service.py:78-90 | a refresh cut short between its saves may count bytes twice but loses none |
| `TrafficConservation.UserReadsZero` | hysteria/billing_service.py:102-201 | the user reads zero in every file afterwards |
| `TrafficConservation.OthersUntouched` | hysteria/billing_service.py:102-180 | nobody else's entry changes in any of the four files |
| `TrafficConservation.RefreshTwice` | hysteria/traffic_mutation_service.py:67-98 | refreshing again preserves nothing more |
| `TrafficConservation.SettingsChangeExactly` | hysteria/billing_service.py:88-201 | what the console shows after a refresh whose three readings of the cycle settings, and its own, may all differ: the exact equation |
| `TrafficConservation.ChangeBeforePreserving` | hysteria/traffic_mutation_service.py:79-83 | settings changed after the days were summed: bytes between the two first days count twice or are lost, so the total is conserved exactly when there are none |
| `TrafficConservation.ChangeBeforeZeroing` | hysteria/traffic_mutation_service.py:83-87 | settings changed after preserving: conserved if and only if both cycles begin on the same day or the user has no bytes in the current one; else all of those are lost |
| `TrafficConservation.ChangeAfterRefresh` | hysteria/billing_service.py:141-156 | settings changed after the refresh: conserved if and only if both cycles begin on the same day or the user had no bytes on their common days |
| `StaticAccess.Service.StopFailClosed` | hysteria/static_access.py:77-156 | marker first, then the stop; ok means a durable marker and a stopped service |
| `StaticAccess.Service.RecoverIfPending` | hysteria/static_access.py:159-251 | true only with the current configuration loaded, three probes passed and the marker durably gone |
| `StaticAccess.RecoveryMeans` | hysteria/static_access.py:159-251 | from any state, with stops, deaths and starts between its commands: a recovery changes something only with the marker, and no marker goes, visibly or after a crash, before a confirmed stop, a start and every probe |
| `StaticAccessRuns.IntentEndsExactly` | hysteria/static_access.py:159-251 | the recovery intent of a durably marked stop ends if and only if a recovery that began after it completes |
| `StaticAccessRuns.KeptExactly` | hysteria/static_access.py:77-251 | one act loses the marker of an unanswered intent if and only if it is a completed recovery with a durable marker written between its look for the marker and its removal |
| `StaticAccessRuns.IntentSurvives` | hysteria/static_access.py:77-251 | over every run the intent of every fail-closed stop keeps its marker, in every content a crash may leave, if and only if no such recovery occurs |
| `StaticAccessRuns.CrossedStopIsLost` | hysteria/static_access.py:77-251 | a run from an unmarked state: the second stop crosses a recovery that reports success, its marker is gone, and no later recovery starts the service |
| `StaticAccessRuns.ManualStopStands` | hysteria/static_access.py:159-185 | without a marker no run starts the service |
| `StaticAccessRuns.RecoveryLoadsLastWrite` | hysteria/static_access.py:159-251 | after any run a recovery that returns true runs what the last configuration write left |
| `RulePacks.Dedupe` | hysteria/subscription_profiles.py:147-155 | the loop keeps first occurrences in order |
| `RulePacks.ClashConfig.PrependUniqueRules` | hysteria/subscription_profiles.py:185-188 | new rules first, the old ones without them after |
| `RulePacks.ClashConfig.ApplyRulePack` | hysteria/subscription_profiles.py:223-236 | the pack over rules and both address lists |
| `RulePacks.ClashConfig.ApplyLists` | hysteria/subscription_profiles.py:315-329 | a user's overrides likewise |
| `RulePacks.UserConfig.ApplyRulePack` | hysteria/subscription_profiles.py:239-258 | the pack stored into the user's lists |
| `RuleMeaning.NewRulesFirst` | hysteria/subscription_profiles.py:185-188 | traffic matched by a new rule gets the first such rule's action; all other traffic keeps its decision |
| `RuleMeaning.DecisionOfOnto` | hysteria/subscription_profiles.py:147-155 | deduplication keeps every first-match decision |
| `RuleMeaning.AppliedMeans` | hysteria/subscription_profiles.py:185-236 | what an applied pack decides and lists |
| `RuleMeaning.AppliedTwice` | hysteria/subscription_profiles.py:223-236 | applying a pack twice is applying it once |
| `RuleMeaning.StoredPackMeansTheSame` | hysteria/subscription_profiles.py:239-329 | a pack stored with the user routes like the pack applied over the user's overrides |
| `Updater.Updater.PassGates` | hysteria/hysteria_update.py:904-968 | a blocked gate closes the operation with its status and touches no binary |
| `Updater.Updater.Finish` | hysteria/hysteria_update.py:909-968 | a closing status before any download, or an error when it cannot be saved |
| `Updater.Updater.Download` | hysteria/hysteria_update.py:971-1001 | the record says downloading before anything is fetched; checksum and version sanity decide |
| `Updater.Updater.BackUp` | hysteria/hysteria_update.py:1002-1008 | last-good becomes the live binary before the operation owns the rollback context |
| `Updater.Updater.Install` | hysteria/hysteria_update.py:1009-1017 | the record is applying before the live binary is replaced |
| `Updater.Updater.Verify` | hysteria/hysteria_update.py:1018-1035 | done only after a recorded replacement, restart and readiness |
| `Updater.Updater.Conclude` | hysteria/hysteria_update.py:1061-1069 | the terminal record is what is saved |
| `PasswordWorkLimiter.Limiter.Prune` | hysteria/auth_service.py:115-117 | pops the expired front of a list |
| `PasswordWorkLimiter.Limiter.TouchSource` | hysteria/auth_service.py:140-150 | takes the source out of the table with its unexpired events, or makes room for it |
| `PasswordWorkLimiter.Limiter.MakeRoom` | hysteria/auth_service.py:143-146 | afterwards the table has room, and no source appeared |
| `PasswordWorkLimiter.Limiter.GrantLease` | hysteria/auth_service.py:160-168 | one permit for one fresh lease |
| `LimiterWindows.SourceWithinGlobal` | hysteria/auth_service.py:151-155 | a source burst of at least the global burst holds without the bound on sources |
| `StatsWire.Wire.ReadBody` | hysteria/tuic_stats_client.py:67-77 | the four wire types, any other refused |
| `StatsWire.DecodeRow` | hysteria/tuic_stats_client.py:107-116 | a row field must be length-delimited, decode and fit the output limit |
| `StatsFormat.RoundTrip` | hysteria/tuic_stats_client.py:81-116 | decoding the encoding of a list of valid rows within the limits gives the list back |
| `DeviceAdmission.DeviceLedger.Prune` | hysteria/auth_backend.py:715-723 | keeps exactly the users with an unexpired reservation |
| `DeviceAdmission.DeviceLedger.Admit` | hysteria/auth_backend.py:729-745 | consumes reflected reservations, then decides |
| `BillingCycle.CycleLengthIsRead` | hysteria/cycle.py:28-41 | the length is the one asked for, else the stored one, else 30 days; outside 1 to 90 it counts as the nearest |
| `BillingCycle.SettlementDayIsRead` | hysteria/cycle.py:20-37 | the settlement day is the one asked for, else the stored one, else the 12th; outside 1 to 28 it counts as the nearest |
| `AlertClaims.AlertState.Save` | hysteria/alerts.py:302-319 | saves only a changed state |
| `AccessPlan.AuthorizationService.PruneCycleUsageCache` | hysteria/authorization_service.py:114-119 | drops the oldest entries down to the bound |
| `AccessPlan.AuthorizationService.Exhausted` | hysteria/authorization_service.py:224-235 | the quota verdict through the cache is the direct one |
| `TrafficLedger.Ledger.ZeroBucket` | hysteria/billing_service.py:117-126 | zeroes exactly the selected users of a bucket |
| `StaticAccess.Service.Probe` | hysteria/static_access.py:219-241 | a probe succeeds only when the service is active |
| `StaticAccess.Service.AwaitReady` | hysteria/static_access.py:219-251 | all three probes, then the marker |
| `RulePacks.ReadStringList` | hysteria/subscription_profiles.py:191-198 | stripped items without the empty ones |
| `RulePacks.ClashConfig.PrependUniqueFakeIpFilters` | hysteria/subscription_profiles.py:201-207 | new filters first, each item once |
| `RulePacks.ClashConfig.PrependUniqueTunRouteExcludeAddresses` | hysteria/subscription_profiles.py:210-216 | new addresses first, each item once |
| `RulePacks.UserConfig.MergeList` | hysteria/subscription_profiles.py:255-257 | additions first, each item once, nothing for an empty pack list |
| `ProtocolWitnesses.CommittedByRepeat` | hysteria/credential_service.py:308-376 | in the colliding run the repeated request commits a second fresh credential under the same key |
| `ProtocolWitnesses.DiscardedByWorker` | hysteria/revocation_service.py:270-294 | in the colliding run the worker judges the new state by the task it claimed and discards its key |
| `RequestOutcomes.ReplyIsShown` | hysteria/credential_service.py:201-376 | an `ok` reply names the credential users.json shows for the user, in every content a crash may leave unless the reply says that this is uncertain; it is the one of the receipt, or fresh |
| `RequestOutcomes.ReplyIsKept` | hysteria/credential_service.py:201-376 | after an `ok` reply that is not uncertain no run of requests, deletions and crashes shows an earlier credential of the user |
| `RequestOutcomes.RefusalsExact` | hysteria/credential_service.py:201-258 | every refusal with its exact reason; a refused request leaves users.json as it is |
| `RequestOutcomes.FreshRequestIsServed` | hysteria/credential_service.py:201-376 | a request that may rotate, with every save durable and room for its records, gets a fresh credential, changes nothing else in users.json and leaves its receipt and its task |
| `RequestOutcomes.ReplayIsServed` | hysteria/credential_service.py:308-376 | a replay by the session of a receipt gets its credential while users.json shows it, or shows the previous one and the request posts it |
| `RequestOutcomes.AdminReplyExact` | hysteria/admin_credential_service.py:43-176 | every reply of an administrator rotation with its exact reason, and what it leaves; success means users.json shows the credential answered |
| `RequestOutcomes.DeleteReplyExact` | hysteria/user_deletion_service.py:28-93 | every reply of a deletion with its exact reason: accepted with its task durably queued, whether or not the account could be removed at once; history is purged exactly after a durable save |
| `RequestOutcomes.CommitReplyExact` | hysteria/credential_service.py:308-376 | a request with durable records is committed, told that it was superseded, or raises, exactly by what users.json shows and how its saves end; a superseded one leaves no record |
| `RequestOutcomes.DoneIsEarned` | hysteria/revocation_queue.py:250-297 | a commit counts as completed only from the attempt that removed its task from the queue |
| `RequestOutcomes.AppearancesCounted` | hysteria/credential_service.py:308-376 | every credential that a step other than a crash makes users.json show is counted as installed |
| `RequestOutcomes.DeletionsPassByWorker` | hysteria/revocation_service.py:216-246 | only the worker passes a deletion, and only its handler records a kick for it |
| `WorkerOutcomes.RotationVerdict` | hysteria/revocation_service.py:270-294 | a claimed rotation task is carried out, given back or retired exactly by what users.json shows and whether its request may still be replayed |
| `WorkerOutcomes.DeletionVerdict` | hysteria/revocation_service.py:216-246 | a claimed deletion removes the very revision it names, and passes exactly when another one is there or its save is durable and the history purged |
| `WorkerOutcomes.VerdictSettled` | hysteria/revocation_service.py:270-337 | what each verdict leaves of the task, and that no other task is touched |
| `RecordLaws.OperationsAreSteps` | hysteria/revocation_queue.py:103-308 | a save that replaced the queue file shows the next content of the run, and a durable one leaves a crash nothing else to find |
| `RecordLaws.PrepareRepliesExactly` | hysteria/revocation_queue.py:103-166 | a task is prepared, or refused for another binding or for want of room, exactly in these cases; a prepared one is in every possible content |
| `RecordLaws.HeadIsFirst` | hysteria/revocation_queue.py:197-219 | the task claimed is the due one with the earliest next attempt, then the earliest creation, then the least key |
| `RecordLaws.DueTaskHasHead` | hysteria/revocation_queue.py:197-219 | whenever a task is due there is one to claim |
| `RecordLaws.OthersKept` | hysteria/revocation_queue.py:103-308 | no operation touches another task, or what a task is bound to and when it was made |
| `RecordLaws.ClaimedTask` | hysteria/revocation_queue.py:197-230 | a claimed task is due again 15 s later and not before, with one more attempt and the same progress |
| `RecordLaws.AttemptedTask` | hysteria/revocation_queue.py:250-297 | an unfinished task is due 2 s after a successful kick and 5 s after a failed one, without the services handled |
| `RecordLaws.FoundExactly` | hysteria/rotation_recovery.py:141-171 | a receipt is found exactly by a session that may use it, unless dropping the expired ones could not be saved |
| `RecordLaws.DroppedExactly` | hysteria/rotation_recovery.py:120-171 | a lookup and a cleanup save the receipts without the expired ones exactly when there are any, a discard exactly when its receipt is there |
| `RecordLaws.PreparedExactly` | hysteria/rotation_recovery.py:174-240 | who gets which receipt, and exactly who is refused |
| `RecordLaws.BoundExactly` | hysteria/rotation_recovery.py:243-281 | a replacement session is let in exactly by one that may use the receipt; both may use it afterwards |
| `UpdaterRecovery.ReconcileGoes` | hysteria/hysteria_update.py:1075-1129 | an update killed while verifying, or while applying with its candidate live, is rolled back; one killed earlier is closed as failed; behind the barrier it rolls back what it owns; a finished or scheduled operation is left alone |
| `UpdaterRecovery.ReconcileSettles` | hysteria/hysteria_update.py:1075-1160 | after an undisturbed reconcile no update stays downloading, applying or verifying: killed before its candidate was live it ends failed with the live binary untouched, and killed later it ends rolled back, or behind the barrier when the probes fail, with the former binary durably live |
| `UpdaterRecovery.BarrierSettles` | hysteria/hysteria_update.py:1094-1160 | behind the barrier it reinstalls the former binary when the operation owns the live one, and leaves the barrier exactly when that passes the probes |
| `UpdaterRecovery.OpenRefusesExactly` | hysteria/hysteria_update.py:305-339 | a new operation, an automatic update and a recorded check are refused exactly while an operation is scheduled, downloading, applying, verifying or behind the barrier, and start afresh otherwise |
| `UpdaterRecovery.DeliveriesExact` | hysteria/hysteria_update.py:294-429 | a worker starts and is delivered again exactly for the operation that is scheduled, and a report acts only for the generation it names |
| `UpdaterRecovery.GatesEnd` | hysteria/hysteria_update.py:904-968 | a gate that stops an update ends it as failed, skipped or done by its reason, and touches no binary |
| `UpdaterRecovery.StepsGoOn` | hysteria/hysteria_update.py:971-1017 | each step before the replacement goes on exactly when its save is durable or its download sane, unwinds otherwise, and writes one file or none |
| `UpdaterRecovery.ReplacementGoesOn` | hysteria/hysteria_update.py:1009-1035 | so do the replacement, its record, the readiness probes and the final record |
| `UpdaterRecovery.ReadyIsSeen` | hysteria/hysteria_update.py:609-637 | the live binary counts as ready only since a probe it passed |
| `Updater.Updater.Recover` | hysteria/hysteria_update.py:1101-1160 | restore and close: rolled back exactly when the reinstall was durable and the service healthy, else rollback_failed |
| `LandingMeaning.LandingExact` | hysteria/authorization_service.py:253-303 | the landing plan is rejected when and only when some admitted account is at fault (its list, landing identity or selection is unreadable, or its identity is taken) or a direct identity is unreadable; otherwise it holds exactly the admitted users allowed an existing node, each with its own identity, and the selection exactly when it is allowed and exists |
| `UsageMeaning.StrictSumIsReading` | hysteria/authorization_service.py:40-106 | authorization counts the very bytes the console reads for the cycle, and refuses exactly when some entry does not add up |
| `UsageMeaning.StrictEntryExactly` | hysteria/authorization_service.py:40-72 | which values the strict reader accepts, and as what number |
| `UsageMeaning.ReadingIsTotal` | hysteria/billing_service.py:182-201 | the cycle reading of a user is the total of the user's counters day by day |
| `UsageMeaning.QuotaBoundary` | hysteria/authorization_service.py:224-235 | the quota is used up from the very byte that reaches it, after the multiplier |
| `UsageMeaning.TrimmedKeepsRecent` | hysteria/authorization_service.py:114-119 | trimming drops the sums used longest ago |
| `TrafficConservation.ResetAllMeans` | hysteria/traffic_mutation_service.py:124-144 | a reset of all zeroes every listed user inside the cycle in every file, and leaves everybody else, everything outside it and the preserved bytes as they are |
| `TrafficConservation.PreservedMeans` | hysteria/traffic_mutation_service.py:67-99 | a refresh adds the user's reading, direction by direction, to the bytes preserved under the cycle and drops earlier cycles; with nothing to add, and in a reset, the preserved file stays |
| `AlertClaims.DispatchReport` | hysteria/alerts.py:616-652 | the channels reported as tried are the configured ones up to the first exception; failed are the refused ones, and with an exception all tried so far |
| `AlertRuns.OtherKeyIsGranted` | hysteria/alerts.py:368-408 | a slot that is free, or holds another key, never stands in the way of a claim |
| `AlertRuns.FinishSettles` | hysteria/alerts.py:411-433 | the holder leaves its slot delivered after a dispatch that reached every channel, and free after any other |
| `AlertRuns.ClearedExactly` | hysteria/alerts.py:331-361 | a reset clears exactly the quota alerts of its users, a deletion all of theirs |
| `AlertRuns.DispatchRuns` | hysteria/alerts.py:368-454 | a whole dispatch leaves the slot delivered exactly when every configured channel was sent and free otherwise, in every content a crash may find, and no other slot changed |
| `TrafficConservation.SavesInOrder` | hysteria/traffic_mutation_service.py:67-98 | the four saves each write one file: preserved bytes, month, days, hours, in this order |
| `StaticAccessRuns.StopsAnyway` | hysteria/static_access.py:77-156 | a fail-closed stop stops the service whether or not its marker could be saved, and is ok exactly with both done |
| `StaticAccessRuns.RecoveryNeedsAll` | hysteria/static_access.py:159-251 | a recovery is tried exactly for a live, marked service, and returns true only if every command succeeded and every probe was answered |
| `StaticAccessRuns.CalmRecoverySucceeds` | hysteria/static_access.py:159-251 | an undisturbed recovery of a marked service restarts it on the current configuration and removes the marker, whatever process it found |
| `BillingCycle.OriginIsRead` | hysteria/cycle.py:44-100 | a cycle follows the calendar exactly with 30 days and no explicit origin; otherwise it counts from the explicit origin, the stored one, or the last settlement day, in this order |
| `RuleMeaning.MergedMeans` | hysteria/subscription_profiles.py:239-258 | a stored pack leaves in each list the pack's items and then the user's, each once, and a list it has nothing for as it is |
| `RuleMeaning.StrippedMeans` | hysteria/subscription_profiles.py:191-198 | stripping cuts exactly the blanks at both ends |
| `RuleMeaning.StringListMeans` | hysteria/subscription_profiles.py:191-198 | a list is read item by item, in order, without the empty ones |
| `StatsText.Utf8Exact` | hysteria/tuic_stats_client.py:81-97 | a name is taken exactly when it is the UTF-8 of some Unicode text |
| `StatsText.RowsLength` | hysteria/tuic_stats_client.py:100-116 | the output size counted row by row is the length of the JSON printed |
| `StatsText.PrintedExactly` | hysteria/tuic_stats_client.py:100-116 | a response decodes to these rows exactly when it encodes them and neither it nor the JSON printed for them exceeds 2 MiB |
| `PasswordWorkLimiter.RequestIsRecent` | hysteria/auth_service.py:119-159 | who is tracked after a request, in which order: the one that asked last, the rest without those forgotten, of whom the least recently used go first and no more than needed |
| `PasswordWorkLimiter.RequestCosts` | hysteria/auth_service.py:130-168 | a granted request costs a permit and one event in each window, a refused one nothing |
| `PasswordWorkLimiter.OtherSourcesKept` | hysteria/auth_service.py:119-159 | a request leaves every other tracked source its unexpired grants |
| `DeviceAdmission.DecisionMeans` | hysteria/auth_backend.py:724-755 | a device is admitted exactly while the online count and the reservations it does not show are below the limit; the newest of these stay, and the new one |
| `DeviceAdmission.OtherUsersKept` | hysteria/auth_backend.py:715-770 | every other user only loses what has expired |

## Left out

- HTTP handlers, sessions, sockets, systemd, downloads and message transports: their results are parameters of the steps.
- Hashes, HMACs, random tokens and UUID parsing: injective values and fresh numbers.
- JSON, YAML and text decoding, file modes and paths, and files that are malformed as a whole: decoded values; only `StatsWire` works on bytes.
- File locks and their timeouts: sections under one lock are single steps (a fail-closed stop, which takes none, runs between the commands of a recovery); queue and receipt sections inside a usage-locked request are not interleaved with other users of those files.
- `_rotate_user_token_if_current` (hysteria/credential_service.py:88-152), the rotation without a receipt.
- CredentialServer.Server.RecoverableUserRotation: the first receipt lookup, which runs before the usage lock (hysteria/credential_service.py:207-213), is part of the locked step; a receipt found there and dropped or expired before the lock is taken is not modelled.
- Other writers of users.json (account edits, quota changes): only rotation, deletion and creation commit in the model.
- Static reloads and stops inside revocation side effects (hysteria/revocation_service.py:54-200): the set of handled services is a parameter; `static_services` is a set.
- Notification events and the policy window of the updater (hysteria/hysteria_update.py:180-255, hysteria/hysteria_update.py:776-835): a gate is a boolean; a missing live binary is not modelled.
- Updater.Updater.ApplyUpdate: a kill between two writes is not a branch of the method; the trace it extends can be cut at every write, and the run theorems quantify over such traces.
- PasswordWorkLimiter.Limiter.TryAcquire: the clock is a real number, so rounding of floats is not modelled.
- DeviceSlots.SlotsHold: one user with a constant limit; it needs counts used in the order they were taken and no expired reservation, and `SlotsHoldExactly` covers every other run.
- LimiterEvictions.SourceBoundExactly: the caller gives one more distinct source name than the global burst; `NamesExist` builds them for any burst below 55000.
- StaticAccess.Service.RecoverIfPending: a configuration is written only between recoveries, because writers and recoveries hold the usage lock.
- AccessPlan.AuthorizationService.BuildStaticAccessPlan: the verdicts of `user_compat` and the display multiplier are inputs, and a lookup is one step of its thread: `LookupIsDirect` holds for any sound cache, and the stores of other threads keep it sound (`RefreshedSound`, `TrimmedMeans`).
- RulePacks.Dedupe: a rule is its text; lists are lists (no text to split into lines), and stripping knows the ASCII blanks only.
- StatsFormat.DecodeExact: names are kept as the bytes of their strict UTF-8.
- BillingCycle.CycleDays: days are dates, not formatted keys; years are unbounded.
- Proxy-group edits of client configurations (hysteria/subscription_profiles.py:158-182, hysteria/subscription_profiles.py:261-312): list filtering without a law across functions.
- Multiplier calibration, anomaly scores, template splicing, login throttling, session store, online snapshots and the TUIC meter.
