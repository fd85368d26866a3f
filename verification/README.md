# Watchbound: a model of the Linux watch engine and its Node bridge

Watchbound watches a directory tree through inotify. One worker thread owns a registry of kernel watches shared by many
subscriptions, walks trees a bounded number of items at a time, and runs three transactions on each subscription:
replacing exclusions, reconciling, and recovering a lost root. Batches of invalidated paths go to a JavaScript callback,
one at a time. The engine's central promise is conservative coverage: detail may be collapsed, but lost detail is never
reported as complete. This project models that machinery in Dafny and proves what it keeps over every run.

Each protocol is a state machine: `Enabled` and `Next` give its steps, one critical section, worker turn or action of
somebody else at a time, and `Run` its histories. Objects that the program updates in place are classes whose methods are
proved against the same step functions, so that theorems about runs speak about them. The modules named `…Effects` say what each
kind of step leads to, in terms of what can be observed and not of the step functions: which paths are told of, when
coverage is uncertain, what is admitted, accepted, scheduled or given up.

| Modules | Subject |
|---|---|
| `Paths`, `Exclusions` | paths, exclusion policies, the roots a replacement policy brings back |
| `Topology`, `TopologyEnvironment`, `TopologyRecords`, `TopologyWalk`, `TopologyInterests`, `TopologyBase`, `TopologyTheorems`, `TopologyPlacement`, `TopologyRuns`, `TopologyLapses`, `TopologyStrays`, `TopologyRepairs`, `TopologyEffects`, `TopologyWorkers` | the directory walk and its reconciliations against a file system that others change, and the kernel's record queue |
| `Registry`, `RegistryAttribution`, `RegistryAgreement`, `RegistryTheorems`, `RegistryLoss`, `RegistryIdentities`, `RegistryEffects`, `RegistryWorkers` | kernel watches shared by subscriptions, and descriptors the kernel reuses |
| `Subscriptions`, `SubscriptionLines`, `SubscriptionPhases`, `SubscriptionTheorems`, `SubscriptionUncertainty`, `SubscriptionRecovery`, `SubscriptionEffects`, `TransactionEffects`, `SubscriptionStates` | pending paths, batches, coverage and the three transactions |
| `ReconciliationSweep`, `SweepEffects` | the sweep that ends a reconciliation, and the queue of deferred directories |
| `FairQueue`, `Scheduling`, `SchedulingQueues`, `SchedulingRegistry`, `SchedulingEffects`, `Shutdown`, `Disposal`, `Teardowns` | sharing turns, shutting down, taking subscriptions apart |
| `FairRounds`, `FairStarvation`, `FairLedger`, `FairDispatcher` | the dispatcher's frozen rounds |
| `Delivery`, `DeliveryEffects`, `DeliveryStates` | admission, callbacks and cleanup of the Node bridge |
| `Establishment`, `EstablishmentEffects` | cancelling an establishment, in the engine and in the Node layer |
| `AutomaticReconciliation`, `AutomaticEffects` | the JavaScript policy of timers, attempts and root recovery |
| `InotifyRecords` | splitting a read buffer into records |

## What the code does otherwise than promised

Thirteen promises do not hold as the code stands. For each a lemma shows a run that breaks it and another says when it holds.

- A registered path is opened without comparing identities unless the job reconciles
  (engine/src/backend/linux.rs:2763-2776), so a directory renamed over a registered one can end up unwatched under
  complete coverage: `TopologyLapses.SkippingLosesARenamedDirectory`. Skipping keeps the account exactly when the path is
  not orphaned (`TopologyTheorems.SkipIsSafeExactly`), and comparing identities is enough
  (`TopologyTheorems.ReconciliationIsCareful`).
- The end of a listing erases the deferral its own entry error left (2670-2680):
  `TopologyLapses.FinishingErasesAnEntryError`, with its exact condition in `TopologyWalk.FinishKeepsExactly`.
- A scan may begin while a removal is still unread whose return was lost in the overflow behind it (3029-3055); the
  reconciliation then commits complete coverage over a directory about to lose its watch:
  `TopologyRepairs.ScanningOverAnUnreadRemoval`, with the exact condition in
  `TopologyInterests.StartScanRestoresExactly`. It is enough that no removal is unread.
- A directory deferred at the watch limit because it could not be examined is not noted as encountered (2803-2806), and
  the sweep forgets it: `ReconciliationSweep.UnnotedDeferralIsSwept`. A deferral survives exactly when it was
  encountered (`ReconciliationSweep.DeferralsSurviveExactly`), and its loss matters exactly when nothing else owes the
  visit (`TopologyWalk.UnnotedKeepsExactly`).
- A directory moved out of a parent that is not watched stays registered, and promoting the parent does not notice
  (2440-2467): `TopologyStrays.PromotionKeepsAStrayRegistration`, with the exact condition in
  `TopologyPlacement.UnlinkPlacedExactly`.
- A reconciliation that waits already takes note of what jobs come across (2204-2206, 4698-4702), and the beginning of
  its scan does not clear these notes (3029-3055). What is gone by then is spared by the sweep if the record of its
  removal was lost: `TopologyStrays.AnEarlyNoteSparesAStray`, with the exact condition in
  `TopologyPlacement.StartScanPlacedExactly`.
- A reconciling visit that finds another identity drops the interest at its path (2763-2776) although removals from the
  old directory may still be unread. Their records then find no watch, and what they are about stays registered if it was
  noted before, without any loss: `TopologyStrays.AnEndedInterestLeavesAStray`, with the exact condition in
  `TopologyPlacement.DropPlacedExactly`.
- The sweep drops interests (3097-3137) with the same effect on unread removals:
  `TopologyStrays.ASweptInterestLeavesAStray`, with the same exact condition. Where no detail is lost these are all the
  ways in which a registration can be left behind (`TopologyPlacement.NextPlacedExactly`).
- Attribution counts records, so one ignored record lost in an overflow shifts the later ones of its descriptor by a
  lifetime for good: `RegistryLoss.LostRecordLeavesADeadWatch`, and exactly then
  (`RegistryLoss.DeadExactlyAfterLoss`, `RegistryLoss.LossAwaitsTheLiveWatch`).
- A path is checked before and after the call that adds its watch (3895-4022), which does not show a directory that was
  at the path only during the call; it is then watched as the other: `RegistryIdentities.APathThatChangesTwiceIsMistaken`,
  and exactly then (`RegistryIdentities.NextFaithfulExactly`).
- Losing the root during an exclusion update with paths pending reports a topology race instead of the root's loss
  (1130-1194), and recovery does not clear it: `SubscriptionRecovery.RecoveryLeavesUncertainty`, with the exact condition
  in `SubscriptionRecovery.RootLossReason`. The theorems therefore speak of uncertainty, not of the strength of its
  reason.
- Two removals stand inside debug assertions (3749-3756). Without them a shutdown can panic
  (`Shutdown.WithoutAssertionsShutdownPanics`), and does so exactly when the allocator holds a dead id as it starts
  (`Shutdown.RunShutdown`, `Shutdown.ShutdownIsDecided`); looking for promotions purges such ids.
- A failed wake is recorded after its credit is given back (node/src/delivery.rs:1338-1376), so a cleanup may publish
  success in between if another registration keeps the dispatcher from being joined:
  `Delivery.FailedAdmissionMayGoUnreported`, with the exact condition in `Delivery.SuccessHidesWakeExactly`. Failures of
  callbacks cannot be missed that way (`Delivery.SuccessHidesNoCallbackFailure`).

## Model

| member | source | states |
|---|---|---|
| `Exclusions.ExclusionClosed` | engine/src/backend/linux.rs:61-79 | What hides a directory hides everything below it, in the walk and in events alike |
| `Exclusions.ObservedAncestorsVisible` | engine/src/backend/linux.rs:4713-4772 | In a validated policy every proper ancestor of an observed path stays visible, so its boundary can be reported |
| `Exclusions.MinimalIsAntichain` | engine/src/backend/linux.rs:4774-4790 | Minimised prefixes contain none below another |
| `Exclusions.MinimisationKeepsCover` | engine/src/backend/linux.rs:4774-4790 | Minimising prefixes hides exactly the same paths |
| `Exclusions.ReinclusionComplete` | engine/src/backend/linux.rs:4873-4906 | Every path a replacement brings back lies under a rescanned root |
| `Exclusions.ReinclusionRoots` | engine/src/backend/linux.rs:4873-4906 | Above each returning path there is exactly one root; no root is hidden by the new policy or lies under another, and each was hidden before, unless it is the whole tree and an excluded name was dropped |
| `Exclusions.FirstHiddenAncestorIsRoot` | engine/src/backend/linux.rs:4873-4906 | The topmost hidden ancestor of a returning path is a root itself, unless an excluded name was dropped |
| `Exclusions.RootsAreTopmost` | engine/src/backend/linux.rs:4873-4906 | The roots are exactly the topmost returning paths; the whole tree is rescanned exactly when an excluded name was dropped, and then it alone |
| `Exclusions.HiddenFromAbove` | engine/src/backend/linux.rs:62-69 | A path is hidden from the walk exactly when it is listed, bears an excluded name, or its parent is hidden |
| `Exclusions.EventsAsTheWalk` | engine/src/backend/linux.rs:71-79 | Events about directories are hidden exactly as the walk is; those about other files exactly when the path is listed or its parent is hidden |
| `TopologyEnvironment.LinkKeeps` | engine/src/backend/linux.rs:2121-2227 | A directory made or moved in by another process, with all it holds, is accounted for by the record it queues or by the walk in progress |
| `TopologyEnvironment.UnlinkKeeps` | engine/src/backend/linux.rs:2121-2227 | A directory removed or moved away leaves no other directory unaccounted for |
| `TopologyEnvironment.DropKeeps` | engine/src/backend/linux.rs:2121-2227 | The kernel dropping the watch of a deleted directory keeps the account |
| `TopologyRecords.HandleKeeps` | engine/src/backend/linux.rs:2079-2227 | Handling any record keeps every directory accounted for |
| `TopologyWalk.PickKeeps` | engine/src/backend/linux.rs:2590-2627 | Taking the next directory of a job keeps the account |
| `TopologyWalk.ReadKeeps` | engine/src/backend/linux.rs:2858-2870 | Opening the listing of a watched directory after its watch was added owes each of its children a visit |
| `TopologyWalk.EntryKeeps` | engine/src/backend/linux.rs:2660-2669 | A listed directory is queued for a visit |
| `TopologyWalk.PruneKeeps` | engine/src/backend/linux.rs:2660-2669 | A name that goes while a listing is open need not be returned by it, even if it comes back |
| `TopologyWalk.EntryErrorKeeps` | engine/src/backend/linux.rs:2670-2676 | An entry that cannot be classified defers the directory |
| `TopologyWalk.FinishKeepsExactly` | engine/src/backend/linux.rs:2677-2683 | The end of a listing keeps the account if and only if it was read at the limit, its path is not deferred, or all the deferral owes a visit is owed one otherwise |
| `TopologyWalk.SkipKeeps` | engine/src/backend/linux.rs:2763-2776 | Opening a registered path without adding a watch keeps the account unless the path is orphaned |
| `TopologyWalk.UnnotedKeepsExactly` | engine/src/backend/linux.rs:2800-2807 | A deferral the scan does not note keeps the account if and only if all it was to owe a visit is owed one otherwise |
| `TopologyWalk.MatchingSkipIsSafe` | engine/src/backend/linux.rs:2763-2776 | Skipping the add is safe when the registered identity is that of the directory found there |
| `TopologyInterests.AddKeeps` | engine/src/backend/linux.rs:3895-4035 | Adding the interest before the directory is read keeps the account |
| `TopologyInterests.IdentifyKeeps` | engine/src/backend/linux.rs:2763-2776 | A reconciling visit that finds another identity drops the registration and keeps the account |
| `TopologyInterests.StartScanRestoresExactly` | engine/src/backend/linux.rs:3029-3055 | The beginning of a scan restores the account, whatever was lost, if and only if no queued removal has lost the record of its return |
| `TopologyInterests.SweepWatchedKeeps` | engine/src/backend/linux.rs:3097-3137 | What the scan has not come across may lose its watch |
| `TopologyInterests.SweepDeferredKeeps` | engine/src/backend/linux.rs:3138-3173 | What the scan has not come across may lose its deferral |
| `TopologyInterests.CommitKeeps` | engine/src/backend/linux.rs:3231-3281 | The account outlives the end of the reconciliation |
| `TopologyInterests.StaleKeeps` | engine/src/backend/linux.rs:2847-2850 | Forgetting a subtree that has gone keeps the account |
| `TopologyInterests.ReplaceKeeps` | engine/src/backend/linux.rs:2872-2912 | Putting a new policy in force owes every returning directory a visit through its reinclusion root |
| `TopologyBase.BaseKeeps` | engine/src/backend/linux.rs:2079-2856 | Whatever is lost, the tree, the registry of watches, the order of records about one watch and the bookkeeping of a scan hold |
| `TopologyTheorems.NextKeeps` | engine/src/backend/linux.rs:2520-3281 | Every step but a lapse keeps each existing, visible directory watched or owed a visit, or detail is known to be lost; and a scan that begins makes up for what was lost |
| `TopologyTheorems.WatchBeforeRead` | engine/src/backend/linux.rs:2121-3281 | Over all interleavings with other processes, each existing visible directory is watched or owed a visit, and is so again from the beginning of the first scan after a loss, while no step lapses |
| `TopologyTheorems.CompleteMeansWatched` | engine/src/backend/linux.rs:1164-1174 | Without lapses, complete coverage of a quiet subscription means that every visible directory has a live watch on it, whether nothing was lost or a reconciliation has made up for it |
| `TopologyTheorems.LapsesAreCareless` | engine/src/backend/linux.rs:2677-3055 | A lapse is an unchecked skip over a replaced directory, a listing that ends after deferring its own directory, a scan begun with a removal unread, or a deferral the scan does not note |
| `TopologyTheorems.CarefulCompletenessIsReal` | engine/src/backend/linux.rs:2520-3281 | Where none of these happens, complete coverage means watched, over runs with losses and reconciliations too |
| `TopologyTheorems.ReconciliationIsCareful` | engine/src/backend/linux.rs:2763-2776 | A reconciling job compares identities, so its skips keep the account |
| `TopologyTheorems.SkipIsSafeExactly` | engine/src/backend/linux.rs:2763-2856 | Reading a registered directory without adding a watch keeps the account if and only if the path is not orphaned |
| `TopologyLapses.SkippingLosesARenamedDirectory` | engine/src/backend/linux.rs:2763-2776 | A run from establishment in which a directory renamed over a registered one ends unwatched under complete coverage |
| `TopologyLapses.FinishingErasesAnEntryError` | engine/src/backend/linux.rs:2670-2680 | A run in which the end of a listing erases the deferral its own entry error left, and coverage reads complete |
| `TopologyPlacement.UnlinkPlacedExactly` | engine/src/backend/linux.rs:2185-2195 | A removal leaves every registered path existing or about to be forgotten if and only if no registered path below the name lacks a live watch on the directory, registered above it |
| `TopologyPlacement.HandlePlaced` | engine/src/backend/linux.rs:2079-2227 | Handling a record forgets what it is about and leaves later records able to forget the rest |
| `TopologyPlacement.DropPlacedExactly` | engine/src/backend/linux.rs:2763-2776 | Dropping an interest, in a reconciling visit or in the sweep (3097-3137), leaves every registered path existing, excluded or about to be forgotten if and only if none that is gone was about to be forgotten through that interest alone |
| `TopologyPlacement.StartScanPlacedExactly` | engine/src/backend/linux.rs:3029-3055 | The beginning of a scan, whatever was lost, so leaves every registered path it will spare if and only if none that is gone, and not about to be forgotten, was noted while the reconciliation waited |
| `TopologyPlacement.NextPlaced` | engine/src/backend/linux.rs:2079-3281 | Every step that does not stray, by the conditions for a removal, a dropped interest and the beginning of a scan, keeps each registered path existing, excluded or about to be forgotten, or detail is known to be lost |
| `TopologyPlacement.NextPlacedExactly` | engine/src/backend/linux.rs:2079-3281 | Where no detail is lost after a step of any kind, it leaves a registration behind if and only if it strays |
| `TopologyPlacement.CoverageIsExact` | engine/src/backend/linux.rs:3231-3281 | Over runs in which no step lapses or strays, complete coverage of a quiet subscription is exact: the registered paths are the visible directories there are, each with a live watch on the directory at that path |
| `TopologyStrays.PromotionKeepsAStrayRegistration` | engine/src/backend/linux.rs:2440-2467 | A run in which a directory moved out of an unwatched root stays registered under complete coverage |
| `TopologyStrays.AnEarlyNoteSparesAStray` | engine/src/backend/linux.rs:3029-3055 | A run in which a directory noted while the reconciliation waited, and gone before its scan begins, is spared by the sweep and stays registered under complete coverage |
| `TopologyStrays.AnEndedInterestLeavesAStray` | engine/src/backend/linux.rs:2763-2776 | A run with nothing lost in which a reconciling visit drops the interest an unread removal was for, and what was removed stays registered under complete coverage |
| `TopologyStrays.ASweptInterestLeavesAStray` | engine/src/backend/linux.rs:3097-3137 | A run in which the sweep drops the interest an unread removal was for, and what was removed stays registered under complete coverage |
| `TopologyRepairs.CertaintyIsRegained` | engine/src/backend/linux.rs:3029-3281 | A run in which a removal is lost in an overflow and a reconciliation makes coverage complete and exact again |
| `TopologyRepairs.ScanningOverAnUnreadRemoval` | engine/src/backend/linux.rs:3029-3055 | A run in which a reconciliation commits complete coverage over an unread removal, which then takes a watch away |
| `TopologyEffects.UncertainExactly` | engine/src/backend/linux.rs:2079-3281 | For every kind of step: coverage becomes uncertain exactly on an overflow, the unannounced end of a watch somebody is interested in, a race or a doubt, and certain exactly by a commit that nothing was raised since and whose batch went out |
| `TopologyEffects.AnnouncedExactly` | engine/src/backend/linux.rs:2161-2171 | The end of a watch is expected exactly from the record that announces it on, for as long as it is registered |
| `TopologyEffects.DeferredExactly` | engine/src/backend/linux.rs:2590-3173 | For every kind of step: which directories come to be deferred and which deferrals end, both directions |
| `TopologyEffects.WalkedExactly` | engine/src/backend/linux.rs:2195-3055 | For every kind of step: a directory is given to a job exactly when it is announced or listed and visible, brought back by a policy, or a scan begins with it, and leaves its job only when it is picked |
| `TopologyEffects.RegisteredExactly` | engine/src/backend/linux.rs:2079-3137 | For every kind of step: a registered path keeps its watch until exactly its removal, the end of its watch, a mismatch, or a sweep |
| `TopologyEffects.AddedExactly` | engine/src/backend/linux.rs:3895-4035 | Only adding an interest registers a path, for the directory that is there |
| `TopologyEffects.NoIdleWatchKept` | engine/src/backend/linux.rs:4054-4075 | No step leaves a kernel watch that nothing is registered through |
| `TopologyWorkers.TopologyWorker.RemoveSubscriptionSubtree` | engine/src/backend/linux.rs:4037-4052 | Drops every interest at or below a path and the deferrals there, and nothing else |
| `TopologyWorkers.TopologyWorker.HandleRecord` | engine/src/backend/linux.rs:2079-2227 | Handling a record in place has exactly the effect of the specified step |
| `TopologyWorkers.TopologyWorker.HandleIgnored` | engine/src/backend/linux.rs:2364-2412 | An ignored record forgets the interests of its watch, and certainty unless the end was announced |
| `RegistryTheorems.RegistryHolds` | engine/src/backend/linux.rs:2229-2412 | In every state of every run, with queued records lost at any time, the registry's attribution, agreement and limits hold |
| `RegistryTheorems.NextAttributes` | engine/src/backend/linux.rs:2229-2412 | For each descriptor that is not quarantined the registry waits for exactly as many ignored records as are queued or lost, and if none was lost the queued ones are the retired lifetimes in order, then the registered one |
| `RegistryTheorems.NextAgrees` | engine/src/backend/linux.rs:3895-4075 | Identities and watches stay inverse, every watch has an interest, interests and watched paths name each other, and budgets hold |
| `RegistryTheorems.IgnoredEndsItsOwnWatch` | engine/src/backend/linux.rs:2364-2412 | An ignored record removes a registered watch if and only if it is that watch's own and none of the descriptor was ever lost |
| `RegistryTheorems.ReusedDescriptorIsUncertain` | engine/src/backend/linux.rs:2270-2278 | A path gained on a descriptor with records of an earlier watch still queued makes its subscription uncertain, even after a loss |
| `RegistryTheorems.ReleasedLeavesNoInterest` | engine/src/backend/linux.rs:4211-4356 | A released subscription leaves no interest behind |
| `RegistryEffects.HandleLosesExactly` | engine/src/backend/linux.rs:2364-2394 | Handling a record takes away exactly the paths whose watch it ends, from subscriptions not being disposed of |
| `RegistryEffects.HandleRaisesExactly` | engine/src/backend/linux.rs:2364-2394 | Handling a record makes a subscription uncertain exactly on an overflow, or when the watch of its root, or one whose end was not announced, ends under it; an announced end of another path raises nothing |
| `RegistryEffects.LostPathIsUncertain` | engine/src/backend/linux.rs:2377-2394 | Whatever the step, a path is lost only to a record that ends its watch or at the subscription's own wish, and the subscription is uncertain then if it is the root or the end was not announced |
| `RegistryEffects.OverflowReachesAll` | engine/src/backend/linux.rs:2080-2091 | Every subscription not being disposed of is uncertain once an overflow is handled, and nothing else of it changes |
| `RegistryEffects.AddsExactly` | engine/src/backend/linux.rs:3895-4022 | A path comes to be watched exactly when the directory is the same before and after and its watch is shared or can be claimed; doubt is raised exactly when such an attempt failed past that point or the descriptor has lifetimes retired |
| `RegistryEffects.ForgetsExactly` | engine/src/backend/linux.rs:4054-4075 | Forgetting a path leaves its watch exactly if another interest in it is left, and touches no other watch or subscription |
| `RegistryLoss.LostRecordLeavesADeadWatch` | engine/src/backend/linux.rs:2080-2091 | When an overflow loses an ignored record, a later one is taken for it and a watch the kernel no longer has stays registered |
| `RegistryLoss.DeadExactlyAfterLoss` | engine/src/backend/linux.rs:2347-2412 | A registered watch the kernel has dropped survives the handling of everything queued if and only if an ignored record of its descriptor was lost |
| `RegistryLoss.LossAwaitsTheLiveWatch` | engine/src/backend/linux.rs:2347-2412 | A live registered watch will be left dead if and only if an ignored record of its descriptor was lost, and then a lifetime is still retired; with nothing queued the retired lifetime alone tells |
| `RegistryLoss.DeadWatchHasLost` | engine/src/backend/linux.rs:2364-2412 | A dead watch has lost a record of its descriptor, in every run |
| `RegistryLoss.QuarantinedWatchEndsByAForeignRecord` | engine/src/backend/linux.rs:2281-2305 | A run in which a quarantined descriptor that lost a record has its watch ended by the record of a rejected one |
| `RegistryIdentities.NextFaithfulExactly` | engine/src/backend/linux.rs:3895-4022 | A step keeps every registered watch on the directory it is registered for if and only if it does not add a watch of its own for a path that named another directory at the call than at both identity checks around it |
| `RegistryIdentities.FaithfulHolds` | engine/src/backend/linux.rs:3895-4022 | Over every run in which no path changes twice around such a call, with records lost at any time, every registered watch is on the directory it is registered for |
| `RegistryIdentities.APathThatChangesTwiceIsMistaken` | engine/src/backend/linux.rs:3953-4022 | A run in which both identity checks pass and another directory is watched than the one registered, with no uncertainty |
| `RegistryWorkers.RegistryWorker.AddInterest` | engine/src/backend/linux.rs:3895-4022 | Adds an interest by sharing or creating a watch, or fails with the exact rollback specified |
| `RegistryWorkers.RegistryWorker.RegisterAdded` | engine/src/backend/linux.rs:3953-4022 | Claims a lifetime for a new descriptor, rejects a collision and checks the path's identity again |
| `RegistryWorkers.RegistryWorker.ClaimNewWatchLifetime` | engine/src/backend/linux.rs:2229-2268 | Claims the next lifetime, or quarantines the descriptor and drops its watch when the counter is used up |
| `RegistryWorkers.RegistryWorker.InsertInterest` | engine/src/backend/linux.rs:4024-4035 | Records the interest on both sides |
| `RegistryWorkers.RegistryWorker.RemoveInterest` | engine/src/backend/linux.rs:4054-4075 | Removes an interest, and with the last one the watch, its identity and its lifetime |
| `RegistryWorkers.RegistryWorker.ExpectIgnored` | engine/src/backend/linux.rs:2307-2336 | Retires a lifetime in order, or quarantines the descriptor |
| `RegistryWorkers.RegistryWorker.ConsumeExpectedIgnored` | engine/src/backend/linux.rs:2347-2362 | Takes the oldest retired lifetime of a descriptor |
| `RegistryWorkers.RegistryWorker.HandleIgnored` | engine/src/backend/linux.rs:2364-2412 | Consumes a retired lifetime, or ends the registered watch |
| `RegistryWorkers.RegistryWorker.Bereave` | engine/src/backend/linux.rs:2380-2394 | Each subscription with an interest in a vanished watch loses the path, and certainty as specified |
| `SubscriptionTheorems.SubscriptionHolds` | engine/src/backend/linux.rs:991-1306 | The subscription's invariants hold in every state of every run |
| `SubscriptionTheorems.CertainBatchSettlesEverything` | engine/src/backend/linux.rs:1274-1306 | When a batch does not call coverage uncertain, every path queued before it was sent has been delivered by then, itself or through the root |
| `SubscriptionTheorems.LostDetailIsUncertain` | engine/src/backend/linux.rs:1176-1204 | While the consumer listens, every queued path was delivered, is still pending, or coverage is uncertain |
| `SubscriptionTheorems.GenerationsAreAtomic` | engine/src/backend/linux.rs:1274-1306 | Batches are numbered from 1; each names the generation that is committed before and after the step that sends it, is no longer than allowed, and holds only paths queued under that generation |
| `SubscriptionTheorems.CommandsAnsweredOnce` | engine/src/backend/linux.rs:1669-1949 | Every command is answered once, one transaction at most is under way, and without an update the committed policy is in force |
| `SubscriptionTheorems.NoBatchInsideATransaction` | engine/src/backend/linux.rs:1263-1272 | Inside a transaction of an attached root only the commit of a reconciliation sends, and nothing commits with a scan outstanding |
| `SubscriptionEffects.NoticeIsQueued` | engine/src/backend/linux.rs:2121-2188 | A notice of any kind has its path queued, or the root for it, exactly when the policy lets it be heard or it is an observed boundary; otherwise it does nothing |
| `SubscriptionEffects.ToldIsQueued` | engine/src/backend/linux.rs:1176-1204 | Every path of a notice, an observed boundary, a promotion, or an update's included and invalidated paths is queued, and any path is when a loss is told |
| `SubscriptionEffects.ToldIsNotLost` | engine/src/backend/linux.rs:1176-1306 | Over whole runs every path a subscription was ever told of has gone out in a batch since, is pending, or coverage is uncertain, while the consumer listens |
| `SubscriptionEffects.ToldIsSettled` | engine/src/backend/linux.rs:1274-1306 | Over whole runs a later batch that does not call coverage uncertain comes after, or is, one with every path told of |
| `SubscriptionEffects.PlainNoticeIsNamed` | engine/src/backend/linux.rs:2170-2208 | A notice no transaction interferes with has its own path queued, raises nothing, and sends exactly when that fills a batch |
| `SubscriptionEffects.DirectoriesComeAndGo` | engine/src/backend/linux.rs:2192-2213 | Exactly the departed subtree is no longer watched or deferred; an arrival is given exactly one job and barrier, and a reconciliation past its scan scans again |
| `SubscriptionEffects.LossIsTaken` | engine/src/backend/linux.rs:1124-1162 | Whatever tells of it, a lost root ends update and reconciliation with an answer, restores the committed policy and generation, and is remembered with its evidence |
| `SubscriptionEffects.DoubtIsRaised` | engine/src/backend/linux.rs:1196-1204 | An unmount, the unannounced end of a watch and a doubt raised elsewhere leave the root pending under uncertainty, and transactions as they were |
| `SubscriptionEffects.FlushesExactly` | engine/src/backend/linux.rs:1263-1306 | A flush that is due sends all pending paths in one batch under the committed generation; too many go out as the root and no room leaves it pending, both under uncertainty |
| `TransactionEffects.ReplacementIsAccepted` | engine/src/backend/linux.rs:1669-1949 | A replacement is taken up exactly when the root is there, nothing else is under way and its generation is new |
| `TransactionEffects.ReconciliationIsAccepted` | engine/src/backend/linux.rs:1669-1949 | A reconciliation is taken up exactly when the root is there and nothing else is under way |
| `TransactionEffects.RecoveryIsAccepted` | engine/src/backend/linux.rs:1669-1949 | A recovery is refused, declined with its reason, or taken up for its candidate, exactly as the root, what is under way and the candidate demand |
| `TransactionEffects.UpdateComesIntoForce` | engine/src/backend/linux.rs:2872-2912 | An update that starts has its policy and generation in force and nothing of the old generation pending, which was sent if there was room |
| `TransactionEffects.IncludedAreWalked` | engine/src/backend/linux.rs:2977-2992 | Every path included again is given a job and a barrier |
| `TransactionEffects.UpdateCommits` | engine/src/backend/linux.rs:2994-3027 | A committed update makes its policy and generation the committed ones, answers with them, and has every included and invalidated path pending or covered |
| `TransactionEffects.ReconciliationBegins` | engine/src/backend/linux.rs:3029-3055 | A reconciliation that starts remembers what was raised until then and has a job for the root |
| `TransactionEffects.ReconciliationCommits` | engine/src/backend/linux.rs:3231-3320 | A commit sends the root and answers with the coverage it sent, or answers that it could not and leaves the root pending under uncertainty |
| `TransactionEffects.CandidateIsOpened` | engine/src/backend/linux.rs:3322-3447 | Once the old root is removed the candidate is walked, or given up for exactly what stood in the way |
| `TransactionEffects.WalkedIsAdopted` | engine/src/backend/linux.rs:3322-3585 | A walked candidate is adopted exactly when it is stable to the end, with its root batch sent exactly if somebody listens and there was room |
| `TransactionEffects.LaterReasonIsKept` | engine/src/backend/linux.rs:1196-1204 | A recovery keeps the gravest reason raised since its candidate was captured |
| `TransactionEffects.RecoveryClearsTheLoss` | engine/src/backend/linux.rs:3521-3533 | Adoption clears the loss of the root: what was raised since remains, and so does a reason that was not the root's loss |
| `TransactionEffects.FailureIsNamed` | engine/src/backend/linux.rs:3490-3510 | A recovery given up answers with what it failed for, its candidate and the root lost before |
| `TransactionEffects.PromotionIsWalked` | engine/src/backend/linux.rs:2440-2467 | A promoted directory is watched instead of deferred, given a job and told of, and coverage is not complete meanwhile |
| `SubscriptionPhases.NextInv` | engine/src/backend/linux.rs:1124-1306 | Barriers equal jobs plus transactions past waiting, and policies, generations and epochs agree, after every step |
| `SubscriptionPhases.LostInv` | engine/src/backend/linux.rs:1124-1162 | Losing the root aborts an update or a reconciliation, restores policy and generation, and leaves coverage uncertain |
| `SubscriptionPhases.StartUpdateInv` | engine/src/backend/linux.rs:2872-2908 | Starting an exclusion update flushes or drops what the old generation held, and the latter only under uncertainty |
| `SubscriptionPhases.CommitReconciliationInv` | engine/src/backend/linux.rs:3231-3320 | Committing a reconciliation keeps all of this whether its batch goes out, does not fit or finds nobody listening |
| `SubscriptionUncertainty.UncertaintyEndsUndisturbed` | engine/src/backend/linux.rs:3231-3585 | Over whole runs uncertainty ends only with a root batch carrying the new coverage, and nothing was raised since that transaction began |
| `SubscriptionUncertainty.StepOnward` | engine/src/backend/linux.rs:1176-1204 | No other step ends uncertainty, and the reason changes only when the epoch counts it |
| `SubscriptionRecovery.RecoveryIsAllOrNothing` | engine/src/backend/linux.rs:3322-3585 | A recovery adopts its candidate, one generation on, and reports a boundary exactly when its root batch went out, or leaves no watch, deferral or job and the lost root as it was |
| `SubscriptionRecovery.UnstableIsGivenUp` | engine/src/backend/linux.rs:2543-2559 | A candidate once marked unstable is never adopted |
| `SubscriptionRecovery.WeakenedReasonSurvivesRecovery` | engine/src/backend/linux.rs:3521-3533 | A reason so weakened outlives the recovery of the root |
| `SubscriptionRecovery.RecoveryLeavesUncertainty` | engine/src/backend/linux.rs:1124-1194 | A run that starts an update, queues a path, loses the root and recovers it, and ends attached but uncertain |
| `SubscriptionRecovery.CoverageNamesTheGravest` | engine/src/backend/linux.rs:1164-1252 | Certain coverage is complete exactly when nothing is deferred or promoted, and otherwise names the gravest reason |
| `SubscriptionStates.SubscriptionState.constructor` | engine/src/backend/linux.rs:992-1066 | A new subscription owes one walk of its root and nothing else |
| `SubscriptionStates.SubscriptionState.QueuePath` | engine/src/backend/linux.rs:1176-1194 | Queues a path under the selected generation, collapsing to the root as specified |
| `SubscriptionStates.SubscriptionState.MarkUncertain` | engine/src/backend/linux.rs:1196-1204 | Raises uncertainty, counts it, and owes the root |
| `SubscriptionStates.SubscriptionState.MarkRootLost` | engine/src/backend/linux.rs:1124-1162 | Loses the root and ends what it ends |
| `SubscriptionStates.SubscriptionState.Flush` | engine/src/backend/linux.rs:1274-1306 | Sends all pending paths, or turns them into uncertainty |
| `SubscriptionStates.SubscriptionState.FlushIfDue` | engine/src/backend/linux.rs:1263-1272 | Flushes when due, never behind a barrier |
| `SubscriptionStates.SubscriptionState.HandleInterestEvent` | engine/src/backend/linux.rs:2121-2227 | The effect of an event on pending paths, jobs, barriers and transactions |
| `SubscriptionStates.SubscriptionState.StartExclusionUpdate` | engine/src/backend/linux.rs:2872-2908 | Puts a waiting update's policy in force |
| `SubscriptionStates.SubscriptionState.CommitExclusionUpdate` | engine/src/backend/linux.rs:2994-3026 | Commits an update and queues its invalidations one by one |
| `SubscriptionStates.SubscriptionState.StartReconciliation` | engine/src/backend/linux.rs:3029-3070 | Begins the scan of a waiting reconciliation |
| `SubscriptionStates.SubscriptionState.CommitReconciliation` | engine/src/backend/linux.rs:3231-3320 | Commits a swept reconciliation |
| `SubscriptionStates.SubscriptionState.CommitRootRecovery` | engine/src/backend/linux.rs:3512-3585 | Commits a walked root recovery |
| `SubscriptionStates.SubscriptionState.FinishRootRecoveryFailure` | engine/src/backend/linux.rs:3490-3510 | Reports a recovery that was given up |
| `ReconciliationSweep.CommitKeepsTheEncountered` | engine/src/backend/linux.rs:3072-3229 | At commit everything watched, deferred or promoted was encountered by this transaction, in its scan or while it waited, however often arrivals restarted it |
| `ReconciliationSweep.DeferralsSurviveExactly` | engine/src/backend/linux.rs:3072-3229 | What is deferred or watched when the sweep starts still is at commit if and only if this transaction came across it and it was not forgotten meanwhile |
| `ReconciliationSweep.SweepBeforeCommit` | engine/src/backend/linux.rs:3072-3085 | Every commit ends a sweep that nothing interrupted |
| `ReconciliationSweep.UnnotedDeferralIsLost` | engine/src/backend/linux.rs:2781-2807 | A directory deferred at the limit without a note, in a transaction that notes it nowhere else, ends neither deferred nor watched nor promoted |
| `ReconciliationSweep.DeferredIsQueued` | engine/src/backend/linux.rs:1206-1218 | While the root is attached, every deferred directory waits in the rotating queue, or in the part of it a transaction has rebuilt |
| `ReconciliationSweep.RotationReaches` | engine/src/backend/linux.rs:2469-2506 | Over runs, a deferred directory is inspected after at most as many inspections as stand before it, through any number of rebuilt queues |
| `ReconciliationSweep.UnnotedDeferralIsSwept` | engine/src/backend/linux.rs:2781-2807 | A directory deferred at the watch limit because it could not be examined is not noted, and the sweep forgets it |
| `SweepEffects.SweepAdvances` | engine/src/backend/linux.rs:3097-3229 | Every round of the sweep is exactly one nearer to the commit, which is reached exactly when none is left |
| `SweepEffects.SweepEnds` | engine/src/backend/linux.rs:3097-3229 | Uninterrupted the sweep is over after exactly as many rounds as it has items and phases |
| `SweepEffects.NotedExactly` | engine/src/backend/linux.rs:4698-4702 | A transaction takes note of exactly what its own jobs watch or defer |
| `SweepEffects.PlacesExactly` | engine/src/backend/linux.rs:3097-3229 | What is watched, deferred or promoted changes by exactly the step, or the round of the sweep, that names it |
| `ReconciliationSweep.Reconciler.ProgressReconciliation` | engine/src/backend/linux.rs:3085-3229 | One turn sweeps 64 items, or fewer if the sweep ends |
| `ReconciliationSweep.Reconciler.SweepItem` | engine/src/backend/linux.rs:3094-3227 | One round of the sweep's loop |
| `FairQueue.WaitingConserved` | engine/src/backend/linux.rs:1433-1467 | No operation loses or duplicates a waiting id, and the two rounds stay disjoint |
| `FairQueue.BoundedBypass` | engine/src/backend/linux.rs:1433-1467 | While an id waits any other is popped at most twice, and at most once if the id is in the current round |
| `FairQueue.CurrentRoundIsOrdered` | engine/src/backend/linux.rs:1441-1446 | An id in the current round is popped before more pops than there are smaller ids in it |
| `FairQueue.FairIdQueue.Schedule` | engine/src/backend/linux.rs:1434-1439 | Adds an id to the next round unless it waits already |
| `FairQueue.FairIdQueue.PopNext` | engine/src/backend/linux.rs:1441-1446 | Pops the least id of the current round, turning the rounds when it is empty |
| `FairQueue.FairIdQueue.Remove` | engine/src/backend/linux.rs:1448-1450 | Takes an id out of both rounds and tells whether it waited |
| `FairQueue.FairIdQueue.ReadyLen` | engine/src/backend/linux.rs:1457-1462 | Turns the rounds when needed and counts the current one |
| `FairQueue.FairIdQueue.IsEmpty` | engine/src/backend/linux.rs:1464-1466 | Tells whether nothing waits in either round |
| `SchedulingQueues.AfterMembers` | engine/src/backend/linux.rs:1433-1467 | Every step keeps each live subscription in its queues; ids of dead ones are left behind only without assertions |
| `SchedulingEffects.TurnServes` | engine/src/backend/linux.rs:2520-2588 | A turn goes to the least waiting subscription of its round and changes no other: more work has another turn, a cancelled or failed establishment and a disposal are taken apart until they are gone |
| `SchedulingEffects.DisposalBegins` | engine/src/backend/linux.rs:4077-4199 | A disposal is known to the registry at once, out of the allocator, and has a turn |
| `SchedulingEffects.WakesAndBeginnings` | engine/src/backend/linux.rs:4459-4461 | A new or woken subscription has a turn, and the others keep theirs |
| `SchedulingEffects.LookPurges` | engine/src/backend/linux.rs:2414-2467 | Looking for a promotion keeps the live in the allocator and drops the dead one it comes upon |
| `SchedulingRegistry.NothingWatched` | engine/src/backend/linux.rs:4444-4447 | Without subscriptions no watch is registered and no identity indexed |
| `Shutdown.ShutdownNeverPanics` | engine/src/backend/linux.rs:4406-4457 | With debug assertions no shutdown turn panics on any expectation or assertion, over all runs, and the last one leaves nothing |
| `Shutdown.ShutdownProgresses` | engine/src/backend/linux.rs:4406-4457 | A shutdown turn panics only on a dead id; otherwise it takes a disposal turn, a dead id or some lifetimes off what is left, and the last one leaves no watch, identity or lifetime |
| `Shutdown.ShutdownIsDecided` | engine/src/backend/linux.rs:4406-4457 | Over all runs, with or without assertions, a shutdown can panic only if the allocator holds a dead id when it starts, and can end only if it holds none |
| `Shutdown.RunShutdown` | engine/src/backend/linux.rs:1549-1588 | The shutdown loop ends, in a panic if and only if the allocator holds a dead id when it starts, and else with everything empty |
| `Shutdown.WithoutAssertionsShutdownPanics` | engine/src/backend/linux.rs:3749-3756 | Built without them, an establishment cancelled just before a shutdown makes the shutdown panic |
| `Disposal.DisposalCost` | engine/src/backend/linux.rs:4211-4356 | Whatever interleaves, a disposal of M items takes M/64 + 1 turns and leaves no interest naming the subscription |
| `Disposal.RegistryStepIsBetween` | engine/src/backend/linux.rs:2380-2384 | No native event and no step of a peer changes what a subscription under disposal still watches |
| `Disposal.PendingDisposal.ProgressSubscriptionDisposal` | engine/src/backend/linux.rs:4211-4356 | One turn removes 64 items, or what is left, completes exactly when fewer than 64 were left, and touches no peer |
| `Disposal.PendingDisposal.RemoveInterest` | engine/src/backend/linux.rs:4231-4238 | The phase that drops the subscription's interests in the registry one at a time |
| `Disposal.DrainDisconnectedOutput` | engine/src/lib.rs:1311-1341 | Draining output takes one quantum for every 64 items and one more, two items and its paths to a batch |
| `Teardowns.PendingTeardown.ProgressEstablishmentTeardown` | engine/src/backend/linux.rs:3778-3870 | One turn removes 64 items, or what is left, and completes exactly when fewer than 64 were left |
| `Teardowns.PendingTeardown.RemoveInterest` | engine/src/backend/linux.rs:3800-3811 | The phase that drops the attempt's interests in the registry one at a time |
| `Teardowns.CompleteLeavesNoInterest` | engine/src/backend/linux.rs:3857-3869 | A completed teardown leaves no interest that names the subscription |
| `Teardowns.RegistryStepIsBetween` | engine/src/backend/linux.rs:2380-2394 | Between two turns watches of the attempt may vanish but none is gained |
| `FairRounds.EntriesBounded` | node/src/delivery.rs:931-989 | A call inspects at most the limit and returns the selectable ones, in increasing order |
| `FairRounds.CallInspects` | node/src/delivery.rs:931-989 | A call inspects the least of what its round has left, and goes on to a new round only when nothing selectable was |
| `FairRounds.EmptyCallLookedEverywhere` | node/src/delivery.rs:931-989 | A call that returns nothing has used its limit up, or nothing at all can be selected |
| `FairLedger.InspectedOncePerRound` | node/src/delivery.rs:931-989 | Over the calls of a round, while registrations come and go, whoever is registered from its beginning to its end is inspected exactly once, and nobody who came later |
| `FairStarvation.CallProgress` | node/src/delivery.rs:931-989 | A call returns a selectable registration or brings it one call nearer |
| `FairStarvation.NoStarvation` | node/src/delivery.rs:931-989 | Over all traces, fewer calls pass without serving a registration than it takes to finish this round and reach it in the next |
| `FairDispatcher.FairRound.FairRoundEntries` | node/src/delivery.rs:931-989 | The resumable scan computes exactly the specified entries and round |
| `FairDispatcher.FairRound.Inspect` | node/src/delivery.rs:959-979 | The inner loop inspects the least registrations of the range up to the limit |
| `Delivery.EachDeliveryOnce` | node/src/delivery.rs:1308-1427 | The credit is there exactly when nothing is in flight; each admitted delivery completes once or is in flight, and its callback starts once |
| `Delivery.ForeignCompletionIgnored` | node/src/delivery.rs:1584-1600 | A completion counts only for its environment and for the delivery in flight |
| `Delivery.FailedAdmissionRestores` | node/src/delivery.rs:1308-1361 | A failed wake gives the credit back and leaves nothing registered |
| `Delivery.ClosedStaysClosed` | node/src/delivery.rs:1275-1288 | Closed admission never reopens, and nothing is admitted or started behind it |
| `Delivery.NoCallbackAfterResult` | node/src/lib.rs:1810-1901 | Once a cleanup result is published no callback starts, unless the environment is closing |
| `Delivery.CompletionNeitherLostNorTwice` | node/src/lib.rs:1639-1658 | The completion of an explicit disposal is stored, held or completed, and only one of these, and completed once |
| `Delivery.SuccessHidesNoCallbackFailure` | node/src/lib.rs:1855-1883 | A successful result published while the environment was open hides no callback that failed to be delivered |
| `Delivery.SuccessHidesWakeExactly` | node/src/lib.rs:1833-1883 | Published success hides a failed wake if and only if the dispatcher was still recording it, with no error stored, when the result was decided; and then the join had found the dispatcher kept alive |
| `Delivery.FailedAdmissionMayGoUnreported` | node/src/delivery.rs:1338-1376 | A run in which a batch whose wake failed is recorded only after success was published, while another registration keeps the dispatcher alive |
| `DeliveryEffects.ClosesExactly` | node/src/delivery.rs:1363-1420 | Admission closes exactly when a failure is recorded, a completion asks to stop, the environment abandons what is in flight, or somebody closes it; an error is stored exactly when a failure is recorded |
| `DeliveryEffects.FailureStopsDeliveries` | node/src/delivery.rs:1363-1376 | Over whole runs nothing is admitted from the moment a failure is recorded on |
| `DeliveryEffects.CallbackFailureStopsDeliveries` | node/src/delivery.rs:1489-1554 | Over whole runs a callback that could not be delivered has closed admission, or its thread is recording it |
| `DeliveryEffects.AdmitsExactly` | node/src/delivery.rs:1308-1361 | A batch is admitted exactly while admission is open, the credit is there and the wake succeeds, under a new id with a call queued |
| `DeliveryEffects.DeliveryEndsExactly` | node/src/delivery.rs:1378-1554 | A delivery ends, is called back and fails exactly by the steps that say so, and a failed one is on its way to be recorded |
| `DeliveryEffects.NoDeliveryIsStuck` | node/src/delivery.rs:1480-1554 | Over whole runs what is in flight has been called back, is with the bridge, or has a call queued |
| `DeliveryEffects.ResultExactly` | node/src/lib.rs:1833-1891 | A cleanup's result is success exactly when, as it was decided, everything was released, the engine cleaned up, the coordination succeeded and no failure recorded |
| `DeliveryEffects.EngineIsCleaned` | node/src/lib.rs:1833-1851 | A cleanup closes admission before it disposes of the engine, which is clean exactly if its disposal and the join succeeded |
| `DeliveryEffects.FunctionsAreReleased` | node/src/lib.rs:1853-1880 | The functions are released and finalized before the finalizer decides, and a release that failed is decided against |
| `DeliveryEffects.CompletionFollows` | node/src/lib.rs:1639-1658 | A published result takes the stored completion with it, and a disposal begun later is completed at once |
| `DeliveryStates.DeliveryState.TryAdmitWith` | node/src/delivery.rs:1308-1361 | Spends the credit and fills the slot, or takes everything back |
| `DeliveryStates.DeliveryState.FinishDelivery` | node/src/delivery.rs:1378-1420 | Completes the delivery in flight if it is the one named |
| `DeliveryStates.DeliveryState.CompleteDelivery` | node/src/delivery.rs:1584-1600 | Completes a delivery named from JavaScript |
| `DeliveryStates.DeliveryState.EnterBridge` | node/src/delivery.rs:1480-1488 | The bridge reads what is in flight |
| `DeliveryStates.DeliveryState.TakeBatch` | node/src/delivery.rs:1489-1544 | The bridge takes the batch and calls back, or fails the delivery |
| `DeliveryStates.DeliveryState.ReturnFromCallback` | node/src/delivery.rs:1545-1554 | The callback's return completes the delivery, leaves it to JavaScript or fails it |
| `DeliveryStates.DeliveryState.RecordDeliveryFailure` | node/src/delivery.rs:1363-1376 | The first failure is kept and closes admission |
| `DeliveryStates.DeliveryState.AbandonInFlight` | node/src/delivery.rs:1422-1427 | Environment teardown completes what is in flight and closes admission |
| `DeliveryStates.DeliveryState.BeginExplicitDisposal` | node/src/lib.rs:1639-1658 | Stores the completion, or holds it when the result is already there |
| `DeliveryStates.DeliveryState.PublishCleanupResult` | node/src/lib.rs:1887-1891 | Stores the result and takes the completion in one critical section |
| `Establishment.OneVerdict` | engine/src/lib.rs:118-216 | At most one cancellation takes effect and at most one acknowledgement is sent, which is the token's; after a cancellation no other verdict is sent |
| `Establishment.VerdictStays` | engine/src/lib.rs:156-216 | A decided token never changes, and a cancellation is never undone |
| `Establishment.ErrorAfterTeardown` | engine/src/backend/linux.rs:3746-3893 | Over all runs an error is acknowledged only when the attempt is gone from the registry with its last interest, however its teardown was cut into turns |
| `Establishment.CommitExcludesCancel` | node/src/lib.rs:792-869 | A public commit and an effective cancellation exclude each other over the whole run, and a commit means the engine succeeded |
| `EstablishmentEffects.WalkEndsExactly` | engine/src/backend/linux.rs:3587-3744 | A walk ends in success exactly when it was valid and nobody had asked to cancel, and is otherwise taken apart as failed or cancelled |
| `EstablishmentEffects.EveryAttemptIsAnswered` | engine/src/backend/linux.rs:3746-3893 | Over whole runs an attempt that is over has been answered, unless it succeeded and nobody listened |
| `EstablishmentEffects.CancelTakesEffect` | engine/src/lib.rs:156-180 | A cancellation takes effect exactly if the token has not changed since it was read and was open to it |
| `EstablishmentEffects.NodeCancelsExactly` | node/src/lib.rs:800-813 | A cancellation takes effect unless success is public or one did before, and then engine and delivery are still to be told |
| `EstablishmentEffects.ReadyIsNoted` | node/src/lib.rs:826-835 | Success is public at once exactly if that was asked for and nobody cancelled |
| `EstablishmentEffects.CommitsExactly` | node/src/lib.rs:844-868 | A commit is refused before the handoff, false after a cancellation, and otherwise makes success public |
| `Establishment.EstablishmentAttempt.Cancel` | node/src/lib.rs:800-813 | A cancellation takes effect unless one did before or success is public |
| `Establishment.EstablishmentAttempt.CommitPublicSuccess` | node/src/lib.rs:844-868 | Commits in public once handed over and not cancelled |
| `Establishment.EstablishmentAttempt.NoteNodeReady` | node/src/lib.rs:826-835 | Notes that the subscription is ready and commits at once if asked to |
| `Establishment.EstablishmentAttempt.MarkHandoffReady` | node/src/lib.rs:837-842 | Allows the public commit once the subscription is handed over |
| `AutomaticReconciliation.EveryOrderingKeeps` | js/automatic-reconciliation.js:87-399 | Under every ordering at most one of timer, attempt and root recovery exists, a pending loss has a timer or an attempt, the latch excludes both, and attempts stay bounded |
| `AutomaticReconciliation.CycleIsBounded` | js/automatic-reconciliation.js:145-176 | A cycle calls for reconciliation at most as often as configured |
| `AutomaticReconciliation.CallsBackOff` | js/automatic-reconciliation.js:151-162 | Each call of a cycle waited at least as long as the one before, between the first and the largest delay |
| `AutomaticReconciliation.DelaysGrow` | js/automatic-reconciliation.js:151-156 | Delays double from the first until they reach the largest |
| `AutomaticReconciliation.RecoveredHeardNothing` | js/automatic-reconciliation.js:174-199 | Recovery is reported only after a complete result with no loss heard of since the attempt began |
| `AutomaticReconciliation.ObservedLossIsPending` | js/automatic-reconciliation.js:113-143 | A repairable loss is taken up unless latch or recovery stand in the way, or exhausts the cycle |
| `AutomaticReconciliation.LatchHolds` | js/automatic-reconciliation.js:335-371 | Only a recovery that attaches the root lifts the latch |
| `AutomaticReconciliation.CallsAreCounted` | js/automatic-reconciliation.js:145-170 | Calls of a cycle are counted one by one and forgotten only for a new cycle |
| `AutomaticReconciliation.NoCallAfterDisposal` | js/automatic-reconciliation.js:373-399 | Nothing is reconciled once disposal has begun |
| `AutomaticReconciliation.StrongerObservation` | js/automatic-reconciliation.js:417-428 | Of what is observed during a root recovery the newer root's counts, and of one root the graver |
| `AutomaticEffects.SettlesExactly` | js/automatic-reconciliation.js:171-238 | What every end of an attempt leads to: blocked if the root is gone, the next attempt with its delay or exhaustion if a loss is left, the latch after a failure that cannot be repeated, and otherwise the end of the cycle |
| `AutomaticEffects.ReportsExactly` | js/automatic-reconciliation.js:174-212 | Recovery is reported exactly after a complete result while nothing was heard, and incompleteness exactly after an incomplete one |
| `AutomaticEffects.ReasonIsTheGravest` | js/automatic-reconciliation.js:171-238 | The reason of a cycle is the gravest it has heard of |
| `AutomaticEffects.ObservesExactly` | js/automatic-reconciliation.js:113-143 | Observed uncertainty blocks if the root is gone, is kept for a recovery to end, and changes nothing behind the latch |
| `AutomaticEffects.LossBegins` | js/automatic-reconciliation.js:125-143 | A repairable loss begins a cycle with its first delay, or joins the one under way without moving its timer |
| `AutomaticEffects.RejectionRestores` | js/automatic-reconciliation.js:257-327 | A rejected recovery that heard nothing leaves everything as it was before it began |
| `AutomaticEffects.RejectionObserves` | js/automatic-reconciliation.js:303-327 | What a rejected recovery heard of is acted on as if it was heard after it |
| `AutomaticEffects.ResolvesExactly` | js/automatic-reconciliation.js:297-371 | A recovery that attached the root begins afresh, with uncertainty it reports as the first loss; another blocks |
| `AutomaticEffects.ResolutionObserves` | js/automatic-reconciliation.js:335-371 | What was heard of an older root is dropped, and of the new one it counts beside what the recovery reported |
| `AutomaticEffects.DisposesExactly` | js/automatic-reconciliation.js:373-378 | Disposal cancels the timer for good and lets what is under way end |
| `AutomaticReconciliation.Policy.ObserveCoverage` | js/automatic-reconciliation.js:113-143 | The reaction to observed coverage |
| `AutomaticReconciliation.Policy.Schedule` | js/automatic-reconciliation.js:145-162 | Schedules the next attempt, or exhausts the cycle |
| `AutomaticReconciliation.Policy.OnTimer` | js/automatic-reconciliation.js:157-170 | The timer starts an attempt |
| `AutomaticReconciliation.Policy.OnSettled` | js/automatic-reconciliation.js:171-238 | The attempt settles, and what it leaves pending is scheduled |
| `AutomaticReconciliation.Policy.StartRootRecovery` | js/automatic-reconciliation.js:257-295 | Root recovery suspends the cycle, or is rejected |
| `AutomaticReconciliation.Policy.OnRecoveryResolved` | js/automatic-reconciliation.js:297-302 | A resolved recovery starts afresh or blocks |
| `AutomaticReconciliation.Policy.OnRecoveryRejected` | js/automatic-reconciliation.js:303-327 | A rejected recovery takes the suspended cycle up again, or blocks |
| `AutomaticReconciliation.Policy.BeginDisposal` | js/automatic-reconciliation.js:373-378 | Disposal cancels the timer and forgets the loss |
| `InotifyRecords.ParsesWhatIsWhole` | engine/src/backend/linux.rs:2030-2077 | Wherever a buffer of records ends, the whole ones are parsed in order and unchanged, and truncation is noticed exactly when it ends inside one |
| `InotifyRecords.NativeReader.NextNativeEvent` | engine/src/backend/linux.rs:2030-2077 | Yields the next record, or drops a truncated rest and marks every subscription uncertain that is not about to go |
| `InotifyRecords.NativeReader.Drain` | engine/src/backend/linux.rs:1969-1996 | Reading to the end yields all whole records, and uncertainty exactly after truncation |

## Left out

- TopologyTheorems.WatchBeforeRead: holds while no step lapses; the four lapses are shown to be real and named above.
- TopologyPlacement.CoverageIsExact: holds over runs in which no step lapses or strays; each kind of either is shown to be real and named above, with its exact condition.
- TopologyInterests.AddKeeps: the identity checks before and after the added watch and the call between them are one step of the walk; the registry takes them apart, and a path that changes twice around the call is named above with its exact condition.
- ReconciliationSweep.CommitKeepsTheEncountered: paths are their places in the path order; the order itself is not modelled.
- Delivery.SuccessHidesNoCallbackFailure: covers failures of callbacks while the environment is open; failed wakes have their own condition.
- RegistryTheorems.IgnoredEndsItsOwnWatch: leaves out a quarantined descriptor that lost a record; a run shows what happens there.
- Topology: one subscription whose root stays in place; losing the root is modelled with the subscription.
- Topology: limits, budgets and errors are one nondeterministic refusal; a shared watch is one descriptor lifetime, as the registry shows it to be.
- Topology: promotions pending in a sweep, and the rebuilt order of deferrals, are modelled with the sweep.
- Subscriptions: what the walk does to watched and deferred paths is arbitrary there, since the topology modules describe it.
- Establishment: a disposal or a shutdown that arrives during establishment is modelled as a teardown of the attempt.
- Subscriptions: establishment teardown and disposal end the runs; they are modelled with establishment and disposal.
- Subscriptions: pending paths after a consumer has gone are dropped silently, as in the code.
- Real time: batch windows, identity checks and timers are due at any moment; only the backoff arithmetic is kept.
- Numeric exhaustion of sequences, epochs, identifiers and counters; the quarantine of watch lifetimes is modelled.
- Recycling of file identities while a stale entry names them.
- System calls, threads, wakeups, locks and their poisoning, and the N-API calls behind the bridge.
- Environment teardown beyond its effect on admission, deliveries and completions, and the fallback when a thread cannot start.
- The retained coordination errors of a cleanup, except that one may make its result a failure.
- The mount table and control group parsers, host capability probing and packaging, which would add easy members only.
- Option validation, error wrapping, status bounding and statistics of all layers, for the same reason.
