# Deferred writes, updates and capabilities: a verified model

An agent's write is queued, simulated, decided on by an operator and only then carried out. This project models the
layers that make this safe, states what they promise over every run, and proves it with Dafny.

The layers, outermost first, and the modules that model them:

- **Kernel queue.** `ApprovalRows` holds the kernel's action rows beside the journals of all resource drivers and keeps
  one invariant through every step of either layer; `ApprovalRuns` proves what follows over whole runs, crashes and
  restarts included. `ApprovalDrivers` shows that the operations of the kit's drivers are steps of those runs.
  `ActionCoordinator` is the decision and the automatic drain, `Flights` the promise chain per instance, and
  `SerializedRuns` puts chains and claims together.
- **Kit journal.** `KitJournal` is the durable state of one driver (records, id sequence, overlay); `KitGatekeeper` is
  the driver base class over it, with every durable write a possible crash point.
- **Filesystem transaction.** `FileSystem` is a directory with inodes and atomic syscalls, `TransactionWorld` the private
  journal beside it, `Transactions` the driver, syscall by syscall, interleaved with outside writers. `TransactionWindows`
  shows that the two exceptions to "no outside edit is destroyed" are real.
- **Directory driver.** `DirectoryQueue` is what a session sees through queued writes; `DirectoryOrder` says exactly
  which queues apply completely and what a revert restores; `FsDirectory` is the driver over a kit journal and a
  `Transactions` object.
- **Update saga.** `UpdateJournal` and `UpdateSaga`: the nine-step update, its recovery, and what other commands read.
- **Capabilities.** `Authority` and `Kernel`: grants, observers, preflights, tool decisions.
- **Fragment parser.** `JsonGrammar` is the language as a function of the remaining text, `Json5` the cursor-based parser
  proved against it, `JsonSpelling` every way to spell a value, `JsonPrinter` the way the command line spells it.
- **Helpers of the kit.** `CacheMutationStore` and `TokenStore`.

How crashes and interleavings are covered: a class has one field of a subset type (`GoodWorld`, `GoodDisk`, `GoodCell`,
`GoodMachine`, `GoodLoop`, `GoodState`), so the verifier checks the invariant at every single assignment, that is, at
every point where the process can die. Everything outside the code (outside writers, failing writes, death of the
process, answers of drivers) is one `Host` value of functions that the code consults; a contract that holds for every
host holds for every interleaving, every fault and every crash point. Histories (`invoked`, `losses`, `order`, `log`,
`calls`, `started`, `starts`) are fields no operation branches on.

## Where the code does less than one might expect

- **Simulation and application.** Applying a whole queue in id order makes the disk show what the overlay showed, but not
  every queue applies. After three writes on one path, applying the first and rejecting the second leaves the third
  waiting for the state before the first (`RejectedInTheMiddleRefuses`, `RejectedInTheMiddleHappens`); reverting an
  applied write does the same to a later write that took it as its baseline (`RevertedBaselineRefuses`).
  `FsDirectory.ApplyAll` states the exact condition, checkable beforehand (`DirectoryQueue.WillApply`).
- **A replacement of an unreadable file blocks.** A write to an existing regular file whose content is not bounded text
  passes the description and fails in the simulation, after the submission; its record becomes `uncertain` and the
  resource is blocked from then on (`FsDirectory.Write`).
- **Doubt in the kit alone** blocks an uncertain action and everything after it, not what was queued before it
  (`InDoubtBlocksLater`, `InDoubtDoesNotBlockEarlier`). The directory driver blocks everything.
- **Lost bytes.** Besides the documented rename window, link mode can destroy an edit an outside writer made to the file
  just published, when a second edit then takes its name (`OwnFileLossIsReal`). It takes exactly that: at unlink(2) a
  file is lost only if an outside step took its target name since the identity check, and bytes other than the
  driver's only if another step came after link(2) (`LastOfBoth`, `TransactionWorld.OwnFileLoss`).
- **Rollback does not always converge.** Dying between the two renames of a restore leaves no lockfile, and every later
  rollback refuses for want of one (`DyingBetweenRenames`, `UpdateSaga.Updater.Rollback`, `UpdateSaga.Updater.Lifetimes`).
- **A leftover guard.** Dying after a terminal state is saved and before the guard file is removed leaves a machine on
  which neither an update nor a rollback is ever admitted again (`DyingBeforeUnlink`, `StuckExactly`).
- **The parser loses one key.** An assignment to `__proto__` sets a prototype; a value survives printing and parsing
  exactly when it has no such key (`RoundTripsExactly`).
- **Overlay after an operation.** Recovery returns without checking that a simulation recorded its entry: with nothing
  missing before, it ends in agreement under every host; with anything missing, some host lets it return without
  (`SomeHostForgets`), and it agrees exactly when every simulation it ran recorded its entry. Afterwards a failed
  cleanup write can leave a settled journal that disagrees: an application or rejection leaves a shown entry behind, a
  submission a pending action without one. Each contract states the condition, and that some host meets it;
  `AgreementLostForGood` is such a life from the empty journal.
- **Order of arrival.** Which mutations a cache store takes can depend on their order when reducers throw
  (`OrderCanMatter`, `AnotherOrder`).
- **An applied row behind a failed decision.** When the audit write after a verdict throws, the decision throws although
  the row reads applied, and an automatic drain stops there (`ActionCoordinator.Perform`).

## Assumptions

`writeState`, `writeJsonAtomic` and `saveUpdate` replace a file atomically and durably. SHA-256 is injective. Random
handles, update ids and stage names are fresh. One driver object is live per journal. Outside writers act on a name by
writing in place, replacing, creating or unlinking it, never on the stage name of an unfinished transaction, and without
descriptors or hard links kept from before. One `inspect` is an atomic snapshot. Reading the update journal and the
lockfile is one step. In `ActionCoordinator` a driver's lifecycle method returns normally only once its journal says the
action got there, which `ApprovalDrivers` proves of the kit's drivers.

## Model

| member | source | states |
|---|---|---|
| FileSystem.StampIdentifies | packages/gkos-gatekeeper-fs/src/io.ts:143-168 | a baseline stamp matches exactly the state of the target it was taken from, bytes included |
| TransactionWorld.OutsideKeepsGood | packages/gkos-gatekeeper-fs/src/apply.ts:114-206 | any outside step keeps the world's invariant and leaves the stage of an unfinished transaction untouched |
| TransactionWorld.SetTxKeepsGood | packages/gkos-gatekeeper-fs/src/apply.ts:122-122 | rewriting the journal record of a transaction keeps the invariant as long as it stays truthful about what was lost or staged |
| TransactionWorld.UnlinkStageKeepsGood | packages/gkos-gatekeeper-fs/src/apply.ts:163-186 | dropping the stage name destroys only the recorded preimage or, in link mode, the driver's own new file, whose target name an outside step took since the last check; bytes other than the driver's only when a further step followed link(2) |
| TransactionWorld.RenameStageKeepsGood | packages/gkos-gatekeeper-fs/src/apply.ts:170-177 | a rename over the target destroys only the recorded preimage, or an edit made since the last check when the record says `rename` |
| Transactions.Transactions.Run | packages/gkos-gatekeeper-fs/src/apply.ts:114-206 | under every interleaving, fault and crash: a receipt is returned exactly when the transaction went from nothing to `applied`, with a preimage of what was expected; otherwise nothing started or the resource is blocked; undisturbed, it succeeds exactly when the target is the expected replaceable file, and then exactly that name holds the whole new content |
| Transactions.Transactions.Begin | packages/gkos-gatekeeper-fs/src/apply.ts:124-133 | nothing is journaled unless the target is the expected one, owned, without special bits; then preimage and intent are durable |
| Transactions.Transactions.WriteAll | packages/gkos-gatekeeper-fs/src/apply.ts:145-149 | whatever number of bytes each write accepts, on success the stage file holds exactly the desired bytes |
| Transactions.Transactions.Recheck | packages/gkos-gatekeeper-fs/src/apply.ts:151-157 | success means the stage is ours and whole and the target matched at the moment counted from |
| Transactions.Transactions.PublishByLink | packages/gkos-gatekeeper-fs/src/apply.ts:161-166 | link mode never replaces a target; with no outside step since it began nothing is destroyed; undisturbed it moves the staged file to the target name |
| Transactions.LastOfBoth | packages/gkos-gatekeeper-fs/src/apply.ts:163-166 | under every interleaving, unlink(2) destroys the published file exactly when its target name no longer denotes it; that takes an outside step since the identity check, and bytes other than the driver's are then lost only if two steps followed link(2) |
| Transactions.Transactions.PublishByRename | packages/gkos-gatekeeper-fs/src/apply.ts:170-177 | rename mode is recorded before the rename; undisturbed it moves the staged file over the baseline |
| Transactions.Transactions.PublishByExchange | packages/gkos-gatekeeper-fs/src/apply.ts:167-187 | a swapped-out file is dropped only if it is the baseline; without a swap it falls back to rename after another check |
| Transactions.Transactions.Effect | packages/gkos-gatekeeper-fs/src/directory.ts:80-83 | over an unfinished transaction an effect is refused without a trace |
| Transactions.Transactions.Lifetimes | packages/gkos-gatekeeper-fs/src/apply.ts:77-85 | once a transaction is unfinished, no effect over any number of restarts changes the directory or the journal again |
| TransactionWindows.RenameWindowIsReal | packages/gkos-gatekeeper-fs/src/apply.ts:154-157 | the documented residual window: one edit between the last check and the rename is destroyed |
| TransactionWindows.OwnFileLossIsReal | packages/gkos-gatekeeper-fs/src/apply.ts:161-166 | in link mode an edit to the file just linked is destroyed when a second edit takes the name: two steps are enough |
| TransactionWindows.OneStepLosesOwnBytes | packages/gkos-gatekeeper-fs/src/apply.ts:161-166 | one outside step is enough to lose the driver's own bytes |
| KitJournal.SetStatusKeepsGood | packages/gatekeeper-kit/src/kit-gatekeeper.ts:135-175 | every journal write of the driver keeps the invariant, and no status ever moves backwards |
| KitJournal.AddRecordKeepsGood | packages/gatekeeper-kit/src/kit-gatekeeper.ts:110-112 | a new record under a freshly reserved id keeps the invariant |
| KitJournal.InvokeKeepsGood | packages/gatekeeper-kit/src/kit-gatekeeper.ts:138-142 | calling the driver's apply or revert for an action just marked keeps every call unique and applications in id order |
| KitJournal.CompleteKeepsGood | packages/gatekeeper-kit/src/kit-gatekeeper.ts:142-144 | a call that returned is recorded before the status that says so |
| KitJournal.InvokedAtMostOnce | packages/gatekeeper-kit/src/kit-gatekeeper.ts:135-175 | over every run, crashes included, an action's apply and its revert are each invoked at most once |
| KitJournal.RejectedNeverApplies | packages/gatekeeper-kit/src/kit-gatekeeper.ts:153-160 | a rejected action was never applied and never will be |
| KitJournal.UncertainIsAbsorbing | packages/gatekeeper-kit/src/kit-gatekeeper.ts:54-56 | an uncertain action stays uncertain and keeps the driver unsettled |
| KitJournal.InDoubtBlocksLater | packages/gatekeeper-kit/src/kit-gatekeeper.ts:138-139 | while an action is in doubt only earlier ones can still be applied |
| KitJournal.InDoubtDoesNotBlockEarlier | packages/gatekeeper-kit/src/kit-gatekeeper.ts:138-139 | an earlier pending action really can be applied then |
| KitGatekeeper.KitGatekeeper.constructor | packages/gatekeeper-kit/src/kit-gatekeeper.ts:32-47 | the driver resumes the journal it finds, and its next id lies above every recorded one |
| KitGatekeeper.KitGatekeeper.RecoverOverlay | packages/gatekeeper-kit/src/kit-gatekeeper.ts:57-69 | wherever the last crash fell, it touches neither journal nor resource; a normal return means stale entries are gone and exactly the missing effects were simulated again, and overlay and journal then agree exactly when each of those simulations recorded its entry |
| KitGatekeeper.SomeHostForgets | packages/gatekeeper-kit/src/kit-gatekeeper.ts:62-67 | for every settled journal with a missing entry, some driver lets recovery return without agreement |
| KitGatekeeper.AgreementLostForGood | packages/gatekeeper-kit/src/kit-gatekeeper.ts:57-69 | from the empty journal: a submission leaves its action without an entry, and recovery returns over it |
| KitGatekeeper.KitGatekeeper.Reserve | packages/gatekeeper-kit/src/action-sequencer.ts:20-26 | the id is durable before it is used, so it is never handed out again |
| KitGatekeeper.KitGatekeeper.Submit | packages/gatekeeper-kit/src/kit-gatekeeper.ts:106-130 | only the new id's record changes; a normal return leaves it pending with its overlay entry, or applied when it awaited a decision; a settled submission breaks agreement exactly by leaving its action pending without an entry, which takes an accepted submission with a simulated effect, and some host leads to it; without faults it succeeds exactly when nothing is in doubt, the call is new, an id is left and, if applied at once, everything earlier is decided |
| KitGatekeeper.KitGatekeeper.ApplyRecorded | packages/gatekeeper-kit/src/kit-gatekeeper.ts:135-146 | an action is applied once and in order; without faults it succeeds exactly when it is its turn or it was applied before; agreement survives every host exactly when the action is not at once next and shown in the overlay |
| KitGatekeeper.SomeHostStrands | packages/gatekeeper-kit/src/kit-gatekeeper.ts:138-145 | for every action that is next and shown, some host applies it and leaves its entry behind |
| KitGatekeeper.KitGatekeeper.RejectAction | packages/gatekeeper-kit/src/kit-gatekeeper.ts:153-160 | a pending action becomes rejected and its overlay entry goes, without any call into the resource; without faults it succeeds exactly for pending and rejected actions; agreement survives every host exactly when the action is not shown |
| KitGatekeeper.KitGatekeeper.RevertAction | packages/gatekeeper-kit/src/kit-gatekeeper.ts:162-175 | only an applied action that offers it is reverted, once; without faults it succeeds exactly for those and for actions reverted before |
| ApprovalRows.EnqueueKeepsGood | packages/gkos-kernel/src/store.ts:54-54 | a submission becomes a row behind its predecessors, with the description of its record |
| ApprovalRows.ClaimKeepsGood | packages/gkos-kernel/src/store.ts:63-63 | claiming an eligible row before the effect keeps the cross-layer invariant |
| ApprovalRows.DecideKeepsGood | packages/gkos-kernel/src/actions.ts:79-84 | recording the verdict after the driver returned keeps rows truthful and applications in row order |
| ApprovalRows.ReservedIdHasNoRow | packages/gatekeeper-kit/src/action-sequencer.ts:20-26 | a reserved id has no row yet, so INSERT OR IGNORE inserts |
| ApprovalRuns.AppliedMeansExactlyOnce | packages/gkos-kernel/src/actions.ts:65-92 | in every run a row reading applied or reverted means the driver was called exactly once for it and returned |
| ApprovalRuns.RejectedMeansNever | packages/gkos-kernel/src/actions.ts:81-83 | in every run a row reading rejected means the action was never applied and never will be |
| ApprovalRuns.NeverTwice | packages/gkos-kernel/src/store.ts:62-63 | in every run each driver is called at most once to apply and once to revert an action |
| ApprovalRuns.AppliedInSubmissionOrder | packages/gkos-kernel/src/actions.ts:67-68 | per instance, verdicts are recorded in the order of rows and of action ids, and the driver itself is called to apply in that order |
| ApprovalRuns.CallsFollowRows | packages/gkos-kernel/src/actions.ts:67-68 | the driver's calls to apply follow the rows of their actions |
| ApprovalRuns.ApprovedIsApplied | packages/gkos-kernel/src/approvals.ts:15-15 | the description of a row is and stays that of the record its driver applies |
| ApprovalDrivers.Decision | packages/gatekeeper-kit/src/kit-gatekeeper.ts:135-175 | however a lifecycle call of a kit driver ends and wherever it dies, it is one driver step of those runs, and a normal return means what the queue records of it |
| ApprovalDrivers.Opening | packages/gatekeeper-kit/src/kit-gatekeeper.ts:57-69 | recovery at the start of a session is one driver step of those runs, wherever it ends |
| ApprovalDrivers.Submit | packages/gatekeeper-kit/src/kit-gatekeeper.ts:106-130 | a submission is a run of at most three steps, record, row, rest; after a normal return its row is the newest, pending, with the record's description |
| SerializedRuns.ClaimFindsNoFlight | packages/gkos-kernel/src/actions.ts:57-76 | because tasks of an instance never overlap, a claim always finds no other decision of its instance being carried out |
| SerializedRuns.KernelRunsAreRuns | packages/gkos-kernel/src/actions.ts:37-92 | every run of promise chains, claims, drivers and restarts together is a run of rows and journals as above |
| SerializedRuns.OneDecisionAtATime | packages/gkos-kernel/src/actions.ts:57-63 | a decision being carried out belongs to the running task of its instance |
| ActionCoordinator.EligibleRunIsLongest | packages/gkos-kernel/src/actions.ts:41-45 | the rows a drain is meant to attempt are all pending ones up to the first failed or ineligible open row, in order |
| ActionCoordinator.ActionCoordinator.Perform | packages/gkos-kernel/src/actions.ts:65-92 | an ineligible decision is refused without a trace; without authority the row stays untouched; with it a normal return means the verdict is recorded, and any other outcome a failed row, or the verdict already recorded when the audit write behind it failed; no other row of the instance changes |
| ActionCoordinator.ActionCoordinator.Drain | packages/gkos-kernel/src/actions.ts:37-49 | one pass attempts a prefix of the longest eligible run, each attempt but the last succeeds, and it stops short only when stopped or failed; with a working audit log a failed last attempt left its row unapplied |
| Flights.NextKeepsGood | packages/gkos-kernel/src/actions.ts:57-63 | every event of the promise chains keeps their invariant, in whatever order callbacks run |
| Flights.AtMostOneRunning | packages/gkos-kernel/src/actions.ts:57-63 | at most one task per instance runs |
| Flights.NeverStuck | packages/gkos-kernel/src/actions.ts:59-59 | a waiting task has a running predecessor or one that may start, whatever was rejected before |
| Flights.EntryTellsActivity | packages/gkos-kernel/src/actions.ts:52-61 | an instance without an entry is idle, and an idle instance whose callbacks ran has no entry |
| Flights.QuiescentAfterStop | packages/gkos-kernel/src/actions.ts:55-58 | once the promises awaited by stop have settled, nothing runs, waits, starts or is accepted ever after |
| Flights.StartsFollowArrival | packages/gkos-kernel/src/actions.ts:59-60 | per instance, tasks start in arrival order, each after its predecessor settled |
| Flights.Serializer.Serial | packages/gkos-kernel/src/actions.ts:57-63 | a stopped coordinator rejects; otherwise the task is chained behind the newest of its instance |
| DirectoryQueue.ApplyKeepsRead | packages/gkos-gatekeeper-fs/src/directory.ts:184-189 | applying the head of the queue leaves every confined read as it was |
| DirectoryQueue.ApplyKeepsList | packages/gkos-gatekeeper-fs/src/directory.ts:190-202 | applying the head of the queue leaves every confined listing as it was, denials and the bound of 1000 included |
| DirectoryQueue.EnqueueReadsBack | packages/gkos-gatekeeper-fs/src/directory.ts:71-76 | a queued write reads back, and no other path is affected |
| DirectoryQueue.PublicationIsNew | packages/gkos-gatekeeper-fs/src/apply.ts:54-62 | a file just published matches no earlier stamp and no earlier receipt |
| DirectoryOrder.QuietHistoryIsGood | packages/gkos-gatekeeper-fs/src/directory.ts:60-91 | without outside writers every history of writes, rejections, applications and reverts, those that fail after the mark included, keeps the chain of publications intact |
| DirectoryOrder.HeadForecast | packages/gkos-gatekeeper-fs/src/directory.ts:130-137 | at the head of the queue the forecast from journal and baseline is exactly the check an application makes |
| DirectoryOrder.ForecastStands | packages/gkos-gatekeeper-fs/src/directory.ts:130-137 | applying the head changes the forecast of no other queued write |
| DirectoryOrder.RejectedInTheMiddleRefuses | packages/gkos-gatekeeper-fs/src/directory.ts:132-133 | a write whose direct predecessor was rejected after an earlier write on the path was applied refuses |
| DirectoryOrder.RejectedInTheMiddleHappens | packages/gkos-gatekeeper-fs/src/directory.ts:132-133 | such a queue exists |
| DirectoryOrder.RevertedBaselineRefuses | packages/gkos-gatekeeper-fs/src/directory.ts:131-131 | a write whose baseline was an applied write refuses once that one is reverted |
| DirectoryOrder.RevertedBaselineHappens | packages/gkos-gatekeeper-fs/src/directory.ts:131-131 | such a queue exists: its second write would have applied before the revert |
| DirectoryOrder.RevertRestores | packages/gkos-gatekeeper-fs/src/directory.ts:86-91 | apply followed by revert restores the previous bytes and, if nobody changed it, the previous mode |
| FsDirectory.NothingInDoubtIsSettled | packages/gkos-gatekeeper-fs/src/directory.ts:108-115 | when the journal holds nothing in doubt, every transaction of the resource reached `applied` |
| FsDirectory.AppliedIsBacked | packages/gatekeeper-kit/src/kit-gatekeeper.ts:142-144 | a journal status applied or reverted means its transactions reached `applied`, with receipt and preimage |
| FsDirectory.FsDirectory.AssertResourceSettled | packages/gkos-gatekeeper-fs/src/directory.ts:108-115 | it passes exactly when nothing is in doubt |
| FsDirectory.FsDirectory.Write | packages/gkos-gatekeeper-fs/src/directory.ts:51-77 | a write is queued exactly when nothing is in doubt, the content is bounded text and the target readable; the resource is blocked exactly when only the content of an old plain file stands in the way |
| FsDirectory.FsDirectory.Precheck | packages/gkos-gatekeeper-fs/src/directory.ts:231-234 | the deterministic refusal before anything is marked: what the target must be, and that it is that |
| FsDirectory.FsDirectory.ApplyAction | packages/gkos-gatekeeper-fs/src/directory.ts:227-237 | success published over exactly the simulated baseline or a recorded predecessor's publication; failure leaves no trace or blocks; undisturbed it succeeds exactly as forecast |
| FsDirectory.FsDirectory.ApplyAll | packages/gkos-gatekeeper-fs/src/directory.ts:60-85 | undisturbed, applying the whole queue in id order succeeds exactly when every queued write is forecast to, and then every read and listing on disk is what the overlay showed |
| FsDirectory.FsDirectory.RevertAction | packages/gkos-gatekeeper-fs/src/directory.ts:241-251 | a revert displaces only the file its own application published; undisturbed it succeeds exactly when it was offered, has bytes to restore and that file stands |
| FsDirectory.FsDirectory.ApplyThenRevert | packages/gkos-gatekeeper-fs/src/directory.ts:78-91 | undisturbed, a revertible write forecast to replace a file, applied and then reverted, leaves the old bytes and the old mode |
| FsDirectory.FsDirectory.RejectAction | packages/gkos-gatekeeper-fs/src/directory.ts:239-239 | a pending write is retired without touching the directory |
| FsDirectory.FsDirectory.Lifetimes | packages/gkos-gatekeeper-fs/src/directory.ts:107-115 | once an action is in doubt no request over any number of restarts changes the directory, its transactions or the doubt; undisturbed, whatever is requested keeps the invariant of quiet histories |
| UpdateJournal.UsableMeansAgreement | packages/gkos-cli/src/util/runtime.ts:9-23 | whenever ordinary commands may run, service selection and lockfile agree on the runtime |
| UpdateJournal.StatesAreTruthful | packages/gkos-cli/src/util/update-transaction.ts:82-133 | blocked means activation never began, committed that all nine steps completed, rolled-back that the found runtime is in place |
| UpdateJournal.StuckExactly | packages/gkos-cli/src/commands/update.ts:327-350 | with the state directory in place, neither command is admitted exactly when a guard was left over a terminal, uncommitted or absent journal |
| UpdateJournal.AwayOnlyInRecovery | packages/gkos-cli/src/commands/update.ts:275-276 | the state directory is away only during a recovery past activation |
| UpdateJournal.DyingBeforeUnlink | packages/gkos-cli/src/commands/update.ts:379-412 | dying between the terminal save and the removal of the guard leaves a stuck machine |
| UpdateJournal.DyingBetweenRenames | packages/gkos-cli/src/commands/update.ts:275-276 | dying between the renames leaves a machine that admits rollback but no update |
| UpdateSaga.Updater.Finish | packages/gkos-cli/src/util/update-transaction.ts:95-98 | an effect runs only once its step is durable, and its completion is durable before the next step |
| UpdateSaga.Updater.Execute | packages/gkos-cli/src/util/update-transaction.ts:82-133 | a normal return means a durable commit; a failure ends blocked, rolled back, in need of recovery, or committed and paused |
| UpdateSaga.Updater.Restore | packages/gkos-cli/src/commands/update.ts:240-290 | success puts the archived lockfile and the old selection back; without a lockfile nothing is touched |
| UpdateSaga.Updater.Update | packages/gkos-cli/src/commands/update.ts:292-344 | no update starts over an unfinished one or past a guard; success leaves the target pinned and selected, and is certain when admitted and nothing fails |
| UpdateSaga.Updater.Rollback | packages/gkos-cli/src/commands/update.ts:346-413 | success ends in blocked exactly below step seven and in rolled-back otherwise; a failed attempt is accepted again; with working effects it succeeds exactly when the state directory is in place or not needed |
| UpdateSaga.Updater.CommittedRuntime | packages/gkos-cli/src/util/runtime.ts:9-23 | it returns exactly outside activation and recovery, and then the runtime both lockfile and service select |
| UpdateSaga.Updater.Lifetimes | packages/gkos-cli/src/commands/update.ts:346-413 | over any number of commands and crashes a stuck machine never changes, and a missing state directory never comes back |
| Authority.NextKeepsGood | packages/gkos-kernel/src/store.ts:31-69 | every step of grants, observers, preflights, decisions and calls keeps the invariant |
| Authority.CallsAreAuthorized | packages/gkos-kernel/src/kernel.ts:66-66 | when a call reaches a session its grant is active for that agent, session and cell and nobody observes |
| Authority.OneCallPerPreflight | packages/gkos-kernel/src/kernel.ts:58-66 | in every run each preflight executes at most once with its own tool and parameters, and each approval serves one matching call |
| Authority.NoCallAfterRevocation | packages/gkos-kernel/src/kernel.ts:101-101 | after a revocation or lockdown no call under that grant, or under a later one for the same agent, resource, operator and scope, ever executes |
| Authority.NoCallAfterOutsider | packages/gkos-kernel/src/kernel.ts:79-80 | after the first outside participant no call of that session ever executes |
| Authority.ObserversOnlyGrow | packages/gkos-kernel/src/store.ts:65-67 | observers of a session and their taints are never lost |
| Kernel.Kernel.InsertGrant | packages/gkos-kernel/src/store.ts:36-39 | introducing a known identity returns the row on record, dead or alive |
| Kernel.Kernel.SetObservers | packages/gkos-kernel/src/store.ts:65-65 | untainted rows are replaced, tainted ones stay |
| Kernel.Kernel.AddParticipant | packages/gkos-kernel/src/kernel.ts:80-80 | a participant joins the observers and none leaves |
| Kernel.Kernel.ConsumeToolApproval | packages/gkos-kernel/src/store.ts:69-69 | a decision is used up by asking, and allows exactly the call it was given for |
| Kernel.Kernel.OnToolResult | packages/gkos-kernel/src/kernel.ts:58-66 | the stash entry is always consumed, and the call executes exactly when every check passes again |
| Kernel.Kernel.Revoke | packages/gkos-kernel/src/kernel.ts:101-101 | the grant is dead and no preflight under it remains |
| JsonGrammar.StringTail | packages/gkos-cli/src/util/json5.ts:70-109 | reading a string always stops within the text, and consumes at least its closing quote |
| JsonGrammar.Value | packages/gkos-cli/src/util/json5.ts:146-187 | every text yields a value that consumed something, or a problem found within it |
| Json5.Parser.SkipGap | packages/gkos-cli/src/util/json5.ts:52-68 | the cursor ends after whitespace and comments, as the grammar says |
| Json5.Parser.ParseString | packages/gkos-cli/src/util/json5.ts:70-109 | the string and the cursor after it are those of the grammar |
| Json5.Parser.ParseNumber | packages/gkos-cli/src/util/json5.ts:111-133 | the number and the cursor after it are those of the grammar |
| Json5.Parser.ParseValue | packages/gkos-cli/src/util/json5.ts:146-187 | value, problem, position and cursor are those of the grammar |
| Json5.PositionOf | packages/gkos-cli/src/util/json5.ts:35-45 | line and column count newlines before the position and units since the last of them |
| Json5.ParseJson5 | packages/gkos-cli/src/util/json5.ts:189-192 | every text gives a value or a positioned problem, as the grammar says |
| JsonSpelling.GapSkips | packages/gkos-cli/src/util/json5.ts:52-68 | any mix of whitespace and comments is skipped whole, and nothing after it |
| JsonSpelling.EndSkips | packages/gkos-cli/src/util/json5.ts:52-60 | at the end of the text a line comment needs no newline |
| JsonSpelling.CharsParse | packages/gkos-cli/src/util/json5.ts:70-109 | any spelling of a string reads as the string |
| JsonSpelling.IntParse | packages/gkos-cli/src/util/json5.ts:111-133 | any safe integer reads as itself: signed, zero-padded, or in hexadecimal |
| JsonSpelling.SpellingParses | packages/gkos-cli/src/util/json5.ts:32-193 | any spelling of a value, with any gaps, comments, trailing commas and a last comment that ends the text, parses to the value |
| JsonPrinter.PrintParses | packages/gkos-cli/src/util/fsx.ts:65-68 | what the command line prints for a value parses to that value |
| JsonPrinter.ParsedHasNoProto | packages/gkos-cli/src/util/json5.ts:161-161 | no text parses to a value with a `__proto__` key |
| JsonPrinter.RoundTripsExactly | packages/gkos-cli/src/util/fsx.ts:65-68 | a value survives printing and parsing exactly when it has no `__proto__` key |
| CacheMutationStore.ArrivalOrderIsIrrelevant | packages/gatekeeper-kit/src/cache-mutation-store.ts:34-38 | whether adds are valid does not depend on their order, nor do the pending effects and the view they give |
| CacheMutationStore.AnotherOrder | packages/gatekeeper-kit/src/cache-mutation-store.ts:19-38 | with reducers that may throw, adds taken in one order are taken in another exactly when every prefix of that order replays, and end the same |
| CacheMutationStore.OrderCanMatter | packages/gatekeeper-kit/src/cache-mutation-store.ts:26-38 | the condition can fail |
| CacheMutationStore.InsertedOrdered | packages/gatekeeper-kit/src/cache-mutation-store.ts:35-36 | inserting keeps the order exactly when the id is new |
| CacheMutationStore.CacheMutationStore.Save | packages/gatekeeper-kit/src/cache-mutation-store.ts:26-30 | the view is the replay of the pending effects over the base, and a throwing reducer changes nothing |
| CacheMutationStore.CacheMutationStore.Add | packages/gatekeeper-kit/src/cache-mutation-store.ts:34-38 | an effect is added exactly when it is valid, new and replays |
| CacheMutationStore.CacheMutationStore.Remove | packages/gatekeeper-kit/src/cache-mutation-store.ts:40-40 | the view is rebuilt without the effect |
| CacheMutationStore.CacheMutationStore.Commit | packages/gatekeeper-kit/src/cache-mutation-store.ts:44-44 | retiring the oldest effect with a base that includes it leaves the view unchanged |
| TokenStore.NextKeepsGood | packages/gatekeeper-kit/src/token-store.ts:23-67 | every event keeps generations equal to the writes made and refreshes single |
| TokenStore.SupersededNeverWins | packages/gatekeeper-kit/src/token-store.ts:60-62 | over every interleaving the stored record is the last write, and no refresh wrote after a later put, remove or refresh of its account |
| TokenStore.OneRefreshAtATime | packages/gatekeeper-kit/src/token-store.ts:57-66 | at most one refresh per account has not settled |
| TokenStore.TokenStore.RefreshAccount | packages/gatekeeper-kit/src/token-store.ts:55-66 | a refresh in flight is shared, otherwise one begins |
| TokenStore.TokenStore.Arrive | packages/gatekeeper-kit/src/token-store.ts:60-62 | a result is stored exactly when nothing wrote the account since the refresh began |

## Left out

- Real syscalls: `/proc/self/fd` walks, mount ids, the probing of exchange tools, fsync and parent identity checks; a failed one counts as a step that throws.
- The same-turn window of the directory driver (`openWindow`, `enterWindow`): it rests on the phases of the event loop.
- Directories below the granted one are path prefixes; their existence, and the shape of relative paths, are not modelled, nor is UTF-8 validity.
- The order in which a listing is sorted, and the read cache of the directory driver, which never decides a result.
- Journal writes of the directory driver do not fail or crash in `FsDirectory`; their faults are covered in `KitGatekeeper`, whose driver calls are arbitrary.
- The list handling of explicit decisions (`decide`), whose members are decided one by one as in `ActionCoordinator.Perform`; what audit lines say, whose writes may fail there; restart notifications.
- Action bindings and per-action authority are one yes-or-no answer of the host in `ActionCoordinator`; the grants behind it are in `Authority`.
- The read loop inside `inspect`; serialization inside a driver (`ActionSequencer.run`), which is the chain of `Flights` with a single instance; payloads and mergers of the overlay store beyond the fold in `CacheMutationStore`.
- Encryption, digests, random generation and SQLite itself; the tables are maps and sequences.
- Kernel tools that consume a stash entry without a driver session, introductions, notifications, prompt building, routing and adapters.
- Lockdown of instances (the flag on the instance row); the lockdown of grants is modelled.
- In the update saga: network, health, schema and digest checks are answers of the host; the lockfile holds only runtime and version; other commands do not write it meanwhile.
- Number lexemes other than safe integers are accepted or refused as a parameter says, and kept as written.
- Property order of JavaScript objects for integer-like keys: members keep the order of assignment.
- `config-apply.ts` and blueprint reconciliation, schema checks, command grammars, views and test harnesses.
- Negative zero: `-0` reads as the integer zero.
- TransactionWorld.UnlinkStageKeepsGood: allows, in link mode, the loss of the driver's own new file and of an edit made to it, under the stated condition, because the code does not prevent it.
- KitGatekeeper.KitGatekeeper.RecoverOverlay: does not promise agreement on every normal return, because the code does not check what a simulation recorded.
- KitGatekeeper.KitGatekeeper.Submit: does not promise agreement after a thrown call whose cleanup write failed, because that cleanup is the code's only one.
