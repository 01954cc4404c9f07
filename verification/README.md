# Verified model of the chat control plane

This project models the protocols of a control plane that drives opaque desktop and Android chat
clients, and proves what those protocols promise. Each protocol is a machine over atomic steps (one
critical section, one SQL statement, one system call), with crashes, failures and other threads as
further steps. The main theorems quantify over every finite sequence of steps. Beside the machines
stand classes with the program's own fields; their methods follow the program's control flow and
are proved against the machine's step functions or its invariant.

| files | component |
|---|---|
| `SendJournal`, `SendProtocol`, `SendSafety`, `SendOutcomes`, `SendTruth`, `SendExpiry`, `SendService` | prepare, reserve, dispatch, finalize: the send transaction across service, journal and driver |
| `AuthChallenge`, `AuthSafety`, `AuthOnline`, `AuthCodes`, `AuthEntry`, `AuthService` | one authentication challenge under any number of request threads |
| `AccountRegistry`, `AccountStore`, `AccountRemoval`, `RegistryViews` | the account registry, its store object, removal across crashes, and how their views of an account agree |
| `RuntimeManager`, `RuntimeSafety`, `RuntimeRuns`, `RuntimeService` | platform locks, active slots, ingest loops, repair, restore, shutdown |
| `SurfaceSession`, `SurfaceReplay`, `SurfaceDriver` | one-shot surface actions and replay tombstones |
| `ProfileDocuments`, `ProfileMigration`, `ProfileMigrationRuns` | migration of WeCom profile metadata by atomic exchange |
| `ProfileBinding`, `ProfileBindingRuns`, `ProfilePublisher` | binding a WeCom profile: sentinel before metadata, rollback, recovery |
| `TimeText`, `MessageStore`, `MessageWatch` | the order of stored times, the message table, paging, and following it by cursor |
| `UiIndex`, `UiRuns`, `UiReader` | sequence numbers and surface references over what the window shows, and ingest |
| `Common`, `HashEncoding`, `LikePattern`, `RestoreRetry` | shared types, encodings before hashing, LIKE escaping, the retry loop with 64-bit backoff |

Conventions. Hashes are injective on their encoded bytes, so identifiers built from hashes are
modelled by what is hashed. Random identifiers are fresh. Clock values are arbitrary, none before the
zero time that marks a transaction as used up. Drivers, the
user interface backend, the disk and the database answer arbitrarily, through the arguments of
events and methods. Identifiers that are only compared are natural numbers. An event that cannot
happen in a state leaves it as it is, so that every sequence of events is a run.

## What the proofs say beyond the happy path

- `findCommittedSend` walks the accounts in list order and stops at the first index it cannot open,
  so a stored result is reported exactly when every account listed before it is readable
  (`SendOutcomes.FoundExactly`).
- `Open` of the account registry accepts two active accounts on one platform
  (`AccountStore.OpenAcceptsTwoActive`); restoring one of them switches the other off, and a restore
  leaves the registry alone exactly when there is no other one (`RuntimeRuns.RestoreWrites`,
  `RuntimeRuns.RestoreMayDemote`).
- `ActSurface` looks at consumed identifiers and not at tombstones. A tombstoned action can be
  dispatched again exactly when the same snapshot still holds another live, permitted entry for it
  (`SurfaceReplay.RepeatableExactly`, `SurfaceReplay.EchoRepeats`).
- When an attempt to bind a profile has made the sentinel itself and its rollback cannot unlink the
  metadata, it still removes the sentinel (`ProfileBindingRuns.FailedRemovalOrphans`); an attempt that
  found the sentinel leaves both. Metadata has its sentinel throughout a run if and only if no such
  removal happens (`ProfileBindingRuns.MetadataHasSentinelExactly`).
- Recovery from "sentinel only" does not sync the data directory. If the daemon died between the
  sentinel's rename and that sync, a later power loss can leave metadata without sentinel
  (`ProfileBindingRuns.RecoveryTrustsTheCache`); with power losses the exact condition has this second
  part (`ProfileBindingRuns.MetadataHasSentinelOnDiskExactly`).
- A temporary file that a crash leaves in the data directory blocks the account: it can be bound again
  if and only if the directory is empty or holds the account's sentinel and nothing else
  (`ProfileBindingRuns.CrashBlocks`, `ProfileBindingRuns.RecoverableExactly`).
- A listing with `before` compares times as RFC 3339 texts, from which trailing zeros of the fraction are
  left out. Within one second a time whose fraction is the other one cut short sorts after it, so the
  filter takes the earlier rows exactly when seconds differ or neither fraction is the other cut short
  (`TimeText.TextOrderExactly`, `MessageStore.BeforeIsExact`): a row half a second past the bound is listed
  (`TimeText.FractionsMislead`). Whole seconds are safe (`TimeText.WholeSecondsSort`).
- The ONLINE debounce uses the zero time for "no candidate", so an ONLINE observation taken at that
  very instant does not start a run; `AuthOnline.Opens` says so.

## Model

| member | source | states |
|---|---|---|
| SendJournal.Reserve | internal/index/store.go:806-816 | the insert is refused when either unique key is taken and otherwise adds exactly one in-flight row; both indexes stay coherent |
| SendJournal.Finalize | internal/index/store.go:817-837 | only the in-flight row with the same key, transaction and hash becomes terminal; every other row stays |
| SendJournal.Delete | internal/index/store.go:838-853 | only that in-flight row disappears; no other row changes |
| SendJournal.ReserveThenDelete | internal/index/store.go:806-853 | un-reserving undoes reserving exactly |
| SendJournal.TerminalResists | internal/index/store.go:806-853 | no statement on the journal changes or removes a terminal row |
| SendSafety.SentAtMostOnce | internal/service/service.go:412-505 | over every run with crashes, restarts and repeated commits, `backend.Send` is invoked at most once per account and key and at most once per transaction |
| SendSafety.StepKeeps | internal/service/service.go:412-538 | every step of the protocol keeps the invariant that ties journal rows, past calls, driver memos and the running commit together |
| SendSafety.MemoNeverHit | internal/driver/wechat/driver.go:376-511 | a commit that holds its reservation never meets a memo of its own key in the driver |
| SendSafety.UnrecordedIsFresh | internal/index/store.go:806-816 | a key and transaction that the journal lets in were never dispatched before |
| SendOutcomes.RowsAreBornInFlight | internal/service/service.go:472-478 | a row appears only as the in-flight reservation of the running commit, with the provisional uncertain result |
| SendOutcomes.RowsDieUnsent | internal/service/service.go:479-492 | a row disappears only with its account or after a non-uncertain driver error, and then nothing was sent for it |
| SendOutcomes.SettleTouchesOwn | internal/service/service.go:483-504 | the settling step deletes or finalizes the in-flight row of its own commit and no other |
| SendOutcomes.RowsOnlySettle | internal/index/store.go:817-837 | a surviving row stays or is made terminal by the commit that owns it |
| SendOutcomes.RestForever | internal/index/store.go:759-853 | terminal rows and rows orphaned by a crash never change, and nothing is ever sent for them again |
| SendOutcomes.CrashOrphansRows | internal/service/service.go:412-505 | after a crash no row is owned, so every row is in the state that the previous theorem protects |
| SendOutcomes.FoundExactly | internal/service/service.go:507-529 | the scan answers exactly when every account listed up to the holder is readable: a conflict for another key, and otherwise the stored result, as a success exactly if it is verified and not uncertain |
| SendOutcomes.NotFoundExactly | internal/service/service.go:507-529 | the scan finds nothing exactly when every index opens and none knows the transaction |
| SendOutcomes.RepliesForever | internal/service/service.go:423-467 | once a transaction has a row at rest: while every index opens its own key gets exactly the stored result and any other key a conflict, through expiry, crash and restart; an index that does not open can withhold the answer and never change it |
| SendOutcomes.StoredResultIsReturned | internal/service/service.go:423-467 | from a crash on, with every index open, every later commit of a recorded transaction gets exactly the stored result or a conflict, the row stays, and nothing more is sent for it |
| SendTruth.SuccessIsBacked | internal/service/service.go:531-538 | a reply that reports success names a key the backend was invoked for |
| SendTruth.RepliesAreHonest | internal/service/service.go:531-538 | over every run, a reply that carries a result is a success exactly when that result is verified and not uncertain |
| SendTruth.SettledRowMatchesReply | internal/service/service.go:493-504 | the terminal row and the reply agree: a success exactly when the driver verified the message and did not call it uncertain, an uncertain answer carrying the same result otherwise |
| SendExpiry.ExpiredIsNeverDispatched | internal/service/service.go:423-432 | over every run, whatever reaches the backend was prepared for that account and was asked to be committed under that key less than five minutes later |
| SendExpiry.CommittableUntilExpiry | internal/service/service.go:398-432 | a prepared transaction is admitted with the content it was prepared with by every commit within five minutes, whatever else runs in between, short of a crash or a commit of its own |
| SendExpiry.SweptExactly | internal/service/transactions.go:102-109 | a sweep drops exactly the expired transactions that nobody commits and whose files can go |
| SendService.Service.PrepareSend | internal/service/service.go:357-410 | drops exactly the expired transactions that nobody commits and whose files can go, then records the new one with an expiry five minutes on; refuses an inactive account without a change |
| SendService.Service.PruneTransactions | internal/service/transactions.go:102-109 | removes exactly the expired transactions that are not being committed and whose files could be removed |
| SendService.Service.FindCommittedSend | internal/service/service.go:507-529 | the loop computes the specified scan over accounts |
| SendService.Service.Admission | internal/service/service.go:423-441 | a transaction in memory before its expiry is marked as committing; any other is answered from the journals at once, with not found exactly when every index opens and none knows it |
| SendService.Service.Consult | internal/service/service.go:443-467 | both journal lookups, in order, as one step of the protocol |
| SendService.Service.Lookup | internal/service/service.go:444-467 | both journal lookups compute where the commit goes on |
| SendService.Service.BindDriver | internal/service/service.go:468-471 | the commit goes on only with the account's active driver |
| SendService.Service.ReserveSend | internal/service/service.go:472-478 | the durable reservation as one step of the protocol, with each way the statement can fail |
| SendService.Service.DriverEnter | internal/driver/wechat/driver.go:376-410 | the driver's door checks; behind the reservation the memo never answers, so the commit goes on exactly when the checks pass |
| SendService.Service.ConsultMemo | internal/driver/wechat/driver.go:376-410 | door checks and memo lookup compute where the commit goes on |
| SendService.Service.DriverRefuse | internal/driver/wechat/driver.go:412-478 | every failure before the backend call is a non-uncertain error without a call |
| SendService.Service.CallBackend | internal/driver/wechat/driver.go:479-483 | the one place where the backend is called, once |
| SendService.Service.RememberResult | internal/driver/wechat/driver.go:484-511 | after the call the outcome is remembered and an unverified one is uncertain |
| SendService.ForeignKeeps | internal/service/service.go:357-410 | steps that need neither of the commit's locks leave the commit, the backend calls and the replies alone |
| SendService.Service.SendOnce | internal/driver/wechat/driver.go:412-511 | refused before the backend without a call, or once through it with what the backend's end means, with others let in |
| SendService.Service.SettleSend | internal/service/service.go:483-504 | finalize or un-reserve as one step: the reservation is always found, so the provisional answer is given exactly when the statement fails, a rejection exactly after a clean refusal, and otherwise the stored result |
| SendService.Service.SettleRow | internal/service/service.go:483-504 | the statement and the answer as one step of the protocol |
| SendService.Service.DriverSend | internal/driver/wechat/driver.go:376-511 | from the reservation to the driver's answer under any interference: no call when refused, one call otherwise, and the answer that the backend's end means |
| SendService.Service.Deliver | internal/service/service.go:479-504 | from the reservation to the settled row under any interference: the answer is a function of what driver, backend and statement did, and the row is deleted or finalized with the reported result |
| SendService.Service.ReserveAndDeliver | internal/service/service.go:472-504 | the reservation, the send and its settling in one: a conflict exactly when the reservation fails, and otherwise the answer and the journal that driver, backend and statement determine |
| SendService.Service.Carry | internal/service/service.go:472-504 | the same from the bound driver on: a refused send leaves the journal as it was, any other one terminal row more |
| SendService.Service.Undertake | internal/service/service.go:468-504 | the same from the consulted journal on: inactive exactly when no driver serves the account |
| SendService.VettedAs | internal/service/service.go:444-467 | a row of the transaction answers, then a row of the key: with the same request by its result, with another by a conflict that does not use the transaction up; otherwise both unique keys are free |
| SendService.Service.Process | internal/service/service.go:443-504 | from admission to the settled outcome: the whole decision table, and which transactions are used up |
| SendService.Service.Serve | internal/service/service.go:442-505 | the same with the release of the transaction and the reply |
| SendService.Service.CommitConfirmed | internal/service/service.go:423-505 | a confirmed commit, admission included |
| SendService.Service.InsertReservation | internal/index/store.go:806-816 | the insert and its failures compute the specified reservation |
| SendService.Service.DeleteReservation | internal/index/store.go:838-853 | the delete hits the commit's own in-flight row or nothing |
| SendService.Service.FinalizeReservation | internal/index/store.go:817-837 | the update hits the commit's own in-flight row or nothing |
| SendService.Service.ResolveReservation | internal/service/service.go:483-504 | un-reserve after a clean refusal, finalize otherwise, provisional answer when the statement fails |
| SendService.Service.ReleaseCommit | internal/service/transactions.go:111-149 | clears the committing flag and records the reply; a used-up transaction goes or expires at once, any other stays committable until its expiry, and nobody else's is touched |
| SendService.Service.FinishCommit | internal/service/transactions.go:111-149 | cleanup, release and reply as one step of the protocol |
| SendService.Service.CommitSend | internal/service/service.go:412-505 | the whole call with preparing, sweeping, driver starts and stops and registrations let in between all its sections. A live transaction: answered from its row, or from its key's row if the request is the same and with a conflict if not; else inactive, or a conflict when the reservation fails; else one backend call and exactly the success, the uncertain answer or the rejection that driver, backend and statement gave, with the journal to match. Used up exactly when answered from its row, sent or uncertain, and committable as before otherwise. At most one backend call, none for a transaction that has a row or is not live |
| AuthSafety.ActionsAreSafe | internal/auth/manager.go:812-943 | in every interleaving at most one action call at the driver, three per action, six in all, and no action or replay key again after a call that is unanswered or whose answer is success, unclassified, marked as consumed, or of a kind that does not prove that nothing happened |
| AuthSafety.TombstonesAreExact | internal/auth/manager.go:880-924 | whenever no request is inside, an action or replay key is barred exactly when a call of it may have had an effect |
| AuthSafety.ReleaseKeeps | internal/auth/manager.go:911-924 | releasing a rejected call's tombstones removes none that an earlier accepted call left |
| AuthSafety.StepKeeps | internal/auth/manager.go:768-943 | every lock section keeps single flight, attempt accounts, tombstones and the history of calls in agreement |
| AuthOnline.OnlineIsStable | internal/auth/manager.go:305-349 | a reported ONLINE rests on at least three ONLINE observations in a row spanning fifteen seconds; every later report is ONLINE with the same completion time |
| AuthOnline.CompletionStays | internal/auth/manager.go:532-592 | no step changes a set completion time, and every answer after it says ONLINE although the image handler overwrites the stored state |
| AuthOnline.ObserveKeeps | internal/auth/manager.go:317-349 | an observation keeps the candidate equal to the current run of ONLINE observations |
| AuthOnline.CompletedExactly | internal/auth/manager.go:317-349 | an observation completes the challenge exactly when at least three ONLINE observations in a row, spanning fifteen seconds, end with it |
| AuthOnline.ExpiryShows | internal/auth/manager.go:270-303 | the monitor shows a completed challenge as ONLINE, an expired one as OFFLINE, and changes no other |
| AuthOnline.AnswersAreCurrent | internal/auth/manager.go:532-592 | every answer carries the state and completion time that the entry has after the request |
| AuthCodes.CodesAreBounded | internal/auth/manager.go:768-810 | at most eight codes are submitted, one at a time, and an accepted one is the last |
| AuthCodes.CodesAreAdmittedExactly | internal/auth/manager.go:768-790 | a code request passes the gate exactly when the challenge is open, no code is under way or accepted, and fewer than eight were tried |
| AuthCodes.CodesNeedTheScreen | internal/auth/manager.go:802-810 | a code reaches the driver exactly when a request past the gate sees a screen that asks for authentication by a code |
| AuthEntry.OfferedIffPerformed | internal/auth/manager.go:487-513 | the page offers exactly the actions that a confirmed request on the same screen would carry to the driver |
| AuthEntry.ChosenExactly | internal/auth/manager.go:839-875 | a request goes on with a replay key exactly when the screen asks for authentication and shows the action with that key in one place and neither anywhere else |
| AuthEntry.Entry.ObserveAuthSnapshotLocked | internal/auth/manager.go:317-349 | the field updates compute the specified observation; completion coincides with three ONLINE observations over fifteen seconds, anything less shows as starting or as it is |
| AuthEntry.Entry.CountActions | internal/auth/manager.go:487-500 | the counting loop yields how often each action and replay key is offered |
| AuthEntry.Entry.AvailableAuthActionsLocked | internal/auth/manager.go:487-513 | the two loops compute the specified list of offers |
| AuthEntry.Entry.ChooseAdvertised | internal/auth/manager.go:839-875 | an action is chosen only if it and its replay key are advertised exactly once |
| AuthEntry.Entry.ReserveAction | internal/auth/manager.go:880-910 | the second gate and the tombstones and counters it sets |
| AuthService.FlightProtects | internal/auth/manager.go:819-837 | while a thread is inside the action section no other step moves it, the attempt accounts, the tombstones or the history of calls |
| AuthService.Challenge.Proceed | internal/auth/manager.go:839-922 | from the taken flag to the last section: one driver call or none, and the books exactly charged for it |
| AuthService.Challenge.Await | internal/auth/manager.go:911-922 | whatever others do meanwhile, a call after which the driver may have acted keeps both tombstones and any other gives exactly its own back |
| AuthService.Challenge.Attempt | internal/auth/manager.go:880-922 | the second gate and the call, with the attempt charged and the tombstones as the answer says |
| AuthService.Challenge.PerformAuthAction | internal/auth/manager.go:812-924 | the whole handler with others let in at every point: the flag is down and the thread out on every path; a call happens only for a confirmed request on an open challenge whose screen shows the action once, within three and six attempts and barred by no tombstone; it costs one attempt, and both tombstones stay exactly when the driver may have acted; undisturbed, a call happens exactly then |
| AccountRegistry.ResolveIsUnambiguous | internal/account/store.go:223-230 | in a well-formed registry any name, identifier or alias, belongs to one account, and that is the one found |
| AccountRegistry.NamespacesOverlap | internal/account/store.go:89-125 | some strings are legal both as identifier and as alias, so the cross check is needed |
| AccountRegistry.ActivatedAlone | internal/account/store.go:232-265 | activation switches the target on, stops every other active account of its platform, and changes nobody else |
| AccountRegistry.ActivatedKeeps | internal/account/store.go:232-265 | activation keeps distinct names and deleting accounts stopped, keeps one active per platform everywhere and establishes it on its own |
| AccountRegistry.AppendKeeps | internal/account/store.go:134-171 | adding an account with fresh names keeps distinct names, deleting accounts stopped, and one active per platform if that held |
| AccountRegistry.QuietUpdateKeeps | internal/account/store.go:267-315 | so does an update that activates nobody |
| AccountRegistry.RemovedKeeps | internal/account/store.go:415-426 | so does removal |
| AccountRegistry.RemovedOne | internal/account/store.go:415-426 | removal takes out the one account of that identifier and keeps the others in their order |
| AccountRegistry.NormalizedKeeps | internal/account/store.go:119-130 | stopping the deleting accounts leaves one active account per platform exactly when no two accounts of a platform were active without being deleted |
| AccountStore.Scan | internal/account/store.go:89-125 | one pass with two sets decides the pairwise definition and stops deleting accounts |
| AccountStore.Load | internal/account/store.go:89-132 | `Open` accepts exactly the well-formed registries and stops deleting accounts; the result has one active account per platform exactly when no two of a platform were active without being deleted |
| AccountStore.OpenAcceptsTwoActive | internal/account/store.go:89-125 | two active accounts of one platform are accepted, so activity is not checked |
| AccountStore.Store.Replace | internal/account/store.go:260-264 | memory changes only after a successful write, so it always equals the file; on every registry that `Open` accepts |
| AccountStore.Store.Resolve | internal/account/store.go:217-230 | returns the account of that name, or that there is none |
| AccountStore.Store.ActivateSlots | internal/account/store.go:244-259 | the loop over the slots computes the activated registry |
| AccountStore.Store.NextAccountId | internal/account/store.go:173-202 | the first of 128 candidates that collides with no identifier, alias or directory; a failed look-up ends the search |
| AccountStore.ChosenExactly | internal/account/store.go:173-202 | an identifier is found exactly when one of the first 128 candidates is usable and every candidate before it was looked up and found taken |
| AccountStore.Store.Add | internal/account/store.go:134-171 | succeeds exactly when alias and platform are legal, the alias is free, an identifier is found, and neither directory nor write fails; a failure leaves the registry, and after cleanup the directories, as they were |
| AccountStore.Store.Install | internal/account/store.go:155-171 | from the new directory to the registered account, with each failure undone |
| AccountStore.Store.Enroll | internal/account/store.go:160-171 | with both directories there, the registered account or everything as it was |
| AccountStore.Store.RemoveDir | internal/account/store.go:406-413 | a removal that succeeds, stops part of the way, or does nothing; serving accounts keep their directories |
| AccountStore.Store.Register | internal/account/store.go:164-170 | the write, and the removal of the new directory when it fails |
| AccountStore.Store.Activate | internal/account/store.go:232-265 | exact outcome on every accepted registry: not found, deleting, write failed, or the account as the only active one of its platform |
| AccountStore.Store.SwitchTo | internal/account/store.go:242-264 | the write repairs a platform with several active accounts and keeps what held elsewhere |
| AccountStore.Store.Deactivate | internal/account/store.go:267-291 | exact outcome; stops exactly the named account |
| AccountStore.Store.UpdateStatus | internal/account/store.go:293-315 | exact outcome; changes only the status of that account |
| AccountStore.Store.BeginDelete | internal/account/store.go:329-359 | exact outcome: refused when active, marked when the write succeeds, and found again without a write when already marked |
| AccountStore.Store.RecordDeleteFailure | internal/account/store.go:363-386 | exact outcome; records the error only on an account that is being deleted |
| AccountStore.Store.FinalizeDelete | internal/account/store.go:390-426 | exact outcome; state goes before the marker, a removal that fails part of the way leaves a partial directory and the marker, a failed write leaves the marker, and success takes out exactly that account |
| AccountStore.Store.Erase | internal/account/store.go:400-426 | the removal of the state and then of the account |
| AccountRemoval.ServingAccountsAreHoused | internal/service/service.go:155-190 | over every run with a crash anywhere, an account that is registered and not deleting has its whole state directory |
| AccountRemoval.IndexIsServed | internal/service/service.go:277-330 | over every run, a request that has resolved its account or opened its index holds an account that is registered, not deleting, and whole |
| AccountRemoval.StateGoesOnlyWhenMarked | internal/account/store.go:388-426 | state is damaged only while the durable registry marks the account or does not know it |
| AccountRemoval.DoomedForever | internal/account/store.go:327-359 | over every later run a marked account stays marked and inactive until it disappears, and its identifier never serves again |
| AccountRemoval.RetryFinishes | internal/service/service.go:155-190 | repeating the removal completes it from wherever it was cut off and touches no other account |
| RegistryViews.ActivationAgrees | internal/account/store.go:242-259 | activation of the list is activation in the runtime manager's view of it |
| RegistryViews.DeactivationAgrees | internal/account/store.go:277-285 | so is deactivation |
| RegistryViews.OneActiveAgrees | internal/account/store.go:89-125 | list and view mean the same by one active account per platform |
| RegistryViews.SlotActivationAgrees | internal/account/store.go:242-259 | activation in that view is activation of the removal machine's slots |
| RuntimeSafety.StepKeeps | internal/runtime/manager.go:55-473 | every step of operations, stops, repairs, shutdown and ingest keeps the manager's invariant |
| RuntimeRuns.ActiveRuntimesServe | internal/runtime/manager.go:91-236 | a runtime in a slot belongs to an active, not deleting account of that platform; its driver is stopped exactly while the lock holder is about to empty the slot; at most one ingest loop per runtime is alive |
| RuntimeRuns.IngestGoesOn | internal/runtime/manager.go:361-419 | with the platform lock free and the manager open, an active runtime has a live uncancelled loop or a pending repair |
| RuntimeRuns.RepairRevives | internal/runtime/manager.go:393-419 | such a repair, once its loop ended, starts a live uncancelled loop |
| RuntimeRuns.IngestResumes | internal/runtime/manager.go:393-438 | an active runtime without a live loop is two steps from having one: its cancelled loop's end and the pending repair |
| RuntimeRuns.NoLateReads | internal/runtime/manager.go:364-391 | after a successful stop, ingest and sync issue no driver read |
| RuntimeRuns.RestoreUndoesNothing | internal/runtime/manager.go:88-200 | from one active account per platform, no step of a restore changes the registry or a taken slot, whatever ran before and whether the driver starts or not |
| RuntimeRuns.RestoreWrites | internal/account/store.go:232-265 | the write of a restore changes nothing exactly when no other account of the platform is active |
| RuntimeRuns.RestoreMayDemote | internal/runtime/manager.go:55-65 | a registry with two active accounts on which restore switches one off |
| RuntimeRuns.OperationsWriteExactly | internal/runtime/manager.go:155-200 | in every reachable state: an activation switches the platform to its target, an explicit one whose driver does not start switches the target off again, a restore does not, a deactivation switches its target off, and no other step of an operation writes |
| RuntimeRuns.LookupIsExact | internal/runtime/manager.go:238-253 | driver lookup succeeds for exactly the accounts in a slot, all of them active and none deleting, and the driver it finds is stopped exactly when the lock holder is about to empty the slot |
| RuntimeRuns.StoppedDriverIsFound | internal/runtime/manager.go:144-153 | right after a successful stop, before the slot is emptied, lookup still hands out the stopped driver |
| RuntimeService.LockProtects | internal/runtime/manager.go:99-103 | while an operation holds a platform's lock, no other step moves that operation or its slot |
| RuntimeService.Manager.StopRuntime | internal/runtime/manager.go:364-391 | cancel, drain, mutex and stop, then the caller's emptying of the slot, with others let in at every point; undisturbed it succeeds exactly when the loop has ended, the mutex is free and the driver stops |
| RuntimeService.Manager.Seize | internal/runtime/manager.go:367-381 | from the drained loop to the ingest mutex, or a repair |
| RuntimeService.Manager.StopDriverOf | internal/runtime/manager.go:381-386 | the driver has answered and the mutex is released; the slot is still taken |
| RuntimeService.Manager.CancelLoop | internal/runtime/manager.go:365-366 | the captured loop is cancelled |
| RuntimeService.Manager.DrainLoop | internal/runtime/manager.go:365-374 | cancel and wait: the loop has ended, or a repair is left |
| RuntimeService.Manager.TakeMutex | internal/runtime/manager.go:375-381 | the ingest mutex is held and the runtime marked as stopping |
| RuntimeService.Manager.Finish | internal/runtime/manager.go:381-391 | from the mutex to the empty slot, or to the next loop of a driver that did not stop |
| RuntimeService.Manager.EmptySlot | internal/runtime/manager.go:148-152 | a section of its own empties the slot; an edit of the slots is counted |
| RuntimeService.Manager.RestartLoop | internal/runtime/manager.go:387-389 | a failed stop starts the next loop and releases the lock |
| RuntimeService.Manager.GiveUp | internal/runtime/manager.go:369-380 | a stop that times out releases the lock and leaves a repair |
| RuntimeService.Manager.Lock | internal/runtime/manager.go:332-351 | taking a free platform lock keeps the invariant |
| RuntimeService.Manager.Check | internal/runtime/manager.go:104-147 | the checks under the lock end the operation, begin a stop, or go on to the write |
| RuntimeService.Manager.Examine | internal/runtime/manager.go:104-147 | the checks of an activation: an answer, or a stop or write to go on with, and never a stop for a restore |
| RuntimeService.Manager.Wait | internal/runtime/manager.go:332-351 | waiting for a lock lets everyone run and edits nothing |
| RuntimeService.Manager.WriteActive | internal/runtime/manager.go:155-158 | the registry write switches the platform to the target; that of a restore changes nothing when one account per platform is active |
| RuntimeService.Manager.RecordActive | internal/runtime/manager.go:155-158 | the write itself, counted as an edit exactly when it changes the registry |
| RuntimeService.Manager.Launch | internal/runtime/manager.go:155-191 | from the empty slot to the running driver; a failed start of an explicit activation leaves the account inactive under any interference, and undisturbed the registry is exactly the switch with or without that undo |
| RuntimeService.Manager.Pursue | internal/runtime/manager.go:144-191 | stop if something else runs, then write and start; undisturbed, success exactly when each of them succeeds |
| RuntimeService.Manager.ActivateLocked | internal/runtime/manager.go:104-191 | everything under the lock; the lock is released on every path |
| RuntimeService.Manager.ActivateOn | internal/runtime/manager.go:103-191 | the same from the free lock on |
| RuntimeService.Manager.WriteInactive | internal/runtime/manager.go:235-235 | after the write the account is inactive and not found |
| RuntimeService.Manager.DeactivateLocked | internal/runtime/manager.go:215-236 | everything of a deactivation under the lock |
| RuntimeService.Manager.Clear | internal/runtime/manager.go:215-234 | the checks of a deactivation and, if the account runs, its stop |
| RuntimeService.Manager.StartRuntime | internal/runtime/manager.go:160-181 | a started driver fills the slot; a failed start of an explicit activation switches the account off again, that of a restore keeps the registry |
| RuntimeService.Manager.EnterSlot | internal/runtime/manager.go:172-181 | the runtime of a started driver is put into the slot |
| RuntimeService.Manager.FailStart | internal/runtime/manager.go:193-200 | the undo of a failed explicit activation switches off exactly the target |
| RuntimeService.Manager.StartLoopOf | internal/runtime/manager.go:182-182 | the first loop starts and is alive, the lock is released, the runtime is found |
| RuntimeService.Manager.Begin | internal/runtime/manager.go:160-191 | from the written registry to the running driver, or to the account switched off again |
| RuntimeService.Manager.Activate | internal/runtime/manager.go:91-191 | a busy lock is waited for while others go on; success means the account is active and its driver is found; undisturbed, outcome and registry are exact functions of the state and of what disk and drivers answer, and a failed explicit start leaves the account inactive; a restore makes no edit of registry or slots under any interference |
| RuntimeService.Manager.Deactivate | internal/runtime/manager.go:202-236 | the same wait and the same exactness; success means that exactly this account was switched off and its driver is not found |
| RuntimeService.Manager.Restore | internal/runtime/manager.go:55-65 | from one active account per platform and under any interference, no section of the loop changes the registry or empties a slot; undisturbed at the start of a daemon, every wanted account whose driver starts is found, no failure is reported when all start and answer, and none reported means that all run |
| SurfaceSession.ActionsAreOneShot | internal/driver/wechat/driver.go:586-641 | within a session an action identifier reaches the backend at most once, never when disabled or of high risk, with consent when not low-risk or an external write, and with text exactly when it takes input |
| SurfaceSession.SessionsRememberExactly | internal/driver/wechat/driver.go:620-652 | over every run an open session holds back exactly the identifiers its calls spent and the replay identifiers of its calls that wrote, may have written, or failed to navigate |
| SurfaceSession.LiveExactly | internal/driver/wechat/driver.go:718-731 | a snapshot's live actions are the last admitted entry of each identifier |
| SurfaceReplay.NothingIsRepeated | internal/driver/wechat/driver.go:643-652 | when no snapshot lists one action under two identifiers, an action that wrote, may have written or failed to navigate is never dispatched again in its session |
| SurfaceReplay.RepeatableExactly | internal/driver/wechat/driver.go:586-641 | a tombstoned action can be dispatched again exactly when a live permitted entry still carries it |
| SurfaceReplay.EchoRepeats | internal/driver/wechat/driver.go:586-641 | a snapshot that lists one external write twice, and the double dispatch |
| SurfaceDriver.Driver.LiveActions | internal/driver/wechat/driver.go:718-731 | the loop computes the live actions |
| SurfaceDriver.Driver.OfferedIds | internal/driver/wechat/driver.go:732-753 | an element offers each live candidate once, in order |
| SurfaceDriver.Driver.StoreSurface | internal/driver/wechat/driver.go:674-783 | consumed identifiers and tombstones are carried over; a refused snapshot changes nothing |
| SurfaceDriver.Driver.OpenSurface | internal/driver/wechat/driver.go:513-535 | all earlier sessions end, even when the new snapshot is refused |
| SurfaceDriver.Driver.SnapshotSurface | internal/driver/wechat/driver.go:567-584 | a snapshot of another window is not stored |
| SurfaceDriver.Driver.ActSurface | internal/driver/wechat/driver.go:586-641 | the backend is called for exactly the offered requests; the identifier is spent whatever it answers, the replay identifier is buried for every effect but observing, searching and a navigation that succeeded, and other sessions are untouched |
| SurfaceDriver.Driver.Dispatch | internal/driver/wechat/driver.go:618-641 | spending, calling, burying and storing, in this order |
| SurfaceDriver.Verdict | internal/driver/wechat/driver.go:586-641 | which error answers which request: stale, then for the user alone, then unfitting text, then missing consent; the backend is called for exactly the rest |
| SurfaceDriver.Driver.CloseSurface | internal/driver/wechat/driver.go:654-672 | the session is gone whether or not the backend closes |
| ProfileDocuments.MigrationKeepsIdentity | internal/driver/wecom/profile.go:615-624 | the migrated document is valid for the same account, profile, inode and creation time, and matches the same sentinels |
| ProfileDocuments.SentinelRoundTrip | internal/driver/wecom/profile.go:539-561 | sentinel and metadata determine each other |
| ProfileMigration.StepKeeps | internal/driver/wecom/profile.go:599-760 | every system call, failure, crash and power loss keeps the metadata path whole in every listing that may come back |
| ProfileMigrationRuns.MetadataSurvives | internal/driver/wecom/profile.go:599-760 | after every run the metadata path names the whole legacy or the whole schema-2 document of the same profile, also after a power loss now |
| ProfileMigrationRuns.RetryMigrates | internal/driver/wecom/profile.go:582-593 | starting again from any such state ends in schema 2 |
| ProfileMigrationRuns.SmoothEnds | internal/driver/wecom/profile.go:687-760 | without further failure an attempt ends on disk in schema 2, or, once rolling back, with the very legacy file in place |
| ProfileMigrationRuns.StateDirectory.WriteNewDocument | internal/driver/wecom/profile.go:813-901 | the candidate gets its name only after its contents are on disk; it succeeds exactly when all four calls do, and a failure keeps the legacy file |
| ProfileMigrationRuns.StateDirectory.RemoveCandidate | internal/driver/wecom/profile.go:903-923 | removing the candidate keeps the legacy file |
| ProfileMigrationRuns.StateDirectory.Rollback | internal/driver/wecom/profile.go:725-760 | a successful exchange back restores the legacy file, a failed one leaves schema 2 |
| ProfileMigrationRuns.StateDirectory.Migrate | internal/driver/wecom/profile.go:599-723 | succeeds exactly when every call and check does, and then schema 2 is on disk and the candidate gone; a failure leaves schema 2 exactly when the exchange happened and was confirmed or could not be undone, and the same legacy file otherwise |
| ProfileMigrationRuns.StateDirectory.VerifyAndMigrate | internal/driver/wecom/profile.go:582-593 | schema 2 is left untouched; a legacy document is migrated, successfully exactly when every call and check succeeds |
| ProfileMigrationRuns.StateDirectory.Install | internal/driver/wecom/profile.go:670-723 | from the candidate to the end of the attempt, with its exact share of success |
| ProfileMigrationRuns.StateDirectory.Confirm | internal/driver/wecom/profile.go:697-723 | checks, sync and removal of the displaced file, or rollback; success exactly when all four succeed |
| ProfileMigrationRuns.StateDirectory.DropDisplaced | internal/driver/wecom/profile.go:713-723 | the displaced file is gone for good exactly when unlink and sync succeed; schema 2 stays either way |
| ProfileBinding.StepCore | internal/driver/wecom/profile.go:1275-1360 | whatever fails, each stage finds the documents it relies on |
| ProfileBindingRuns.MetadataHasSentinelExactly | internal/driver/wecom/profile.go:1275-1360 | over every run with daemon crashes, published metadata has its matching sentinel at every point if and only if no rollback unlinks the sentinel while the metadata is there |
| ProfileBindingRuns.UnlinkingIsEnough | internal/driver/wecom/profile.go:1307-1317 | in particular it holds whenever every unlink of metadata by a rollback succeeds |
| ProfileBinding.DoSafe | internal/driver/wecom/profile.go:1275-1360 | every system call but those two keeps every pair of listings covered |
| ProfileBinding.HazardParts | internal/driver/wecom/profile.go:1307-1347 | each of those two leaves a pair with metadata and without its sentinel |
| ProfileBindingRuns.MetadataHasSentinelOnDiskExactly | internal/driver/wecom/profile.go:1275-1360 | over every run with power losses too, every pair of listings that may come back is so covered at every point if and only if the sentinel is never unlinked while some listing shows metadata and the metadata never named while some listing lacks the sentinel |
| ProfileBindingRuns.FailedRemovalOrphans | internal/driver/wecom/profile.go:1307-1317 | a run from a new account in which the last check fails, the metadata cannot be unlinked, and the attempt's own sentinel is taken back |
| ProfileBindingRuns.RecoveryTrustsTheCache | internal/driver/wecom/profile.go:1107-1128 | a run from a new account: crash before the sentinel's sync, recovery, power loss, and metadata without sentinel |
| ProfileBindingRuns.RecoveryBinds | internal/driver/wecom/profile.go:1099-1128 | recovery from "empty" and "sentinel only" completes, the latter with the sentinel's profile |
| ProfileBindingRuns.RecoverableExactly | internal/driver/wecom/profile.go:1099-1131 | from every state left without metadata, some continuation binds the account if and only if the data directory is empty or holds its sentinel and nothing else |
| ProfileBindingRuns.CrashBlocks | internal/driver/wecom/profile.go:834-856 | a crash right after the temporary file was made leaves a new account blocked for good |
| ProfilePublisher.Publisher.Prepare | internal/driver/wecom/profile.go:1080-1132 | the branch, the publication and the rollback as they run: metadata never without sentinel unless the rollback of an attempt that made the sentinel unlinks it after failing to unlink the metadata; refusal exactly on contents that recovery does not know, success exactly when every call and check succeeds, with both documents for the new or the found profile |
| ProfilePublisher.Publisher.Conclude | internal/driver/wecom/profile.go:1335-1360 | from a sentinel in place to the bound profile, exactly when both checks and every call for the metadata succeed, or to the completed rollback |
| ProfilePublisher.Publisher.TakeBack | internal/driver/wecom/profile.go:1307-1317 | metadata first, then the attempt's own sentinel; it parts them exactly when it cannot unlink the one and then unlinks the other |
| ProfilePublisher.Publisher.PublishSentinel | internal/driver/wecom/profile.go:1319-1334 | call by call: the sentinel is in place, or to be taken back after a failed sync, or was never named |
| ProfilePublisher.Publisher.PublishMetadata | internal/driver/wecom/profile.go:1341-1347 | the same for the metadata |
| ProfilePublisher.Publisher.Fill | internal/driver/wecom/profile.go:857-888 | a document gets its name only after its contents are on disk |
| ProfilePublisher.Publisher.DropMetadata | internal/driver/wecom/profile.go:903-923 | unlink and sync; the metadata is gone exactly when the unlink succeeds |
| ProfilePublisher.Publisher.DropSentinel | internal/driver/wecom/profile.go:903-923 | the same for the sentinel |
| ProfilePublisher.Publisher.Publish | internal/driver/wecom/profile.go:1275-1360 | an attempt that makes its sentinel, from the first call to the end; success exactly when every call and check succeeds |
| MessageStore.InsertAllKeeps | internal/index/store.go:568-628 | a batch keeps sequences ascending and keys unique, adds rows only above all others, and changes nothing of a row but its gap mark |
| MessageStore.InsertedExactly | internal/index/store.go:583-614 | a message is accepted exactly when its identifiers are given and it is fresh and of a known conversation, or clashes and, if it marks a gap, is there itself; a fresh one is stored unchanged under the next sequence |
| MessageStore.FreshBatchIsStored | internal/index/store.go:568-628 | a batch of fresh messages of known conversations is stored whole, unchanged, in order, under consecutive sequences |
| MessageStore.AddingAgainChangesNothing | internal/index/store.go:583-614 | adding a stored batch again succeeds and changes nothing |
| MessageStore.SelectedExactly | internal/index/store.go:674-683 | the conditions select exactly the rows above the cursor, of the conversation asked for and with a stored time that sorts before the one asked for, ascending |
| MessageStore.ListIsExact | internal/index/store.go:660-715 | a listing is the first rows of the selection, or with latest the last ones, as many as asked for between 1 and 1000 and otherwise 100 |
| MessageStore.ListedRows | internal/index/store.go:674-683 | a listing for a conversation holds its rows only, one with a time only rows whose stored time sorts before it, in ascending order |
| MessageStore.BeforeIsExact | internal/index/store.go:680-683 | of the rows that the other conditions select, the time condition takes the earlier ones exactly when row and bound lie in different seconds or neither fraction is the other one cut short |
| TimeText.TextOrderExactly | internal/index/store.go:680-683 | stored times sort like the instants exactly when the seconds differ or neither fraction is the other one cut short |
| TimeText.FractionsMislead | internal/index/store.go:588-588 | every instant past a full second and within it sorts before that second, which is earlier |
| TimeText.WholeSecondsSort | internal/index/store.go:680-683 | times of whole seconds sort like the instants |
| MessageStore.Store.AddMessages | internal/index/store.go:568-628 | the whole batch or nothing; the rows it reports are those the table has more, each a message of the batch; a fresh batch is stored exactly when the commit succeeds |
| MessageStore.Store.Transact | internal/index/store.go:583-620 | the loop computes the batch on the transaction's copy and fails exactly when some message is refused |
| MessageWatch.EmittedIsPrefix | internal/cli/messages.go:150-175 | under any interleaving of batches and polls the emitted messages are an initial part of those above the start cursor, in order |
| MessageWatch.CaughtUp | internal/service/service.go:331-355 | a poll is empty exactly when everything above the start cursor was emitted |
| MessageWatch.Follower.WriteOut | internal/cli/messages.go:162-169 | the loop emits the answer's rows in order and moves the cursor to the last written |
| MessageWatch.Follower.Follow | internal/cli/messages.go:150-175 | the command's loop while batches are added: what was emitted is always an initial part of what lies above the start cursor |
| MessageWatch.Follower.PollAndWrite | internal/cli/messages.go:151-169 | one round; when it writes everything and brings nothing, all was emitted |
| UiIndex.ReadIsPrefix | internal/driver/wechat/ui_index.go:167-184 | a read returns the visible messages above the cursor in ascending order, at most as many as asked for between 1 and 1000 and otherwise 100; what the limit cut off lies above them |
| UiRuns.SequencesAreStable | internal/driver/wechat/ui_index.go:398-406 | in every interleaving of passes, sequence numbers are injective, bounded and never change |
| UiRuns.IngestedAtMostOnce | internal/runtime/manager.go:440-473 | no message is in two stored ingest batches or twice in one, and batches ascend |
| UiRuns.ReferencesAreOneShot | internal/driver/wechat/ui_index.go:381-397 | all surface references ever issued differ, and each is looked up with success at most once |
| UiReader.UIIndex.NormalizeVisible | internal/driver/wechat/ui_index.go:344-408 | every entry that is shown is listed once, as the n-th one of its signature, with a lease of two minutes on its surface; numbers stay injective and stable |
| UiReader.PassListsAll | internal/driver/wechat/ui_index.go:354-408 | a pass lists exactly the shown entries, each under its signature and occurrence, and leases their surfaces |
| UiReader.UIIndex.Traverse | internal/driver/wechat/ui_index.go:354-408 | the loop computes the specified pass |
| UiReader.UIIndex.ReadMessages | internal/driver/wechat/ui_index.go:150-184 | pass, sort and selection: whatever is shown above the cursor is in the batch unless the batch is full |
| UiReader.UIIndex.Select | internal/driver/wechat/ui_index.go:168-183 | the loop returns the sorted messages above the cursor, cut at the limit |
| UiReader.UIIndex.DropLeases | internal/driver/wechat/ui_index.go:349-353 | exactly the leases of the conversation and the expired ones go |
| UiReader.UIIndex.ResolveSurface | internal/driver/wechat/ui_index.go:199-220 | the lease is gone afterwards whether or not the lookup succeeds |
| UiReader.Ingest.Commit | internal/runtime/manager.go:462-472 | the cursor moves to the batch's highest sequence exactly when the batch was stored, and everything stored stays numbered, ascending and below it |
| UiReader.Ingest.IngestOnce | internal/runtime/manager.go:440-473 | pass, sort, selection and storing composed: every shown message above the cursor is in the batch unless it is full, the cursor moves to its last when it is stored, and nothing stored is ever stored again |
| HashEncoding.EncodingIsInjective | internal/service/transactions.go:241-263 | equal encodings come from equal requests, with negative sizes in two's complement |
| HashEncoding.CanonicalBytes | internal/service/transactions.go:241-263 | the incremental writes produce that encoding |
| HashEncoding.ItemsAreInjective | internal/driver/wechat/ui_index.go:441-449 | equal encodings come from equal lists of strings, of any lengths |
| HashEncoding.StableBytes | internal/driver/wechat/ui_index.go:441-449 | the loop produces that encoding |
| LikePattern.PassesEscapeOnce | internal/index/store.go:885-889 | the three ordered replacement passes equal one escape per character |
| LikePattern.SameExactly | internal/index/store.go:733-743 | two characters match exactly when they are equal or the two cases of one ASCII letter |
| LikePattern.SearchIsLiteral | internal/index/store.go:733-743 | the pattern matches exactly the texts in which the search text occurs, up to ASCII case |
| RestoreRetry.DoublingIsExact | internal/daemon/server.go:279-286 | doubling with wrap-around follows min(initial * 2^k, maximum) |
| RestoreRetry.RunRestoreRetry | internal/daemon/server.go:221-289 | every attempt but the last failed plainly and was followed by exactly that wait; the result is what ended the last attempt; at most maxAttempts restores, and a total wait of at most (maxAttempts - 1) * maxBackoff |
| RestoreRetry.EndIsUnique | internal/daemon/server.go:221-289 | policy and rounds determine the result, the number of restores and every wait |

## Left out

- The HTTP handlers, the pages, MCP tools, JSON codecs, error mapping and the rest of the command line are thin wrappers around what is modelled.
- The user interface driver, Docker, downloads, attachment staging, picture decoding, asset export and full-text ranking rest on libraries and devices outside the program; where a protocol needs their answer it is an argument.
- WeCom's own `Send`: the send protocol uses the WeChat driver's memo layer, the one that promises to report uncertainty.
- Texts of errors, timestamps such as `UpdatedAt`, and trimming or pattern checks of action identifiers, replay keys and input texts appear as booleans or as equality.
- The digest that the driver's memo compares is opaque; its separator-based encoding is not claimed to be injective.
- Share locators used by `Send` are not part of the one-shot surface property, because `Send` does not consume them.
- Container inspection and the approval file of legacy profile adoption: only the branch without a container is modelled.
- Outside writers to the profile directories, and changes of the pinned data directory: the checks against them can fail in the model at any time, but what an intruder would write is not modelled.
- Power loss is modelled for the profile directories only; the account registry's rename and SQLite's commits are taken as atomic and durable.
- That every visible message is eventually ingested is not claimed: waiting for an outgoing message also assigns sequence numbers, so ingest can pass one by.
- Years outside 0000 to 9999, whose RFC 3339 texts do not have the fixed width that the order of stored times rests on.
- Overflow of the 64-bit sequence and batch counters of the UI index.
