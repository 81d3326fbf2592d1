# Hermes App: verification of the durable protocols

This project models the durable state machines behind the Hermes app's compatibility plugin, and three of its
self-contained algorithms, and proves what they promise over whole runs: any number of clients, retries, restarts
and crashes between any two transactions.

A table is a field of a class, a transaction is a method that changes it in place, and every such method is proved
equal to a function of the whole store. The functions are the steps of a `Run` over a finite sequence of events; a
crash, a clock read or a concurrent caller is an event like any other, and an event that is not enabled changes
nothing. The promises are lemmas about every run.

The `Answers`, `Moves` and `Text` modules say, without those functions' own helpers, what an operation answers and writes
for every input: when each refusal is given and with which words, and each row column by column.

| part | files |
|---|---|
| wake ledger, dispatch door, historical settlement | `WakeLedger`, `WakeLedgerStore`, `WakeLedgerProofs`, `WakeDispatch`, `WakeRequest`, `WakeLedgerAnswers`, `WakeLedgerMoves` |
| cron report bridge | `CronBridge`, `CronBridgeStore`, `CronBridgeProofs`, `CronBridgeRun`, `CronBridgeRetries`, `CronBridgeAnswers` |
| steer inbox and tool boundary | `SteerStore`, `SteerTables`, `SteerProofs`, `SteerRun`, `SteerInbox`, `SteerBoundary`, `SteerTranscript`, `SteerAnswers`, `SteerText` |
| notification ledger | `NotificationLedger`, `NotificationFlow`, `NotificationStore`, `NotificationSync`, `NotificationDelivery`, `NotificationAnswers` |
| self-wake scan and fuse | `SelfWakeScan`, `SelfWakeRun`, `SelfWakeAnswers`, `ChainFuse`, `ChainRun` |
| audio worklets | `VoiceSamples`, `VoiceCapture`, `VoicePlayback`, `VoiceAnswers` |
| push text | `Utf8`, `NtfyPublish` |
| patch transaction | `PatchTransaction` |

`dafny verify dfyconfig.toml` checks everything.

## Where the code falls short of its promise

For each of these the model proves exactly when the promise holds, or what holds instead.

- **A wake batch can execute twice** (`WakeDispatch.OpenBatchesNeverLaunched`). A request that fails after the live chat
  lane executed its turn but before the handoff is stamped is settled as never launched, and its batch becomes reserved
  again. It is the only such step.
- **A spooled report can be lost** (`CronBridgeRun.ReportsAreNeverLost`). A delivery that ends as queued writes a queued
  receipt even when a drain pass has meanwhile given the report up and removed it; the report is then neither pending
  nor closed.
- **Playback shortens what it plays** (`VoicePlayback.DurationKept`). The comment in `app/web/voice_worklets.js:11` says
  that frames are upsampled; the step through a frame is the device rate over 16000, so a faster device gets fewer
  samples.
- **A retry need not come closer to giving up** (`CronBridgeRetries.ProgressExactly`). The gateway arms two drainers for a
  profile (`compat/app_platform.py:123`, `compat/cron_delivery_store.py:101-142`), and a pass writes the count it read plus
  one, however far others have raised it meanwhile. Retries still end: their number is bounded by the number of passes
  that overlap (`CronBridgeRetries.RetriesAreBounded`), 324 for two.
- **A merged steer row forgets the batch it carried** (`SteerTranscript.BoundaryForgetsExactly`). The forgotten batch is
  never delivered (`SteerTranscript.ForgottenNeverDelivered`).
- **A pruned key is not always answered as expired** (`SteerInbox.TakenKeyIsNeverNew`). The state of the run is asked
  first, so the answer is the run's refusal unless the run would admit; it is never a fresh admission.
- **A report row can be passed over** (`SelfWakeRun.VisitedExactly`), when the walk has passed its place before it is appended.
- **The fuse does not bound what is already reserved** (`ChainRun.ThreeEachExactlyAlone`). The gate is asked once, when a
  batch is admitted; a reserved batch is put off and dispatched later without asking again, and while it waits the
  counts do not move. So more wakes than the limit allows pass while the listener is away
  (`ChainRun.OneAllowedManyRun`), a fused lineage may still wake (`ChainRun.AsleepExactly`), and a reserved wake may start
  within the cooldown (`ChainRun.CooldownSkipped`). What holds is a bound by the number outstanding
  (`ChainRun.WakesAreBounded`), which a crash between the two transactions of a failure raises by one.
- **A restore can pin an inherited value** (`PatchTransaction.RestoreIsExactIff`), and it overwrites a value that it set
  earlier even when someone else put it back (`PatchTransaction.TouchesOnlyItsOwn`).
- **A browser alert that the server sent itself is never recorded** (`NotificationDelivery.OutcomeRecordedExactly`). Its row
  has no token, so the note of its outcome is refused; on every other channel the outcome is recorded.

## Model

| member | source | states |
|---|---|---|
| `WakeLedgerStore.Store.CleanKeys` | compat/auto_wake_store.py:236-244 | keeps the well-formed keys in order; a well-formed key given twice refuses the request, and only that does |
| `WakeLedgerStore.Store.ExamineKeys` | compat/auto_wake_store.py:266-317 | the admission loop gives each key one verdict: claimed, ignored (and consumed on the spot) or rejected |
| `WakeLedgerStore.Store.Admit` | compat/auto_wake_store.py:232-339 | the tables and the answer are those of one admission transaction, for every order of refusals |
| `WakeLedgerStore.Store.GateDispatch` | compat/auto_wake_store.py:342-373 | the dispatch door: the new table and the answer for every state and owner of the batch |
| `WakeLedgerStore.Store.FailDispatch` | compat/auto_wake_store.py:376-385 | a pre-launch failure returns a dispatching batch without a run id to reserved, and touches nothing else |
| `WakeLedgerStore.Store.Report` | compat/auto_wake_store.py:388-435 | a reported transition: compare-and-set with every conflict and error |
| `WakeLedgerStore.Store.ReleaseBatch` | compat/auto_wake_store.py:438-454 | only an undispatched batch is released, with its claims and its quota |
| `WakeLedgerStore.Store.SettleCandidate` | compat/wake_reconcile.py:92-147 | a historical settlement: the proof is worked out from what the page saw, closed bookkeeping is read again, and a row that changed is left alone |
| `WakeLedgerProofs.SettledExactlyOnProof` | compat/wake_reconcile.py:34-122 | a batch is settled if and only if its row is unchanged and its own, and either the snapshot of its own run, session and time shows the run ended, or the closed bookkeeping still reads as planned; what state and time it then gets |
| `WakeLedgerProofs.AdmitClaimsFreshReports` | compat/auto_wake_store.py:268-335 | an admission claims only eligible keys nobody consumed, at most a batch of them; all other rows and batches stay; the three answer lists account for every key |
| `WakeLedgerProofs.AdmitSound` | compat/auto_wake_store.py:232-339 | admission keeps: consumption rows are exactly the keys of the live batches |
| `WakeLedgerProofs.ReportSound` | compat/auto_wake_store.py:388-435 | reports keep the same |
| `WakeLedgerProofs.SettleSound` | compat/wake_reconcile.py:92-122 | historical settlements keep the same |
| `WakeLedgerProofs.ReleaseReturnsItsClaims` | compat/auto_wake_store.py:438-454 | a release removes exactly the rows of its own batch, and keeps the invariant |
| `WakeLedgerProofs.LiveBatchesDisjoint` | compat/auto_wake_store.py:322-335 | two batches that are not released share no key |
| `WakeLedgerProofs.GateOpensOnlyReserved` | compat/auto_wake_store.py:342-373 | the door opens if and only if the batch is reserved, of this session, with its canonical input; a second knock is always refused |
| `WakeLedgerProofs.CooldownSeesStoredRows` | compat/auto_wake_store.py:185-210 | the content cooldown compares with stored rows only, never with keys of the same request |
| `WakeLedgerProofs.AdmitWithinQuota` | compat/auto_wake_store.py:138-154 | admission keeps the quota for every window of an hour, whatever the clock does |
| `WakeLedgerProofs.NoNewBatchesWithinQuota` | compat/auto_wake_store.py:138-154 | whatever creates no batch and revives none keeps the quota |
| `WakeDispatch.QuotaHoldsForever` | compat/auto_wake_store.py:138-154 | over every run of events and at every time t, the non-released batches created in (t-3600, t] are at most 6 a session and 12 in all |
| `WakeDispatch.OpenBatchesNeverLaunched` | compat/compat.py:2788-2823 | a reserved or released batch has never executed, at every point of a run, if and only if no settlement of the run reverts an executed turn whose handoff was not stamped yet |
| `WakeDispatch.EachReportRunsAtMostOnce` | compat/compat.py:2825-2877 | in such runs each report is in at most one executed turn, each batch executes at most once, and live batches are disjoint |
| `WakeDispatch.DoorStaysShutAfterLaunch` | compat/auto_wake_store.py:342-373 | after its turn executed a batch is refused at the door for ever |
| `WakeDispatch.UnstampedRevertReopens` | compat/compat.py:2788-2807 | the excluded step does break the property |
| `WakeDispatch.LostStampRunsTwice` | compat/compat.py:3541-3546 | from any reserved batch, a failure in that gap leads to two executions |
| `WakeDispatch.LostStampExample` | compat/compat.py:3541-3546 | a whole run from the empty ledger in which one report executes twice |
| `WakeDispatch.BatchesKeepTheirFate` | compat/auto_wake_store.py:376-454 | over any further events a batch keeps its keys, session and input, its run id once named, and its end; an accepted batch only ends |
| `WakeRequest.Launch.Handle` | compat/compat.py:3424-3546 | exactly when the turn executes and each stamp is made; what the stamps prove: a handed-off or launched turn did execute; an executed turn is unstamped exactly when the live lane raised after running it; a run id comes before its task and never beside a handoff |
| `WakeRequest.Settle` | compat/compat.py:2788-2823 | the settlement of a failed request on the live ledger: reverted, reported or consumed, for every evidence |
| `WakeRequest.Stream` | compat/compat.py:2825-2876 | the wrapper: the door, the handler, and a settlement exactly when it failed |
| `WakeRequest.RequestIsEvents` | compat/compat.py:2825-2876 | an uninterrupted request is a sequence of the events whole runs are made of; it executes its batch exactly when it got past the door and as far as a turn |
| `WakeRequest.StepsReach` | compat/compat.py:3424-3546 | the stamps of the handler as events |
| `CronBridgeProofs.FreshIsFirst` | compat/cron_delivery_store.py:394-436 | a write that inserts wrote to the tip of the lineage, and no row of the report was anywhere |
| `CronBridgeStore.SessionDb.CollectLineage` | compat/cron_delivery_store.py:395-400 | the walk to the compression ancestors collects exactly the lineage |
| `CronBridgeStore.SessionDb.FindReport` | compat/cron_delivery_store.py:400-409 | finds the first row of the lineage with the key |
| `CronBridgeStore.SessionDb.Write` | compat/cron_delivery_store.py:382-436 | one guarded write: inserted, found with the same digest, conflicting, moved or refused |
| `CronBridgeStore.Resolve` | compat/cron_delivery_store.py:349-379 | one try: resolve the session as seen then, write under the guard |
| `CronBridgeStore.Attempt` | compat/cron_delivery_store.py:349-379 | retries up to three resolutions and stops at the first answer |
| `CronBridgeStore.SpoolStore.Upsert` | compat/cron_delivery_store.py:222-237 | a receipt is inserted or replaced, never turned back from delivered |
| `CronBridgeStore.SpoolStore.Enqueue` | compat/cron_delivery_store.py:289-313 | spool first: the report is pending when the call returns; it is answered at once only by a delivered receipt of the same content |
| `CronBridgeStore.SpoolStore.AcknowledgeDirect` | compat/cron_delivery_store.py:311-346 | acknowledges a direct attempt |
| `CronBridgeStore.SpoolStore.AcknowledgeDrain` | compat/cron_delivery_store.py:451-500 | acknowledges a drained attempt: delivered, retried later or given up |
| `CronBridgeStore.SpoolStore.DrainPass` | compat/cron_delivery_store.py:439-500 | a drain pass acknowledges its rows in order, and its four counts are the rows inserted, found in place, put off and closed as failed |
| `CronBridgeStore.EndingLeaves` | compat/cron_delivery_store.py:455-498 | what each of the four endings leaves: only a row put off stays pending, a closed one has a failed receipt unless it was delivered before |
| `CronBridgeProofs.OpenTargetIsTip` | compat/cron_delivery_store.py:394-436 | in a linear compression chain an open session is the tip of its lineage |
| `CronBridgeProofs.WriteKeepsRows` | compat/cron_delivery_store.py:382-436 | a write keeps every row in place and one content for each key |
| `CronBridgeProofs.MoveKeepsRows` | compat/cron_delivery_store.py:349-436 | a compression rotation keeps it too |
| `CronBridgeRun.OneRowPerReport` | compat/cron_delivery_store.py:349-436 | over all interleavings of deliveries, overlapping drain passes, stale resolutions, rotations and crashes, at most one row is ever inserted for a key, and it is where the lineage will look for it |
| `CronBridgeRun.DeliveredIsFinal` | compat/cron_delivery_store.py:222-237 | a delivered receipt names a row with its digest, and stays delivered with that digest after every further event |
| `CronBridgeRun.ReportsAreNeverLost` | compat/cron_delivery_store.py:293-346 | a spooled report is pending or has a final receipt at every point of a run, if and only if no acknowledgement of the run orphans it |
| `CronBridgeRun.OrphaningAckLoses` | compat/cron_delivery_store.py:311-346 | such an acknowledgement does lose it |
| `CronBridgeRun.LosingRunExample` | compat/cron_delivery_store.py:311-346 | a whole run from an empty bridge that loses a report |
| `CronBridgeRetries.ProgressExactly` | compat/cron_delivery_store.py:451-500 | an acknowledgement of a drained row takes it out of the spool or closer to the cap, if and only if the present count is not above the one the pass read |
| `CronBridgeRetries.DrainMakesProgress` | compat/cron_delivery_store.py:451-500 | the same at every point of every run with any number of overlapping passes |
| `CronBridgeRetries.SerialPassesAlwaysProgress` | compat/cron_delivery_store.py:439-500 | when passes do not overlap, every acknowledgement makes progress |
| `CronBridgeRetries.RetriesAreBounded` | compat/cron_delivery_store.py:439-500 | between two spoolings a report is put off or given up at most a fixed number of times, a binomial coefficient of the number of passes that may overlap |
| `CronBridgeRetries.OneDrainer` | compat/cron_delivery_store.py:439-500 | that is 24 times for one drainer |
| `CronBridgeRetries.TwoDrainers` | compat/app_platform.py:122-131 | and 324 times for the two drainers of a profile |
| `CronBridgeRetries.ManyPassesManyRetries` | compat/cron_delivery_store.py:451-500 | n overlapping passes can put one report off n times and leave its count at 1, so no bound holds for all numbers of passes |
| `CronBridgeRetries.BackoffInRange` | compat/cron_delivery_store.py:493-496 | every delay lies between 60 and 900 seconds |
| `CronBridgeRetries.BackoffNeverShrinks` | compat/cron_delivery_store.py:493-496 | a delay for more attempts is never shorter |
| `SteerTables.Tables.FindKey` | compat/steer_store.py:196-202 | finds the row of a key |
| `SteerTables.Tables.Register` | compat/steer_store.py:139-149 | registers a run, or refreshes its session and epoch, never its seal or its numbers |
| `SteerTables.Tables.Seal` | compat/steer_store.py:160-178 | seals a run once and retires its accepted steers; staged ones stay |
| `SteerTables.Tables.Insert` | compat/steer_store.py:210-228 | takes the next number of the run for one new row |
| `SteerTables.Tables.Submit` | compat/steer_store.py:181-229 | one admission transaction with all its answers |
| `SteerTables.Tables.Gate` | compat/steer_store.py:232-245 | the check before a handoff |
| `SteerTables.Tables.Record` | compat/steer_store.py:248-279 | the receipt of a handoff; an existing row answers for itself |
| `SteerTables.Tables.ClaimAll` | compat/steer_store.py:302-329 | all accepted steers of an open run become one staged batch in their order, or nothing happens |
| `SteerTables.Tables.Confirm` | compat/steer_store.py:332-345 | promotes a batch and its steers unless it is delivered already |
| `SteerTables.Tables.Doubt` | compat/steer_store.py:348-360 | marks a batch and its steers unknown unless it is delivered already |
| `SteerTables.Tables.ConfirmFlushed` | compat/steer_inbox.py:569-589 | confirms the batches of the flushed rows that have both a batch id and a row id, in order |
| `SteerTables.Tables.PruneExpired` | compat/steer_store.py:386-411 | the loop over expired runs forgets exactly those runs and leaves a tombstone for each of their keys |
| `SteerTables.Tables.SealStaleRuns` | compat/steer_inbox.py:633-642 | the first loop of a recovery |
| `SteerTables.Tables.SettleStaged` | compat/steer_inbox.py:643-651 | the second loop of a recovery |
| `SteerTables.Tables.RecoverAll` | compat/steer_inbox.py:625-652 | a whole recovery and prune |
| `SteerProofs.AppendKeepsValid` | compat/steer_store.py:203-228 | admission and handoff keep the invariant: distinct growing numbers, batches equal to their steers, no accepted steer in a sealed run, at most 32 outstanding |
| `SteerProofs.ClaimKeepsValid` | compat/steer_store.py:302-329 | a claim keeps it |
| `SteerProofs.RetiresKeepsValid` | compat/steer_store.py:160-178 | a seal keeps it |
| `SteerProofs.SettlesKeepsValid` | compat/steer_store.py:332-360 | a confirmation or a doubt keeps it |
| `SteerProofs.ForgetKeepsValid` | compat/steer_store.py:386-411 | a prune keeps it |
| `SteerProofs.RecoverKeepsValid` | compat/steer_inbox.py:625-652 | a recovery keeps it |
| `SteerProofs.RecoverRepairs` | compat/steer_inbox.py:625-652 | from any such state a recovery leaves no staged batch and no accepted steer outside live runs, delivers a staged steer exactly when the history carries its batch, and touches nothing else |
| `SteerRun.StoreAlwaysValid` | compat/steer_store.py:160-411 | the invariant holds in every reachable store |
| `SteerRun.InjectedInOrder` | compat/steer_store.py:302-329 | over a run of events the claimed numbers of a run grow strictly; every queued steer below a claimed one was claimed; no steer is in two batches |
| `SteerRun.KeyAnswersForever` | compat/steer_store.py:181-201 | a key that was taken once answers with its first number, as a conflict, or as expired once pruned; the store does not change |
| `SteerRun.NumbersAreNeverReused` | compat/steer_store.py:210-222 | a number of a run belongs to one key for ever, pruned keys included |
| `SteerRun.TicketsAreForever` | compat/steer_store.py:181-229 | no further events change the number or text a key was taken with, or withdraw a tombstone |
| `SteerRun.RowsKeepTheirFate` | compat/steer_store.py:332-360 | over any further events a row keeps its batch, and delivered or not delivered stay as they are, until it is pruned |
| `SteerRun.DeliveredWasCommitted` | compat/steer_inbox.py:569-589 | a delivered steer names a committed row and its own batch id |
| `SteerInbox.AdmitNow` | compat/steer_inbox.py:319-374 | the admission request over the live tables, both paths, with every refusal, and whether the core was asked |
| `SteerInbox.TakenKeyIsNeverNew` | compat/steer_inbox.py:267-312 | a taken key is never taken again and never reaches the core again; the answer in each state of the run |
| `SteerInbox.TakenOnlyInAnOpenRun` | compat/steer_inbox.py:287-374 | a steer is taken only under a new key in an open run whose state admits; what row it leaves on either path |
| `SteerInbox.RequestIsRunSteps` | compat/steer_inbox.py:287-374 | a request is a sequence of ledger events, so all results over runs hold across it |
| `SteerBoundary.ToolsComplete` | compat/steer_inbox.py:482-499 | the backward search answers true exactly when some assistant that called tools is followed by tool results only, which answer all its ids |
| `SteerBoundary.Transcript.OnToolBoundary` | compat/steer_inbox.py:502-555 | the store and the message list after a tool boundary |
| `SteerBoundary.MarkRoundTrip` | compat/steer_inbox.py:558-562 | reading between the markers undoes marking |
| `SteerBoundary.InnerRoundTrip` | compat/steer_inbox.py:558-562 | marking undoes reading exactly when the markers do not overlap in the content |
| `SteerBoundary.DecimalRoundTrip` | compat/steer_inbox.py:542 | the number in front of a line reads back as the steer number |
| `SteerBoundary.BoundaryWritesOneRow` | compat/steer_inbox.py:502-555 | a boundary changes nothing, appends one user row behind a complete tool batch, or rewrites only an unpersisted steer tail keeping its text; the row lists exactly the claimed steers in order |
| `SteerBoundary.CarriedBatchesStay` | compat/steer_inbox.py:546-552 | every batch the messages carried is still carried after a boundary, if and only if it does not merge into a row that was the only carrier of another batch |
| `SteerTranscript.TranscriptInOrder` | compat/steer_inbox.py:502-555 | over whole runs, restarts included, the steers of a run stand in the messages in strict order, none twice |
| `SteerTranscript.DeliveredIsInTheTranscript` | compat/steer_inbox.py:569-589 | a steer is delivered only if the messages hold a persisted row that carries its batch and lists it, with its number and text |
| `SteerTranscript.BoundaryForgetsExactly` | compat/steer_inbox.py:546-552 | a boundary makes a carried batch forgotten, in messages and history, exactly when it merges into its only carrier |
| `SteerTranscript.ForgottenNeverDelivered` | compat/steer_inbox.py:643-651 | a forgotten batch and its steers are never delivered, whatever happens afterwards |
| `SteerTranscript.ForgettingRun` | compat/steer_inbox.py:517-552 | a whole run from the empty inbox that forgets a batch |
| `NotificationStore.Store.NextSeq` | compat/notification_store.py:157-162 | hands out the next number once |
| `NotificationStore.Store.Record` | compat/notification_store.py:136-154 | idempotent append |
| `NotificationStore.Store.Read` | compat/notification_store.py:206-224 | an acknowledgement; only a new one stamps the event |
| `NotificationStore.Store.EventsAfter` | compat/notification_store.py:165-179 | a page: own events behind the cursor in order of change, none left out up to the returned cursor, overflow exactly when something is left |
| `NotificationStore.Store.ClaimSlot` | compat/notification_store.py:234-258 | a claim with its three answers |
| `NotificationStore.Store.QueueSlot` | compat/notification_store.py:278-296 | an announcement with its answers |
| `NotificationStore.Store.NoteOutcome` | compat/notification_store.py:299-334 | an outcome report and all the checks it must pass |
| `NotificationStore.Store.OtherChannel` | compat/notification_events.py:197-208 | whether another channel excludes this one |
| `NotificationStore.Store.Check` | compat/notification_events.py:186-208 | why a recorded event is not sent |
| `NotificationStore.Store.Send` | compat/notification_events.py:209-235 | claim, output, note |
| `NotificationStore.Store.Deliver` | compat/notification_events.py:175-235 | the uninterrupted delivery equals its steps taken one after another |
| `NotificationLedger.RecordKeeps` | compat/notification_store.py:136-154 | change numbers stay distinct; what is new has a number not given out before |
| `NotificationLedger.MarkReadKeeps` | compat/notification_store.py:206-224 | the same for a read; it finds exactly own events, and the reader is recorded |
| `NotificationLedger.MarkReadTwice` | compat/notification_store.py:206-224 | acknowledging twice is acknowledging once |
| `NotificationLedger.SecondClaimLoses` | compat/notification_store.py:234-258 | a claim is won once, whatever comes later |
| `NotificationSync.DeviceIsCurrent` | compat/notification_store.py:165-195 | whatever happens between page, counts and answer, a device holds the present version of every own event up to its cursor, and no other event |
| `NotificationSync.ReachedMeansEqual` | compat/notification_store.py:165-195 | with nothing own behind its cursor its view is the ledger |
| `NotificationSync.PageIsProgress` | compat/notification_store.py:165-179 | a page takes its length off what is behind the cursor; overflow exactly when more than the limit was there |
| `NotificationSync.DrainedMeansEqual` | compat/compat.py:4759-4785 | after one exchange without overflow the device equals the ledger |
| `NotificationDelivery.OutputAtMostOnce` | compat/notification_events.py:175-235 | over all interleavings, crashes and claims included, the output is called at most once for each event, phase and channel, and only by grant |
| `NotificationDelivery.FinalizedByTheWinner` | compat/notification_store.py:299-334 | a browser row is only rewritten by a report that presents the token of the single claim won for it |
| `NotificationDelivery.GrantOfRow` | compat/notification_store.py:234-258 | a row past pending has its one grant, with device and token |
| `NotificationDelivery.OutcomeRecordedExactly` | compat/notification_events.py:219-235 | a call that wins its claim leaves its outcome in the row if and only if the channel is not the browser; there the row stays claimed |
| `NotificationDelivery.NoTokenNoOutcome` | compat/notification_store.py:326-331 | over all runs, a browser row that was claimed without a token stays claimed |
| `NotificationDelivery.ServerAlertExample` | compat/notification_events.py:219-235 | a run in which the server shows a browser alert that is never recorded |
| `NotificationDelivery.SentOnce` | compat/notification_events.py:175-235 | asked again, a delivery that was sent is not sent again |
| `NotificationDelivery.CallsNeverReroute` | compat/notification_events.py:197-208 | one call after another, an event never gets rows on two channels that exclude each other |
| `NotificationFlow.WholeCallChecksFirst` | compat/notification_events.py:182-208 | the steps before the claim are the four checks |
| `NotificationFlow.SendsOnce` | compat/notification_events.py:219-235 | from the claim on the output is called once and its outcome noted |
| `SelfWakeScan.PageIsComplete` | compat/self_wake.py:282-296 | a page is ordered, above the seek, complete up to its end, and exhaustive when short |
| `SelfWakeScan.PagesJoin` | compat/self_wake.py:282-346 | reading on from a page is one longer page: nothing is skipped or repeated at its end, equal times included |
| `SelfWakeScan.ShortPage` | compat/self_wake.py:345-346 | a page that is not full does not grow with the limit |
| `SelfWakeScan.VisitedKeysAreSettled` | compat/self_wake.py:297-340 | a key has an intent afterwards exactly when it had one, or was visited and no receipt stood against it; nothing existing is rewritten |
| `SelfWakeScan.CutShortIsHarmless` | compat/self_wake.py:297-348 | a sweep cut short after any row leaves the next one nothing to do twice |
| `SelfWakeScan.Bridge.VisitRow` | compat/self_wake.py:297-340 | one row with its counts |
| `SelfWakeScan.Bridge.OnDelivered` | compat/self_wake.py:204-226 | registers an intent once |
| `SelfWakeScan.Bridge.BumpGeneration` | compat/self_wake.py:165-169 | a new generation with a new cutoff |
| `SelfWakeScan.Bridge.Walk` | compat/self_wake.py:281-346 | pages until one is short, at most 25, each of the rows as they are when it is read |
| `SelfWakeScan.Bridge.Reconcile` | compat/self_wake.py:251-348 | a sweep from the persisted seek: books and new seek |
| `SelfWakeScan.QuietSweepIsOnePage` | compat/self_wake.py:281-346 | when nothing is appended meanwhile, the pages of a sweep visit what one page of all of them holds |
| `SelfWakeRun.VisitedExactly` | compat/self_wake.py:175-186 | over whole runs, rows appended between pages and failed sweeps included, the visits of a generation are in strict order, and a candidate was visited exactly when the seek passed it and had not passed its place when it was appended |
| `SelfWakeRun.InOrderIsNeverLate` | compat/self_wake.py:282-296 | a row appended above the position of a walk is never passed over by it |
| `SelfWakeRun.PageSettles` | compat/self_wake.py:297-340 | a keyed report without a standing receipt has an intent and a delivered receipt once a page has visited it |
| `SelfWakeRun.LateRowExample` | compat/self_wake.py:282-296 | a row that arrives between two pages, with a time already passed, is passed over |
| `SelfWakeRun.SweepsReachAll` | compat/self_wake.py:341-347 | enough sweeps visit every row that is not late |
| `ChainFuse.Chains.MayWake` | compat/self_wake.py:378-397 | the gate and its refusals |
| `ChainFuse.Chains.NoteCompleted` | compat/self_wake.py:400-407 | a completion counts and ends the streak |
| `ChainFuse.Chains.NoteFailed` | compat/self_wake.py:410-424 | both transactions of a failure |
| `ChainFuse.Chains.FuseNow` | compat/self_wake.py:512-519 | sets the fuse |
| `ChainFuse.Chains.TryReset` | compat/self_wake.py:522-549 | compare-and-set reset with its audit record |
| `ChainFuse.Chains.HumanCheckpoint` | compat/self_wake.py:462-475 | resets a chain that is not fused, on proof |
| `ChainFuse.Chains.Release` | compat/self_wake.py:552-560 | the admin reset |
| `ChainRun.WakesAreBounded` | compat/self_wake.py:378-424 | between two resets the gate lets pass at most three wakes for each allowed by the largest limit, plus one for each that was not counted in full, plus the largest number outstanding when another passed |
| `ChainRun.BoundIsMet` | compat/self_wake.py:1020-1044 | for every limit and every number outstanding a run without loss meets the bound |
| `ChainRun.ThreeEachExactlyAlone` | compat/self_wake.py:378-424 | without loss, three for each allowed is the bound exactly when no wake passes while another is outstanding |
| `ChainRun.OneAllowedManyRun` | compat/self_wake.py:1143-1166 | under a limit of one and a listener that is away, any number of wakes pass, and all run and complete once it is back |
| `ChainRun.CrashBuysOne` | compat/self_wake.py:410-424 | a crash between the two transactions of the third failure buys one wake |
| `ChainRun.FusedUntilReleased` | compat/self_wake.py:512-560 | a fused lineage stays fused until an admin resets it; no wake passes the gate, and at most those reserved before still start |
| `ChainRun.AsleepExactly` | compat/self_wake.py:962-967 | a fused lineage is asleep, whatever happens, exactly when none was reserved |
| `ChainRun.FuseLeavesAReservation` | compat/self_wake.py:962-967 | a run in which a wake starts after the fuse was set |
| `ChainRun.LastFireIsKept` | compat/self_wake.py:522-549 | no reset forgets when the lineage last woke itself |
| `ChainRun.CooldownHolds` | compat/self_wake.py:378-397 | between a completed wake and the next that passes the gate lies the cooldown, whatever was reset in between |
| `ChainRun.StartKeepsCooldown` | compat/self_wake.py:962-967 | a reserved wake that starts later keeps the cooldown as long as no other has completed since it passed the gate |
| `ChainRun.CooldownSkipped` | compat/self_wake.py:962-967 | otherwise it need not: a run in which one starts a second after another completed |
| `ChainFuse.ThirdFailureFuses` | compat/self_wake.py:410-424 | three failures in a row set the fuse, two do not |
| `VoiceCapture.VgCapture.Process` | app/web/voice_worklets.js:27-51 | after any block, output k of the stream is its sample at position k * ratio, frames hold the outputs in order, phase lies in [0, ratio) |
| `VoiceCapture.VgCapture.Emit` | app/web/voice_worklets.js:37-46 | a full frame is quantized and posted |
| `VoiceCapture.OutputsByLength` | app/web/voice_worklets.js:27-51 | the number of outputs depends on the length of the stream alone |
| `VoiceCapture.SameStreamSameOutputs` | app/web/voice_worklets.js:33-37 | two cuttings of a stream give the same output wherever both or neither cut at its sample |
| `VoiceCapture.WholeRatioIgnoresBlocks` | app/web/voice_worklets.js:21 | at a multiple of 16 kHz blocks do not matter |
| `VoiceCapture.FramesInRange` | app/web/voice_worklets.js:38-45 | frames have 320 samples in [-32767, 32767] |
| `VoiceSamples.QuantizeIsNearest` | app/web/voice_worklets.js:41-42 | a sample is the nearest 16-bit level of its clamped value |
| `VoiceSamples.QuantizeIsMonotone` | app/web/voice_worklets.js:41-42 | louder stays louder |
| `VoicePlayback.VgPlayback.Enqueue` | app/web/voice_worklets.js:88-92 | the ring takes a sample, or drops it when full |
| `VoicePlayback.VgPlayback.Dequeue` | app/web/voice_worklets.js:109-115 | the ring gives its oldest sample |
| `VoicePlayback.VgPlayback.Push` | app/web/voice_worklets.js:79-96 | the ring refines a bounded queue that drops the newest |
| `VoicePlayback.VgPlayback.Flush` | app/web/voice_worklets.js:71-75 | everything is dropped at once |
| `VoicePlayback.VgPlayback.Process` | app/web/voice_worklets.js:98-124 | plays the queue once the prebuffer was full; drained is posted exactly when a non-empty queue runs empty |
| `VoicePlayback.DurationKept` | app/web/voice_worklets.js:64-96 | a frame keeps its duration if and only if the device runs at 16 kHz |
| `VoicePlayback.FrameAt48k` | app/web/voice_worklets.js:64-96 | at 48 kHz a 20 ms frame becomes 107 samples |
| `Utf8.Cut` | compat/ntfy_notify.py:43-53 | the loop ends with the longest front of whole code points that fits |
| `Utf8.CutIsUnique` | compat/ntfy_notify.py:43-53 | that front is the only one |
| `Utf8.DecodesExactlyEncodings` | compat/ntfy_notify.py:49-53 | strict decoding succeeds exactly on encodings of texts, and gives the text |
| `Utf8.PrefixCode` | compat/ntfy_notify.py:49-53 | a cut that decodes is a front of the text |
| `NtfyPublish.Body` | compat/ntfy_notify.py:173-179 | the body of a message with or without a link |
| `NtfyPublish.LinkStaysWhole` | compat/ntfy_notify.py:173-179 | a body fits its 1900 bytes; its link is whole if and only if the link alone fits, and then as much of the message as fits stands before it |
| `NtfyPublish.Hub.PublishJson` | compat/ntfy_notify.py:163-192 | accepted exactly when configured and the queue of 128 has room; a full queue drops |
| `NtfyPublish.Hub.Take` | compat/ntfy_notify.py:108-110 | the worker takes jobs in the order of their acceptance |
| `PatchTransaction.Transaction.Set` | compat/compat.py:224-235 | binds and notes what was found, unless the guard refuses |
| `PatchTransaction.Transaction.Restore` | compat/compat.py:236-257 | the loop unwinds every change from the last to the first |
| `PatchTransaction.RestoreIsExactIff` | compat/compat.py:224-257 | any nested and repeated sets are restored exactly, if and only if none patched over an inherited value |
| `PatchTransaction.FlatIsExact` | compat/compat.py:224-257 | targets that inherit nothing are always restored exactly |
| `PatchTransaction.ReverseOrderIsExact` | compat/compat.py:224-257 | several transactions restored in reverse order of installation leave no trace |
| `PatchTransaction.WrongOrderLeavesAPatch` | compat/compat.py:236-257 | in the wrong order a stale patch stays |
| `PatchTransaction.PinnedPatchExample` | compat/compat.py:224-257 | a child patched after its parent keeps the parent's patch |
| `PatchTransaction.TouchesOnlyItsOwn` | compat/compat.py:242-255 | a restore writes to a slot exactly when the slot holds one of the values the transaction set there |
| `PatchTransaction.EarlierValueExample` | compat/compat.py:242-255 | an earlier value of its own counts, even when someone else put it back |
| `WakeLedgerAnswers.EveryKeyIsAnswered` | compat/auto_wake_store.py:268-335 | for every key of a request, by the old ledger and what was read: it is rejected as consumed with its batch, of unknown provenance, as suspect, or beyond the tenth claimable key; ignored exactly when its ignored row stands, or it says nothing, or it repeats a report of the last fifteen minutes; otherwise claimed; and a new row is that of a claim or of a key ignored for one of these two causes |
| `WakeLedgerMoves.RefusalsExactly` | compat/auto_wake_store.py:246-267 | which request is refused, with which answer, in which order of causes; a refused one changes nothing |
| `WakeLedgerMoves.ValidKeysAre` | compat/auto_wake_store.py:237-245 | the keys of a request are its strings of 64 lower-case hexadecimal digits |
| `WakeLedgerMoves.ValidKeysInOrder` | compat/auto_wake_store.py:237-245 | in the order of the request, none twice as often as given |
| `WakeLedgerMoves.NewBatchIs` | compat/auto_wake_store.py:322-339 | every column of a new batch |
| `WakeLedgerMoves.DoorAnswers` | compat/auto_wake_store.py:342-373 | what the door answers to every state of the batch; it changes a batch exactly when it lets the stream proceed |
| `WakeLedgerMoves.FailedDispatchReverts` | compat/auto_wake_store.py:376-385 | exactly a dispatching batch without a run becomes reserved again |
| `WakeLedgerMoves.AcceptedExactly` | compat/auto_wake_store.py:399-411 | an accept report: recorded from dispatching only, repeated without effect under the same run id, a conflict otherwise |
| `WakeLedgerMoves.EndedExactly` | compat/auto_wake_store.py:412-427 | a dispatching or accepted batch becomes terminal, or consumed with an unknown outcome and its reason, as reported; every other state is a conflict |
| `WakeLedgerMoves.ReportErrors` | compat/auto_wake_store.py:395-398 | which reports are errors |
| `WakeLedgerMoves.ReleasedExactly` | compat/auto_wake_store.py:438-454 | a release gives back exactly a reserved batch without a run: its columns, and which rows go |
| `WakeLedgerMoves.SettlementIs` | compat/wake_reconcile.py:34-122 | what a settlement writes into the row, on the end of the run and on closed books |
| `WakeLedgerMoves.BooksClosedExactly` | compat/wake_reconcile.py:34-91 | when bookkeeping is closed: every claimed key is consumed for the session and has its matching done intent in time, the newest at the stamp given |
| `WakeLedgerMoves.FailedRequestSettles` | compat/compat.py:2788-2823 | what becomes of a batch whose request failed, by how far the request got and what is known of its run |
| `CronBridgeAnswers.WriteAnswers` | compat/cron_delivery_store.py:394-436 | when a write inserts, finds, is refused and with which words, meets a rotation, or loses the turn; it writes only when it inserts |
| `CronBridgeAnswers.AttemptEndsAt` | compat/cron_delivery_store.py:349-379 | an attempt goes past every try that meets a rotation and ends with the first that does not, by the state of its target |
| `CronBridgeAnswers.RotationsOnlyPutOff` | compat/cron_delivery_store.py:358-379 | when every try meets a rotation the report is put off, not refused, and nothing is written |
| `CronBridgeAnswers.RefusedOnlyForCause` | compat/cron_delivery_store.py:371-379 | an attempt is refused only when the write of some try found another digest, no target, or a target of a wrong source, hidden, archived or ended by something else than compression; the words name which |
| `CronBridgeAnswers.DeliveredAfterRotations` | compat/cron_delivery_store.py:358-370 | after any number of rotations the try that meets an open, unleased, allowed target delivers |
| `CronBridgeAnswers.RotationNeverRefuses` | compat/cron_delivery_store.py:358-370 | the same for interleaved deliveries: a rotation met at the write sends the delivery back to resolve, or puts it off |
| `CronBridgeAnswers.FailuresNameTheirCause` | compat/cron_delivery_store.py:311-500 | over every run, no failed receipt is due to a rotation: each names one of the permanent causes or the end of the retries |
| `CronBridgeAnswers.UpsertIs` | compat/cron_delivery_store.py:222-237 | the receipt upsert column by column |
| `CronBridgeAnswers.SpoolIs` | compat/cron_delivery_store.py:289-310 | what spooling writes, and when a delivery is answered at once |
| `CronBridgeAnswers.DirectLeaves` | compat/cron_delivery_store.py:311-346 | what each outcome of a direct delivery leaves in the spool and in the receipt |
| `CronBridgeAnswers.DrainedRetryIs` | compat/cron_delivery_store.py:484-498 | what a drained retry writes: the next delay, or the end of the retries at the 24th attempt |
| `CronBridgeAnswers.BackoffTable` | compat/cron_delivery_store.py:493-496 | the delays: one, two, four, eight, then fifteen minutes |
| `CronBridgeAnswers.PageIs` | compat/cron_delivery_store.py:439-450 | a pass takes at most 32 distinct rows, due and under 24 attempts |
| `SteerAnswers.LegacyAnswers` | compat/steer_inbox.py:169-181 | a new key on the legacy path is taken if and only if the epoch matches, the agent is bound, the status is running, waiting for approval or absent, the run is not sealed, and fewer than 32 of its steers are open; every other case has its code |
| `SteerAnswers.AuthorityAnswers` | compat/steer_inbox.py:222-243 | on the core's path if and only if the epoch matches, the run is neither over nor stopping, its admission is started, the run is not sealed, and the core takes it; the core is asked only then; every other case has its code |
| `SteerAnswers.OneVerdict` | compat/steer_inbox.py:169-243 | the causes of refusal are complete and exclude one another, on both paths |
| `SteerAnswers.RepeatAnswers` | compat/steer_inbox.py:267-275 | a key with a row answers with it, or as a clash, in every state of the run |
| `SteerAnswers.GoneAnswers` | compat/steer_inbox.py:287-374 | a pruned key answers as gone exactly where the run itself would take a steer, and with the run's refusal otherwise |
| `SteerAnswers.OwnerlessAnswers` | compat/steer_inbox.py:287-374 | without an owner nothing is stored; the code |
| `SteerAnswers.LegacyTakes` | compat/steer_inbox.py:355-374 | every column of the run and of the steer that a taken steer leaves |
| `SteerAnswers.AuthorityTakes` | compat/steer_inbox.py:287-316 | the same on the core's path |
| `SteerAnswers.AdmitAnswers` | compat/steer_store.py:181-229 | the admission transaction: tombstone, row, seal, limit of 32, in this order |
| `SteerAnswers.GateAnswers` | compat/steer_store.py:232-245 | the check before a handoff |
| `SteerAnswers.RegisterIs` | compat/steer_store.py:139-149 | the run upsert column by column |
| `SteerAnswers.SealIs` | compat/steer_store.py:160-178 | the first reason and time of a seal stay; exactly the accepted steers of the run end, with the reason |
| `SteerAnswers.ClaimIs` | compat/steer_store.py:302-329 | what a claim answers; its batch is exactly the accepted steers of the run, in the order of the table |
| `SteerAnswers.ClaimStages` | compat/steer_store.py:318-321 | what a claim writes into each row |
| `SteerAnswers.ConfirmIs` | compat/steer_store.py:332-345 | what a confirmation writes into the batch and into each row |
| `SteerAnswers.DoubtIs` | compat/steer_store.py:348-360 | what a doubt writes |
| `SteerAnswers.FlushedIs` | compat/steer_inbox.py:569-589 | only a committed row with both ids confirms its batch |
| `SteerAnswers.PruneIs` | compat/steer_store.py:386-411 | a prune forgets exactly the runs closed more than thirty days ago; what stays keeps its order, and each forgotten key leaves a tombstone |
| `SteerAnswers.RecoverSeals` | compat/steer_inbox.py:633-642 | which runs a recovery seals, and with which reason |
| `SteerAnswers.RecoverSettles` | compat/steer_inbox.py:643-651 | what it makes of each batch |
| `SteerAnswers.RecoverMarks` | compat/steer_inbox.py:625-652 | what it writes into each row, reasons included |
| `SteerText.BoundaryShows` | compat/steer_inbox.py:542-555 | after an injection the last row is an unpersisted steer row; between its markers stands the text it had, if it was merged into, and one piece for each claimed steer, joined by line breaks: hash, its number in decimal, colon, its whole text |
| `SteerText.InjectsExactly` | compat/steer_inbox.py:502-541 | a boundary does something exactly for a bound, registered, open run with an accepted steer, after tool rows, at a tail that may take it |
| `SteerText.TextTellsSteersApart` | compat/steer_inbox.py:542 | for texts without line breaks the injected text fixes how many steers there are, their numbers and their words |
| `SteerText.CompleteExamples` | compat/steer_inbox.py:482-499 | tool batches that are complete |
| `SteerText.IncompleteExamples` | compat/steer_inbox.py:482-499 | tool batches that are not |
| `NotificationAnswers.PublishesExactly` | compat/notification_events.py:175-235 | an uninterrupted delivery calls the output if and only if the request publishes, the kind is none of the three silent ones, nobody read the event, its slot has no row past pending, no excluding channel has a row of it, and the claim is won |
| `NotificationAnswers.StoppedCallAnswers` | compat/notification_events.py:186-208 | the verdict of every delivery that stops before its claim |
| `NotificationAnswers.SentCallAnswers` | compat/notification_events.py:209-235 | the verdict of every delivery that gets as far as its claim |
| `NotificationAnswers.LostRaceAnswers` | compat/notification_events.py:209-222 | the verdict when another caller was faster between check and claim |
| `NotificationAnswers.RecordIs` | compat/notification_store.py:136-154 | what a record writes |
| `NotificationAnswers.ReadWrites` | compat/notification_store.py:206-224 | what an acknowledgement writes |
| `NotificationAnswers.ClaimIs` | compat/notification_store.py:234-258 | when a claim is won, and the row it leaves |
| `NotificationAnswers.QueueIs` | compat/notification_store.py:278-296 | what an announcement answers and writes |
| `NotificationAnswers.NoteIs` | compat/notification_store.py:299-334 | a report rewrites its row exactly when its word is one of five, everything it says matches, and on the browser channel the token is that of the claim |
| `NotificationAnswers.ServerNoteIs` | compat/notification_events.py:234-235 | what the server's own report leaves |
| `SelfWakeAnswers.NextRowIs` | compat/self_wake.py:282-296 | the next row read is the oldest report behind cutoff and seek, the smaller id first among equal times |
| `SelfWakeAnswers.StartIs` | compat/self_wake.py:175-186 | where a sweep starts |
| `SelfWakeAnswers.FirstRowIsReconciled` | compat/self_wake.py:297-340 | the intent and the receipt a page gives a key name the first row with it, column by column; every other key keeps what it had |
| `ChainFuse.GateAnswers` | compat/self_wake.py:378-397 | when each refusal is given, and the time it says to wait |
| `ChainFuse.ChainWrites` | compat/self_wake.py:400-424 | what a completion, a failure and the fuse write |
| `ChainFuse.ResetWrites` | compat/self_wake.py:522-549 | what a reset writes, and when it applies |
| `VoiceSamples.QuantizeIs` | app/web/voice_worklets.js:41-42 | the level of every sample, halves rounding up |
| `VoiceAnswers.MadeIs` | app/web/voice_worklets.js:30-37 | an output between two samples of a block lies on the line between them, one at the end of a block takes the last sample |
| `VoiceAnswers.WrittenIs` | app/web/voice_worklets.js:64-87 | a written sample between two positions lies on the line from the sample before; one on a position is its level |
| `VoiceAnswers.BoundedIs` | app/web/voice_worklets.js:88-92 | a queue takes what arrives in its order, as far as there is room |
| `VoiceAnswers.PlayedIs` | app/web/voice_worklets.js:98-124 | a request plays the oldest samples, then silence |
| `Utf8.EncodingIs` | compat/ntfy_notify.py:43-53 | how many bytes a code point has and which bits each carries, as in section 3 of RFC 3629 |
| `NtfyPublish.BodyIs` | compat/ntfy_notify.py:173-179 | the body with every length written out |
| `NtfyPublish.WantedAre` | compat/ntfy_notify.py:181-182 | the tags are the given ones in their order without the empty ones and the server's own |
| `PatchTransaction.LookIs` | compat/compat.py:224-235 | a target sees its own binding, or the nearest inherited one, or none |
| `PatchTransaction.UndoIs` | compat/compat.py:242-255 | what the restore of one change writes, and when |
| `WakeLedgerMoves.ServedLeaves` | compat/compat.py:2825-2876 | what a whole request leaves of the batch it carries: refused without effect, in flight as long as it answers below 400, settled by how far it got when it fails |
| `CronBridgeAnswers.DrainedLeaves` | compat/cron_delivery_store.py:455-483 | what a drained row leaves that was delivered, found or refused |
| `CronBridgeAnswers.PassSettlesEach` | compat/cron_delivery_store.py:439-500 | a drain pass leaves each of its reports as its own acknowledgement would alone, and every other report as it was |
| `CronBridgeAnswers.CountsAre` | compat/cron_delivery_store.py:439-500 | the four counts of a pass are the numbers of its rows that were inserted, found, put off below the 24th attempt, and closed |
| `CronBridgeAnswers.BackfillIs` | compat/self_wake.py:297-340 | the receipt the crash-gap scan adds |
| `SelfWakeAnswers.SweepIsReconcile` | compat/self_wake.py:251-348 | a sweep with nothing between its events leaves the books, the stored seek and the visits of the method |
| `NotificationAnswers.CallIsEvents` | compat/notification_events.py:175-235 | a delivery with nothing between its steps leaves the ledger, verdict and output of the whole call |
| `NotificationAnswers.TabMayShow` | compat/notification_store.py:234-258 | a tab may show the alert of an own event exactly when it won the claim of its first browser row |
| `CronBridgeAnswers.DeliveryBegins` | compat/cron_delivery_store.py:289-313 | a delivery of a run spools first, is answered at once only by a delivered receipt of the same content, and has three tries otherwise |
| `CronBridgeAnswers.PassGoesOn` | compat/cron_delivery_store.py:439-460 | a pass of a run tries the rows it read one by one, with the count it read |
| `WakeLedgerMoves.CourseReaches` | compat/compat.py:3424-3546 | how far a request gets, by what its handler meets |

## Left out

- HTTP, SSE and WebSocket handling, authentication, configuration files and network sends: the model has only the ledger calls they make and the evidence they stamp.
- Upstream Hermes code (session database, session authority, agent messages) is not part of this model; its answers are parameters of the events. Its marker text is an opener, the text and a closer.
- Hashes and random ids: keys are their inputs, so hashing is injective; a new id that is already taken is an answer of its own (`BatchIdTaken`, `ClaimIdTaken`).
- SQLite: each transaction is one step, and the locks and the single writer of a file are taken for granted. A query without an order answers with the first row inserted.
- `compat/ledger_retention.py`: it forgets consumption rows and receipts after 90 days by design, so every claim over whole runs holds until then.
- Key normalization before an admission (stripping and lowering), whitespace normalization in the content cooldown, and the whitespace strip of reported run ids.
- CronBridgeStore.Resolve: takes the session a resolution named as given; that it lies on the report's compression chain is the guard of the event in the run model, because the resolver is upstream code.
- SteerTables.Tables.RecoverAll: takes one answer of the history for the whole recovery; a recovery that is interrupted, or that finds a changing history, is a sequence of seals, confirmations and doubts in the run model.
- NotificationDelivery.CallsNeverReroute: is about calls one after another, because the check and the claim are two transactions; two calls at the same time on two channels that exclude each other may both claim.
- ChainFuse.Chains.HumanCheckpoint: takes the proof of a human message (`compat/self_wake.py:427-459`) as a parameter.
- NtfyPublish.Hub.PublishJson: takes the fallback link as given; priority, result callback and the click itself are carried along unread.
- WakeRequest.Stream: takes how the handler fares and ends as given, because routes and agents are upstream code.
- Wake release by a second process between the state check and the deletion: the ledger lock covers one process.
- The choice of candidates of the historical reconcile (`compat/wake_reconcile.py:16-31`): every batch is a candidate in the model, and the owner prefix is compared with its case.
- Session database of the cron bridge: writes are serialized and atomic, the guard refuses a session closed by compression, compression chains are linear, rows are not deleted.
- Errors of the bridge's queue and of the session database: both are one kind of retry.
- A crash between the core's taking a steer and the receipt of the handoff: the next request asks the core again.
- The run guard, agent bindings and the watch hook of the steer inbox: a request and a seal of the same run do not overlap, as the guard ensures.
- Listing and receipt views of the steer inbox, reminders, watchers, run links and scheme links of the notifications: easy members.
- Removal of notification events, and ledgers from before the change number.
- What becomes of a wake whose outcome never reaches the fuse: it counts as lost, however it ended.
- Floats: audio samples and positions are reals, the device rate is a natural number. Several output channels carry the same samples, so one is modelled.
- Texts with lone surrogates: encoding them raises before anything is cut.
- Patch cleanups, the version mark on patched callables, and a third party that deletes an attribute while its parent holds the very patch.
- The order of the user-merge pass, synthetic runs and the rest of `compat/compat.py`.
