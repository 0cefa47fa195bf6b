# Karen: a verified model of its state machines

Karen is a job system around a music ripper: users spend per-day quota slots, tasks wait in one queue
and run as a head with at most one borrower, many rips share content-keyed files on a disk that must not
fill up, finished tracks are sent through Telegram dumps whose captions double as a database. This project
models the parts where a mistake shows only over a whole run, and proves what those runs keep.

How the model is built:

- One module per component. Code that updates state in place is a class whose methods are proved against
  functions on the state (`QuotaTable`, `QuotaRows`, `Schedule`, `InUseFiles`, `RipState`, `TaskQueue`,
  `Catalog`, the arrays of `GroupUpload` and `SongGroups`). Code made of expressions is functions.
- What happens between the methods is a state machine: a `Step` (or `Op`, `Move`, `Event`) datatype, one
  constructor for each critical section or for each outcome of the outside world, and theorems over every
  sequence of steps. A mutex-protected section is one step.
- Network, disk, database and clock outcomes are arguments: a step that may or may not happen, a function
  from a call counter to an outcome, or a parameter such as `delivers` or `unlinks`.
- Some statements of the source's own comments do not hold in general. The code is kept as it is, witnesses show
  the failures, and the exact condition is proved:
  a restart does not lift the quota if and only if the condition of `RecoveryErrsTowardTheLimit` holds
  (`LostInsertLiftsTheLimit`, `FailedLoadLiftsTheLimit`); a finished rip is settled as its rule says if and only if
  the condition of `RuleMetIff` holds (`NeverRunAlbumIsConsumed`, `EmptyAlbumIsConsumed`, `PartialArtistIsReturned`);
  the common ZIP root of any files is the deepest one if and only if the chain of `RootIsDeepestIff` exists; a cancel
  rotation, which the scheduler's receive can interrupt because it takes no lock, keeps the order of tasks under the
  condition of `TimelyRunsKeepOrder`, and for one receive if and only if that of `TurnKeepsOrderIff` holds
  (`RotationCanReorder`, `LendingCanDrift`).
- The count of a shared file is accounted for in every interleaving of half-operations (`CountIsExact`); it is what the
  rips hold if and only if no release missed (`CountIsSumOfHeldIff`). The launch loops wait for their tracks before
  they release, and in all their runs no release misses (`LaunchLoops.NothingMissed`). `UndrainedReleaseLeaks` is
  not a run of these loops; it shows what the wait is for.

Files:

| file | what it models |
|---|---|
| `Options.dfy`, `FiniteSums.dfy`, `GoStrings.dfy` | optional values; sums over finite maps; the Go string functions that captions use |
| `Clock.dfy` | Dhaka time, quota-days, the sleep window |
| `QuotaLedger.dfy`, `QuotaRecovery.dfy` | the quota in memory, its lagging rows and crashes |
| `RipSettlement.dfy`, `ChargeActs.dfy`, `ChargeOwnership.dfy`, `ChargePaths.dfy` | how a rip settles its charge, who is responsible for an open charge in every interleaving of calls, and the calls themselves |
| `InUseRegistry.dfy`, `LaunchLoops.dfy`, `FlushCursor.dfy`, `DiskBound.dfy`, `RipState.dfy` | shared files, the goroutines that claim them, exactly-once chunk delivery, the disk bound, and the object that does all three |
| `Scheduler.dfy`, `TaskQueues.dfy`, `CancelRotation.dfy` | the scheduler's steps, with a cancel as one of them; the queue operations as code; the cancel rotation against the unlocked receive |
| `Caption.dfy`, `CaptionRoundTrip.dfy` | the caption printer and parser, and when they are inverse |
| `CrawlHistory.dfy`, `Indexer.dfy` | crawls and their history; the crawler |
| `CollectionDelivery.dfy`, `GroupUpload.dfy`, `UploadGate.dfy`, `ZipLayout.dfy`, `SongGroups.dfy` | ordered delivery, the resumable album upload and its gate, ZIP roots and names, grouping of search results |

Where the code and its comments disagree, the code is modelled: `bot/catalog/quota.go:15-17` says that usage
a restart forgets "fails toward the limit, never past it", which fails when an insert was lost or the rows cannot be
read at boot; `bot/quota.go:171-177` promises a refund to a rip that failed, was cancelled early or delivered nothing,
which an album or playlist whose function never ran, panicked, or ripped no track does not get.

## Model

| member | source | states |
|---|---|---|
| Clock.NextDailyIsLeast | bot/admin_tasks.go:751-758 | the next hh:mm is strictly later, at most 24 hours away, and no other instant with that time of day lies between |
| Clock.QuotaDayFlipsAtReset | bot/quota.go:64-66 | the quota-day is the local date from 13:00 on and the previous date before |
| Clock.WindowHasOneQuotaDay | bot/admin_tasks.go:744-748 | two instants of one sleep window have the same quota-day, the day before the local date |
| Clock.ReleaseDay | bot/admin_tasks.go:841-890 | a job submitted outside the window is released inside one; on its own quota-day exactly when it was not submitted in [06:00, 13:00), else on the following one |
| Clock.ResetIsNextDayChange | bot/admin_tasks.go:990-997 | the daily reset wakes at the first later instant at which the quota-day changes |
| QuotaLedger.TallyOfIsConsistent | bot/quota.go:243-256 | counting restored charges one by one gives for each key the number of its non-refunded charges |
| QuotaLedger.AdmitKeepsConsistent | bot/quota.go:84-92 | an admission keeps the tally equal to the number of occupied slots for every key and does not pass the limit |
| QuotaLedger.RefundGuardHolds | bot/quota.go:141-145 | refunding an open charge always finds a positive count |
| QuotaLedger.FinalizeIsExact | bot/quota.go:129-146 | a finalization frees one slot of the charge's own key when it refunds an open charge, and nothing otherwise |
| QuotaLedger.FirstFinalizationWins | bot/quota.go:134-139 | after one finalization a second one, commit or refund, changes nothing |
| QuotaLedger.PruneKeepsConsistent | bot/quota.go:265-278 | pruning leaves today's tallies as they were, clears all others and keeps them consistent |
| QuotaLedger.QuotaTable.constructor | bot/quota.go:73-104 | both tables start empty |
| QuotaLedger.QuotaTable.CheckAndCharge | bot/quota.go:73-104 | admits exactly below the limit, records one open charge under the fresh id, charges nobody for user 0, keeps the tables consistent |
| QuotaLedger.QuotaTable.SetState | bot/quota.go:129-146 | the whole new table, and a durable write is owed exactly when an open charge was finalized |
| QuotaLedger.QuotaTable.FinalizeHeavy | bot/quota.go:183-204 | whatever the rip did, its charge is closed afterwards, committed or refunded as settled, no other charge changes, and the tables stay consistent |
| QuotaLedger.QuotaTable.Prune | bot/quota.go:265-278 | the loops leave exactly the entries of the day |
| QuotaLedger.QuotaTable.LoadBoot | bot/quota.go:221-261 | the loop over a day's rows builds the restored charges and a tally that counts them; rows that cannot be read restore nothing |
| QuotaRecovery.QuotaRows.constructor | bot/catalog/quota.go:33-48 | the table starts empty |
| QuotaRecovery.QuotaRows.InsertCharge | bot/catalog/quota.go:33-48 | a row is inserted open, a replay is ignored, a disabled catalog does nothing |
| QuotaRecovery.QuotaRows.Finalize | bot/catalog/quota.go:61-74 | only an open row changes state |
| QuotaRecovery.QuotaRows.PruneBefore | bot/catalog/quota.go:103-112 | exactly the rows of earlier days go |
| QuotaRecovery.QuotaRows.LoadDay | bot/catalog/quota.go:79-100 | every row of the day once, and nothing else |
| QuotaRecovery.StepKeepsMirrored | bot/quota.go:21-26 | a row agrees with memory about its slot, and a closed row closed in memory first, across every step including a crash whose boot may fail to read the rows |
| QuotaRecovery.RunKeepsMirrored | bot/quota.go:21-26 | the same over every run |
| QuotaRecovery.CountedRows | bot/quota.go:243-256 | boot counts exactly memory's slots, without those whose row is missing, with those whose refund did not reach the row and those an earlier boot could not read |
| QuotaRecovery.RecoveryIsExact | bot/quota.go:221-261 | over every run and crash: with readable rows the restored tally plus the missing rows equals memory's tally plus the stale and the forgotten rows; without, it is zero |
| QuotaRecovery.RecoveryErrsTowardTheLimit | bot/quota.go:221-261 | a restart does not lower a tally if and only if the rows are read and no more are missing than stale or forgotten, or they are not read and nothing was counted |
| QuotaRecovery.LandedInsertsSurvive | bot/quota.go:221-261 | it never does when the rows are read and every counted insert has landed |
| QuotaRecovery.OrphansComeBackCommitted | bot/quota.go:243-256 | after boot the charges are the day's non-refunded rows, if they could be read, and one is open only under a live deferred job |
| QuotaRecovery.LostInsertLiftsTheLimit | bot/catalog/quota.go:15-17 | a run with one failed insert in which a user passes the limit after a restart |
| QuotaRecovery.FailedLoadLiftsTheLimit | bot/quota.go:229-233 | a run with every insert landed and a boot that cannot read the rows, after which a user passes the limit |
| QuotaRecovery.RunKeepsLimit | bot/quota.go:84-92 | without a restart, usage never exceeds the largest limit an admission used for the key, in any run |
| QuotaRecovery.RoleLimitHolds | bot/restriction.go:65-79 | in any run without a restart nobody exceeds the limit of their role: restricted, donor, and kind of rip |
| QuotaRecovery.LostRefundExceedsTheLimit | bot/quota.go:115-123 | with a restart and an unwritten refund the tally can exceed the limit |
| QuotaRecovery.RefundedRowStays | bot/catalog/quota.go:61-74 | over every run a refunded row stays refunded until it is pruned |
| QuotaRecovery.RestartRefundsAreFinal | bot/quota.go:117-123 | synchronous refunds of charges whose inserts have landed: no later boot, after any run, restores one of them |
| RipSettlement.ArtistFn | bot/admin_tasks.go:1190-1216 | the loop counts exactly the releases ripped before it stops, at a cancellation, a panic or the end |
| RipSettlement.CollectionFn | bot/telegram_bot.go:2978-2990 | the error variable is set by a failure only; a panic leaves it nil |
| RipSettlement.RunAndSettle | bot/telegram_bot.go:3574-3719 | from runDownload to the closure: an open charge is refunded exactly when the events of the rip say so (never run and an artist; cancelled without the owner's exemption; no release ripped before the loop stopped; failed), and committed otherwise |
| RipSettlement.RuleMetIff | bot/quota.go:171-204 | from the events of a rip: the code settles as the stated rule if and only if it never ran and is an artist's; or was cancelled; or is an artist's that panicked before it ripped a release, or ripped one exactly if something arrived; or failed, or was ripped and arrived |
| RipSettlement.RefundedIff | bot/quota.go:183-204 | every rip: refunded exactly when never run and an artist, cancelled without the owner's exemption, without a counted release, or failed |
| RipSettlement.NeverRunAlbumIsConsumed | bot/telegram_bot.go:3591-3673 | an album stopped before its function ran, or whose status board failed, is consumed where the rule refunds |
| RipSettlement.EmptyAlbumIsConsumed | bot/main.go:1946-1948 | so is an album of which no track was ripped, or whose function panicked |
| RipSettlement.PartialArtistIsReturned | bot/admin_tasks.go:1202-1206 | an artist rip is refunded although files of its failed releases arrived |
| ChargeActs.Schedule.constructor | bot/admin_tasks.go:825-838 | no jobs at first |
| ChargeActs.Schedule.ScheduleJob | bot/admin_tasks.go:825-838 | a donor's job goes in before the last one, others at the end |
| ChargeActs.Schedule.ReleaseDueJobs | bot/admin_tasks.go:779-800 | the due jobs leave the list in order, the rest stay in order |
| ChargeActs.Schedule.CancelScheduledJob | bot/admin_tasks.go:950-978 | removes exactly the first job of the id, only for its requester or an admin, and hands back its charge |
| ChargeActs.DischargedOnce | bot/restriction.go:88-92 | a call that discharges its duty closes or hands on each charge exactly as often as it comes to hold it |
| ChargeOwnership.DoMoves | bot/admin_tasks.go:779-890 | an act of a call gains a holder only by a charge and loses one only by a settlement; anything else moves the charge along |
| ChargeOwnership.ReturnDropsNothing | bot/admin_tasks.go:1099-1222 | a call returns with empty hands, so its return takes no claim away |
| ChargeOwnership.ActOnCharge | bot/quota.go:129-146 | an act never reopens or changes a closed charge, opens only what it charges, and closes what it settles |
| ChargeOwnership.StepKeepsOwned | bot/admin_tasks.go:1099-1222 | across every act of any number of interleaved calls, and a restart, no charge gets a second holder and no open one loses its only one |
| ChargeOwnership.RunKeepsOwned | bot/admin_tasks.go:1099-1222 | the same over every run |
| ChargeOwnership.EveryOpenChargeHasOneHolder | bot/telegram_bot.go:2938-3062 | in every reachable state an open charge is held by exactly one deferred job, due job, queued request, call in progress or running rip |
| ChargeOwnership.LosingTheHolderCloses | bot/telegram_bot.go:8427-8480 | whatever step takes the last holder away, the charge is closed after it |
| ChargeOwnership.FinalizedAtMostOnce | bot/quota.go:129-146 | within one process a closed charge keeps its state for ever |
| ChargePaths.Desk.CheckAndCharge | bot/quota.go:73-104 | a slot is taken exactly on admission of a real user, under the fresh id; a refusal is no act |
| ChargePaths.Desk.Close | bot/quota.go:107-116 | closes the charge in hand; a refund gives exactly its slot back, a commit changes no tally |
| ChargePaths.Desk.EnqueueOrRefund | bot/telegram_bot.go:2993-2995 | queued with the charge, or refused by a full queue and its slot given back |
| ChargePaths.Desk.AdmitRestricted | bot/restriction.go:93-110 | only a restricted member is charged, and only below the limit |
| ChargePaths.Desk.TrySendCachedAlbumZipQuota | bot/restriction.go:125-137 | a slot is spent exactly on a cached delivery to an admitted member; the call ends with empty hands |
| ChargePaths.Desk.EnqueueAlbumDownload | bot/telegram_bot.go:2938-2996 | over all its exits: the charge is closed or queued exactly once, and a slot is spent exactly when the album is served or queued |
| ChargePaths.Desk.EnqueuePlaylistDownload | bot/telegram_bot.go:2998-3062 | the same with a charge of its own or one carried by a deferred job |
| ChargePaths.Desk.RunArtistRipScoped | bot/admin_tasks.go:1099-1222 | a carried charge is queued with the one job, or given back: unreadable or empty section, music videos, full queue |
| ChargePaths.Desk.ReleaseJob | bot/admin_tasks.go:808-818 | a job of either kind hands its charge on or closes it; a kind that is neither would keep it |
| ChargePaths.Desk.ScheduleOrRun | bot/admin_tasks.go:841-890 | charged at submission, then released at once or deferred with the charge; a slot is spent exactly when the job was served, queued or deferred |
| ChargePaths.Desk.TakeDueJobs | bot/admin_tasks.go:779-800 | the due jobs leave the list in one step of the system |
| ChargePaths.Desk.DispatchDue | bot/admin_tasks.go:801-806 | every due job is taken and its charge closed or handed on |
| ChargePaths.Desk.CancelScheduledJob | bot/admin_tasks.go:950-978 | a cancelled job's slot is given back; any other answer changes nothing |
| ChargePaths.Desk.CancelQueued | bot/telegram_bot.go:8378-8396 | the request leaves the queue and its slot is given back |
| ChargePaths.Desk.CancelAll | bot/telegram_bot.go:8427-8477 | the charges of the running requests are closed, the queue is emptied, every queued charge is settled once |
| ChargePaths.Desk.Run | bot/telegram_bot.go:958-1029 | a request from the queue to its closure: taken once, settled once, refunded or committed as the events of its rip say, whichever way it ends |
| ChargePaths.ACallOfTheSystem | bot/restriction.go:88-92 | what each of these methods promises of its acts is what a call of the interleaved system may do |
| ChargePaths.CallRuns | bot/restriction.go:88-92 | run alone, such a call takes the system where the method took the tables, and ends with empty hands |
| InUseRegistry.InUseFiles.constructor | bot/ripstate.go:150-155 | no counts at first |
| InUseRegistry.InUseFiles.RetainInUse | bot/ripstate.go:164-172 | raises the count of the file's key by one; an empty path does nothing |
| InUseRegistry.InUseFiles.ReleaseInUse | bot/ripstate.go:175-191 | lowers a positive count, drops an entry that reaches zero, reports what is left |
| InUseRegistry.InUseFiles.IsInUse | bot/ripstate.go:194-201 | true exactly for a file with a positive count |
| InUseRegistry.InUseFiles.AnyInUse | bot/ripstate.go:205-209 | true exactly when some file is counted |
| InUseRegistry.OpMoves | bot/ripstate.go:213-267 | what each half of retain, release and release-all does to a rip's side of the account |
| InUseRegistry.StepKeepsAccounted | bot/ripstate.go:150-267 | every step of any rip keeps: count plus half-done retains is entries plus half-done releases plus missed releases, for every file |
| InUseRegistry.CountIsExact | bot/ripstate.go:150-267 | the same in every interleaving of every set of rips, without any condition |
| InUseRegistry.CountIsSumOfHeldIff | bot/ripstate.go:150-267 | between operations the count is the sum of the rips' entries that normalize to the file if and only if no release of it missed |
| InUseRegistry.PurgeEnabledIff | bot/telegram_bot.go:798-812 | between operations the purge passes its guards if and only if nothing is in progress, no rip holds anything, and no release missed |
| InUseRegistry.UnlinkEnabledIff | bot/telegram_bot.go:4917-4935 | in every run a guarded deleter gets a file exactly when the account of that file is empty |
| InUseRegistry.UndrainedReleaseLeaks | bot/ripstate.go:213-246 | a release between the halves of a retain misses, and the count it leaves is never lowered |
| LaunchLoops.ActKeepsCrewOk | bot/main.go:1920-1946 | the wait group counts the tracks outside retain and the retains under way |
| LaunchLoops.WaitedOut | bot/main.go:1935-1946 | once the wait returned, none of the rip's retains is half done |
| LaunchLoops.EventKeepsSound | bot/main.go:894-945 | every event of every rip's goroutines keeps the account, and no release misses |
| LaunchLoops.NothingMissed | bot/main.go:1911-1947 | in every run of any number of rips no release finds a count of zero |
| LaunchLoops.CountIsSumOfHeld | bot/ripstate.go:150-267 | between operations the count of a file is the sum over the rips of the entries that name it |
| LaunchLoops.PurgeIff | bot/telegram_bot.go:798-812 | between operations the purge passes its guards if and only if nothing is in progress and no rip holds a file; so it can once all have released |
| LaunchLoops.ClaimedFilesStay | bot/telegram_bot.go:4917-4935 | no guarded deletion in any run, by whatever deleter, removes a file a rip has registered and not given back |
| FlushCursor.StepKeepsConserved | bot/ripstate.go:710-864 | one registration, measurement, cut, success or failure keeps delivered chunks equal to the delivered prefix |
| FlushCursor.RunConserves | bot/ripstate.go:572-584 | the same over every interleaving, with the registered files in registration order |
| FlushCursor.DeliveryConserves | bot/ripstate.go:710-864 | delivered chunks in part order, then the remainder, are the registered files, each once; parts are 1, 2, … without gaps |
| DiskBound.WrapperBudget | bot/ripstate.go:443-469 | a rip always gets at least one slot, never more than the pool, and exactly its grant when that is a share of the pool |
| DiskBound.StepKeepsBounded | bot/ripstate.go:738-808 | one launch, completion or checkpoint keeps undelivered bytes plus M per running track below the bound of its phase |
| DiskBound.RunKeepsBounded | bot/main.go:1911-1946 | the same over every interleaving |
| DiskBound.DiskStaysBounded | bot/main.go:1911-1946 | from the first checkpoint on, undelivered bytes plus M per running track stay below threshold + (budget + 1) · M |
| RipStates.RipState.constructor | bot/ripstate.go:134-146 | an empty cursor and no claims |
| RipStates.RipState.Retain | bot/ripstate.go:213-225 | one more claim here and one more in the registry; nobody else's claims change |
| RipStates.RipState.ReleaseHeld | bot/ripstate.go:229-246 | gives back one claim this rip has, and only such a one |
| RipStates.RipState.ReleaseAllHeld | bot/ripstate.go:251-267 | this rip's claims are gone, and every count is exactly what the others claim |
| RipStates.RipState.AddPath | bot/ripstate.go:572-584 | appends to the paths and claims the file |
| RipStates.RipState.MeasurePending | bot/ripstate.go:868-879 | the running total grows by the sizes of the files not measured before |
| RipStates.RipState.RemoveFlushedFile | bot/ripstate.go:888-913 | unlinks a delivered file exactly when its count reached zero |
| RipStates.RipState.RemoveFlushedFiles | bot/ripstate.go:888-913 | one claim back per file of the chunk; every removed file has count zero, and every one with count zero is removed |
| RipStates.RipState.Advance | bot/ripstate.go:779-808 | after a success the cursor stands behind the chunk, the part number is the chunk's, the chunk joins the deliveries |
| RipStates.RipState.CheckpointFlush | bot/ripstate.go:738-808 | below the threshold it only measures; above it, the chunk is everything undelivered after the drain; a failure keeps the files |
| RipStates.RipState.FlushReleaseBoundary | bot/ripstate.go:820-864 | ships everything since the last flush as the next part, reports failure exactly on cancellation or a failed delivery |
| RipStates.RipState.RemainderPaths | bot/ripstate.go:710-722 | deliveries so far and the remainder are together everything registered |
| RipStates.RipState.DeliveredReleases | bot/ripstate.go:662-672 | the number of chunks delivered to the user; staged ones do not count |
| Scheduler.NeverDrifts | bot/telegram_bot.go:1082-1104 | with a cancel as one step: once the lend conditions are re-checked the front of the channel is the candidate, so the drift branch is not reached |
| Scheduler.StepKeepsOrdered | bot/telegram_bot.go:8365-8403 | with a cancel as one step: every step keeps the mirror equal to the task in hand and the channel, and starts plus mirror equal to the enqueued tasks without the cancelled ones |
| Scheduler.StepKeepsTabled | bot/telegram_bot.go:958-1036 | every step keeps each running rip in its table and no ended rip in any |
| Scheduler.StepKeepsCounted | bot/telegram_bot.go:8459-8477 | every step keeps a user's count equal to their live requests |
| Scheduler.RunKeepsInv | bot/telegram_bot.go:932-1108 | the three together over every run in which no receive interrupts a cancel |
| Scheduler.QueueOrder | bot/telegram_bot.go:932-1108 | in every state reached without a receive that interrupts a cancel, tasks have started, as head or borrower, in exactly the order they were enqueued, and nothing is lost or doubled |
| Scheduler.SchedulerSafety | bot/telegram_bot.go:8306-8364 | in every reachable state one head downloads and one borrower runs, /stop finds exactly the running rips in its tables, and a borrower is a Gofile rip |
| Scheduler.BorrowSlotIsSticky | bot/telegram_bot.go:1038-1045 | a filled borrow slot changes only when its own task finishes |
| Scheduler.HeadStartsAfterHead | bot/telegram_bot.go:932-952 | when a head starts, no earlier head is still downloading |
| Scheduler.PerUserCount | bot/telegram_bot.go:1022-1024 | in every reachable state the count is the number of live requests, so no guarded decrement finds zero |
| TaskQueues.TaskQueue.constructor | bot/telegram_bot.go:3137-3165 | channel, mirror and counts start empty |
| TaskQueues.TaskQueue.Enqueue | bot/telegram_bot.go:3137-3165 | refuses exactly when the channel is full; otherwise channel, mirror and count grow together |
| TaskQueues.TaskQueue.RemoveQueuedReqLocked | bot/telegram_bot.go:5517-5524 | takes exactly that task out of the mirror |
| TaskQueues.TaskQueue.RotateOne | bot/telegram_bot.go:8371-8396 | one popped task is put back at the end, unless it is the target and the issuer may stop it |
| TaskQueues.TaskQueue.Rotate | bot/telegram_bot.go:8365-8403 | a full turn that no receive interrupts drops only the target and leaves the order of all other tasks |
| TaskQueues.TaskQueue.CancelQueuedTask | bot/telegram_bot.go:8365-8403 | stopped, denied and not found mean what they say when no receive interrupts the turn, and only a stop changes anything |
| CancelRotation.MoveKeepsWhole | bot/telegram_bot.go:8365-8403 | every fine-grained step, with the receive outside the lock, keeps each task in one place and keeps the popped slot free |
| CancelRotation.RotationConserves | bot/telegram_bot.go:8365-8403 | in every interleaving with the unlocked receiver no task is lost or doubled, and putting a task back never blocks |
| CancelRotation.MoveKeepsMirrored | bot/telegram_bot.go:5517-5524 | in every interleaving the mirror is what was enqueued, in that order, without what started and what was dropped |
| CancelRotation.MoveKeepsInOrder | bot/telegram_bot.go:8365-8403 | a step keeps starts, hand and the rolled channel equal to the enqueued tasks without the dropped ones, unless it is a receive before the last pop of a turn |
| CancelRotation.TimelyRunsKeepOrder | bot/telegram_bot.go:932-1108 | over every run in which no receive comes before the last pop of a turn, tasks start in enqueue order and the drift branch is not reached |
| CancelRotation.NoDriftInOrder | bot/telegram_bot.go:1082-1104 | in order, and outside a turn, the mirror is the hand followed by the channel |
| CancelRotation.TurnKeepsOrderIff | bot/telegram_bot.go:8365-8403 | a turn that drops nothing and is interrupted by one receive ends in order if and only if nothing was left to pop, or nothing had been popped and it began with at most two tasks |
| CancelRotation.RotationCanReorder | bot/telegram_bot.go:8365-8403 | an interleaving of two tasks in which a receive in mid-turn starts the later one first |
| CancelRotation.LendingCanDrift | bot/telegram_bot.go:1084-1095 | an interleaving of three tasks after which the channel and the mirror begin with different tasks, so that lending takes the drift branch |
| GoStrings.ItoaRoundTrip | bot/catalog/caption.go:271-279 | parsing a printed 64-bit integer gives it back |
| GoStrings.CutPair | bot/catalog/caption.go:199-203 | a key without "=" is cut off at the first "=", whatever the value contains |
| Caption.FormatCaption | bot/catalog/caption.go:35-85 | the builder's text is the caption: human lines, a blank line, the tag line with defaults and empty values left out |
| Caption.ParseTagLine | bot/catalog/caption.go:194-207 | the loop collects the key-value tokens, the last one of a key winning |
| Caption.ParseHumanBlock | bot/catalog/caption.go:157-180 | the loop takes title and artist from the last note line and the album from the last disc line |
| Caption.ParseCaption | bot/catalog/caption.go:91-133 | no metadata exactly without a tag line; otherwise tag fields, human fields and a rebuilt variant |
| CaptionRoundTrip.ParsedIsClean | bot/catalog/caption.go:91-207 | from any text: trimmed one-line human fields, tag values without white space, no Apple link |
| CaptionRoundTrip.TagMapReads | bot/catalog/caption.go:60-84 | every printed pair is read back under its key, and an omitted one reads as empty |
| CaptionRoundTrip.TagRoundTrip | bot/catalog/caption.go:91-133 | the tag line alone restores every identity and quality field up to normal form |
| CaptionRoundTrip.TitleRead | bot/catalog/caption.go:163-170 | title and artist are recovered if and only if the title neither contains the dash separator nor forms one with its own |
| CaptionRoundTrip.AlbumRead | bot/catalog/caption.go:171-178 | the album is recovered if and only if the last dot separator of the line is the printed one |
| CaptionRoundTrip.RoundTripIff | bot/catalog/caption.go:35-180 | parsing a printed caption gives the normal form if and only if tag values have no white space, human fields are trimmed single lines, and both separator conditions hold |
| CaptionRoundTrip.RoundTripIsIdempotent | bot/catalog/caption.go:20-24 | what one round trip gives, the next gives again |
| CaptionRoundTrip.UsualTail | bot/catalog/caption.go:46-58 | with a format that has no middle dot, every album satisfies its condition |
| CaptionRoundTrip.NormalizedIsAsClean | bot/catalog/meta.go:87-93 | the normal form is normal and its tag values have no white space |
| CrawlHistory.PageBelow | bot/catalog/indexer.go:26-28 | a page below an offset is the same whatever has been appended to the channel meanwhile |
| CrawlHistory.FullRowGrows | bot/catalog/indexer.go:37-43 | new messages never change the row of an old id |
| CrawlHistory.WalkedGet | bot/catalog/indexer.go:77-96 | walking down to a position gives every message from there on its row and leaves all other keys alone |
| CrawlHistory.CrawlKeepsAgrees | bot/catalog/indexer.go:51-118 | a completed or interrupted crawl keeps the rows up to the checkpoint equal to a full crawl's, with nothing wrong above it |
| CrawlHistory.HistoryAgrees | bot/catalog/indexer.go:37-43 | the same over every history of new messages and crawls; the checkpoint never falls |
| CrawlHistory.EveryCheckpointedMessageHasItsRow | bot/catalog/indexer.go:37-43 | from an empty catalog, every message up to the checkpoint has the row a full crawl would give it, none if it is not cacheable |
| CrawlHistory.IncrementalEqualsFull | bot/catalog/indexer.go:37-43 | after any history one more completed crawl leaves the rows of one crawl from nothing |
| CrawlHistory.IndexDumpIsOneCrawl | bot/catalog/indexer.go:51-118 | what the crawler's contract promises is one crawl event of that history |
| Indexer.Catalog.constructor | bot/catalog/db.go:252-266 | no rows, no checkpoints, the caption parser |
| Indexer.Catalog.UpsertTrack | bot/catalog/db.go:252-310 | one row under (dump, message) with defaults filled in; none for a format outside the cached tiers |
| Indexer.Catalog.SetDumpCheckpoint | bot/catalog/db.go:355-364 | only a registered dump has a checkpoint to move |
| Indexer.Catalog.IndexMessage | bot/catalog/indexer.go:83-91 | a tagged message is stored with the document size filled in, an untagged one is passed over, a failed upsert changes nothing |
| Indexer.Catalog.IndexPage | bot/catalog/indexer.go:76-96 | a page is indexed from the newest message down to the checkpoint or its end |
| Indexer.Catalog.CrawlDown | bot/catalog/indexer.go:61-112 | the paging loop ends on any growing channel, having walked one snapshot down to a position, and all of it above the checkpoint when it was not broken off |
| Indexer.Catalog.IndexDump | bot/catalog/indexer.go:51-118 | rows and count of exactly that walk; the checkpoint moves to the newest message seen exactly on completion |
| CollectionDelivery.BatchEnd | bot/collection_delivery.go:56-60 | the inner loop finds the longest valid batch |
| CollectionDelivery.DeliverOrdered | bot/collection_delivery.go:41-79 | every call fits its position, the count is the number sent, without cancellation every position is settled and the batches are the greedy ones |
| CollectionDelivery.RetryEach | bot/collection_delivery.go:67-75 | each item of a failed batch is tried alone, in place, before anything later |
| CollectionDelivery.SettledInOrder | bot/collection_delivery.go:37-40 | the settled positions are the first ones, each once and in order |
| CollectionDelivery.SentInOrder | bot/collection_delivery.go:37-40 | successful sends have strictly increasing positions |
| CollectionDelivery.UnsentFailedAlone | bot/collection_delivery.go:37-40 | a settled position that did not reach the user was tried alone and failed |
| CollectionDelivery.BatchIsSendable | bot/collection_delivery.go:38-40 | a batch has 1 to 90 messages of one dump with strictly increasing ids, those of its positions, all real when the first is a message id |
| CollectionDelivery.GreedySplits | bot/collection_delivery.go:56-60 | the greedy batches are a valid order-preserving split |
| CollectionDelivery.GreedyIsFewest | bot/collection_delivery.go:56-60 | no valid order-preserving split has fewer batches |
| GroupUpload.RegisterItem | bot/mtproto.go:710-796 | an item is registered only if it was not before, and the cache then holds that registration |
| GroupUpload.UploadAndSendOnce | bot/mtproto.go:692-825 | one attempt keeps the cache equal to the log and succeeds exactly when its send is confirmed |
| GroupUpload.WithUploadRetry | bot/mtproto.go:215-249 | over all attempts, at most 10, the log is proper, and success means the last event is a confirmed send |
| GroupUpload.RegisteredOnce | bot/mtproto.go:677-683 | no item is registered twice, so its random id never changes |
| GroupUpload.EverySendIsTheSame | bot/mtproto.go:797-819 | every send of every attempt carries the same complete album in the items' order |
| GroupUpload.PostedOnce | bot/mtproto.go:677-683 | against a server that drops seen random ids the album is posted whole once a send arrived, and never again |
| GroupUpload.SuccessPostsOnce | bot/mtproto.go:677-683 | on success it is posted exactly once |
| GroupUpload.UploadAndSendAudioGroup | bot/mtproto.go:215-249 | what this call adds to the gate's trace is bracketed: every registration and send is made while the gate is held, and every way out gives it back |
| UploadGate.Gate.Acquire | bot/mtproto.go:86-96 | one token more when it succeeds, nothing changed when the context wins; with room and a done context either may happen |
| UploadGate.ActKeepsOrderly | bot/mtproto.go:83-96 | the channel holds as many tokens as uploads are inside their bracket, across every act |
| UploadGate.OneUploadAtATime | bot/mtproto.go:83-96 | any number of bracketed uploads in any interleaving: the transfers of one are never interrupted by another |
| UploadGate.HolderCanAct | bot/mtproto.go:83-96 | an upload that waits, waits for one that can go on |
| ZipLayout.CommonZipRoot | bot/telegram_bot.go:5080-5096 | the loops end and compute the climbed root; none for no paths |
| ZipLayout.RootIsCommon | bot/telegram_bot.go:5080-5096 | the root is an ancestor of every file's directory |
| ZipLayout.MeetAllIsDeepest | bot/telegram_bot.go:5080-5096 | the longest prefix shared by all directories is their deepest common ancestor |
| ZipLayout.RootIsDeepestIff | bot/telegram_bot.go:5080-5110 | for any number of files: the root is the deepest common ancestor if and only if there are ancestors of the first directory, each within the one before and none above the deepest common one, that are "/" or count as parents of the later directories one by one |
| ZipLayout.RootIsDeepest | bot/telegram_bot.go:5080-5110 | in particular whenever the deepest common ancestor is "/" or counts as a parent of every later directory |
| ZipLayout.RootIsDeepestWithoutDots | bot/telegram_bot.go:5080-5110 | without a component that begins with ".." the root is the deepest common ancestor |
| ZipLayout.DeepestForTwoIff | bot/telegram_bot.go:5098-5110 | for two files the root is the deepest common ancestor if and only if that one is "/" or counts as a parent of the second directory |
| ZipLayout.OrderMatters | bot/telegram_bot.go:5080-5096 | three files whose root depends on their order |
| ZipLayout.NamesCollideIff | bot/telegram_bot.go:5028-5034 | two files below the root get one name exactly when a relative path is misread and both names are the shared base name |
| ZipLayout.NamesDistinct | bot/telegram_bot.go:5014-5034 | without components that begin with "..", distinct files have distinct names |
| ZipLayout.ArchiveNamesDistinct | bot/telegram_bot.go:5028-5034 | the same for the names as slash-separated strings |
| ZipLayout.NamesCanCollide | bot/telegram_bot.go:5028-5034 | two files that share an entry name |
| ZipLayout.CreateZipFromPaths | bot/telegram_bot.go:4995-5068 | one entry per regular file in order; fails exactly when a path is missing or there is no file |
| SongGroups.GroupsAreSongs | bot/utils/search.go:127-141 | the groups are the songs in order of first appearance, each in original order, every item in one |
| SongGroups.StableSortedIsOrdered | bot/utils/search.go:145-149 | within a group the order is by rating rank, then original position |
| SongGroups.ArrangedIsArrangement | bot/utils/search.go:122-154 | the result has every item once, ordered by first appearance of its song, rank and position |
| SongGroups.ArrangementIsUnique | bot/utils/search.go:122-154 | no other arrangement satisfies that order |
| SongGroups.SongsAreContiguous | bot/utils/search.go:122-154 | items with equal non-empty keys stand together |
| SongGroups.BuildGroups | bot/utils/search.go:127-141 | the loop with its index map builds exactly those groups |
| SongGroups.SortSongVariants | bot/utils/search.go:122-154 | the array is rewritten in place to that arrangement of its old contents |

## Left out

- QuotaRecovery: a write still under way at a crash lands before the next boot reads the table, or never.
- QuotaRecovery: charge ids are fresh, and the tables in memory are empty at boot.
- QuotaRows, Catalog: SQL tables are maps; NULL for zero values and the timestamps are not stored.
- Clock: instants are integers and quota-days are day numbers, not the strings that name them.
- ChargePaths.Desk.DispatchDue: the jobs on the list are of kind "playlist" or "artist", the two that are ever created; ReleaseJob says what another kind would do.
- ChargePaths: the limit of a charge is an argument; the tasks that serve a cached collection or a music video are uncharged requests.
- RipSettlement: which tracks arrive is an observation; the delivery after the function is not part of the settlement, as in the code.
- ChargeOwnership: the schedule file is some earlier version of the list with each charge in it once; its JSON format is not modelled.
- LaunchLoops: a panic that unwinds a launch loop between a launch and its wait is left out.
- InUseRegistry: the music-video path of bot/main.go:2571-2573, which deletes without asking the registry, is not among the deleters; the removal of empty directories is not modelled.
- DiskBound: flushes succeed and a track is at most M bytes; the retry pass in `reconcileRelease` has no checkpoint and is not part of the loop.
- RipStates: a cancellation during a delivery is a failed delivery; progress, metadata and failure lists are left out.
- Scheduler: with several goroutines in `Receive` nothing is claimed, since there is one; the serial worker, which runs without `Config.TaskConcurrency`, is left out.
- Scheduler.NeverDrifts: cancelling queued tasks is one step of the scheduler, so a receive that interrupts a rotation is not among its runs; CancelRotation has it, with the condition under which order is kept and the drift branch is not reached.
- Scheduler.StepKeepsOrdered: the same.
- Scheduler.RunKeepsInv: the same.
- Scheduler.QueueOrder: the same.
- TaskQueues.TaskQueue.Rotate: the method's turn is not interrupted by a receive; CancelRotation has the interrupted ones.
- TaskQueues.TaskQueue.CancelQueuedTask: the same.
- Caption.FormatCaption: the upper-cased format and the kHz number are parameters, because Go's library makes them and nothing parses them.
- Caption: lower-casing in `QualityTier` is ASCII, which is enough to recognise the tier names.
- CrawlHistory: rows that `IndexInline` writes for the bot's own uploads are not among the events, and crawls of one dump do not overlap.
- Indexer: page pauses and progress callbacks are only chances to be cancelled; the caption parser is a field of the catalog, set by its constructor.
- CollectionDelivery: the staging before delivery (`prepareCollectionPaths`) and the recovery inside a fallback are one outcome.
- GroupUpload.RegisterItem: the upload of a file, its thumbnail and its registration are one call with one outcome; a registration whose reply is lost counts as not made.
- GroupUpload.PostedOnce: random ids of one album are distinct, as 64-bit random numbers are taken to be.
- ZipLayout: the bytes of the archive are left out.
- SongGroups: Unicode lower-casing is a parameter.
- HTTP clients, message texts, keyboards, status boards, decryption and tagging of tracks, and login are left out; they are effects or user interface.
- The wrapper cap over all rips, quality summaries and track completion flags promise nothing that holds in general.
