# Verified model of CryptoHawk's storage protocols and scanners

CryptoHawk inventories cryptography in an organisation's assets. Its storage layer runs a durable
scan queue with per-workspace capacity, keeps a ledger of what every scan observed, and deletes old
rows underneath both; two of its scanners replace a full scan by a cheaper computation. This
project models those parts in Dafny and proves what they promise.

## The files

Shared vocabulary and POSIX path names: `Common.dfy`, `PosixPaths.dfy`.

**Scan queue and capacity.** `ScanQueue.dfy` is a state machine whose steps are the database
transactions of the queue, the capacity counter, workers and synchronous scans, interleaved in any
order. The capacity slots a client has taken but neither turned into a running job nor given back
are kept as bookkeeping beside the tables. `ScanQueueRuns.dfy` proves the run properties,
`ScanQueueRely.dfy` what one client may rely on while others run, `ScanQueueColumns.dfy` what every
transaction does to every column and what follows for leases, attempts, retries, recoveries and
outcomes on whole runs, `ScanQueueFairness.dfy` the choice a claim makes. `ScanStore.dfy` is the repositories as a class, `ScanClients.dfy` the worker and
the synchronous scan service that call it. A method that spans several transactions calls `Yield`
between them; `Yield` promises only what every run of other clients keeps (`OthersRely`). What a
method promises under its ghost flag `alone` is its sequential contract.

**Observation ledger.** `Ledger.dfy` says what a recorded scan, a remediation check and a retention
sweep do to the tables, as functions on a `Book` of them. `LedgerInvariant.dfy` is what every
reachable ledger satisfies, `LedgerPruning.dfy` what a sweep keeps, `LedgerRuns.dfy` that sweeps
make the ledger forget nothing but scans that are recorded again, and `LedgerSweeps.dfy` when that
shows, with the runs that show it. `LedgerDrift.dfy` proves that drift events account for every
change, `LedgerViews.dfy` that states, occurrences, counters and verification agree.
`LedgerColumns.dfy` says row by row and event by event what a recording leaves, from the findings
it is given, `LedgerKeeps.dfy` which rows a sweep keeps and which it deletes, `LedgerWork.dfy` what
updates and verifications do to work items and how items come to be verified.
`LedgerStore.dfy` is the repositories as a class whose loops are proved against these functions.

**Schedules.** `ScanSchedule.dfy` is the state machine of racing schedulers, with foreign keys
enforced as PostgreSQL does or not, `ScheduleColumns.dfy` what its steps write and that slots keep
their phase, `ScanScheduler.dfy` the scheduler's pass. `ScheduleQueue.dfy`
relates this state machine to the one of the queue, whose job and queue tables it shares, and
`ScheduleRetention.dfy` adds retention sweeps to it.

**Rate limits.** `RateLimiter.dfy` has the limiter sequentially and with its statements interleaved.

**Scanners.** `ImageLayers.dfy` and `ImageScanner.dfy` cover container image layers,
`ImageFiles.dfy` says which files an image shows and which images are accepted in terms of the
members of its layers alone,
`RepositoryDiff.dfy` and `RepositoryScan.dfy` incremental repository scans, `RepositoryLedger.dfy`
these scans on the ledger.

## Where the code does not keep what it seems to promise

Where a promise fails, the project states when it holds and gives a case in which it does not.

- A retry after a requested cancellation leaves a queued job that no claim takes
  (`StrandedExactlyByRetry`, `CancelThenRetryStrands`).
- Reconciling capacity counters while a slot is in some client's hand can over-admit
  (`ReconcileIsExact`, `ReconcileInFlightFromEmpty`); after clients have stopped it restores the
  counters for the others exactly when none of these holds a slot (`ReconcileRestores`).
- Interleaved rate-limit calls can admit any number of calls more than the limit; the bound holds
  under every interleaving exactly for a limit of one (`BoundHoldsOnlyForOne`, `SomeRaceOverAdmits`).
- A copy entry in a diff drops the observations of the copy's source (`IncrementalIsFull`,
  `CopyLosesSource`).
- An incremental collection diffs against the last successful run but retains what the scan
  recorded last found. A scan that was recorded and then failed makes the two differ
  (`CollectionIsFull`, `FailedScanMisleads`).
- A layer that replaces a directory by something else leaves the directory's files visible
  (`LayerIsOciUnlessShownThrough`, `ReplacedDirectoryShowsThrough`).
- A resume at a time can let an occurrence be passed twice, though it finds the same job as long as
  that has not been swept. It can exactly when the slots from that time on come to an occurrence
  already passed; resumes after the last run never do (`RepeatsExactly`, `LaterResumesRepeatNothing`, `ResumeRepeatsAdvance`).
- Deleting a schedule deletes its recorded executions where foreign keys are enforced, and a
  scheduler that is between enqueueing and recording is then refused and abandons its pass
  (`RefusedExactlyWhenDeleted`, `DeleteThenRecordIsRefused`, `RunOnce`).
- A sweep shows in one way to recordings, verifications and updates: a recording that finds an
  earlier one of its own job swept is a new scan instead of a repetition (`SweepsOnlyForget`). For
  one recording the states then differ unless it found nothing in an asset with nothing active, and
  in that case the returned events differ unless the earlier recording had none (`RepeatShows`,
  `RepeatAfterSweepShows`, `SilentRepeatAfterSweep`). It does not happen while unfinished jobs
  record, no sweep reaches back to the scan of one and no swept job is created again
  (`PatientRunsLoseNothing`).
- The id of a scheduled job is computed from its schedule and slot, so that each slot is scanned
  once. After a sweep has deleted the job, a resume back to the slot creates and scans it again: it
  can exactly when the slots from that time on come to a passed occurrence whose job row is gone
  (`ResumeScansAgainExactly`, `CreationsFollowSweeps`, `SweptSlotComesBack`, `RecreatedJobScansAgain`).
- A sweep takes away the chance to open work from a finding exactly when the finding's scan is old
  and unprotected (`OpeningSurvivesSweep`, `OpeningIsLost`).
- The retention guide says that protecting the newest repository run preserves incremental
  collection. The code protects the run collected last, successful or not; a sweep takes the base of
  the next collection exactly when it is old and unprotected or its job is swept
  (`IncrementalBaseSurvives`, `IncrementalBaseIsLost`, `LatestBaseSurvives`).
- A due-only sweep of a workspace with a disabled policy is refused rather than skipped
  (`PruneWorkspaceHistory`).

## Model

| member | source | states |
|---|---|---|
| ScanQueue.StepPreserves | src/cryptohawk/storage/queue.py:99-469 | every transaction of every client keeps: counter = running jobs + slots in hand, counter within the limit, and the lease invariant |
| ScanQueue.SlotIsCounted | src/cryptohawk/storage/quotas.py:150-170 | a slot in a client's hand is counted, so the positive-count guard never blocks its release |
| ScanQueue.ReleaseKeepsExactly | src/cryptohawk/storage/quotas.py:150-170 | giving a slot back keeps the counters right exactly when the caller holds one or the counter is zero |
| ScanQueueRuns.CapacityOnEveryRun | src/cryptohawk/storage/queue.py:151-204 | on every run from the empty database a workspace's counter is its running jobs plus the slots in hand, so running jobs never exceed the limit |
| ScanQueueRuns.LeasesOnEveryRun | src/cryptohawk/storage/queue.py:162-199 | on every run a job runs exactly when it has an owner and an expiry, a queued job has attempts left, and attempts never exceed the maximum |
| ScanQueueRuns.TerminalIsAbsorbing | src/cryptohawk/storage/queue.py:431-464 | a finished job never changes again and holds no lease |
| ScanQueueRuns.OwnerIsLastClaimer | src/cryptohawk/storage/queue.py:162-199 | a lease belongs to the client of the most recent claim that took effect |
| ScanQueueRuns.OnlyLastClaimerEnds | src/cryptohawk/storage/queue.py:274-304 | a running job stops running only by recovery of its expired lease or by the most recent claimer's finish or retry |
| ScanQueueRuns.ClaimsAreBounded | src/cryptohawk/storage/queue.py:165-199 | without new enqueues the claims that succeed on any run are at most the attempts unfinished jobs have left |
| ScanQueueRuns.StrandedExactlyByRetry | src/cryptohawk/storage/queue.py:274-300 | a cancelled job becomes queued again exactly by the retry of a running job whose cancellation was requested |
| ScanQueueRuns.StrandedStays | src/cryptohawk/storage/queue.py:130-139 | such a job stays queued on every run until its cancellation is requested again |
| ScanQueueRuns.CancelThenRetryStrands | src/cryptohawk/storage/queue.py:274-300 | from any claim with an attempt left: claim, cancel, retryable failure strand the job |
| ScanQueueRuns.ReconcileIsExact | src/cryptohawk/storage/quotas.py:190-220 | reconciliation keeps the counters right exactly when no slot is in hand, and then changes only missing or wrong rows |
| ScanQueueRuns.ReconcileInFlightFromEmpty | src/cryptohawk/storage/quotas.py:190-220 | a run from the empty database: two queued jobs, a slot taken, reconciliation before the claim, and two jobs run in a workspace limited to one |
| ScanQueueRuns.StoppedKeepsSlots | src/cryptohawk/storage/quotas.py:113-170 | the slots of a client that has stopped stay counted on every run, so that their capacity is lost |
| ScanQueueRuns.ReconcileRestores | src/cryptohawk/storage/quotas.py:190-220 | on every run, reconciling after clients have stopped restores counters, limit and leases for the others exactly when none of these holds a slot |
| ScanQueueRely.OtherStepRely | src/cryptohawk/storage/queue.py:99-469 | no transaction of another client takes over a client's lease, slots or synchronous job |
| ScanQueueRely.OthersRely | src/cryptohawk/storage/queue.py:99-469 | the same for every run of other clients between two of a client's transactions |
| ScanQueueColumns.StepColumns | src/cryptohawk/storage/queue.py:52-469 | every column of every job and queue row after every transaction, from the row before it |
| ScanQueueColumns.AttemptsAreClaims | src/cryptohawk/storage/queue.py:162-199 | on every run from the empty database a job's attempts are the number of its claims that took effect |
| ScanQueueColumns.LeaseIsLastRenewal | src/cryptohawk/storage/queue.py:207-238 | on every run a lease expires when the last claim or heartbeat of the job that took effect said |
| ScanQueueColumns.LeaseHolds | src/cryptohawk/storage/queue.py:375-411 | after a claim or a heartbeat no run of other clients whose recoveries all come before the expiry ends or requeues the job or changes its attempts, owner or expiry |
| ScanQueueColumns.LeaseEndsAtExpiry | src/cryptohawk/storage/queue.py:375-411 | a recovery from the expiry on does end the lease |
| ScanQueueColumns.BackoffIsWaitedOut | src/cryptohawk/storage/queue.py:257-304 | whatever happens in between, the next claim of a retried job that takes effect comes no earlier than its due time |
| ScanQueueColumns.EndsOnlyByItsOwner | src/cryptohawk/storage/queue.py:240-304 | on every run from the empty database a job becomes succeeded only by the finish of its last claimer or of its synchronous owner, failed or cancelled only by these, a cancellation or a recovery |
| ScanQueueColumns.RecoveryOutcome | src/cryptohawk/storage/queue.py:375-411 | a recovery cancels an expired job exactly if that was requested, fails it with the message exactly if it was not and no attempt is left, and otherwise queues it, due now; every other column and every other job stays |
| ScanQueueFairness.OlderIsTotal | src/cryptohawk/storage/queue.py:118-150 | request time with ties by id orders jobs strictly and totally |
| ScanQueueFairness.ChoiceIsFair | src/cryptohawk/storage/queue.py:118-205 | the first candidate whose workspace has room is its workspace's oldest eligible job, and every workspace with an earlier head is full |
| ScanQueueFairness.ChoiceIsOldest | src/cryptohawk/storage/queue.py:118-205 | the job claimed was waiting and its workspace had room; a waiting job requested earlier is of another workspace, which is full |
| ScanQueueFairness.EmptyClaimMeansAllFull | src/cryptohawk/storage/queue.py:118-205 | with at most 20 workspaces that have eligible jobs, an undisturbed claim is empty exactly when each of them is full |
| ScanQueueFairness.CandidatesOverflow | src/cryptohawk/storage/queue.py:118-150 | an oldest eligible job is left out of the candidates only when more than 20 workspaces have one |
| ScanStore.ScanDatabase.AcquireScanSlot | src/cryptohawk/storage/quotas.py:113-137 | takes a slot exactly when the counter is below the caller's limit; the caller's hand grows with the counter; a limit below one and an unknown workspace are refused |
| ScanStore.ScanDatabase.ReleaseScanSlot | src/cryptohawk/storage/quotas.py:150-170 | counts down while the counter is positive, for any caller; a caller that holds a slot keeps the invariant; an unknown workspace is refused |
| ScanStore.ScanDatabase.ReconcileScanSlots | src/cryptohawk/storage/quotas.py:190-220 | sets every workspace's counter to its running jobs and returns how many rows were missing or wrong |
| ScanStore.ScanDatabase.CreateScanJob | src/cryptohawk/storage/inventory.py:225-267 | creates a job once per id; an id bound to other work is refused, an equal job is returned as stored |
| ScanStore.ScanDatabase.TransitionScanJob | src/cryptohawk/storage/inventory.py:269-310 | for any job and caller: compare-and-set along the transition table within the workspace, with the stored start, finish, count and message, refused in the source's order |
| ScanStore.ScanDatabase.MoveSyncJob | src/cryptohawk/services/scan_jobs.py:100-170 | the owner of a synchronous job starts and ends it, its slot moving into the job and back |
| ScanStore.ScanDatabase.Enqueue | src/cryptohawk/storage/queue.py:52-97 | a job and a queue row with the given retry policy exist afterwards; a differing policy is refused |
| ScanStore.ScanDatabase.SelectCandidates | src/cryptohawk/storage/queue.py:118-150 | the oldest eligible job of each workspace, oldest first, at most 20 |
| ScanStore.ScanDatabase.TryClaim | src/cryptohawk/storage/queue.py:162-199 | both rows change exactly when the job is queued, unleased, due, not cancelled and has attempts left |
| ScanStore.ScanDatabase.ClaimNext | src/cryptohawk/storage/queue.py:99-205 | whatever happens in between, a returned lease is the caller's, expires at now plus the lease time and counts one attempt more, and the slots in its hand are as before; undisturbed, the choice is fair under the caller's limit |
| ScanStore.ScanDatabase.Heartbeat | src/cryptohawk/storage/queue.py:207-238 | renews the caller's own uncancelled lease to exactly now plus the lease time, returned and stored, leaving attempts, owner, due time and flag alone; refuses otherwise |
| ScanStore.ScanDatabase.FinishRows | src/cryptohawk/storage/queue.py:431-464 | both rows change exactly when the caller owns the running job |
| ScanStore.ScanDatabase.Finish | src/cryptohawk/storage/queue.py:418-469 | ends the caller's job, clears its lease and returns its slot; otherwise refuses |
| ScanStore.ScanDatabase.Fail | src/cryptohawk/storage/queue.py:257-318 | requeues while retryable with attempts left, else ends as failed; afterwards the caller holds no lease and no slot of the job |
| ScanStore.ScanDatabase.RequestCancel | src/cryptohawk/storage/queue.py:320-345 | cancels a waiting job at once and marks a running one; unknown jobs are refused |
| ScanStore.ScanDatabase.RecoverRows | src/cryptohawk/storage/queue.py:375-407 | every job whose lease is over is cancelled, failed or queued as its flag and attempts say, all others stay, and both counts are exact |
| ScanStore.ScanDatabase.RecoverExpiredLeases | src/cryptohawk/storage/queue.py:375-411 | the same, each recovered job's slot going back to its workspace, with the counts of queued and of ended jobs |
| ScanClients.ScanWorker.RunOnce | src/cryptohawk/services/worker.py:71-193 | on every exit the worker holds no lease and the slots it started with; undisturbed, a claimed job has ended as the scan's outcome says |
| ScanClients.ScanWorker.Attempt | src/cryptohawk/services/worker.py:98-193 | undisturbed, the attempt ends succeeded with the findings' count, queued again after the backoff while retryable with attempts left, or failed with the message; a job whose cancellation is pending ends cancelled, without findings or message |
| ScanClients.OutcomeExactly | src/cryptohawk/services/worker.py:98-193 | exactly when an ended attempt's job is succeeded, queued or failed, a missing asset and an upload of source code included, with due time, count, finish time and message |
| ScanClients.ScanWorker.HeartbeatOrCancel | src/cryptohawk/services/worker.py:215-230 | renews the lease, or ends a job whose cancellation is pending as cancelled; a job reported as cancelled is no longer leased by the worker, and the slots in its hand are as before |
| ScanClients.ScanJobService.Run | src/cryptohawk/services/scan_jobs.py:73-181 | on every exit the synchronous scan's slot is given back and its job is of the asset and has ended as the scan's outcome says, with its times, count and message; undisturbed there is a job exactly if the workspace has room |
| Ledger.Sorted | src/cryptohawk/storage/continuous.py:458-458 | strictly increasing, with exactly the members of the set |
| LedgerInvariant.PreparedIsMaximal | src/cryptohawk/storage/continuous.py:449-466 | for every finding given, one of its fingerprint with at least its score is prepared |
| LedgerInvariant.PreparedIsGiven | src/cryptohawk/storage/continuous.py:457-466 | a prepared finding is one of those given, under the id of its job and fingerprint, in strictly increasing fingerprint order |
| LedgerInvariant.PrepareTwiceIsOnce | src/cryptohawk/storage/continuous.py:449-466 | preparing prepared findings again for the job changes nothing |
| LedgerColumns.SelectedExactly | src/cryptohawk/storage/continuous.py:449-466 | of the findings with one fingerprint the first with the highest score is kept |
| LedgerColumns.StateColumns | src/cryptohawk/storage/continuous.py:515-676 | every column of every state after a new recording: first and last sighting with their jobs, count, payload and activity, from the findings given and the state before |
| LedgerColumns.FirstSightingIsRecorded | src/cryptohawk/storage/continuous.py:525-548 | on every run an exposure without a state has one at the end exactly if some recorded scan finds it, with the time and the job of the first such scan |
| LedgerColumns.FirstSightingStands | src/cryptohawk/storage/continuous.py:549-576 | no run changes when and by which scan an exposure was first seen |
| LedgerColumns.ScanRows | src/cryptohawk/storage/continuous.py:676-697 | the snapshot a new recording adds, with the number and the set of the fingerprints found; other tables stay |
| LedgerColumns.ScanOccurrences | src/cryptohawk/storage/continuous.py:630-650 | one occurrence for each fingerprint found, with its scope, id, time and finding; other rows stay |
| LedgerColumns.DriftExactly | src/cryptohawk/storage/continuous.py:549-676 | after the baseline, how often each kind of event occurs for each fingerprint: changed iff evidence, severity or quantum status differ, risen or fallen iff the score did, introduced iff it was not active, resolved iff it was active and is not found |
| LedgerColumns.DriftCarries | src/cryptohawk/storage/continuous.py:762-795 | every event carries its scope, job and time and the scores and severities stored before and found now |
| LedgerColumns.DriftInOrder | src/cryptohawk/storage/continuous.py:517-690 | the order of the events: what is found before what is resolved, each by fingerprint, a change of the evidence before that of the score |
| LedgerColumns.SilentExactly | src/cryptohawk/storage/continuous.py:549-676 | after the baseline a recording returns no event exactly if it finds what is active as it is stored |
| LedgerColumns.RescanIsSilent | src/cryptohawk/storage/continuous.py:549-676 | recording an identical scan of the asset under another job returns no event |
| LedgerInvariant.RecordKeepsGood | src/cryptohawk/storage/continuous.py:485-697 | recording a new scan keeps occurrences, snapshots, events and states in agreement |
| LedgerInvariant.ActiveAfterScan | src/cryptohawk/storage/continuous.py:515-672 | after a scan the active states of its asset are exactly its fingerprints, show its findings, and no other asset's active set changes |
| LedgerInvariant.StatesElsewhere | src/cryptohawk/storage/continuous.py:505-512 | states of other assets are untouched |
| LedgerPruning.PruneTrims | src/cryptohawk/storage/retention.py:279-436 | a sweep keeps states, items, unfinished jobs and every asset's latest scan with its job; an occurrence and an event go exactly with their snapshot |
| LedgerPruning.LatestIsProtected | src/cryptohawk/storage/retention.py:288-308 | the snapshot the latest-first query returns is among the protected jobs |
| LedgerPruning.SweptAreStale | src/cryptohawk/storage/retention.py:414-436 | a deleted job is finished, of the swept workspace, unprotected and no item's source |
| LedgerKeeps.ProtectedExactly | src/cryptohawk/storage/retention.py:279-344 | a job is protected exactly if an active state shows it, it made the youngest snapshot or repository run of an asset, or an item that is neither verified nor accepted refers to it |
| LedgerKeeps.WorkKeepsEvidence | src/cryptohawk/storage/retention.py:331-344 | for every item of the swept workspace that is neither verified nor accepted: the job of its source and that of its last verification keep snapshot, occurrences, events, execution, repository run, job and queue row |
| LedgerKeeps.ActiveKeepsScan | src/cryptohawk/storage/retention.py:279-286 | so does the last job of every active state |
| LedgerKeeps.YoungestStay | src/cryptohawk/storage/retention.py:288-329 | so do the jobs of the youngest snapshot and of the youngest repository run of every asset |
| LedgerKeeps.WorkKeepsItsScan | src/cryptohawk/storage/retention.py:331-436 | on every run with sweeps of any workspace: as long as an item is neither verified nor accepted, snapshot, occurrences and events of a scan it refers to stay what they are |
| LedgerKeeps.SweepExactly | src/cryptohawk/storage/retention.py:346-436 | which rows of jobs, queue, snapshots, executions and repository runs a sweep deletes under each job, and that the others stay as they are |
| LedgerKeeps.SweepOccurrences | src/cryptohawk/storage/retention.py:357-380 | an occurrence goes exactly if it is old, in the workspace and not needed, or with its job |
| LedgerKeeps.SweepFindings | src/cryptohawk/storage/retention.py:390-412 | a finding goes exactly if it is old, no item comes from it and all its occurrences go |
| LedgerKeeps.SweepEvents | src/cryptohawk/storage/retention.py:357-380 | an event goes exactly if it is old, in the workspace and not needed, or with its job |
| LedgerPruning.PruneKeepsGood | src/cryptohawk/storage/retention.py:279-436 | a sweep keeps the ledger's views in agreement |
| LedgerRuns.PruningIsInvisible | src/cryptohawk/storage/retention.py:279-436 | in every run with sweeps of any workspace at any cutoff, as long as no recording finds an earlier one of its own job swept and no swept job is created again, every recording, verification and update returns what it returns without the sweeps, and states and items end up the same |
| LedgerRuns.SweepsOnlyForget | src/cryptohawk/storage/retention.py:279-436 | in every run with any sweeps and no condition: all outputs, states and items are those of the run without sweeps in which a repeated recording that finds the first one swept counts as a new one, and so does a job created again under the id of a swept one |
| LedgerSweeps.RepeatShows | src/cryptohawk/storage/continuous.py:486-493 | a recording leaves other states than on the unswept ledger exactly when its earlier one was swept and it found something or something was active; it leaves the same states and returns the same events exactly otherwise, unless the swept recording had returned events |
| LedgerSweeps.SilentRepeatAfterSweep | src/cryptohawk/storage/continuous.py:486-493 | a run from the empty ledger in which a repeated recording after a sweep leaves the same states but no longer returns its events |
| LedgerSweeps.PatientRunsLoseNothing | src/cryptohawk/storage/retention.py:279-436 | where unfinished jobs record, no sweep reaches back to the scan of one and no swept job is created again, no recording finds an earlier one swept |
| LedgerSweeps.RepeatAfterSweepShows | src/cryptohawk/storage/retention.py:375-380 | a run from the empty ledger in which a sweep makes a repeated recording activate a finding again |
| LedgerSweeps.RecreatedJobScansAgain | src/cryptohawk/storage/retention.py:416-436 | a run from the empty ledger in which a finished job is swept, created again under its id and activates its finding again |
| LedgerRuns.GoodOnEveryRun | src/cryptohawk/storage/continuous.py:485-695 | the agreement of the views holds in every reachable ledger, with sweeps at any time, repeated recordings and recordings after a job has ended |
| LedgerRuns.SameVerdict | src/cryptohawk/storage/remediation.py:354-415 | a verification's verdict with its evidence, or its error, is the same on the swept and on the full ledger |
| LedgerRuns.SameRecording | src/cryptohawk/storage/continuous.py:486-672 | a recording returns the same events on the swept and on the full ledger while both or neither have an earlier one |
| LedgerRuns.UpdateKeepsItemOk | src/cryptohawk/storage/remediation.py:278-331 | an update keeps verified = verification time set, accepted risk = reason of at least five characters set, and the evidence that of the verification |
| LedgerRuns.VerifyKeepsItemOk | src/cryptohawk/storage/remediation.py:399-424 | so does a verification; a verified item has evidence without a trace of the exposure |
| LedgerWork.UpdateExactly | src/cryptohawk/storage/remediation.py:246-331 | exactly which updates are refused, with which error, and every field of the item after an accepted one |
| LedgerWork.VerifyExactly | src/cryptohawk/storage/remediation.py:333-432 | exactly when a verification passes, its errors, every field of the evidence and of the item afterwards |
| LedgerWork.StatusMoves | src/cryptohawk/storage/remediation.py:67-92 | an item's status moves only along the listed transitions by an update, or from waiting by a verification |
| LedgerWork.VerifiedWasCheckedOff | src/cryptohawk/storage/remediation.py:392-424 | on every run an item that ends up verified was waiting when the asset's latest succeeded scan, younger than its source, had no occurrence of its exposure, and bears the time of that verification |
| LedgerDrift.ReplayScan | src/cryptohawk/storage/continuous.py:515-672 | a scan's introduced and resolved events turn the active set before it into the one after it |
| LedgerDrift.DriftReplays | src/cryptohawk/storage/continuous.py:503-675 | replaying the events of any run from the active set at its start gives the active set at its end |
| LedgerDrift.DriftReplaysWithSweeps | src/cryptohawk/storage/continuous.py:503-675 | the same for the events actually emitted in every run with sweeps, repeated recordings after a sweep included |
| LedgerDrift.FirstScanIsBaseline | src/cryptohawk/storage/continuous.py:495-503 | the first scan of an asset emits nothing and activates exactly its own fingerprints |
| LedgerDrift.RiskTelescopes | src/cryptohawk/storage/continuous.py:591-624 | while an exposure stays active, the announced increases and decreases add up to the change of its stored score |
| LedgerDrift.RiskTelescopesWithSweeps | src/cryptohawk/storage/continuous.py:591-624 | the same for every run with sweeps |
| LedgerViews.ActiveMeansObserved | src/cryptohawk/storage/continuous.py:515-672 | a fingerprint is active exactly when the latest scan has an occurrence of it, and the state shows that scan, finding and time |
| LedgerViews.VerificationIsSound | src/cryptohawk/storage/remediation.py:392-424 | a verification that passes its guards marks the item verified exactly when the exposure is inactive, and otherwise notes score, severity and evidence of the active state |
| LedgerViews.VerificationGuards | src/cryptohawk/storage/remediation.py:349-390 | the guards pass exactly for a waiting item and a succeeded scan that is the asset's latest and not the item's source |
| LedgerViews.RecordTwiceIsOnce | src/cryptohawk/storage/continuous.py:486-493 | recording again for a recorded job changes nothing and returns the same events, whatever is passed |
| LedgerViews.CountsOnEveryRun | src/cryptohawk/storage/continuous.py:620-650 | on every run an occurrence count is the number of recorded scans that saw the exposure, never below the rows held, and equal to the rows held without sweeps while no recording finds an earlier one swept |
| LedgerViews.OpeningSurvivesSweep | src/cryptohawk/storage/remediation.py:141-166 | a sweep prevents opening work from a finding exactly when it deletes the finding's scan as old and unprotected |
| LedgerSweeps.OpeningIsLost | src/cryptohawk/storage/retention.py:387-412 | a run from the empty ledger after which work could be opened from a finding, and after a sweep no longer |
| LedgerViews.ActiveKeepsEvidence | src/cryptohawk/storage/retention.py:279-308 | every active state keeps its occurrence, its finding and the chance to open work from it |
| LedgerViews.IncrementalBaseSurvives | src/cryptohawk/storage/repositories.py:237-255 | a sweep takes away the run the next incremental collection starts from exactly when the run is old, in the swept workspace and unprotected, or its job is swept |
| LedgerViews.LatestBaseSurvives | src/cryptohawk/storage/retention.py:288-325 | in particular it survives while it made the asset's latest snapshot |
| LedgerSweeps.IncrementalBaseIsLost | src/cryptohawk/storage/retention.py:309-328 | a run from the empty ledger: a collection succeeds, a later one records but fails, and a sweep leaves no successful run |
| LedgerViews.OtherWorkspacesUntouched | src/cryptohawk/storage/retention.py:357-436 | a sweep leaves every row of every other workspace as it is: jobs, queue rows, snapshots, occurrences, events, executions, repository runs, findings, states and items, cascades included |
| LedgerViews.OtherWorkspacesOnEveryRun | src/cryptohawk/storage/retention.py:357-436 | the same in every ledger a run reaches |
| LedgerStore.LedgerDatabase.PrepareFindings | src/cryptohawk/storage/continuous.py:449-466 | the two loops compute the prepared findings |
| LedgerStore.LedgerDatabase.ObserveOne | src/cryptohawk/storage/continuous.py:515-629 | one observed finding updates its state row and yields its drift events |
| LedgerStore.LedgerDatabase.ResolveGone | src/cryptohawk/storage/continuous.py:652-672 | what is gone becomes inactive under the scan, in order, with one resolved event each after the baseline |
| LedgerStore.LedgerDatabase.RecordSuccessfulScan | src/cryptohawk/storage/continuous.py:468-697 | all tables and the events returned are those of a recorded scan |
| LedgerStore.LedgerDatabase.Verify | src/cryptohawk/storage/remediation.py:333-432 | the verdict, the evidence and the item row after a verification, in the order of its guards |
| LedgerStore.LedgerDatabase.UpdateItem | src/cryptohawk/storage/remediation.py:246-331 | the row after an update of status, reason, owner, priority, algorithm, due date and notes; a refused update changes nothing |
| LedgerStore.LedgerDatabase.CollectProtected | src/cryptohawk/storage/retention.py:279-344 | the protected jobs, grown from states, newest snapshots, newest repository runs and unfinished items |
| LedgerStore.LedgerDatabase.PruneWorkspaceHistory | src/cryptohawk/storage/retention.py:250-453 | the policy guards in order, a row locked by another sweep included, and the ledger, the audit rows, the policy and the reported counts after a sweep |
| LedgerStore.RowsDeletedAreLost | src/cryptohawk/storage/retention.py:346-436 | the reported counts are the rows lost, in every table when nothing cascades and always for findings, queue rows and jobs |
| ScanSchedule.CatchUpIsLeast | src/cryptohawk/storage/continuous.py:347-351 | the next run is the least slot of the schedule's phase, at least one interval on, that lies after now |
| ScheduleColumns.StepSchedules | src/cryptohawk/storage/continuous.py:201-371 | every column of every schedule after every transaction |
| ScheduleColumns.StepWork | src/cryptohawk/storage/continuous.py:373-415 | the job, queue row and execution of every occurrence after every transaction: for the workspace, asset, kind and attempts of its schedule, under its id |
| ScheduleColumns.PhaseIsKept | src/cryptohawk/storage/continuous.py:340-371 | on every run without a timed resume a schedule stays in the phase it was started in, and its last run lies before its next one |
| ScheduleColumns.PausedStands | src/cryptohawk/storage/continuous.py:275-338 | until it is resumed, on every run, a paused schedule is not read as due and its row stays as it is or is deleted |
| ScheduleColumns.NothingBeforeItsTime | src/cryptohawk/storage/continuous.py:319-338 | on every run a scheduled job was created after a scheduler had read its occurrence, at or after its time, as the next run of its enabled schedule |
| ScanSchedule.FindNextRun | src/cryptohawk/storage/continuous.py:349-351 | the loop terminates with the closed form by division |
| ScanSchedule.StepKeeps | src/cryptohawk/storage/continuous.py:275-415 | every step of any scheduler, pause, resume or deletion, with or without the deletion's cascade, keeps the schedule invariant |
| ScanSchedule.RefusedExactlyWhenDeleted | src/cryptohawk/storage/continuous.py:383-415 | recording an execution is refused exactly when foreign keys are enforced, the schedule has been deleted and nothing is recorded; pause, resume and delete exactly for an unknown schedule; creating and queueing an occurrence never |
| ScanSchedule.DeleteThenRecordIsRefused | src/cryptohawk/storage/continuous.py:306-317 | a run from the empty database in which a schedule is deleted between a scheduler's enqueue and its recording, which is then refused |
| ScanSchedule.NextRunPassesOnlyRecorded | src/cryptohawk/services/scheduler.py:137-158 | the next run changes only by a resume or past an occurrence that is enqueued and recorded, to a time after it and after now |
| ScanSchedule.ExactlyOnce | src/cryptohawk/services/scheduler.py:137-158 | on every run an occurrence is passed at most once unless a resume has taken its schedule back to a slot before a passed occurrence, and only with its one job enqueued and recorded; the execution is there exactly until a cascade takes it with its schedule |
| ScanSchedule.RepeatsExactly | src/cryptohawk/storage/continuous.py:275-304 | a resume at a time can make a schedule pass an occurrence again exactly when the slots from that time on come to one it has passed |
| ScanSchedule.LaterResumesRepeatNothing | src/cryptohawk/api/continuous.py:119-131 | on every run from the empty database whose timed resumes of a schedule land after its last run, each of its occurrences is passed at most once |
| ScanSchedule.ResumeRepeatsAdvance | src/cryptohawk/storage/continuous.py:275-304 | a second pass after a resume back to the occurrence leaves jobs, rows and executions unchanged |
| ScanSchedule.AgainChangesNothing | src/cryptohawk/storage/continuous.py:383-393 | for a recorded occurrence creating, queueing and recording again change nothing |
| ScanScheduler.OthersGrow | src/cryptohawk/services/scheduler.py:137-158 | no run of other schedulers, pauses, resumes and deletions undoes what was done for an occurrence; an execution goes only with its schedule, and a deleted schedule stays deleted |
| ScanScheduler.ScheduleDatabase.ListDueSchedules | src/cryptohawk/storage/continuous.py:319-338 | the earliest due schedules in order; one is left out only when the batch is full of earlier ones; refused exactly for a limit outside 1 to 1000 |
| ScanScheduler.BatchIsEarliest | src/cryptohawk/storage/continuous.py:319-338 | a batch holds enabled schedules whose time has come, by next run and then by id; one is left out only when the batch is full and it comes after all of it |
| ScanScheduler.ServedExactly | src/cryptohawk/services/scheduler.py:99-158 | what an undisturbed pass leaves of a due schedule: the next slot after now with job, queue row and execution of the occurrence, or a pause if its asset cannot be scanned |
| ScanScheduler.ScheduleDatabase.RecordScheduledExecution | src/cryptohawk/storage/continuous.py:373-415 | binds the occurrence to its job once; raises exactly when foreign keys are enforced and the schedule is gone |
| ScanScheduler.ScheduleDatabase.AdvanceSchedule | src/cryptohawk/storage/continuous.py:340-371 | compare-and-set of the next run |
| ScanScheduler.ScheduleDatabase.SetScheduleEnabled | src/cryptohawk/storage/continuous.py:275-304 | pause, resume and resume at a time, then a second read; refused for an unknown schedule and for one deleted in between |
| ScanScheduler.ScheduleDatabase.DeleteSchedule | src/cryptohawk/storage/continuous.py:306-317 | removes the schedule and, under enforced foreign keys, its executions; refused for an unknown one |
| ScanScheduler.ScanScheduler.RunOnce | src/cryptohawk/services/scheduler.py:81-162 | undisturbed, every due schedule of the batch is paused or enqueued, recorded and caught up, all others are left alone, and the count is exact; disturbed, the pass records them all or stops at a schedule that was deleted meanwhile, with those before it recorded |
| ScheduleQueue.StepMatches | src/cryptohawk/storage/queue.py:65-97 | every transaction of the queue is a step of the schedules' machine or leaves its view of jobs and queue rows alone |
| ScheduleQueue.EnqueueAgrees | src/cryptohawk/storage/queue.py:52-97 | queueing a scheduled occurrence leaves the same tables in the queue's machine and in the schedules' |
| ScheduleQueue.JointStepKeeps | src/cryptohawk/services/scheduler.py:137-158 | transactions of workers, synchronous scans and schedulers on the shared tables keep both invariants |
| ScheduleQueue.ScheduledJobsOnEveryRun | src/cryptohawk/services/scheduler.py:137-158 | on every joint run from the empty database a scheduled job stays bound to the work and retry policy of its schedule, and a recorded occurrence has job and queue row |
| ScheduleRetention.SchedulesIgnoreSweeps | src/cryptohawk/storage/retention.py:360-436 | on every run with sweeps of any jobs and executions every call of the schedules' machine is answered as without the sweeps, and schedules and the occurrences read, recorded and passed end up the same |
| ScheduleRetention.ExactlyOnceWithSweeps | src/cryptohawk/services/scheduler.py:137-158 | also with sweeps an occurrence is passed at most once unless a resume has taken its schedule back, and only after its execution was recorded |
| ScheduleRetention.CreationsFollowSweeps | src/cryptohawk/storage/inventory.py:225-267 | on every run the creations of an occurrence's job are the sweeps that deleted it, plus one if it is there at the end: it is created again exactly after a sweep |
| ScheduleRetention.ResumeScansAgainExactly | src/cryptohawk/storage/continuous.py:275-304 | a resume at a time can make a schedule pass an occurrence again and create its job anew exactly when the slots from that time on come to one it has passed and whose job row is gone |
| ScheduleRetention.SweptSlotComesBack | src/cryptohawk/storage/continuous.py:754-759 | a run from the empty database after which a resume back to the served slot comes to a swept job |
| RateLimiter.RateLimitRepository.IncrementOrCreate | src/cryptohawk/storage/quotas.py:222-292 | undisturbed, counts the call below the limit; in any case the stored count stays within the limit |
| RateLimiter.RateLimitRepository.Consume | src/cryptohawk/storage/quotas.py:61-100 | argument errors, and the decision with its remaining count, reset time and least sufficient waiting time in seconds |
| RateLimiter.StoredIsCapped | src/cryptohawk/storage/quotas.py:232-292 | the stored count of a window is the number of its calls capped at the limit |
| RateLimiter.FirstCallsAreAllowed | src/cryptohawk/storage/quotas.py:79-100 | exactly the first calls of a window up to the limit are allowed |
| RateLimiter.AtMostTwiceTheLimit | src/cryptohawk/storage/quotas.py:79-100 | any half-open interval one window long allows at most twice the limit |
| RateLimiter.StatementKeeps | src/cryptohawk/storage/quotas.py:231-292 | every interleaved statement keeps: stored count within the limit, admitted calls = counted calls + leaked calls |
| RateLimiter.StoredStaysCapped | src/cryptohawk/storage/quotas.py:231-292 | under every interleaving the stored count stays within the limit and admitted calls exceed it by exactly the leaked ones |
| RateLimiter.SomeRaceOverAdmits | src/cryptohawk/storage/quotas.py:249-258 | for every limit above one and every number, some interleaving admits that many calls too many |
| RateLimiter.BoundHoldsOnlyForOne | src/cryptohawk/storage/quotas.py:249-258 | the bound on admitted calls holds under every interleaving exactly when the limit is one |
| Common.StripExactly | src/cryptohawk/scanners/container_image.py:613-614 | stripping takes white space off both ends and nothing else |
| PosixPaths.SplitOfJoin | src/cryptohawk/scanners/repository.py:364-366 | fields without separator are recovered from their joined text |
| PosixPaths.PartsOfPosix | src/cryptohawk/scanners/repository.py:394-399 | names in normal form and component lists are the same thing |
| PosixPaths.PartsExactly | src/cryptohawk/scanners/repository.py:394-399 | the components of a name are those of its halves at any slash; empty pieces and dots have none |
| PosixPaths.BelowMeansPrefix | src/cryptohawk/scanners/container_image.py:605-610 | a text prefix ending in a slash means a proper prefix of components |
| ImageLayers.SafePathExactly | src/cryptohawk/scanners/container_image.py:612-623 | a member name is refused exactly when it leads nowhere, is absolute, has a parent component or a NUL; otherwise its normal form has the same components |
| ImageFiles.CleanedExactly | src/cryptohawk/scanners/container_image.py:612-616 | a member name is stripped, its backslashes become slashes, and every leading dot-slash goes |
| ImageFiles.MarkerCovers | src/cryptohawk/scanners/container_image.py:427-446 | what any marker hides, by the components of its name |
| ImageLayers.OpaqueHidesBelow | src/cryptohawk/scanners/container_image.py:429-444 | an opaque marker hides exactly what lies below its directory |
| ImageLayers.WhiteoutHidesSubtree | src/cryptohawk/scanners/container_image.py:431-446 | a whiteout hides exactly the path it names and what lies below it |
| ImageLayers.FoldIsLookup | src/cryptohawk/scanners/container_image.py:142-151 | the bottom-up fold shows at every path what a search from the top layer finds: the last member of the first layer that has or hides it |
| ImageFiles.ImageExactly | src/cryptohawk/scanners/container_image.py:137-151 | an image shows a file exactly where some member brings it - the last of its layer with that path, regular, supported, of admissible size - and no layer above has the path or covers it by a marker |
| ImageLayers.OwnFilesStay | src/cryptohawk/scanners/container_image.py:439-473 | whiteouts do not touch files of their own layer |
| ImageLayers.LayerIsOciUnlessShownThrough | src/cryptohawk/scanners/container_image.py:454-457 | a layer is applied as OCI images mean it exactly when no lower file lies under a non-directory of the layer unhidden |
| ImageLayers.LookupIsOciUnlessLeaks | src/cryptohawk/scanners/container_image.py:454-457 | the same for a path of a whole image |
| ImageLayers.ReplacedDirectoryShowsThrough | src/cryptohawk/scanners/container_image.py:454-457 | a concrete two-layer image in which a replaced directory's file stays visible |
| ImageLayers.BytesWithinCharges | src/cryptohawk/scanners/container_image.py:448-474 | surviving files hold no more bytes than were charged, across overwrites and whiteouts |
| ImageLayers.BudgetHolds | src/cryptohawk/scanners/container_image.py:439-474 | after every layer of an accepted image the surviving bytes are within the charged bytes, these within the scan limit, and every file within the file limit |
| ImageFiles.AcceptedExactly | src/cryptohawk/scanners/container_image.py:407-474 | an image is accepted exactly if every layer has good names, declares at most its limit and extracts to no more than the file limit, and the members and the charged sizes of all layers together are within theirs |
| ImageScanner.ContainerImageScanner.ReadMarkers | src/cryptohawk/scanners/container_image.py:415-437 | succeeds exactly within the entry and layer limits with safe names and no empty marker, and collects the markers |
| ImageScanner.ContainerImageScanner.RemovePath | src/cryptohawk/scanners/container_image.py:605-610 | removes the path and everything below it from the dictionary |
| ImageScanner.ContainerImageScanner.AddMembers | src/cryptohawk/scanners/container_image.py:448-474 | adds the layer's members in order, succeeds exactly within the scan and file limits |
| ImageScanner.ContainerImageScanner.ApplyLayer | src/cryptohawk/scanners/container_image.py:407-474 | succeeds exactly for an accepted layer and leaves the dictionary and both budgets as the layer semantics says |
| ImageScanner.ContainerImageScanner.ScanLayers | src/cryptohawk/scanners/container_image.py:137-151 | succeeds exactly for an accepted image and yields its folded files |
| RepositoryDiff.ChangedPaths | src/cryptohawk/scanners/repository.py:359-392 | the loop over fields computes the touched and current paths or the refusal |
| RepositoryDiff.SafeRelativeExactly | src/cryptohawk/scanners/repository.py:394-399 | a path is accepted exactly if it is relative, has a component and no parent component; its components stay, and a path in normal form stays itself |
| RepositoryDiff.ParserAcceptsPrints | src/cryptohawk/scanners/repository.py:364-392 | accepted field lists are exactly the prints of well-formed entries with safe paths, empty fields aside, with the union of their touched and current paths |
| RepositoryDiff.TruncatedIsRefused | src/cryptohawk/scanners/repository.py:376-386 | a list cut inside its last entry is refused |
| RepositoryDiff.OutputRoundTrip | src/cryptohawk/scanners/repository.py:359-392 | printing entries as NUL-terminated text and parsing it gives the union of touched and of current paths |
| RepositoryDiff.OutputNamesPaths | src/cryptohawk/scanners/repository.py:359-392 | printing entries with paths in normal form and parsing gives as touched the paths they name and as current the paths they present |
| RepositoryDiff.AcceptedOutputs | src/cryptohawk/scanners/repository.py:359-392 | an output text is accepted exactly when it holds, NUL-separated, the fields of well-formed entries with safe paths, and yields the union of their touched and current paths |
| RepositoryScan.IncrementalIsFull | src/cryptohawk/scanners/repository.py:148-161 | retained plus rescanned equals a full scan exactly when every touched path that is not current scans to nothing |
| RepositoryScan.IncrementalOnAnotherScan | src/cryptohawk/scanners/repository.py:142-161 | when the active set stems from another scan than the diff's base, the same exactly if moreover both scans look alike outside the touched paths |
| RepositoryScan.NoCopiesMeansFull | src/cryptohawk/scanners/repository.py:148-161 | it does for every diff without copies |
| RepositoryScan.GitTextMeansFull | src/cryptohawk/scanners/repository.py:142-166 | from the text of a diff without copies the incremental scan finds exactly what the supported, readable files within the size limit are scanned to |
| RepositoryScan.FullScanExactly | src/cryptohawk/scanners/repository.py:270-327 | a full scan finds exactly what these files are scanned to |
| RepositoryScan.DiffTextMeansFull | src/cryptohawk/scanners/repository.py:148-161 | the same from the text of the diff |
| RepositoryScan.CopyLosesSource | src/cryptohawk/scanners/repository.py:376-383 | for every copy of a file with observations it does not |
| RepositoryScan.HistoryIsFull | src/cryptohawk/scanners/repository.py:142-166 | after any number of incremental scans, each on the active set of the one before, the result still equals a full scan of the last tree |
| RepositoryLedger.CollectionIsFull | src/cryptohawk/scanners/repository.py:100-161 | on the ledger: an incremental collection equals a full one exactly under these conditions for the trees of the last successful run and of the scan recorded last, which hold whenever these are one job |
| RepositoryLedger.FailedScanMisleads | src/cryptohawk/storage/repositories.py:237-255 | a run from the empty ledger in which a scan that was recorded but failed makes the next incremental collection differ from a full one |
| RepositoryScan.ScanPaths | src/cryptohawk/scanners/repository.py:287-327 | succeeds exactly within the file and byte limits, finds what its paths contribute and counts the files it read |
| RepositoryScan.ScanCheckout | src/cryptohawk/scanners/repository.py:270-285 | succeeds exactly within the limits, equals a full scan and counts the files it read |
| RepositoryScan.Scan | src/cryptohawk/scanners/repository.py:142-166 | incremental with a diff, full without, with the exact conditions of success |

## Left out

- LedgerRuns.SweepsOnlyForget: work items are taken as opened successfully; whether opening them succeeds after a sweep is the subject of `LedgerViews.OpeningSurvivesSweep`.
- LedgerRuns.SweepsOnlyForget: item ids are never used twice, a job created again has the scope it had, and a scan is recorded later than every other scan of its asset.
- LedgerStore.LedgerDatabase.UpdateItem: a status text outside the enumeration, refused like any other bad value, is not modelled.
- LedgerStore.LedgerDatabase.PruneWorkspaceHistory: whether another sweep holds the policy row is a parameter; the wait of a sweep that does not skip it is not modelled.
- LedgerStore.LedgerDatabase.Verify: the evidence is stored as a value, not as JSON text.
- ScanStore.ScanDatabase.ClaimNext: worker ids are opaque, so the refusal of a blank one is not modelled; nor is the queue without a quota repository.
- ScanStore.ScanDatabase.MoveSyncJob: cancelling a queued synchronous job has no caller in the code; `TransitionScanJob` covers it as a transaction.
- ScanClients.ScanWorker.RunOnce: the scan itself, saving findings and recording them are one given outcome; the ledger is modelled separately.
- ScanScheduler.ScanScheduler.RunOnce: the retention sweeps at the start of a pass, and sweeps between its transactions, are not modelled.
- ScanSchedule.ExactlyOnce: the state machine of schedules has no sweeps; `ScheduleRetention` adds them.
- ScheduleRetention.SchedulesIgnoreSweeps: the next call of a scheduler whose job row is swept between its own calls is not modelled, nor is the reuse of a random job id.
- RateLimiter.RateLimitRepository.Consume: times before 1970 and the pruning of old buckets are not modelled.
- RepositoryScan.ScanPaths: files are visited in any order instead of sorted order; observations form a set, so only their order is lost.
- RepositoryScan.IncrementalIsFull: a source scanner is any function of path and text whose observations carry the path.
- Creation, update and purge of workspaces and assets, HTTP routes, the command line, authentication, reports and configuration.
- Database failures in the middle of a transaction, and isolation below one statement or one session block.
- Git, tar, compression and the parsing of image manifests: diff output, layer entries and file contents are inputs.
- Hashes are read as injective: job ids, fingerprints, evidence hashes and finding ids are constructors or carried values.
- The origin and schedule columns of a snapshot, which depend on an execution row that retention may have deleted, and scanner and policy versions.
- The listing calls of the repositories and the due-retention loop over workspaces, which would only add easy members.
