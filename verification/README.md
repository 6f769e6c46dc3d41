# Peerphonic: verified models

Peerphonic's backend is a cache manager over two concurrent download engines. This project models the code that counts
slots, references and bytes while goroutines interleave, and the code that rewrites stored identities and files, and
proves what that code keeps over whole runs.

Concurrent parts are step machines. A state holds the shared tables and, for every goroutine, a program counter; one
action is one critical section, one channel or gate operation, one record write, or one answer from outside. Theorems
quantify over every list of actions, so over every interleaving; nothing is claimed about liveness or deadlock.
Conservation laws have one form throughout: a shared counter equals the number of goroutines that own a unit of it
(`Counting.dfy`). Beside each machine stand classes with the source's fields for its locked sections, and for the tee
reader of the transcode cache; their methods are proved to do what the machine's steps do. Sequential parts are classes and loops proved against specification functions, about which the
promised properties are then proved.

| files | what they model |
|---|---|
| `TorrentTables`, `TorrentMachine`, `TorrentSafety`, `TorrentTheorems`, `TorrentProvider`, `Eviction` | the torrent download scheduler, its reference counts, removal and eviction |
| `SoulseekJobs`, `SoulseekMachine`, `SoulseekInvariant`, `SoulseekConservation`, `SoulseekSafety`, `SoulseekSteps`, `SoulseekOtherSteps`, `SoulseekRuns`, `SoulseekRestart`, `SoulseekAbsorption`, `SoulseekReopening`, `SoulseekAuthorship`, `SoulseekLateAnswer`, `SoulseekTheorems`, `SoulseekDownloads` | the Soulseek coordinator: the gate, the life of a job, retries, cancellation, readers and eviction, crash and restart, finished jobs that are reopened, whose record a record file holds |
| `PeerGate` | one operation per Soulseek peer |
| `GrowingFile`, `BoundedReader` | reading a file that is still being downloaded, and one file of a torrent |
| `TranscodeMachine`, `TranscodeSafety`, `TranscodeObjects`, `MediaCache`, `MediaCacheOverlap`, `CacheStatus` | the transcode cache, the media cache, combined pruning |
| `TrackTables`, `PreferredTrack`, `TrackMigration`, `TrackAnnotations`, `Annotations`, `IdentityMigration` | the two catalog migrations |
| `Restore`, `AuthLimiter`, `BindQuery` | committing a restore, the login limiter, placeholder rewriting |
| `Common`, `Counting` | shared data types; counting owners |

Six properties one might expect are false of the code. Each has a reachable or concrete input that shows it and the
exact condition under which the property holds.

- **A finished Soulseek job does not look finished for good.** `finished`, the error and the closed channel stay
  (`FinishedForGood`), but an enqueue call that is out when the job is cancelled writes the row's state when its answer
  comes. `LateEnqueueRewritesTheState` is a run from the first process that ends so, `StaysClosedExactly` says which
  steps reopen a row, and a reopened row offers no retry (`ReopenedRowIsNotRetriable`). If the process dies after the
  next record write, the cancelled download comes back to life (`LateAnswerRevivesTheDownload`,
  `CrashRevivesExactly`). A key stays settled, across crashes, exactly as long as no such answer arrives and nobody
  starts it anew (`SettledForGoodExactly`).
- **The record on disk need not be that of the listed job.** All jobs of a key write one file. A job that was cancelled
  and replaced still writes its record when its answer comes, over that of the live job
  (`LateAnswerDisplacesTheNewRecord`), and a crash then restores the cancelled one
  (`CrashReturnsToTheCancelledDownload`, `CrashRestoresTheLastWritten`). The record of a key is the listed job's exactly
  if that job wrote it last (`BelongsExactly`); it stays so, across crashes, exactly as long as no other job of the key
  writes late and no new one is started (`BelongsThroughoutExactly`), and only finished jobs do the former
  (`DisplacingJobIsFinished`).
- **Two transcoder runs for one key can be live together.** `TwoLiveRunsAfterACacheFailure` is such a run; exactly a
  caller that arrives while a run is live whose flight is gone starts the second one, and that run has lost its flight
  because storing failed (`SecondRunStartsExactlyWhen`, `OneRunThroughoutExactly`).
- **The media cache's metadata can disagree with its blobs.** `Put` writes the blob before it takes the lock. Two puts of
  one key recorded in the other order leave one's size over the other's blob (`ReversedPutsDisagree`), which nothing but
  another put corrects (`WrongSizeStays`); a key removed meanwhile gets an entry without a blob, which the next opening
  drops (`RemovedMeanwhileIsDropped`). Under every interleaving a key's metadata is right exactly as long as no such step
  comes (`FaithfulThroughoutExactly`), the size limit holds regardless (`LimitHoldsThroughout`), and callers that put a
  key only while it has no entry, one at a time, and do not remove it meanwhile never see a disagreement
  (`OrderlyRunsAgree`).
- **The track migration can lose a track, and an old link can change its target.** With every group order allowed, the
  logical tracks are kept exactly when no logical id is a member of another group
  (`EveryOrderKeepsTheLogicalTracksExactlyWhenIdempotent`), and an old link still leads to its track exactly unless a
  new logical id takes over the name of an alias for something else (`ResolveIsPreserved`). `ARenamedRowLosesATrack`
  and `AnAliasIsTakenOver` are catalogs for which the conditions fail. Stored ids come to be like the first one because
  a row keeps its id when its names are edited (`backend/internal/adapters/storage/sqlite/catalog.go:472-483`): a row
  stored under the hash of one set of names then hashes to another. For the second, the alias table takes any name
  (`backend/internal/adapters/storage/sqlite/source_writer.go:35-46`); the callers in this repository store no alias
  under the hash of a track's names, so it takes an alias saved by others.
- **A failed restore can leave traces.** When a hard link was made and its staged name could not be removed, the
  destination keeps its new content, and a staged file stays if its deferred removal fails. What a failed restore
  leaves, and whether it fails, is told from its inputs (`CommitTargets`, `FailureLeavesNoTraceExactly`); `AStuckLink`
  is a plan with such a trace.

A smaller one: a crash between taking a slot and getting a batch id turns a job that was about to be enqueued into a
failed one (`CrashBeforeTheBatchFailsTheJob`).

## Model

| member | source | states |
|---|---|---|
| TorrentTheorems.CountersCountOwners | backend/internal/adapters/providers/torrent/provider.go:907-949 | after any interleaving the reference counter of a torrent is the number of streams, waiters, monitors and completion handlers that hold it, the stream counter the number of open streams, and the slots in use the number of their owners, never more than the limit |
| TorrentTheorems.LimitNeverChanges | backend/internal/adapters/providers/torrent/downloads.go:155-174 | no run changes the slot limit |
| TorrentTheorems.OneWorkerPerDownload | backend/internal/adapters/providers/torrent/downloads.go:155-264 | a download id never has two waiters, two monitors, or one of each |
| TorrentTheorems.RemovalRefusedExactlyWhenHeld | backend/internal/adapters/providers/torrent/provider.go:414-450 | removing a source is refused as busy exactly when some goroutine holds the torrent |
| TorrentTheorems.RemovalFindsNoHold | backend/internal/adapters/providers/torrent/provider.go:414-450 | whatever happened since the check, a removal that deletes finds no hold on the torrent, and no row it deletes has a waiter or monitor |
| TorrentTheorems.EvictionFindsNoHoldAndNoPin | backend/internal/adapters/providers/torrent/provider.go:455-501 | a file is evicted only while its torrent has no hold and no pin |
| TorrentTheorems.RowsOutliveTheirWorkers | backend/internal/adapters/providers/torrent/downloads.go:187-245 | the branches for a record that is gone under a waiter or monitor are unreachable |
| TorrentTheorems.QuiescenceIsClean | backend/internal/adapters/providers/torrent/provider.go:922-949 | once all goroutines are done no counter, slot, row in progress or lock is left over |
| TorrentSafety.StepKeepsInv | backend/internal/adapters/providers/torrent/downloads.go:155-264 | every step of every goroutine keeps the counters equal to their owners and the rows consistent with the program counters |
| TorrentSafety.ReachableInv | backend/internal/adapters/providers/torrent/downloads.go:117-264 | every reachable state satisfies that invariant |
| TorrentSafety.RemovedRowsAreIdle | backend/internal/adapters/providers/torrent/downloads.go:337-351 | rows deleted with a source are neither pending nor active |
| TorrentProvider.Provider.Retain | backend/internal/adapters/providers/torrent/provider.go:907-912 | counts a hold and touches the access time, as the machine does |
| TorrentProvider.Provider.RetainStream | backend/internal/adapters/providers/torrent/provider.go:914-920 | counts a hold and a stream |
| TorrentProvider.Provider.Release | backend/internal/adapters/providers/torrent/provider.go:922-930 | takes one hold back; an entry at one is deleted |
| TorrentProvider.Provider.ReleaseStream | backend/internal/adapters/providers/torrent/provider.go:932-941 | takes one hold and one stream back |
| TorrentProvider.Provider.DecrementCount | backend/internal/adapters/providers/torrent/provider.go:943-949 | lowers one count by one and leaves no entry at zero |
| TorrentProvider.Provider.BeginTrackDownloadLocked | backend/internal/adapters/providers/torrent/downloads.go:198-223 | finished files are recorded as cached, others become active, exactly as the machine's step |
| TorrentProvider.Provider.ScheduleTrackDownloadLocked | backend/internal/adapters/providers/torrent/downloads.go:155-174 | takes a slot or queues, and returns slot and hold at once if there was nothing to do |
| TorrentProvider.Provider.GrantLocked | backend/internal/adapters/providers/torrent/downloads.go:187-196 | a waiter with a slot starts its monitor, or gives slot and hold back |
| TorrentProvider.Provider.TickLocked | backend/internal/adapters/providers/torrent/downloads.go:238-262 | one look of the monitor at the file's progress |
| TorrentProvider.Provider.MarkDownloadEvicted | backend/internal/adapters/providers/torrent/downloads.go:319-335 | the row of an evicted file is reset |
| TorrentProvider.Provider.RemoveDownloadsForSource | backend/internal/adapters/providers/torrent/downloads.go:337-351 | deletes exactly the rows of the source, up to the first that cannot be deleted |
| TorrentProvider.Provider.EvictionCandidates | backend/internal/adapters/providers/torrent/provider.go:671-713 | every cached file on disk is a candidate, and nothing else |
| TorrentProvider.Provider.EvictOne | backend/internal/adapters/providers/torrent/provider.go:472-498 | skips held or pinned torrents and files that have vanished, otherwise deletes the file and resets its row |
| TorrentProvider.Provider.Evict | backend/internal/adapters/providers/torrent/provider.go:455-501 | lists every cached file on disk, oldest first, and deletes the first eligible prefix that frees enough, or everything eligible, so it answers a request as the combined prune expects; no file that could have been evicted and is still there was used earlier than one that is gone |
| TorrentProvider.Provider.EvictInOrder | backend/internal/adapters/providers/torrent/provider.go:468-500 | the loop over the sorted candidates does what the sweep says and stops where the walk stops |
| TorrentProvider.EvictionIsTheMachines | backend/internal/adapters/providers/torrent/provider.go:472-498 | each deletion is the machine's check and eviction step, and a skipped candidate fails the check |
| TorrentProvider.SurvivorsAreYounger | backend/internal/adapters/providers/torrent/provider.go:465-467 | what sorting by age is for: evictable survivors are no older than any file that is gone |
| TorrentProvider.SweepKeepsScheduler | backend/internal/adapters/providers/torrent/provider.go:455-501 | eviction leaves counters, slots and pending and active rows alone |
| TorrentProvider.FreedIsTakenOffDisk | backend/internal/adapters/providers/torrent/provider.go:472-498 | the bytes reported as freed are exactly the bytes that left the disk |
| Eviction.StopFrom | backend/internal/adapters/providers/torrent/provider.go:470-500 | where a walk over candidates stops: no shorter prefix frees enough, and this one does unless it is everything |
| Eviction.SortedIsRight | backend/internal/adapters/providers/torrent/provider.go:465-467 | the order is by age and of the same candidates |
| Eviction.DeleteTakesItsSize | backend/internal/adapters/providers/soulseek/monitoring.go:286-290 | deleting one file takes its size off the total |
| SoulseekRuns.StepKeepsInv | backend/internal/adapters/providers/soulseek/download.go:308-650 | every step of resolve, enqueue, monitor, finish, cancel, retry, restart, listing and eviction keeps the invariant |
| SoulseekRestart.ReachableInv | backend/internal/adapters/providers/soulseek/download.go:59-102 | the invariant holds in every state that any interleaving reaches across any number of crashes and restarts |
| SoulseekRestart.RestartEstablishesInv | backend/internal/adapters/providers/soulseek/persistence.go:46-76 | whatever sound records a crash leaves, loading them yields a state with the invariant, each unfinished job listed and waiting for the restart loop |
| SoulseekRestart.RestoreIsIdempotent | backend/internal/adapters/providers/soulseek/persistence.go:101-156 | restoring what a restart wrote back changes nothing as long as the final files are the same |
| SoulseekRestart.RestartIsIdempotent | backend/internal/adapters/providers/soulseek/persistence.go:46-76 | restarting twice on unchanged final files gives the same jobs and tables, and the same records for all that the first restart could write |
| SoulseekRestart.RestartLoads | backend/internal/adapters/providers/soulseek/persistence.go:46-76 | each record becomes one job and one row, and stays as it was or is rewritten to what it was restored to |
| SoulseekRestart.RestoredIsLiveExactlyWhen | backend/internal/adapters/providers/soulseek/persistence.go:133-155 | a record comes back unfinished exactly if its final file is missing and it waits without a batch or is queued or downloading with both identifiers |
| SoulseekRestart.CrashBeforeTheBatchFailsTheJob | backend/internal/adapters/providers/soulseek/download.go:357-375 | a job recorded as queued before it has a batch, which would go on to enqueue, is restored as failed |
| SoulseekTheorems.GateCountsSlots | backend/internal/adapters/providers/soulseek/download.go:59-102 | the gate's counter is exactly the jobs that hold a slot plus the goroutines with one in hand; acquired slots never exceed the limit, so the total exceeds it at most by restored jobs |
| SoulseekTheorems.ReleaseAlwaysDecrements | backend/internal/adapters/providers/soulseek/download.go:94-102 | the guard on a positive counter is always true when a slot is given back: it hides no underflow |
| SoulseekTheorems.FinishedJobsHoldNoSlot | backend/internal/adapters/providers/soulseek/download.go:617-650 | whoever finishes a job, its slot has been given up |
| SoulseekTheorems.LiveJobIsListed | backend/internal/adapters/providers/soulseek/download.go:308-347 | an unfinished job is the one both tables name for its key, so a cancel by id reaches it |
| SoulseekTheorems.OneLiveJobPerKey | backend/internal/adapters/providers/soulseek/download.go:308-347 | two unfinished jobs never share a key |
| SoulseekTheorems.DoneIsClosedExactlyOnFinish | backend/internal/adapters/providers/soulseek/download.go:617-636 | the done channel has been closed once if the job is finished and never otherwise; an error implies finished |
| SoulseekTheorems.OneWorkerPerJob | backend/internal/adapters/providers/soulseek/download.go:349-382 | a job never has two goroutines enqueueing or monitoring it |
| SoulseekTheorems.LiveJobsAreAttended | backend/internal/adapters/providers/soulseek/monitoring.go:49-73 | while the server runs, every unfinished job, restored or new, has a goroutine working for it or about to finish it |
| SoulseekTheorems.ResumeNeverMissesABatch | backend/internal/adapters/providers/soulseek/monitoring.go:57-66 | the restart loop's missing-batch branch is unreachable |
| SoulseekTheorems.WaitingRecordsNameNoBatch | backend/internal/adapters/providers/soulseek/download.go:730-743 | no record on disk ever says waiting and names a batch |
| SoulseekTheorems.EnqueueCallsAreBounded | backend/internal/adapters/providers/soulseek/download.go:384-411 | in one process a job makes at most RetryAttempts squared enqueue calls, whatever the server answers |
| SoulseekTheorems.ReadsAreCounted | backend/internal/adapters/providers/soulseek/download.go:787-801 | the read count of a key is the number of goroutines reading or resolving it |
| SoulseekTheorems.EvictionFindsNoReader | backend/internal/adapters/providers/soulseek/monitoring.go:247-299 | when a file is about to be evicted nobody reads its key or is resolving it, and its track was not pinned when the candidates were collected |
| SoulseekTheorems.EvictionExcludesResolve | backend/internal/adapters/providers/soulseek/download.go:228-256 | no resolve can start while an eviction runs |
| SoulseekTheorems.QuiescenceIsClean | backend/internal/adapters/providers/soulseek/download.go:617-650 | once all goroutines are done the gate and the read counts are at zero and every job is finished |
| SoulseekAbsorption.StepAbsorbs | backend/internal/adapters/providers/soulseek/download.go:617-650 | after the first finish no step changes whether a job is finished, its error, or how often its channel was closed; every other job stays closed unless the step reopens it; which key gets a new job, and which job's record is written, as that job is afterwards |
| SoulseekAbsorption.FinishedForGood | backend/internal/adapters/providers/soulseek/download.go:617-650 | no run within one process changes whether a finished job is finished, its error or its channel |
| SoulseekReopening.StaysClosedExactly | backend/internal/adapters/providers/soulseek/download.go:384-455 | a finished job that shows it stays so exactly unless its own enqueue call comes back accepted or to be repeated, or its wait between two calls ends |
| SoulseekReopening.ReopenedRowIsNotRetriable | backend/internal/adapters/providers/soulseek/monitoring.go:170-191 | a reopened row refuses a retry and offers a cancel |
| SoulseekReopening.SecondFinishShowsNothing | backend/internal/adapters/providers/soulseek/download.go:617-624 | which changes nothing that is shown, as the job has been finished already |
| SoulseekReopening.StaysSettledExactly | backend/internal/adapters/providers/soulseek/download.go:384-455 | a key whose jobs and record are all over stays so exactly unless a step reopens a job of it or starts one |
| SoulseekReopening.CrashRevivesExactly | backend/internal/adapters/providers/soulseek/persistence.go:133-155 | after a crash in any sound state a row is live exactly if its file is missing and its record waits without a batch or is under way with both identifiers |
| SoulseekReopening.CrashKeepsSettled | backend/internal/adapters/providers/soulseek/persistence.go:46-76 | no crash brings a settled key back to life, whatever happens to its file |
| SoulseekReopening.SettledForGoodExactly | backend/internal/adapters/providers/soulseek/download.go:384-455 | over every run with crashes, a settled key stays settled exactly as long as no step disturbs it |
| SoulseekAuthorship.BelongsExactly | backend/internal/adapters/providers/soulseek/persistence.go:15-35 | after any step the record file of a key is that of the job listed for it exactly if that job has just written it, or it was before and neither another job of the key wrote it nor the key got a new job |
| SoulseekAuthorship.StaysItsOwnExactly | backend/internal/adapters/providers/soulseek/download.go:449-459 | the same for a record that is the listed job's: it stays so exactly unless another job of the key writes late or a new one is started |
| SoulseekAuthorship.BelongsThroughoutExactly | backend/internal/adapters/providers/soulseek/download.go:384-459 | over every run with crashes, the record stays the listed job's exactly as long as no such step comes |
| SoulseekAuthorship.DisplacingJobIsFinished | backend/internal/adapters/providers/soulseek/download.go:308-347 | a job that writes over the record of another one listed for its key has been finished |
| SoulseekAuthorship.CrashRestoresTheLastWritten | backend/internal/adapters/providers/soulseek/persistence.go:46-76 | whatever job was listed for a key, after a crash the listed one is restored from the record written last |
| SoulseekAuthorship.AuthorsAlwaysFit | backend/internal/adapters/providers/soulseek/persistence.go:15-35 | along every run the job that wrote a record file last is one of its key |
| SoulseekLateAnswer.LateEnqueueRewritesTheState | backend/internal/adapters/providers/soulseek/download.go:391-455 | for every key and every reopening answer, a run from the first process to a settled, cancelled download that the answer shows as queued or waiting again |
| SoulseekLateAnswer.LateAnswerRevivesTheDownload | backend/internal/adapters/providers/soulseek/download.go:391-455 | and a crash after the next record write makes it a live job again, unless no transfer was named |
| SoulseekLateAnswer.LateAnswerDisplacesTheNewRecord | backend/internal/adapters/providers/soulseek/download.go:449-459 | for every key and every reopening answer, a run from the first process in which the record of a cancelled job is written over that of the live job started after it |
| SoulseekLateAnswer.CrashReturnsToTheCancelledDownload | backend/internal/adapters/providers/soulseek/download.go:449-459 | and a crash then lists the cancelled download again, with the batch accepted for it |
| SoulseekInvariant.QuotaFits | backend/internal/adapters/providers/soulseek/download.go:730-743 | a fresh call sequence and all automatic retries left fit into the total budget of enqueue calls |
| SoulseekConservation.FinishConserves | backend/internal/adapters/providers/soulseek/download.go:617-650 | the finish section moves the slot from the job to exactly one goroutine, or does nothing |
| SoulseekConservation.ReturnConserves | backend/internal/adapters/providers/soulseek/download.go:641-646 | giving the slot back lowers the gate by exactly that slot |
| SoulseekSafety.WorkerIsAlone | backend/internal/adapters/providers/soulseek/download.go:349-382 | besides a job's worker nobody works for it or still has to resume it |
| SoulseekDownloads.DownloadGate.constructor | backend/internal/adapters/providers/soulseek/download.go:66-68 | a new gate has no slot in use |
| SoulseekDownloads.DownloadGate.TryAcquire | backend/internal/adapters/providers/soulseek/download.go:70-86 | a slot is taken exactly if the machine lets the waiting goroutine go on, and the gate is then that of the machine's step |
| SoulseekDownloads.DownloadGate.Restore | backend/internal/adapters/providers/soulseek/download.go:88-92 | leaves the gate as the restart loop's step does, limit or not |
| SoulseekDownloads.DownloadGate.Release | backend/internal/adapters/providers/soulseek/download.go:94-102 | leaves the gate as the machine's release does |
| SoulseekDownloads.DownloadJob.constructor | backend/internal/adapters/providers/soulseek/download.go:319-334 | a new job waits, without batch, slot or monitor |
| SoulseekDownloads.DownloadJob.Finish | backend/internal/adapters/providers/soulseek/download.go:617-640 | only the first call changes anything; it says whether it was the first and whether a slot must go back |
| SoulseekDownloads.DownloadJob.RecordSlot | backend/internal/adapters/providers/soulseek/download.go:358-367 | an acquired slot is recorded unless the job has been finished meanwhile |
| SoulseekDownloads.DownloadJob.BeginMonitoring | backend/internal/adapters/providers/soulseek/download.go:687-695 | monitoring begins once, and not for finished jobs |
| SoulseekDownloads.DownloadJob.UpdateTransfer | backend/internal/adapters/providers/soulseek/download.go:703-728 | progress is applied to unfinished jobs only, capped by the size, and reported as changed exactly if it was |
| SoulseekDownloads.DownloadJob.PrepareAutomaticRetry | backend/internal/adapters/providers/soulseek/download.go:730-743 | a retry is granted exactly while some are left, and clears the identifiers |
| SoulseekDownloads.DownloadJob.EnqueueWithRetry | backend/internal/adapters/providers/soulseek/download.go:384-411 | calls until the first answer that is not a temporary error, the end of the context, or RetryAttempts calls, and leaves the job as the machine's steps for these answers do |
| SoulseekDownloads.AttemptsAreCounted | backend/internal/adapters/providers/soulseek/download.go:384-411 | every call of a sequence is counted, and none finishes the job, gives up its slot or uses up an automatic retry |
| SoulseekDownloads.Coordinator.BeginRead | backend/internal/adapters/providers/soulseek/download.go:787-791 | counts one more read of the key |
| SoulseekDownloads.Coordinator.EndRead | backend/internal/adapters/providers/soulseek/download.go:793-801 | takes one read back and leaves no entry at zero, as the machine's step does |
| SoulseekDownloads.Coordinator.EnsureListed | backend/internal/adapters/providers/soulseek/download.go:311-337 | the live job of the key, or a new one in both tables, as the machine's step does |
| SoulseekDownloads.Coordinator.RemoveJob | backend/internal/adapters/providers/soulseek/download.go:667-673 | only the job still listed is taken off the list, as the machine's step does |
| SoulseekDownloads.Coordinator.EvictOne | backend/internal/adapters/providers/soulseek/monitoring.go:272-293 | one candidate: its file goes if there still is one, the job is marked, its record written, as the machine's step does |
| SoulseekDownloads.Coordinator.Evict | backend/internal/adapters/providers/soulseek/monitoring.go:247-299 | collects exactly what may be evicted, oldest first, and deals with the first prefix that frees enough, or with everything, so it answers a request as the combined prune expects; no candidate that still has its file is older than one dealt with |
| SoulseekDownloads.Coordinator.EvictionCandidates | backend/internal/adapters/providers/soulseek/monitoring.go:251-266 | cached jobs that nobody reads or resolves and whose track is not pinned, each once, and no others |
| SoulseekDownloads.CollectsWhatTheMachineEvicts | backend/internal/adapters/providers/soulseek/monitoring.go:251-266 | these are the jobs the machine may evict |
| SoulseekDownloads.FreedLeavesTheDisk | backend/internal/adapters/providers/soulseek/monitoring.go:286-290 | the bytes reported as freed are exactly those that left the disk |
| SoulseekDownloads.Coordinator.LoadRecords | backend/internal/adapters/providers/soulseek/persistence.go:46-76 | loading fills heap, tables and record files as the restart model says |
| PeerGate.StepKeepsInv | backend/internal/adapters/providers/soulseek/slskd.go:783-813 | entering, acquiring, giving up, finishing and leaving keep users equal to goroutines and every used gate in the table |
| PeerGate.OneOperationPerPeer | backend/internal/adapters/providers/soulseek/slskd.go:750-782 | two operations on the same normalised peer never overlap, although gates are deleted and made again |
| PeerGate.UsersShareTheListedGate | backend/internal/adapters/providers/soulseek/slskd.go:783-804 | a gate in use is the one the table has for its peer |
| PeerGate.UsersCountGoroutines | backend/internal/adapters/providers/soulseek/slskd.go:806-813 | users is the number of goroutines between entering and leaving, and an idle peer has no gate |
| PeerGate.PeerOperations.Acquire | backend/internal/adapters/providers/soulseek/slskd.go:783-792 | the section that finds or makes the gate and counts the user |
| PeerGate.PeerOperations.Release | backend/internal/adapters/providers/soulseek/slskd.go:806-813 | the section that uncounts the user and deletes an unused gate |
| PeerGate.Request | backend/internal/adapters/providers/soulseek/slskd.go:753-781 | at most four requests, each but the last answered with "too many requests"; the loop ends on another answer, the last attempt, or the end of the context |
| GrowingFile.GrowingReader.Read | backend/internal/adapters/providers/soulseek/growing_file.go:25-85 | the loop over paths and pauses computes the outcome of the first round that ends it |
| GrowingFile.ReadIsRight | backend/internal/adapters/providers/soulseek/growing_file.go:25-85 | a returned chunk is the content at the offset within the size; end of file exactly at the size for a non-empty buffer; a failed job's error only after rounds that found nothing at the offset |
| GrowingFile.GrowingReader.Seek | backend/internal/adapters/providers/soulseek/growing_file.go:87-106 | moves to the target of the three origins and refuses others and negative positions |
| GrowingFile.ReadsDeliverTheFile | backend/internal/adapters/providers/soulseek/growing_file.go:25-85 | over every run of reads, whatever each round of each read shows, they deliver the piece of the finished file between the offsets before and after, and all the rest of it if one reports the end |
| GrowingFile.EveryReadIsInPlace | backend/internal/adapters/providers/soulseek/growing_file.go:25-106 | with seeks in between, every chunk is the content at the place the calls before it lead to |
| BoundedReader.CompletionIsHonest | backend/internal/adapters/providers/torrent/provider.go:1160-1205 | over every run of reads and seeks completion fires at most once, and then the bytes returned so far are exactly the file |
| BoundedReader.NeverPastTheEnd | backend/internal/adapters/providers/torrent/provider.go:1172-1191 | no read hands out bytes past the end, and the read that reaches it says so |
| BoundedReader.RunKeepsValid | backend/internal/adapters/providers/torrent/provider.go:1172-1205 | while contiguous, what was returned is the file up to the position |
| BoundedReader.File.ReadInto | backend/internal/adapters/providers/torrent/provider.go:1172-1191 | the read method makes the modelled step |
| BoundedReader.File.SeekTo | backend/internal/adapters/providers/torrent/provider.go:1193-1205 | the seek method makes the modelled step |
| TranscodeSafety.StepKeepsInv | backend/internal/core/services/transcoding.go:60-101 | every step of callers, readers and the storing goroutine keeps the invariant |
| TranscodeSafety.OneOwnerPerFlight | backend/internal/core/services/transcoding.go:60-101 | a key has at most one starting caller or unfinalised reader |
| TranscodeSafety.ListedFlightHasAnOwner | backend/internal/core/services/transcoding.go:60-77 | a flight in the table has such an owner, which will finish it |
| TranscodeSafety.FinishFindsItsOwnFlight | backend/internal/core/services/transcoding.go:176-199 | finishing by key always finds the caller's own flight, unfinished, and closes it once with the error set |
| TranscodeSafety.CachedIsComplete | backend/internal/core/services/transcoding.go:213-258 | after any run a cached blob is the whole of a stream that was read to its end, never a truncated one |
| TranscodeSafety.LiveRunsOwnTheirFlight | backend/internal/core/services/transcoding.go:236-258 | a run that may still produce bytes owns its flight, unless storing has failed under it |
| TranscodeSafety.OneLiveRunPerKey | backend/internal/core/services/transcoding.go:60-101 | two live runs for one key imply that storing failed for one of them |
| TranscodeSafety.SecondRunStartsExactlyWhen | backend/internal/core/services/transcoding.go:60-77 | a step makes a second live run for a key exactly if a caller starts one while a run is live; that run's flight is gone because storing failed |
| TranscodeSafety.OneRunThroughoutExactly | backend/internal/core/services/transcoding.go:60-101 | over a whole run a key has at most one live run exactly if no such caller arrives |
| TranscodeSafety.TwoLiveRunsAfterACacheFailure | backend/internal/core/services/transcoding.go:215-218 | a run in which that happens |
| TranscodeObjects.CachedAudioTranscoder.Join | backend/internal/core/services/transcoding.go:60-77 | the locked section joins the key's flight or starts one |
| TranscodeObjects.CachedAudioTranscoder.FinishFlight | backend/internal/core/services/transcoding.go:176-199 | takes the flight off the table, sets its error and closes it |
| TranscodeObjects.CachingTranscodeReader.Read | backend/internal/core/services/transcoding.go:213-234 | the client gets the delegate's bytes and error unchanged, whatever the cache does; the flight ends well only if the whole stream was stored; the call is a run of the machine's read, store and finish actions, from the reader's place in the machine to its next |
| TranscodeObjects.CachingTranscodeReader.Close | backend/internal/core/services/transcoding.go:236-245 | an early close finishes the flight with an error, once, by the machine's close, store and finish actions |
| TranscodeObjects.CachingTranscodeReader.Finalize | backend/internal/core/services/transcoding.go:247-258 | the stream's own error goes before the cache's |
| TranscodeObjects.CachingTranscodeReader.constructor | backend/internal/core/services/transcoding.go:84-95 | a new reader is where the machine is when the delegate has started |
| TranscodeObjects.FinalActionsRun | backend/internal/core/services/transcoding.go:247-258 | however the store ends once the pipe is closed, the machine's actions lead to the finished flight with the stream's or the store's error |
| MediaCache.RunKeeps | backend/internal/core/services/media_cache.go:35-178 | over every sequence of operations metadata has blobs of the recorded size, and the cache is within its limit or wholly pinned |
| MediaCache.StepKeeps | backend/internal/core/services/media_cache.go:35-120 | each single operation keeps that |
| MediaCache.PruneRestores | backend/internal/core/services/media_cache.go:115-120 | one prune establishes it from any sound state |
| MediaCache.PrunedFits | backend/internal/core/services/media_cache.go:145-167 | after a prune the cache fits or all that is left is pinned or protected |
| MediaCache.PruningSpares | backend/internal/core/services/media_cache.go:154-165 | pinned and protected entries survive, and what survives is unchanged |
| MediaCache.Store.PruneLocked | backend/internal/core/services/media_cache.go:145-167 | the entries removed are the shortest prefix of removable ones in listing order that makes the rest fit, or all; the size returned is the size that is left |
| MediaCache.Store.RemoveLocked | backend/internal/core/services/media_cache.go:169-178 | blob and metadata go together |
| MediaCache.Store.TotalSize | backend/internal/core/services/media_cache.go:150-153 | the sum over the listing is the size of the cache |
| MediaCache.Store.Put | backend/internal/core/services/media_cache.go:35-64 | stores, prunes around the new entry, and discards it if it still does not fit |
| MediaCache.Store.SetPinned | backend/internal/core/services/media_cache.go:90-107 | pins, or unpins and prunes |
| MediaCache.Store.Open | backend/internal/core/services/media_cache.go:66-88 | content exactly if metadata and blob exist; metadata without a blob is dropped |
| MediaCacheOverlap.PutIsWriteAndRecord | backend/internal/core/services/media_cache.go:35-64 | a put that nothing comes between is the put of the sequential model |
| MediaCacheOverlap.LimitHoldsThroughout | backend/internal/core/services/media_cache.go:35-120 | over every interleaving of puts with all other operations, and whether or not an entry can be saved, the cache is within its limit or wholly pinned |
| MediaCacheOverlap.RecordIsFaithfulExactly | backend/internal/core/services/media_cache.go:44-63 | whatever happened since its blob was written, the locked section of a put leaves its key right exactly if the entry is given up or the blob in place has its size, or, when the entry cannot be saved, if there is no older one |
| MediaCacheOverlap.StaysFaithfulExactly | backend/internal/core/services/media_cache.go:35-120 | a key whose metadata is right stays so exactly unless a step spoils it |
| MediaCacheOverlap.FaithfulThroughoutExactly | backend/internal/core/services/media_cache.go:35-120 | the same over every interleaving |
| MediaCacheOverlap.OrderlyRunsAgree | backend/internal/core/services/media_cache.go:35-120 | with callers that put a key only while it has no entry, one at a time, and do not remove it meanwhile, metadata and blobs agree in every state |
| MediaCacheOverlap.ReversedPutsDisagree | backend/internal/core/services/media_cache.go:40-50 | a run in which two puts of one key leave one's size over the other's blob |
| MediaCacheOverlap.WrongSizeStays | backend/internal/core/services/media_cache.go:66-120 | no other operation corrects that, short of taking the entry off |
| MediaCacheOverlap.RemovedMeanwhileIsDropped | backend/internal/core/services/media_cache.go:66-80 | an entry recorded after its blob was removed is dropped by the next opening |
| CacheStatus.CombinedStats | backend/internal/core/services/cache_status.go:66-81 | sizes and entries of the media cache and of every provider added up |
| CacheStatus.Prune | backend/internal/core/services/cache_status.go:33-60 | for any evictors that keep the contract of stopping at the first prefix that frees enough, their walks are one walk over everything they could evict: it stops at the first prefix that covers the excess, or has exhausted every provider |
| CacheStatus.WalkContinues | backend/internal/core/services/cache_status.go:45-58 | asking the next provider for what is still missing continues the same walk |
| CacheStatus.WalkingEvicts | backend/internal/core/services/cache_status.go:45-58 | a walk that stops at the first sufficient prefix, as both providers' evictions are proved to do, keeps that contract |
| TrackTables.MoveIsRename | backend/internal/adapters/storage/sqlite/logical_track_migration.go:190-212 | the nine statements for one track rename it in every table at once and delete its row |
| TrackTables.RenamedTwice | backend/internal/adapters/storage/sqlite/logical_track_migration.go:52-60 | one more rename after others equals renaming all at once, if it takes no name given and gives no name taken away |
| PreferredTrack.PreferredMigrationTrack | backend/internal/adapters/storage/sqlite/logical_track_migration.go:120-143 | the first track with the highest score, its blanks filled with the first set value of the group |
| PreferredTrack.BestIsPreferred | backend/internal/adapters/storage/sqlite/logical_track_migration.go:120-127 | the running best is the first maximum |
| PreferredTrack.PreferredIsUnique | backend/internal/adapters/storage/sqlite/logical_track_migration.go:120-127 | there is only one such track |
| TrackMigration.RunIsSimultaneous | backend/internal/adapters/storage/sqlite/logical_track_migration.go:37-64 | for every order of the groups the final tables are the initial ones under one simultaneous substitution, with one merged row per logical id |
| TrackMigration.NoReferenceToDeletedIds | backend/internal/adapters/storage/sqlite/logical_track_migration.go:190-212 | a renamed reference never names a deleted id, and leads to the logical id |
| TrackMigration.ResolveIsPreserved | backend/internal/adapters/storage/sqlite/catalog.go:362-373 | an id that resolved before resolves to the logical id of the same track, exactly unless a new logical id takes over an old alias's name |
| TrackMigration.OtherwiseALogicalTrackIsLost | backend/internal/adapters/storage/sqlite/logical_track_migration.go:46-61 | if a logical id is a member of a group that comes last, its row is missing from the result |
| TrackMigration.EveryOrderKeepsTheLogicalTracksExactlyWhenIdempotent | backend/internal/adapters/storage/sqlite/logical_track_migration.go:37-64 | the tracks that are left are the logical ids, for every group order, exactly when no logical id is a member of another group |
| TrackMigration.ARenamedRowLosesATrack | backend/internal/adapters/storage/sqlite/logical_track_migration.go:46-61 | a catalog in which a row's id is the hash of another row's names: the merged track is lost and its sources end up at another one |
| TrackMigration.AnAliasIsTakenOver | backend/internal/adapters/storage/sqlite/catalog.go:362-373 | a catalog in which an alias bears the name of a new logical id: the link leads to that track afterwards |
| TrackMigration.Catalog.MoveTrackReferences | backend/internal/adapters/storage/sqlite/logical_track_migration.go:190-212 | the statements in their order have the effect stated above |
| TrackMigration.Catalog.UpsertMigrationTrack | backend/internal/adapters/storage/sqlite/logical_track_migration.go:162-188 | writes the row, with the artist id for an empty album artist id |
| TrackMigration.Catalog.CollectGroups | backend/internal/adapters/storage/sqlite/logical_track_migration.go:37-44 | one group per logical id, members in row order |
| TrackMigration.Catalog.MigrateLogicalTracks | backend/internal/adapters/storage/sqlite/logical_track_migration.go:45-61 | the nested loops produce the modelled run and the alias map of all renamed ids |
| TrackAnnotations.MigrateTrackAnnotations | backend/internal/adapters/storage/sqlite/logical_track_migration.go:214-266 | song rows are renamed, merged and inserted again without losing or doubling a play; other rows stay |
| TrackAnnotations.MergedSongsNameLogicalTracks | backend/internal/adapters/storage/sqlite/logical_track_migration.go:237-252 | each merged row sums the plays and takes the maxima of the rows with its key, and names no deleted id |
| Annotations.MergeRows | backend/internal/adapters/storage/sqlite/identity_migration.go:159-178 | the merge loop of both migrations: each result is the sum of plays and the maximum of the other columns over the rows with its key |
| Annotations.MergedSums | backend/internal/adapters/storage/sqlite/identity_migration.go:169-177 | the same about the merge as a function |
| Annotations.MergedKeys | backend/internal/adapters/storage/sqlite/identity_migration.go:168-177 | a result exists exactly for the keys of rows |
| Annotations.SumsAreUnique | backend/internal/adapters/storage/sqlite/identity_migration.go:160-178 | whatever the order of the rows, each merged row has the same plays, rating and times |
| Annotations.MergeIgnoresOrder | backend/internal/adapters/storage/sqlite/identity_migration.go:160-178 | and if keys tell media and owners apart, the whole merge is the same |
| Annotations.SongMergeIgnoresOrder | backend/internal/adapters/storage/sqlite/logical_track_migration.go:237-252 | which they do for songs, unless some owner's name and some media id hold a NUL |
| Annotations.IdentityMergeIgnoresOrder | backend/internal/adapters/storage/sqlite/identity_migration.go:160-178 | and for artists and albums |
| Annotations.PlaysAreConserved | backend/internal/adapters/storage/sqlite/identity_migration.go:183-190 | the inserted rows have as many plays in all as the rows read |
| Annotations.SongKeysCollideExactly | backend/internal/adapters/storage/sqlite/logical_track_migration.go:242 | two rows share a key exactly if owner and media id agree, or a part of one's media id, up to a NUL of its own, ends the other's owner |
| Annotations.IdentityKeysCollideExactly | backend/internal/adapters/storage/sqlite/identity_migration.go:168 | the same with the media type |
| Annotations.SongKeysAreExact | backend/internal/adapters/storage/sqlite/logical_track_migration.go:242 | if no owner or no media id has a NUL, two rows share a key exactly if owner and media id agree |
| Annotations.IdentityKeysAreExact | backend/internal/adapters/storage/sqlite/identity_migration.go:168 | the same with the media type |
| Annotations.KeysCanCollide | backend/internal/adapters/storage/sqlite/logical_track_migration.go:242 | with a NUL in an owner's name and one in a media id two users' rows can share a key |
| IdentityMigration.MappingIsVerdict | backend/internal/adapters/storage/sqlite/identity_migration.go:115-127 | a legacy id is mapped to its meaning exactly if all tracks agree, to nothing if two differ, and is absent if none mentions it |
| IdentityMigration.MappingIgnoresOrder | backend/internal/adapters/storage/sqlite/identity_migration.go:115-127 | the mapping depends only on the set of claims |
| IdentityMigration.AnnotationsFollowUnanimousIds | backend/internal/adapters/storage/sqlite/identity_migration.go:160-167 | an annotation moves exactly if its legacy id has one meaning |
| IdentityMigration.Catalog.AddIdentityMapping | backend/internal/adapters/storage/sqlite/identity_migration.go:116-127 | adds one claim |
| IdentityMigration.Catalog.CatalogIdentityUpdates | backend/internal/adapters/storage/sqlite/identity_migration.go:76-113 | canonical identities of every track, and the mappings of all their claims |
| IdentityMigration.Catalog.UpdateTracks | backend/internal/adapters/storage/sqlite/identity_migration.go:54-60 | updating row by row assigns to all rows at once and touches no other |
| IdentityMigration.Catalog.MigrateIdentityAnnotations | backend/internal/adapters/storage/sqlite/identity_migration.go:129-193 | artist and album rows are renamed, merged and inserted again without losing a play; song rows stay |
| Restore.Restorer.PrepareTargets | backend/internal/backup/restore.go:157-177 | succeeds exactly if every existing destination is a regular file and force is given |
| Restore.Restorer.CommitTargets | backend/internal/backup/restore.go:179-253 | succeeds exactly if the inputs let every file be staged, preserved and placed; on success everything is in place; on failure the disk is what it was up to the residue the inputs tell |
| Restore.FailureLeavesNoTraceExactly | backend/internal/backup/restore.go:179-259 | a failed restore leaves the disk exactly as it was unless a link is stuck or a deferred removal fails |
| Restore.AStuckLink | backend/internal/backup/restore.go:231-245 | a plan whose failed restore leaves new content at a destination |
| Restore.SweptIsUndone | backend/internal/backup/restore.go:191 | what the deferred removals leave is what the inputs tell |
| Restore.EverythingInPlace | backend/internal/backup/restore.go:227-252 | success means new contents at the destinations, old files at their recovery paths, no staged file and no other change |
| Restore.Restorer.RollBack | backend/internal/backup/restore.go:255-259 | undoes placed and preserved files from any point |
| AuthLimiter.SweepIsUnobservable | backend/internal/observability/auth_limit.go:63-96 | with a clock that never goes back, every run of checks and failures gets the same answers with and without the sweep |
| AuthLimiter.StepsAlike | backend/internal/observability/auth_limit.go:75-96 | the bisimulation: two limiters that differ only in stale entries answer alike and stay so |
| AuthLimiter.AuthFailureLimiter.BlockedFor | backend/internal/observability/auth_limit.go:63-73 | the method makes the modelled check |
| AuthLimiter.AuthFailureLimiter.RecordFailure | backend/internal/observability/auth_limit.go:75-96 | the method makes the modelled failure step, sweeping every 256th time |
| AuthLimiter.AuthFailureLimiter.Sweep | backend/internal/observability/auth_limit.go:89-95 | deletes exactly the stale entries, in any order |
| AuthLimiter.AuthFailureLimiter.constructor | backend/internal/observability/auth_limit.go:31-45 | defaults keep limit, window and block time positive |
| BindQuery.BindPostgres | backend/internal/adapters/storage/sqlite/database.go:74-98 | the loop with its look-ahead for doubled quotes computes what a plain quote-parity scan does |
| BindQuery.Bind | backend/internal/adapters/storage/sqlite/database.go:70-73 | other dialects' queries are left alone |
| BindQuery.PlaceholdersAreNumbered | backend/internal/adapters/storage/sqlite/database.go:90-94 | in every query the unquoted placeholder with n unquoted ones before it becomes number n + 1, and every other character stays where it is |
| BindQuery.BoundSplits | backend/internal/adapters/storage/sqlite/database.go:74-98 | text behind a prefix is rewritten as if it stood alone, from the quoting and the number the prefix leads to |
| BindQuery.NumbersAreReadBack | backend/internal/adapters/storage/sqlite/database.go:90-94 | in a query without an unquoted dollar sign and without a digit behind a placeholder, the numbers behind unquoted dollar signs are 1 to n in order |
| BindQuery.QuotedTextIsUntouched | backend/internal/adapters/storage/sqlite/database.go:80-89 | quoted text is unchanged, for every query |
| BindQuery.BindingIsReversible | backend/internal/adapters/storage/sqlite/database.go:70-98 | turning unquoted numbered placeholders back recovers a query exactly if it has no unquoted dollar sign and no digit behind a placeholder |
| BindQuery.UnreadableQueriesAreAmbiguous | backend/internal/adapters/storage/sqlite/database.go:90-94 | two queries that are not recovered |

## Left out

- TorrentProvider.Provider.Release: the cache-changed callback is left out; `release` runs it synchronously, sometimes under a lock that the eviction it triggers needs; the models treat eviction as a step of its own and claim safety only.
- TorrentProvider.Provider.ReleaseStream: the callback is left out as above.
- Nested sections: the torrent machine merges a section of `cacheMu` or `completionMu` nested in another section into one step, and an `open` registers its stream and drops the read lock in one step; `Read` and `Close` of one stream do not overlap.
- Torrent records: track ids, names and times in download records are left out; download ids are one-to-one with source keys, so tables are indexed by the key.
- Sorting of eviction candidates: one of the orders `sort.Slice` may choose between candidates of one age; dropping a torrent from the client before its files are removed is left out.
- Soulseek files: distinct keys have distinct final paths, and a record's total is the remote size its key fixes.
- Soulseek records: snapshot and write of a record are one step; a failed record write is never classed as a temporary error; unreadable record files are skipped before the model starts; timestamps and message texts are left out.
- SoulseekRestart.Restarted: the context of the restart loop is not cancelled half-way, and the server accepts requests only after it.
- Restored slots: an acquired slot and a restored one are told apart only in the proofs.
- PeerGate.OneOperationPerPeer: names are normalised for ASCII letters and blanks only.
- MediaCache.RunKeeps: speaks of operations one after another; overlapping calls, and entries that cannot be saved, are in `MediaCacheOverlap`. Store calls other than saving an entry in `Put` succeed. The listing order is taken as given.
- TranscodeObjects.CachingTranscodeReader.Read: a delegate's stream that has ended, or is closed, gives nothing more.
- TranscodeSafety.CachedIsComplete: reads and close of one reader do not overlap, and the job list for the dashboard is left out.
- Transcode cache keys and file names: pure string building.
- Catalog migrations: only the statements in the Go files, not the schemas' foreign keys and cascades; hashes that make canonical ids are parameters; transactions commit or do nothing.
- Pinned tracks, artist aliases, playlists, play queues, permissions, paging: not part of the migrations' statements, or easy members.
- Restore.Restorer.CommitTargets: the rollback's removals and renames succeed, and a file whose staging fails half-way is gone; destinations, staged names and recovery paths are distinct and new. Archive reading, checksums and directories are left out.
- GrowingFile.GrowingReader.Read: the incomplete file is always a prefix of the content and the final one at most the whole; the job's result is part of what each round shows.
- BoundedReader: `onComplete` is always set, and the torrent's reader delivers the stream at the position it was sent to.
- AuthLimiter: times are natural numbers after the zero time.
- HTTP, JSON, the dashboard, configuration, metrics, tag reading, image and audio decoding, encryption: plumbing or foreign code.
