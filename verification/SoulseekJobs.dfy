/** A Soulseek download job, its record file, and what each short section under `job.mu` does to it.

    A source key fixes peer, path and size; the download id is a one-to-one hash of the key, so record files and
    table rows are indexed by the key itself. */
module SoulseekJobs {
  import opened Common
  import opened Counting

  datatype DownloadState = Waiting | Queued | Downloading | Cached | Failed | Cancelled | Evicted

  /** Why a job failed or was sent back: the message a user sees, by kind. */
  datatype Fault =
    | RecordNotWritten
    | ContextEnded
    | CancelledByUser
    | MissingBatch
    | MissingIdentifiers
    | Remote(message: string)

  datatype Download = Download(state: DownloadState, completedBytes: nat, totalBytes: nat, error: Option<Fault>)

  /** The final file of a download: distinct source keys are taken to have distinct final paths. */
  datatype Path = FinalPath(key: string, trackId: string)

  /** The fields of `downloadJob`, then history that the program does not keep: how often `done` was closed,
      whether the slot came from `restore`, how many enqueue calls were made, whether a goroutine works for the
      job, how many cancellations are under way, and whether a restart has not reached it yet. */
  datatype Job = Job(
    key: string,
    trackId: string,
    batchId: string,
    transferId: string,
    download: Download,
    err: Option<Fault>,
    finished: bool,
    ready: bool,
    monitoring: bool,
    slotHeld: bool,
    retryCount: nat,
    cancelled: bool,
    doneCloses: nat,
    restoredSlot: bool,
    enqueues: nat,
    worker: bool,
    closers: nat,
    dormant: bool
  )

  /** The persisted form. */
  datatype Record = Record(
    key: string, trackId: string, batchId: string, transferId: string, download: Download, retryCount: nat)

  function NewJob(key: string, trackId: string, size: nat): Job {
    Job(key, trackId, "", "", Download(Waiting, 0, size, None), None, false, false, false, false, 0, false,
        0, false, 0, true, 0, false)
  }

  function Persisted(job: Job): Record {
    Record(job.key, job.trackId, job.batchId, job.transferId, job.download, job.retryCount)
  }

  /** The section of `finishJob`: only the first call changes anything. */
  function FinishedJob(job: Job, state: DownloadState, err: Option<Fault>): Job {
    if job.finished then job
    else
      job.(finished := true, err := err, slotHeld := false, doneCloses := job.doneCloses + 1,
           download := if state == Cached then Download(Cached, job.download.totalBytes, job.download.totalBytes, None)
                       else if err.Some? then job.download.(state := state, error := err)
                       else job.download.(state := state))
  }

  function SlotRecorded(job: Job): Job {
    job.(slotHeld := true, restoredSlot := false, download := job.download.(state := Queued))
  }

  function BatchStored(job: Job, batchId: string, transferId: string): Job {
    job.(batchId := batchId, transferId := transferId, download := job.download.(state := Queued, error := None))
  }

  function BackedOff(job: Job, fault: Fault): Job {
    job.(download := job.download.(state := Waiting, error := Some(fault)))
  }

  function Awoken(job: Job): Job {
    job.(download := job.download.(state := Queued, error := None))
  }

  predicate MayRetry(job: Job, limit: nat) {
    !job.finished && job.retryCount + 1 < limit
  }

  function RetryPrepared(job: Job, fault: Fault): Job {
    job.(retryCount := job.retryCount + 1, batchId := "", transferId := "",
         download := job.download.(state := Waiting, error := Some(fault)))
  }

  datatype Phase = InProgress | QueuedRemotely | OtherPhase

  function TransferUpdated(job: Job, transferId: string, bytes: nat, phase: Phase): Job {
    if job.finished then job
    else
      job.(transferId := if transferId != "" then transferId else job.transferId,
           download := job.download.(
             completedBytes := Min(bytes, job.download.totalBytes),
             state := match phase
               case InProgress => Downloading
               case QueuedRemotely => Queued
               case OtherPhase => job.download.state))
  }

  function MarkedCached(job: Job, size: nat): Job {
    job.(download := Download(Cached, size, size, None))
  }

  function MarkedEvicted(job: Job): Job {
    job.(download := job.download.(state := Evicted, completedBytes := 0, error := None))
  }

  /** `snapshot`: a cached job whose file has gone is shown as evicted. */
  function Snapshot(job: Job, files: map<Path, nat>): Job {
    if job.download.state == Cached && FinalPath(job.key, job.trackId) !in files then
      job.(download := job.download.(state := Evicted, completedBytes := 0))
    else job
  }

  function CachedJob(key: string, trackId: string, size: nat): Job {
    NewJob(key, trackId, size).(
      download := Download(Cached, size, size, None), finished := true, ready := true, doneCloses := 1, worker := false)
  }

  /** `restoreJob`: what a record becomes after a restart, given the final files on disk.
      The source key fixes the remote size, which is the record's `totalBytes`. */
  function Restored(record: Record, files: map<Path, nat>): Job {
    var path := FinalPath(record.key, record.trackId);
    var size := record.download.totalBytes;
    var live := Job(record.key, record.trackId, record.batchId, record.transferId, record.download, None,
                    false, false, false, false, record.retryCount, false, 0, false, 0, false, 0, true);
    var over := live.(finished := true, ready := true, doneCloses := 1, dormant := false);
    if path in files then
      if files[path] != size then
        over.(download := record.download.(state := Evicted, completedBytes := 0, error := None))
      else
        over.(download := record.download.(state := Cached, completedBytes := size, error := None))
    else
      match record.download.state
      case Waiting => if record.batchId == "" then live else over
      case Queued => RestoredActive(record, live, over)
      case Downloading => RestoredActive(record, live, over)
      case Cached => over.(download := record.download.(state := Evicted, completedBytes := 0))
      case Failed => over
      case Cancelled => over
      case Evicted => over
  }

  function RestoredActive(record: Record, live: Job, over: Job): Job {
    if record.batchId == "" || record.transferId == "" then
      over.(download := record.download.(
        state := Failed, error := Some(MissingIdentifiers)))
    else live.(ready := true)
  }
}
