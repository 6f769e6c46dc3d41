/** Every interleaving of the Soulseek coordinator's goroutines.

    Jobs live on a heap and are named by their index, as Go names them by pointer. One action is one critical
    section of one goroutine, one gate operation, one record write, or one answer of the remote server. */
module SoulseekMachine {
  import opened Common
  import opened Counting
  import opened SoulseekJobs

  /** Who called `ensureDownload`: a resolve holds a read on its key, a retry does not. */
  datatype Origin = FromResolve | FromRetry

  /** On whose behalf `finishJob` runs: the job's own goroutine, a cancel request, or the restart loop. */
  datatype Closer = ByWorker | ByCanceller | ByResume

  /** Where the caller of `finishJob` continues. */
  datatype Next = ToDone | ToEndRead(key: string) | ToEndMonitor(job: nat) | ToResume(pending: set<nat>)

  datatype Pc =
    // resolve and retry
    | Ensuring(key: string, trackId: string, size: nat, origin: Origin)
    | FirstPersist(job: nat, key: string, origin: Origin)
    | Launching(job: nat, key: string, origin: Origin)
    | AwaitingReady(job: nat, key: string, origin: Origin)
    | AwaitingData(job: nat, key: string)
    | Reading(key: string)
    | EndingRead(key: string)
    // startEnqueue's goroutine
    | Acquiring(job: nat)
    | Acquired(job: nat)
    | GivingBack(job: nat)
    | PersistQueued(job: nat)
    | Announcing(job: nat)
    | Announced(job: nat)
    // enqueueWithRetry, called first from startEnqueue and later from the monitor
    | Enqueueing(job: nat, attempt: nat, first: bool)
    | Enqueued(job: nat, attempt: nat, first: bool)
    | BackingOff(job: nat, attempt: nat, first: bool)
    | Sleeping(job: nat, attempt: nat, first: bool)
    // monitorDownload
    | Polling(job: nat)
    | PersistPoll(job: nat)
    | RetryPersist(job: nat)
    | EndingMonitor(job: nat)
    // finishJob; `next` is where its caller continues
    | Finishing(job: nat, key: string, state: DownloadState, err: Option<Fault>, closer: Closer, next: Next)
    | Returning(job: nat, key: string, token: Option<bool>, next: Next)
    | FinishAnnounce(job: nat, key: string, next: Next)
    | FinishPersist(job: nat, key: string, next: Next)
    | Unlisting(job: nat, key: string, next: Next)
    // cancel
    | Cancelling(job: nat)
    | CancellingRemotely(job: nat)
    // resume
    | Resuming(pending: set<nat>)
    | RestoringSlot(job: nat, pending: set<nat>)
    | RestoringMonitor(job: nat, pending: set<nat>)
    // evict
    | Evicting(candidates: seq<nat>, pinned: set<string>)
    | Done

  datatype State = State(
    heap: seq<Job>,
    jobs: map<string, nat>,
    records: map<string, nat>,
    reading: map<string, nat>,
    gate: int,
    restoredUnits: int,
    limit: nat,
    retryAttempts: nat,
    disk: map<string, Record>,
    files: map<Path, nat>,
    cacheLocked: bool,
    serving: bool,
    stopped: bool,
    threads: seq<Pc>
  )

  datatype Resource =
    | Token(restored: bool)
    | ReadOf(key: string)
    | WorkerOf(job: nat)
    | CloserOf(job: nat)
    | DormantJob(job: nat)
    | CacheLock
    | Startup

  function ReadBy(key: string, origin: Origin): set<Resource> {
    if origin.FromResolve? then {ReadOf(key)} else {}
  }

  function Dormants(pending: set<nat>): set<Resource> {
    set j | j in pending :: DormantJob(j)
  }

  function OwnedNext(next: Next): set<Resource> {
    match next
    case ToEndRead(key) => {ReadOf(key)}
    case ToResume(pending) => Dormants(pending) + {Startup}
    case _ => {}
  }

  function Onward(next: Next): Pc {
    match next
    case ToDone => Done
    case ToEndRead(key) => EndingRead(key)
    case ToEndMonitor(job) => EndingMonitor(job)
    case ToResume(pending) => Resuming(pending)
  }

  /** The mark under which `finishJob` was called. */
  function Mark(j: nat, closer: Closer): Resource {
    match closer case ByWorker => WorkerOf(j) case ByCanceller => CloserOf(j) case ByResume => DormantJob(j)
  }

  /** What each goroutine owns. A slot taken from the gate is a token until a job records it. */
  function Owned(pc: Pc): set<Resource> {
    match pc
    case Ensuring(key, _, _, origin) => ReadBy(key, origin)
    case FirstPersist(job, key, origin) => ReadBy(key, origin) + {WorkerOf(job)}
    case Launching(job, key, origin) => ReadBy(key, origin) + {WorkerOf(job)}
    case AwaitingReady(_, key, origin) => ReadBy(key, origin)
    case AwaitingData(_, key) => {ReadOf(key)}
    case Reading(key) => {ReadOf(key)}
    case EndingRead(key) => {ReadOf(key)}
    case Acquiring(job) => {WorkerOf(job)}
    case Acquired(job) => {WorkerOf(job), Token(false)}
    case GivingBack(job) => {WorkerOf(job), Token(false)}
    case PersistQueued(job) => {WorkerOf(job)}
    case Announcing(job) => {WorkerOf(job)}
    case Announced(job) => {WorkerOf(job)}
    case Enqueueing(job, _, _) => {WorkerOf(job)}
    case Enqueued(job, _, _) => {WorkerOf(job)}
    case BackingOff(job, _, _) => {WorkerOf(job)}
    case Sleeping(job, _, _) => {WorkerOf(job)}
    case Polling(job) => {WorkerOf(job)}
    case PersistPoll(job) => {WorkerOf(job)}
    case RetryPersist(job) => {WorkerOf(job)}
    case EndingMonitor(_) => {}
    case Finishing(job, _, _, _, closer, next) => OwnedNext(next) + {Mark(job, closer)}
    case Returning(_, _, token, next) => OwnedNext(next) + (if token.Some? then {Token(token.value)} else {})
    case FinishAnnounce(_, _, next) => OwnedNext(next)
    case FinishPersist(_, _, next) => OwnedNext(next)
    case Unlisting(_, _, next) => OwnedNext(next)
    case Cancelling(_) => {}
    case CancellingRemotely(_) => {}
    case Resuming(pending) => Dormants(pending) + {Startup}
    case RestoringSlot(job, pending) => Dormants(pending) + {DormantJob(job), Startup, Token(true)}
    case RestoringMonitor(job, pending) => Dormants(pending) + {DormantJob(job), Startup}
    case Evicting(_, _) => {CacheLock}
    case Done => {}
  }

  function Owns(pc: Pc, r: Resource): nat {
    if r in Owned(pc) then 1 else 0
  }

  /** Slots recorded in jobs, by where they came from. */
  function HoldsSlot(job: Job, restored: bool): nat {
    if job.slotHeld && job.restoredSlot == restored then 1 else 0
  }

  function Held(s: State, r: Resource): nat {
    Total(s.threads, Owns, r)
  }

  /** Gate units and read counts that must be in the hands of goroutines, according to the shared state. */
  function Recorded(s: State, r: Resource): int {
    match r
    case Token(false) => s.gate - s.restoredUnits - Total(s.heap, HoldsSlot, false)
    case Token(true) => s.restoredUnits - Total(s.heap, HoldsSlot, true)
    case ReadOf(key) => Count(s.reading, key)
    case WorkerOf(j) => if j < |s.heap| && s.heap[j].worker then 1 else 0
    case CloserOf(j) => if j < |s.heap| then s.heap[j].closers else 0
    case DormantJob(j) => if j < |s.heap| && s.heap[j].dormant then 1 else 0
    case CacheLock => if s.cacheLocked then 1 else 0
    case Startup => if s.serving then 0 else 1
  }

  // Small moves.

  predicate At(s: State, i: nat) {
    i < |s.threads|
  }

  predicate On(s: State, j: nat) {
    j < |s.heap|
  }

  function Moved(s: State, i: nat, pc: Pc): State
    requires At(s, i)
  {
    s.(threads := s.threads[i := pc])
  }

  function Spawned(s: State, pc: Pc): State {
    s.(threads := s.threads + [pc])
  }

  function WithJob(s: State, j: nat, job: Job): State
    requires On(s, j)
  {
    s.(heap := s.heap[j := job])
  }

  /** A record write that may fail; a record is replaced as a whole or not at all. */
  function Written(s: State, j: nat, ok: bool): State
    requires On(s, j)
  {
    if ok then s.(disk := s.disk[s.heap[j].key := Persisted(s.heap[j])]) else s
  }

  /** Where a caller of `ensureDownload` goes when it gives up. */
  function Leave(key: string, origin: Origin): Next {
    if origin.FromResolve? then ToEndRead(key) else ToDone
  }

  function FailedBy(j: nat, key: string, fault: Fault, next: Next): Pc {
    Finishing(j, key, Failed, Some(fault), ByWorker, next)
  }

  // resolve and retry

  /** The section of `resolve` under cacheMu: a cached file is opened, anything else is left to `ensureDownload`;
      either way the key is being read from here on. */
  function ResolveStep(s: State, key: string, trackId: string, size: nat, ok: bool): State {
    var begun := s.(reading := s.reading[key := Count(s.reading, key) + 1]);
    if FinalPath(key, trackId) in s.files then
      if s.files[FinalPath(key, trackId)] != size then s
      else if key in s.records && On(s, s.records[key]) then
        var j := s.records[key];
        Spawned(Written(WithJob(begun, j, MarkedCached(s.heap[j], size)), j, ok), Reading(key))
      else
        var j := |s.heap|;
        var grown := begun.(heap := s.heap + [CachedJob(key, trackId, size)], records := s.records[key := j]);
        Spawned(Written(grown, j, ok), Reading(key))
    else Spawned(begun, Ensuring(key, trackId, size, FromResolve))
  }

  function EnsureStep(s: State, i: nat, key: string, trackId: string, size: nat, origin: Origin): State
    requires At(s, i)
  {
    if key in s.jobs then Moved(s, i, AwaitingReady(s.jobs[key], key, origin))
    else
      var j := |s.heap|;
      Moved(s, i, FirstPersist(j, key, origin)).(
        heap := s.heap + [NewJob(key, trackId, size)], jobs := s.jobs[key := j], records := s.records[key := j])
  }

  function FirstPersistStep(s: State, i: nat, j: nat, key: string, origin: Origin, ok: bool): State
    requires At(s, i) && On(s, j)
  {
    if ok then Moved(Written(s, j, true), i, Launching(j, key, origin))
    else Moved(s, i, FailedBy(j, key, RecordNotWritten, Leave(key, origin)))
  }

  /** `startEnqueue` hands the job over to a goroutine of its own. */
  function LaunchStep(s: State, i: nat, j: nat, key: string, origin: Origin): State
    requires At(s, i)
  {
    Spawned(Moved(s, i, AwaitingReady(j, key, origin)), Acquiring(j))
  }

  /** `waitUntilEnqueued`: the job is ready, with or without an error, or the caller's context has ended. */
  function ReadyStep(s: State, i: nat, j: nat, key: string, origin: Origin, ready: bool): State
    requires At(s, i) && On(s, j)
  {
    if !ready || s.heap[j].err.Some? || origin.FromRetry? then Moved(s, i, Onward(Leave(key, origin)))
    else Moved(s, i, AwaitingData(j, key))
  }

  function EndReadStep(s: State, i: nat, key: string): State
    requires At(s, i)
  {
    Moved(s, i, Done).(
      reading := if Count(s.reading, key) <= 1 then s.reading - {key} else s.reading[key := s.reading[key] - 1])
  }

  // startEnqueue's goroutine

  /** The goroutine takes a slot, or ends because the job's context has. */
  function AcquireStep(s: State, i: nat, j: nat, ok: bool): State
    requires At(s, i) && On(s, j)
  {
    if ok then Moved(s, i, Acquired(j)).(gate := s.gate + 1) else WorkerEnds(s, i, j, Done)
  }

  function WorkerEnds(s: State, i: nat, j: nat, next: Pc): State
    requires At(s, i) && On(s, j)
  {
    WithJob(Moved(s, i, next), j, s.heap[j].(worker := false))
  }

  function RecordSlotStep(s: State, i: nat, j: nat): State
    requires At(s, i) && On(s, j)
  {
    if s.heap[j].finished then Moved(s, i, GivingBack(j))
    else WithJob(Moved(s, i, PersistQueued(j)), j, SlotRecorded(s.heap[j]))
  }

  /** `release` decrements only a positive count. */
  function GateReleased(s: State, restored: bool): State {
    if s.gate > 0 then
      s.(gate := s.gate - 1, restoredUnits := if restored then s.restoredUnits - 1 else s.restoredUnits)
    else s
  }

  function GiveBackStep(s: State, i: nat, j: nat): State
    requires At(s, i) && On(s, j)
  {
    GateReleased(WorkerEnds(s, i, j, Done), false)
  }

  /** With no attempts allowed the retry loop falls through at once. */
  function PersistQueuedStep(s: State, i: nat, j: nat, ok: bool): State
    requires At(s, i) && On(s, j)
  {
    Moved(Written(s, j, ok), i, if s.retryAttempts == 0 then Announcing(j) else Enqueueing(j, 1, true))
  }

  /** Where an enqueue call's error leads: the goroutine ends, or the monitor does. */
  function AfterEnqueueError(j: nat, first: bool): Next {
    if first then ToDone else ToEndMonitor(j)
  }

  /** What an enqueue call leaves in the job: a batch, or a back-off unless this was the last attempt. */
  function Answered(job: Job, attempts: nat, attempt: nat, answer: Answer): Job {
    var counted := job.(enqueues := job.enqueues + 1);
    match answer
    case Accepted(batchId, transferId) => BatchStored(counted, batchId, transferId)
    case Temporary(fault) => if attempt >= attempts then counted else BackedOff(counted, fault)
    case Permanent(_) => counted
  }

  function AfterAnswer(j: nat, key: string, attempts: nat, attempt: nat, first: bool, answer: Answer): Pc {
    match answer
    case Accepted(_, _) => Enqueued(j, attempt, first)
    case Temporary(fault) =>
      if attempt >= attempts then FailedBy(j, key, fault, AfterEnqueueError(j, first))
      else BackingOff(j, attempt, first)
    case Permanent(fault) => FailedBy(j, key, fault, AfterEnqueueError(j, first))
  }

  function EnqueueStep(s: State, i: nat, j: nat, attempt: nat, first: bool, answer: Answer): State
    requires At(s, i) && On(s, j)
  {
    var job := s.heap[j];
    WithJob(Moved(s, i, AfterAnswer(j, job.key, s.retryAttempts, attempt, first, answer)), j,
            Answered(job, s.retryAttempts, attempt, answer))
  }

  /** A failed record write is an error of the enqueue call, and never a temporary one. */
  function PersistEnqueuedStep(s: State, i: nat, j: nat, first: bool, ok: bool): State
    requires At(s, i) && On(s, j)
  {
    if ok then Moved(Written(s, j, true), i, if first then Announcing(j) else Polling(j))
    else Moved(s, i, FailedBy(j, s.heap[j].key, RecordNotWritten, AfterEnqueueError(j, first)))
  }

  function PersistBackoffStep(s: State, i: nat, j: nat, attempt: nat, first: bool, ok: bool): State
    requires At(s, i) && On(s, j)
  {
    Moved(Written(s, j, ok), i, Sleeping(j, attempt, first))
  }

  function WakeStep(s: State, i: nat, j: nat, attempt: nat, first: bool, ok: bool): State
    requires At(s, i) && On(s, j)
  {
    if ok then WithJob(Moved(s, i, Enqueueing(j, attempt + 1, first)), j, Awoken(s.heap[j]))
    else Moved(s, i, FailedBy(j, s.heap[j].key, ContextEnded, AfterEnqueueError(j, first)))
  }

  function AnnounceStep(s: State, i: nat, j: nat): State
    requires At(s, i) && On(s, j)
  {
    WithJob(Moved(s, i, Announced(j)), j, s.heap[j].(ready := true))
  }

  /** `beginMonitoring` and the monitor goroutine, which goes on as the same worker. */
  function BeginMonitorStep(s: State, i: nat, j: nat): State
    requires At(s, i) && On(s, j)
  {
    if s.heap[j].finished || s.heap[j].monitoring then WorkerEnds(s, i, j, Done)
    else WithJob(Moved(s, i, Polling(j)), j, s.heap[j].(monitoring := true))
  }

  // monitorDownload

  /** One turn of the loop. A retryable failure becomes a plain one when the retries are used up. */
  function PollStep(s: State, i: nat, j: nat, result: PollResult): State
    requires At(s, i) && On(s, j)
  {
    var job := s.heap[j];
    match result
    case LoopEnds => WorkerEnds(s, i, j, EndingMonitor(j))
    case Progress(transferId, bytes, phase, persist) =>
      WithJob(Moved(s, i, if persist then PersistPoll(j) else Polling(j)), j,
              TransferUpdated(job, transferId, bytes, phase))
    case Succeeded => Moved(s, i, Finishing(j, job.key, Cached, None, ByWorker, ToEndMonitor(j)))
    case Broken(fault) => Moved(s, i, FailedBy(j, job.key, fault, ToEndMonitor(j)))
    case TransferFailed(cancelled, fault) =>
      Moved(s, i, Finishing(j, job.key, if cancelled then Cancelled else Failed, Some(fault), ByWorker,
                            ToEndMonitor(j)))
    case Retryable(fault) =>
      if MayRetry(job, s.retryAttempts) then WithJob(Moved(s, i, RetryPersist(j)), j, RetryPrepared(job, fault))
      else Moved(s, i, FailedBy(j, job.key, fault, ToEndMonitor(j)))
  }

  /** The record write after progress (back to polling) or after preparing a retry (on to a new enqueue). */
  function PersistInMonitorStep(s: State, i: nat, j: nat, next: Pc, ok: bool): State
    requires At(s, i) && On(s, j)
  {
    if ok then Moved(Written(s, j, true), i, next)
    else Moved(s, i, FailedBy(j, s.heap[j].key, RecordNotWritten, ToEndMonitor(j)))
  }

  function EndMonitorStep(s: State, i: nat, j: nat): State
    requires At(s, i) && On(s, j)
  {
    WithJob(Moved(s, i, Done), j, s.heap[j].(monitoring := false))
  }

  // finishJob

  function ClosedBy(job: Job, closer: Closer): Job {
    match closer
    case ByWorker => job.(worker := false)
    case ByCanceller => job.(closers := if job.closers > 0 then job.closers - 1 else 0)
    case ByResume => job.(dormant := false)
  }

  function FinishStep(s: State, i: nat, j: nat, key: string, state: DownloadState, err: Option<Fault>,
                      closer: Closer, next: Next): State
    requires At(s, i) && On(s, j)
  {
    var job := s.heap[j];
    var closed := ClosedBy(FinishedJob(job, state, err), closer);
    if job.finished then WithJob(Moved(s, i, Onward(next)), j, closed)
    else
      var token := if job.slotHeld then Some(job.restoredSlot) else None;
      WithJob(Moved(s, i, Returning(j, key, token, next)), j, closed)
  }

  /** Cancels the job's context and gives the slot back, if the section found one. */
  function ReturnStep(s: State, i: nat, j: nat, key: string, token: Option<bool>, next: Next): State
    requires At(s, i) && On(s, j)
  {
    var on := WithJob(Moved(s, i, FinishAnnounce(j, key, next)), j, s.heap[j].(cancelled := true));
    if token.Some? then GateReleased(on, token.value) else on
  }

  function FinishAnnounceStep(s: State, i: nat, j: nat, key: string, next: Next): State
    requires At(s, i) && On(s, j)
  {
    WithJob(Moved(s, i, FinishPersist(j, key, next)), j, s.heap[j].(ready := true))
  }

  function FinishPersistStep(s: State, i: nat, j: nat, key: string, next: Next, ok: bool): State
    requires At(s, i) && On(s, j)
  {
    Moved(Written(s, j, ok), i, Unlisting(j, key, next))
  }

  function UnlistStep(s: State, i: nat, j: nat, key: string, next: Next): State
    requires At(s, i)
  {
    var on := Moved(s, i, Onward(next));
    if key in s.jobs && s.jobs[key] == j then on.(jobs := s.jobs - {key}) else on
  }

  // cancel

  /** Without a transfer id the job's context is cancelled, if there is one yet, and the job is finished. */
  function CancelContextStep(s: State, i: nat, j: nat, known: bool): State
    requires At(s, i) && On(s, j)
  {
    var job := s.heap[j];
    WithJob(Moved(s, i, Finishing(j, job.key, Cancelled, Some(CancelledByUser), ByCanceller, ToDone)), j,
            job.(cancelled := job.cancelled || known, closers := job.closers + 1))
  }

  /** With one the server is asked first. */
  function CancelRemotelyStep(s: State, i: nat, j: nat, ok: bool): State
    requires At(s, i) && On(s, j)
  {
    var job := s.heap[j];
    if ok then
      WithJob(Moved(s, i, Finishing(j, job.key, Cancelled, Some(CancelledByUser), ByCanceller, ToDone)), j,
              job.(closers := job.closers + 1))
    else Moved(s, i, Done)
  }

  predicate Cancellable(state: DownloadState) {
    state == Waiting || state == Queued || state == Downloading
  }

  predicate Retriable(state: DownloadState) {
    state == Failed || state == Cancelled || state == Evicted
  }

  // resume

  /** One restored job: back to the queue, or failed for lack of a batch id, or back to its monitor with a slot. */
  function ResumeStep(s: State, i: nat, pending: set<nat>, j: nat): State
    requires At(s, i) && On(s, j)
  {
    var rest := pending - {j};
    var job := s.heap[j];
    if job.download.state == Waiting && job.batchId == "" then
      WithJob(Spawned(Moved(s, i, Resuming(rest)), Acquiring(j)), j, job.(dormant := false, worker := true))
    else if job.batchId == "" then
      Moved(s, i, Finishing(j, job.key, Failed, Some(MissingBatch), ByResume, ToResume(rest)))
    else
      Moved(s, i, RestoringSlot(j, rest)).(gate := s.gate + 1, restoredUnits := s.restoredUnits + 1)
  }

  function RecordRestoredStep(s: State, i: nat, j: nat, pending: set<nat>): State
    requires At(s, i) && On(s, j)
  {
    WithJob(Moved(s, i, RestoringMonitor(j, pending)), j, s.heap[j].(slotHeld := true, restoredSlot := true))
  }

  function RestoreMonitorStep(s: State, i: nat, j: nat, pending: set<nat>): State
    requires At(s, i) && On(s, j)
  {
    var job := s.heap[j];
    var on := Moved(s, i, Resuming(pending));
    if job.finished || job.monitoring then WithJob(on, j, job.(dormant := false))
    else WithJob(Spawned(on, Polling(j)), j, job.(monitoring := true, worker := true, dormant := false))
  }

  // evict and the dashboard listing

  function SnapshotStep(s: State, j: nat, ok: bool): State
    requires On(s, j)
  {
    var seen := WithJob(s, j, Snapshot(s.heap[j], s.files));
    if seen.heap[j] != s.heap[j] then Written(seen, j, ok) else seen
  }

  /** What `evict` collects: cached, nobody reads it or is resolving it, and its track is not pinned. */
  predicate Evictable(s: State, j: nat, pinned: set<string>) {
    && On(s, j) && s.heap[j].key in s.records && s.records[s.heap[j].key] == j
    && s.heap[j].download.state == Cached
    && Count(s.reading, s.heap[j].key) == 0
    && s.heap[j].trackId !in pinned
  }

  function EvictStep(s: State, i: nat, candidates: seq<nat>, pinned: set<string>, ok: bool): State
    requires At(s, i) && candidates != [] && On(s, candidates[0])
  {
    var j := candidates[0];
    var job := s.heap[j];
    var on := WithJob(Moved(s, i, Evicting(candidates[1..], pinned)), j, MarkedEvicted(job));
    Written(on.(files := s.files - {FinalPath(job.key, job.trackId)}), j, ok)
  }

  function EvictEnds(s: State, i: nat): State
    requires At(s, i)
  {
    Moved(s, i, Done).(cacheLocked := false)
  }

  // One goroutine moves.

  datatype Answer = Accepted(batchId: string, transferId: string) | Temporary(fault: Fault) | Permanent(fault: Fault)

  datatype PollResult =
    | LoopEnds
    | Progress(transferId: string, bytes: nat, phase: Phase, persist: bool)
    | Succeeded
    | Broken(fault: Fault)
    | TransferFailed(cancelled: bool, fault: Fault)
    | Retryable(fault: Fault)

  /** What the world answers a goroutine: whether a write, wait or request succeeds, what the server says to an
      enqueue call or a poll, and which element of an unordered collection comes next. */
  datatype Input = Input(ok: bool, answer: Answer, poll: PollResult, pick: nat)

  /** The job a goroutine is about to touch exists; the invariant shows it always does. */
  predicate JobKnown(s: State, pc: Pc) {
    match pc
    case Ensuring(_, _, _, _) => true
    case Reading(_) => true
    case EndingRead(_) => true
    case Resuming(_) => true
    case Evicting(candidates, _) => candidates != [] ==> On(s, candidates[0])
    case Done => true
    case _ => On(s, pc.job)
  }

  predicate CanMove(s: State, i: nat, input: Input) {
    At(s, i) && JobKnown(s, s.threads[i]) &&
    match s.threads[i]
    case Acquiring(j) => if input.ok then s.gate < s.limit else s.stopped || s.heap[j].cancelled
    case AwaitingReady(j, _, _) => input.ok ==> s.heap[j].ready
    case Enqueueing(_, _, _) => input.answer.Accepted? ==> input.answer.batchId != ""
    case Polling(j) => input.poll.LoopEnds? ==> s.stopped || s.heap[j].finished
    case Resuming(pending) => pending == {} || (input.pick in pending && On(s, input.pick))
    case Done => false
    case _ => true
  }

  function Move(s: State, i: nat, input: Input): State
    requires CanMove(s, i, input)
  {
    match s.threads[i]
    case Ensuring(key, trackId, size, origin) => EnsureStep(s, i, key, trackId, size, origin)
    case FirstPersist(j, key, origin) => FirstPersistStep(s, i, j, key, origin, input.ok)
    case Launching(j, key, origin) => LaunchStep(s, i, j, key, origin)
    case AwaitingReady(j, key, origin) => ReadyStep(s, i, j, key, origin, input.ok)
    case AwaitingData(_, key) => Moved(s, i, if input.ok then Reading(key) else EndingRead(key))
    case Reading(key) => EndReadStep(s, i, key)
    case EndingRead(key) => EndReadStep(s, i, key)
    case Acquiring(j) => AcquireStep(s, i, j, input.ok)
    case Acquired(j) => RecordSlotStep(s, i, j)
    case GivingBack(j) => GiveBackStep(s, i, j)
    case PersistQueued(j) => PersistQueuedStep(s, i, j, input.ok)
    case Announcing(j) => AnnounceStep(s, i, j)
    case Announced(j) => BeginMonitorStep(s, i, j)
    case Enqueueing(j, attempt, first) => EnqueueStep(s, i, j, attempt, first, input.answer)
    case Enqueued(j, _, first) => PersistEnqueuedStep(s, i, j, first, input.ok)
    case BackingOff(j, attempt, first) => PersistBackoffStep(s, i, j, attempt, first, input.ok)
    case Sleeping(j, attempt, first) => WakeStep(s, i, j, attempt, first, input.ok)
    case Polling(j) => PollStep(s, i, j, input.poll)
    case PersistPoll(j) => PersistInMonitorStep(s, i, j, Polling(j), input.ok)
    case RetryPersist(j) => PersistInMonitorStep(s, i, j, Enqueueing(j, 1, false), input.ok)
    case EndingMonitor(j) => EndMonitorStep(s, i, j)
    case Finishing(j, key, state, err, closer, next) => FinishStep(s, i, j, key, state, err, closer, next)
    case Returning(j, key, token, next) => ReturnStep(s, i, j, key, token, next)
    case FinishAnnounce(j, key, next) => FinishAnnounceStep(s, i, j, key, next)
    case FinishPersist(j, key, next) => FinishPersistStep(s, i, j, key, next, input.ok)
    case Unlisting(j, key, next) => UnlistStep(s, i, j, key, next)
    case Cancelling(j) => CancelContextStep(s, i, j, input.ok)
    case CancellingRemotely(j) => CancelRemotelyStep(s, i, j, input.ok)
    case Resuming(pending) =>
      if pending == {} then Moved(s, i, Done).(serving := true) else ResumeStep(s, i, pending, input.pick)
    case RestoringSlot(j, pending) => RecordRestoredStep(s, i, j, pending)
    case RestoringMonitor(j, pending) => RestoreMonitorStep(s, i, j, pending)
    case Evicting(candidates, pinned) =>
      if candidates == [] || !input.ok then EvictEnds(s, i)
      else EvictStep(s, i, candidates, pinned, input.answer.Accepted?)
  }

  // Requests from outside, and the world.

  datatype Action =
    | Go(i: nat, input: Input)
    | Resolve(key: string, trackId: string, size: nat, ok: bool)
    | Retry(key: string)
    | Cancel(key: string)
    | List(j: nat, ok: bool)
    | Evict(candidates: seq<nat>, pinned: set<string>)
    | FilesChange(files: map<Path, nat>)
    | Stop

  function RetryStep(s: State, job: Job): State {
    Spawned(s, Ensuring(job.key, job.trackId, job.download.totalBytes, FromRetry))
  }

  function CancelStep(s: State, j: nat, job: Job): State {
    Spawned(s, if job.transferId == "" then Cancelling(j) else CancellingRemotely(j))
  }

  predicate Enabled(s: State, a: Action) {
    match a
    case Go(i, input) => CanMove(s, i, input)
    case Resolve(_, _, _, _) => s.serving && !s.cacheLocked
    case Retry(key) => s.serving && key in s.records && On(s, s.records[key])
                       && Retriable(s.heap[s.records[key]].download.state)
    case Cancel(key) => s.serving && key in s.records && On(s, s.records[key])
                        && Cancellable(s.heap[s.records[key]].download.state)
    case List(j, _) => On(s, j)
    case Evict(candidates, pinned) => !s.cacheLocked && (forall j :: j in candidates ==> Evictable(s, j, pinned))
    case FilesChange(_) => true
    case Stop => true
  }

  function Apply(s: State, a: Action): State
    requires Enabled(s, a)
  {
    match a
    case Go(i, input) => Move(s, i, input)
    case Resolve(key, trackId, size, ok) => ResolveStep(s, key, trackId, size, ok)
    case Retry(key) => RetryStep(s, s.heap[s.records[key]])
    case Cancel(key) => CancelStep(s, s.records[key], s.heap[s.records[key]])
    case List(j, ok) => SnapshotStep(s, j, ok)
    case Evict(candidates, pinned) => Spawned(s.(cacheLocked := true), Evicting(candidates, pinned))
    case FilesChange(files) => s.(files := files)
    case Stop => s.(stopped := true)
  }
}
