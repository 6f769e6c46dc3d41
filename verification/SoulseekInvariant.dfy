/** What holds in every reachable state of the Soulseek machine. */
module SoulseekInvariant {
  import opened Common
  import opened Counting
  import opened SoulseekJobs
  import opened SoulseekMachine

  // The budget of enqueue calls.

  /** `left` batches of `attempts` calls each. */
  function Quota(left: nat, attempts: nat): nat {
    if left == 0 then 0 else attempts + Quota(left - 1, attempts)
  }

  /** Automatic retries a job has left. */
  function RetriesLeft(retryCount: nat, attempts: nat): nat {
    if retryCount + 1 < attempts then attempts - 1 - retryCount else 0
  }

  /** Enqueue calls a goroutine may still make for its job: what is left of the running call sequence, and a full
      sequence for each automatic retry. Every enqueue call lowers it. */
  function Budget(pc: Pc, retryCount: nat, attempts: nat): nat {
    var later := Quota(RetriesLeft(retryCount, attempts), attempts);
    match pc
    case FirstPersist(_, _, _) => later + attempts
    case Launching(_, _, _) => later + attempts
    case Acquiring(_) => later + attempts
    case Acquired(_) => later + attempts
    case PersistQueued(_) => later + attempts
    case RetryPersist(_) => later + attempts
    case Enqueueing(_, attempt, _) => if attempt <= attempts then later + (attempts - attempt) + 1 else later
    case Enqueued(_, attempt, _) => if attempt <= attempts then later + (attempts - attempt) else later
    case BackingOff(_, attempt, _) => if attempt <= attempts then later + (attempts - attempt) else later
    case Sleeping(_, attempt, _) => if attempt <= attempts then later + (attempts - attempt) else later
    case Announcing(_) => later
    case Announced(_) => later
    case Polling(_) => later
    case PersistPoll(_) => later
    case _ => 0
  }

  lemma {:induction false} QuotaIsProduct(left: nat, attempts: nat)
    ensures Quota(left, attempts) == left * attempts
  {
    if left > 0 {
      QuotaIsProduct(left - 1, attempts);
    }
  }

  lemma {:induction false} QuotaMonotone(few: nat, many: nat, attempts: nat)
    requires few <= many
    ensures Quota(few, attempts) <= Quota(many, attempts)
  {
    if few < many {
      QuotaMonotone(few, many - 1, attempts);
    }
  }

  /** A fresh call sequence and all later retries together fit into the total. */
  lemma QuotaFits(retryCount: nat, attempts: nat)
    ensures Quota(RetriesLeft(retryCount, attempts), attempts) + attempts <= Quota(attempts, attempts)
  {
    if attempts > 0 {
      QuotaMonotone(RetriesLeft(retryCount, attempts), attempts - 1, attempts);
    }
  }

  // Jobs.

  /** What the restart loop can make something of: a job that never reached the server, or one with a batch there. */
  predicate Resumable(job: Job) {
    if job.batchId == "" then job.download.state == Waiting
    else job.download.state == Queued || job.download.state == Downloading
  }

  /** What holds of job `j` of a coordinator that lists `jobs` as live. */
  predicate JobFits(jobs: map<string, nat>, stopped: bool, attempts: nat, j: nat, job: Job) {
    && job.doneCloses == (if job.finished then 1 else 0)
    && (job.err.Some? ==> job.finished)
    && (job.finished ==> !job.slotHeld && !job.dormant)
    && (!job.finished ==> job.key in jobs && jobs[job.key] == j)
    && (!job.finished ==> job.worker || job.closers > 0 || job.dormant || stopped)
    && (job.cancelled && !job.finished ==> job.closers > 0)
    && (job.dormant ==> !job.worker && !job.monitoring && job.closers == 0 && job.enqueues == 0 && Resumable(job))
    && (job.download.state == Waiting ==> job.batchId == "")
    && job.enqueues <= Quota(attempts, attempts)
  }

  predicate JobSound(s: State, j: nat)
    requires On(s, j)
  {
    JobFits(s.jobs, s.stopped, s.retryAttempts, j, s.heap[j])
  }

  predicate RecordSound(record: Record, key: string) {
    record.key == key && (record.download.state == Waiting ==> record.batchId == "")
  }

  ghost predicate TablesSound(s: State) {
    && (forall key :: key in s.jobs ==>
          On(s, s.jobs[key]) && s.heap[s.jobs[key]].key == key && key in s.records && s.records[key] == s.jobs[key])
    && (forall key :: key in s.records ==> On(s, s.records[key]) && s.heap[s.records[key]].key == key)
    && (forall key :: key in s.disk ==> RecordSound(s.disk[key], key))
    && Positive(s.reading)
    && 0 <= s.restoredUnits && s.gate - s.restoredUnits <= s.limit
  }

  // Program counters.

  predicate BeforeSlot(pc: Pc) {
    pc.FirstPersist? || pc.Launching? || pc.Acquiring? || pc.Acquired?
  }

  predicate BeforeBatch(pc: Pc) {
    BeforeSlot(pc) || pc.PersistQueued? || pc.Enqueueing? || pc.BackingOff? || pc.Sleeping? || pc.RetryPersist?
  }

  predicate BeforeMonitor(pc: Pc) {
    || BeforeSlot(pc) || pc.PersistQueued? || pc.Announcing? || pc.Announced?
    || ((pc.Enqueueing? || pc.Enqueued? || pc.BackingOff? || pc.Sleeping?) && pc.first)
  }

  predicate AfterFinish(pc: Pc) {
    pc.Returning? || pc.FinishAnnounce? || pc.FinishPersist? || pc.Unlisting?
  }

  /** Only the restart loop closes jobs as such, and only for jobs it has taken off its list. */
  predicate Continuation(j: nat, closer: Closer, next: Next) {
    if closer.ByResume? then next.ToResume? && j !in next.pending else !next.ToResume?
  }

  ghost predicate AllDormant(s: State, pending: set<nat>) {
    forall j :: j in pending ==> On(s, j) && s.heap[j].dormant && !s.heap[j].slotHeld
  }

  ghost predicate NextSound(s: State, next: Next) {
    match next
    case ToEndMonitor(j) => On(s, j)
    case ToResume(pending) => AllDormant(s, pending)
    case _ => true
  }

  /** The facts about a job that only its own goroutine relies on. */
  predicate WorkFits(attempts: nat, pc: Pc, job: Job) {
    && (BeforeSlot(pc) ==> !job.slotHeld)
    && (BeforeBatch(pc) ==> job.batchId == "")
    && (BeforeMonitor(pc) ==> !job.monitoring)
    && (pc.Enqueueing? ==> 1 <= pc.attempt <= attempts)
    && (pc.Enqueued? ==> pc.attempt <= attempts)
    && (pc.BackingOff? || pc.Sleeping? ==> pc.attempt < attempts)
    && (pc.RetryPersist? ==> attempts > 0)
    && job.enqueues + Budget(pc, job.retryCount, attempts) <= Quota(attempts, attempts)
  }

  predicate WorkSound(s: State, pc: Pc, j: nat)
    requires On(s, j)
  {
    WorkFits(s.retryAttempts, pc, s.heap[j])
  }

  /** The program points of a job's own goroutine. */
  predicate Working(pc: Pc) {
    || BeforeSlot(pc) || pc.PersistQueued? || pc.Announcing? || pc.Announced? || pc.Enqueueing? || pc.Enqueued?
    || pc.BackingOff? || pc.Sleeping? || pc.Polling? || pc.PersistPoll? || pc.RetryPersist?
  }

  ghost predicate ThreadSound(s: State, pc: Pc) {
    if Working(pc) then
      On(s, pc.job) && WorkSound(s, pc, pc.job) && (pc.FirstPersist? || pc.Launching? ==> pc.key == s.heap[pc.job].key)
    else RestSound(s, pc)
  }

  ghost predicate RestSound(s: State, pc: Pc) {
    match pc
    case Ensuring(_, _, _, _) => true
    case Reading(_) => true
    case EndingRead(_) => true
    case Done => true
    case Evicting(candidates, pinned) =>
      forall j :: j in candidates ==>
        On(s, j) && Count(s.reading, s.heap[j].key) == 0 && !s.heap[j].dormant && s.heap[j].trackId !in pinned
    case Resuming(pending) => AllDormant(s, pending)
    case RestoringSlot(j, pending) =>
      On(s, j) && j !in pending && s.heap[j].dormant && !s.heap[j].slotHeld && AllDormant(s, pending)
    case RestoringMonitor(j, pending) =>
      On(s, j) && j !in pending && s.heap[j].dormant && AllDormant(s, pending)
    case Finishing(j, key, state, _, closer, next) =>
      && On(s, j) && s.heap[j].key == key && NextSound(s, next) && state != Waiting
      && Continuation(j, closer, next)
    case GivingBack(j) => On(s, j) && s.heap[j].finished
    case Returning(j, key, _, next) =>
      On(s, j) && s.heap[j].key == key && s.heap[j].finished && NextSound(s, next)
    case FinishAnnounce(j, key, next) => On(s, j) && s.heap[j].key == key && s.heap[j].finished && NextSound(s, next)
    case FinishPersist(j, key, next) => On(s, j) && s.heap[j].key == key && s.heap[j].finished && NextSound(s, next)
    case Unlisting(j, key, next) => On(s, j) && s.heap[j].key == key && s.heap[j].finished && NextSound(s, next)
    case Cancelling(j) => On(s, j) && !s.heap[j].dormant
    case CancellingRemotely(j) => On(s, j) && !s.heap[j].dormant
    case AwaitingReady(j, _, _) => On(s, j)
    case AwaitingData(j, _) => On(s, j)
    case EndingMonitor(j) => On(s, j)
    case _ => true
  }

  /** Conservation: gate units, read counts, and the marks for "somebody works for, cancels, or still has to resume
      this job" all equal the number of their owners. */
  ghost predicate Conserved(s: State) {
    forall r :: Recorded(s, r) == Held(s, r)
  }

  ghost predicate Sound(s: State) {
    && TablesSound(s)
    && (forall j :: 0 <= j < |s.heap| ==> JobSound(s, j))
    && (forall i :: 0 <= i < |s.threads| ==> ThreadSound(s, s.threads[i]))
  }

  ghost predicate Inv(s: State) {
    Conserved(s) && Sound(s)
  }
}
