/** What a finished Soulseek job keeps for good.

    No step, by whatever goroutine and however late, changes whether a finished job is finished, its error, or how
    often its done channel was closed. The state it shows does change: the effect of a step says when. */
module SoulseekAbsorption {
  import opened Common
  import opened Counting
  import opened SoulseekJobs
  import opened SoulseekMachine
  import opened SoulseekInvariant
  import opened SoulseekConservation
  import opened SoulseekSafety
  import opened SoulseekRestart

  predicate Over(state: DownloadState) {
    state == Cached || state == Failed || state == Cancelled || state == Evicted
  }

  /** Finished, and shown as such. */
  predicate Closed(job: Job) {
    job.finished && Over(job.download.state)
  }

  /** What a step may do to the state that a closed job shows: nothing, show it as under way again, start a new job
      for its key, or enter a finished one for a file that was found. */
  datatype Effect = Quiet | Reopens(job: nat) | Starts(key: string) | Enters(key: string)

  /** Whether an answer puts the job back to "queued" or "waiting". */
  predicate Reopening(attempts: nat, attempt: nat, answer: Answer) {
    answer.Accepted? || (answer.Temporary? && attempt < attempts)
  }

  /** An enqueue call that is still out, or sleeping between two attempts, reopens its job without asking whether it
      has been finished. A resolve or a retry starts a new job if none is listed. */
  function MoveEffect(s: State, pc: Pc, input: Input): Effect {
    match pc
    case Enqueueing(j, attempt, _) =>
      if Reopening(s.retryAttempts, attempt, input.answer) then Reopens(j) else Quiet
    case Sleeping(j, _, _) => if input.ok then Reopens(j) else Quiet
    case Ensuring(key, _, _, _) => if key in s.jobs then Quiet else Starts(key)
    case _ => Quiet
  }

  predicate Hit(s: State, key: string, trackId: string, size: nat) {
    FinalPath(key, trackId) in s.files && s.files[FinalPath(key, trackId)] == size
  }

  predicate Known(s: State, key: string) {
    key in s.records && On(s, s.records[key])
  }

  function ResolveEffect(s: State, key: string, trackId: string, size: nat): Effect {
    if Hit(s, key, trackId, size) && !Known(s, key) then Enters(key) else Quiet
  }

  function EffectOf(s: State, a: Action): Effect
    requires Enabled(s, a)
  {
    match a
    case Go(i, input) => MoveEffect(s, s.threads[i], input)
    case Resolve(key, trackId, size, _) => ResolveEffect(s, key, trackId, size)
    case _ => Quiet
  }

  // Whose record a step writes.

  function WriterIf(j: nat, ok: bool): Option<nat> {
    if ok then Some(j) else None
  }

  function MoveWriter(pc: Pc, input: Input): Option<nat> {
    match pc
    case FirstPersist(j, _, _) => WriterIf(j, input.ok)
    case PersistQueued(j) => WriterIf(j, input.ok)
    case Enqueued(j, _, _) => WriterIf(j, input.ok)
    case BackingOff(j, _, _) => WriterIf(j, input.ok)
    case PersistPoll(j) => WriterIf(j, input.ok)
    case RetryPersist(j) => WriterIf(j, input.ok)
    case FinishPersist(j, _, _) => WriterIf(j, input.ok)
    case Evicting(candidates, _) => if candidates == [] then None
                                    else WriterIf(candidates[0], input.ok && input.answer.Accepted?)
    case _ => None
  }

  function ResolveWriter(s: State, key: string, trackId: string, size: nat, ok: bool): Option<nat> {
    if Hit(s, key, trackId, size) then WriterIf(if Known(s, key) then s.records[key] else |s.heap|, ok) else None
  }

  function Writer(s: State, a: Action): Option<nat>
    requires Enabled(s, a)
  {
    match a
    case Go(i, input) => MoveWriter(s.threads[i], input)
    case Resolve(key, trackId, size, ok) => ResolveWriter(s, key, trackId, size, ok)
    case List(j, ok) => WriterIf(j, Snapshot(s.heap[j], s.files) != s.heap[j] && ok)
    case _ => None
  }

  predicate Absorbed(a: Job, b: Job, reopened: bool) {
    && a.key == b.key
    && (a.finished ==> b.finished && b.err == a.err && b.doneCloses == a.doneCloses)
    && (Closed(a) && !reopened ==> Over(b.download.state))
  }

  ghost predicate AllClosed(s: State, key: string) {
    forall j: nat :: j < |s.heap| && s.heap[j].key == key ==> Closed(s.heap[j])
  }

  predicate RecordOver(s: State, key: string) {
    key in s.disk ==> Over(s.disk[key].download.state)
  }

  ghost predicate HeapAbsorbs(s: State, t: State, e: Effect) {
    && |s.heap| <= |t.heap|
    && (forall j: nat :: j < |s.heap| ==> Absorbed(s.heap[j], t.heap[j], e == Reopens(j)))
    && (forall j: nat :: |s.heap| <= j < |t.heap| ==> Closed(t.heap[j]) || e == Starts(t.heap[j].key))
  }

  /** What is written is one job's record, as the job is afterwards. */
  predicate Signs(s: State, t: State, writer: Option<nat>) {
    match writer
    case None => t.disk == s.disk
    case Some(k) => On(t, k) && t.disk == s.disk[t.heap[k].key := Persisted(t.heap[k])]
  }

  /** A new job is the row of its key from then on. */
  predicate Lists(s: State, t: State, e: Effect) {
    if e.Starts? || e.Enters? then
      t.records == s.records[e.key := |s.heap|] && On(t, |s.heap|) && t.heap[|s.heap|].key == e.key
    else t.records == s.records
  }

  ghost predicate Absorbing(s: State, t: State, e: Effect, writer: Option<nat>) {
    HeapAbsorbs(s, t, e) && Lists(s, t, e) && Signs(s, t, writer)
  }

  /** As long as all jobs of a key are closed, whatever is written for the key says so. */
  lemma RecordsFollow(s: State, t: State, writer: Option<nat>, key: string)
    requires Signs(s, t, writer) && AllClosed(t, key) && RecordOver(s, key)
    ensures RecordOver(t, key)
  {
  }

  /** The step writes the record of job `j` as it is afterwards, or fails to. */
  predicate Writes(s: State, t: State, j: nat, ok: bool) {
    On(t, j) && t.disk == if ok then s.disk[t.heap[j].key := Persisted(t.heap[j])] else s.disk
  }

  /** All that a step does to jobs, rows and disk is to rewrite job `j`. */
  predicate Rewrites(s: State, t: State, j: nat, job: Job) {
    On(s, j) && t.heap == s.heap[j := job] && t.disk == s.disk && t.records == s.records
  }

  lemma RewriteAbsorbs(s: State, t: State, j: nat, job: Job)
    requires Rewrites(s, t, j, job) && Absorbed(s.heap[j], job, false)
    ensures Absorbing(s, t, Quiet, None)
  {
  }

  /** A job rewritten and its record written. */
  lemma RewriteAndWriteAbsorbs(s: State, t: State, j: nat, job: Job, ok: bool)
    requires On(s, j)
    ensures t.heap == s.heap[j := job] && Writes(s, t, j, ok) && t.records == s.records
            && Absorbed(s.heap[j], job, false)
            ==> Absorbing(s, t, Quiet, WriterIf(j, ok))
  {
  }

  lemma ReopeningAbsorbs(s: State, t: State, j: nat, job: Job)
    requires Rewrites(s, t, j, job) && Absorbed(s.heap[j], job, true)
    ensures Absorbing(s, t, Reopens(j), None)
  {
  }

  lemma SameHeapAbsorbs(s: State, t: State)
    ensures s.heap == t.heap && s.disk == t.disk && s.records == t.records ==> Absorbing(s, t, Quiet, None)
  {
  }

  /** Only a record is written. */
  lemma WriteAbsorbs(s: State, t: State, j: nat, ok: bool)
    ensures s.heap == t.heap && Writes(s, t, j, ok) && s.records == t.records ==>
              Absorbing(s, t, Quiet, WriterIf(j, ok))
  {
  }

  lemma NewJobAbsorbs(s: State, t: State, job: Job)
    ensures t.heap == s.heap + [job] && t.disk == s.disk && t.records == s.records[job.key := |s.heap|]
            ==> Absorbing(s, t, Starts(job.key), None)
  {
  }

  lemma AppendAbsorbs(s: State, t: State, job: Job, ok: bool)
    ensures t.heap == s.heap + [job] && Closed(job) && Writes(s, t, |s.heap|, ok)
            && t.records == s.records[job.key := |s.heap|]
            ==> Absorbing(s, t, Enters(job.key), WriterIf(|s.heap|, ok))
  {
  }

  /** The fields that absorption does not look at. */
  predicate SameShown(a: Job, b: Job) {
    (a.key, a.finished, a.err, a.doneCloses, a.download.state)
    == (b.key, b.finished, b.err, b.doneCloses, b.download.state)
  }

  lemma SameShownAbsorbs(a: Job, b: Job)
    requires SameShown(a, b)
    ensures Absorbed(a, b, false)
  {
  }

  lemma LiveJobAbsorbs(a: Job, b: Job)
    requires !a.finished && a.key == b.key
    ensures Absorbed(a, b, false)
  {
  }

  lemma JoinAbsorbs(s: State, i: nat, key: string, trackId: string, size: nat, origin: Origin)
    requires At(s, i) && key in s.jobs
    ensures Absorbing(s, EnsureStep(s, i, key, trackId, size, origin), Quiet, None)
  {
    hide Absorbing, NewJob;
    SameHeapAbsorbs(s, EnsureStep(s, i, key, trackId, size, origin));
  }

  lemma StartAbsorbs(s: State, i: nat, key: string, trackId: string, size: nat, origin: Origin)
    requires At(s, i) && key !in s.jobs
    ensures Absorbing(s, EnsureStep(s, i, key, trackId, size, origin), Starts(key), None)
  {
    assert NewJob(key, trackId, size).key == key;
    hide Absorbing, NewJob;
    NewJobAbsorbs(s, EnsureStep(s, i, key, trackId, size, origin), NewJob(key, trackId, size));
  }

  lemma EnsureAbsorbs(s: State, i: nat, key: string, trackId: string, size: nat, origin: Origin)
    requires At(s, i)
    ensures Absorbing(s, EnsureStep(s, i, key, trackId, size, origin), if key in s.jobs then Quiet else Starts(key),
                      None)
  {
    hide Absorbing, EnsureStep;
    if key in s.jobs {
      JoinAbsorbs(s, i, key, trackId, size, origin);
    } else {
      StartAbsorbs(s, i, key, trackId, size, origin);
    }
  }

  lemma FirstPersistAbsorbs(s: State, i: nat, j: nat, key: string, origin: Origin, ok: bool)
    requires At(s, i) && On(s, j)
    ensures Absorbing(s, FirstPersistStep(s, i, j, key, origin, ok), Quiet, WriterIf(j, ok))
  {
    hide Absorbing, Persisted;
    WriteAbsorbs(s, FirstPersistStep(s, i, j, key, origin, ok), j, ok);
  }

  lemma ReadyAbsorbs(s: State, i: nat, j: nat, key: string, origin: Origin, ready: bool)
    requires At(s, i) && On(s, j)
    ensures Absorbing(s, ReadyStep(s, i, j, key, origin, ready), Quiet, None)
  {
    hide Absorbing;
    SameHeapAbsorbs(s, ReadyStep(s, i, j, key, origin, ready));
  }

  lemma EndReadAbsorbs(s: State, i: nat, key: string)
    requires At(s, i)
    ensures Absorbing(s, EndReadStep(s, i, key), Quiet, None)
  {
    hide Absorbing;
    SameHeapAbsorbs(s, EndReadStep(s, i, key));
  }

  lemma AcquireAbsorbs(s: State, i: nat, j: nat, ok: bool)
    requires At(s, i) && On(s, j)
    ensures Absorbing(s, AcquireStep(s, i, j, ok), Quiet, None)
  {
    hide Absorbing;
    if ok {
      SameHeapAbsorbs(s, AcquireStep(s, i, j, ok));
    } else {
      RewriteAbsorbs(s, AcquireStep(s, i, j, ok), j, s.heap[j].(worker := false));
    }
  }

  lemma FinishedIsNotRecorded(s: State, i: nat, j: nat)
    requires At(s, i) && On(s, j) && s.heap[j].finished
    ensures Absorbing(s, RecordSlotStep(s, i, j), Quiet, None)
  {
    hide Absorbing;
    SameHeapAbsorbs(s, RecordSlotStep(s, i, j));
  }

  lemma SlotIsRecorded(s: State, i: nat, j: nat)
    requires At(s, i) && On(s, j) && !s.heap[j].finished
    ensures Absorbing(s, RecordSlotStep(s, i, j), Quiet, None)
  {
    LiveJobAbsorbs(s.heap[j], SlotRecorded(s.heap[j]));
    hide Absorbing, Absorbed, SlotRecorded;
    RewriteAbsorbs(s, RecordSlotStep(s, i, j), j, SlotRecorded(s.heap[j]));
  }

  lemma RecordSlotAbsorbs(s: State, i: nat, j: nat)
    requires At(s, i) && On(s, j)
    ensures Absorbing(s, RecordSlotStep(s, i, j), Quiet, None)
  {
    hide Absorbing, RecordSlotStep;
    if s.heap[j].finished {
      FinishedIsNotRecorded(s, i, j);
    } else {
      SlotIsRecorded(s, i, j);
    }
  }

  lemma GiveBackRewrites(s: State, i: nat, j: nat)
    requires At(s, i) && On(s, j)
    ensures var t := GiveBackStep(s, i, j);
            t.heap == s.heap[j := s.heap[j].(worker := false)] && t.disk == s.disk
            && t.records == s.records
  {
  }

  lemma GiveBackAbsorbs(s: State, i: nat, j: nat)
    requires At(s, i) && On(s, j)
    ensures Absorbing(s, GiveBackStep(s, i, j), Quiet, None)
  {
    GiveBackRewrites(s, i, j);
    SameShownAbsorbs(s.heap[j], s.heap[j].(worker := false));
    hide Absorbing, Absorbed, GiveBackStep;
    RewriteAbsorbs(s, GiveBackStep(s, i, j), j, s.heap[j].(worker := false));
  }

  lemma PersistQueuedAbsorbs(s: State, i: nat, j: nat, ok: bool)
    requires At(s, i) && On(s, j)
    ensures Absorbing(s, PersistQueuedStep(s, i, j, ok), Quiet, WriterIf(j, ok))
  {
    hide Absorbing, Persisted;
    WriteAbsorbs(s, PersistQueuedStep(s, i, j, ok), j, ok);
  }

  lemma FinishedJobAbsorbs(job: Job, state: DownloadState, err: Option<Fault>, closer: Closer)
    ensures Absorbed(job, ClosedBy(FinishedJob(job, state, err), closer), false)
  {
  }

  lemma CountedAbsorbs(job: Job)
    ensures Absorbed(job, Counted(job), false)
  {
  }

  /** Neither a batch nor a back-off lets the job look over, whatever it looked like before. */
  predicate ReopenedAs(job: Job, after: Job) {
    Absorbed(job, after, true) && !Over(after.download.state)
  }

  lemma BatchReopens(job: Job, batchId: string, transferId: string)
    ensures ReopenedAs(job, BatchStored(Counted(job), batchId, transferId))
  {
  }

  lemma BackoffReopens(job: Job, fault: Fault)
    ensures ReopenedAs(job, BackedOff(Counted(job), fault))
  {
  }

  lemma AnsweredAbsorbs(job: Job, attempts: nat, attempt: nat, answer: Answer)
    ensures Absorbed(job, Answered(job, attempts, attempt, answer), Reopening(attempts, attempt, answer))
    ensures Reopening(attempts, attempt, answer) ==> !Over(Answered(job, attempts, attempt, answer).download.state)
  {
    hide Answered, Absorbed, BatchStored, BackedOff, Counted, Over;
    match answer
    case Accepted(batchId, transferId) =>
      AcceptedAnswer(job, attempts, attempt, answer);
      BatchReopens(job, batchId, transferId);
    case Temporary(fault) =>
      if attempt < attempts {
        BackoffAnswer(job, attempts, attempt, answer);
        BackoffReopens(job, fault);
      } else {
        LastAnswer(job, attempts, attempt, answer);
        CountedAbsorbs(job);
      }
    case Permanent(_) =>
      RefusedAnswer(job, attempts, attempt, answer);
      CountedAbsorbs(job);
  }

  lemma EnqueueRewrites(s: State, i: nat, j: nat, attempt: nat, first: bool, answer: Answer)
    requires At(s, i) && On(s, j)
    ensures Rewrites(s, EnqueueStep(s, i, j, attempt, first, answer), j,
                     Answered(s.heap[j], s.retryAttempts, attempt, answer))
  {
    hide Answered, AfterAnswer;
  }

  lemma EnqueueAbsorbs(s: State, i: nat, j: nat, attempt: nat, first: bool, answer: Answer)
    requires At(s, i) && On(s, j)
    ensures Absorbing(s, EnqueueStep(s, i, j, attempt, first, answer),
                      if Reopening(s.retryAttempts, attempt, answer) then Reopens(j) else Quiet, None)
  {
    EnqueueRewrites(s, i, j, attempt, first, answer);
    AnsweredAbsorbs(s.heap[j], s.retryAttempts, attempt, answer);
    hide Absorbing, Absorbed, Rewrites, EnqueueStep, Answered, Reopening;
    if Reopening(s.retryAttempts, attempt, answer) {
      ReopeningAbsorbs(s, EnqueueStep(s, i, j, attempt, first, answer), j,
                       Answered(s.heap[j], s.retryAttempts, attempt, answer));
    } else {
      RewriteAbsorbs(s, EnqueueStep(s, i, j, attempt, first, answer), j,
                     Answered(s.heap[j], s.retryAttempts, attempt, answer));
    }
  }

  lemma PersistEnqueuedAbsorbs(s: State, i: nat, j: nat, first: bool, ok: bool)
    requires At(s, i) && On(s, j)
    ensures Absorbing(s, PersistEnqueuedStep(s, i, j, first, ok), Quiet, WriterIf(j, ok))
  {
    hide Absorbing, Persisted;
    WriteAbsorbs(s, PersistEnqueuedStep(s, i, j, first, ok), j, ok);
  }

  lemma PersistBackoffAbsorbs(s: State, i: nat, j: nat, attempt: nat, first: bool, ok: bool)
    requires At(s, i) && On(s, j)
    ensures Absorbing(s, PersistBackoffStep(s, i, j, attempt, first, ok), Quiet, WriterIf(j, ok))
  {
    hide Absorbing, Persisted;
    WriteAbsorbs(s, PersistBackoffStep(s, i, j, attempt, first, ok), j, ok);
  }

  lemma WakeAbsorbs(s: State, i: nat, j: nat, attempt: nat, first: bool, ok: bool)
    requires At(s, i) && On(s, j)
    ensures Absorbing(s, WakeStep(s, i, j, attempt, first, ok), if ok then Reopens(j) else Quiet, None)
  {
    if ok {
      var t := WakeStep(s, i, j, attempt, first, true);
      hide Absorbing;
      ReopeningAbsorbs(s, t, j, Awoken(s.heap[j]));
    } else {
      hide Absorbing;
      SameHeapAbsorbs(s, WakeStep(s, i, j, attempt, first, ok));
    }
  }

  lemma AnnounceRewrites(s: State, i: nat, j: nat)
    requires At(s, i) && On(s, j)
    ensures Rewrites(s, AnnounceStep(s, i, j), j, s.heap[j].(ready := true))
  {
  }

  lemma AnnounceAbsorbs(s: State, i: nat, j: nat)
    requires At(s, i) && On(s, j)
    ensures Absorbing(s, AnnounceStep(s, i, j), Quiet, None)
  {
    AnnounceRewrites(s, i, j);
    SameShownAbsorbs(s.heap[j], s.heap[j].(ready := true));
    hide Absorbing, Absorbed, Rewrites, AnnounceStep;
    RewriteAbsorbs(s, AnnounceStep(s, i, j), j, s.heap[j].(ready := true));
  }

  lemma NoMonitorAbsorbs(s: State, i: nat, j: nat)
    requires At(s, i) && On(s, j) && (s.heap[j].finished || s.heap[j].monitoring)
    ensures Absorbing(s, BeginMonitorStep(s, i, j), Quiet, None)
  {
    SameShownAbsorbs(s.heap[j], s.heap[j].(worker := false));
    hide Absorbing, Absorbed;
    RewriteAbsorbs(s, BeginMonitorStep(s, i, j), j, s.heap[j].(worker := false));
  }

  lemma MonitorBeginsAbsorbs(s: State, i: nat, j: nat)
    requires At(s, i) && On(s, j) && !(s.heap[j].finished || s.heap[j].monitoring)
    ensures Absorbing(s, BeginMonitorStep(s, i, j), Quiet, None)
  {
    SameShownAbsorbs(s.heap[j], s.heap[j].(monitoring := true));
    hide Absorbing, Absorbed;
    RewriteAbsorbs(s, BeginMonitorStep(s, i, j), j, s.heap[j].(monitoring := true));
  }

  lemma BeginMonitorAbsorbs(s: State, i: nat, j: nat)
    requires At(s, i) && On(s, j)
    ensures Absorbing(s, BeginMonitorStep(s, i, j), Quiet, None)
  {
    hide Absorbing, BeginMonitorStep;
    if s.heap[j].finished || s.heap[j].monitoring {
      NoMonitorAbsorbs(s, i, j);
    } else {
      MonitorBeginsAbsorbs(s, i, j);
    }
  }

  lemma ProgressAbsorbs(job: Job, transferId: string, bytes: nat, phase: Phase)
    ensures Absorbed(job, TransferUpdated(job, transferId, bytes, phase), false)
  {
    if !job.finished {
      match phase case InProgress => case QueuedRemotely => case OtherPhase =>
    }
  }

  lemma PollEndsAbsorbs(s: State, i: nat, j: nat)
    requires At(s, i) && On(s, j)
    ensures Absorbing(s, PollStep(s, i, j, LoopEnds), Quiet, None)
  {
    SameShownAbsorbs(s.heap[j], s.heap[j].(worker := false));
    hide Absorbing, Absorbed;
    RewriteAbsorbs(s, PollStep(s, i, j, LoopEnds), j, s.heap[j].(worker := false));
  }

  lemma ProgressStepRewrites(s: State, i: nat, j: nat, transferId: string, bytes: nat, phase: Phase, persist: bool)
    requires At(s, i) && On(s, j)
    ensures Rewrites(s, PollStep(s, i, j, Progress(transferId, bytes, phase, persist)), j,
                     TransferUpdated(s.heap[j], transferId, bytes, phase))
  {
    hide TransferUpdated;
  }

  lemma ProgressStepAbsorbs(s: State, i: nat, j: nat, transferId: string, bytes: nat, phase: Phase, persist: bool)
    requires At(s, i) && On(s, j)
    ensures Absorbing(s, PollStep(s, i, j, Progress(transferId, bytes, phase, persist)), Quiet, None)
  {
    ProgressStepRewrites(s, i, j, transferId, bytes, phase, persist);
    ProgressAbsorbs(s.heap[j], transferId, bytes, phase);
    hide Absorbing, Absorbed, Rewrites, PollStep, TransferUpdated;
    RewriteAbsorbs(s, PollStep(s, i, j, Progress(transferId, bytes, phase, persist)), j,
                   TransferUpdated(s.heap[j], transferId, bytes, phase));
  }

  lemma RetryRewrites(s: State, i: nat, j: nat, fault: Fault)
    requires At(s, i) && On(s, j) && MayRetry(s.heap[j], s.retryAttempts)
    ensures Rewrites(s, PollStep(s, i, j, Retryable(fault)), j, RetryPrepared(s.heap[j], fault))
  {
    hide RetryPrepared;
  }

  lemma RetryStepAbsorbs(s: State, i: nat, j: nat, fault: Fault)
    requires At(s, i) && On(s, j)
    ensures Absorbing(s, PollStep(s, i, j, Retryable(fault)), Quiet, None)
  {
    if MayRetry(s.heap[j], s.retryAttempts) {
      LiveJobAbsorbs(s.heap[j], RetryPrepared(s.heap[j], fault));
      RetryRewrites(s, i, j, fault);
      hide Absorbing, Absorbed, RetryPrepared, PollStep, Rewrites;
      RewriteAbsorbs(s, PollStep(s, i, j, Retryable(fault)), j, RetryPrepared(s.heap[j], fault));
    } else {
      hide Absorbing;
      SameHeapAbsorbs(s, PollStep(s, i, j, Retryable(fault)));
    }
  }

  lemma OtherPollAbsorbs(s: State, i: nat, j: nat, result: PollResult)
    requires At(s, i) && On(s, j) && (result.Succeeded? || result.Broken? || result.TransferFailed?)
    ensures Absorbing(s, PollStep(s, i, j, result), Quiet, None)
  {
    hide Absorbing;
    SameHeapAbsorbs(s, PollStep(s, i, j, result));
  }

  lemma PollAbsorbs(s: State, i: nat, j: nat, result: PollResult)
    requires At(s, i) && On(s, j)
    ensures Absorbing(s, PollStep(s, i, j, result), Quiet, None)
  {
    hide Absorbing, PollStep;
    match result
    case LoopEnds => PollEndsAbsorbs(s, i, j);
    case Progress(transferId, bytes, phase, persist) => ProgressStepAbsorbs(s, i, j, transferId, bytes, phase, persist);
    case Retryable(fault) => RetryStepAbsorbs(s, i, j, fault);
    case _ => OtherPollAbsorbs(s, i, j, result);
  }

  lemma PersistInMonitorAbsorbs(s: State, i: nat, j: nat, next: Pc, ok: bool)
    requires At(s, i) && On(s, j)
    ensures Absorbing(s, PersistInMonitorStep(s, i, j, next, ok), Quiet, WriterIf(j, ok))
  {
    hide Absorbing, Persisted;
    WriteAbsorbs(s, PersistInMonitorStep(s, i, j, next, ok), j, ok);
  }

  lemma EndMonitorRewrites(s: State, i: nat, j: nat)
    requires At(s, i) && On(s, j)
    ensures Rewrites(s, EndMonitorStep(s, i, j), j, s.heap[j].(monitoring := false))
  {
  }

  lemma EndMonitorAbsorbs(s: State, i: nat, j: nat)
    requires At(s, i) && On(s, j)
    ensures Absorbing(s, EndMonitorStep(s, i, j), Quiet, None)
  {
    EndMonitorRewrites(s, i, j);
    SameShownAbsorbs(s.heap[j], s.heap[j].(monitoring := false));
    hide Absorbing, Absorbed, Rewrites, EndMonitorStep;
    RewriteAbsorbs(s, EndMonitorStep(s, i, j), j, s.heap[j].(monitoring := false));
  }

  lemma SecondFinishRewrites(s: State, i: nat, j: nat, key: string, state: DownloadState, err: Option<Fault>,
                             closer: Closer, next: Next)
    requires At(s, i) && On(s, j) && s.heap[j].finished
    ensures var t := FinishStep(s, i, j, key, state, err, closer, next);
            t.heap == s.heap[j := ClosedBy(FinishedJob(s.heap[j], state, err), closer)] && t.disk == s.disk
            && t.records == s.records
  {
    hide FinishedJob, ClosedBy, Onward;
  }

  lemma FirstFinishRewrites(s: State, i: nat, j: nat, key: string, state: DownloadState, err: Option<Fault>,
                            closer: Closer, next: Next)
    requires At(s, i) && On(s, j) && !s.heap[j].finished
    ensures var t := FinishStep(s, i, j, key, state, err, closer, next);
            t.heap == s.heap[j := ClosedBy(FinishedJob(s.heap[j], state, err), closer)] && t.disk == s.disk
            && t.records == s.records
  {
    hide FinishedJob, ClosedBy, Onward;
  }

  lemma FinishRewrites(s: State, i: nat, j: nat, key: string, state: DownloadState, err: Option<Fault>, closer: Closer,
                       next: Next)
    requires At(s, i) && On(s, j)
    ensures var t := FinishStep(s, i, j, key, state, err, closer, next);
            t.heap == s.heap[j := ClosedBy(FinishedJob(s.heap[j], state, err), closer)] && t.disk == s.disk
            && t.records == s.records
  {
    hide FinishStep, FinishedJob, ClosedBy;
    if s.heap[j].finished {
      SecondFinishRewrites(s, i, j, key, state, err, closer, next);
    } else {
      FirstFinishRewrites(s, i, j, key, state, err, closer, next);
    }
  }

  lemma FinishAbsorbs(s: State, i: nat, j: nat, key: string, state: DownloadState, err: Option<Fault>, closer: Closer,
                      next: Next)
    requires At(s, i) && On(s, j)
    ensures Absorbing(s, FinishStep(s, i, j, key, state, err, closer, next), Quiet, None)
  {
    FinishRewrites(s, i, j, key, state, err, closer, next);
    FinishedJobAbsorbs(s.heap[j], state, err, closer);
    hide Absorbing, Absorbed, FinishStep, FinishedJob, ClosedBy;
    RewriteAbsorbs(s, FinishStep(s, i, j, key, state, err, closer, next), j,
                   ClosedBy(FinishedJob(s.heap[j], state, err), closer));
  }

  lemma ReturnRewrites(s: State, i: nat, j: nat, key: string, token: Option<bool>, next: Next)
    requires At(s, i) && On(s, j)
    ensures var t := ReturnStep(s, i, j, key, token, next);
            t.heap == s.heap[j := s.heap[j].(cancelled := true)]
            && t.disk == s.disk && t.records == s.records
  {
  }

  lemma ReturnAbsorbs(s: State, i: nat, j: nat, key: string, token: Option<bool>, next: Next)
    requires At(s, i) && On(s, j)
    ensures Absorbing(s, ReturnStep(s, i, j, key, token, next), Quiet, None)
  {
    ReturnRewrites(s, i, j, key, token, next);
    SameShownAbsorbs(s.heap[j], s.heap[j].(cancelled := true));
    hide Absorbing, Absorbed, ReturnStep;
    RewriteAbsorbs(s, ReturnStep(s, i, j, key, token, next), j, s.heap[j].(cancelled := true));
  }

  lemma FinishAnnounceRewrites(s: State, i: nat, j: nat, key: string, next: Next)
    requires At(s, i) && On(s, j)
    ensures Rewrites(s, FinishAnnounceStep(s, i, j, key, next), j, s.heap[j].(ready := true))
  {
  }

  lemma FinishAnnounceAbsorbs(s: State, i: nat, j: nat, key: string, next: Next)
    requires At(s, i) && On(s, j)
    ensures Absorbing(s, FinishAnnounceStep(s, i, j, key, next), Quiet, None)
  {
    FinishAnnounceRewrites(s, i, j, key, next);
    SameShownAbsorbs(s.heap[j], s.heap[j].(ready := true));
    hide Absorbing, Absorbed, Rewrites, FinishAnnounceStep;
    RewriteAbsorbs(s, FinishAnnounceStep(s, i, j, key, next), j, s.heap[j].(ready := true));
  }

  lemma FinishPersistAbsorbs(s: State, i: nat, j: nat, key: string, next: Next, ok: bool)
    requires At(s, i) && On(s, j)
    ensures Absorbing(s, FinishPersistStep(s, i, j, key, next, ok), Quiet, WriterIf(j, ok))
  {
    hide Absorbing, Persisted;
    WriteAbsorbs(s, FinishPersistStep(s, i, j, key, next, ok), j, ok);
  }

  lemma ListedIsUnlisted(s: State, i: nat, j: nat, key: string, next: Next)
    requires At(s, i) && key in s.jobs && s.jobs[key] == j
    ensures var t := UnlistStep(s, i, j, key, next); t.heap == s.heap && t.disk == s.disk && t.records == s.records
  {
    hide Onward;
  }

  lemma OtherIsLeftListed(s: State, i: nat, j: nat, key: string, next: Next)
    requires At(s, i) && !(key in s.jobs && s.jobs[key] == j)
    ensures var t := UnlistStep(s, i, j, key, next); t.heap == s.heap && t.disk == s.disk && t.records == s.records
  {
    hide Onward;
  }

  lemma UnlistAbsorbs(s: State, i: nat, j: nat, key: string, next: Next)
    requires At(s, i)
    ensures Absorbing(s, UnlistStep(s, i, j, key, next), Quiet, None)
  {
    hide Absorbing, UnlistStep;
    if key in s.jobs && s.jobs[key] == j {
      ListedIsUnlisted(s, i, j, key, next);
    } else {
      OtherIsLeftListed(s, i, j, key, next);
    }
    SameHeapAbsorbs(s, UnlistStep(s, i, j, key, next));
  }

  lemma CancelContextRewrites(s: State, i: nat, j: nat, known: bool)
    requires At(s, i) && On(s, j)
    ensures Rewrites(s, CancelContextStep(s, i, j, known), j,
                     s.heap[j].(cancelled := s.heap[j].cancelled || known, closers := s.heap[j].closers + 1))
  {
  }

  lemma CancelContextAbsorbs(s: State, i: nat, j: nat, known: bool)
    requires At(s, i) && On(s, j)
    ensures Absorbing(s, CancelContextStep(s, i, j, known), Quiet, None)
  {
    CancelContextRewrites(s, i, j, known);
    SameShownAbsorbs(s.heap[j], s.heap[j].(cancelled := s.heap[j].cancelled || known,
                                           closers := s.heap[j].closers + 1));
    hide Absorbing, Absorbed, Rewrites, CancelContextStep;
    RewriteAbsorbs(s, CancelContextStep(s, i, j, known), j,
                   s.heap[j].(cancelled := s.heap[j].cancelled || known, closers := s.heap[j].closers + 1));
  }

  lemma CancelRemotelyAbsorbs(s: State, i: nat, j: nat, ok: bool)
    requires At(s, i) && On(s, j)
    ensures Absorbing(s, CancelRemotelyStep(s, i, j, ok), Quiet, None)
  {
    hide Absorbing;
    if ok {
      RewriteAbsorbs(s, CancelRemotelyStep(s, i, j, ok), j, s.heap[j].(closers := s.heap[j].closers + 1));
    } else {
      SameHeapAbsorbs(s, CancelRemotelyStep(s, i, j, ok));
    }
  }

  lemma RequeueAbsorbs(s: State, i: nat, pending: set<nat>, j: nat)
    requires At(s, i) && On(s, j) && s.heap[j].download.state == Waiting && s.heap[j].batchId == ""
    ensures Absorbing(s, ResumeStep(s, i, pending, j), Quiet, None)
  {
    SameShownAbsorbs(s.heap[j], s.heap[j].(dormant := false, worker := true));
    hide Absorbing, Absorbed;
    RewriteAbsorbs(s, ResumeStep(s, i, pending, j), j, s.heap[j].(dormant := false, worker := true));
  }

  lemma LostBatchKeeps(s: State, i: nat, pending: set<nat>, j: nat)
    requires At(s, i) && On(s, j) && s.heap[j].download.state != Waiting && s.heap[j].batchId == ""
    ensures var t := ResumeStep(s, i, pending, j); t.heap == s.heap && t.disk == s.disk && t.records == s.records
  {
  }

  lemma RestoringKeeps(s: State, i: nat, pending: set<nat>, j: nat)
    requires At(s, i) && On(s, j) && s.heap[j].batchId != ""
    ensures var t := ResumeStep(s, i, pending, j); t.heap == s.heap && t.disk == s.disk && t.records == s.records
  {
  }

  lemma ResumingKeeps(s: State, i: nat, pending: set<nat>, j: nat)
    requires At(s, i) && On(s, j) && !(s.heap[j].download.state == Waiting && s.heap[j].batchId == "")
    ensures var t := ResumeStep(s, i, pending, j); t.heap == s.heap && t.disk == s.disk && t.records == s.records
  {
    hide ResumeStep;
    if s.heap[j].batchId == "" {
      LostBatchKeeps(s, i, pending, j);
    } else {
      RestoringKeeps(s, i, pending, j);
    }
  }

  lemma ResumeAbsorbs(s: State, i: nat, pending: set<nat>, j: nat)
    requires At(s, i) && On(s, j)
    ensures Absorbing(s, ResumeStep(s, i, pending, j), Quiet, None)
  {
    hide Absorbing, ResumeStep;
    if s.heap[j].download.state == Waiting && s.heap[j].batchId == "" {
      RequeueAbsorbs(s, i, pending, j);
    } else {
      ResumingKeeps(s, i, pending, j);
      SameHeapAbsorbs(s, ResumeStep(s, i, pending, j));
    }
  }

  lemma RecordRestoredRewrites(s: State, i: nat, j: nat, pending: set<nat>)
    requires At(s, i) && On(s, j)
    ensures Rewrites(s, RecordRestoredStep(s, i, j, pending), j, s.heap[j].(slotHeld := true, restoredSlot := true))
  {
  }

  lemma RecordRestoredAbsorbs(s: State, i: nat, j: nat, pending: set<nat>)
    requires At(s, i) && On(s, j)
    ensures Absorbing(s, RecordRestoredStep(s, i, j, pending), Quiet, None)
  {
    RecordRestoredRewrites(s, i, j, pending);
    SameShownAbsorbs(s.heap[j], s.heap[j].(slotHeld := true, restoredSlot := true));
    hide Absorbing, Absorbed, Rewrites, RecordRestoredStep;
    RewriteAbsorbs(s, RecordRestoredStep(s, i, j, pending), j, s.heap[j].(slotHeld := true, restoredSlot := true));
  }

  lemma NothingToMonitorRewrites(s: State, i: nat, j: nat, pending: set<nat>)
    requires At(s, i) && On(s, j) && (s.heap[j].finished || s.heap[j].monitoring)
    ensures var t := RestoreMonitorStep(s, i, j, pending);
            t.heap == s.heap[j := s.heap[j].(dormant := false)]
            && t.disk == s.disk && t.records == s.records
  {
  }

  lemma NothingToMonitorAbsorbs(s: State, i: nat, j: nat, pending: set<nat>)
    requires At(s, i) && On(s, j) && (s.heap[j].finished || s.heap[j].monitoring)
    ensures Absorbing(s, RestoreMonitorStep(s, i, j, pending), Quiet, None)
  {
    NothingToMonitorRewrites(s, i, j, pending);
    SameShownAbsorbs(s.heap[j], s.heap[j].(dormant := false));
    hide Absorbing, Absorbed, RestoreMonitorStep;
    RewriteAbsorbs(s, RestoreMonitorStep(s, i, j, pending), j, s.heap[j].(dormant := false));
  }

  lemma MonitorRestoredAbsorbs(s: State, i: nat, j: nat, pending: set<nat>)
    requires At(s, i) && On(s, j) && !(s.heap[j].finished || s.heap[j].monitoring)
    ensures Absorbing(s, RestoreMonitorStep(s, i, j, pending), Quiet, None)
  {
    var job := s.heap[j].(monitoring := true, worker := true, dormant := false);
    SameShownAbsorbs(s.heap[j], job);
    hide Absorbing, Absorbed;
    RewriteAbsorbs(s, RestoreMonitorStep(s, i, j, pending), j, job);
  }

  lemma RestoreMonitorAbsorbs(s: State, i: nat, j: nat, pending: set<nat>)
    requires At(s, i) && On(s, j)
    ensures Absorbing(s, RestoreMonitorStep(s, i, j, pending), Quiet, None)
  {
    hide Absorbing, RestoreMonitorStep;
    if s.heap[j].finished || s.heap[j].monitoring {
      NothingToMonitorAbsorbs(s, i, j, pending);
    } else {
      MonitorRestoredAbsorbs(s, i, j, pending);
    }
  }

  lemma EvictEndsAbsorbs(s: State, i: nat)
    requires At(s, i)
    ensures Absorbing(s, EvictEnds(s, i), Quiet, None)
  {
    hide Absorbing;
    SameHeapAbsorbs(s, EvictEnds(s, i));
  }

  lemma MarkedEvictedAbsorbs(job: Job)
    ensures Absorbed(job, MarkedEvicted(job), false)
  {
  }

  lemma EvictAbsorbs(s: State, i: nat, candidates: seq<nat>, pinned: set<string>, ok: bool)
    requires At(s, i) && candidates != [] && On(s, candidates[0])
    ensures Absorbing(s, EvictStep(s, i, candidates, pinned, ok), Quiet, WriterIf(candidates[0], ok))
  {
    MarkedEvictedAbsorbs(s.heap[candidates[0]]);
    hide Absorbing, Absorbed, MarkedEvicted, Persisted;
    RewriteAndWriteAbsorbs(s, EvictStep(s, i, candidates, pinned, ok), candidates[0],
                           MarkedEvicted(s.heap[candidates[0]]), ok);
  }

  lemma SnapshotAbsorbs(s: State, j: nat, ok: bool)
    requires On(s, j)
    ensures Absorbing(s, SnapshotStep(s, j, ok), Quiet, WriterIf(j, Snapshot(s.heap[j], s.files) != s.heap[j] && ok))
  {
    SnapshotOfJobAbsorbs(s.heap[j], s.files);
    hide Absorbing, Absorbed, Snapshot, Persisted;
    var seen := Snapshot(s.heap[j], s.files);
    RewriteAndWriteAbsorbs(s, SnapshotStep(s, j, ok), j, seen, seen != s.heap[j] && ok);
  }

  lemma SnapshotOfJobAbsorbs(job: Job, files: map<Path, nat>)
    ensures Absorbed(job, Snapshot(job, files), false)
  {
  }

  lemma KnownHitAbsorbs(s: State, key: string, trackId: string, size: nat, ok: bool)
    requires Hit(s, key, trackId, size)
    requires Known(s, key)
    ensures Absorbing(s, ResolveStep(s, key, trackId, size, ok), Quiet, WriterIf(s.records[key], ok))
  {
    var j := s.records[key];
    MarkedCachedAbsorbs(s.heap[j], size);
    hide Absorbing, Absorbed, MarkedCached, Persisted;
    RewriteAndWriteAbsorbs(s, ResolveStep(s, key, trackId, size, ok), j, MarkedCached(s.heap[j], size), ok);
  }

  lemma NewHitAbsorbs(s: State, key: string, trackId: string, size: nat, ok: bool)
    requires Hit(s, key, trackId, size)
    requires !Known(s, key)
    ensures Absorbing(s, ResolveStep(s, key, trackId, size, ok), Enters(key), WriterIf(|s.heap|, ok))
  {
    assert Closed(CachedJob(key, trackId, size)) && CachedJob(key, trackId, size).key == key;
    hide Absorbing, CachedJob, Closed, Persisted;
    AppendAbsorbs(s, ResolveStep(s, key, trackId, size, ok), CachedJob(key, trackId, size), ok);
  }

  lemma HitAbsorbs(s: State, key: string, trackId: string, size: nat, ok: bool)
    requires Hit(s, key, trackId, size)
    ensures Absorbing(s, ResolveStep(s, key, trackId, size, ok), ResolveEffect(s, key, trackId, size),
                      ResolveWriter(s, key, trackId, size, ok))
  {
    hide Absorbing, ResolveStep;
    if key in s.records && On(s, s.records[key]) {
      KnownHitAbsorbs(s, key, trackId, size, ok);
    } else {
      NewHitAbsorbs(s, key, trackId, size, ok);
    }
  }

  lemma ResolveAbsorbs(s: State, key: string, trackId: string, size: nat, ok: bool)
    ensures Absorbing(s, ResolveStep(s, key, trackId, size, ok), ResolveEffect(s, key, trackId, size),
                      ResolveWriter(s, key, trackId, size, ok))
  {
    hide Absorbing, MarkedCached, CachedJob;
    if FinalPath(key, trackId) !in s.files || s.files[FinalPath(key, trackId)] != size {
      SameHeapAbsorbs(s, ResolveStep(s, key, trackId, size, ok));
    } else {
      HitAbsorbs(s, key, trackId, size, ok);
    }
  }

  lemma MarkedCachedAbsorbs(job: Job, size: nat)
    ensures Absorbed(job, MarkedCached(job, size), false)
  {
  }

  lemma SlotAbsorbs(s: State, i: nat, input: Input)
    requires CanMove(s, i, input)
    requires var pc := s.threads[i];
             pc.FirstPersist? || pc.Launching? || pc.Acquiring? || pc.Acquired? || pc.GivingBack? || pc.Ensuring?
    ensures Absorbing(s, Move(s, i, input), MoveEffect(s, s.threads[i], input), MoveWriter(s.threads[i], input))
  {
    hide Absorbing, EnsureStep, FirstPersistStep, AcquireStep, RecordSlotStep, GiveBackStep;
    match s.threads[i]
    case Ensuring(key, trackId, size, origin) => EnsureAbsorbs(s, i, key, trackId, size, origin);
    case FirstPersist(j, key, origin) => FirstPersistAbsorbs(s, i, j, key, origin, input.ok);
    case Launching(j, key, origin) => SameHeapAbsorbs(s, LaunchStep(s, i, j, key, origin));
    case Acquiring(j) => AcquireAbsorbs(s, i, j, input.ok);
    case Acquired(j) => RecordSlotAbsorbs(s, i, j);
    case GivingBack(j) => GiveBackAbsorbs(s, i, j);
  }

  lemma EnqueuingAbsorbs(s: State, i: nat, input: Input)
    requires CanMove(s, i, input)
    requires var pc := s.threads[i];
             pc.PersistQueued? || pc.Enqueueing? || pc.Enqueued? || pc.BackingOff?
             || pc.Sleeping?
    ensures Absorbing(s, Move(s, i, input), MoveEffect(s, s.threads[i], input), MoveWriter(s.threads[i], input))
  {
    hide Absorbing, PersistQueuedStep, EnqueueStep, PersistEnqueuedStep, PersistBackoffStep, WakeStep;
    match s.threads[i]
    case PersistQueued(j) => PersistQueuedAbsorbs(s, i, j, input.ok);
    case Enqueueing(j, attempt, first) => EnqueueAbsorbs(s, i, j, attempt, first, input.answer);
    case Enqueued(j, _, first) => PersistEnqueuedAbsorbs(s, i, j, first, input.ok);
    case BackingOff(j, attempt, first) => PersistBackoffAbsorbs(s, i, j, attempt, first, input.ok);
    case Sleeping(j, attempt, first) => WakeAbsorbs(s, i, j, attempt, first, input.ok);
  }

  lemma MonitorAbsorbs(s: State, i: nat, input: Input)
    requires CanMove(s, i, input)
    requires var pc := s.threads[i];
             pc.Announcing? || pc.Announced? || pc.Polling? || pc.PersistPoll? || pc.RetryPersist? || pc.EndingMonitor?
    ensures Absorbing(s, Move(s, i, input), MoveEffect(s, s.threads[i], input), MoveWriter(s.threads[i], input))
  {
    hide Absorbing, AnnounceStep, BeginMonitorStep, PollStep, PersistInMonitorStep, EndMonitorStep;
    match s.threads[i]
    case Announcing(j) => AnnounceAbsorbs(s, i, j);
    case Announced(j) => BeginMonitorAbsorbs(s, i, j);
    case Polling(j) => PollAbsorbs(s, i, j, input.poll);
    case PersistPoll(j) => PersistInMonitorAbsorbs(s, i, j, Polling(j), input.ok);
    case RetryPersist(j) => PersistInMonitorAbsorbs(s, i, j, Enqueueing(j, 1, false), input.ok);
    case EndingMonitor(j) => EndMonitorAbsorbs(s, i, j);
  }

  lemma FinishingAbsorbs(s: State, i: nat, input: Input)
    requires CanMove(s, i, input) && var pc := s.threads[i]; pc.Finishing? || AfterFinish(pc)
    ensures Absorbing(s, Move(s, i, input), MoveEffect(s, s.threads[i], input), MoveWriter(s.threads[i], input))
  {
    hide Absorbing, FinishStep, ReturnStep, FinishAnnounceStep, FinishPersistStep, UnlistStep;
    match s.threads[i]
    case Finishing(j, key, state, err, closer, next) =>
      FinishAbsorbs(s, i, j, key, state, err, closer, next);
    case Returning(j, key, token, next) => ReturnAbsorbs(s, i, j, key, token, next);
    case FinishAnnounce(j, key, next) => FinishAnnounceAbsorbs(s, i, j, key, next);
    case FinishPersist(j, key, next) => FinishPersistAbsorbs(s, i, j, key, next, input.ok);
    case Unlisting(j, key, next) => UnlistAbsorbs(s, i, j, key, next);
  }

  lemma OtherAbsorbs(s: State, i: nat, input: Input)
    requires CanMove(s, i, input)
    requires var pc := s.threads[i];
             pc.AwaitingReady? || pc.AwaitingData? || pc.Reading? || pc.EndingRead? || pc.Cancelling?
             || pc.CancellingRemotely?
    ensures Absorbing(s, Move(s, i, input), MoveEffect(s, s.threads[i], input), MoveWriter(s.threads[i], input))
  {
    hide Absorbing, ReadyStep, EndReadStep, CancelContextStep, CancelRemotelyStep;
    match s.threads[i]
    case AwaitingReady(j, key, origin) => ReadyAbsorbs(s, i, j, key, origin, input.ok);
    case AwaitingData(j, key) => SameHeapAbsorbs(s, Move(s, i, input));
    case Reading(key) => EndReadAbsorbs(s, i, key);
    case EndingRead(key) => EndReadAbsorbs(s, i, key);
    case Cancelling(j) => CancelContextAbsorbs(s, i, j, input.ok);
    case CancellingRemotely(j) => CancelRemotelyAbsorbs(s, i, j, input.ok);
  }

  lemma StartupAbsorbs(s: State, i: nat, input: Input)
    requires CanMove(s, i, input) && var pc := s.threads[i]; Starting(pc) || pc.Evicting?
    ensures Absorbing(s, Move(s, i, input), MoveEffect(s, s.threads[i], input), MoveWriter(s.threads[i], input))
  {
    hide Absorbing, ResumeStep, RecordRestoredStep, RestoreMonitorStep, EvictEnds, EvictStep;
    match s.threads[i]
    case Resuming(pending) =>
      if pending == {} {
        SameHeapAbsorbs(s, Move(s, i, input));
      } else {
        ResumeAbsorbs(s, i, pending, input.pick);
      }
    case RestoringSlot(j, pending) => RecordRestoredAbsorbs(s, i, j, pending);
    case RestoringMonitor(j, pending) => RestoreMonitorAbsorbs(s, i, j, pending);
    case Evicting(candidates, pinned) =>
      if candidates == [] || !input.ok {
        EvictEndsAbsorbs(s, i);
      } else {
        EvictAbsorbs(s, i, candidates, pinned, input.answer.Accepted?);
      }
  }

  lemma GoAbsorbs(s: State, i: nat, input: Input)
    requires CanMove(s, i, input)
    ensures Absorbing(s, Move(s, i, input), MoveEffect(s, s.threads[i], input), MoveWriter(s.threads[i], input))
  {
    hide Absorbing, Move, MoveEffect;
    var pc := s.threads[i];
    if pc.Finishing? || AfterFinish(pc) {
      FinishingAbsorbs(s, i, input);
    } else if Starting(pc) || pc.Evicting? {
      StartupAbsorbs(s, i, input);
    } else if pc.FirstPersist? || pc.Launching? || pc.Acquiring? || pc.Acquired? || pc.GivingBack? || pc.Ensuring? {
      SlotAbsorbs(s, i, input);
    } else if pc.PersistQueued? || pc.Enqueueing? || pc.Enqueued? || pc.BackingOff? || pc.Sleeping? {
      EnqueuingAbsorbs(s, i, input);
    } else if pc.Announcing? || pc.Announced? || pc.Polling? || pc.PersistPoll? || pc.RetryPersist?
              || pc.EndingMonitor? {
      MonitorAbsorbs(s, i, input);
    } else {
      OtherAbsorbs(s, i, input);
    }
  }

  /** After the first `finishJob`, no step changes whether the job is finished, its error, or its done channel. */
  lemma StepAbsorbs(s: State, a: Action)
    requires Enabled(s, a)
    ensures Absorbing(s, Apply(s, a), EffectOf(s, a), Writer(s, a))
  {
    hide CanMove, Move, ResolveStep, Absorbing, MoveEffect, MoveWriter, ResolveEffect, ResolveWriter, Snapshot;
    match a
    case Go(i, input) => GoAbsorbs(s, i, input);
    case Resolve(key, trackId, size, ok) => ResolveAbsorbs(s, key, trackId, size, ok);
    case List(j, ok) => SnapshotAbsorbs(s, j, ok);
    case _ => SameHeapAbsorbs(s, Apply(s, a));
  }

  /** And no run within one process does. */
  lemma {:induction false} FinishedForGood(s: State, es: seq<Event>, j: nat)
    requires Runs(s, es) && (forall e :: e in es ==> e.Step?) && On(s, j) && s.heap[j].finished
    ensures On(After(s, es), j)
    ensures var job := After(s, es).heap[j];
            job.finished && job.err == s.heap[j].err && job.doneCloses == s.heap[j].doneCloses
            && job.key == s.heap[j].key
    decreases |es|
  {
    if es != [] {
      assert es[0] in es;
      hide Enabled, Apply;
      StepAbsorbs(s, es[0].a);
      FinishedForGood(Following(s, es[0]), es[1..], j);
    }
  }
}
