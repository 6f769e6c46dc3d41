/** Each step of a Soulseek goroutine keeps the state sound. */
module SoulseekSteps {
  import opened Common
  import opened Counting
  import opened SoulseekJobs
  import opened SoulseekMachine
  import opened SoulseekInvariant
  import opened SoulseekConservation
  import opened SoulseekSafety

  // resolve and retry

  lemma EnsureKeepsSound(s: State, i: nat, key: string, trackId: string, size: nat, origin: Origin)
    requires Inv(s) && At(s, i)
    ensures Sound(EnsureStep(s, i, key, trackId, size, origin))
  {
    if key in s.jobs {
      assert On(s, s.jobs[key]);
      hide Sound;
      MoveKeepsSound(s, i, AwaitingReady(s.jobs[key], key, origin));
    } else {
      NewJobKeepsSound(s, i, key, trackId, size, origin);
    }
  }

  lemma NewJobKeepsSound(s: State, i: nat, key: string, trackId: string, size: nat, origin: Origin)
    requires Sound(s) && At(s, i) && key !in s.jobs
    ensures Sound(EnsureStep(s, i, key, trackId, size, origin))
  {
    var t := EnsureStep(s, i, key, trackId, size, origin);
    var pc := FirstPersist(|s.heap|, key, origin);
    NewListedJobKeepsTables(s, t, key, trackId, size);
    QuotaFits(0, s.retryAttempts);
    hide JobSound, TablesSound;
    assert ThreadSound(t, pc);
    hide ThreadSound;
    forall k | 0 <= k < |s.threads| && k != i ensures Preserves(s, t, s.threads[k]) {
    }
    hide Preserves, EnsureStep;
    SoundByMove(s, t, i, pc);
  }

  lemma NewListedJobFitsTables(s: State, t: State, key: string, trackId: string, size: nat)
    requires TablesSound(s)
    requires t.heap == s.heap + [NewJob(key, trackId, size)]
    requires t.jobs == s.jobs[key := |s.heap|] && t.records == s.records[key := |s.heap|]
    requires t.disk == s.disk && t.reading == s.reading && t.restoredUnits == s.restoredUnits && t.gate == s.gate
             && t.limit == s.limit
    ensures TablesSound(t)
  {
    assert NewJob(key, trackId, size).key == key;
    hide NewJob, RecordSound;
  }

  lemma OldJobStaysSound(s: State, t: State, key: string, j: nat)
    requires On(s, j) && JobSound(s, j) && key !in s.jobs
    requires On(t, j) && t.heap[j] == s.heap[j] && t.jobs == s.jobs[key := |s.heap|]
    requires t.retryAttempts == s.retryAttempts && t.stopped == s.stopped
    ensures JobSound(t, j)
  {
    hide Quota;
  }

  lemma NewJobFits(jobs: map<string, nat>, stopped: bool, attempts: nat, j: nat, key: string, trackId: string,
                   size: nat)
    requires key in jobs && jobs[key] == j
    ensures JobFits(jobs, stopped, attempts, j, NewJob(key, trackId, size))
  {
    hide Quota;
  }

  lemma NewListedJobKeepsTables(s: State, t: State, key: string, trackId: string, size: nat)
    requires Sound(s) && key !in s.jobs
    requires t.heap == s.heap + [NewJob(key, trackId, size)]
    requires t.jobs == s.jobs[key := |s.heap|] && t.records == s.records[key := |s.heap|]
    requires (t.disk, t.reading, t.restoredUnits, t.gate) == (s.disk, s.reading, s.restoredUnits, s.gate)
    requires (t.limit, t.retryAttempts, t.stopped) == (s.limit, s.retryAttempts, s.stopped)
    ensures TablesSound(t) && (forall j :: 0 <= j < |t.heap| ==> JobSound(t, j))
  {
    hide Quota, ThreadSound, TablesSound, JobFits;
    NewListedJobFitsTables(s, t, key, trackId, size);
    forall j | 0 <= j < |t.heap| ensures JobSound(t, j) {
      if j < |s.heap| {
        OldJobStaysSound(s, t, key, j);
      } else {
        NewJobFits(t.jobs, t.stopped, t.retryAttempts, j, key, trackId, size);
      }
    }
  }

  lemma FirstPersistKeepsSound(s: State, i: nat, j: nat, key: string, origin: Origin, ok: bool)
    requires Inv(s) && At(s, i) && On(s, j) && s.threads[i] == FirstPersist(j, key, origin)
    ensures Sound(FirstPersistStep(s, i, j, key, origin, ok))
  {
    assert ThreadSound(s, s.threads[i]);
    if ok {
      WriteKeepsSound(s, j, true);
      hide JobSound, TablesSound;
      MoveKeepsSound(Written(s, j, true), i, Launching(j, key, origin));
    } else {
      hide JobSound, TablesSound;
      MoveKeepsSound(s, i, FailedBy(j, key, RecordNotWritten, Leave(key, origin)));
    }
  }

  lemma LaunchKeepsSound(s: State, i: nat, j: nat, key: string, origin: Origin)
    requires Inv(s) && At(s, i) && s.threads[i] == Launching(j, key, origin)
    ensures Sound(LaunchStep(s, i, j, key, origin))
  {
    assert ThreadSound(s, s.threads[i]);
    hide JobSound, TablesSound;
    MoveKeepsSound(s, i, AwaitingReady(j, key, origin));
    SpawnKeepsSound(Moved(s, i, AwaitingReady(j, key, origin)), Acquiring(j));
  }

  /** Ending a read touches the read counts only, and starts no new one. */
  lemma EndReadBooks(s: State, i: nat, key: string)
    requires At(s, i)
    ensures var t := EndReadStep(s, i, key);
            && t.threads == s.threads[i := Done] && t.heap == s.heap && t.jobs == s.jobs && t.records == s.records
            && t.disk == s.disk && t.gate == s.gate && t.restoredUnits == s.restoredUnits && t.limit == s.limit
            && t.retryAttempts == s.retryAttempts && t.stopped == s.stopped
            && (Positive(s.reading) ==> Positive(t.reading))
            && (forall k :: Count(s.reading, k) == 0 ==> Count(t.reading, k) == 0)
  {
    if Count(s.reading, key) <= 1 {
    } else {
    }
  }

  lemma EndReadKeepsSound(s: State, i: nat, key: string)
    requires Inv(s) && At(s, i)
    ensures Sound(EndReadStep(s, i, key))
  {
    var t := EndReadStep(s, i, key);
    EndReadBooks(s, i, key);
    hide ThreadSound, JobFits, EndReadStep, Conserved;
    forall j | 0 <= j < |t.heap| ensures JobSound(t, j) {
      assert JobSound(s, j);
    }
    assert TablesSound(t) by {
      hide Preserves;
    }
    hide TablesSound;
    assert ThreadSound(t, Done) by { DoneIsSound(t); }
    SoundByMove(s, t, i, Done);
  }

  lemma DoneIsSound(s: State)
    ensures ThreadSound(s, Done)
  {
  }

  // startEnqueue's goroutine

  lemma GateKeepsSound(s: State, gate: int, units: int)
    requires Sound(s) && 0 <= units && gate - units <= s.limit
    ensures Sound(s.(gate := gate, restoredUnits := units))
  {
    hide JobSound, ThreadSound;
    FrameKeepsSound(s, s.(gate := gate, restoredUnits := units));
  }

  lemma AcquiredKeepsSound(s: State, i: nat, j: nat)
    requires Inv(s) && At(s, i) && On(s, j) && s.threads[i] == Acquiring(j) && s.gate < s.limit
    ensures Sound(AcquireStep(s, i, j, true))
  {
    WorkerFacts(s, i, j);
    hide JobFits, WorkFits;
    GateKeepsSound(s, s.gate + 1, s.restoredUnits);
    MoveKeepsSound(s.(gate := s.gate + 1), i, Acquired(j));
  }

  lemma NotAcquiredKeepsSound(s: State, i: nat, j: nat)
    requires Inv(s) && At(s, i) && On(s, j) && s.threads[i] == Acquiring(j) && (s.stopped || s.heap[j].cancelled)
    ensures Sound(AcquireStep(s, i, j, false))
  {
    hide Sound, Conserved, Owned, WorkFits, Quota;
    WorkerFacts(s, i, j);
    WorkerEndsKeepsSound(s, i, j, Done);
  }

  lemma AcquireKeepsSound(s: State, i: nat, j: nat, ok: bool)
    requires Inv(s) && At(s, i) && On(s, j) && s.threads[i] == Acquiring(j)
    requires if ok then s.gate < s.limit else s.stopped || s.heap[j].cancelled
    ensures Sound(AcquireStep(s, i, j, ok))
  {
    hide Sound, Conserved, AcquireStep, JobFits, WorkFits, Owned;
    if ok {
      AcquiredKeepsSound(s, i, j);
    } else {
      NotAcquiredKeepsSound(s, i, j);
    }
  }

  lemma JobFitsWithoutWorker(jobs: map<string, nat>, stopped: bool, attempts: nat, j: nat, job: Job)
    requires JobFits(jobs, stopped, attempts, j, job)
    requires job.finished || job.closers > 0 || stopped
    ensures JobFits(jobs, stopped, attempts, j, job.(worker := false))
  {
    hide Quota;
  }

  lemma WorkerEndIsSound(s: State, j: nat, next: Pc)
    requires On(s, j) && (next == Done || next == EndingMonitor(j))
    ensures ThreadSound(s, next)
  {
  }

  lemma WorkerEndsKeepsSound(s: State, i: nat, j: nat, next: Pc)
    requires Inv(s) && At(s, i) && On(s, j) && WorkerOf(j) in Owned(s.threads[i])
    requires JobFits(s.jobs, s.stopped, s.retryAttempts, j, s.heap[j])
    requires s.heap[j].finished || s.heap[j].closers > 0 || s.stopped
    requires next == Done || next == EndingMonitor(j)
    ensures Sound(WorkerEnds(s, i, j, next))
  {
    hide Inv, Sound, Owned, JobFits, ThreadSound;
    JobFitsWithoutWorker(s.jobs, s.stopped, s.retryAttempts, j, s.heap[j]);
    WorkerEndIsSound(WorkerEnds(s, i, j, next), j, next);
    JobMoveKeepsSound(s, i, next, j, s.heap[j].(worker := false));
  }

  lemma FinishedSlotKeepsSound(s: State, i: nat, j: nat)
    requires Inv(s) && At(s, i) && On(s, j) && s.threads[i] == Acquired(j) && s.heap[j].finished
    ensures Sound(RecordSlotStep(s, i, j))
  {
    hide Conserved, Sound, Owned;
    MoveKeepsSound(s, i, GivingBack(j));
  }

  lemma LiveSlotKeepsSound(s: State, i: nat, j: nat)
    requires Inv(s) && At(s, i) && On(s, j) && s.threads[i] == Acquired(j) && !s.heap[j].finished
    ensures Sound(RecordSlotStep(s, i, j))
  {
    WorkerFacts(s, i, j);
    hide Conserved, Sound, Owned, Quota;
    WorkerKeepsSound(s, i, PersistQueued(j), j, SlotRecorded(s.heap[j]));
  }

  lemma RecordSlotKeepsSound(s: State, i: nat, j: nat)
    requires Inv(s) && At(s, i) && On(s, j) && s.threads[i] == Acquired(j)
    ensures Sound(RecordSlotStep(s, i, j))
  {
    hide Conserved, Sound, Owned, RecordSlotStep, JobFits, WorkFits;
    if s.heap[j].finished {
      FinishedSlotKeepsSound(s, i, j);
    } else {
      LiveSlotKeepsSound(s, i, j);
    }
  }

  lemma ReleaseKeepsSound(s: State, restored: bool)
    requires Sound(s) && (restored ==> s.restoredUnits > 0)
    ensures Sound(GateReleased(s, restored))
  {
    assert TablesSound(s);
    hide JobSound, ThreadSound, TablesSound, Sound;
    if s.gate > 0 {
      GateKeepsSound(s, s.gate - 1, if restored then s.restoredUnits - 1 else s.restoredUnits);
    }
  }

  lemma GiveBackKeepsSound(s: State, i: nat, j: nat)
    requires Inv(s) && At(s, i) && On(s, j) && s.threads[i] == GivingBack(j)
    ensures Sound(GiveBackStep(s, i, j))
  {
    FactsOf(s, i, j);
    hide Conserved, Sound, JobFits;
    WorkerEndsKeepsSound(s, i, j, Done);
    ReleaseKeepsSound(WorkerEnds(s, i, j, Done), false);
  }

  lemma PersistQueuedKeepsSound(s: State, i: nat, j: nat, ok: bool)
    requires Inv(s) && At(s, i) && On(s, j) && s.threads[i] == PersistQueued(j)
    ensures Sound(PersistQueuedStep(s, i, j, ok))
  {
    WorkerFacts(s, i, j);
    hide Conserved, JobFits, Sound;
    WriteAndGoOn(s, i, j, ok, if s.retryAttempts == 0 then Announcing(j) else Enqueueing(j, 1, true));
  }

  /** A worker writes its record and goes on. */
  lemma WriteAndGoOn(s: State, i: nat, j: nat, ok: bool, pc: Pc)
    requires Inv(s) && At(s, i) && On(s, j) && Working(pc) && pc.job == j && WorkFits(s.retryAttempts, pc, s.heap[j])
    requires pc.FirstPersist? || pc.Launching? ==> pc.key == s.heap[j].key
    ensures Sound(Moved(Written(s, j, ok), i, pc))
  {
    hide Conserved, Sound, WorkFits;
    WriteKeepsSound(s, j, ok);
    MoveKeepsSound(Written(s, j, ok), i, pc);
  }

  /** A worker that gives up heads for `finishJob` with the job as it is. */
  lemma GiveUpKeepsSound(s: State, i: nat, j: nat, state: DownloadState, err: Option<Fault>, next: Next)
    requires Inv(s) && At(s, i) && On(s, j)
    requires state != Waiting && !next.ToResume? && (next.ToEndMonitor? ==> On(s, next.job))
    ensures Sound(Moved(s, i, Finishing(j, s.heap[j].key, state, err, ByWorker, next)))
  {
    hide Conserved, Sound;
    MoveKeepsSound(s, i, Finishing(j, s.heap[j].key, state, err, ByWorker, next));
  }

  lemma AnnounceKeepsSound(s: State, i: nat, j: nat)
    requires Inv(s) && At(s, i) && On(s, j) && s.threads[i] == Announcing(j)
    ensures Sound(AnnounceStep(s, i, j))
  {
    WorkerFacts(s, i, j);
    hide Conserved, Sound, Owned;
    WorkerKeepsSound(s, i, Announced(j), j, s.heap[j].(ready := true));
  }

  lemma BeginMonitorKeepsSound(s: State, i: nat, j: nat)
    requires Inv(s) && At(s, i) && On(s, j) && s.threads[i] == Announced(j)
    ensures Sound(BeginMonitorStep(s, i, j))
  {
    WorkerFacts(s, i, j);
    hide Conserved, Sound, Owned;
    if s.heap[j].finished || s.heap[j].monitoring {
      WorkerEndsKeepsSound(s, i, j, Done);
    } else {
      WorkerKeepsSound(s, i, Polling(j), j, s.heap[j].(monitoring := true));
    }
  }

  // enqueueWithRetry

  lemma CountedFits(s: State, j: nat, attempt: nat, first: bool)
    requires On(s, j) && JobFits(s.jobs, s.stopped, s.retryAttempts, j, s.heap[j]) && !s.heap[j].dormant
    requires WorkFits(s.retryAttempts, Enqueueing(j, attempt, first), s.heap[j])
    ensures var job := s.heap[j].(enqueues := s.heap[j].enqueues + 1);
            Basic(s.heap[j], job) && JobFits(s.jobs, s.stopped, s.retryAttempts, j, job)
  {
    hide Quota;
  }

  lemma BackOffFits(s: State, j: nat, attempt: nat, first: bool, fault: Fault)
    requires On(s, j) && JobFits(s.jobs, s.stopped, s.retryAttempts, j, s.heap[j]) && !s.heap[j].dormant
    requires WorkFits(s.retryAttempts, Enqueueing(j, attempt, first), s.heap[j])
    requires attempt < s.retryAttempts
    ensures var job := BackedOff(s.heap[j].(enqueues := s.heap[j].enqueues + 1), fault);
            && Basic(s.heap[j], job) && JobFits(s.jobs, s.stopped, s.retryAttempts, j, job)
            && WorkFits(s.retryAttempts, BackingOff(j, attempt, first), job)
  {
    hide Quota;
  }

  lemma BatchFits(s: State, j: nat, attempt: nat, first: bool, batchId: string, transferId: string)
    requires On(s, j) && JobFits(s.jobs, s.stopped, s.retryAttempts, j, s.heap[j]) && !s.heap[j].dormant
    requires WorkFits(s.retryAttempts, Enqueueing(j, attempt, first), s.heap[j])
    ensures var job := BatchStored(s.heap[j].(enqueues := s.heap[j].enqueues + 1), batchId, transferId);
            && Basic(s.heap[j], job) && JobFits(s.jobs, s.stopped, s.retryAttempts, j, job)
            && WorkFits(s.retryAttempts, Enqueued(j, attempt, first), job)
  {
    hide Quota;
  }

  lemma EnqueueKeepsSound(s: State, i: nat, j: nat, attempt: nat, first: bool, answer: Answer)
    requires Inv(s) && At(s, i) && On(s, j) && s.threads[i] == Enqueueing(j, attempt, first)
    ensures Sound(EnqueueStep(s, i, j, attempt, first, answer))
  {
    WorkerFacts(s, i, j);
    hide Conserved, Sound, Owned, JobFits, WorkFits, BatchStored, BackedOff;
    var counted := s.heap[j].(enqueues := s.heap[j].enqueues + 1);
    match answer
    case Accepted(batchId, transferId) =>
      BatchFits(s, j, attempt, first, batchId, transferId);
      WorkerKeepsSound(s, i, Enqueued(j, attempt, first), j, BatchStored(counted, batchId, transferId));
    case Temporary(fault) =>
      if attempt >= s.retryAttempts {
        CountedFits(s, j, attempt, first);
        FinishingKeepsSound(s, i, j, counted, Failed, Some(fault), ByWorker, AfterEnqueueError(j, first));
      } else {
        BackOffFits(s, j, attempt, first, fault);
        WorkerKeepsSound(s, i, BackingOff(j, attempt, first), j, BackedOff(counted, fault));
      }
    case Permanent(fault) =>
      CountedFits(s, j, attempt, first);
      FinishingKeepsSound(s, i, j, counted, Failed, Some(fault), ByWorker, AfterEnqueueError(j, first));
  }

  lemma PersistEnqueuedKeepsSound(s: State, i: nat, j: nat, attempt: nat, first: bool, ok: bool)
    requires Inv(s) && At(s, i) && On(s, j) && s.threads[i] == Enqueued(j, attempt, first)
    ensures Sound(PersistEnqueuedStep(s, i, j, first, ok))
  {
    WorkerFacts(s, i, j);
    hide Conserved, Sound, Owned, JobFits;
    if ok {
      WriteAndGoOn(s, i, j, true, if first then Announcing(j) else Polling(j));
    } else {
      GiveUpKeepsSound(s, i, j, Failed, Some(RecordNotWritten), AfterEnqueueError(j, first));
    }
  }

  lemma PersistBackoffKeepsSound(s: State, i: nat, j: nat, attempt: nat, first: bool, ok: bool)
    requires Inv(s) && At(s, i) && On(s, j) && s.threads[i] == BackingOff(j, attempt, first)
    ensures Sound(PersistBackoffStep(s, i, j, attempt, first, ok))
  {
    WorkerFacts(s, i, j);
    hide Conserved, Sound, Owned, JobFits;
    WriteAndGoOn(s, i, j, ok, Sleeping(j, attempt, first));
  }

  lemma WakeKeepsSound(s: State, i: nat, j: nat, attempt: nat, first: bool, ok: bool)
    requires Inv(s) && At(s, i) && On(s, j) && s.threads[i] == Sleeping(j, attempt, first)
    ensures Sound(WakeStep(s, i, j, attempt, first, ok))
  {
    WorkerFacts(s, i, j);
    hide Conserved, Sound, Owned;
    if ok {
      WorkerKeepsSound(s, i, Enqueueing(j, attempt + 1, first), j, Awoken(s.heap[j]));
    } else {
      GiveUpKeepsSound(s, i, j, Failed, Some(ContextEnded), AfterEnqueueError(j, first));
    }
  }

  // monitorDownload

  lemma RetryIsBasic(job: Job, fault: Fault)
    ensures Basic(job, RetryPrepared(job, fault))
  {
  }

  /** An automatic retry opens a full sequence of calls on the account of one retry less. */
  lemma RetryFits(jobs: map<string, nat>, stopped: bool, attempts: nat, j: nat, job: Job, fault: Fault)
    requires JobFits(jobs, stopped, attempts, j, job) && WorkFits(attempts, Polling(j), job) && MayRetry(job, attempts)
    requires job.worker && !job.dormant
    ensures JobFits(jobs, stopped, attempts, j, RetryPrepared(job, fault))
    ensures WorkFits(attempts, RetryPersist(j), RetryPrepared(job, fault))
  {
    var left := RetriesLeft(job.retryCount + 1, attempts);
    assert RetriesLeft(job.retryCount, attempts) == left + 1;
    assert Quota(left + 1, attempts) == attempts + Quota(left, attempts);
    hide Quota, RetriesLeft;
  }

  lemma RetryKeepsSound(s: State, i: nat, j: nat, fault: Fault)
    requires Inv(s) && At(s, i) && On(s, j) && s.threads[i] == Polling(j) && MayRetry(s.heap[j], s.retryAttempts)
    ensures Sound(WithJob(Moved(s, i, RetryPersist(j)), j, RetryPrepared(s.heap[j], fault)))
  {
    WorkerFacts(s, i, j);
    RetryFits(s.jobs, s.stopped, s.retryAttempts, j, s.heap[j], fault);
    hide Conserved, Sound, Owned, WorkFits, JobFits, RetryPrepared, MayRetry;
    assert Basic(s.heap[j], RetryPrepared(s.heap[j], fault)) by { RetryIsBasic(s.heap[j], fault); }
    WorkerKeepsSound(s, i, RetryPersist(j), j, RetryPrepared(s.heap[j], fault));
  }

  lemma ProgressKeepsSound(s: State, i: nat, j: nat, transferId: string, bytes: nat, phase: Phase, persist: bool)
    requires Inv(s) && At(s, i) && On(s, j) && s.threads[i] == Polling(j)
    ensures Sound(WithJob(Moved(s, i, if persist then PersistPoll(j) else Polling(j)), j,
                          TransferUpdated(s.heap[j], transferId, bytes, phase)))
  {
    WorkerFacts(s, i, j);
    hide Conserved, Sound, Owned, Quota;
    WorkerKeepsSound(s, i, if persist then PersistPoll(j) else Polling(j), j,
                     TransferUpdated(s.heap[j], transferId, bytes, phase));
  }

  lemma PollKeepsSound(s: State, i: nat, j: nat, result: PollResult)
    requires Inv(s) && At(s, i) && On(s, j) && s.threads[i] == Polling(j)
    requires result.LoopEnds? ==> s.stopped || s.heap[j].finished
    ensures Sound(PollStep(s, i, j, result))
  {
    WorkerFacts(s, i, j);
    hide Conserved, Sound, Owned, JobFits, WorkFits;
    match result
    case LoopEnds => WorkerEndsKeepsSound(s, i, j, EndingMonitor(j));
    case Progress(transferId, bytes, phase, persist) => ProgressKeepsSound(s, i, j, transferId, bytes, phase, persist);
    case Succeeded => GiveUpKeepsSound(s, i, j, Cached, None, ToEndMonitor(j));
    case Broken(fault) => GiveUpKeepsSound(s, i, j, Failed, Some(fault), ToEndMonitor(j));
    case TransferFailed(cancelled, fault) =>
      GiveUpKeepsSound(s, i, j, if cancelled then Cancelled else Failed, Some(fault), ToEndMonitor(j));
    case Retryable(fault) =>
      if MayRetry(s.heap[j], s.retryAttempts) {
        RetryKeepsSound(s, i, j, fault);
      } else {
        GiveUpKeepsSound(s, i, j, Failed, Some(fault), ToEndMonitor(j));
      }
  }

  lemma PersistInMonitorKeepsSound(s: State, i: nat, j: nat, next: Pc, ok: bool)
    requires Inv(s) && At(s, i) && On(s, j)
    requires (s.threads[i] == PersistPoll(j) && next == Polling(j))
             || (s.threads[i] == RetryPersist(j) && next == Enqueueing(j, 1, false))
    ensures Sound(PersistInMonitorStep(s, i, j, next, ok))
  {
    WorkerFacts(s, i, j);
    hide Conserved, Sound, Owned, JobFits, Quota, RetriesLeft;
    if ok {
      WriteAndGoOn(s, i, j, true, next);
    } else {
      GiveUpKeepsSound(s, i, j, Failed, Some(RecordNotWritten), ToEndMonitor(j));
    }
  }

  lemma UnmonitoredFits(jobs: map<string, nat>, stopped: bool, attempts: nat, j: nat, job: Job)
    requires JobFits(jobs, stopped, attempts, j, job)
    ensures JobFits(jobs, stopped, attempts, j, job.(monitoring := false))
  {
    hide Quota;
  }

  lemma EndMonitorKeepsSound(s: State, i: nat, j: nat)
    requires Inv(s) && At(s, i) && On(s, j)
    ensures Sound(EndMonitorStep(s, i, j))
  {
    hide Inv, Sound, JobFits, ThreadSound;
    FactsOf(s, i, j);
    UnmonitoredFits(s.jobs, s.stopped, s.retryAttempts, j, s.heap[j]);
    DoneIsSound(EndMonitorStep(s, i, j));
    PlainMoveKeepsSound(s, i, Done, j, s.heap[j].(monitoring := false));
  }
}
