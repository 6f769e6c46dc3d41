/** The remaining steps keep the state sound: `finishJob`, cancel, the restart loop, resolve, listing, eviction. */
module SoulseekOtherSteps {
  import opened Common
  import opened Counting
  import opened SoulseekJobs
  import opened SoulseekMachine
  import opened SoulseekInvariant
  import opened SoulseekConservation
  import opened SoulseekSafety
  import opened SoulseekSteps

  // finishJob

  /** Whoever enters `finishJob` still has the mark under which it was called. */
  lemma CloserFacts(s: State, i: nat, j: nat, key: string, state: DownloadState, err: Option<Fault>, closer: Closer,
                    next: Next)
    requires Inv(s) && At(s, i) && On(s, j) && s.threads[i] == Finishing(j, key, state, err, closer, next)
    ensures JobFits(s.jobs, s.stopped, s.retryAttempts, j, s.heap[j]) && ThreadSound(s, s.threads[i])
    ensures closer.ByWorker? ==> s.heap[j].worker
    ensures closer.ByCanceller? ==> s.heap[j].closers > 0
    ensures closer.ByResume? ==> s.heap[j].dormant && DormantJob(j) in Owned(s.threads[i])
    ensures !closer.ByResume? ==> !s.heap[j].dormant
  {
    FactsOf(s, i, j);
    hide Quota;
    OwnedIsRecorded(s, i, Mark(j, closer));
  }

  lemma FinishKeepsJob(s: State, j: nat, state: DownloadState, err: Option<Fault>, closer: Closer)
    requires On(s, j) && JobFits(s.jobs, s.stopped, s.retryAttempts, j, s.heap[j]) && state != Waiting
    requires closer.ByCanceller? ==> s.heap[j].closers > 0
    requires if closer.ByResume? then s.heap[j].dormant else !s.heap[j].dormant
    ensures var closed := ClosedBy(FinishedJob(s.heap[j], state, err), closer);
            && JobFits(s.jobs, s.stopped, s.retryAttempts, j, closed) && closed.finished
            && Basic(s.heap[j], closed) && WorkKept(s.heap[j], closed) && closed.key == s.heap[j].key
            && (!closer.ByResume? ==> DormantKept(s.heap[j], closed))
  {
    hide Quota;
  }

  lemma FinishKeepsSound(s: State, i: nat, j: nat, key: string, state: DownloadState, err: Option<Fault>,
                         closer: Closer, next: Next)
    requires Inv(s) && At(s, i) && On(s, j) && s.threads[i] == Finishing(j, key, state, err, closer, next)
    ensures Sound(FinishStep(s, i, j, key, state, err, closer, next))
  {
    CloserFacts(s, i, j, key, state, err, closer, next);
    FinishKeepsJob(s, j, state, err, closer);
    var closed := ClosedBy(FinishedJob(s.heap[j], state, err), closer);
    var pc := AfterFinishing(s.heap[j], j, key, next);
    AfterFinishIsSound(s, i, j, key, state, err, closer, next, closed);
    FinishStepForm(s, i, j, key, state, err, closer, next);
    hide Conserved, Sound, FinishedJob, ClosedBy, JobFits, Owned, ThreadSound, FinishStep, AfterFinishing;
    JobMoveKeepsSound(s, i, pc, j, closed);
  }

  lemma FinishStepForm(s: State, i: nat, j: nat, key: string, state: DownloadState, err: Option<Fault>, closer: Closer,
                       next: Next)
    requires At(s, i) && On(s, j)
    ensures FinishStep(s, i, j, key, state, err, closer, next)
         == WithJob(Moved(s, i, AfterFinishing(s.heap[j], j, key, next)), j,
                    ClosedBy(FinishedJob(s.heap[j], state, err), closer))
  {
    hide FinishedJob, ClosedBy;
  }

  lemma AfterFinishIsSound(s: State, i: nat, j: nat, key: string, state: DownloadState, err: Option<Fault>,
                           closer: Closer, next: Next, closed: Job)
    requires On(s, j) && At(s, i) && ThreadSound(s, Finishing(j, key, state, err, closer, next))
    requires closed.finished && closed.key == s.heap[j].key
    ensures var pc := AfterFinishing(s.heap[j], j, key, next); ThreadSound(WithJob(Moved(s, i, pc), j, closed), pc)
  {
    var pc := AfterFinishing(s.heap[j], j, key, next);
    var t := WithJob(Moved(s, i, pc), j, closed);
    assert NextSound(t, next);
    OnwardIsSound(t, next);
  }

  lemma OnwardIsSound(s: State, next: Next)
    requires NextSound(s, next)
    ensures ThreadSound(s, Onward(next))
  {
  }

  lemma ReturnKeepsSound(s: State, i: nat, j: nat, key: string, token: Option<bool>, next: Next)
    requires Inv(s) && At(s, i) && On(s, j) && s.threads[i] == Returning(j, key, token, next)
    ensures Sound(ReturnStep(s, i, j, key, token, next))
  {
    FactsOf(s, i, j);
    ReturnMoveKeepsSound(s, i, j, key, token, next);
    var on := WithJob(Moved(s, i, FinishAnnounce(j, key, next)), j, s.heap[j].(cancelled := true));
    if token.Some? {
      TokenIsCovered(s, i, token.value);
      hide Sound, Conserved, JobFits, ThreadSound;
      ReleaseKeepsSound(on, token.value);
    }
  }

  lemma ReturnedIsSound(s: State, i: nat, j: nat, key: string, token: Option<bool>, next: Next)
    requires At(s, i) && On(s, j) && ThreadSound(s, Returning(j, key, token, next))
    requires JobFits(s.jobs, s.stopped, s.retryAttempts, j, s.heap[j])
    ensures var job, pc := s.heap[j].(cancelled := true), FinishAnnounce(j, key, next);
            ThreadSound(WithJob(Moved(s, i, pc), j, job), pc) && JobFits(s.jobs, s.stopped, s.retryAttempts, j, job)
  {
    hide Quota;
  }

  lemma ReturnMoveKeepsSound(s: State, i: nat, j: nat, key: string, token: Option<bool>, next: Next)
    requires Inv(s) && At(s, i) && On(s, j) && s.threads[i] == Returning(j, key, token, next)
    ensures Sound(WithJob(Moved(s, i, FinishAnnounce(j, key, next)), j, s.heap[j].(cancelled := true)))
  {
    hide Inv, Sound, JobFits, ThreadSound;
    FactsOf(s, i, j);
    ReturnedIsSound(s, i, j, key, token, next);
    PlainMoveKeepsSound(s, i, FinishAnnounce(j, key, next), j, s.heap[j].(cancelled := true));
  }

  lemma TokenIsCovered(s: State, i: nat, restored: bool)
    requires Conserved(s) && At(s, i) && Token(restored) in Owned(s.threads[i])
    ensures restored ==> s.restoredUnits > 0
  {
    hide Owned, Conserved;
    OwnedIsRecorded(s, i, Token(restored));
  }

  lemma AnnouncedIsSound(s: State, i: nat, j: nat, key: string, next: Next)
    requires At(s, i) && On(s, j) && ThreadSound(s, FinishAnnounce(j, key, next))
    requires JobFits(s.jobs, s.stopped, s.retryAttempts, j, s.heap[j])
    ensures var job, pc := s.heap[j].(ready := true), FinishPersist(j, key, next);
            ThreadSound(WithJob(Moved(s, i, pc), j, job), pc) && JobFits(s.jobs, s.stopped, s.retryAttempts, j, job)
  {
    hide Quota;
  }

  lemma FinishAnnounceKeepsSound(s: State, i: nat, j: nat, key: string, next: Next)
    requires Inv(s) && At(s, i) && On(s, j) && s.threads[i] == FinishAnnounce(j, key, next)
    ensures Sound(FinishAnnounceStep(s, i, j, key, next))
  {
    hide Inv, Sound, JobFits, ThreadSound;
    FactsOf(s, i, j);
    AnnouncedIsSound(s, i, j, key, next);
    PlainMoveKeepsSound(s, i, FinishPersist(j, key, next), j, s.heap[j].(ready := true));
  }

  lemma FinishPersistKeepsSound(s: State, i: nat, j: nat, key: string, next: Next, ok: bool)
    requires Inv(s) && At(s, i) && On(s, j) && s.threads[i] == FinishPersist(j, key, next)
    ensures Sound(FinishPersistStep(s, i, j, key, next, ok))
  {
    FactsOf(s, i, j);
    hide Conserved, Sound;
    WriteKeepsSound(s, j, ok);
    MoveKeepsSound(Written(s, j, ok), i, Unlisting(j, key, next));
  }

  lemma UnlistKeepsSound(s: State, i: nat, j: nat, key: string, next: Next)
    requires Inv(s) && At(s, i) && s.threads[i] == Unlisting(j, key, next)
    ensures Sound(UnlistStep(s, i, j, key, next))
  {
    assert ThreadSound(s, s.threads[i]);
    if key in s.jobs && s.jobs[key] == j {
      UnlistedKeepsSound(s, j, key);
    }
    hide Sound, Conserved, ThreadSound;
    var t := if key in s.jobs && s.jobs[key] == j then s.(jobs := s.jobs - {key}) else s;
    OnwardIsSound(t, next);
    MoveKeepsSound(t, i, Onward(next));
  }

  lemma UnlistedFitsTables(s: State, key: string)
    requires TablesSound(s)
    ensures TablesSound(s.(jobs := s.jobs - {key}))
  {
    hide RecordSound;
  }

  lemma UnlistedFits(jobs: map<string, nat>, stopped: bool, attempts: nat, k: nat, job: Job, j: nat, key: string)
    requires JobFits(jobs, stopped, attempts, k, job) && key in jobs && jobs[key] == j && (k == j ==> job.finished)
    ensures JobFits(jobs - {key}, stopped, attempts, k, job)
  {
    hide Quota;
  }

  lemma UnlistedKeepsSound(s: State, j: nat, key: string)
    requires Sound(s) && On(s, j) && s.heap[j].finished && key in s.jobs && s.jobs[key] == j
    ensures Sound(s.(jobs := s.jobs - {key}))
  {
    hide Quota, ThreadSound, TablesSound, JobFits;
    var t := s.(jobs := s.jobs - {key});
    UnlistedFitsTables(s, key);
    forall k | 0 <= k < |t.heap| ensures JobSound(t, k) {
      assert JobSound(s, k);
      UnlistedFits(s.jobs, s.stopped, s.retryAttempts, k, s.heap[k], j, key);
    }
    forall k | 0 <= k < |t.threads| ensures ThreadSound(t, t.threads[k]) {
      ThreadKeepsSound(s, t, s.threads[k]);
    }
  }

  // cancel

  lemma CancelKeepsSound(s: State, i: nat, j: nat, cancelled: bool)
    requires Inv(s) && At(s, i) && On(s, j) && !s.heap[j].dormant
    ensures var job := s.heap[j].(cancelled := cancelled, closers := s.heap[j].closers + 1);
            Sound(WithJob(Moved(s, i, Finishing(j, job.key, Cancelled, Some(CancelledByUser), ByCanceller, ToDone)), j,
                          job))
  {
    FactsOf(s, i, j);
    hide Conserved, Sound, Owned, Quota, ThreadSound;
    var job := s.heap[j].(cancelled := cancelled, closers := s.heap[j].closers + 1);
    FinishingKeepsSound(s, i, j, job, Cancelled, Some(CancelledByUser), ByCanceller, ToDone);
  }

  // resume

  lemma DormantFacts(s: State, i: nat, j: nat)
    requires Inv(s) && At(s, i) && On(s, j) && DormantJob(j) in Owned(s.threads[i])
    ensures JobFits(s.jobs, s.stopped, s.retryAttempts, j, s.heap[j]) && s.heap[j].dormant
  {
    FactsOf(s, i, j);
    hide Quota, ThreadSound;
    OwnedIsRecorded(s, i, DormantJob(j));
  }

  lemma AwaitingMonitorIsSound(s: State, t: State, j: nat, job: Job, pending: set<nat>)
    requires On(s, j) && t.heap == s.heap[j := job] && AllDormant(s, pending) && j !in pending && job.dormant
    ensures ThreadSound(t, RestoringMonitor(j, pending))
  {
  }

  lemma RestoredIsSound(s: State, i: nat, j: nat, pending: set<nat>)
    requires Inv(s) && At(s, i) && On(s, j) && s.threads[i] == RestoringSlot(j, pending)
    ensures var job := s.heap[j].(slotHeld := true, restoredSlot := true);
            && JobFits(s.jobs, s.stopped, s.retryAttempts, j, job)
            && ThreadSound(WithJob(Moved(s, i, RestoringMonitor(j, pending)), j, job), RestoringMonitor(j, pending))
  {
    DormantFacts(s, i, j);
    assert ThreadSound(s, s.threads[i]);
    var job := s.heap[j].(slotHeld := true, restoredSlot := true);
    assert JobFits(s.jobs, s.stopped, s.retryAttempts, j, job);
    assert AllDormant(s, pending) && j !in pending && job.dormant;
    hide Conserved, Sound, Quota, Owned, ThreadSound, JobFits;
    AwaitingMonitorIsSound(s, WithJob(Moved(s, i, RestoringMonitor(j, pending)), j, job), j, job, pending);
  }

  lemma RestoringMayRewrite(s: State, i: nat, j: nat, pending: set<nat>)
    requires At(s, i) && On(s, j) && s.threads[i] == RestoringSlot(j, pending)
    ensures MayRewrite(s, i, j, s.heap[j].(slotHeld := true, restoredSlot := true))
  {
    assert DormantJob(j) in Owned(s.threads[i]);
    hide Owned;
  }

  lemma RecordRestoredKeepsSound(s: State, i: nat, j: nat, pending: set<nat>)
    requires Inv(s) && At(s, i) && On(s, j) && s.threads[i] == RestoringSlot(j, pending)
    ensures Sound(RecordRestoredStep(s, i, j, pending))
  {
    hide Conserved, Sound, JobFits, Owned, ThreadSound, Basic, MayRewrite;
    var job := s.heap[j].(slotHeld := true, restoredSlot := true);
    RestoredIsSound(s, i, j, pending);
    RestoringMayRewrite(s, i, j, pending);
    JobMoveKeepsSound(s, i, RestoringMonitor(j, pending), j, job);
  }

  /** The restart loop rewrites a job it has reached and goes on; `born` works for that job from here on. */
  lemma WakeKeepsLoopSound(s: State, i: nat, rest: set<nat>, j: nat, woken: Job, born: Pc)
    requires Inv(s) && At(s, i) && On(s, j) && j !in rest && AllDormant(s, rest)
    requires DormantJob(j) in Owned(s.threads[i]) && Basic(s.heap[j], woken)
    requires JobFits(s.jobs, s.stopped, s.retryAttempts, j, woken)
    requires Working(born) && born.job == j && WorkFits(s.retryAttempts, born, woken) && !BeforeSlotNamed(born)
    ensures Sound(Spawned(WithJob(Moved(s, i, Resuming(rest)), j, woken), born))
  {
    hide Conserved, Sound, Owned, JobFits, WorkFits;
    var t := WithJob(Moved(s, i, Resuming(rest)), j, woken);
    JobMoveKeepsSound(s, i, Resuming(rest), j, woken);
    SpawnKeepsSound(t, born);
  }

  predicate BeforeSlotNamed(pc: Pc) {
    pc.FirstPersist? || pc.Launching?
  }

  lemma RequeuedFits(s: State, i: nat, j: nat, job: Job)
    requires Inv(s) && At(s, i) && On(s, j) && DormantJob(j) in Owned(s.threads[i]) && s.heap[j].batchId == ""
    requires !s.heap[j].slotHeld && job == s.heap[j].(dormant := false, worker := true)
    ensures Basic(s.heap[j], job)
    ensures JobFits(s.jobs, s.stopped, s.retryAttempts, j, job) && WorkFits(s.retryAttempts, Acquiring(j), job)
  {
    hide Inv, Owned, Quota, RetriesLeft;
    DormantFacts(s, i, j);
    QuotaFits(s.heap[j].retryCount, s.retryAttempts);
  }

  lemma PendingIsDormant(s: State, i: nat, pending: set<nat>, j: nat)
    requires At(s, i) && s.threads[i] == Resuming(pending) && j in pending && AllDormant(s, pending) && On(s, j)
    ensures DormantJob(j) in Owned(s.threads[i]) && AllDormant(s, pending - {j}) && !s.heap[j].slotHeld
  {
  }

  lemma RequeueKeepsSound(s: State, i: nat, pending: set<nat>, j: nat)
    requires Inv(s) && At(s, i) && On(s, j) && s.threads[i] == Resuming(pending) && j in pending
             && AllDormant(s, pending)
    requires s.heap[j].batchId == ""
    ensures Sound(Spawned(WithJob(Moved(s, i, Resuming(pending - {j})), j,
                                  s.heap[j].(dormant := false, worker := true)), Acquiring(j)))
  {
    hide Inv, Sound, AllDormant, Owned, JobFits, WorkFits, Basic;
    PendingIsDormant(s, i, pending, j);
    RequeuedFits(s, i, j, s.heap[j].(dormant := false, worker := true));
    WakeKeepsLoopSound(s, i, pending - {j}, j, s.heap[j].(dormant := false, worker := true), Acquiring(j));
  }

  lemma ResumeKeepsSound(s: State, i: nat, pending: set<nat>, j: nat)
    requires Inv(s) && At(s, i) && On(s, j) && s.threads[i] == Resuming(pending) && j in pending
    ensures Sound(ResumeStep(s, i, pending, j))
  {
    var rest := pending - {j};
    var job := s.heap[j];
    assert ThreadSound(s, s.threads[i]);
    assert AllDormant(s, pending) && AllDormant(s, rest) && job.dormant && !job.slotHeld;
    hide Conserved, Sound, AllDormant;
    if job.download.state == Waiting && job.batchId == "" {
      RequeueKeepsSound(s, i, pending, j);
    } else if job.batchId == "" {
      MoveKeepsSound(s, i, Finishing(j, job.key, Failed, Some(MissingBatch), ByResume, ToResume(rest)));
    } else {
      assert ThreadSound(s, RestoringSlot(j, rest));
      hide ThreadSound;
      RestoreSlotKeepsSound(s, i, rest, j);
    }
  }

  lemma RestoreSlotKeepsSound(s: State, i: nat, rest: set<nat>, j: nat)
    requires Sound(s) && At(s, i) && ThreadSound(s, RestoringSlot(j, rest))
    ensures Sound(Moved(s, i, RestoringSlot(j, rest)).(gate := s.gate + 1, restoredUnits := s.restoredUnits + 1))
  {
    assert TablesSound(s);
    hide Sound, TablesSound, ThreadSound;
    MoveKeepsSound(s, i, RestoringSlot(j, rest));
    GateKeepsSound(Moved(s, i, RestoringSlot(j, rest)), s.gate + 1, s.restoredUnits + 1);
  }

  lemma MonitoredFits(jobs: map<string, nat>, stopped: bool, attempts: nat, j: nat, job: Job)
    requires JobFits(jobs, stopped, attempts, j, job) && job.dormant
    ensures !job.finished && !job.monitoring && !job.worker
    ensures var woken := job.(monitoring := true, worker := true, dormant := false);
            Basic(job, woken) && JobFits(jobs, stopped, attempts, j, woken) && WorkFits(attempts, Polling(j), woken)
  {
    QuotaFits(job.retryCount, attempts);
    hide Quota, RetriesLeft;
  }

  lemma RestoreMonitorKeepsSound(s: State, i: nat, j: nat, pending: set<nat>)
    requires Inv(s) && At(s, i) && On(s, j) && s.threads[i] == RestoringMonitor(j, pending)
    ensures !s.heap[j].finished && !s.heap[j].monitoring && !s.heap[j].worker && j !in pending
    ensures Sound(RestoreMonitorStep(s, i, j, pending))
  {
    var job := s.heap[j];
    DormantFacts(s, i, j);
    assert ThreadSound(s, s.threads[i]);
    assert DormantJob(j) in Owned(s.threads[i]) && AllDormant(s, pending) && j !in pending;
    hide Conserved, Sound, ThreadSound, AllDormant, Owned, JobFits, WorkFits;
    MonitoredFits(s.jobs, s.stopped, s.retryAttempts, j, job);
    WakeKeepsLoopSound(s, i, pending, j, job.(monitoring := true, worker := true, dormant := false), Polling(j));
  }

  lemma DormantMeansStarting(pc: Pc, j: nat)
    requires DormantJob(j) in Owned(pc) && (pc.Finishing? ==> Continuation(pc.job, pc.closer, pc.next))
    ensures Startup in Owned(pc)
  {
  }

  lemma DormantHasALoop(s: State, j: nat)
    requires Inv(s) && On(s, j) && s.heap[j].dormant
    ensures !s.serving
  {
    hide Owned, ThreadSound, TablesSound, JobSound, Continuation;
    assert Recorded(s, DormantJob(j)) == Held(s, DormantJob(j));
    assert Recorded(s, Startup) == Held(s, Startup);
    var i := TotalOwner(s.threads, Owns, DormantJob(j));
    FinishingContinues(s, i);
    DormantMeansStarting(s.threads[i], j);
    TotalAtLeast(s.threads, Owns, Startup, i, i);
  }

  lemma FinishingContinues(s: State, i: nat)
    requires Sound(s) && At(s, i)
    ensures var pc := s.threads[i]; pc.Finishing? ==> Continuation(pc.job, pc.closer, pc.next)
  {
    assert ThreadSound(s, s.threads[i]);
    hide JobFits, TablesSound;
  }

  /** Requests are served only once the restart is over, and then no job is waiting to be resumed. */
  lemma ServingMeansNoneDormant(s: State, j: nat)
    requires Inv(s) && s.serving && On(s, j)
    ensures !s.heap[j].dormant
  {
    if s.heap[j].dormant {
      DormantHasALoop(s, j);
      assert false;
    }
  }

  // resolve

  lemma ReadBegunKeepsThread(s: State, key: string, k: nat)
    requires Inv(s) && !s.cacheLocked && At(s, k)
    ensures ThreadSound(ReadBegun(s, key), s.threads[k])
  {
    hide JobSound, ThreadSound, TablesSound;
    OwnedMeansRecorded(s, k, CacheLock);
    hide Conserved;
    ThreadKeepsSound(s, ReadBegun(s, key), s.threads[k]);
  }

  lemma ReadBegunKeepsTables(s: State, key: string)
    requires Sound(s)
    ensures TablesSound(ReadBegun(s, key))
    ensures forall k :: 0 <= k < |s.heap| ==> JobSound(ReadBegun(s, key), k)
  {
    hide ThreadSound, JobFits;
    forall k | 0 <= k < |s.heap| ensures JobSound(ReadBegun(s, key), k) {
      assert JobSound(s, k);
    }
  }

  lemma ReadBegunKeepsSound(s: State, key: string)
    requires Inv(s) && !s.cacheLocked
    ensures Sound(ReadBegun(s, key))
  {
    hide ThreadSound, JobSound, TablesSound, Conserved;
    ReadBegunKeepsTables(s, key);
    forall k | 0 <= k < |s.threads| ensures ThreadSound(ReadBegun(s, key), s.threads[k]) {
      ReadBegunKeepsThread(s, key, k);
    }
  }

  lemma RecordedJobFitsTables(s: State, key: string, trackId: string, size: nat)
    requires TablesSound(s) && key !in s.records
    ensures TablesSound(s.(heap := s.heap + [CachedJob(key, trackId, size)], records := s.records[key := |s.heap|]))
  {
    assert CachedJob(key, trackId, size).key == key;
    hide CachedJob, RecordSound;
  }

  lemma CachedJobFits(jobs: map<string, nat>, stopped: bool, attempts: nat, j: nat, key: string, trackId: string,
                      size: nat)
    ensures JobFits(jobs, stopped, attempts, j, CachedJob(key, trackId, size))
  {
    hide Quota;
  }

  lemma RecordedJobKeepsSound(s: State, key: string, trackId: string, size: nat)
    requires Sound(s) && key !in s.records
    ensures Sound(s.(heap := s.heap + [CachedJob(key, trackId, size)], records := s.records[key := |s.heap|]))
  {
    hide Quota, ThreadSound, TablesSound, JobFits, CachedJob;
    var t := s.(heap := s.heap + [CachedJob(key, trackId, size)], records := s.records[key := |s.heap|]);
    RecordedJobFitsTables(s, key, trackId, size);
    forall k | 0 <= k < |t.heap| ensures JobSound(t, k) {
      if k < |s.heap| {
        assert JobSound(s, k);
      } else {
        CachedJobFits(t.jobs, t.stopped, t.retryAttempts, k, key, trackId, size);
      }
    }
    forall k | 0 <= k < |t.threads| ensures ThreadSound(t, t.threads[k]) {
      ThreadKeepsSound(s, t, s.threads[k]);
    }
  }

  lemma MarkedCachedKeepsSound(s: State, j: nat, size: nat)
    requires Sound(s) && On(s, j) && !s.heap[j].dormant
    ensures Sound(WithJob(s, j, MarkedCached(s.heap[j], size)))
  {
    assert JobSound(s, j);
    hide Sound, Quota;
    JobKeepsSound(s, j, MarkedCached(s.heap[j], size));
  }

  lemma ResolveKeepsSound(s: State, key: string, trackId: string, size: nat, ok: bool)
    requires Inv(s) && !s.cacheLocked && s.serving
    ensures Sound(ResolveStep(s, key, trackId, size, ok))
  {
    assert TablesSound(s);
    ReadBegunKeepsSound(s, key);
    var begun := ReadBegun(s, key);
    hide Sound, Conserved, MarkedCached, CachedJob;
    if FinalPath(key, trackId) !in s.files {
      SpawnKeepsSound(begun, Ensuring(key, trackId, size, FromResolve));
    } else if s.files[FinalPath(key, trackId)] == size {
      if key in s.records && On(s, s.records[key]) {
        ServingMeansNoneDormant(s, s.records[key]);
        KnownHitKeepsSound(begun, s.records[key], size, ok, key);
      } else {
        NewHitKeepsSound(begun, key, trackId, size, ok);
      }
    }
  }

  lemma KnownHitKeepsSound(s: State, j: nat, size: nat, ok: bool, key: string)
    requires Sound(s) && On(s, j) && !s.heap[j].dormant
    ensures Sound(Spawned(Written(WithJob(s, j, MarkedCached(s.heap[j], size)), j, ok), Reading(key)))
  {
    hide Sound, MarkedCached;
    MarkedCachedKeepsSound(s, j, size);
    var t := WithJob(s, j, MarkedCached(s.heap[j], size));
    WriteKeepsSound(t, j, ok);
    SpawnKeepsSound(Written(t, j, ok), Reading(key));
  }

  lemma NewHitKeepsSound(s: State, key: string, trackId: string, size: nat, ok: bool)
    requires Sound(s) && key !in s.records
    ensures var t := s.(heap := s.heap + [CachedJob(key, trackId, size)], records := s.records[key := |s.heap|]);
            Sound(Spawned(Written(t, |s.heap|, ok), Reading(key)))
  {
    hide Sound, CachedJob;
    RecordedJobKeepsSound(s, key, trackId, size);
    var t := s.(heap := s.heap + [CachedJob(key, trackId, size)], records := s.records[key := |s.heap|]);
    WriteKeepsSound(t, |s.heap|, ok);
    SpawnKeepsSound(Written(t, |s.heap|, ok), Reading(key));
  }

  // listing and eviction

  lemma SnapshotKeepsSound(s: State, j: nat, ok: bool)
    requires Sound(s) && On(s, j)
    ensures Sound(SnapshotStep(s, j, ok))
  {
    SnapshotJobKeepsSound(s, j);
    hide Sound, Snapshot;
    var seen := WithJob(s, j, Snapshot(s.heap[j], s.files));
    if seen.heap[j] != s.heap[j] {
      WriteKeepsSound(seen, j, ok);
    }
  }

  lemma SnapshotJobKeepsSound(s: State, j: nat)
    requires Sound(s) && On(s, j)
    ensures Sound(WithJob(s, j, Snapshot(s.heap[j], s.files)))
  {
    assert JobSound(s, j);
    hide Sound, Quota;
    JobKeepsSound(s, j, Snapshot(s.heap[j], s.files));
  }

  lemma MarkedEvictedKeepsSound(s: State, j: nat)
    requires Sound(s) && On(s, j) && !s.heap[j].dormant
    ensures Sound(WithJob(s, j, MarkedEvicted(s.heap[j])))
  {
    assert JobSound(s, j);
    hide Sound, Quota;
    JobKeepsSound(s, j, MarkedEvicted(s.heap[j]));
  }

  lemma EvictKeepsSound(s: State, i: nat, candidates: seq<nat>, pinned: set<string>, ok: bool)
    requires Inv(s) && At(s, i) && s.threads[i] == Evicting(candidates, pinned) && candidates != []
             && On(s, candidates[0])
    ensures Sound(EvictStep(s, i, candidates, pinned, ok))
  {
    assert ThreadSound(s, s.threads[i]);
    assert ThreadSound(s, Evicting(candidates[1..], pinned));
    var j := candidates[0];
    hide Sound, Conserved, MarkedEvicted, ThreadSound;
    MoveKeepsSound(s, i, Evicting(candidates[1..], pinned));
    var moved := Moved(s, i, Evicting(candidates[1..], pinned));
    MarkedEvictedKeepsSound(moved, j);
    var marked := WithJob(moved, j, MarkedEvicted(s.heap[j]));
    FilesKeepSound(marked, s.files - {FinalPath(s.heap[j].key, s.heap[j].trackId)});
    WriteKeepsSound(marked.(files := s.files - {FinalPath(s.heap[j].key, s.heap[j].trackId)}), j, ok);
  }

  lemma FilesKeepSound(s: State, files: map<Path, nat>)
    requires Sound(s)
    ensures Sound(s.(files := files))
  {
    hide JobSound, ThreadSound;
    FrameKeepsSound(s, s.(files := files));
  }

  lemma LockKeepsSound(s: State, locked: bool)
    requires Sound(s)
    ensures Sound(s.(cacheLocked := locked))
  {
    hide JobSound, ThreadSound;
    FrameKeepsSound(s, s.(cacheLocked := locked));
  }

  lemma FlagsKeepSound(s: State, serving: bool, stopped: bool)
    requires Sound(s) && (s.stopped ==> stopped)
    ensures Sound(s.(serving := serving, stopped := stopped))
  {
    hide JobSound, ThreadSound;
    FrameKeepsSound(s, s.(serving := serving, stopped := stopped));
  }
}
