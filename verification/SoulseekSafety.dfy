/** Every step of the Soulseek machine keeps the tables, the jobs and the program counters sound.

    A goroutine relies on a job in two ways: as its worker (the batch id, the slot, the retry budget) or as the
    restart loop that has yet to reach it. Both marks have at most one owner, so a step may rewrite what the mark
    protects exactly when its goroutine owns it. */
module SoulseekSafety {
  import opened Common
  import opened Counting
  import opened SoulseekJobs
  import opened SoulseekMachine
  import opened SoulseekInvariant
  import opened SoulseekConservation

  /** What every goroutine may rely on. */
  predicate Basic(a: Job, b: Job) {
    a.key == b.key && a.trackId == b.trackId && (a.finished ==> b.finished) && (b.dormant ==> a.dormant)
  }

  /** What a worker relies on. */
  predicate WorkKept(a: Job, b: Job) {
    && (a.batchId, a.enqueues, a.retryCount) == (b.batchId, b.enqueues, b.retryCount)
    && (b.slotHeld ==> a.slotHeld) && (b.monitoring ==> a.monitoring)
  }

  /** What the restart loop relies on. */
  predicate DormantKept(a: Job, b: Job) {
    a.dormant == b.dormant && (b.slotHeld ==> a.slotHeld)
  }

  predicate JobKept(a: Job, b: Job, worked: bool, dormant: bool) {
    Basic(a, b) && (worked ==> WorkKept(a, b)) && (dormant ==> DormantKept(a, b))
  }

  /** `t` still has everything that a goroutine at `pc` relied on in `s`. */
  ghost predicate Preserves(s: State, t: State, pc: Pc) {
    && |s.heap| <= |t.heap| && s.retryAttempts == t.retryAttempts
    && (forall k: nat :: k < |s.heap| ==> JobKept(s.heap[k], t.heap[k], WorkerOf(k) in Owned(pc),
                                                  DormantJob(k) in Owned(pc)))
    && (CacheLock in Owned(pc) ==> forall key :: Count(s.reading, key) == 0 ==> Count(t.reading, key) == 0)
  }

  lemma WorkKeepsSound(s: State, t: State, pc: Pc, j: nat)
    requires On(s, j) && WorkSound(s, pc, j)
    requires On(t, j) && s.retryAttempts == t.retryAttempts && WorkKept(s.heap[j], t.heap[j])
    ensures WorkSound(t, pc, j)
  {
    hide Budget, Quota;
  }

  lemma PendingStaysDormant(s: State, t: State, pc: Pc, pending: set<nat>)
    requires AllDormant(s, pending) && Preserves(s, t, pc) && Dormants(pending) <= Owned(pc)
    ensures AllDormant(t, pending)
  {
    hide Owned;
    assert forall k: nat :: k in pending ==> DormantJob(k) in Owned(pc);
  }

  lemma NextKeepsSound(s: State, t: State, pc: Pc, next: Next)
    requires NextSound(s, next) && Preserves(s, t, pc) && OwnedNext(next) <= Owned(pc)
    ensures NextSound(t, next)
  {
    hide Owned;
    if next.ToResume? {
      PendingStaysDormant(s, t, pc, next.pending);
    }
  }

  lemma WorkingIsOwned(pc: Pc)
    requires Working(pc)
    ensures WorkerOf(pc.job) in Owned(pc)
  {
  }

  lemma ThreadKeepsSound(s: State, t: State, pc: Pc)
    requires ThreadSound(s, pc) && Preserves(s, t, pc)
    ensures ThreadSound(t, pc)
  {
    hide WorkSound, RestSound;
    if Working(pc) {
      WorkingIsOwned(pc);
      assert WorkKept(s.heap[pc.job], t.heap[pc.job]);
      hide Preserves, Working;
      WorkKeepsSound(s, t, pc, pc.job);
    } else {
      hide Preserves;
      RestKeepsSound(s, t, pc);
    }
  }

  lemma ClosingKeepsSound(s: State, t: State, pc: Pc)
    requires RestSound(s, pc) && Preserves(s, t, pc) && (pc.Finishing? || AfterFinish(pc))
    ensures RestSound(t, pc)
  {
    hide NextSound;
    NextKeepsSound(s, t, pc, pc.next);
  }

  predicate Starting(pc: Pc) {
    pc.Resuming? || pc.RestoringSlot? || pc.RestoringMonitor?
  }

  lemma StartupKeepsSound(s: State, t: State, pc: Pc)
    requires RestSound(s, pc) && Preserves(s, t, pc) && Starting(pc)
    ensures RestSound(t, pc)
  {
    hide AllDormant;
    PendingStaysDormant(s, t, pc, pc.pending);
  }

  lemma OtherKeepsSound(s: State, t: State, pc: Pc)
    requires RestSound(s, pc) && Preserves(s, t, pc) && !Starting(pc) && !pc.Finishing? && !AfterFinish(pc)
    ensures RestSound(t, pc)
  {
    hide AllDormant, NextSound;
  }

  lemma RestKeepsSound(s: State, t: State, pc: Pc)
    requires RestSound(s, pc) && Preserves(s, t, pc)
    ensures RestSound(t, pc)
  {
    hide RestSound, Preserves;
    if pc.Finishing? || AfterFinish(pc) {
      ClosingKeepsSound(s, t, pc);
    } else if Starting(pc) {
      StartupKeepsSound(s, t, pc);
    } else {
      OtherKeepsSound(s, t, pc);
    }
  }

  lemma SoundByMove(s: State, t: State, i: nat, pc: Pc)
    requires Sound(s) && At(s, i)
    requires t.threads == s.threads[i := pc]
    requires TablesSound(t) && (forall j :: 0 <= j < |t.heap| ==> JobSound(t, j)) && ThreadSound(t, pc)
    requires forall k :: 0 <= k < |s.threads| && k != i ==> Preserves(s, t, s.threads[k])
    ensures Sound(t)
  {
    hide TablesSound, JobSound, ThreadSound, Preserves;
    forall k | 0 <= k < |t.threads| ensures ThreadSound(t, t.threads[k]) {
      if k != i {
        ThreadKeepsSound(s, t, s.threads[k]);
      }
    }
  }

  lemma SoundBySpawn(s: State, t: State, pc: Pc)
    requires Sound(s)
    requires t.threads == s.threads + [pc]
    requires TablesSound(t) && (forall j :: 0 <= j < |t.heap| ==> JobSound(t, j)) && ThreadSound(t, pc)
    requires forall k :: 0 <= k < |s.threads| ==> Preserves(s, t, s.threads[k])
    ensures Sound(t)
  {
    hide TablesSound, JobSound, ThreadSound, Preserves;
    forall k | 0 <= k < |t.threads| ensures ThreadSound(t, t.threads[k]) {
      if k < |s.threads| {
        ThreadKeepsSound(s, t, s.threads[k]);
      }
    }
  }

  lemma MoveKeepsSound(s: State, i: nat, pc: Pc)
    requires Sound(s) && At(s, i) && ThreadSound(s, pc)
    ensures Sound(Moved(s, i, pc))
  {
    var t := Moved(s, i, pc);
    forall j | 0 <= j < |t.heap| ensures JobSound(t, j) {
      assert JobSound(s, j);
    }
    ThreadKeepsSound(s, t, pc);
    hide ThreadSound, JobSound;
    SoundByMove(s, t, i, pc);
  }

  lemma SpawnKeepsSound(s: State, pc: Pc)
    requires Sound(s) && ThreadSound(s, pc)
    ensures Sound(Spawned(s, pc))
  {
    var t := Spawned(s, pc);
    forall j | 0 <= j < |t.heap| ensures JobSound(t, j) {
      assert JobSound(s, j);
    }
    ThreadKeepsSound(s, t, pc);
    hide ThreadSound, JobSound;
    SoundBySpawn(s, t, pc);
  }

  lemma OwnedMeansRecorded(s: State, i: nat, r: Resource)
    requires Conserved(s) && At(s, i)
    ensures r in Owned(s.threads[i]) ==> Recorded(s, r) >= 1
  {
    if r in Owned(s.threads[i]) {
      OwnedIsRecorded(s, i, r);
    }
  }

  /** A worker is alone with its job: no other goroutine works for it, and the restart loop is past it. */
  lemma WorkerIsAlone(s: State, i: nat, j: nat, k: nat)
    requires Conserved(s) && At(s, i) && At(s, k) && k != i && On(s, j) && JobSound(s, j)
    requires WorkerOf(j) in Owned(s.threads[i])
    ensures WorkerOf(j) !in Owned(s.threads[k]) && DormantJob(j) !in Owned(s.threads[k])
  {
    assert s.heap[j].dormant ==> !s.heap[j].worker;
    hide JobSound, Conserved, Owned;
    OwnedIsRecorded(s, i, WorkerOf(j));
    OwnedMeansRecorded(s, k, DormantJob(j));
  }

  lemma DormantIsAlone(s: State, i: nat, j: nat, k: nat)
    requires Conserved(s) && At(s, i) && At(s, k) && k != i && On(s, j) && JobSound(s, j)
    requires DormantJob(j) in Owned(s.threads[i])
    ensures WorkerOf(j) !in Owned(s.threads[k]) && DormantJob(j) !in Owned(s.threads[k])
  {
    assert s.heap[j].dormant ==> !s.heap[j].worker;
    hide JobSound, Conserved, Owned;
    OwnedIsRecorded(s, i, DormantJob(j));
    OwnedMeansRecorded(s, k, WorkerOf(j));
  }

  /** One job is rewritten; `mine` says that its worker or its restart loop does so. */
  predicate MayRewrite(s: State, i: nat, j: nat, job: Job)
    requires At(s, i) && On(s, j)
  {
    Basic(s.heap[j], job)
    && (WorkerOf(j) in Owned(s.threads[i]) || DormantJob(j) in Owned(s.threads[i])
        || (WorkKept(s.heap[j], job) && DormantKept(s.heap[j], job)))
  }

  lemma RewriteIsPreserving(s: State, t: State, i: nat, j: nat, job: Job, k: nat)
    requires Conserved(s) && At(s, i) && At(s, k) && k != i && On(s, j) && JobSound(s, j)
    requires MayRewrite(s, i, j, job)
    requires t.heap == s.heap[j := job] && t.reading == s.reading && t.retryAttempts == s.retryAttempts
    ensures Preserves(s, t, s.threads[k])
  {
    hide JobSound, Conserved, Owned;
    if WorkerOf(j) in Owned(s.threads[i]) {
      WorkerIsAlone(s, i, j, k);
    } else if DormantJob(j) in Owned(s.threads[i]) {
      DormantIsAlone(s, i, j, k);
    }
  }

  /** The tables and the other jobs do not notice: only a job's own key and `finished` matter to them. */
  lemma RewriteKeepsTables(s: State, t: State, j: nat, job: Job)
    requires Sound(s) && On(s, j) && Basic(s.heap[j], job)
    requires t.heap == s.heap[j := job] && JobSound(t, j)
    requires (t.jobs, t.records, t.disk, t.reading) == (s.jobs, s.records, s.disk, s.reading)
    requires (t.limit, t.retryAttempts, t.stopped) == (s.limit, s.retryAttempts, s.stopped)
    requires 0 <= t.restoredUnits && t.gate - t.restoredUnits <= t.limit
    ensures TablesSound(t) && (forall k :: 0 <= k < |t.heap| ==> JobSound(t, k))
  {
    hide ThreadSound, Quota;
    forall k | 0 <= k < |t.heap| ensures JobSound(t, k) {
      if k != j {
        assert JobSound(s, k);
      }
    }
  }

  lemma JobMoveKeepsSound(s: State, i: nat, pc: Pc, j: nat, job: Job)
    requires Inv(s) && At(s, i) && On(s, j) && MayRewrite(s, i, j, job)
    requires var t := WithJob(Moved(s, i, pc), j, job); JobSound(t, j) && ThreadSound(t, pc)
    ensures Sound(WithJob(Moved(s, i, pc), j, job))
  {
    var t := WithJob(Moved(s, i, pc), j, job);
    assert JobSound(s, j);
    RewriteKeepsTables(s, t, j, job);
    hide ThreadSound, JobSound, Conserved, Preserves;
    forall k | 0 <= k < |s.threads| && k != i ensures Preserves(s, t, s.threads[k]) {
      RewriteIsPreserving(s, t, i, j, job, k);
    }
    SoundByMove(s, t, i, pc);
  }

  /** A rewrite that neither worker nor restart loop would notice, made by whatever goroutine. */
  lemma PlainMoveKeepsSound(s: State, i: nat, pc: Pc, j: nat, job: Job)
    requires Inv(s) && At(s, i) && On(s, j)
    requires Basic(s.heap[j], job) && WorkKept(s.heap[j], job) && DormantKept(s.heap[j], job)
    requires JobFits(s.jobs, s.stopped, s.retryAttempts, j, job) && ThreadSound(WithJob(Moved(s, i, pc), j, job), pc)
    ensures Sound(WithJob(Moved(s, i, pc), j, job))
  {
    hide Conserved, Sound, Owned, JobFits, ThreadSound, Basic, WorkKept, DormantKept;
    JobMoveKeepsSound(s, i, pc, j, job);
  }

  /** The same for a change outside any goroutine, such as a listing. */
  lemma JobKeepsSound(s: State, j: nat, job: Job)
    requires Sound(s) && On(s, j) && Basic(s.heap[j], job) && WorkKept(s.heap[j], job) && DormantKept(s.heap[j], job)
    requires JobSound(WithJob(s, j, job), j)
    ensures Sound(WithJob(s, j, job))
  {
    var t := WithJob(s, j, job);
    RewriteKeepsTables(s, t, j, job);
    forall k | 0 <= k < |t.threads| ensures ThreadSound(t, t.threads[k]) {
      hide ThreadSound, JobSound;
      ThreadKeepsSound(s, t, s.threads[k]);
    }
  }

  /** Gate, disk, files, locks and flags: nothing a goroutine relies on. */
  lemma FrameKeepsSound(s: State, t: State)
    requires Sound(s)
    requires (t.heap, t.threads, t.jobs, t.records, t.reading) == (s.heap, s.threads, s.jobs, s.records, s.reading)
    requires t.limit == s.limit && t.retryAttempts == s.retryAttempts && (s.stopped ==> t.stopped)
    requires forall key :: key in t.disk ==> RecordSound(t.disk[key], key)
    requires 0 <= t.restoredUnits && t.gate - t.restoredUnits <= t.limit
    ensures Sound(t)
  {
    forall k | 0 <= k < |t.heap| ensures JobSound(t, k) {
      assert JobSound(s, k);
    }
    forall k | 0 <= k < |t.threads| ensures ThreadSound(t, t.threads[k]) {
      hide JobSound, TablesSound, ThreadSound;
      ThreadKeepsSound(s, t, s.threads[k]);
    }
  }

  /** A record write keeps everything: the job it copies is sound. */
  lemma WriteKeepsSound(s: State, j: nat, ok: bool)
    requires Sound(s) && On(s, j)
    ensures Sound(Written(s, j, ok))
  {
    assert JobSound(s, j);
    assert RecordSound(Persisted(s.heap[j]), s.heap[j].key);
    hide JobSound, ThreadSound;
    FrameKeepsSound(s, Written(s, j, ok));
  }

  /** A worker goes on with a rewritten job. */
  lemma WorkerKeepsSound(s: State, i: nat, pc: Pc, j: nat, job: Job)
    requires Inv(s) && At(s, i) && On(s, j) && WorkerOf(j) in Owned(s.threads[i])
    requires Basic(s.heap[j], job) && JobFits(s.jobs, s.stopped, s.retryAttempts, j, job)
    requires Working(pc) && pc.job == j && WorkFits(s.retryAttempts, pc, job)
    requires (pc.FirstPersist? || pc.Launching?) ==> pc.key == job.key
    ensures Sound(WithJob(Moved(s, i, pc), j, job))
  {
    hide Conserved, Sound, JobFits, WorkFits, Owned;
    JobMoveKeepsSound(s, i, pc, j, job);
  }

  /** Somebody heads for `finishJob`, having rewritten the job or not. */
  lemma FinishingKeepsSound(s: State, i: nat, j: nat, job: Job, state: DownloadState, err: Option<Fault>,
                            closer: Closer, next: Next)
    requires Inv(s) && At(s, i) && On(s, j) && MayRewrite(s, i, j, job) && job.dormant == s.heap[j].dormant
    requires JobFits(s.jobs, s.stopped, s.retryAttempts, j, job)
    requires state != Waiting && !next.ToResume? && !closer.ByResume? && (next.ToEndMonitor? ==> On(s, next.job))
    ensures Sound(WithJob(Moved(s, i, Finishing(j, job.key, state, err, closer, next)), j, job))
  {
    hide Conserved, Sound, JobFits, MayRewrite;
    JobMoveKeepsSound(s, i, Finishing(j, job.key, state, err, closer, next), j, job);
  }

  lemma FactsOf(s: State, i: nat, j: nat)
    requires Inv(s) && At(s, i) && On(s, j)
    ensures ThreadSound(s, s.threads[i])
    ensures JobFits(s.jobs, s.stopped, s.retryAttempts, j, s.heap[j])
  {
    assert JobSound(s, j);
  }

  lemma WorkerFacts(s: State, i: nat, j: nat)
    requires Inv(s) && At(s, i) && On(s, j) && Working(s.threads[i]) && s.threads[i].job == j
    ensures WorkerOf(j) in Owned(s.threads[i])
    ensures JobFits(s.jobs, s.stopped, s.retryAttempts, j, s.heap[j])
    ensures WorkFits(s.retryAttempts, s.threads[i], s.heap[j])
    ensures s.heap[j].worker && !s.heap[j].dormant
  {
    FactsOf(s, i, j);
    WorkingIsOwned(s.threads[i]);
    assert s.heap[j].dormant ==> !s.heap[j].worker;
    hide WorkFits, JobFits, Quota, Owned, Sound, Conserved;
    OwnedIsRecorded(s, i, WorkerOf(j));
  }
}
