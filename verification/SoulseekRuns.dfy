/** The invariant of the Soulseek machine holds in every state of every run. */
module SoulseekRuns {
  import opened Common
  import opened Counting
  import opened SoulseekJobs
  import opened SoulseekMachine
  import opened SoulseekInvariant
  import opened SoulseekConservation
  import opened SoulseekSafety
  import opened SoulseekSteps
  import opened SoulseekOtherSteps

  // Steps whose bookkeeping needs a fact about the goroutine.

  lemma RecordSlotKeepsInv(s: State, i: nat, j: nat)
    requires Inv(s) && At(s, i) && On(s, j) && s.threads[i] == Acquired(j)
    ensures Inv(RecordSlotStep(s, i, j))
  {
    WorkerFacts(s, i, j);
    hide Conserved, Sound;
    RecordSlotConserves(s, i, j);
    RecordSlotKeepsSound(s, i, j);
  }

  lemma FinishKeepsInv(s: State, i: nat, j: nat, key: string, state: DownloadState, err: Option<Fault>, closer: Closer,
                       next: Next)
    requires Inv(s) && At(s, i) && On(s, j) && s.threads[i] == Finishing(j, key, state, err, closer, next)
    ensures Inv(FinishStep(s, i, j, key, state, err, closer, next))
  {
    CloserFacts(s, i, j, key, state, err, closer, next);
    hide Conserved, Sound;
    FinishConserves(s, i, j, key, state, err, closer, next);
    FinishKeepsSound(s, i, j, key, state, err, closer, next);
  }

  lemma RecordRestoredKeepsInv(s: State, i: nat, j: nat, pending: set<nat>)
    requires Inv(s) && At(s, i) && On(s, j) && s.threads[i] == RestoringSlot(j, pending)
    ensures Inv(RecordRestoredStep(s, i, j, pending))
  {
    assert ThreadSound(s, s.threads[i]);
    hide Conserved, Sound;
    RecordRestoredConserves(s, i, j, pending);
    RecordRestoredKeepsSound(s, i, j, pending);
  }

  lemma RestoreMonitorKeepsInv(s: State, i: nat, j: nat, pending: set<nat>)
    requires Inv(s) && At(s, i) && On(s, j) && s.threads[i] == RestoringMonitor(j, pending)
    ensures Inv(RestoreMonitorStep(s, i, j, pending))
  {
    DormantFacts(s, i, j);
    hide Conserved, Sound, JobFits;
    RestoreMonitorKeepsSound(s, i, j, pending);
    RestoreMonitorConserves(s, i, j, pending);
  }

  lemma ResumeKeepsInv(s: State, i: nat, pending: set<nat>, j: nat)
    requires Inv(s) && At(s, i) && On(s, j) && s.threads[i] == Resuming(pending) && j in pending
    ensures Inv(ResumeStep(s, i, pending, j))
  {
    assert DormantJob(j) in Owned(s.threads[i]);
    DormantFacts(s, i, j);
    hide Conserved, Sound;
    ResumeKeepsSound(s, i, pending, j);
    ResumeConserves(s, i, pending, j);
  }

  /** The restart loop ends: the server accepts requests from here on. */
  lemma StartupEndConserves(s: State, i: nat)
    requires Inv(s) && At(s, i) && s.threads[i] == Resuming({})
    ensures Conserved(Moved(s, i, Done).(serving := true))
  {
    hide Sound;
    OwnedIsRecorded(s, i, Startup);
    assert Owned(s.threads[i]) == {Startup};
    ConservedByMove(s, Moved(s, i, Done).(serving := true), i, Done);
  }

  lemma StartupEnds(s: State, i: nat)
    requires Inv(s) && At(s, i) && s.threads[i] == Resuming({})
    ensures Inv(Moved(s, i, Done).(serving := true))
  {
    hide Conserved, Sound, ThreadSound;
    StartupEndConserves(s, i);
    DoneIsSound(s);
    MoveKeepsSound(s, i, Done);
    FlagsKeepSound(Moved(s, i, Done), true, s.stopped);
  }

  lemma EvictEndsKeepsInv(s: State, i: nat, candidates: seq<nat>, pinned: set<string>)
    requires Inv(s) && At(s, i) && s.threads[i] == Evicting(candidates, pinned)
    ensures Inv(EvictEnds(s, i))
  {
    hide Conserved, Sound;
    EvictEndsConserves(s, i, candidates, pinned);
    MoveKeepsSound(s, i, Done);
    LockKeepsSound(Moved(s, i, Done), false);
  }

  // One goroutine moves.

  lemma EnqueuingKeepsInv(s: State, i: nat, input: Input)
    requires Inv(s) && CanMove(s, i, input)
    requires var pc := s.threads[i];
             pc.PersistQueued? || pc.Enqueueing? || pc.Enqueued? || pc.BackingOff? || pc.Sleeping? || pc.Announcing?
             || pc.Announced?
    ensures Inv(Move(s, i, input))
  {
    hide Conserved, Sound, EnqueueStep, PersistEnqueuedStep, WakeStep, BeginMonitorStep;
    match s.threads[i]
    case PersistQueued(j) =>
      WrittenMoveConserves(s, j, input.ok, i, if s.retryAttempts == 0 then Announcing(j) else Enqueueing(j, 1, true));
      PersistQueuedKeepsSound(s, i, j, input.ok);
    case Enqueueing(j, attempt, first) =>
      EnqueueConserves(s, i, j, attempt, first, input.answer);
      EnqueueKeepsSound(s, i, j, attempt, first, input.answer);
    case Enqueued(j, attempt, first) =>
      PersistEnqueuedConserves(s, i, j, attempt, first, input.ok);
      PersistEnqueuedKeepsSound(s, i, j, attempt, first, input.ok);
    case BackingOff(j, attempt, first) =>
      WrittenMoveConserves(s, j, input.ok, i, Sleeping(j, attempt, first));
      PersistBackoffKeepsSound(s, i, j, attempt, first, input.ok);
    case Sleeping(j, attempt, first) =>
      WakeConserves(s, i, j, attempt, first, input.ok);
      WakeKeepsSound(s, i, j, attempt, first, input.ok);
    case Announcing(j) =>
      QuietJobMoveConserves(s, i, Announced(j), j, s.heap[j].(ready := true));
      AnnounceKeepsSound(s, i, j);
    case Announced(j) =>
      BeginMonitorConserves(s, i, j);
      BeginMonitorKeepsSound(s, i, j);
  }

  lemma BeginningKeepsInv(s: State, i: nat, input: Input)
    requires Inv(s) && CanMove(s, i, input)
    requires var pc := s.threads[i];
             pc.FirstPersist? || pc.Launching? || pc.Acquiring? || pc.Acquired? || pc.GivingBack? || pc.Ensuring?
    ensures Inv(Move(s, i, input))
  {
    hide Conserved, Sound, EnsureStep, FirstPersistStep, LaunchStep, AcquireStep, RecordSlotStep, GiveBackStep;
    match s.threads[i]
    case Ensuring(key, trackId, size, origin) =>
      EnsureConserves(s, i, key, trackId, size, origin);
      EnsureKeepsSound(s, i, key, trackId, size, origin);
    case FirstPersist(j, key, origin) =>
      FirstPersistConserves(s, i, j, key, origin, input.ok);
      FirstPersistKeepsSound(s, i, j, key, origin, input.ok);
    case Launching(j, key, origin) =>
      LaunchConserves(s, i, j, key, origin);
      LaunchKeepsSound(s, i, j, key, origin);
    case Acquiring(j) =>
      AcquireConserves(s, i, j, input.ok);
      AcquireKeepsSound(s, i, j, input.ok);
    case Acquired(j) =>
      RecordSlotKeepsInv(s, i, j);
    case GivingBack(j) =>
      GiveBackConserves(s, i, j);
      GiveBackKeepsSound(s, i, j);
  }

  lemma MonitoringKeepsInv(s: State, i: nat, input: Input)
    requires Inv(s) && CanMove(s, i, input)
    requires var pc := s.threads[i]; pc.Polling? || pc.PersistPoll? || pc.RetryPersist? || pc.EndingMonitor?
    ensures Inv(Move(s, i, input))
  {
    hide Conserved, Sound, PollStep, PersistInMonitorStep;
    match s.threads[i]
    case Polling(j) =>
      PollConserves(s, i, j, input.poll);
      PollKeepsSound(s, i, j, input.poll);
    case PersistPoll(j) =>
      PersistInMonitorConserves(s, i, j, Polling(j), input.ok);
      PersistInMonitorKeepsSound(s, i, j, Polling(j), input.ok);
    case RetryPersist(j) =>
      PersistInMonitorConserves(s, i, j, Enqueueing(j, 1, false), input.ok);
      PersistInMonitorKeepsSound(s, i, j, Enqueueing(j, 1, false), input.ok);
    case EndingMonitor(j) =>
      QuietJobMoveConserves(s, i, Done, j, s.heap[j].(monitoring := false));
      EndMonitorKeepsSound(s, i, j);
  }

  lemma FinishingKeepsInv(s: State, i: nat, input: Input)
    requires Inv(s) && CanMove(s, i, input)
    requires s.threads[i].Finishing? || AfterFinish(s.threads[i])
    ensures Inv(Move(s, i, input))
  {
    hide Conserved, Sound, FinishStep, ReturnStep, UnlistStep;
    match s.threads[i]
    case Finishing(j, key, state, err, closer, next) =>
      FinishKeepsInv(s, i, j, key, state, err, closer, next);
    case Returning(j, key, token, next) =>
      ReturnConserves(s, i, j, key, token, next);
      ReturnKeepsSound(s, i, j, key, token, next);
    case FinishAnnounce(j, key, next) =>
      QuietJobMoveConserves(s, i, FinishPersist(j, key, next), j, s.heap[j].(ready := true));
      FinishAnnounceKeepsSound(s, i, j, key, next);
    case FinishPersist(j, key, next) =>
      WrittenMoveConserves(s, j, input.ok, i, Unlisting(j, key, next));
      FinishPersistKeepsSound(s, i, j, key, next, input.ok);
    case Unlisting(j, key, next) =>
      UnlistConserves(s, i, j, key, next);
      UnlistKeepsSound(s, i, j, key, next);
  }

  lemma ReadyKeepsSound(s: State, i: nat, j: nat, key: string, origin: Origin, ready: bool)
    requires Inv(s) && At(s, i) && On(s, j) && s.threads[i] == AwaitingReady(j, key, origin)
    ensures Sound(ReadyStep(s, i, j, key, origin, ready))
  {
    hide Conserved, Sound;
    var next := Leave(key, origin);
    assert NextSound(s, next);
    OnwardIsSound(s, next);
    if !ready || s.heap[j].err.Some? || origin.FromRetry? {
      MoveKeepsSound(s, i, Onward(next));
    } else {
      MoveKeepsSound(s, i, AwaitingData(j, key));
    }
  }

  lemma ReadingKeepsInv(s: State, i: nat, input: Input)
    requires Inv(s) && CanMove(s, i, input)
    requires var pc := s.threads[i]; pc.AwaitingReady? || pc.AwaitingData? || pc.Reading? || pc.EndingRead?
    ensures Inv(Move(s, i, input))
  {
    hide Conserved, Sound;
    match s.threads[i]
    case AwaitingReady(j, key, origin) =>
      ReadyConserves(s, i, j, key, origin, input.ok);
      ReadyKeepsSound(s, i, j, key, origin, input.ok);
    case AwaitingData(j, key) =>
      var pc := if input.ok then Reading(key) else EndingRead(key);
      MoveConserves(s, i, pc);
      MoveKeepsSound(s, i, pc);
    case Reading(key) =>
      EndReadConserves(s, i, key);
      EndReadKeepsSound(s, i, key);
    case EndingRead(key) =>
      EndReadConserves(s, i, key);
      EndReadKeepsSound(s, i, key);
  }

  lemma CancelKeepsInv(s: State, i: nat, j: nat, cancelled: bool)
    requires Inv(s) && At(s, i) && On(s, j)
    requires s.threads[i] == Cancelling(j) || s.threads[i] == CancellingRemotely(j)
    ensures var job := s.heap[j].(cancelled := cancelled, closers := s.heap[j].closers + 1);
            Inv(WithJob(Moved(s, i, Finishing(j, job.key, Cancelled, Some(CancelledByUser), ByCanceller, ToDone)), j,
                        job))
  {
    assert ThreadSound(s, s.threads[i]);
    assert Owned(s.threads[i]) == {};
    hide Conserved, Sound, Owned;
    CancelConserves(s, i, j, cancelled);
    CancelKeepsSound(s, i, j, cancelled);
  }

  lemma CancellingKeepsInv(s: State, i: nat, input: Input)
    requires Inv(s) && CanMove(s, i, input)
    requires s.threads[i].Cancelling? || s.threads[i].CancellingRemotely?
    ensures Inv(Move(s, i, input))
  {
    hide Conserved, Sound;
    match s.threads[i]
    case Cancelling(j) => CancelKeepsInv(s, i, j, s.heap[j].cancelled || input.ok);
    case CancellingRemotely(j) =>
      if input.ok {
        CancelKeepsInv(s, i, j, s.heap[j].cancelled);
        assert s.heap[j].(cancelled := s.heap[j].cancelled, closers := s.heap[j].closers + 1)
            == s.heap[j].(closers := s.heap[j].closers + 1);
      } else {
        MoveConserves(s, i, Done);
        MoveKeepsSound(s, i, Done);
      }
  }

  lemma StartingKeepsInv(s: State, i: nat, input: Input)
    requires Inv(s) && CanMove(s, i, input) && Starting(s.threads[i])
    ensures Inv(Move(s, i, input))
  {
    hide Conserved, Sound;
    match s.threads[i]
    case Resuming(pending) =>
      if pending == {} {
        StartupEnds(s, i);
      } else {
        ResumeKeepsInv(s, i, pending, input.pick);
      }
    case RestoringSlot(j, pending) => RecordRestoredKeepsInv(s, i, j, pending);
    case RestoringMonitor(j, pending) => RestoreMonitorKeepsInv(s, i, j, pending);
  }

  lemma EvictingKeepsInv(s: State, i: nat, input: Input)
    requires Inv(s) && CanMove(s, i, input) && s.threads[i].Evicting?
    ensures Inv(Move(s, i, input))
  {
    hide Conserved, Sound;
    var candidates, pinned := s.threads[i].candidates, s.threads[i].pinned;
    if candidates == [] || !input.ok {
      EvictEndsKeepsInv(s, i, candidates, pinned);
    } else {
      EvictConserves(s, i, candidates, pinned, input.answer.Accepted?);
      EvictKeepsSound(s, i, candidates, pinned, input.answer.Accepted?);
    }
  }

  lemma GoKeepsInv(s: State, i: nat, input: Input)
    requires Inv(s) && CanMove(s, i, input)
    ensures Inv(Move(s, i, input))
  {
    hide Inv, Move;
    var pc := s.threads[i];
    if pc.Finishing? || AfterFinish(pc) {
      FinishingKeepsInv(s, i, input);
    } else if Starting(pc) {
      StartingKeepsInv(s, i, input);
    } else if pc.Evicting? {
      EvictingKeepsInv(s, i, input);
    } else if pc.Cancelling? || pc.CancellingRemotely? {
      CancellingKeepsInv(s, i, input);
    } else if pc.AwaitingReady? || pc.AwaitingData? || pc.Reading? || pc.EndingRead? {
      ReadingKeepsInv(s, i, input);
    } else if pc.Polling? || pc.PersistPoll? || pc.RetryPersist? || pc.EndingMonitor? {
      MonitoringKeepsInv(s, i, input);
    } else if pc.FirstPersist? || pc.Launching? || pc.Acquiring? || pc.Acquired? || pc.GivingBack? || pc.Ensuring? {
      BeginningKeepsInv(s, i, input);
    } else {
      EnqueuingKeepsInv(s, i, input);
    }
  }

  // Requests and the world.

  lemma SpawnConserves(s: State, pc: Pc)
    requires Conserved(s) && Owned(pc) == {}
    ensures Conserved(Spawned(s, pc))
  {
    forall r ensures Recorded(Spawned(s, pc), r) == Recorded(s, r) + Owns(pc, r) {
      RecordedBySameBooks(s, Spawned(s, pc), r);
      hide Recorded;
    }
    ConservedBySpawn(s, Spawned(s, pc), pc);
  }

  lemma FrameConserves(s: State, t: State)
    requires Conserved(s) && SameBooks(s, t) && s.threads == t.threads
    ensures Conserved(t)
  {
    hide Recorded;
    forall r ensures Recorded(t, r) == Recorded(s, r) {
      RecordedBySameBooks(s, t, r);
    }
    ConservedByFrame(s, t);
  }

  lemma EvictStartConserves(s: State, candidates: seq<nat>, pinned: set<string>)
    requires Inv(s) && !s.cacheLocked
    ensures Conserved(Spawned(s.(cacheLocked := true), Evicting(candidates, pinned)))
  {
    hide Sound;
    var t := Spawned(s.(cacheLocked := true), Evicting(candidates, pinned));
    ConservedBySpawn(s, t, Evicting(candidates, pinned));
  }

  lemma CandidatesAreSound(s: State, candidates: seq<nat>, pinned: set<string>)
    requires Inv(s) && forall j :: j in candidates ==> Evictable(s, j, pinned)
    ensures ThreadSound(s.(cacheLocked := true), Evicting(candidates, pinned))
  {
    hide Conserved, TablesSound;
    forall j | j in candidates ensures On(s, j) && !s.heap[j].dormant {
      assert JobSound(s, j);
    }
  }

  lemma EvictStartKeepsInv(s: State, candidates: seq<nat>, pinned: set<string>)
    requires Inv(s) && !s.cacheLocked && (forall j :: j in candidates ==> Evictable(s, j, pinned))
    ensures Inv(Spawned(s.(cacheLocked := true), Evicting(candidates, pinned)))
  {
    hide Conserved, Sound, ThreadSound, Evictable;
    EvictStartConserves(s, candidates, pinned);
    CandidatesAreSound(s, candidates, pinned);
    LockKeepsSound(s, true);
    SpawnKeepsSound(s.(cacheLocked := true), Evicting(candidates, pinned));
  }

  lemma RetryKeepsInv(s: State, job: Job)
    requires Inv(s)
    ensures Inv(RetryStep(s, job))
  {
    hide Conserved, Sound;
    var pc := Ensuring(job.key, job.trackId, job.download.totalBytes, FromRetry);
    SpawnConserves(s, pc);
    SpawnKeepsSound(s, pc);
  }

  lemma CancelRequestKeepsInv(s: State, j: nat)
    requires Inv(s) && On(s, j) && s.serving
    ensures Inv(CancelStep(s, j, s.heap[j]))
  {
    hide Conserved, Sound;
    ServingMeansNoneDormant(s, j);
    var pc := if s.heap[j].transferId == "" then Cancelling(j) else CancellingRemotely(j);
    SpawnConserves(s, pc);
    SpawnKeepsSound(s, pc);
  }

  lemma RequestKeepsInv(s: State, a: Action)
    requires Inv(s) && Enabled(s, a) && (a.Retry? || a.Cancel?)
    ensures Inv(Apply(s, a))
  {
    hide Inv, Conserved, Sound;
    if a.Retry? {
      RetryKeepsInv(s, s.heap[s.records[a.key]]);
    } else {
      CancelRequestKeepsInv(s, s.records[a.key]);
    }
  }

  lemma WorldKeepsInv(s: State, a: Action)
    requires Inv(s) && (a.FilesChange? || a.Stop?)
    ensures Inv(if a.FilesChange? then s.(files := a.files) else s.(stopped := true))
  {
    hide Conserved, Sound;
    if a.FilesChange? {
      FrameConserves(s, s.(files := a.files));
      FilesKeepSound(s, a.files);
    } else {
      FrameConserves(s, s.(stopped := true));
      FlagsKeepSound(s, s.serving, true);
    }
  }

  /** Every step keeps the invariant. */
  lemma StepKeepsInv(s: State, a: Action)
    requires Inv(s) && Enabled(s, a)
    ensures Inv(Apply(s, a))
  {
    hide Conserved, Sound, CanMove, Move, ResolveStep;
    match a
    case Go(i, input) => GoKeepsInv(s, i, input);
    case Resolve(key, trackId, size, ok) =>
      ResolveConserves(s, key, trackId, size, ok);
      ResolveKeepsSound(s, key, trackId, size, ok);
    case Retry(_) => RequestKeepsInv(s, a);
    case Cancel(_) => RequestKeepsInv(s, a);
    case List(j, ok) =>
      SnapshotConserves(s, j, ok);
      SnapshotKeepsSound(s, j, ok);
    case Evict(candidates, pinned) => EvictStartKeepsInv(s, candidates, pinned);
    case FilesChange(_) => WorldKeepsInv(s, a);
    case Stop => WorldKeepsInv(s, a);
  }
}
