/** Every step of the Soulseek machine conserves slots, reads and the marks of ownership.

    Nearly all steps have one of three forms: a goroutine moves on, moves on and rewrites one job, or moves on
    and writes one record. Each form is handled once. */
module SoulseekConservation {
  import opened Common
  import opened Counting
  import opened SoulseekJobs
  import opened SoulseekMachine
  import opened SoulseekInvariant

  lemma ConservedByMove(s: State, s': State, i: nat, pc: Pc)
    requires Conserved(s) && At(s, i)
    requires s'.threads == s.threads[i := pc]
    requires forall r :: Recorded(s', r) == Recorded(s, r) - Owns(s.threads[i], r) + Owns(pc, r)
    ensures Conserved(s')
  {
    forall r ensures Recorded(s', r) == Held(s', r) {
      TotalUpdate(s.threads, Owns, r, i, pc);
    }
  }

  lemma ConservedBySpawn(s: State, s': State, pc: Pc)
    requires Conserved(s)
    requires s'.threads == s.threads + [pc]
    requires forall r :: Recorded(s', r) == Recorded(s, r) + Owns(pc, r)
    ensures Conserved(s')
  {
    forall r ensures Recorded(s', r) == Held(s', r) {
      TotalAppend(s.threads, Owns, r, pc);
    }
  }

  lemma ConservedByFrame(s: State, s': State)
    requires Conserved(s) && s'.threads == s.threads
    requires forall r :: Recorded(s', r) == Recorded(s, r)
    ensures Conserved(s')
  {
    forall r ensures Recorded(s', r) == Held(s', r) {
      assert Recorded(s, r) == Held(s, r);
    }
  }

  /** `Recorded` reads only the heap, the gate, the read counts, the cache lock and the startup flag. */
  predicate SameBooks(s: State, t: State) {
    (s.heap, s.gate, s.restoredUnits, s.reading, s.cacheLocked, s.serving)
    == (t.heap, t.gate, t.restoredUnits, t.reading, t.cacheLocked, t.serving)
  }

  lemma RecordedBySameBooks(s: State, t: State, r: Resource)
    requires SameBooks(s, t)
    ensures Recorded(s, r) == Recorded(t, r)
  {
  }

  /** What one job adds to the records. */
  function Contribution(job: Job, j: nat, r: Resource): int {
    match r
    case Token(b) => 0 - HoldsSlot(job, b)
    case WorkerOf(k) => if k == j && job.worker then 1 else 0
    case CloserOf(k) => if k == j then job.closers else 0
    case DormantJob(k) => if k == j && job.dormant then 1 else 0
    case _ => 0
  }

  /** Rewriting a job changes the records by what the job adds. */
  lemma RecordedWithJob(s: State, j: nat, job: Job, r: Resource)
    requires On(s, j)
    ensures Recorded(WithJob(s, j, job), r) == Recorded(s, r) - Contribution(s.heap[j], j, r) + Contribution(job, j, r)
  {
    match r
    case Token(b) => TotalUpdate(s.heap, HoldsSlot, b, j, job);
    case WorkerOf(k) =>
    case CloserOf(k) =>
    case DormantJob(k) =>
    case ReadOf(_) =>
    case CacheLock =>
    case Startup =>
  }

  lemma RecordedWhenMoved(s: State, i: nat, pc: Pc, r: Resource)
    requires At(s, i)
    ensures Recorded(Moved(s, i, pc), r) == Recorded(s, r)
  {
  }

  lemma MoveConserves(s: State, i: nat, pc: Pc)
    requires Conserved(s) && At(s, i) && Owned(pc) == Owned(s.threads[i])
    ensures Conserved(Moved(s, i, pc))
  {
    forall r ensures Recorded(Moved(s, i, pc), r) == Recorded(s, r) - Owns(s.threads[i], r) + Owns(pc, r) {
    }
    ConservedByMove(s, Moved(s, i, pc), i, pc);
  }

  lemma JobMoveConserves(s: State, i: nat, pc: Pc, j: nat, job: Job)
    requires Conserved(s) && At(s, i) && On(s, j)
    requires forall r :: Owns(pc, r) - Owns(s.threads[i], r) == Contribution(job, j, r) - Contribution(s.heap[j], j, r)
    ensures Conserved(WithJob(Moved(s, i, pc), j, job))
  {
    hide Recorded, Owns, Contribution;
    var on := Moved(s, i, pc);
    forall r ensures Recorded(WithJob(on, j, job), r) == Recorded(s, r) - Owns(s.threads[i], r) + Owns(pc, r) {
      RecordedWhenMoved(s, i, pc, r);
      RecordedWithJob(on, j, job, r);
    }
    ConservedByMove(s, WithJob(on, j, job), i, pc);
  }

  /** The common case: the job keeps its accounts and the goroutine what it owns. */
  predicate SameAccounts(a: Job, b: Job) {
    (a.slotHeld, a.restoredSlot, a.worker, a.closers, a.dormant)
    == (b.slotHeld, b.restoredSlot, b.worker, b.closers, b.dormant)
  }

  lemma QuietJobMoveConserves(s: State, i: nat, pc: Pc, j: nat, job: Job)
    requires Conserved(s) && At(s, i) && On(s, j)
    requires Owned(pc) == Owned(s.threads[i]) && SameAccounts(job, s.heap[j])
    ensures Conserved(WithJob(Moved(s, i, pc), j, job))
  {
    forall r ensures Contribution(job, j, r) == Contribution(s.heap[j], j, r) {
      assert r.Token? ==> HoldsSlot(job, r.restored) == HoldsSlot(s.heap[j], r.restored);
    }
    JobMoveConserves(s, i, pc, j, job);
  }

  lemma WrittenMoveConserves(s: State, j: nat, ok: bool, i: nat, pc: Pc)
    requires Conserved(s) && At(s, i) && On(s, j) && Owned(pc) == Owned(s.threads[i])
    ensures Conserved(Moved(Written(s, j, ok), i, pc))
  {
    var s' := Moved(Written(s, j, ok), i, pc);
    forall r ensures Recorded(s', r) == Recorded(s, r) - Owns(s.threads[i], r) + Owns(pc, r) {
    }
    ConservedByMove(s, Moved(Written(s, j, ok), i, pc), i, pc);
  }

  /** What a goroutine owns is on record, and once more for every other goroutine that owns it too. */
  lemma OwnedIsRecorded(s: State, i: nat, r: Resource)
    requires Conserved(s) && At(s, i) && r in Owned(s.threads[i])
    ensures Recorded(s, r) >= 1
    ensures forall k :: 0 <= k < |s.threads| && k != i && r in Owned(s.threads[k]) ==> Recorded(s, r) >= 2
  {
    TotalAtLeast(s.threads, Owns, r, i, i);
    forall k | 0 <= k < |s.threads| && k != i && r in Owned(s.threads[k]) ensures Recorded(s, r) >= 2 {
      TotalAtLeast(s.threads, Owns, r, i, k);
    }
  }

  lemma OwnedByFailure(j: nat, key: string, fault: Fault, first: bool)
    ensures Owned(FailedBy(j, key, fault, AfterEnqueueError(j, first))) == {WorkerOf(j)}
  {
  }

  // What the answers come to, one by one.

  /** The job with one more enqueue call on its account. */
  function Counted(job: Job): Job {
    job.(enqueues := job.enqueues + 1)
  }

  lemma AcceptedAnswer(job: Job, attempts: nat, attempt: nat, answer: Answer)
    requires answer.Accepted?
    ensures Answered(job, attempts, attempt, answer) == BatchStored(Counted(job), answer.batchId, answer.transferId)
  {
    hide BatchStored, BackedOff;
  }

  lemma BackoffAnswer(job: Job, attempts: nat, attempt: nat, answer: Answer)
    requires answer.Temporary? && attempt < attempts
    ensures Answered(job, attempts, attempt, answer) == BackedOff(Counted(job), answer.fault)
  {
    hide BatchStored, BackedOff;
  }

  lemma LastAnswer(job: Job, attempts: nat, attempt: nat, answer: Answer)
    requires answer.Temporary? && attempt >= attempts
    ensures Answered(job, attempts, attempt, answer) == Counted(job)
  {
    hide BatchStored, BackedOff;
  }

  lemma RefusedAnswer(job: Job, attempts: nat, attempt: nat, answer: Answer)
    requires answer.Permanent?
    ensures Answered(job, attempts, attempt, answer) == Counted(job)
  {
    hide BatchStored, BackedOff;
  }

  lemma CountedKeepsAccounts(job: Job)
    ensures SameAccounts(Counted(job), job)
    ensures forall batchId, transferId :: SameAccounts(BatchStored(Counted(job), batchId, transferId), job)
    ensures forall fault :: SameAccounts(BackedOff(Counted(job), fault), job)
  {
  }

  lemma AnswerKeepsAccounts(job: Job, attempts: nat, attempt: nat, answer: Answer)
    ensures SameAccounts(Answered(job, attempts, attempt, answer), job)
  {
    hide Answered, SameAccounts, BatchStored, BackedOff, Counted;
    CountedKeepsAccounts(job);
    match answer
    case Accepted(_, _) => AcceptedAnswer(job, attempts, attempt, answer);
    case Temporary(_) =>
      if attempt < attempts {
        BackoffAnswer(job, attempts, attempt, answer);
      } else {
        LastAnswer(job, attempts, attempt, answer);
      }
    case Permanent(_) => RefusedAnswer(job, attempts, attempt, answer);
  }

  lemma AnswerIsOwned(j: nat, key: string, attempts: nat, attempt: nat, first: bool, answer: Answer)
    ensures Owned(AfterAnswer(j, key, attempts, attempt, first, answer)) == {WorkerOf(j)}
  {
    match answer
    case Accepted(_, _) =>
    case Temporary(fault) =>
      if attempt >= attempts {
        hide Owned, AfterEnqueueError;
        OwnedByFailure(j, key, fault, first);
      }
    case Permanent(fault) =>
      hide Owned, AfterEnqueueError;
      OwnedByFailure(j, key, fault, first);
  }

  lemma EnqueueConserves(s: State, i: nat, j: nat, attempt: nat, first: bool, answer: Answer)
    requires Conserved(s) && At(s, i) && On(s, j) && s.threads[i] == Enqueueing(j, attempt, first)
    ensures Conserved(EnqueueStep(s, i, j, attempt, first, answer))
  {
    var job := s.heap[j];
    assert Owned(s.threads[i]) == {WorkerOf(j)};
    AnswerKeepsAccounts(job, s.retryAttempts, attempt, answer);
    AnswerIsOwned(j, job.key, s.retryAttempts, attempt, first, answer);
    hide Conserved, Owned, Answered, AfterAnswer;
    QuietJobMoveConserves(s, i, AfterAnswer(j, job.key, s.retryAttempts, attempt, first, answer), j,
                          Answered(job, s.retryAttempts, attempt, answer));
  }

  lemma PersistEnqueuedConserves(s: State, i: nat, j: nat, attempt: nat, first: bool, ok: bool)
    requires Conserved(s) && At(s, i) && On(s, j) && s.threads[i] == Enqueued(j, attempt, first)
    ensures Conserved(PersistEnqueuedStep(s, i, j, first, ok))
  {
    if ok {
      WrittenMoveConserves(s, j, true, i, if first then Announcing(j) else Polling(j));
    } else {
      OwnedByFailure(j, s.heap[j].key, RecordNotWritten, first);
      MoveConserves(s, i, FailedBy(j, s.heap[j].key, RecordNotWritten, AfterEnqueueError(j, first)));
    }
  }

  lemma FirstPersistConserves(s: State, i: nat, j: nat, key: string, origin: Origin, ok: bool)
    requires Conserved(s) && At(s, i) && On(s, j) && s.threads[i] == FirstPersist(j, key, origin)
    ensures Conserved(FirstPersistStep(s, i, j, key, origin, ok))
  {
    if ok {
      WrittenMoveConserves(s, j, true, i, Launching(j, key, origin));
    } else {
      MoveConserves(s, i, FailedBy(j, key, RecordNotWritten, Leave(key, origin)));
    }
  }

  lemma ReadyConserves(s: State, i: nat, j: nat, key: string, origin: Origin, ready: bool)
    requires Conserved(s) && At(s, i) && On(s, j) && s.threads[i] == AwaitingReady(j, key, origin)
    ensures Conserved(ReadyStep(s, i, j, key, origin, ready))
  {
    if !ready || s.heap[j].err.Some? || origin.FromRetry? {
      MoveConserves(s, i, Onward(Leave(key, origin)));
    } else {
      MoveConserves(s, i, AwaitingData(j, key));
    }
  }

  lemma WorkerEndsConserves(s: State, i: nat, j: nat, next: Pc)
    requires Conserved(s) && At(s, i) && On(s, j)
    requires Owned(s.threads[i]) == {WorkerOf(j)} && Owned(next) == {}
    ensures Conserved(WorkerEnds(s, i, j, next))
  {
    var job := s.heap[j].(worker := false);
    OwnedIsRecorded(s, i, WorkerOf(j));
    forall r ensures Owns(next, r) - Owns(s.threads[i], r) == Contribution(job, j, r) - Contribution(s.heap[j], j, r) {
      match r case Token(_) => case WorkerOf(_) => case _ =>
    }
    JobMoveConserves(s, i, next, j, job);
  }

  lemma AcquireConserves(s: State, i: nat, j: nat, ok: bool)
    requires Conserved(s) && At(s, i) && On(s, j) && s.threads[i] == Acquiring(j)
    ensures Conserved(AcquireStep(s, i, j, ok))
  {
    if ok {
      ConservedByMove(s, AcquireStep(s, i, j, ok), i, Acquired(j));
    } else {
      WorkerEndsConserves(s, i, j, Done);
    }
  }

  lemma RecordSlotConserves(s: State, i: nat, j: nat)
    requires Conserved(s) && At(s, i) && On(s, j) && s.threads[i] == Acquired(j) && !s.heap[j].slotHeld
    ensures Conserved(RecordSlotStep(s, i, j))
  {
    if s.heap[j].finished {
      MoveConserves(s, i, GivingBack(j));
    } else {
      var job := SlotRecorded(s.heap[j]);
      forall r
        ensures Owns(PersistQueued(j), r) - Owns(s.threads[i], r)
                == Contribution(job, j, r) - Contribution(s.heap[j], j, r) {
        match r case Token(_) => case WorkerOf(_) => case _ =>
      }
      JobMoveConserves(s, i, PersistQueued(j), j, job);
    }
  }

  /** A goroutine that holds a token is covered by the gate's count: `release` never finds it at zero. */
  lemma TokenIsCounted(s: State, i: nat, restored: bool)
    requires Conserved(s) && At(s, i) && Token(restored) in Owned(s.threads[i])
    ensures s.gate > 0
  {
    OwnedIsRecorded(s, i, Token(restored));
    assert Recorded(s, Token(false)) == Held(s, Token(false));
    assert Recorded(s, Token(true)) == Held(s, Token(true));
  }

  /** Moving on, rewriting a job and giving a token back. */
  lemma ReleaseConserves(s: State, i: nat, pc: Pc, j: nat, job: Job, restored: bool)
    requires Conserved(s) && At(s, i) && On(s, j) && Token(restored) in Owned(s.threads[i])
    requires forall r {:trigger Owns(pc, r)} ::
               Owns(pc, r) - Owns(s.threads[i], r) + (if r == Token(restored) then 1 else 0)
                         == Contribution(job, j, r) - Contribution(s.heap[j], j, r)
    ensures Conserved(GateReleased(WithJob(Moved(s, i, pc), j, job), restored))
  {
    TokenIsCounted(s, i, restored);
    hide Owns, Contribution, Recorded;
    var on := WithJob(Moved(s, i, pc), j, job);
    var s' := GateReleased(on, restored);
    forall r ensures Recorded(s', r) == Recorded(s, r) - Owns(s.threads[i], r) + Owns(pc, r) {
      RecordedWhenMoved(s, i, pc, r);
      RecordedWithJob(Moved(s, i, pc), j, job, r);
      ReleaseIsRecorded(on, restored, r);
    }
    ConservedByMove(s, s', i, pc);
  }

  lemma ReleaseIsRecorded(s: State, restored: bool, r: Resource)
    requires s.gate > 0
    ensures Recorded(GateReleased(s, restored), r) == Recorded(s, r) - (if r == Token(restored) then 1 else 0)
  {
  }

  lemma GiveBackConserves(s: State, i: nat, j: nat)
    requires Conserved(s) && At(s, i) && On(s, j) && s.threads[i] == GivingBack(j)
    ensures Conserved(GiveBackStep(s, i, j))
  {
    var job := s.heap[j].(worker := false);
    OwnedIsRecorded(s, i, WorkerOf(j));
    forall r ensures Owns(Done, r) - Owns(s.threads[i], r) + (if r == Token(false) then 1 else 0)
                     == Contribution(job, j, r) - Contribution(s.heap[j], j, r) {
      match r case Token(_) => case WorkerOf(_) => case _ =>
    }
    ReleaseConserves(s, i, Done, j, job, false);
  }

  function TokenOf(job: Job): Option<bool> {
    if job.slotHeld then Some(job.restoredSlot) else None
  }

  /** What the section of `finishJob` does to the job's accounts: the caller's mark goes, and so does the slot. */
  lemma FinishAccounts(job: Job, j: nat, state: DownloadState, err: Option<Fault>, closer: Closer, r: Resource)
    requires job.finished ==> !job.slotHeld
    requires Contribution(job, j, Mark(j, closer)) >= 1
    ensures Contribution(ClosedBy(FinishedJob(job, state, err), closer), j, r)
            == Contribution(job, j, r) - (if r == Mark(j, closer) then 1 else 0)
               + (if TokenOf(job).Some? && r == Token(TokenOf(job).value) then 1 else 0)
  {
  }

  function AfterFinishing(job: Job, j: nat, key: string, next: Next): Pc {
    if job.finished then Onward(next) else Returning(j, key, TokenOf(job), next)
  }

  /** And what its goroutine owns afterwards. */
  lemma FinishOwns(job: Job, j: nat, key: string, state: DownloadState, err: Option<Fault>, closer: Closer, next: Next,
                   r: Resource)
    requires Continuation(j, closer, next)
    requires job.finished ==> !job.slotHeld
    ensures Owns(AfterFinishing(job, j, key, next), r)
            == Owns(Finishing(j, key, state, err, closer, next), r) - (if r == Mark(j, closer) then 1 else 0)
               + (if TokenOf(job).Some? && r == Token(TokenOf(job).value) then 1 else 0)
  {
    assert Mark(j, closer) !in OwnedNext(next);
    assert forall b :: Token(b) !in OwnedNext(next);
  }

  lemma FinishConserves(s: State, i: nat, j: nat, key: string, state: DownloadState, err: Option<Fault>,
                        closer: Closer, next: Next)
    requires Conserved(s) && At(s, i) && On(s, j) && s.threads[i] == Finishing(j, key, state, err, closer, next)
    requires Continuation(j, closer, next)
    requires s.heap[j].finished ==> !s.heap[j].slotHeld
    ensures Conserved(FinishStep(s, i, j, key, state, err, closer, next))
  {
    var job := s.heap[j];
    var closed := ClosedBy(FinishedJob(job, state, err), closer);
    var pc := AfterFinishing(job, j, key, next);
    OwnedIsRecorded(s, i, Mark(j, closer));
    assert Contribution(job, j, Mark(j, closer)) >= 1;
    forall r ensures Owns(pc, r) - Owns(s.threads[i], r) == Contribution(closed, j, r) - Contribution(job, j, r) {
      hide *;
      FinishAccounts(job, j, state, err, closer, r);
      FinishOwns(job, j, key, state, err, closer, next, r);
    }
    JobMoveConserves(s, i, pc, j, closed);
    hide Conserved, FinishedJob, ClosedBy;
    assert FinishStep(s, i, j, key, state, err, closer, next) == WithJob(Moved(s, i, pc), j, closed);
  }

  lemma ReturnIsRelease(s: State, i: nat, j: nat, key: string, token: Option<bool>, next: Next)
    requires At(s, i) && On(s, j)
    ensures var on := WithJob(Moved(s, i, FinishAnnounce(j, key, next)), j, s.heap[j].(cancelled := true));
            ReturnStep(s, i, j, key, token, next) == if token.Some? then GateReleased(on, token.value) else on
  {
    hide GateReleased;
  }

  lemma ReturnOwns(j: nat, key: string, token: Option<bool>, next: Next)
    ensures var pc, was := FinishAnnounce(j, key, next), Returning(j, key, token, next);
            && (token.None? ==> Owned(pc) == Owned(was))
            && (token.Some? ==> Token(token.value) in Owned(was))
            && (token.Some? ==>
                  forall r {:trigger Owns(pc, r)} ::
                    Owns(pc, r) - Owns(was, r) + (if r == Token(token.value) then 1 else 0) == 0)
  {
    assert forall b :: Token(b) !in OwnedNext(next);
    hide OwnedNext;
  }

  lemma ContributionWithCancel(job: Job, j: nat)
    ensures SameAccounts(job.(cancelled := true), job)
    ensures forall r :: Contribution(job.(cancelled := true), j, r) == Contribution(job, j, r)
  {
    forall r ensures Contribution(job.(cancelled := true), j, r) == Contribution(job, j, r) {
      match r case Token(_) => case WorkerOf(_) => case CloserOf(_) => case DormantJob(_) => case _ =>
    }
  }

  lemma ReturnConserves(s: State, i: nat, j: nat, key: string, token: Option<bool>, next: Next)
    requires Conserved(s) && At(s, i) && On(s, j) && s.threads[i] == Returning(j, key, token, next)
    ensures Conserved(ReturnStep(s, i, j, key, token, next))
  {
    hide Owned, Owns, Contribution, Conserved, ReturnStep;
    ReturnIsRelease(s, i, j, key, token, next);
    var job := s.heap[j].(cancelled := true);
    var pc := FinishAnnounce(j, key, next);
    ReturnOwns(j, key, token, next);
    ContributionWithCancel(s.heap[j], j);
    if token.Some? {
      ReleaseConserves(s, i, pc, j, job, token.value);
    } else {
      QuietJobMoveConserves(s, i, pc, j, job);
    }
  }

  lemma OwnedOnward(next: Next)
    ensures Owned(Onward(next)) == OwnedNext(next)
  {
  }

  lemma UnlistBooks(s: State, i: nat, j: nat, key: string, next: Next)
    requires At(s, i)
    ensures SameBooks(s, UnlistStep(s, i, j, key, next))
    ensures UnlistStep(s, i, j, key, next).threads == s.threads[i := Onward(next)]
  {
    hide Onward;
    if key in s.jobs && s.jobs[key] == j {
    } else {
    }
  }

  lemma OwnedUnlisting(j: nat, key: string, next: Next)
    ensures Owned(Unlisting(j, key, next)) == OwnedNext(next)
  {
  }

  lemma UnlistConserves(s: State, i: nat, j: nat, key: string, next: Next)
    requires Conserved(s) && At(s, i) && s.threads[i] == Unlisting(j, key, next)
    ensures Conserved(UnlistStep(s, i, j, key, next))
  {
    hide Recorded, Conserved, Owned, OwnedNext, UnlistStep, SameBooks;
    var s' := UnlistStep(s, i, j, key, next);
    UnlistBooks(s, i, j, key, next);
    OwnedOnward(next);
    OwnedUnlisting(j, key, next);
    forall r ensures Recorded(s', r) == Recorded(s, r) {
      RecordedBySameBooks(s, s', r);
    }
    ConservedByMove(s, s', i, Onward(next));
  }

  lemma EndReadConserves(s: State, i: nat, key: string)
    requires Conserved(s) && At(s, i) && Owned(s.threads[i]) == {ReadOf(key)}
    ensures Conserved(EndReadStep(s, i, key))
  {
    OwnedIsRecorded(s, i, ReadOf(key));
    var s' := EndReadStep(s, i, key);
    forall r ensures Recorded(s', r) == Recorded(s, r) - Owns(s.threads[i], r) + Owns(Done, r) {
      match r case ReadOf(_) => case _ =>
    }
    ConservedByMove(s, s', i, Done);
  }

  lemma OwnedByFailing(j: nat, key: string, next: Next)
    requires next.ToDone? || next.ToEndMonitor?
    ensures forall state, err :: Owned(Finishing(j, key, state, err, ByWorker, next)) == {WorkerOf(j)}
  {
  }

  lemma PollConserves(s: State, i: nat, j: nat, result: PollResult)
    requires Conserved(s) && At(s, i) && On(s, j) && s.threads[i] == Polling(j)
    ensures Conserved(PollStep(s, i, j, result))
  {
    var job := s.heap[j];
    assert Owned(s.threads[i]) == {WorkerOf(j)} == Owned(Polling(j)) == Owned(PersistPoll(j)) == Owned(RetryPersist(j));
    OwnedByFailing(j, job.key, ToEndMonitor(j));
    match result
    case LoopEnds => WorkerEndsConserves(s, i, j, EndingMonitor(j));
    case Progress(transferId, bytes, phase, persist) =>
      QuietJobMoveConserves(s, i, if persist then PersistPoll(j) else Polling(j), j,
                            TransferUpdated(job, transferId, bytes, phase));
    case Succeeded =>
      hide Conserved, Owned;
      MoveConserves(s, i, Finishing(j, job.key, Cached, None, ByWorker, ToEndMonitor(j)));
    case Broken(fault) =>
      hide Conserved, Owned;
      MoveConserves(s, i, FailedBy(j, job.key, fault, ToEndMonitor(j)));
    case TransferFailed(cancelled, fault) =>
      hide Conserved, Owned;
      MoveConserves(s, i, Finishing(j, job.key, if cancelled then Cancelled else Failed, Some(fault), ByWorker,
                                    ToEndMonitor(j)));
    case Retryable(fault) =>
      hide Conserved, Owned;
      if MayRetry(job, s.retryAttempts) {
        QuietJobMoveConserves(s, i, RetryPersist(j), j, RetryPrepared(job, fault));
      } else {
        MoveConserves(s, i, FailedBy(j, job.key, fault, ToEndMonitor(j)));
      }
  }

  lemma PersistInMonitorConserves(s: State, i: nat, j: nat, next: Pc, ok: bool)
    requires Conserved(s) && At(s, i) && On(s, j) && Owned(s.threads[i]) == {WorkerOf(j)}
             && Owned(next) == {WorkerOf(j)}
    ensures Conserved(PersistInMonitorStep(s, i, j, next, ok))
  {
    if ok {
      WrittenMoveConserves(s, j, true, i, next);
    } else {
      MoveConserves(s, i, FailedBy(j, s.heap[j].key, RecordNotWritten, ToEndMonitor(j)));
    }
  }

  lemma WakeConserves(s: State, i: nat, j: nat, attempt: nat, first: bool, ok: bool)
    requires Conserved(s) && At(s, i) && On(s, j) && s.threads[i] == Sleeping(j, attempt, first)
    ensures Conserved(WakeStep(s, i, j, attempt, first, ok))
  {
    if ok {
      QuietJobMoveConserves(s, i, Enqueueing(j, attempt + 1, first), j, Awoken(s.heap[j]));
    } else {
      OwnedByFailure(j, s.heap[j].key, ContextEnded, first);
      MoveConserves(s, i, FailedBy(j, s.heap[j].key, ContextEnded, AfterEnqueueError(j, first)));
    }
  }

  lemma BeginMonitorConserves(s: State, i: nat, j: nat)
    requires Conserved(s) && At(s, i) && On(s, j) && s.threads[i] == Announced(j)
    ensures Conserved(BeginMonitorStep(s, i, j))
  {
    if s.heap[j].finished || s.heap[j].monitoring {
      WorkerEndsConserves(s, i, j, Done);
    } else {
      QuietJobMoveConserves(s, i, Polling(j), j, s.heap[j].(monitoring := true));
    }
  }

  /** A cancel request enters `finishJob` on its own account. */
  lemma CancelConserves(s: State, i: nat, j: nat, cancelled: bool)
    requires Conserved(s) && At(s, i) && On(s, j) && Owned(s.threads[i]) == {}
    ensures var job := s.heap[j].(cancelled := cancelled, closers := s.heap[j].closers + 1);
            var pc := Finishing(j, job.key, Cancelled, Some(CancelledByUser), ByCanceller, ToDone);
            Conserved(WithJob(Moved(s, i, pc), j, job))
  {
    var job := s.heap[j].(cancelled := cancelled, closers := s.heap[j].closers + 1);
    var pc := Finishing(j, job.key, Cancelled, Some(CancelledByUser), ByCanceller, ToDone);
    assert Owned(pc) == {CloserOf(j)};
    forall r ensures Owns(pc, r) - Owns(s.threads[i], r) == Contribution(job, j, r) - Contribution(s.heap[j], j, r) {
      match r case Token(_) => case WorkerOf(_) => case CloserOf(_) => case DormantJob(_) => case _ =>
    }
    JobMoveConserves(s, i, pc, j, job);
  }

  // Steps that start goroutines, add jobs, or run during a restart.

  lemma ConservedByMoveAndSpawn(s: State, s': State, i: nat, pc: Pc, born: Pc)
    requires Conserved(s) && At(s, i)
    requires s'.threads == s.threads[i := pc] + [born]
    requires forall r :: Recorded(s', r) == Recorded(s, r) - Owns(s.threads[i], r) + Owns(pc, r) + Owns(born, r)
    ensures Conserved(s')
  {
    forall r ensures Recorded(s', r) == Held(s', r) {
      hide Recorded, Owns;
      TotalUpdate(s.threads, Owns, r, i, pc);
      TotalAppend(s.threads[i := pc], Owns, r, born);
    }
  }

  lemma LaunchConserves(s: State, i: nat, j: nat, key: string, origin: Origin)
    requires Conserved(s) && At(s, i) && s.threads[i] == Launching(j, key, origin)
    ensures Conserved(LaunchStep(s, i, j, key, origin))
  {
    var pc := AwaitingReady(j, key, origin);
    forall r ensures Owns(s.threads[i], r) == Owns(pc, r) + Owns(Acquiring(j), r) {
    }
    ConservedByMoveAndSpawn(s, LaunchStep(s, i, j, key, origin), i, pc, Acquiring(j));
  }

  /** A new job adds nothing but what its fields say. */
  lemma RecordedWithNewJob(s: State, job: Job, r: Resource)
    requires !job.slotHeld
    ensures Recorded(s.(heap := s.heap + [job]), r) == Recorded(s, r) + Contribution(job, |s.heap|, r)
  {
    match r
    case Token(b) => TotalAppend(s.heap, HoldsSlot, b, job);
    case WorkerOf(k) =>
    case CloserOf(k) =>
    case DormantJob(k) =>
    case ReadOf(_) =>
    case CacheLock =>
    case Startup =>
  }

  lemma EnsureConserves(s: State, i: nat, key: string, trackId: string, size: nat, origin: Origin)
    requires Conserved(s) && At(s, i) && s.threads[i] == Ensuring(key, trackId, size, origin)
    ensures Conserved(EnsureStep(s, i, key, trackId, size, origin))
  {
    if key in s.jobs {
      MoveConserves(s, i, AwaitingReady(s.jobs[key], key, origin));
    } else {
      var s' := EnsureStep(s, i, key, trackId, size, origin);
      var job := NewJob(key, trackId, size);
      var pc := FirstPersist(|s.heap|, key, origin);
      forall r ensures Recorded(s', r) == Recorded(s, r) - Owns(s.threads[i], r) + Owns(pc, r) {
        RecordedWithNewJob(s, job, r);
        assert Recorded(s', r) == Recorded(s.(heap := s.heap + [job]), r);
        assert Owns(pc, r) - Owns(s.threads[i], r) == Contribution(job, |s.heap|, r);
      }
      ConservedByMove(s, s', i, pc);
    }
  }

  function ReadBegun(s: State, key: string): State {
    s.(reading := s.reading[key := Count(s.reading, key) + 1])
  }

  lemma ReadBegunConserves(s: State, t: State, s': State, key: string, pc: Pc)
    requires Conserved(s) && Owned(pc) == {ReadOf(key)} && s'.threads == s.threads + [pc]
    requires SameBooks(s', t)
    requires forall r {:trigger Recorded(t, r)} :: Recorded(t, r) == Recorded(ReadBegun(s, key), r)
    ensures Conserved(s')
  {
    forall r ensures Recorded(s', r) == Recorded(s, r) + Owns(pc, r) {
      assert Recorded(ReadBegun(s, key), r) == Recorded(s, r) + Owns(pc, r);
      hide Recorded, Owns;
      RecordedBySameBooks(s', t, r);
      assert Recorded(t, r) == Recorded(ReadBegun(s, key), r);
    }
    ConservedBySpawn(s, s', pc);
  }

  /** A hit on a known record, which is refreshed. */
  lemma KnownHitConserves(s: State, key: string, j: nat, size: nat, ok: bool)
    requires Conserved(s) && On(s, j)
    ensures Conserved(Spawned(Written(WithJob(ReadBegun(s, key), j, MarkedCached(s.heap[j], size)), j, ok),
                              Reading(key)))
  {
    hide Recorded, Conserved, Owned, MarkedCached;
    var begun := ReadBegun(s, key);
    var job := MarkedCached(s.heap[j], size);
    var t := WithJob(begun, j, job);
    MarkedCachedIsQuiet(s.heap[j], size);
    forall r ensures Recorded(t, r) == Recorded(begun, r) {
      RecordedWithQuietJob(begun, t, j, job, r);
    }
    OwnedByReader(key, "", size);
    ReadBegunConserves(s, t, Spawned(Written(t, j, ok), Reading(key)), key, Reading(key));
  }

  lemma MarkedCachedIsQuiet(job: Job, size: nat)
    ensures SameAccounts(MarkedCached(job, size), job)
  {
  }

  /** A hit on a file without a record: a finished job is put on record. */
  lemma NewHitConserves(s: State, key: string, trackId: string, size: nat, ok: bool)
    requires Conserved(s)
    ensures var grown :=
              ReadBegun(s, key).(heap := s.heap + [CachedJob(key, trackId, size)],
                                 records := s.records[key := |s.heap|]);
            Conserved(Spawned(Written(grown, |s.heap|, ok), Reading(key)))
  {
    hide Recorded, Conserved, Owned, CachedJob;
    var begun := ReadBegun(s, key);
    var job := CachedJob(key, trackId, size);
    var t := begun.(heap := s.heap + [job]);
    var grown := t.(records := s.records[key := |s.heap|]);
    forall r ensures Recorded(t, r) == Recorded(begun, r) {
      CachedJobHasNoAccounts(key, trackId, size, |s.heap|, r);
      RecordedWithNewJob(begun, job, r);
    }
    OwnedByReader(key, trackId, size);
    ReadBegunConserves(s, t, Spawned(Written(grown, |s.heap|, ok), Reading(key)), key, Reading(key));
  }

  lemma ResolveConserves(s: State, key: string, trackId: string, size: nat, ok: bool)
    requires Conserved(s)
    ensures Conserved(ResolveStep(s, key, trackId, size, ok))
  {
    hide Recorded, Conserved, Owned;
    if FinalPath(key, trackId) !in s.files {
      OwnedByReader(key, trackId, size);
      ReadBegunConserves(s, ReadBegun(s, key), ResolveStep(s, key, trackId, size, ok), key,
                         Ensuring(key, trackId, size, FromResolve));
    } else if s.files[FinalPath(key, trackId)] == size {
      if key in s.records && On(s, s.records[key]) {
        KnownHitConserves(s, key, s.records[key], size, ok);
      } else {
        NewHitConserves(s, key, trackId, size, ok);
      }
    }
  }

  lemma OwnedByReader(key: string, trackId: string, size: nat)
    ensures Owned(Reading(key)) == {ReadOf(key)} == Owned(Ensuring(key, trackId, size, FromResolve))
  {
  }

  lemma CachedJobHasNoAccounts(key: string, trackId: string, size: nat, j: nat, r: Resource)
    ensures Contribution(CachedJob(key, trackId, size), j, r) == 0 && !CachedJob(key, trackId, size).slotHeld
  {
  }

  lemma RecordedWithQuietJob(s: State, s': State, j: nat, job: Job, r: Resource)
    requires On(s, j) && SameAccounts(job, s.heap[j]) && SameBooks(s', WithJob(s, j, job))
    ensures Recorded(s', r) == Recorded(s, r)
  {
    assert job.slotHeld == s.heap[j].slotHeld && job.restoredSlot == s.heap[j].restoredSlot;
    assert Contribution(job, j, r) == Contribution(s.heap[j], j, r);
    hide Recorded, Contribution;
    RecordedWithJob(s, j, job, r);
    RecordedBySameBooks(s', WithJob(s, j, job), r);
  }

  lemma ResumingOwns(pending: set<nat>, j: nat, r: Resource)
    requires j !in pending
    ensures Owns(Resuming(pending + {j}), r) == Owns(Resuming(pending), r) + (if r == DormantJob(j) then 1 else 0)
  {
    assert Owned(Resuming(pending + {j})) == Owned(Resuming(pending)) + {DormantJob(j)};
    assert DormantJob(j) !in Owned(Resuming(pending));
    hide Owned;
  }

  lemma WokenContributes(job: Job, woken: Job, j: nat, r: Resource)
    requires job.dormant && !job.worker && SameAccounts(woken, job.(dormant := false, worker := true))
    ensures Contribution(woken, j, r) - Contribution(job, j, r)
            == (if r == WorkerOf(j) then 1 else 0) - (if r == DormantJob(j) then 1 else 0)
  {
    match r case Token(_) => case WorkerOf(_) => case CloserOf(_) => case DormantJob(_) => case _ =>
  }

  lemma ResumeAccounts(job: Job, j: nat, pending: set<nat>, woken: Job, born: Pc, r: Resource)
    requires j !in pending && job.dormant && !job.worker
    requires Owned(born) == {WorkerOf(j)} && SameAccounts(woken, job.(dormant := false, worker := true))
    ensures Contribution(woken, j, r) - Contribution(job, j, r)
            == Owns(Resuming(pending), r) + Owns(born, r) - Owns(Resuming(pending + {j}), r)
  {
    hide Dormants, SameAccounts;
    ResumingOwns(pending, j, r);
    WokenContributes(job, woken, j, r);
    hide Contribution, Owned;
  }

  lemma DormantsSplit(pending: set<nat>, j: nat)
    requires j in pending
    ensures Owned(Resuming(pending)) == Owned(Resuming(pending - {j})) + {DormantJob(j)}
    ensures DormantJob(j) !in Owned(Resuming(pending - {j}))
  {
  }

  lemma RestoreSlotConserves(s: State, i: nat, pending: set<nat>, j: nat)
    requires Conserved(s) && At(s, i) && s.threads[i] == Resuming(pending) && j in pending
    ensures Conserved(Moved(s, i, RestoringSlot(j, pending - {j})).(gate := s.gate + 1,
                                                                    restoredUnits := s.restoredUnits + 1))
  {
    var pc := RestoringSlot(j, pending - {j});
    var s' := Moved(s, i, pc).(gate := s.gate + 1, restoredUnits := s.restoredUnits + 1);
    forall r ensures Recorded(s', r) == Recorded(s, r) - Owns(s.threads[i], r) + Owns(pc, r) {
      DormantsSplit(pending, j);
      assert Owns(pc, r) == Owns(s.threads[i], r) + if r == Token(true) then 1 else 0;
    }
    hide Recorded, Owns;
    ConservedByMove(s, s', i, pc);
  }

  lemma RequeueConserves(s: State, i: nat, pending: set<nat>, j: nat)
    requires Conserved(s) && At(s, i) && On(s, j) && s.threads[i] == Resuming(pending) && j in pending
    requires s.heap[j].dormant && !s.heap[j].worker
    ensures Conserved(WithJob(Spawned(Moved(s, i, Resuming(pending - {j})), Acquiring(j)), j,
                              s.heap[j].(dormant := false, worker := true)))
  {
    hide Conserved;
    var woken := s.heap[j].(dormant := false, worker := true);
    var rest := pending - {j};
    assert rest + {j} == pending;
    WakeAndSpawnConserves(s, WithJob(Spawned(Moved(s, i, Resuming(rest)), Acquiring(j)), j, woken), i, rest, j, woken,
                          Acquiring(j));
  }

  lemma ResumeConserves(s: State, i: nat, pending: set<nat>, j: nat)
    requires Conserved(s) && At(s, i) && On(s, j) && s.threads[i] == Resuming(pending) && j in pending
    requires s.heap[j].dormant && !s.heap[j].worker
    ensures Conserved(ResumeStep(s, i, pending, j))
  {
    hide Conserved;
    var job := s.heap[j];
    if job.download.state == Waiting && job.batchId == "" {
      RequeueConserves(s, i, pending, j);
    } else if job.batchId == "" {
      DormantsSplit(pending, j);
      MoveConserves(s, i, Finishing(j, job.key, Failed, Some(MissingBatch), ByResume, ToResume(pending - {j})));
    } else {
      RestoreSlotConserves(s, i, pending, j);
    }
  }

  /** A restored job leaves the pending set and gets a goroutine. */
  lemma WakeAndSpawnConserves(s: State, s': State, i: nat, rest: set<nat>, j: nat, woken: Job, born: Pc)
    requires Conserved(s) && At(s, i) && On(s, j) && j !in rest
    requires s.threads[i] == Resuming(rest + {j}) || Owned(s.threads[i]) == Owned(Resuming(rest + {j}))
    requires s.heap[j].dormant && !s.heap[j].worker
    requires Owned(born) == {WorkerOf(j)} && SameAccounts(woken, s.heap[j].(dormant := false, worker := true))
    requires SameBooks(s', WithJob(s, j, woken)) && s'.threads == s.threads[i := Resuming(rest)] + [born]
    ensures Conserved(s')
  {
    forall r
      ensures Recorded(s', r) == Recorded(s, r) - Owns(s.threads[i], r) + Owns(Resuming(rest), r) + Owns(born, r) {
      assert Owns(s.threads[i], r) == Owns(Resuming(rest + {j}), r);
      hide Recorded, Contribution, Owns, Owned;
      RecordedWithJob(s, j, woken, r);
      RecordedBySameBooks(s', WithJob(s, j, woken), r);
      ResumeAccounts(s.heap[j], j, rest, woken, born, r);
    }
    ConservedByMoveAndSpawn(s, s', i, Resuming(rest), born);
  }

  lemma RecordRestoredConserves(s: State, i: nat, j: nat, pending: set<nat>)
    requires Conserved(s) && At(s, i) && On(s, j) && s.threads[i] == RestoringSlot(j, pending) && !s.heap[j].slotHeld
    ensures Conserved(RecordRestoredStep(s, i, j, pending))
  {
    var job := s.heap[j].(slotHeld := true, restoredSlot := true);
    var pc := RestoringMonitor(j, pending);
    forall r ensures Owns(pc, r) - Owns(s.threads[i], r) == Contribution(job, j, r) - Contribution(s.heap[j], j, r) {
      match r case Token(_) => case WorkerOf(_) => case CloserOf(_) => case DormantJob(_) => case _ =>
    }
    JobMoveConserves(s, i, pc, j, job);
  }

  lemma RestoreMonitorConserves(s: State, i: nat, j: nat, pending: set<nat>)
    requires Conserved(s) && At(s, i) && On(s, j) && s.threads[i] == RestoringMonitor(j, pending) && j !in pending
    requires s.heap[j].dormant && !s.heap[j].worker && !s.heap[j].finished && !s.heap[j].monitoring
    ensures Conserved(RestoreMonitorStep(s, i, j, pending))
  {
    hide Conserved;
    var woken := s.heap[j].(monitoring := true, worker := true, dormant := false);
    assert Owned(s.threads[i]) == Owned(Resuming(pending + {j}));
    WakeAndSpawnConserves(s, RestoreMonitorStep(s, i, j, pending), i, pending, j, woken, Polling(j));
  }

  lemma SnapshotConserves(s: State, j: nat, ok: bool)
    requires Conserved(s) && On(s, j)
    ensures Conserved(SnapshotStep(s, j, ok))
  {
    var s' := SnapshotStep(s, j, ok);
    forall r ensures Recorded(s', r) == Recorded(s, r) {
      RecordedWithQuietJob(s, s', j, Snapshot(s.heap[j], s.files), r);
      hide Recorded;
    }
    ConservedByFrame(s, s');
  }

  lemma EvictingOwns(candidates: seq<nat>, rest: seq<nat>, pinned: set<string>)
    ensures Owned(Evicting(candidates, pinned)) == {CacheLock} == Owned(Evicting(rest, pinned))
  {
  }

  lemma EvictBooks(s: State, i: nat, candidates: seq<nat>, pinned: set<string>, ok: bool)
    requires At(s, i) && candidates != [] && On(s, candidates[0])
    ensures var j, s' := candidates[0], EvictStep(s, i, candidates, pinned, ok);
            && SameAccounts(MarkedEvicted(s.heap[j]), s.heap[j])
               && SameBooks(s', WithJob(s, j, MarkedEvicted(s.heap[j])))
            && s'.threads == s.threads[i := Evicting(candidates[1..], pinned)]
  {
    assert SameAccounts(MarkedEvicted(s.heap[candidates[0]]), s.heap[candidates[0]]);
    hide MarkedEvicted, Persisted, SameAccounts;
  }

  lemma EvictConserves(s: State, i: nat, candidates: seq<nat>, pinned: set<string>, ok: bool)
    requires Conserved(s) && At(s, i) && s.threads[i] == Evicting(candidates, pinned) && candidates != []
             && On(s, candidates[0])
    ensures Conserved(EvictStep(s, i, candidates, pinned, ok))
  {
    hide Recorded, Owned, Conserved, EvictStep, MarkedEvicted, SameAccounts, SameBooks;
    var j := candidates[0];
    var s' := EvictStep(s, i, candidates, pinned, ok);
    var pc := Evicting(candidates[1..], pinned);
    EvictingOwns(candidates, candidates[1..], pinned);
    EvictBooks(s, i, candidates, pinned, ok);
    forall r ensures Recorded(s', r) == Recorded(s, r) - Owns(s.threads[i], r) + Owns(pc, r) {
      RecordedWithQuietJob(s, s', j, MarkedEvicted(s.heap[j]), r);
    }
    ConservedByMove(s, s', i, pc);
  }

  lemma EvictEndsConserves(s: State, i: nat, candidates: seq<nat>, pinned: set<string>)
    requires Conserved(s) && At(s, i) && s.threads[i] == Evicting(candidates, pinned)
    ensures Conserved(EvictEnds(s, i))
  {
    OwnedIsRecorded(s, i, CacheLock);
    ConservedByMove(s, EvictEnds(s, i), i, Done);
  }
}
