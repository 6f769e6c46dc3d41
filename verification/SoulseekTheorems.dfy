/** What the invariant means for the users of the Soulseek coordinator. `SoulseekRestart.ReachableInv` supplies its
    premise for every reachable state. */
module SoulseekTheorems {
  import opened Common
  import opened Counting
  import opened SoulseekJobs
  import opened SoulseekMachine
  import opened SoulseekInvariant
  import opened SoulseekConservation
  import opened SoulseekSafety
  import opened SoulseekSteps
  import opened SoulseekOtherSteps
  import opened SoulseekRuns
  import opened SoulseekRestart

  // Slots.

  /** Slots in use that came through `acquire` (false) or were given back to a restored job (true). */
  function InUse(s: State, restored: bool): int {
    Total(s.heap, HoldsSlot, restored) + Held(s, Token(restored))
  }

  /** The gate's counter is exactly the jobs that hold a slot and the goroutines with one in hand. Slots that went
      through `acquire` never exceed the limit, so only restored jobs can push the counter past it. */
  lemma GateCountsSlots(s: State)
    requires Inv(s)
    ensures s.gate == InUse(s, false) + InUse(s, true)
    ensures InUse(s, false) <= s.limit
    ensures s.gate <= s.limit + InUse(s, true)
  {
    assert Recorded(s, Token(false)) == Held(s, Token(false));
    assert Recorded(s, Token(true)) == Held(s, Token(true));
    assert TablesSound(s);
  }

  /** `release` tests for a positive counter before it decrements. The test never fails: it hides no underflow. */
  lemma ReleaseAlwaysDecrements(s: State, i: nat)
    requires Inv(s) && At(s, i)
    requires s.threads[i].GivingBack? || (s.threads[i].Returning? && s.threads[i].token.Some?)
    ensures s.gate > 0
  {
    hide Conserved, Sound;
    match s.threads[i]
    case GivingBack(j) => TokenIsCounted(s, i, false);
    case Returning(_, _, token, _) => TokenIsCounted(s, i, token.value);
  }

  /** A finished job holds no slot, whichever of enqueue, monitor, cancel and restart finished it. */
  lemma FinishedJobsHoldNoSlot(s: State, j: nat)
    requires Inv(s) && On(s, j) && s.heap[j].finished
    ensures !s.heap[j].slotHeld
  {
    assert JobSound(s, j);
  }

  // One live job per key.

  /** An unfinished job is the one that both tables name for its key, so a cancel by id reaches it. */
  lemma LiveJobIsListed(s: State, j: nat)
    requires Inv(s) && On(s, j) && !s.heap[j].finished
    ensures s.heap[j].key in s.jobs && s.jobs[s.heap[j].key] == j
    ensures s.heap[j].key in s.records && s.records[s.heap[j].key] == j
  {
    assert JobSound(s, j);
    assert TablesSound(s);
  }

  lemma OneLiveJobPerKey(s: State, j: nat, k: nat)
    requires Inv(s) && On(s, j) && On(s, k) && !s.heap[j].finished && !s.heap[k].finished
    requires s.heap[j].key == s.heap[k].key
    ensures j == k
  {
    hide Inv;
    LiveJobIsListed(s, j);
    LiveJobIsListed(s, k);
  }

  // Finishing.

  /** `done` has been closed once if the job is finished and not at all otherwise; an error is set only with it. */
  lemma DoneIsClosedExactlyOnFinish(s: State, j: nat)
    requires Inv(s) && On(s, j)
    ensures s.heap[j].doneCloses == (if s.heap[j].finished then 1 else 0)
    ensures s.heap[j].err.Some? ==> s.heap[j].finished
  {
    assert JobSound(s, j);
  }

  // Goroutines.

  lemma OneWorkerPerJob(s: State, i: nat, k: nat, j: nat)
    requires Inv(s) && At(s, i) && At(s, k) && On(s, j)
    requires WorkerOf(j) in Owned(s.threads[i]) && WorkerOf(j) in Owned(s.threads[k])
    ensures i == k
  {
    assert JobSound(s, j);
    hide Inv, Owned, JobSound;
    if i != k {
      WorkerIsAlone(s, i, j, k);
      assert false;
    }
  }

  /** While the server runs, every unfinished job, restored or new, has a goroutine that works for it or one that is
      about to finish it. */
  lemma LiveJobsAreAttended(s: State, j: nat) returns (i: nat)
    requires Inv(s) && On(s, j) && !s.heap[j].finished && s.serving && !s.stopped
    ensures At(s, i) && (WorkerOf(j) in Owned(s.threads[i]) || CloserOf(j) in Owned(s.threads[i]))
  {
    assert JobSound(s, j);
    ServingMeansNoneDormant(s, j);
    assert Recorded(s, WorkerOf(j)) == Held(s, WorkerOf(j));
    assert Recorded(s, CloserOf(j)) == Held(s, CloserOf(j));
    hide Conserved, Sound, JobSound, Owned;
    if s.heap[j].worker {
      i := TotalOwner(s.threads, Owns, WorkerOf(j));
    } else {
      i := TotalOwner(s.threads, Owns, CloserOf(j));
    }
  }

  /** The restart loop never meets a job that has lost its batch id: its error branch is unreachable. */
  lemma ResumeNeverMissesABatch(s: State, i: nat, pending: set<nat>, j: nat)
    requires Inv(s) && At(s, i) && s.threads[i] == Resuming(pending) && j in pending
    ensures On(s, j) && (s.heap[j].batchId == "" ==> s.heap[j].download.state == Waiting)
  {
    assert ThreadSound(s, s.threads[i]);
    assert JobSound(s, j);
  }

  /** What is on disk at any moment never says "waiting" and names a batch, so no restart loses such a job. */
  lemma WaitingRecordsNameNoBatch(s: State, key: string)
    requires Inv(s) && key in s.disk && s.disk[key].download.state == Waiting
    ensures s.disk[key].batchId == "" && s.disk[key].key == key
  {
    assert TablesSound(s);
  }

  /** Within one process a job makes at most `RetryAttempts` squared enqueue calls, whatever the server answers. */
  lemma EnqueueCallsAreBounded(s: State, j: nat)
    requires Inv(s) && On(s, j)
    ensures s.heap[j].enqueues <= s.retryAttempts * s.retryAttempts
  {
    assert JobSound(s, j);
    QuotaIsProduct(s.retryAttempts, s.retryAttempts);
  }

  // Reading and eviction.

  /** The read count of a key is the number of goroutines that read it or are resolving it. */
  lemma ReadsAreCounted(s: State, key: string)
    requires Inv(s)
    ensures Count(s.reading, key) == Held(s, ReadOf(key))
  {
    assert Recorded(s, ReadOf(key)) == Held(s, ReadOf(key));
  }

  /** When a file is about to be evicted, nobody reads its key and nobody is resolving it, and its track was not
      pinned when the candidates were collected. */
  lemma EvictionFindsNoReader(s: State, i: nat, candidates: seq<nat>, pinned: set<string>, k: nat)
    requires Inv(s) && At(s, i) && At(s, k) && s.threads[i] == Evicting(candidates, pinned) && candidates != []
    ensures On(s, candidates[0]) && ReadOf(s.heap[candidates[0]].key) !in Owned(s.threads[k])
    ensures s.heap[candidates[0]].trackId !in pinned
  {
    assert ThreadSound(s, s.threads[i]);
    assert candidates[0] in candidates;
    hide Conserved, Owned;
    OwnedMeansRecorded(s, k, ReadOf(s.heap[candidates[0]].key));
  }

  /** No resolve gets in between: the cache lock is held for as long as an eviction runs. */
  lemma EvictionExcludesResolve(s: State, i: nat, candidates: seq<nat>, pinned: set<string>,
                                key: string, trackId: string, size: nat, ok: bool)
    requires Inv(s) && At(s, i) && s.threads[i] == Evicting(candidates, pinned)
    ensures !Enabled(s, Resolve(key, trackId, size, ok))
  {
    hide Conserved;
    OwnedIsRecorded(s, i, CacheLock);
  }

  lemma NothingIsRecorded(s: State, r: Resource)
    requires Conserved(s) && forall i :: 0 <= i < |s.threads| ==> s.threads[i].Done?
    ensures Recorded(s, r) == 0
  {
    TotalNone(s.threads, Owns, r);
  }

  lemma NoReadsAreLeft(s: State)
    requires Inv(s) && forall i :: 0 <= i < |s.threads| ==> s.threads[i].Done?
    ensures s.reading == map[]
  {
    hide JobSound, ThreadSound;
    assert TablesSound(s);
    hide Conserved;
    forall key ensures key !in s.reading {
      NothingIsRecorded(s, ReadOf(key));
    }
  }

  lemma NoJobIsLeft(s: State)
    requires Inv(s) && s.serving && !s.stopped && forall i :: 0 <= i < |s.threads| ==> s.threads[i].Done?
    ensures forall j :: 0 <= j < |s.heap| ==> s.heap[j].finished
  {
    hide Inv;
    forall j: nat | j < |s.heap| ensures s.heap[j].finished {
      if !s.heap[j].finished {
        var i := LiveJobsAreAttended(s, j);
        assert false;
      }
    }
  }

  /** The program's slot, read and listing counters are back to nothing once all goroutines are done: nothing leaks. */
  lemma QuiescenceIsClean(s: State)
    requires Inv(s) && s.serving && !s.stopped && forall i :: 0 <= i < |s.threads| ==> s.threads[i].Done?
    ensures s.gate == 0 && s.reading == map[] && !s.cacheLocked
    ensures forall j :: 0 <= j < |s.heap| ==> s.heap[j].finished
  {
    hide Sound, Conserved;
    NoJobIsLeft(s);
    NoReadsAreLeft(s);
    AllFinishedHoldNothing(s, false);
    AllFinishedHoldNothing(s, true);
    GateCountsSlots(s);
    NothingIsRecorded(s, CacheLock);
    NothingIsRecorded(s, Token(false));
    NothingIsRecorded(s, Token(true));
  }

  lemma AllFinishedHoldNothing(s: State, restored: bool)
    requires Inv(s) && forall j :: 0 <= j < |s.heap| ==> s.heap[j].finished
    ensures Total(s.heap, HoldsSlot, restored) == 0
  {
    forall j | 0 <= j < |s.heap| ensures HoldsSlot(s.heap[j], restored) == 0 {
      FinishedJobsHoldNoSlot(s, j);
    }
    TotalNone(s.heap, HoldsSlot, restored);
  }
}
