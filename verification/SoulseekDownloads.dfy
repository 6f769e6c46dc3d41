/** The Soulseek coordinator's objects: the download gate, a job, and the tables, updated in place by short methods. */
module SoulseekDownloads {
  import opened Common
  import opened Counting
  import opened SoulseekJobs
  import opened SoulseekMachine
  import opened SoulseekInvariant
  import opened SoulseekConservation
  import opened SoulseekRestart
  import opened Eviction

  /** A counting gate without a queue: waiters look again whenever a slot is given back. Its methods are the gate's
      part in the machine's steps; the machine state is there for the proofs only. */
  class DownloadGate {
    const limit: nat
    var active: nat

    ghost predicate IsGateOf(s: State)
      reads this
    {
      s.gate == active && s.limit == limit
    }

    constructor (limit: nat)
      ensures this.limit == limit && active == 0
    {
      this.limit := limit;
      active := 0;
    }

    /** One look at the gate inside `acquire`: a slot is taken exactly if the waiting goroutine can go on. */
    method TryAcquire(ghost s: State, ghost i: nat, ghost j: nat) returns (ok: bool)
      requires IsGateOf(s) && At(s, i) && On(s, j) && s.threads[i] == Acquiring(j)
      modifies this
      ensures forall input: Input :: input.ok ==> (CanMove(s, i, input) <==> ok)
      ensures IsGateOf(if ok then AcquireStep(s, i, j, true) else s)
    {
      ok := active < limit;
      if ok {
        active := active + 1;
      }
    }

    /** A restored download takes its slot back whether there is room or not. */
    method Restore(ghost s: State, ghost i: nat, ghost pending: set<nat>, ghost j: nat)
      requires IsGateOf(s) && At(s, i) && On(s, j) && s.threads[i] == Resuming(pending) && s.heap[j].batchId != ""
      modifies this
      ensures IsGateOf(ResumeStep(s, i, pending, j))
    {
      active := active + 1;
    }

    method Release(ghost s: State, ghost restored: bool)
      requires IsGateOf(s)
      modifies this
      ensures IsGateOf(GateReleased(s, restored))
    {
      if active > 0 {
        active := active - 1;
      }
    }
  }

  /** What the row of a finished download shows. */
  function Shown(download: Download, state: DownloadState, error: Option<Fault>): Download {
    if state == Cached then Download(Cached, download.totalBytes, download.totalBytes, None)
    else if error.Some? then download.(state := state, error := error)
    else download.(state := state)
  }

  lemma FinishedCases(job: Job, state: DownloadState, error: Option<Fault>)
    ensures FinishedJob(job, state, error)
            == if job.finished then job else Over(job, error, Shown(job.download, state, error))
  {
    if !job.finished {
      if state != Cached {
        if error.Some? {
        } else {
        }
      }
    }
  }

  /** A job that has just been finished. */
  function Over(job: Job, error: Option<Fault>, download: Download): Job {
    job.(finished := true, err := error, slotHeld := false, doneCloses := job.doneCloses + 1, download := download)
  }

  class DownloadJob {
    const key: string
    const trackId: string
    var batchId: string
    var transferId: string
    var download: Download
    var err: Option<Fault>
    var finished: bool
    var ready: bool
    var monitoring: bool
    var slotHeld: bool
    var retryCount: nat
    var cancelled: bool
    ghost var doneCloses: nat
    ghost var restoredSlot: bool
    ghost var enqueues: nat
    ghost var worker: bool
    ghost var closers: nat
    ghost var dormant: bool

    ghost function Value(): Job
      reads this
    {
      Job(key, trackId, batchId, transferId, download, err, finished, ready, monitoring, slotHeld, retryCount,
          cancelled,
          doneCloses, restoredSlot, enqueues, worker, closers, dormant)
    }

    constructor (key: string, trackId: string, size: nat)
      ensures Value() == NewJob(key, trackId, size)
    {
      this.key, this.trackId := key, trackId;
      batchId, transferId := "", "";
      download := Download(Waiting, 0, size, None);
      err := None;
      finished, ready, monitoring, slotHeld, cancelled := false, false, false, false, false;
      retryCount := 0;
      doneCloses, restoredSlot, enqueues, worker, closers, dormant := 0, false, 0, true, 0, false;
    }

    method Show(state: DownloadState, error: Option<Fault>)
      modifies this`download
      ensures download == Shown(old(download), state, error)
    {
      download := download.(state := state);
      if state == Cached {
        download := download.(completedBytes := download.totalBytes, error := None);
      } else if error.Some? {
        download := download.(error := error);
      }
    }

    /** The section of `finishJob`. `first` says that this call finished the job, `release` that a slot must go back. */
    method Finish(state: DownloadState, error: Option<Fault>) returns (first: bool, release: bool)
      modifies this
      ensures Value() == FinishedJob(old(Value()), state, error)
      ensures first == !old(finished) && release == (first && old(slotHeld))
    {
      hide FinishedJob, Shown;
      FinishedCases(Value(), state, error);
      if finished {
        return false, false;
      }
      finished := true;
      err := error;
      Show(state, error);
      doneCloses := doneCloses + 1;
      release := slotHeld;
      slotHeld := false;
      return true, release;
    }

    method RecordSlot() returns (recorded: bool)
      modifies this
      ensures recorded == !old(finished)
      ensures Value() == if recorded then SlotRecorded(old(Value())) else old(Value())
    {
      if finished {
        return false;
      }
      slotHeld := true;
      restoredSlot := false;
      download := download.(state := Queued);
      return true;
    }

    method BeginMonitoring() returns (begun: bool)
      modifies this
      ensures begun == !(old(finished) || old(monitoring))
      ensures Value() == if begun then old(Value()).(monitoring := true) else old(Value())
    {
      if finished || monitoring {
        return false;
      }
      monitoring := true;
      return true;
    }

    method UpdateTransfer(transferId: string, bytes: nat, phase: Phase) returns (changed: bool)
      modifies this
      ensures Value() == TransferUpdated(old(Value()), transferId, bytes, phase)
      ensures changed == (!old(finished) && Value() != old(Value()))
    {
      if finished {
        return false;
      }
      var before := (this.transferId, download.completedBytes, download.state);
      if transferId != "" {
        this.transferId := transferId;
      }
      download := download.(completedBytes := Min(bytes, download.totalBytes));
      if phase.InProgress? {
        download := download.(state := Downloading);
      } else if phase.QueuedRemotely? {
        download := download.(state := Queued);
      }
      changed := before != (this.transferId, download.completedBytes, download.state);
    }

    method PrepareAutomaticRetry(limit: nat, fault: Fault) returns (prepared: bool)
      modifies this
      ensures prepared == MayRetry(old(Value()), limit)
      ensures Value() == if prepared then RetryPrepared(old(Value()), fault) else old(Value())
    {
      if finished || retryCount + 1 >= limit {
        return false;
      }
      retryCount := retryCount + 1;
      batchId, transferId := "", "";
      download := download.(state := Waiting, error := Some(fault));
      return true;
    }

    /** `enqueueWithRetry` against a server that would give these answers. The context ends after `waits` waits between
        calls. It stops at the first answer that is not a temporary error, when the context ends, and after `limit`
        calls at the latest, and leaves the job as the machine's steps for these answers do. */
    method EnqueueWithRetry(answers: seq<Answer>, limit: nat, waits: nat) returns (calls: nat)
      requires |answers| >= limit
      modifies this
      ensures calls <= limit && calls <= waits + 1 && (limit > 0 ==> calls > 0)
      ensures forall k :: 0 <= k < calls - 1 ==> answers[k].Temporary?
      ensures calls < limit ==> !answers[calls - 1].Temporary? || calls == waits + 1
      ensures Value() == Attempted(old(Value()), answers, limit, calls)
    {
      hide Answered, Awoken;
      calls := 0;
      while calls < limit
        invariant (calls == 0 || calls < limit) && calls <= waits
        invariant forall k :: 0 <= k < calls ==> answers[k].Temporary?
        invariant Value() == if calls == 0 then old(Value()) else Awoken(Attempted(old(Value()), answers, limit, calls))
      {
        Enqueue(answers[calls], limit, calls + 1);
        calls := calls + 1;
        if !answers[calls - 1].Temporary? || calls == limit || calls == waits + 1 {
          return;
        }
        Wake();
      }
    }

    /** One enqueue call and what its answer leaves in the job: a batch, or a back-off unless it was the last. */
    method Enqueue(answer: Answer, limit: nat, attempt: nat)
      modifies this
      ensures Value() == Answered(old(Value()), limit, attempt, answer)
    {
      hide Answered, Counted, BatchStored, BackedOff, Value;
      CountCall();
      match answer
      case Accepted(batch, transfer) =>
        StoreBatch(batch, transfer);
        AcceptedAnswer(old(Value()), limit, attempt, answer);
      case Temporary(fault) =>
        if attempt < limit {
          BackOff(fault);
          BackoffAnswer(old(Value()), limit, attempt, answer);
        } else {
          LastAnswer(old(Value()), limit, attempt, answer);
        }
      case Permanent(_) =>
        RefusedAnswer(old(Value()), limit, attempt, answer);
    }

    ghost method CountCall()
      modifies this`enqueues
      ensures Value() == Counted(old(Value()))
    {
      enqueues := enqueues + 1;
    }

    /** The section at the end of `enqueue`. */
    method StoreBatch(batch: string, transfer: string)
      modifies this
      ensures Value() == BatchStored(old(Value()), batch, transfer)
    {
      batchId, transferId := batch, transfer;
      download := download.(state := Queued, error := None);
    }

    /** The section before a wait. */
    method BackOff(fault: Fault)
      modifies this
      ensures Value() == BackedOff(old(Value()), fault)
    {
      download := download.(state := Waiting, error := Some(fault));
    }

    /** The wait has elapsed: back to the queue for the next call. */
    method Wake()
      modifies this
      ensures Value() == Awoken(old(Value()))
    {
      download := download.(state := Queued, error := None);
    }
  }

  /** The job after `n` enqueue calls, with a wait between any two of them. */
  function Attempted(job: Job, answers: seq<Answer>, limit: nat, n: nat): Job
    requires n <= |answers|
  {
    if n == 0 then job
    else
      Answered(if n == 1 then job else Awoken(Attempted(job, answers, limit, n - 1)), limit, n, answers[n - 1])
  }

  /** What an enqueue call never touches. */
  predicate SameBesides(a: Job, b: Job) {
    (a.finished, a.err, a.slotHeld, a.retryCount) == (b.finished, b.err, b.slotHeld, b.retryCount)
  }

  /** One more call than `job` has made, and nothing else that matters has changed. */
  predicate OneMoreCall(after: Job, job: Job) {
    after.enqueues == job.enqueues + 1 && SameBesides(after, job)
  }

  lemma CountedCounts(job: Job)
    ensures OneMoreCall(Counted(job), job)
    ensures forall batchId, transferId :: OneMoreCall(BatchStored(Counted(job), batchId, transferId), job)
    ensures forall fault :: OneMoreCall(BackedOff(Counted(job), fault), job)
  {
  }

  lemma AnsweredCounts(job: Job, limit: nat, n: nat, answer: Answer)
    ensures Answered(job, limit, n, answer).enqueues == job.enqueues + 1
            && SameBesides(Answered(job, limit, n, answer), job)
  {
    hide Answered, SameBesides, BatchStored, BackedOff, Counted;
    CountedCounts(job);
    match answer
    case Accepted(_, _) => AcceptedAnswer(job, limit, n, answer);
    case Temporary(_) =>
      if n < limit {
        BackoffAnswer(job, limit, n, answer);
      } else {
        LastAnswer(job, limit, n, answer);
      }
    case Permanent(_) => RefusedAnswer(job, limit, n, answer);
  }

  lemma AwokenCounts(job: Job)
    ensures Awoken(job).enqueues == job.enqueues && SameBesides(Awoken(job), job)
  {
  }

  /** Each call is counted, and none finishes the job, gives its slot up or uses up an automatic retry. */
  lemma {:induction false} AttemptsAreCounted(job: Job, answers: seq<Answer>, limit: nat, n: nat)
    requires n <= |answers|
    ensures Attempted(job, answers, limit, n).enqueues == job.enqueues + n
    ensures SameBesides(Attempted(job, answers, limit, n), job)
  {
    hide Answered, Awoken;
    if n > 0 {
      AttemptsAreCounted(job, answers, limit, n - 1);
      var before := Attempted(job, answers, limit, n - 1);
      AwokenCounts(before);
      AnsweredCounts(if n == 1 then job else Awoken(before), limit, n, answers[n - 1]);
    }
  }

  // The tables.

  predicate Known(heap: seq<Job>, order: seq<nat>) {
    forall k :: 0 <= k < |order| ==> order[k] < |heap|
  }

  predicate DistinctPaths(heap: seq<Job>, order: seq<nat>) {
    && Known(heap, order)
    && (forall k, l :: 0 <= k < l < |order| ==> PathOf(heap[order[k]]) != PathOf(heap[order[l]]))
  }

  function PathOf(job: Job): Path {
    FinalPath(job.key, job.trackId)
  }

  /** Candidates whose file has gone free nothing. */
  function ItemsOf(heap: seq<Job>, files: map<Path, nat>, order: seq<nat>): seq<Item>
    requires Known(heap, order)
  {
    seq(|order|, k requires 0 <= k < |order| =>
      var path := PathOf(heap[order[k]]);
      if path in files then Item(files[path], true) else Item(0, false))
  }

  /** The paths of the first `n` candidates. */
  function PathsOf(heap: seq<Job>, order: seq<nat>, n: nat): set<Path>
    requires n <= |order| && Known(heap, order)
  {
    if n == 0 then {} else PathsOf(heap, order, n - 1) + {PathOf(heap[order[n - 1]])}
  }

  /** The jobs after the first `n` candidates were marked evicted. */
  function Marked(heap: seq<Job>, order: seq<nat>, n: nat): (r: seq<Job>)
    requires n <= |order| && Known(heap, order)
    ensures |r| == |heap|
  {
    if n == 0 then heap
    else
      var done := Marked(heap, order, n - 1);
      done[order[n - 1] := MarkedEvicted(done[order[n - 1]])]
  }

  lemma {:induction false} MarkedKeepsPaths(heap: seq<Job>, order: seq<nat>, n: nat)
    requires n <= |order| && Known(heap, order)
    ensures forall j :: 0 <= j < |heap| ==> PathOf(Marked(heap, order, n)[j]) == PathOf(heap[j])
  {
    if n > 0 {
      MarkedKeepsPaths(heap, order, n - 1);
    }
  }

  lemma {:induction false} PathsAreEarlier(heap: seq<Job>, order: seq<nat>, n: nat)
    requires n <= |order| && DistinctPaths(heap, order)
    ensures forall k :: n <= k < |order| ==> PathOf(heap[order[k]]) !in PathsOf(heap, order, n)
  {
    if n > 0 {
      PathsAreEarlier(heap, order, n - 1);
    }
  }

  /** What the walk freed is exactly what left the disk. */
  lemma {:induction false} FreedLeavesTheDisk(heap: seq<Job>, files: map<Path, nat>, order: seq<nat>, n: nat)
    requires n <= |order| && DistinctPaths(heap, order)
    ensures DiskBytes(files - PathsOf(heap, order, n)) == DiskBytes(files) - Freed(ItemsOf(heap, files, order), n)
  {
    if n == 0 {
      assert files - {} == files;
    } else {
      FreedLeavesTheDisk(heap, files, order, n - 1);
      PathsAreEarlier(heap, order, n - 1);
      var path := PathOf(heap[order[n - 1]]);
      var before := files - PathsOf(heap, order, n - 1);
      assert files - PathsOf(heap, order, n) == before - {path};
      if path in files {
        assert path in before && before[path] == files[path];
        DeleteTakesItsSize(before, path);
      } else {
        assert before - {path} == before;
      }
    }
  }

  /** What dealing with one more candidate comes to. */
  lemma EvictionContinues(heap: seq<Job>, files: map<Path, nat>, order: seq<nat>, n: nat)
    requires n < |order| && DistinctPaths(heap, order)
    ensures var items := ItemsOf(heap, files, order);
            var job, path := Marked(heap, order, n)[order[n]], PathOf(heap[order[n]]);
            var left := files - PathsOf(heap, order, n);
            && PathOf(job) == path
            && Marked(heap, order, n + 1) == Marked(heap, order, n)[order[n] := MarkedEvicted(job)]
            && files - PathsOf(heap, order, n + 1) == left - {path}
            && Freed(items, n + 1) == Freed(items, n) + (if path in left then left[path] else 0)
  {
    MarkedKeepsPaths(heap, order, n);
    PathsAreEarlier(heap, order, n);
  }

  lemma NothingEvicted(heap: seq<Job>, files: map<Path, nat>, order: seq<nat>)
    requires Known(heap, order)
    ensures files - PathsOf(heap, order, 0) == files && Marked(heap, order, 0) == heap
    ensures Freed(ItemsOf(heap, files, order), 0) == 0 && |ItemsOf(heap, files, order)| == |order|
  {
  }

  /** Without a request no candidate is looked at. */
  lemma NothingToEvict(heap: seq<Job>, files: map<Path, nat>, order: seq<nat>, bytes: int, updatedAt: nat -> nat)
    requires bytes <= 0 && order == []
    ensures AgeOrdered(order, updatedAt) && DistinctPaths(heap, order)
            && NoOlderSurvivor(heap, files, order, updatedAt, 0)
    ensures files - PathsOf(heap, order, 0) == files && Marked(heap, order, 0) == heap
    ensures Freed(ItemsOf(heap, files, order), 0) == 0 && StopsAt(ItemsOf(heap, files, order), bytes, 0)
  {
  }

  lemma StopsHere(items: seq<Item>, request: int, n: nat)
    requires n <= |items| && (forall k :: 0 <= k < n ==> Freed(items, k) < request)
    requires n == |items| || Freed(items, n) >= request
    ensures StopsAt(items, request, n)
  {
  }

  // The candidates of an eviction.

  /** `evict` collects a listed job that is cached, that nobody reads or resolves, and whose track is not pinned. */
  predicate Collects(heap: seq<Job>, records: map<string, nat>, reading: map<string, nat>, pinned: set<string>,
                     j: nat) {
    && j < |heap| && heap[j].key in records && records[heap[j].key] == j
    && heap[j].download.state == Cached && Count(reading, heap[j].key) == 0 && heap[j].trackId !in pinned
  }

  /** The records name jobs of their keys, as they do in every reachable state. */
  ghost predicate RecordsFit(heap: seq<Job>, records: map<string, nat>) {
    forall key :: key in records ==> records[key] < |heap| && heap[records[key]].key == key
  }

  ghost predicate ListsCandidates(order: seq<nat>, heap: seq<Job>, records: map<string, nat>, keys: set<string>,
                                  reading: map<string, nat>, pinned: set<string>) {
    && (forall j: nat :: j in order <==> Collects(heap, records, reading, pinned, j) && heap[j].key in keys)
    && (forall k, l :: 0 <= k < l < |order| ==> order[k] != order[l])
  }

  lemma CandidatePathsDiffer(order: seq<nat>, heap: seq<Job>, records: map<string, nat>, keys: set<string>,
                             reading: map<string, nat>, pinned: set<string>)
    requires ListsCandidates(order, heap, records, keys, reading, pinned)
    ensures DistinctPaths(heap, order)
  {
    forall k | 0 <= k < |order| ensures order[k] < |heap| && records[heap[order[k]].key] == order[k] {
      assert order[k] in order;
    }
  }

  lemma PermutedListsCandidates(candidates: seq<nat>, order: seq<nat>, heap: seq<Job>, records: map<string, nat>,
                                keys: set<string>, reading: map<string, nat>, pinned: set<string>)
    requires ListsCandidates(candidates, heap, records, keys, reading, pinned)
             && multiset(order) == multiset(candidates)
    ensures ListsCandidates(order, heap, records, keys, reading, pinned)
  {
    PermutationKeepsDistinct(candidates, order);
    hide Collects;
  }

  lemma ListsOneMoreKey(order: seq<nat>, heap: seq<Job>, records: map<string, nat>, keys: set<string>,
                        reading: map<string, nat>, pinned: set<string>, key: string)
    requires ListsCandidates(order, heap, records, keys, reading, pinned)
    requires RecordsFit(heap, records) && key in records && key !in keys
    ensures var j := records[key];
            ListsCandidates(if Collects(heap, records, reading, pinned, j) then order + [j] else order,
                            heap, records, keys + {key}, reading, pinned)
  {
    var j := records[key];
    assert heap[j].key == key;
    assert forall k: nat :: Collects(heap, records, reading, pinned, k) && heap[k].key == key ==> k == j;
    assert j !in order;
    hide Collects;
    var more := order + [j];
    assert forall k :: k in more <==> k in order || k == j;
  }

  lemma AllKeysListed(order: seq<nat>, heap: seq<Job>, records: map<string, nat>, reading: map<string, nat>,
                      pinned: set<string>)
    requires ListsCandidates(order, heap, records, records.Keys, reading, pinned)
    ensures forall j: nat :: j in order <==> Collects(heap, records, reading, pinned, j)
  {
  }

  lemma {:induction false} PathIsLostExactly(heap: seq<Job>, order: seq<nat>, n: nat, i: nat)
    requires n <= |order| && i < |order| && DistinctPaths(heap, order)
    ensures PathOf(heap[order[i]]) in PathsOf(heap, order, n) <==> i < n
  {
    if n > 0 {
      PathIsLostExactly(heap, order, n - 1, i);
    }
  }

  /** A candidate that still has its file has been used no earlier than any whose turn has come. */
  ghost predicate NoOlderSurvivor(heap: seq<Job>, left: map<Path, nat>, order: seq<nat>, updatedAt: nat -> nat, n: nat)
    requires n <= |order| && Known(heap, order)
  {
    forall i, j :: 0 <= i < n && j in order && PathOf(heap[j]) in left ==> updatedAt(order[i]) <= updatedAt(j)
  }

  lemma SurvivorsAreYounger(heap: seq<Job>, files: map<Path, nat>, order: seq<nat>, updatedAt: nat -> nat, n: nat)
    requires n <= |order| && DistinctPaths(heap, order) && AgeOrdered(order, updatedAt)
    ensures NoOlderSurvivor(heap, files - PathsOf(heap, order, n), order, updatedAt, n)
  {
    forall i, j | 0 <= i < n && j in order && PathOf(heap[j]) in files - PathsOf(heap, order, n)
      ensures updatedAt(order[i]) <= updatedAt(j)
    {
      var k :| 0 <= k < |order| && order[k] == j;
      PathIsLostExactly(heap, order, n, k);
    }
  }

  lemma NothingListed(heap: seq<Job>, records: map<string, nat>, reading: map<string, nat>, pinned: set<string>)
    ensures ListsCandidates([], heap, records, {}, reading, pinned)
  {
  }

  /** What is collected is what the machine may evict, and nothing else. */
  lemma CollectsWhatTheMachineEvicts(s: State, pinned: set<string>, j: nat)
    ensures Collects(s.heap, s.records, s.reading, pinned, j) <==> SoulseekMachine.Evictable(s, j, pinned)
  {
  }

  class Coordinator {
    var heap: seq<Job>
    var jobs: map<string, nat>
    var records: map<string, nat>
    var reading: map<string, nat>
    var disk: map<string, Record>
    var files: map<Path, nat>

    /** The machine state that differs from `s` only in what this object keeps. */
    ghost function In(s: State): State
      reads this
    {
      s.(heap := heap, jobs := jobs, records := records, reading := reading, disk := disk, files := files)
    }

    method BeginRead(key: string)
      modifies this`reading
      ensures forall s :: In(s) == ReadBegun(old(In(s)), key)
    {
      reading := reading[key := if key in reading then reading[key] + 1 else 1];
    }

    method EndRead(key: string)
      modifies this`reading
      ensures reading == if Count(old(reading), key) <= 1 then old(reading) - {key}
              else old(reading)[key := old(reading[key]) - 1]
      ensures forall s, i :: At(s, i) ==> In(Moved(s, i, Done)) == EndReadStep(old(In(s)), i, key)
    {
      var n := if key in reading then reading[key] else 0;
      if n <= 1 {
        reading := reading - {key};
      } else {
        reading := reading[key := n - 1];
      }
    }

    /** The section of `ensureDownload`: the live job of the key, or a new one listed in both tables. It leaves the
        tables as the machine's step does, and `created` tells where the goroutine goes on. */
    method EnsureListed(key: string, trackId: string, size: nat) returns (j: nat, created: bool)
      modifies this
      ensures created == (key !in old(jobs))
      ensures !created ==>
                key in old(jobs) && j == old(jobs)[key] && (heap, jobs, records) == old((heap, jobs, records))
      ensures created ==> j == |old(heap)| && heap == old(heap) + [NewJob(key, trackId, size)]
                          && jobs == old(jobs)[key := j] && records == old(records)[key := j]
      ensures (reading, disk, files) == old((reading, disk, files))
      ensures forall s, i, origin :: At(s, i) ==>
                In(Moved(s, i, if created then FirstPersist(j, key, origin) else AwaitingReady(j, key, origin)))
                == EnsureStep(old(In(s)), i, key, trackId, size, origin)
    {
      if key in jobs {
        return jobs[key], false;
      }
      j := |heap|;
      heap := heap + [NewJob(key, trackId, size)];
      jobs := jobs[key := j];
      records := records[key := j];
      created := true;
    }

    /** Only the job that is still listed is taken off the list. */
    method RemoveJob(key: string, j: nat)
      modifies this`jobs
      ensures jobs == if key in old(jobs) && old(jobs[key]) == j then old(jobs) - {key} else old(jobs)
      ensures forall s, i, next :: At(s, i) ==> In(Moved(s, i, Onward(next))) == UnlistStep(old(In(s)), i, j, key, next)
    {
      if key in jobs && jobs[key] == j {
        jobs := jobs - {key};
      }
    }

    /** One candidate: its file, if there still is one, is removed; the job is marked and its record written, which is
        the machine's step for it. */
    method EvictOne(j: nat, undeletable: set<Path>, unwritable: set<nat>)
      returns (freed: nat, removed: bool, written: bool)
      requires j < |heap|
      modifies this`heap, this`files, this`disk
      ensures !removed ==> freed == 0 && !written && heap == old(heap) && files == old(files)
                           && PathOf(heap[j]) in undeletable
      ensures removed ==> freed == (if PathOf(old(heap)[j]) in old(files) then old(files)[PathOf(old(heap)[j])] else 0)
                          && files == old(files) - {PathOf(old(heap)[j])}
                          && heap == old(heap)[j := MarkedEvicted(old(heap)[j])]
                          && written == (j !in unwritable)
      ensures disk == if written then old(disk)[heap[j].key := Persisted(heap[j])] else old(disk)
      ensures removed ==> forall s, i, rest, pinned :: At(s, i) ==>
                In(Moved(s, i, Evicting(rest, pinned))) == EvictStep(old(In(s)), i, [j] + rest, pinned, written)
    {
      freed := 0;
      var path := PathOf(heap[j]);
      if path in files {
        if path in undeletable {
          return 0, false, false;
        }
        freed := files[path];
        files := files - {path};
      }
      assert files == old(files) - {path};
      heap := heap[j := MarkedEvicted(heap[j])];
      if j in unwritable {
        return freed, true, false;
      }
      disk := disk[heap[j].key := Persisted(heap[j])];
      return freed, true, true;
    }

    /** The walk of `evict` over its sorted candidates. */
    method EvictInOrder(bytes: nat, order: seq<nat>, undeletable: set<Path>, unwritable: set<nat>, budget: nat)
      returns (freed: nat, ok: bool, n: nat)
      requires bytes > 0 && DistinctPaths(heap, order)
      modifies this`heap, this`files, this`disk
      ensures n <= |order| && freed == Freed(ItemsOf(old(heap), old(files), order), n)
      ensures files == old(files) - PathsOf(old(heap), order, n)
      ensures heap == Marked(old(heap), order, n)
      ensures ok ==> StopsAt(ItemsOf(old(heap), old(files), order), bytes, n)
      ensures !ok ==>
                n >= budget || (n < |order| && PathOf(old(heap)[order[n]]) in undeletable)
                || (n > 0 && order[n - 1] in unwritable)
    {
      hide Freed, PathsOf, Marked, ItemsOf, MarkedEvicted, PathOf, Persisted, StopsAt;
      freed, ok, n := 0, true, 0;
      ghost var items := ItemsOf(heap, files, order);
      NothingEvicted(heap, files, order);
      while n < |order| && freed < bytes
        invariant n <= |order| && ok && freed == Freed(items, n)
        invariant forall k :: 0 <= k < n ==> Freed(items, k) < bytes
        invariant files == old(files) - PathsOf(old(heap), order, n)
        invariant heap == Marked(old(heap), order, n)
      {
        if n >= budget {
          return freed, false, n;
        }
        EvictionContinues(old(heap), old(files), order, n);
        var more, removed, written := EvictOne(order[n], undeletable, unwritable);
        if !removed {
          return freed, false, n;
        }
        freed := freed + more;
        n := n + 1;
        if !written {
          return freed, false, n;
        }
      }
      StopsHere(items, bytes, n);
    }

    /** The loop over the records that collects what may be evicted. */
    method EvictionCandidates(pinned: set<string>) returns (candidates: seq<nat>)
      requires RecordsFit(heap, records)
      ensures ListsCandidates(candidates, heap, records, records.Keys, reading, pinned)
    {
      candidates := [];
      var rest := records.Keys;
      hide ListsCandidates;
      assert ListsCandidates(candidates, heap, records, records.Keys - rest, reading, pinned) by {
        NothingListed(heap, records, reading, pinned);
        assert records.Keys - rest == {};
      }
      while rest != {}
        invariant rest <= records.Keys
                  && ListsCandidates(candidates, heap, records, records.Keys - rest, reading, pinned)
        decreases rest
      {
        var key :| key in rest;
        var j := records[key];
        ListsOneMoreKey(candidates, heap, records, records.Keys - rest, reading, pinned, key);
        ghost var seen := records.Keys - rest;
        rest := rest - {key};
        assert records.Keys - rest == seen + {key};
        assert heap[j].key == key;
        if heap[j].download.state == Cached && Count(reading, heap[j].key) == 0 && heap[j].trackId !in pinned {
          candidates := candidates + [j];
        }
      }
      assert records.Keys - rest == records.Keys;
    }

    /** `evict`. `unwritable` are jobs whose record cannot be written, `undeletable` files that cannot be removed,
        `budget` how many candidates are seen before the context ends, `updatedAt` when a job's row last changed.
        `order` lists exactly what may be evicted, oldest first; its first `n` candidates were dealt with, and they are
        the shortest prefix that frees enough. No candidate that still has its file is older than one dealt with. */
    method Evict(bytes: int, pinned: set<string>, updatedAt: nat -> nat, undeletable: set<Path>, unwritable: set<nat>,
                 budget: nat)
      returns (freed: nat, ok: bool, n: nat, ghost order: seq<nat>)
      requires RecordsFit(heap, records)
      modifies this`heap, this`files, this`disk
      ensures bytes > 0 ==> forall j: nat :: j in order <==> Collects(old(heap), records, reading, pinned, j)
      ensures AgeOrdered(order, updatedAt) && DistinctPaths(old(heap), order)
      ensures n <= |order| && freed == Freed(ItemsOf(old(heap), old(files), order), n)
      ensures files == old(files) - PathsOf(old(heap), order, n)
      ensures heap == Marked(old(heap), order, n)
      ensures ok ==> StopsAt(ItemsOf(old(heap), old(files), order), bytes, n)
                     && Answers(ItemsOf(old(heap), old(files), order), bytes, freed)
      ensures !ok ==>
                n >= budget || (n < |order| && PathOf(old(heap)[order[n]]) in undeletable)
                || (n > 0 && order[n - 1] in unwritable)
      ensures NoOlderSurvivor(old(heap), files, order, updatedAt, n)
    {
      hide SortedByAge, ListsCandidates, RecordsFit, Collects, AgeOrdered, DistinctPaths, Freed, PathsOf, Marked,
        ItemsOf, StopsAt, NoOlderSurvivor;
      order := [];
      if bytes <= 0 {
        NothingToEvict(heap, files, order, bytes, updatedAt);
        return 0, true, 0, order;
      }
      var candidates := EvictionCandidates(pinned);
      var sorted := SortedByAge(candidates, updatedAt);
      order := sorted;
      SortedIsRight(candidates, updatedAt);
      PermutedListsCandidates(candidates, sorted, heap, records, records.Keys, reading, pinned);
      AllKeysListed(sorted, heap, records, reading, pinned);
      CandidatePathsDiffer(sorted, heap, records, records.Keys, reading, pinned);
      freed, ok, n := EvictInOrder(bytes, sorted, undeletable, unwritable, budget);
      SurvivorsAreYounger(old(heap), old(files), sorted, updatedAt, n);
    }

    ghost function Loaded(): Loading
      reads this
    {
      Loading(heap, jobs, records, disk)
    }

    /** One record of `loadRecords`. */
    method LoadRecord(record: Record, writable: bool)
      modifies this
      ensures Loaded() == OneLoaded(old(Loaded()), record, old(files), writable)
      ensures (files, reading) == old((files, reading))
    {
      hide Restored, Persisted;
      var j := |heap|;
      var job := Restored(record, files);
      heap := heap + [job];
      records := records[record.key := j];
      if !job.finished {
        jobs := jobs[record.key := j];
      }
      if writable {
        disk := disk[job.key := Persisted(job)];
      }
    }

    /** `loadRecords` over the readable record files, in the order the directory lists them. */
    method LoadRecords(w: World)
      requires |w.order| == |w.writes| && forall k :: 0 <= k < |w.order| ==> w.order[k] in w.disk
      requires Loaded() == Loading([], map[], map[], w.disk) && files == w.files
      modifies this
      ensures Loaded() == LoadingOf(LoadFirst(w, |w.order|))
      ensures (files, reading) == old((files, reading))
    {
      hide *;
      var n := 0;
      LoadedNothing(w);
      while n < |w.order|
        invariant n <= |w.order| && Loaded() == LoadingOf(LoadFirst(w, n))
        invariant files == w.files && reading == old(reading)
      {
        LoadedByOneMore(w, n);
        LoadRecord(w.disk[w.order[n]], w.writes[n]);
        n := n + 1;
      }
    }
  }

  /** What loading fills in. */
  datatype Loading = Loading(heap: seq<Job>, jobs: map<string, nat>, records: map<string, nat>,
                             disk: map<string, Record>)

  function LoadingOf(s: State): Loading {
    Loading(s.heap, s.jobs, s.records, s.disk)
  }

  function OneLoaded(l: Loading, record: Record, files: map<Path, nat>, writable: bool): Loading {
    var j, job := |l.heap|, Restored(record, files);
    Loading(l.heap + [job], if job.finished then l.jobs else l.jobs[record.key := j], l.records[record.key := j],
            if writable then l.disk[job.key := Persisted(job)] else l.disk)
  }

  lemma {:induction false} LoadedFilesStay(w: World, n: nat)
    requires n <= |w.order| == |w.writes| && forall k :: 0 <= k < |w.order| ==> w.order[k] in w.disk
    ensures LoadFirst(w, n).files == w.files
  {
    if n > 0 {
      LoadedFilesStay(w, n - 1);
    }
  }

  lemma LoadedNothing(w: World)
    requires |w.order| == |w.writes| && forall k :: 0 <= k < |w.order| ==> w.order[k] in w.disk
    ensures LoadingOf(LoadFirst(w, 0)) == Loading([], map[], map[], w.disk)
  {
  }

  lemma LoadedByOneMore(w: World, n: nat)
    requires n < |w.order| == |w.writes| && forall k :: 0 <= k < |w.order| ==> w.order[k] in w.disk
    ensures LoadingOf(LoadFirst(w, n + 1))
            == OneLoaded(LoadingOf(LoadFirst(w, n)), w.disk[w.order[n]], w.files, w.writes[n])
  {
    LoadedFilesStay(w, n);
    LoadFirstByOne(w, n);
    hide Restored, Persisted, LoadFirst;
  }
}
