/** Crash and restart of the Soulseek coordinator, and runs that contain crashes. */
module SoulseekRestart {
  import opened Common
  import opened Counting
  import opened SoulseekJobs
  import opened SoulseekMachine
  import opened SoulseekInvariant
  import opened SoulseekConservation
  import opened SoulseekSafety
  import opened SoulseekRuns

  /** What a crash leaves and the next process starts with: the record files, in the order the directory lists
      them, the final files, and the configuration. */
  datatype World = World(
    disk: map<string, Record>, order: seq<string>, files: map<Path, nat>, limit: nat, retryAttempts: nat,
        writes: seq<bool>)

  ghost predicate Listed(w: World) {
    && (forall k :: 0 <= k < |w.order| ==> w.order[k] in w.disk)
    && Distinct(w.order)
    && |w.writes| == |w.order|
    && (forall key :: key in w.disk ==> RecordSound(w.disk[key], key))
  }

  /** One turn of `loadRecords`: restore the record, list it as live unless it is over, write it back. */
  function LoadOne(s: State, record: Record, ok: bool): State {
    Written(Entered(s, record.key, Restored(record, s.files)), |s.heap|, ok)
  }

  function Entered(s: State, key: string, job: Job): State {
    s.(heap := s.heap + [job], records := s.records[key := |s.heap|],
       jobs := if job.finished then s.jobs else s.jobs[key := |s.heap|])
  }

  function LoadFirst(w: World, n: nat): State
    requires n <= |w.order| == |w.writes| && forall k :: 0 <= k < |w.order| ==> w.order[k] in w.disk
  {
    if n == 0 then
      State([], map[], map[], map[], 0, 0, w.limit, w.retryAttempts, w.disk, w.files, false, false, false, [])
    else LoadOne(LoadFirst(w, n - 1), w.disk[w.order[n - 1]], w.writes[n - 1])
  }

  function Unfinished(heap: seq<Job>): set<nat> {
    set j | 0 <= j < |heap| && !heap[j].finished
  }

  /** The process after loading, with `resume` about to go through the live jobs. */
  function Restarted(w: World): State
    requires |w.order| == |w.writes| && forall k :: 0 <= k < |w.order| ==> w.order[k] in w.disk
  {
    var s := LoadFirst(w, |w.order|);
    s.(threads := [Resuming(Unfinished(s.heap))])
  }

  // Loading keeps the tables sound.

  /** Nobody has done anything with the job yet. */
  predicate Untouched(job: Job) {
    job.dormant == !job.finished && !job.slotHeld && !job.worker && job.closers == 0
  }

  /** A restored job is either over, or resumable and waiting for the restart loop. */
  lemma RestoredFits(record: Record, files: map<Path, nat>, key: string, jobs: map<string, nat>, attempts: nat, j: nat)
    requires RecordSound(record, key)
    requires !Restored(record, files).finished ==> key in jobs && jobs[key] == j
    ensures var job := Restored(record, files);
            && JobFits(jobs, false, attempts, j, job) && job.key == key
            && Untouched(job)
  {
    hide Quota;
  }

  ghost predicate Loading(s: State, w: World, n: nat) {
    && |s.heap| == n <= |w.order| && s.threads == [] && s.reading == map[]
    && (s.gate, s.restoredUnits, s.cacheLocked, s.serving, s.stopped) == (0, 0, false, false, false)
    && (s.limit, s.retryAttempts, s.files) == (w.limit, w.retryAttempts, w.files)
    && TablesSound(s)
    && (forall key :: key in s.records ==> exists k: nat :: k < n && w.order[k] == key)
    && (forall j: nat :: j < n ==> JobSound(s, j) && Untouched(s.heap[j]))
  }

  lemma EnteredKeepsTables(s: State, key: string, job: Job)
    requires TablesSound(s) && key !in s.records && job.key == key
    ensures TablesSound(Entered(s, key, job))
  {
  }

  lemma WrittenKeepsTables(s: State, j: nat, ok: bool)
    requires TablesSound(s) && On(s, j) && RecordSound(Persisted(s.heap[j]), s.heap[j].key)
    ensures TablesSound(Written(s, j, ok))
  {
  }

  lemma LoadOneKeepsTables(s: State, record: Record, key: string, ok: bool)
    requires TablesSound(s) && RecordSound(record, key) && key !in s.records
    ensures TablesSound(LoadOne(s, record, ok))
  {
    var job := Restored(record, s.files);
    RestoredFits(record, s.files, key, map[key := |s.heap|], s.retryAttempts, |s.heap|);
    hide Restored, Quota, TablesSound;
    EnteredKeepsTables(s, key, job);
    WrittenKeepsTables(Entered(s, key, job), |s.heap|, ok);
  }

  lemma LoadOneKeepsJobs(s: State, record: Record, key: string, ok: bool)
    requires TablesSound(s) && RecordSound(record, key) && key !in s.records && !s.stopped
    requires forall j: nat :: j < |s.heap| ==> JobSound(s, j) && Untouched(s.heap[j])
    ensures var t := LoadOne(s, record, ok); forall j: nat :: j < |t.heap| ==> JobSound(t, j) && Untouched(t.heap[j])
  {
    var n := |s.heap|;
    var t := LoadOne(s, record, ok);
    RestoredFits(record, s.files, key, t.jobs, s.retryAttempts, n);
    hide Restored, Quota;
    forall j: nat | j < n + 1 ensures JobSound(t, j) && Untouched(t.heap[j]) {
      if j < n {
        assert JobSound(s, j);
      }
    }
  }

  lemma LoadOneKeepsLoading(s: State, w: World, n: nat, ok: bool)
    requires Listed(w) && n < |w.order| && Loading(s, w, n)
    ensures Loading(LoadOne(s, w.disk[w.order[n]], ok), w, n + 1)
  {
    var key := w.order[n];
    var t := LoadOne(s, w.disk[key], ok);
    assert key !in s.records;
    LoadOneKeepsTables(s, w.disk[key], key, ok);
    LoadOneKeepsJobs(s, w.disk[key], key, ok);
    hide Restored, JobSound, TablesSound;
    forall k | k in t.records ensures exists l: nat :: l < n + 1 && w.order[l] == k {
      if k == key {
        assert n < n + 1 && w.order[n] == k;
      } else {
        var l: nat :| l < n && w.order[l] == k;
        assert l < n + 1;
      }
    }
  }

  lemma NothingIsLoading(w: World)
    requires Listed(w)
    ensures Loading(LoadFirst(w, 0), w, 0)
  {
    hide JobFits, ThreadSound;
  }

  lemma LoadFirstByOne(w: World, n: nat)
    requires n < |w.order| == |w.writes| && forall k :: 0 <= k < |w.order| ==> w.order[k] in w.disk
    ensures LoadFirst(w, n + 1) == LoadOne(LoadFirst(w, n), w.disk[w.order[n]], w.writes[n])
  {
    hide LoadOne;
  }

  lemma {:induction false} LoadFirstIsLoading(w: World, n: nat)
    requires Listed(w) && n <= |w.order|
    ensures Loading(LoadFirst(w, n), w, n)
  {
    hide LoadFirst, LoadOne, Loading;
    if n == 0 {
      NothingIsLoading(w);
    } else {
      LoadFirstIsLoading(w, n - 1);
      LoadFirstByOne(w, n - 1);
      LoadOneKeepsLoading(LoadFirst(w, n - 1), w, n - 1, w.writes[n - 1]);
    }
  }

  lemma NoSlotsHeld(heap: seq<Job>, restored: bool)
    requires forall j :: 0 <= j < |heap| ==> !heap[j].slotHeld
    ensures Total(heap, HoldsSlot, restored) == 0
  {
    TotalNone(heap, HoldsSlot, restored);
  }

  lemma UnfinishedAreDormant(s: State)
    requires forall j: nat :: j < |s.heap| ==> Untouched(s.heap[j])
    ensures ThreadSound(s, Resuming(Unfinished(s.heap)))
  {
  }

  lemma LoadedIsSound(s: State, w: World, n: nat)
    requires Loading(s, w, n)
    ensures Sound(s) && s.threads == []
    ensures forall j: nat :: j < |s.heap| ==> Untouched(s.heap[j])
  {
    hide JobFits, ThreadSound, TablesSound;
  }

  lemma RestartConserves(w: World, s: State, pc: Pc)
    requires Loading(s, w, |w.order|) && pc == Resuming(Unfinished(s.heap))
    ensures Conserved(s.(threads := [pc]))
  {
    hide JobFits, TablesSound, Unfinished, Conserved;
    StartedConserved(s.(threads := [pc]), pc);
  }

  lemma InvOf(s: State)
    requires Sound(s) && Conserved(s)
    ensures Inv(s)
  {
    hide Sound, Conserved;
  }

  /** Whatever is on disk when the process dies, the next process starts in a sound state. */
  lemma RestartEstablishesInv(w: World)
    requires Listed(w)
    ensures Inv(Restarted(w))
  {
    hide Inv, Loading, Sound, Conserved, LoadFirst, ThreadSound, Untouched;
    var s := LoadFirst(w, |w.order|);
    var pc := Resuming(Unfinished(s.heap));
    LoadFirstIsLoading(w, |w.order|);
    LoadedIsSound(s, w, |w.order|);
    UnfinishedAreDormant(s);
    SpawnKeepsSound(s, pc);
    RestartConserves(w, s, pc);
    assert Spawned(s, pc).threads == [pc];
    InvOf(Restarted(w));
  }

  lemma StartedConserved(t: State, pc: Pc)
    requires t.threads == [pc] && pc == Resuming(Unfinished(t.heap)) && t.reading == map[]
    requires (t.gate, t.restoredUnits, t.cacheLocked, t.serving) == (0, 0, false, false)
    requires forall j: nat :: j < |t.heap| ==> Untouched(t.heap[j])
    ensures Conserved(t)
  {
    NoSlotsHeld(t.heap, false);
    NoSlotsHeld(t.heap, true);
    forall r ensures Recorded(t, r) == Held(t, r) {
      assert Held(t, r) == Owns(pc, r) by {
        assert t.threads[..0] == [];
        assert Total([], Owns, r) == 0;
      }
      match r case Token(_) => case WorkerOf(_) => case CloserOf(_) => case DormantJob(_) => case _ =>
    }
  }

  // What loading makes of the records.

  /** Loading leaves a record as it was or writes back what it was restored to. */
  predicate RewrittenFrom(now: Record, was: Record, files: map<Path, nat>) {
    now == was || now == Persisted(Restored(was, files))
  }

  /** The first jobs are the first records restored, and the table of rows names them. */
  ghost predicate JobsLoaded(s: State, w: World, n: nat)
    requires Listed(w)
  {
    && |s.heap| == n <= |w.order| && s.files == w.files
    && (forall k: nat :: k < n ==> s.heap[k] == Restored(w.disk[w.order[k]], w.files))
    && (forall k: nat :: k < n ==> w.order[k] in s.records && s.records[w.order[k]] == k)
  }

  /** Records are as they were or rewritten, and rewritten if the write succeeded. */
  ghost predicate RecordsLoaded(s: State, w: World, n: nat)
    requires Listed(w) && n <= |w.order|
  {
    && (forall key :: key in s.disk <==> key in w.disk)
    && (forall key :: key in s.disk ==> RewrittenFrom(s.disk[key], w.disk[key], w.files))
    && (forall k: nat :: k < n && w.writes[k] ==>
          s.disk[w.order[k]] == Persisted(Restored(w.disk[w.order[k]], w.files)))
  }

  /** What loading leaves of the first records. */
  ghost predicate LoadedAs(s: State, w: World, n: nat)
    requires Listed(w)
  {
    JobsLoaded(s, w, n) && RecordsLoaded(s, w, n)
  }

  lemma RestoredKeepsKey(record: Record, files: map<Path, nat>)
    ensures Restored(record, files).key == record.key
  {
  }

  lemma LoadedSoFar(s: State, w: World, n: nat)
    requires Listed(w) && JobsLoaded(s, w, n)
    ensures |s.heap| == n && s.files == w.files
  {
    hide Restored;
  }

  lemma LoadOneGrows(s: State, record: Record, ok: bool)
    requires Restored(record, s.files).key == record.key
    ensures var t, job := LoadOne(s, record, ok), Restored(record, s.files);
            && t.heap == s.heap + [job] && t.records == s.records[record.key := |s.heap|] && t.files == s.files
            && t.disk == if ok then s.disk[record.key := Persisted(job)] else s.disk
  {
    hide Restored, Persisted;
  }

  lemma JobsByOne(s: State, t: State, w: World, n: nat)
    requires Listed(w) && n < |w.order| && JobsLoaded(s, w, n)
    requires t.heap == s.heap + [Restored(w.disk[w.order[n]], w.files)] && t.records == s.records[w.order[n] := n]
    requires t.files == s.files
    ensures JobsLoaded(t, w, n + 1)
  {
    hide Restored;
  }

  lemma RecordsByOne(s: State, t: State, w: World, n: nat)
    requires Listed(w) && n < |w.order| && RecordsLoaded(s, w, n)
    requires t.disk == if w.writes[n] then s.disk[w.order[n] := Persisted(Restored(w.disk[w.order[n]], w.files))]
             else s.disk
    ensures RecordsLoaded(t, w, n + 1)
  {
    hide Restored, Persisted;
  }

  lemma LoadOneKeepsLoaded(s: State, w: World, n: nat, ok: bool)
    requires Listed(w) && n < |w.order| && LoadedAs(s, w, n) && ok == w.writes[n]
    ensures LoadedAs(LoadOne(s, w.disk[w.order[n]], ok), w, n + 1)
  {
    hide Restored, Persisted, LoadOne, JobsLoaded, RecordsLoaded;
    var record := w.disk[w.order[n]];
    LoadedSoFar(s, w, n);
    RestoredKeepsKey(record, w.files);
    LoadOneGrows(s, record, ok);
    JobsByOne(s, LoadOne(s, record, ok), w, n);
    RecordsByOne(s, LoadOne(s, record, ok), w, n);
  }

  lemma NothingIsLoaded(w: World)
    requires Listed(w)
    ensures LoadedAs(LoadFirst(w, 0), w, 0)
  {
  }

  lemma {:induction false} LoadFirstLoads(w: World, n: nat)
    requires Listed(w) && n <= |w.order|
    ensures LoadedAs(LoadFirst(w, n), w, n)
  {
    hide LoadFirst, LoadOne, LoadedAs;
    if n == 0 {
      NothingIsLoaded(w);
    } else {
      LoadFirstLoads(w, n - 1);
      LoadFirstByOne(w, n - 1);
      LoadOneKeepsLoaded(LoadFirst(w, n - 1), w, n - 1, w.writes[n - 1]);
    }
  }

  lemma SameLoaded(s: State, t: State, w: World, n: nat)
    requires Listed(w) && LoadedAs(s, w, n)
             && (s.heap, s.records, s.disk, s.files) == (t.heap, t.records, t.disk, t.files)
    ensures LoadedAs(t, w, n)
  {
    hide Restored, Persisted, RewrittenFrom;
  }

  lemma RestartLoads(w: World)
    requires Listed(w)
    ensures LoadedAs(Restarted(w), w, |w.order|)
  {
    hide LoadFirst, Restored, JobsLoaded, RecordsLoaded;
    LoadFirstLoads(w, |w.order|);
    SameLoaded(LoadFirst(w, |w.order|), Restarted(w), w, |w.order|);
  }

  // Runs with crashes.

  datatype Event = Step(a: Action) | Crash(w: World)

  /** A crash may come at any time and loses everything but the record files and the final files, which the server
      may have changed meanwhile. */
  ghost predicate Happens(s: State, e: Event) {
    match e
    case Step(a) => Enabled(s, a)
    case Crash(w) => w.disk == s.disk && |w.order| == |w.writes| && OrderOf(w)
  }

  ghost predicate OrderOf(w: World) {
    && (forall k :: 0 <= k < |w.order| ==> w.order[k] in w.disk)
    && Distinct(w.order)
    && (forall key :: key in w.disk ==> key in w.order)
  }

  function Following(s: State, e: Event): State
    requires Happens(s, e)
  {
    match e
    case Step(a) => Apply(s, a)
    case Crash(w) => Restarted(w)
  }

  ghost predicate Runs(s: State, es: seq<Event>)
    decreases |es|
  {
    es == [] || (Happens(s, es[0]) && Runs(Following(s, es[0]), es[1..]))
  }

  ghost function After(s: State, es: seq<Event>): State
    requires Runs(s, es)
    decreases |es|
  {
    if es == [] then s else After(Following(s, es[0]), es[1..])
  }

  /** The very first process: an empty record directory. */
  function FirstProcess(files: map<Path, nat>, limit: nat, retryAttempts: nat): State {
    Restarted(World(map[], [], files, limit, retryAttempts, []))
  }

  lemma EventKeepsInv(s: State, e: Event)
    requires Inv(s) && Happens(s, e)
    ensures Inv(Following(s, e))
  {
    match e
    case Step(a) =>
      hide Inv, Enabled;
      StepKeepsInv(s, a);
    case Crash(w) =>
      assert TablesSound(s);
      hide JobSound, ThreadSound, Conserved;
      assert Listed(w);
      hide Listed, Inv;
      RestartEstablishesInv(w);
  }

  lemma {:induction false} RunKeepsInv(s: State, es: seq<Event>)
    requires Inv(s) && Runs(s, es)
    ensures Inv(After(s, es))
    decreases |es|
  {
    hide Inv, Happens;
    if es != [] {
      EventKeepsInv(s, es[0]);
      RunKeepsInv(Following(s, es[0]), es[1..]);
    }
  }

  /** Every state that any interleaving reaches, across any number of crashes and restarts, satisfies the invariant. */
  lemma ReachableInv(files: map<Path, nat>, limit: nat, retryAttempts: nat, es: seq<Event>)
    requires Runs(FirstProcess(files, limit, retryAttempts), es)
    ensures Inv(After(FirstProcess(files, limit, retryAttempts), es))
  {
    RestartEstablishesInv(World(map[], [], files, limit, retryAttempts, []));
    hide Inv, Runs, Restarted;
    RunKeepsInv(FirstProcess(files, limit, retryAttempts), es);
  }

  // Restoring.

  /** Restoring what a restart wrote back changes nothing, as long as the final files are the same. */
  lemma RestoreIsIdempotent(record: Record, files: map<Path, nat>)
    ensures Restored(Persisted(Restored(record, files)), files) == Restored(record, files)
  {
  }

  lemma RewrittenRestoresAlike(now: Record, was: Record, files: map<Path, nat>)
    requires RewrittenFrom(now, was, files)
    ensures Restored(now, files) == Restored(was, files)
  {
    RestoreIsIdempotent(was, files);
  }

  /** The next world: the same files, and the records as the first restart left them. */
  ghost predicate Again(w: World, next: World)
    requires Listed(w)
  {
    next.disk == Restarted(w).disk && next.order == w.order && next.files == w.files && |next.writes| == |w.writes|
  }

  ghost predicate LeftBy(w: World, next: World) {
    && next.order == w.order && next.files == w.files
    && (forall key :: key in next.disk ==> key in w.disk && RewrittenFrom(next.disk[key], w.disk[key], w.files))
  }

  ghost predicate SameTables(s: State, t: State) {
    (s.heap, s.jobs, s.records, s.files) == (t.heap, t.jobs, t.records, t.files)
  }

  lemma SameJobSameTables(s: State, t: State, a: Record, b: Record, key: string, ok: bool, again: bool)
    requires SameTables(s, t) && a.key == key == b.key && Restored(a, s.files) == Restored(b, s.files)
    ensures SameTables(LoadOne(s, a, ok), LoadOne(t, b, again))
  {
    hide Restored, Persisted;
  }

  lemma FilesStay(w: World, n: nat)
    requires Listed(w) && n <= |w.order|
    ensures LoadFirst(w, n).files == w.files
  {
    LoadFirstLoads(w, n);
    hide LoadFirst, Restored, RewrittenFrom;
  }

  lemma NothingLoadedAlike(w: World, next: World)
    requires Listed(w) && Listed(next) && LeftBy(w, next)
    ensures SameTables(LoadFirst(w, 0), LoadFirst(next, 0))
  {
  }

  lemma {:induction false} LoadsAlike(w: World, next: World, n: nat)
    requires Listed(w) && Listed(next) && LeftBy(w, next) && n <= |w.order|
    ensures SameTables(LoadFirst(w, n), LoadFirst(next, n))
  {
    hide LoadFirst, Listed, SameTables;
    if n == 0 {
      NothingLoadedAlike(w, next);
    } else {
      LoadsAlike(w, next, n - 1);
      LoadsOneAlike(w, next, n - 1);
    }
  }

  lemma LoadsOneAlike(w: World, next: World, n: nat)
    requires Listed(w) && Listed(next) && LeftBy(w, next) && n < |w.order|
    requires SameTables(LoadFirst(w, n), LoadFirst(next, n))
    ensures SameTables(LoadFirst(w, n + 1), LoadFirst(next, n + 1))
  {
    hide LoadFirst, LoadOne, Restored, RewrittenFrom, SameTables;
    var key := w.order[n];
    RewrittenRestoresAlike(next.disk[key], w.disk[key], w.files);
    LoadFirstByOne(w, n);
    LoadFirstByOne(next, n);
    FilesStay(w, n);
    SameJobSameTables(LoadFirst(w, n), LoadFirst(next, n), w.disk[key], next.disk[key], key, w.writes[n],
                      next.writes[n]);
  }

  lemma RecordsOnDiskAreSound(s: State)
    requires Inv(s)
    ensures forall key :: key in s.disk ==> RecordSound(s.disk[key], key)
  {
    hide Conserved, JobSound, ThreadSound;
    assert TablesSound(s);
  }

  lemma LeftRecordsAreSound(w: World, next: World)
    requires Listed(w) && Again(w, next)
    ensures Listed(next)
    ensures LeftBy(w, next)
  {
    hide Restored, Inv, RewrittenFrom, Restarted, TablesSound, JobsLoaded, Persisted;
    RestartLoads(w);
    RestartEstablishesInv(w);
    RecordsOnDiskAreSound(Restarted(w));
  }

  lemma RewrittenTwice(record: Record, once: Record, twice: Record, files: map<Path, nat>)
    requires once == Persisted(Restored(record, files)) && RewrittenFrom(twice, once, files)
    ensures twice == once
  {
    hide Restored, Persisted;
    RestoreIsIdempotent(record, files);
  }

  lemma RecordsStay(w: World, next: World, k: nat)
    requires Listed(w) && Again(w, next) && Listed(next) && k < |w.order| && w.writes[k]
    ensures w.order[k] in Restarted(w).disk && w.order[k] in Restarted(next).disk
    ensures Restarted(next).disk[w.order[k]] == Restarted(w).disk[w.order[k]]
  {
    hide Restored, Restarted, Persisted, RewrittenFrom;
    RestartLoads(w);
    RestartLoads(next);
    RewrittenTwice(w.disk[w.order[k]], Restarted(w).disk[w.order[k]], Restarted(next).disk[w.order[k]], w.files);
  }

  lemma SameTablesSameRestart(w: World, next: World)
    requires Listed(w) && Listed(next) && next.order == w.order
    requires SameTables(LoadFirst(w, |w.order|), LoadFirst(next, |w.order|))
    ensures SameTables(Restarted(w), Restarted(next)) && Restarted(w).threads == Restarted(next).threads
  {
    hide LoadFirst;
  }

  /** Restarting twice on unchanged final files gives the same jobs and tables, and the same records for all that the
      first restart managed to write back. */
  lemma RestartIsIdempotent(w: World, next: World)
    requires Listed(w) && Again(w, next)
    ensures Listed(next)
    ensures SameTables(Restarted(w), Restarted(next)) && Restarted(w).threads == Restarted(next).threads
    ensures forall k: nat :: k < |w.order| && w.writes[k] ==>
              w.order[k] in Restarted(w).disk
              && Lookup(Restarted(next).disk, w.order[k]) == Lookup(Restarted(w).disk, w.order[k])
  {
    LeftRecordsAreSound(w, next);
    hide Restored, SameTables, LoadFirst, RewrittenFrom, Restarted;
    LoadsAlike(w, next, |w.order|);
    SameTablesSameRestart(w, next);
    forall k: nat | k < |w.order| && w.writes[k]
      ensures w.order[k] in Restarted(w).disk
              && Lookup(Restarted(next).disk, w.order[k]) == Lookup(Restarted(w).disk, w.order[k])
    {
      RecordsStay(w, next, k);
    }
  }

  /** Exactly these records come back to life. */
  lemma RestoredIsLiveExactlyWhen(record: Record, files: map<Path, nat>)
    ensures !Restored(record, files).finished
            <==> FinalPath(record.key, record.trackId) !in files
                 && if record.batchId == "" then record.download.state == Waiting
                    else record.transferId != ""
                         && (record.download.state == Queued || record.download.state == Downloading)
  {
  }

  /** The window in which a crash costs a download: the slot has been recorded and written, the batch not yet. The
      job would have gone on to enqueue; its record comes back as failed. */
  lemma CrashBeforeTheBatchFailsTheJob(s: State, i: nat, j: nat, files: map<Path, nat>)
    requires Inv(s) && At(s, i) && On(s, j) && s.threads[i] == PersistQueued(j) && s.retryAttempts > 0
    requires s.heap[j].download.state == Queued && FinalPath(s.heap[j].key, s.heap[j].trackId) !in files
    ensures var s' := PersistQueuedStep(s, i, j, true);
            && s'.threads[i] == Enqueueing(j, 1, true)
            && Restored(s'.disk[s.heap[j].key], files).finished
            && Restored(s'.disk[s.heap[j].key], files).download.state == Failed
  {
    WorkerFacts(s, i, j);
  }
}
