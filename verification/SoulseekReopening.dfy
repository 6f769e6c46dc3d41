/** When a finished Soulseek job shows up as under way again, and when a restart brings its download back to life.

    `finishJob` marks a job finished, but `enqueue` and `enqueueWithRetry` write its state without asking for that
    mark. A call that is out while the job is cancelled therefore reopens the row, and the record written next may
    be restored as a live job. */
module SoulseekReopening {
  import opened Common
  import opened Counting
  import opened SoulseekJobs
  import opened SoulseekMachine
  import opened SoulseekInvariant
  import opened SoulseekRestart
  import opened SoulseekAbsorption

  // One job.

  /** The row is shown as under way again, and nothing else that a request looks at has changed. */
  predicate ShownUnderWay(s: State, t: State, j: nat) {
    On(t, j) && !Over(t.heap[j].download.state) && t.records == s.records && t.serving == s.serving
  }

  lemma AnswerReopens(s: State, i: nat, j: nat, attempt: nat, first: bool, answer: Answer)
    requires At(s, i) && On(s, j) && Reopening(s.retryAttempts, attempt, answer)
    ensures ShownUnderWay(s, EnqueueStep(s, i, j, attempt, first, answer), j)
  {
    AnsweredAbsorbs(s.heap[j], s.retryAttempts, attempt, answer);
    hide Answered, AfterAnswer, Over, Absorbed, Reopening;
  }

  lemma WakingReopens(s: State, i: nat, j: nat, attempt: nat, first: bool)
    requires At(s, i) && On(s, j)
    ensures ShownUnderWay(s, WakeStep(s, i, j, attempt, first, true), j)
  {
  }

  lemma MoveReopens(s: State, i: nat, input: Input, j: nat)
    requires CanMove(s, i, input) && On(s, j) && MoveEffect(s, s.threads[i], input) == Reopens(j)
    ensures ShownUnderWay(s, Move(s, i, input), j)
  {
    hide ShownUnderWay, EnqueueStep, WakeStep;
    match s.threads[i]
    case Enqueueing(_, attempt, first) => AnswerReopens(s, i, j, attempt, first, input.answer);
    case Sleeping(_, attempt, first) => WakingReopens(s, i, j, attempt, first);
  }

  lemma StepReopens(s: State, a: Action, j: nat)
    requires Enabled(s, a) && On(s, j) && EffectOf(s, a) == Reopens(j)
    ensures ShownUnderWay(s, Apply(s, a), j)
  {
    hide CanMove, Move, ShownUnderWay, MoveEffect;
    MoveReopens(s, a.i, a.input, j);
  }

  /** A closed job stays closed exactly unless an enqueue call of its own comes back accepted or to be repeated, or
      the wait between two calls ends. */
  lemma StaysClosedExactly(s: State, a: Action, j: nat)
    requires Enabled(s, a) && On(s, j) && Closed(s.heap[j])
    ensures On(Apply(s, a), j) && (Closed(Apply(s, a).heap[j]) <==> EffectOf(s, a) != Reopens(j))
  {
    hide Enabled, Apply, EffectOf, Absorbed;
    StepAbsorbs(s, a);
    assert Absorbed(s.heap[j], Apply(s, a).heap[j], EffectOf(s, a) == Reopens(j));
    if EffectOf(s, a) == Reopens(j) {
      StepReopens(s, a, j);
    } else {
      ClosedByAbsorption(s.heap[j], Apply(s, a).heap[j]);
    }
  }

  lemma ClosedByAbsorption(a: Job, b: Job)
    requires Absorbed(a, b, false) && Closed(a)
    ensures Closed(b)
  {
  }

  /** Whoever finishes a finished job again, by a cancel or otherwise, changes nothing that the row shows. */
  lemma SecondFinishShowsNothing(s: State, i: nat, j: nat, key: string, state: DownloadState, err: Option<Fault>,
                                 closer: Closer, next: Next)
    requires At(s, i) && On(s, j) && s.heap[j].finished
    ensures var t := FinishStep(s, i, j, key, state, err, closer, next);
            On(t, j) && t.heap[j].download == s.heap[j].download && t.heap[j].err == s.heap[j].err && t.disk == s.disk
  {
    SecondFinishRewrites(s, i, j, key, state, err, closer, next);
    hide FinishStep;
  }

  // All jobs of one key, and its record file.

  /** Nobody is downloading this key, every row of it says so, and so does its record file. */
  ghost predicate Settled(s: State, key: string) {
    AllClosed(s, key) && RecordOver(s, key)
  }

  /** A step after which the key is not settled any more: a job of it is reopened, or a new one is started. */
  predicate Disturbs(s: State, a: Action, key: string)
    requires Enabled(s, a)
  {
    match EffectOf(s, a)
    case Quiet => false
    case Reopens(j) => On(s, j) && s.heap[j].key == key
    case Starts(started) => started == key
    case Enters(_) => false
  }

  lemma QuietStepsSettle(s: State, t: State, e: Effect, writer: Option<nat>, key: string)
    requires Settled(s, key) && Absorbing(s, t, e, writer) && e != Starts(key)
    requires e.Reopens? ==> On(s, e.job) && s.heap[e.job].key != key
    ensures Settled(t, key)
  {
    hide Over, RecordOver, Signs, Lists;
    forall j: nat | j < |t.heap| && t.heap[j].key == key ensures Closed(t.heap[j]) {
      if j < |s.heap| {
        assert Absorbed(s.heap[j], t.heap[j], e == Reopens(j));
      }
    }
    assert AllClosed(t, key);
    RecordsFollow(s, t, writer, key);
  }

  lemma StartingUnsettles(s: State, i: nat, key: string, trackId: string, size: nat, origin: Origin)
    requires At(s, i) && key !in s.jobs
    ensures !AllClosed(EnsureStep(s, i, key, trackId, size, origin), key)
  {
    var t := EnsureStep(s, i, key, trackId, size, origin);
    assert t.heap[|s.heap|] == NewJob(key, trackId, size);
  }

  lemma StartUnsettles(s: State, a: Action, key: string)
    requires Enabled(s, a) && EffectOf(s, a) == Starts(key)
    ensures !AllClosed(Apply(s, a), key)
  {
    hide AllClosed, EnsureStep;
    var pc := s.threads[a.i];
    StartingUnsettles(s, a.i, key, pc.trackId, pc.size, pc.origin);
  }

  lemma ReopeningUnsettles(s: State, a: Action, j: nat)
    requires Enabled(s, a) && On(s, j) && EffectOf(s, a) == Reopens(j)
    ensures !AllClosed(Apply(s, a), s.heap[j].key)
  {
    hide Enabled, Apply, EffectOf;
    StepReopens(s, a, j);
    StepAbsorbs(s, a);
    assert Absorbed(s.heap[j], Apply(s, a).heap[j], true);
  }

  lemma EffectIsOnAJob(s: State, a: Action)
    requires Enabled(s, a) && EffectOf(s, a).Reopens?
    ensures On(s, EffectOf(s, a).job)
  {
  }

  /** A settled key stays settled exactly unless the step disturbs it. */
  lemma StaysSettledExactly(s: State, a: Action, key: string)
    requires Enabled(s, a) && Settled(s, key)
    ensures Settled(Apply(s, a), key) <==> !Disturbs(s, a, key)
  {
    hide Enabled, Apply, EffectOf, Writer, Absorbing, RecordOver, AllClosed;
    StepAbsorbs(s, a);
    match EffectOf(s, a)
    case Enters(_) => QuietStepsSettle(s, Apply(s, a), EffectOf(s, a), Writer(s, a), key);
    case Quiet => QuietStepsSettle(s, Apply(s, a), EffectOf(s, a), Writer(s, a), key);
    case Reopens(j) =>
      EffectIsOnAJob(s, a);
      if s.heap[j].key == key {
        ReopeningUnsettles(s, a, j);
      } else {
        QuietStepsSettle(s, Apply(s, a), EffectOf(s, a), Writer(s, a), key);
      }
    case Starts(started) =>
      if started == key {
        StartUnsettles(s, a, key);
      } else {
        QuietStepsSettle(s, Apply(s, a), EffectOf(s, a), Writer(s, a), key);
      }
  }

  /** A reopened row offers no retry any more. It offers to be cancelled, but its job has been finished already. */
  lemma ReopenedRowIsNotRetriable(s: State, a: Action, j: nat)
    requires Enabled(s, a) && On(s, j) && EffectOf(s, a) == Reopens(j)
    requires s.heap[j].key in s.records && s.records[s.heap[j].key] == j
    ensures !Enabled(Apply(s, a), Retry(s.heap[j].key))
    ensures s.serving ==> Enabled(Apply(s, a), Cancel(s.heap[j].key))
  {
    var t := Apply(s, a);
    StepReopens(s, a, j);
    hide Apply, EffectOf;
  }

  // Crashes.

  /** After a crash the row of a key is a live job exactly if the final file is missing and the record says that the
      job waits without a batch, or is under way and names both identifiers. */
  lemma CrashRevivesExactly(s: State, w: World, key: string)
    requires Inv(s) && Happens(s, Crash(w)) && key in s.disk
    ensures var t := Following(s, Crash(w));
            && key in t.records && On(t, t.records[key])
            && (!t.heap[t.records[key]].finished
                <==> FinalPath(key, s.disk[key].trackId) !in w.files
                     && var record := s.disk[key];
                        if record.batchId == "" then record.download.state == Waiting
                        else record.transferId != ""
                             && (record.download.state == Queued || record.download.state == Downloading))
  {
    hide JobSound, ThreadSound, Conserved, Restarted, Restored;
    assert TablesSound(s);
    RestartLoads(w);
    RestoredIsLiveExactlyWhen(s.disk[key], w.files);
  }

  lemma RestoredOverIsClosed(record: Record, files: map<Path, nat>)
    requires Over(record.download.state)
    ensures Closed(Restored(record, files)) && Over(Persisted(Restored(record, files)).download.state)
  {
  }

  lemma LoadedStaysSettled(t: State, w: World, n: nat, key: string)
    requires Listed(w) && LoadedAs(t, w, n) && n == |w.order| && (key in w.disk ==> Over(w.disk[key].download.state))
    ensures Settled(t, key)
  {
    if key in w.disk {
      RestoredOverIsClosed(w.disk[key], w.files);
    }
    hide Restored, Closed, Over, Persisted;
    forall j: nat | j < |t.heap| && t.heap[j].key == key ensures Closed(t.heap[j]) {
      RestoredKeepsKey(w.disk[w.order[j]], w.files);
    }
  }

  /** A crash keeps a settled key settled, whatever has happened to its final file. */
  lemma CrashKeepsSettled(s: State, w: World, key: string)
    requires Inv(s) && Settled(s, key) && Happens(s, Crash(w))
    ensures Settled(Following(s, Crash(w)), key)
  {
    assert Listed(w) by {
      assert TablesSound(s);
    }
    hide Inv, Restarted, LoadedAs, AllClosed;
    RestartLoads(w);
    LoadedStaysSettled(Restarted(w), w, |w.order|, key);
  }

  // Runs.

  ghost predicate SettledThroughout(s: State, es: seq<Event>, key: string)
    requires Runs(s, es)
    decreases |es|
  {
    Settled(s, key) && (es == [] || SettledThroughout(Following(s, es[0]), es[1..], key))
  }

  predicate EventDisturbs(s: State, e: Event, key: string)
    requires e.Step? ==> Enabled(s, e.a)
  {
    e.Step? && Disturbs(s, e.a, key)
  }

  ghost predicate Undisturbed(s: State, es: seq<Event>, key: string)
    requires Runs(s, es)
    decreases |es|
  {
    es == [] || (!EventDisturbs(s, es[0], key) && Undisturbed(Following(s, es[0]), es[1..], key))
  }

  lemma EventSettlesExactly(s: State, e: Event, key: string)
    requires Inv(s) && Happens(s, e) && Settled(s, key)
    ensures Settled(Following(s, e), key) <==> !EventDisturbs(s, e, key)
  {
    hide Inv, Settled;
    match e
    case Step(a) =>
      hide Enabled, Apply;
      StaysSettledExactly(s, a, key);
    case Crash(w) =>
      hide Restarted;
      CrashKeepsSettled(s, w, key);
  }

  /** Across any number of crashes, a settled key stays settled exactly as long as no request starts it anew and no
      late answer reopens a job of it. */
  lemma {:induction false} SettledForGoodExactly(s: State, es: seq<Event>, key: string)
    requires Inv(s) && Runs(s, es) && Settled(s, key)
    ensures SettledThroughout(s, es, key) <==> Undisturbed(s, es, key)
    decreases |es|
  {
    if es != [] {
      assert Runs(Following(s, es[0]), es[1..]);
      hide Inv, Settled, Happens, Following, EventDisturbs;
      EventSettlesExactly(s, es[0], key);
      EventKeepsInv(s, es[0]);
      if Settled(Following(s, es[0]), key) {
        SettledForGoodExactly(Following(s, es[0]), es[1..], key);
      }
    }
  }
}
