/** Two runs in full. A download is cancelled while its enqueue call is out, everything about the cancellation is
    written down, and then the answer arrives, in the second run after the download has been started anew. They show
    that closed jobs are reopened, and new records overwritten, in reachable states, and what a crash makes of it. */
module SoulseekLateAnswer {
  import opened Common
  import opened Counting
  import opened SoulseekJobs
  import opened SoulseekMachine
  import opened SoulseekInvariant
  import opened SoulseekRestart
  import opened SoulseekAbsorption
  import opened SoulseekReopening
  import opened SoulseekAuthorship

  // Runs grow at their end.

  lemma {:induction false} RunExtends(s: State, es: seq<Event>, e: Event)
    requires Runs(s, es) && Happens(After(s, es), e)
    ensures Runs(s, es + [e]) && After(s, es + [e]) == Following(After(s, es), e)
    decreases |es|
  {
    hide Happens, Following;
    if es == [] {
      assert [e][1..] == [];
      assert es + [e] == [e];
      assert Runs(Following(s, e), []);
    } else {
      assert (es + [e])[0] == es[0] && (es + [e])[1..] == es[1..] + [e];
      RunExtends(Following(s, es[0]), es[1..], e);
    }
  }

  /** `es` leads from the first process of `c` to `t`. */
  ghost predicate LeadsTo(c: Setting, es: seq<Event>, t: State) {
    Runs(First(c), es) && After(First(c), es) == t
  }

  lemma Extended(c: Setting, es: seq<Event>, t: State, a: Action)
    requires LeadsTo(c, es, t) && Enabled(t, a)
    ensures LeadsTo(c, es + [Step(a)], Apply(t, a))
  {
    hide Runs, After, Enabled, Apply;
    RunExtends(First(c), es, Step(a));
  }

  // The run.

  datatype Setting = Setting(
    files: map<Path, nat>, limit: nat, retryAttempts: nat, key: string, trackId: string, size: nat,
    answer: Answer)

  /** The final file is missing, there is a slot, and the answer is one that reopens the job. */
  predicate Fitting(c: Setting) {
    && FinalPath(c.key, c.trackId) !in c.files && c.limit > 0 && c.retryAttempts > 0
    && Reopening(c.retryAttempts, 1, c.answer) && (c.answer.Accepted? ==> c.answer.batchId != "")
  }

  function First(c: Setting): State {
    FirstProcess(c.files, c.limit, c.retryAttempts)
  }

  /** Everything else goes well. */
  function Fine(c: Setting): Input {
    Input(true, c.answer, LoopEnds, 0)
  }

  function Turn(c: Setting, i: nat): Action {
    Go(i, Fine(c))
  }

  function Scene(c: Setting, job: Job, listed: bool, record: Record, gate: int, threads: seq<Pc>): State {
    State([job], if listed then map[c.key := 0] else map[], map[c.key := 0], map[c.key := 1], gate, 0, c.limit,
          c.retryAttempts, map[c.key := record], c.files, false, true, false, threads)
  }

  function Fresh(c: Setting): Job {
    NewJob(c.key, c.trackId, c.size)
  }

  function Slotted(c: Setting): Job {
    SlotRecorded(Fresh(c))
  }

  /** The download has a slot, and its enqueue call is out. */
  function Asking(c: Setting): State {
    Scene(c, Slotted(c), true, Persisted(Slotted(c)), 1,
          [Done, AwaitingReady(0, c.key, FromResolve), Enqueueing(0, 1, true)])
  }

  lemma RequestArrives(c: Setting) returns (es: seq<Event>)
    requires Fitting(c)
    ensures LeadsTo(c, es, State([], map[], map[], map[c.key := 1], 0, 0, c.limit, c.retryAttempts, map[], c.files,
                                 false, true, false, [Done, Ensuring(c.key, c.trackId, c.size, FromResolve)]))
  {
    var s := First(c);
    assert Unfinished([]) == {};
    assert LeadsTo(c, [], s);
    var t := s.(serving := true, threads := [Done]);
    assert Enabled(s, Turn(c, 0)) && Apply(s, Turn(c, 0)) == t;
    var a := Resolve(c.key, c.trackId, c.size, true);
    assert Enabled(t, a);
    hide LeadsTo;
    Extended(c, [], s, Turn(c, 0));
    Extended(c, [] + [Step(Turn(c, 0))], t, a);
    es := [] + [Step(Turn(c, 0))] + [Step(a)];
  }

  /** One step from scene to scene. */
  lemma Onwards(c: Setting, es: seq<Event>, s: State, i: nat, t: State) returns (more: seq<Event>)
    requires LeadsTo(c, es, s) && CanMove(s, i, Fine(c)) && Move(s, i, Fine(c)) == t
    ensures LeadsTo(c, more, t)
  {
    Extended(c, es, s, Turn(c, i));
    more := es + [Step(Turn(c, i))];
  }

  lemma JobStarts(c: Setting) returns (es: seq<Event>)
    requires Fitting(c)
    ensures LeadsTo(c, es, Scene(c, Fresh(c), true, Persisted(Fresh(c)), 0,
                                 [Done, AwaitingReady(0, c.key, FromResolve), Acquiring(0)]))
  {
    es := RequestArrives(c);
    var s := State([], map[], map[], map[c.key := 1], 0, 0, c.limit, c.retryAttempts, map[], c.files,
                   false, true, false, [Done, Ensuring(c.key, c.trackId, c.size, FromResolve)]);
    var created :=
      State([Fresh(c)], map[c.key := 0], map[c.key := 0], map[c.key := 1], 0, 0, c.limit, c.retryAttempts, map[],
                         c.files, false, true, false, [Done, FirstPersist(0, c.key, FromResolve)]);
    hide LeadsTo;
    es := Onwards(c, es, s, 1, created);
    var written := Scene(c, Fresh(c), true, Persisted(Fresh(c)), 0, [Done, Launching(0, c.key, FromResolve)]);
    es := Onwards(c, es, created, 1, written);
    es := Onwards(c, es, written, 1,
                  Scene(c, Fresh(c), true, Persisted(Fresh(c)), 0,
                        [Done, AwaitingReady(0, c.key, FromResolve), Acquiring(0)]));
  }

  lemma JobGetsSlot(c: Setting) returns (es: seq<Event>)
    requires Fitting(c)
    ensures LeadsTo(c, es, Scene(c, Fresh(c), true, Persisted(Fresh(c)), 1,
                                 [Done, AwaitingReady(0, c.key, FromResolve), Acquired(0)]))
  {
    es := JobStarts(c);
    var waiting := AwaitingReady(0, c.key, FromResolve);
    var s := Scene(c, Fresh(c), true, Persisted(Fresh(c)), 0, [Done, waiting, Acquiring(0)]);
    hide LeadsTo, Persisted;
    es := Onwards(c, es, s, 2, Scene(c, Fresh(c), true, Persisted(Fresh(c)), 1, [Done, waiting, Acquired(0)]));
  }

  lemma SlotIsSeen(c: Setting) returns (es: seq<Event>)
    requires Fitting(c)
    ensures LeadsTo(c, es, Scene(c, Slotted(c), true, Persisted(Fresh(c)), 1,
                                 [Done, AwaitingReady(0, c.key, FromResolve), PersistQueued(0)]))
  {
    es := JobGetsSlot(c);
    var waiting := AwaitingReady(0, c.key, FromResolve);
    var s := Scene(c, Fresh(c), true, Persisted(Fresh(c)), 1, [Done, waiting, Acquired(0)]);
    hide LeadsTo, Persisted;
    es := Onwards(c, es, s, 2, Scene(c, Slotted(c), true, Persisted(Fresh(c)), 1, [Done, waiting, PersistQueued(0)]));
  }

  lemma JobAsks(c: Setting) returns (es: seq<Event>)
    requires Fitting(c)
    ensures LeadsTo(c, es, Asking(c))
  {
    es := SlotIsSeen(c);
    var s :=
      Scene(c, Slotted(c), true, Persisted(Fresh(c)), 1,
            [Done, AwaitingReady(0, c.key, FromResolve), PersistQueued(0)]);
    assert Slotted(c).key == c.key;
    hide LeadsTo, Persisted, Slotted;
    es := Onwards(c, es, s, 2, Asking(c));
  }

  // The cancellation.

  function WithCanceller(c: Setting, job: Job, record: Record, gate: int, pc: Pc): State {
    Scene(c, job, true, record, gate, [Done, AwaitingReady(0, c.key, FromResolve), Enqueueing(0, 1, true), pc])
  }

  function BeingCancelled(c: Setting): Job {
    Slotted(c).(cancelled := true, closers := 1)
  }

  function Dropped(c: Setting): Job {
    ClosedBy(FinishedJob(BeingCancelled(c), Cancelled, Some(CancelledByUser)), ByCanceller)
  }

  lemma CancelIsAskedFor(c: Setting) returns (es: seq<Event>)
    requires Fitting(c)
    ensures LeadsTo(c, es, WithCanceller(c, Slotted(c), Persisted(Slotted(c)), 1, Cancelling(0)))
  {
    es := JobAsks(c);
    var a := Cancel(c.key);
    assert Slotted(c).key == c.key && Slotted(c).transferId == "" && Slotted(c).download.state == Queued;
    hide LeadsTo, Persisted, Slotted;
    Extended(c, es, Asking(c), a);
    es := es + [Step(a)];
  }

  lemma CancelArrives(c: Setting) returns (es: seq<Event>)
    requires Fitting(c)
    ensures LeadsTo(c, es, WithCanceller(c, BeingCancelled(c), Persisted(Slotted(c)), 1,
                      Finishing(0, c.key, Cancelled, Some(CancelledByUser), ByCanceller, ToDone)))
  {
    es := CancelIsAskedFor(c);
    var s := WithCanceller(c, Slotted(c), Persisted(Slotted(c)), 1, Cancelling(0));
    hide LeadsTo, Persisted;
    es := Onwards(c, es, s, 3, WithCanceller(c, BeingCancelled(c), Persisted(Slotted(c)), 1,
                      Finishing(0, c.key, Cancelled, Some(CancelledByUser), ByCanceller, ToDone)));
  }

  function Released(c: Setting): Job {
    Dropped(c).(cancelled := true)
  }

  function Announced(c: Setting): Job {
    Released(c).(ready := true)
  }

  lemma CancelFinishes(c: Setting) returns (es: seq<Event>)
    requires Fitting(c)
    ensures LeadsTo(c, es, WithCanceller(c, Dropped(c), Persisted(Slotted(c)), 1,
                                         Returning(0, c.key, Some(false), ToDone)))
  {
    es := CancelArrives(c);
    var s := WithCanceller(c, BeingCancelled(c), Persisted(Slotted(c)), 1,
                           Finishing(0, c.key, Cancelled, Some(CancelledByUser), ByCanceller, ToDone));
    hide LeadsTo, Persisted;
    es :=
      Onwards(c, es, s, 3, WithCanceller(c, Dropped(c), Persisted(Slotted(c)), 1,
                                         Returning(0, c.key, Some(false), ToDone)));
  }

  lemma CancelReturnsSlot(c: Setting) returns (es: seq<Event>)
    requires Fitting(c)
    ensures LeadsTo(c, es, WithCanceller(c, Released(c), Persisted(Slotted(c)), 0, FinishAnnounce(0, c.key, ToDone)))
  {
    es := CancelFinishes(c);
    var s := WithCanceller(c, Dropped(c), Persisted(Slotted(c)), 1, Returning(0, c.key, Some(false), ToDone));
    hide LeadsTo, Persisted, Dropped;
    es :=
      Onwards(c, es, s, 3, WithCanceller(c, Released(c), Persisted(Slotted(c)), 0, FinishAnnounce(0, c.key, ToDone)));
  }

  lemma CancelAnnounces(c: Setting) returns (es: seq<Event>)
    requires Fitting(c)
    ensures LeadsTo(c, es, WithCanceller(c, Announced(c), Persisted(Slotted(c)), 0, FinishPersist(0, c.key, ToDone)))
  {
    es := CancelReturnsSlot(c);
    var s := WithCanceller(c, Released(c), Persisted(Slotted(c)), 0, FinishAnnounce(0, c.key, ToDone));
    hide LeadsTo, Persisted, Released;
    es :=
      Onwards(c, es, s, 3, WithCanceller(c, Announced(c), Persisted(Slotted(c)), 0, FinishPersist(0, c.key, ToDone)));
  }

  /** The cancelled download: closed, recorded as cancelled, off the list; only its enqueue call is still out. */
  function CancelledWhileAsking(c: Setting): State {
    Scene(c, Announced(c), false, Persisted(Announced(c)), 0,
          [Done, AwaitingReady(0, c.key, FromResolve), Enqueueing(0, 1, true), Done])
  }

  lemma CancelIsWritten(c: Setting) returns (es: seq<Event>)
    requires Fitting(c)
    ensures LeadsTo(c, es, WithCanceller(c, Announced(c), Persisted(Announced(c)), 0, Unlisting(0, c.key, ToDone)))
  {
    es := CancelAnnounces(c);
    assert Announced(c).key == c.key;
    var s := WithCanceller(c, Announced(c), Persisted(Slotted(c)), 0, FinishPersist(0, c.key, ToDone));
    hide LeadsTo, Persisted, Announced;
    es := Onwards(c, es, s, 3, WithCanceller(c, Announced(c), Persisted(Announced(c)), 0, Unlisting(0, c.key, ToDone)));
  }

  lemma CancelEnds(c: Setting) returns (es: seq<Event>)
    requires Fitting(c)
    ensures LeadsTo(c, es, CancelledWhileAsking(c))
  {
    es := CancelIsWritten(c);
    var s := WithCanceller(c, Announced(c), Persisted(Announced(c)), 0, Unlisting(0, c.key, ToDone));
    hide LeadsTo, Persisted, Announced;
    es := Onwards(c, es, s, 3, CancelledWhileAsking(c));
  }

  lemma CancelledIsSettled(c: Setting)
    ensures Settled(CancelledWhileAsking(c), c.key)
    ensures var job := CancelledWhileAsking(c).heap[0];
            job.err == Some(CancelledByUser)
            && job.download.state == Cancelled
  {
  }

  // The answer.

  function Reopened(c: Setting): Job {
    Answered(Announced(c), c.retryAttempts, 1, c.answer)
  }

  function AnsweredLate(c: Setting, record: Record, pc: Pc): State {
    Scene(c, Reopened(c), false, record, 0, [Done, AwaitingReady(0, c.key, FromResolve), pc, Done])
  }

  function Afterwards(c: Setting): Pc {
    if c.answer.Accepted? then Enqueued(0, 1, true) else BackingOff(0, 1, true)
  }

  lemma AnswerIsAMove(c: Setting)
    requires Fitting(c)
    ensures var s := CancelledWhileAsking(c);
            CanMove(s, 2, Fine(c)) && Move(s, 2, Fine(c)) == AnsweredLate(c, Persisted(Announced(c)), Afterwards(c))
  {
    assert Announced(c).key == c.key;
    assert AfterAnswer(0, c.key, c.retryAttempts, 1, true, c.answer) == Afterwards(c);
    hide Persisted, Announced, Answered, AfterAnswer, Afterwards;
  }

  lemma AnswerArrives(c: Setting) returns (es: seq<Event>)
    requires Fitting(c)
    ensures LeadsTo(c, es, AnsweredLate(c, Persisted(Announced(c)), Afterwards(c)))
  {
    hide LeadsTo, CanMove, Move, AnsweredLate, CancelledWhileAsking;
    es := CancelEnds(c);
    AnswerIsAMove(c);
    es := Onwards(c, es, CancelledWhileAsking(c), 2, AnsweredLate(c, Persisted(Announced(c)), Afterwards(c)));
  }

  function WrittenDown(c: Setting): State {
    AnsweredLate(c, Persisted(Reopened(c)), if c.answer.Accepted? then Announcing(0) else Sleeping(0, 1, true))
  }

  lemma AcceptanceWrites(c: Setting)
    requires Fitting(c) && c.answer.Accepted?
    ensures var s := AnsweredLate(c, Persisted(Announced(c)), Enqueued(0, 1, true));
            CanMove(s, 2, Fine(c)) && Move(s, 2, Fine(c)) == WrittenDown(c)
  {
    assert Reopened(c).key == c.key;
    hide Persisted, Reopened, Announced;
  }

  lemma BackoffWrites(c: Setting)
    requires Fitting(c) && !c.answer.Accepted?
    ensures var s := AnsweredLate(c, Persisted(Announced(c)), BackingOff(0, 1, true));
            CanMove(s, 2, Fine(c)) && Move(s, 2, Fine(c)) == WrittenDown(c)
  {
    assert Reopened(c).key == c.key;
    hide Persisted, Reopened, Announced;
  }

  lemma AnswerIsWritten(c: Setting) returns (es: seq<Event>)
    requires Fitting(c)
    ensures LeadsTo(c, es, WrittenDown(c))
  {
    hide LeadsTo, CanMove, Move, WrittenDown, AnsweredLate;
    es := AnswerArrives(c);
    if c.answer.Accepted? {
      AcceptanceWrites(c);
    } else {
      BackoffWrites(c);
    }
    es := Onwards(c, es, AnsweredLate(c, Persisted(Announced(c)), Afterwards(c)), 2, WrittenDown(c));
  }

  lemma ReopenedFacts(c: Setting)
    requires Fitting(c)
    ensures var job := Reopened(c);
            && job.key == c.key && job.trackId == c.trackId && job.finished && job.err == Some(CancelledByUser)
            && job.download.state == (if c.answer.Accepted? then Queued else Waiting)
            && job.batchId == (if c.answer.Accepted? then c.answer.batchId else "")
            && job.transferId == (if c.answer.Accepted? then c.answer.transferId else "")
  {
  }

  /** For every key and every answer that reopens a job there is a run that leads to a settled, cancelled download
      which the answer then shows as queued or waiting again, although its job stays finished. */
  lemma LateEnqueueRewritesTheState(c: Setting) returns (es: seq<Event>, s: State)
    requires Fitting(c)
    ensures LeadsTo(c, es, s) && Settled(s, c.key) && On(s, 0) && At(s, 2)
    ensures s.heap[0].key == c.key && s.heap[0].download.state == Cancelled && s.threads[2] == Enqueueing(0, 1, true)
    ensures Enabled(s, Turn(c, 2)) && Disturbs(s, Turn(c, 2), c.key)
    ensures On(Apply(s, Turn(c, 2)), 0)
    ensures var job := Apply(s, Turn(c, 2)).heap[0];
            && job.finished && job.err == Some(CancelledByUser)
            && job.download.state == (if c.answer.Accepted? then Queued else Waiting)
    ensures !Enabled(Apply(s, Turn(c, 2)), Retry(c.key))
  {
    es := CancelEnds(c);
    s := CancelledWhileAsking(c);
    CancelledIsSettled(c);
    ReopenedFacts(c);
    assert Announced(c).key == c.key;
    hide LeadsTo, Settled, Persisted, Announced, Reopened, EnqueueStep;
    assert EffectOf(s, Turn(c, 2)) == Reopens(0);
    ReopenedRowIsNotRetriable(s, Turn(c, 2), 0);
    AnswerMoves(c);
  }

  lemma AnswerMoves(c: Setting)
    requires Fitting(c)
    ensures EnqueueStep(CancelledWhileAsking(c), 2, 0, 1, true, c.answer).heap[0] == Reopened(c)
  {
    hide Announced, Persisted, Answered;
  }

  /** And if the process dies once the record of that state has been written, the next one brings the cancelled
      download back to life, unless the server accepted it without naming a transfer. */
  lemma LateAnswerRevivesTheDownload(c: Setting, w: World) returns (es: seq<Event>, s: State)
    requires Fitting(c) && w.files == c.files && w.order == [c.key] && |w.writes| == 1
    requires w.disk == map[c.key := Persisted(Reopened(c))]
    ensures LeadsTo(c, es, s) && On(s, 0) && s.heap[0].key == c.key && s.heap[0].finished && Happens(s, Crash(w))
    ensures var t := Following(s, Crash(w));
            && c.key in t.records && On(t, t.records[c.key])
            && (!t.heap[t.records[c.key]].finished <==> c.answer.Temporary? || c.answer.transferId != "")
  {
    es := AnswerIsWritten(c);
    s := WrittenDown(c);
    ReopenedFacts(c);
    ReachableInv(c.files, c.limit, c.retryAttempts, es);
    hide Runs, After, Reopened, Restarted, Inv;
    assert s.disk == w.disk;
    CrashRevivesExactly(s, w, c.key);
  }

  // The second run: before the answer arrives the download is started anew.

  /** The cancelled job, and the new one that has the row of the key. */
  function Anew(c: Setting, first: Job, record: Record, pc: Pc, starter: Pc): State {
    State([first, Fresh(c)], map[c.key := 1], map[c.key := 1], map[c.key := 1], 0, 0, c.limit, c.retryAttempts,
          map[c.key := record], c.files, false, true, false,
          [Done, AwaitingReady(0, c.key, FromResolve), pc, Done, starter])
  }

  function Waits(c: Setting): Pc {
    AwaitingReady(0, c.key, FromResolve)
  }

  lemma RetryArrives(c: Setting) returns (es: seq<Event>)
    requires Fitting(c)
    ensures LeadsTo(c, es, Scene(c, Announced(c), false, Persisted(Announced(c)), 0,
                      [Done, Waits(c), Enqueueing(0, 1, true), Done, Ensuring(c.key, c.trackId, c.size, FromRetry)]))
  {
    es := CancelEnds(c);
    AnnouncedFacts(c);
    hide LeadsTo, Persisted, Announced;
    var s, a := CancelledWhileAsking(c), Retry(c.key);
    assert Enabled(s, a);
    Extended(c, es, s, a);
    es := es + [Step(a)];
  }

  lemma AnnouncedFacts(c: Setting)
    ensures var job := Announced(c);
            && job.key == c.key && job.trackId == c.trackId && job.download.totalBytes == c.size && job.finished
            && job.download.state == Cancelled
  {
  }

  lemma NewJobIsWritten(c: Setting) returns (es: seq<Event>)
    requires Fitting(c)
    ensures LeadsTo(c, es, Anew(c, Announced(c), Persisted(Fresh(c)), Enqueueing(0, 1, true),
                                Launching(1, c.key, FromRetry)))
  {
    es := RetryArrives(c);
    assert Fresh(c).key == c.key;
    hide LeadsTo, Persisted, Announced, NewJob;
    var s := Scene(c, Announced(c), false, Persisted(Announced(c)), 0,
                   [Done, Waits(c), Enqueueing(0, 1, true), Done, Ensuring(c.key, c.trackId, c.size, FromRetry)]);
    var created :=
      Anew(c, Announced(c), Persisted(Announced(c)), Enqueueing(0, 1, true), FirstPersist(1, c.key, FromRetry));
    es := Onwards(c, es, s, 4, created);
    es := Onwards(c, es, created, 4,
                  Anew(c, Announced(c), Persisted(Fresh(c)), Enqueueing(0, 1, true), Launching(1, c.key, FromRetry)));
  }

  /** The answer to the cancelled job has arrived; its record is about to be written. */
  function AnsweredAnew(c: Setting): State {
    Anew(c, Reopened(c), Persisted(Fresh(c)), Afterwards(c), Launching(1, c.key, FromRetry))
  }

  lemma OldAnswerIsAMove(c: Setting)
    requires Fitting(c)
    ensures var s := Anew(c, Announced(c), Persisted(Fresh(c)), Enqueueing(0, 1, true), Launching(1, c.key, FromRetry));
            CanMove(s, 2, Fine(c)) && Move(s, 2, Fine(c)) == AnsweredAnew(c)
  {
    assert Announced(c).key == c.key;
    assert AfterAnswer(0, c.key, c.retryAttempts, 1, true, c.answer) == Afterwards(c);
    hide Persisted, Announced, Answered, AfterAnswer, Afterwards, NewJob;
  }

  lemma OldAnswerArrives(c: Setting) returns (es: seq<Event>)
    requires Fitting(c)
    ensures LeadsTo(c, es, AnsweredAnew(c))
  {
    hide LeadsTo, CanMove, Move, Anew, AnsweredAnew;
    es := NewJobIsWritten(c);
    OldAnswerIsAMove(c);
    es :=
      Onwards(c, es, Anew(c, Announced(c), Persisted(Fresh(c)), Enqueueing(0, 1, true), Launching(1, c.key, FromRetry)),
                  2, AnsweredAnew(c));
  }

  function Overwritten(c: Setting): State {
    Anew(c, Reopened(c), Persisted(Reopened(c)), if c.answer.Accepted? then Announcing(0) else Sleeping(0, 1, true),
         Launching(1, c.key, FromRetry))
  }

  lemma OldRecordIsWritten(c: Setting)
    requires Fitting(c)
    ensures var s := AnsweredAnew(c); CanMove(s, 2, Fine(c)) && Move(s, 2, Fine(c)) == Overwritten(c)
  {
    hide Move, CanMove, AnsweredAnew, Overwritten;
    if c.answer.Accepted? {
      OldAcceptanceWrites(c);
    } else {
      OldBackoffWrites(c);
    }
  }

  lemma OldAcceptanceWrites(c: Setting)
    requires Fitting(c) && c.answer.Accepted?
    ensures var s := AnsweredAnew(c); CanMove(s, 2, Fine(c)) && Move(s, 2, Fine(c)) == Overwritten(c)
  {
    ReopenedFacts(c);
    hide Persisted, Reopened, NewJob, Announced;
  }

  lemma OldBackoffWrites(c: Setting)
    requires Fitting(c) && !c.answer.Accepted?
    ensures var s := AnsweredAnew(c); CanMove(s, 2, Fine(c)) && Move(s, 2, Fine(c)) == Overwritten(c)
  {
    ReopenedFacts(c);
    hide Persisted, Reopened, NewJob, Announced;
  }

  lemma RecordsDiffer(c: Setting)
    requires Fitting(c)
    ensures Persisted(Reopened(c)) != Persisted(Fresh(c))
  {
  }

  /** For every key and every answer that reopens a job there is a run in which the cancelled job's record is written
      over that of the new job, which is live and listed. */
  lemma LateAnswerDisplacesTheNewRecord(c: Setting) returns (es: seq<Event>, s: State)
    requires Fitting(c)
    ensures LeadsTo(c, es, s) && On(s, 1) && s.heap[1] == Fresh(c) && !s.heap[1].finished && s.heap[0].finished
    ensures s.jobs == s.records == map[c.key := 1] && s.disk == map[c.key := Persisted(s.heap[1])]
    ensures Enabled(s, Turn(c, 2)) && Displaces(s, Turn(c, 2), c.key)
    ensures var t := Apply(s, Turn(c, 2));
            && t.heap == s.heap && t.records == s.records && t.disk == map[c.key := Persisted(s.heap[0])]
            && Persisted(s.heap[0]) != Persisted(s.heap[1])
  {
    es := OldAnswerArrives(c);
    s := AnsweredAnew(c);
    ReopenedFacts(c);
    OldRecordIsWritten(c);
    RecordsDiffer(c);
    hide LeadsTo, Persisted, Reopened, Move;
  }

  /** And if the process dies then, the row of the key is the cancelled download again: the batch the server accepted
      for it, although the new job had none. */
  lemma CrashReturnsToTheCancelledDownload(c: Setting, w: World) returns (es: seq<Event>, s: State)
    requires Fitting(c) && w.order == [c.key] && |w.writes| == 1 && w.disk == map[c.key := Persisted(Reopened(c))]
    ensures LeadsTo(c, es, s) && On(s, 1) && s.records == map[c.key := 1] && !s.heap[1].finished
            && s.heap[1].batchId == ""
    ensures Happens(s, Crash(w))
    ensures var t := Following(s, Crash(w));
            && c.key in t.records && On(t, t.records[c.key])
            && t.heap[t.records[c.key]] == Restored(Persisted(s.heap[0]), w.files)
            && t.heap[t.records[c.key]].batchId == if c.answer.Accepted? then c.answer.batchId else ""
  {
    hide LeadsTo, Move, CanMove, Restarted, Inv, AnsweredAnew, Reopened, Runs, After;
    es := OldAnswerArrives(c);
    OldRecordIsWritten(c);
    es := Onwards(c, es, AnsweredAnew(c), 2, Overwritten(c));
    s := Overwritten(c);
    ReopenedFacts(c);
    OverwrittenIsReached(c, es);
    CrashRestoresTheLastWritten(s, w, c.key);
    RestoredKeepsBatch(Persisted(Reopened(c)), w.files);
  }

  lemma OverwrittenIsReached(c: Setting, es: seq<Event>)
    requires LeadsTo(c, es, Overwritten(c))
    ensures Inv(Overwritten(c))
  {
    hide Inv, Overwritten, Restarted, Runs, After;
    ReachableInv(c.files, c.limit, c.retryAttempts, es);
  }

  lemma RestoredKeepsBatch(record: Record, files: map<Path, nat>)
    ensures Restored(record, files).batchId == record.batchId
  {
  }
}
