/** The transcode cache over whole runs. */
module TranscodeSafety {
  import opened Common
  import opened Counting
  import opened TranscodeMachine

  lemma OwnersAreCounted(s: State, i: nat, key: string)
    requires Conserved(s) && At(s, i) && Owns(s.threads[i], key) == 1
    ensures key in s.table
    ensures forall k :: 0 <= k < |s.threads| && k != i ==> Owns(s.threads[k], key) == 0
  {
    TotalAtLeast(s.threads, Owns, key, i, i);
    forall k | 0 <= k < |s.threads| && k != i ensures Owns(s.threads[k], key) == 0 {
      TotalAtLeast(s.threads, Owns, key, i, k);
    }
  }

  lemma ConservedByMove(s: State, t: State, i: nat, pc: Pc)
    requires Conserved(s) && At(s, i) && t.threads == s.threads[i := pc]
    requires forall key ::
               (if key in t.table then 1 else 0) - (if key in s.table then 1 else 0)
               == Owns(pc, key) - Owns(s.threads[i], key)
    ensures Conserved(t)
  {
    forall key: string ensures (if key in t.table then 1 else 0) == Total(t.threads, Owns, key) {
      TotalUpdate(s.threads, Owns, key, i, pc);
      assert (if key in s.table then 1 else 0) == Total(s.threads, Owns, key);
    }
  }

  /** A thread moves on and keeps its flight, and nothing another thread relies on changes. */
  lemma MoveKeepsInv(s: State, t: State, i: nat, pc: Pc)
    requires Inv(s) && At(s, i)
    requires t.threads == s.threads[i := pc] && t.table == s.table && t.flights == s.flights && s.finished <= t.finished
    requires forall key :: Owns(pc, key) == Owns(s.threads[i], key)
    requires ThreadSound(t, pc)
    requires BlobsSound(t.blobs, t.finished)
    ensures Inv(t)
  {
    ConservedByMove(s, t, i, pc);
    hide Conserved;
    forall k | 0 <= k < |t.threads| ensures ThreadSound(t, t.threads[k]) {
      if k != i {
        assert ThreadSound(s, s.threads[k]);
      }
    }
  }

  lemma CallKeepsInv(s: State, key: string)
    requires Inv(s)
    ensures Inv(s.(threads := s.threads + [Arriving(key)]))
  {
    var t := s.(threads := s.threads + [Arriving(key)]);
    forall k: string ensures (if k in t.table then 1 else 0) == Total(t.threads, Owns, k) {
      TotalAppend(s.threads, Owns, k, Arriving(key));
      assert (if k in s.table then 1 else 0) == Total(s.threads, Owns, k);
    }
    hide Conserved;
    forall k | 0 <= k < |t.threads| ensures ThreadSound(t, t.threads[k]) {
      if k < |s.threads| {
        assert ThreadSound(s, s.threads[k]);
      }
    }
  }

  lemma JoinKeepsInv(s: State, i: nat, key: string)
    requires Inv(s) && At(s, i) && s.threads[i] == Arriving(key)
    ensures Inv(Joined(s, i, key))
  {
    if key in s.table {
      MoveKeepsInv(s, Joined(s, i, key), i, Waiting(key, s.table[key]));
    } else {
      NewFlightKeepsInv(s, i, key);
    }
  }

  lemma NewFlightKeepsInv(s: State, i: nat, key: string)
    requires Inv(s) && At(s, i) && s.threads[i] == Arriving(key) && key !in s.table
    ensures Inv(Joined(s, i, key))
  {
    var t := Joined(s, i, key);
    ConservedByMove(s, t, i, Starting(key, |s.flights|));
    hide Conserved;
    assert TablesSound(t);
    hide TablesSound, BlobsSound;
    forall k | 0 <= k < |t.threads| ensures ThreadSound(t, t.threads[k]) {
      if k != i {
        assert ThreadSound(s, s.threads[k]);
      }
    }
  }

  /** An owner finishes its flight: it finds it under its key, and nobody else owned it. */
  lemma FinishKeepsInv(s: State, i: nat, err: Option<Trouble>, pc: Pc)
    requires Inv(s) && At(s, i) && OwnsFlight(s.threads[i])
    requires pc == Ended || (pc.Draining? && (pc.live ==> pc.put == Failed))
    ensures Inv(Moved(FlightFinished(s, s.threads[i].key, err), i, pc))
  {
    var key, f := s.threads[i].key, s.threads[i].flight;
    assert ThreadSound(s, s.threads[i]);
    OwnersAreCounted(s, i, key);
    var t := Moved(FlightFinished(s, key, err), i, pc);
    ConservedByMove(s, t, i, pc);
    hide Conserved;
    FinishedTables(s, key, err, i, pc);
    hide TablesSound;
    forall k | 0 <= k < |t.threads| ensures ThreadSound(t, t.threads[k]) {
      if k != i {
        assert ThreadSound(s, s.threads[k]);
        assert Owns(s.threads[k], key) == 0;
      }
    }
  }

  lemma FinishedTables(s: State, key: string, err: Option<Trouble>, i: nat, pc: Pc)
    requires TablesSound(s) && key in s.table && At(s, i)
    ensures TablesSound(Moved(FlightFinished(s, key, err), i, pc))
  {
    hide BlobsSound;
  }

  lemma ReadKeepsInv(s: State, i: nat, chunk: Bytes, end: End)
    requires Inv(s) && Enabled(s, Read(i, chunk, end))
    ensures Inv(Apply(s, Read(i, chunk, end)))
  {
    var t := Apply(s, Read(i, chunk, end));
    assert ThreadSound(s, s.threads[i]);
    MoveKeepsInv(s, t, i, t.threads[i]);
  }

  lemma PutKeepsInv(s: State, a: Action)
    requires Inv(s) && Enabled(s, a) && (a.PutFails? || a.Commit? || a.Conclude?)
    ensures Inv(Apply(s, a))
  {
    var t := Apply(s, a);
    assert ThreadSound(s, s.threads[a.i]);
    MoveKeepsInv(s, t, a.i, t.threads[a.i]);
  }

  lemma StepKeepsInv(s: State, a: Action)
    requires Inv(s) && Enabled(s, a)
    ensures Inv(Apply(s, a))
  {
    hide Inv, FlightFinished, Joined, ReadStep, DrainStep, CommitStep, ConcludeStep;
    match a
    case Call(key) => CallKeepsInv(s, key);
    case Join(i) => JoinKeepsInv(s, i, s.threads[i].key);
    case Wake(i) => LeaveKeepsInv(s, i);
    case GiveUp(i) => LeaveKeepsInv(s, i);
    case Start(i, ok) => StartKeepsInv(s, i, ok);
    case Read(i, chunk, end) => ReadKeepsInv(s, i, chunk, end);
    case Close(i) => CloseKeepsInv(s, i);
    case PutFails(_) => PutKeepsInv(s, a);
    case Commit(_) => PutKeepsInv(s, a);
    case Conclude(_, _, _) => PutKeepsInv(s, a);
    case Finish(i) => FinishStepKeepsInv(s, i);
    case Drop(key) => DropKeepsInv(s, key);
  }

  lemma LeaveKeepsInv(s: State, i: nat)
    requires Inv(s) && At(s, i) && (s.threads[i].Waiting? || s.threads[i].Draining?)
    ensures Inv(Moved(s, i, Ended))
  {
    MoveKeepsInv(s, Moved(s, i, Ended), i, Ended);
  }

  lemma StartKeepsInv(s: State, i: nat, ok: bool)
    requires Inv(s) && At(s, i) && s.threads[i].Starting?
    ensures Inv(Apply(s, Start(i, ok)))
  {
    var pc := s.threads[i];
    assert ThreadSound(s, pc);
    if ok {
      MoveKeepsInv(s, Apply(s, Start(i, ok)), i, Streaming(pc.key, pc.flight, [], [], Filling));
    } else {
      FinishKeepsInv(s, i, Some(StartFailed), Ended);
    }
  }

  lemma CloseKeepsInv(s: State, i: nat)
    requires Inv(s) && Enabled(s, Close(i))
    ensures Inv(Apply(s, Close(i)))
  {
    assert ThreadSound(s, s.threads[i]);
    MoveKeepsInv(s, Apply(s, Close(i)), i, Apply(s, Close(i)).threads[i]);
  }

  lemma FinishStepKeepsInv(s: State, i: nat)
    requires Inv(s) && Enabled(s, Finish(i))
    ensures Inv(Apply(s, Finish(i)))
  {
    var pc := s.threads[i];
    assert ThreadSound(s, pc);
    var err := if pc.trouble.Some? then pc.trouble else if pc.put == Failed then Some(CacheFailed) else None;
    FinishKeepsInv(s, i, err, Draining(pc.key, pc.got, pc.live, pc.put));
  }

  lemma DropKeepsInv(s: State, key: string)
    requires Inv(s)
    ensures Inv(s.(blobs := s.blobs - {key}))
  {
    var t := s.(blobs := s.blobs - {key});
    assert Conserved(t);
    hide Conserved;
    forall k | 0 <= k < |t.threads| ensures ThreadSound(t, t.threads[k]) {
      assert ThreadSound(s, s.threads[k]);
    }
  }

  // Runs.

  const IDLE := State([], map[], map[], {}, [])

  ghost predicate Runs(s: State, actions: seq<Action>)
    decreases |actions|
  {
    actions == [] || (Enabled(s, actions[0]) && Runs(Apply(s, actions[0]), actions[1..]))
  }

  ghost function After(s: State, actions: seq<Action>): State
    requires Runs(s, actions)
    decreases |actions|
  {
    if actions == [] then s else After(Apply(s, actions[0]), actions[1..])
  }

  lemma {:induction false} RunKeepsInv(s: State, actions: seq<Action>)
    requires Inv(s) && Runs(s, actions)
    ensures Inv(After(s, actions))
    decreases |actions|
  {
    hide Inv, Enabled, Apply;
    if actions != [] {
      StepKeepsInv(s, actions[0]);
      RunKeepsInv(Apply(s, actions[0]), actions[1..]);
    }
  }

  lemma ReachableInv(actions: seq<Action>)
    requires Runs(IDLE, actions)
    ensures Inv(After(IDLE, actions))
  {
    assert Inv(IDLE);
    hide Inv;
    RunKeepsInv(IDLE, actions);
  }

  // What it means.

  /** A flight is in the table exactly while one starting caller or one unfinalised reader owns it. */
  lemma OneOwnerPerFlight(s: State, i: nat, k: nat)
    requires Inv(s) && At(s, i) && At(s, k)
    requires OwnsFlight(s.threads[i]) && OwnsFlight(s.threads[k]) && s.threads[i].key == s.threads[k].key
    ensures i == k
  {
    hide TablesSound, ThreadSound;
    OwnersAreCounted(s, i, s.threads[i].key);
  }

  lemma ListedFlightHasAnOwner(s: State, key: string) returns (i: nat)
    requires Inv(s) && key in s.table
    ensures At(s, i) && OwnsFlight(s.threads[i]) && s.threads[i].key == key && s.threads[i].flight == s.table[key]
  {
    i := TotalOwner(s.threads, Owns, key);
    assert ThreadSound(s, s.threads[i]);
  }

  /** `finishFlight` looks the flight up by key and always finds the one its caller started, not yet finished. */
  lemma FinishFindsItsOwnFlight(s: State, i: nat)
    requires Inv(s) && At(s, i) && OwnsFlight(s.threads[i])
    ensures var pc := s.threads[i];
            && pc.key in s.table && s.table[pc.key] == pc.flight && pc.flight < |s.flights|
            && s.flights[pc.flight].closes == 0
            && forall err :: FlightFinished(s, pc.key, err).flights[pc.flight] == Flight(pc.key, 1, err)
  {
    assert ThreadSound(s, s.threads[i]);
  }

  /** A cached entry is never a truncated stream, whatever the chunking, read errors, early closes or cache failures:
      it is everything some run of the transcoder produced for that key. */
  lemma CachedIsComplete(actions: seq<Action>, key: string)
    requires Runs(IDLE, actions) && key in After(IDLE, actions).blobs
    ensures (key, After(IDLE, actions).blobs[key]) in After(IDLE, actions).finished
  {
    ReachableInv(actions);
  }

  predicate Live(pc: Pc) {
    pc.Starting? || pc.Streaming? || ((pc.Closing? || pc.Draining?) && pc.live)
  }

  /** A run that may still produce bytes owns its key's flight, unless storing has failed under it. */
  lemma LiveRunsOwnTheirFlight(s: State, i: nat)
    requires Inv(s) && At(s, i) && Live(s.threads[i])
    ensures OwnsFlight(s.threads[i]) || s.threads[i].put == Failed
  {
    assert ThreadSound(s, s.threads[i]);
  }

  /** As long as storing has not failed for either of them, two runs for one key are never live together. */
  lemma OneLiveRunPerKey(s: State, i: nat, k: nat)
    requires Inv(s) && At(s, i) && At(s, k) && Live(s.threads[i]) && Live(s.threads[k])
    requires s.threads[i].key == s.threads[k].key
    requires (s.threads[i].Draining? ==> s.threads[i].put != Failed)
             && (s.threads[k].Draining? ==> s.threads[k].put != Failed)
    ensures i == k
  {
    assert ThreadSound(s, s.threads[i]) && ThreadSound(s, s.threads[k]);
    OwnersAreCounted(s, i, s.threads[i].key);
  }

  predicate LiveOn(s: State, i: nat, key: string) {
    At(s, i) && Live(s.threads[i]) && s.threads[i].key == key
  }

  ghost predicate AtMostOneRun(s: State, key: string) {
    forall i: nat, k: nat :: LiveOn(s, i, key) && LiveOn(s, k, key) ==> i == k
  }

  /** A caller finds no flight for the key and starts one. */
  predicate StartsRun(s: State, a: Action, key: string)
    requires Enabled(s, a)
  {
    a.Join? && s.threads[a.i].key == key && key !in s.table
  }

  lemma LiveRunsAreOldOrStarted(s: State, a: Action, k: nat, key: string)
    requires Enabled(s, a) && LiveOn(Apply(s, a), k, key) && !(a.Join? && a.i == k)
    ensures LiveOn(s, k, key)
  {
    match a
    case Call(_) =>
    case Join(_) =>
    case Start(_, ok) =>
      if ok {
      }
    case Read(i, _, end) =>
      if s.threads[i].Streaming? {
        match end case More => case Eof => case Broken =>
      }
    case Conclude(_, _, dropped) =>
      if dropped {
      }
    case _ =>
  }

  lemma JoinIsLiveExactlyWhenItStarts(s: State, i: nat, key: string)
    requires Enabled(s, Join(i))
    ensures LiveOn(Apply(s, Join(i)), i, key) <==> StartsRun(s, Join(i), key)
    ensures forall k: nat :: k != i && LiveOn(s, k, key) ==> LiveOn(Apply(s, Join(i)), k, key)
  {
  }

  /** A run that is live while its key has no flight has lost it to a failed store. */
  lemma LiveWithoutFlightHasFailed(s: State, i: nat, key: string)
    requires Inv(s) && LiveOn(s, i, key) && key !in s.table
    ensures s.threads[i].Draining? && s.threads[i].put == Failed
  {
    assert ThreadSound(s, s.threads[i]);
  }

  /** Exactly these steps make a second live run for a key: a caller arrives while a run is live whose flight is
      gone. That run is one under which storing has failed. */
  lemma SecondRunStartsExactlyWhen(s: State, a: Action, key: string)
    requires Inv(s) && Enabled(s, a) && AtMostOneRun(s, key)
    ensures !AtMostOneRun(Apply(s, a), key) <==> StartsRun(s, a, key) && exists i: nat :: LiveOn(s, i, key)
    ensures forall i: nat :: LiveOn(s, i, key) && key !in s.table ==>
              s.threads[i].Draining? && s.threads[i].put == Failed
  {
    forall i: nat | LiveOn(s, i, key) && key !in s.table ensures s.threads[i].Draining? && s.threads[i].put == Failed {
      LiveWithoutFlightHasFailed(s, i, key);
    }
    hide Inv, Apply, LiveOn;
    if StartsRun(s, a, key) && exists i: nat :: LiveOn(s, i, key) {
      var i: nat :| LiveOn(s, i, key);
      StartMakesTwo(s, a.i, i, key);
    } else {
      forall i: nat, k: nat | LiveOn(Apply(s, a), i, key) && LiveOn(Apply(s, a), k, key) ensures i == k {
        OnlyOneRemains(s, a, i, k, key);
      }
    }
  }

  lemma StartMakesTwo(s: State, c: nat, i: nat, key: string)
    requires Enabled(s, Join(c)) && StartsRun(s, Join(c), key) && LiveOn(s, i, key)
    ensures !AtMostOneRun(Apply(s, Join(c)), key)
  {
    assert i != c;
    hide Apply;
    JoinIsLiveExactlyWhenItStarts(s, c, key);
    assert LiveOn(Apply(s, Join(c)), c, key) && LiveOn(Apply(s, Join(c)), i, key);
  }

  lemma OnlyOneRemains(s: State, a: Action, i: nat, k: nat, key: string)
    requires Enabled(s, a) && AtMostOneRun(s, key) && LiveOn(Apply(s, a), i, key) && LiveOn(Apply(s, a), k, key)
    requires !(StartsRun(s, a, key) && exists l: nat :: LiveOn(s, l, key))
    ensures i == k
  {
    hide Apply, LiveOn;
    if a.Join? && (a.i == i || a.i == k) {
      JoinIsLiveExactlyWhenItStarts(s, a.i, key);
    }
    if !(a.Join? && a.i == i) {
      LiveRunsAreOldOrStarted(s, a, i, key);
    }
    if !(a.Join? && a.i == k) {
      LiveRunsAreOldOrStarted(s, a, k, key);
    }
  }

  ghost predicate OneRunThroughout(s: State, actions: seq<Action>, key: string)
    requires Runs(s, actions)
    decreases |actions|
  {
    AtMostOneRun(s, key) && (actions == [] || OneRunThroughout(Apply(s, actions[0]), actions[1..], key))
  }

  /** No caller starts a run for the key while one is live. */
  ghost predicate NoSecondStart(s: State, actions: seq<Action>, key: string)
    requires Runs(s, actions)
    decreases |actions|
  {
    actions == [] || (!(StartsRun(s, actions[0], key) && exists i: nat :: LiveOn(s, i, key))
                      && NoSecondStart(Apply(s, actions[0]), actions[1..], key))
  }

  /** So over a whole run there is never more than one live run for the key exactly if no such caller arrives. */
  lemma {:induction false} OneRunThroughoutExactly(s: State, actions: seq<Action>, key: string)
    requires Inv(s) && Runs(s, actions) && AtMostOneRun(s, key)
    ensures OneRunThroughout(s, actions, key) <==> NoSecondStart(s, actions, key)
    decreases |actions|
  {
    if actions != [] {
      hide Inv, Enabled, Apply, AtMostOneRun, StartsRun, LiveOn;
      SecondRunStartsExactlyWhen(s, actions[0], key);
      StepKeepsInv(s, actions[0]);
      if AtMostOneRun(Apply(s, actions[0]), key) {
        OneRunThroughoutExactly(Apply(s, actions[0]), actions[1..], key);
      }
    }
  }

  /** When storing fails the reader gives its flight up but streams on, so the next caller starts a second run. */
  lemma TwoLiveRunsAfterACacheFailure()
    ensures exists actions, i: nat, k: nat :: Runs(IDLE, actions) && var s := After(IDLE, actions);
              At(s, i) && At(s, k) && i != k && Live(s.threads[i]) && Live(s.threads[k])
              && s.threads[i].key == s.threads[k].key
  {
    var key: string := ['k'];
    var byte: Byte := 0;
    var streams := [Call(key), Join(0), Start(0, true)];
    var fails := [PutFails(0), Read(0, [byte], More), Finish(0)];
    var again := [Call(key), Join(1)];
    OneStreams(key);
    StoringFails(key, byte);
    RunsJoin(IDLE, streams, fails);
    AnotherStarts(After(IDLE, streams + fails), key);
    RunsJoin(IDLE, streams + fails, again);
    var s := After(IDLE, streams + fails + again);
    assert At(s, 0) && At(s, 1) && Live(s.threads[0]) && Live(s.threads[1]) && s.threads[0].key == s.threads[1].key;
  }

  lemma OneStreams(key: string)
    ensures var actions := [Call(key), Join(0), Start(0, true)];
            && Runs(IDLE, actions)
            && After(IDLE, actions)
               == State([Flight(key, 0, None)], map[key := 0], map[], {}, [Streaming(key, 0, [], [], Filling)])
  {
    var s1 := Apply(IDLE, Call(key));
    var s2 := Apply(s1, Join(0));
    RunOf([Start(0, true)], s2);
    Extend(Join(0), [Start(0, true)], s1);
    Extend(Call(key), [Join(0), Start(0, true)], IDLE);
    assert [Call(key)] + [Join(0), Start(0, true)] == [Call(key), Join(0), Start(0, true)];
  }

  function OneFlight(key: string, pc: Pc): State {
    State([Flight(key, 0, None)], map[key := 0], map[], {}, [pc])
  }

  lemma StoreGivesUp(key: string)
    ensures var s := OneFlight(key, Streaming(key, 0, [], [], Filling));
            Enabled(s, PutFails(0)) && Apply(s, PutFails(0)) == OneFlight(key, Streaming(key, 0, [], [], Failed))
  {
  }

  lemma ReaderNotices(key: string, byte: Byte)
    ensures var s, a := OneFlight(key, Streaming(key, 0, [], [], Failed)), Read(0, [byte], More);
            Enabled(s, a) && Apply(s, a) == OneFlight(key, Closing(key, 0, [byte], [], Failed, Some(CacheFailed), true))
  {
    var nothing: Bytes := [];
    assert nothing + [byte] == [byte];
  }

  lemma ReaderFinishes(key: string, byte: Byte)
    ensures var s := OneFlight(key, Closing(key, 0, [byte], [], Failed, Some(CacheFailed), true));
            && Enabled(s, Finish(0))
            && Apply(s, Finish(0))
               == State([Flight(key, 1, Some(CacheFailed))], map[], map[], {}, [Draining(key, [byte], true, Failed)])
  {
    var s := OneFlight(key, Closing(key, 0, [byte], [], Failed, Some(CacheFailed), true));
    assert s.table - {key} == map[];
  }

  lemma StoringFails(key: string, byte: Byte)
    ensures var s := State([Flight(key, 0, None)], map[key := 0], map[], {}, [Streaming(key, 0, [], [], Filling)]);
            var actions := [PutFails(0), Read(0, [byte], More), Finish(0)];
            && Runs(s, actions)
            && After(s, actions)
               == State([Flight(key, 1, Some(CacheFailed))], map[], map[], {}, [Draining(key, [byte], true, Failed)])
  {
    var s := State([Flight(key, 0, None)], map[key := 0], map[], {}, [Streaming(key, 0, [], [], Filling)]);
    StoreGivesUp(key);
    ReaderNotices(key, byte);
    ReaderFinishes(key, byte);
    var s1 := s.(threads := [Streaming(key, 0, [], [], Failed)]);
    var s2 := s.(threads := [Closing(key, 0, [byte], [], Failed, Some(CacheFailed), true)]);
    hide Apply, Enabled;
    RunOf([Finish(0)], s2);
    Extend(Read(0, [byte], More), [Finish(0)], s1);
    Extend(PutFails(0), [Read(0, [byte], More), Finish(0)], s);
    assert [Read(0, [byte], More)] + [Finish(0)] == [Read(0, [byte], More), Finish(0)];
    assert [PutFails(0)] + [Read(0, [byte], More), Finish(0)] == [PutFails(0), Read(0, [byte], More), Finish(0)];
  }

  lemma AnotherStarts(s: State, key: string)
    requires s.table == map[] && |s.flights| == 1 && |s.threads| == 1
    ensures var actions := [Call(key), Join(1)];
            Runs(s, actions) && After(s, actions).threads == s.threads + [Starting(key, 1)]
  {
    var s1 := Apply(s, Call(key));
    assert Apply(s1, Join(1)).threads == s.threads + [Starting(key, 1)];
    RunOf([Join(1)], s1);
    Extend(Call(key), [Join(1)], s);
    assert [Call(key)] + [Join(1)] == [Call(key), Join(1)];
  }

  lemma {:induction false} RunsJoin(s: State, first: seq<Action>, second: seq<Action>)
    requires Runs(s, first) && Runs(After(s, first), second)
    ensures Runs(s, first + second) && After(s, first + second) == After(After(s, first), second)
    decreases |first|
  {
    if first == [] {
      assert first + second == second;
    } else {
      assert (first + second)[1..] == first[1..] + second;
      RunsJoin(Apply(s, first[0]), first[1..], second);
    }
  }

  lemma RunOf(actions: seq<Action>, s: State)
    requires |actions| == 1 && Enabled(s, actions[0])
    ensures Runs(s, actions) && After(s, actions) == Apply(s, actions[0])
  {
    assert actions[1..] == [];
  }

  lemma Extend(a: Action, rest: seq<Action>, s: State)
    requires Enabled(s, a) && Runs(Apply(s, a), rest)
    ensures Runs(s, [a] + rest) && After(s, [a] + rest) == After(Apply(s, a), rest)
  {
    assert ([a] + rest)[1..] == rest;
  }
}
