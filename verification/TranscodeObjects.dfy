/** The transcode cache's objects: the flight table and the tee reader, updated in place. */
module TranscodeObjects {
  import opened Common
  import opened Counting
  import opened TranscodeMachine
  import opened TranscodeSafety

  class CachedAudioTranscoder {
    var flights: seq<Flight>
    var table: map<string, nat>

    /** The machine state that differs from `s` only in what this object keeps. */
    ghost function In(s: State): State
      reads this
    {
      s.(flights := flights, table := table)
    }

    /** The locked section of `Transcode`. */
    method Join(key: string) returns (flight: nat, started: bool)
      modifies this
      ensures started == (key !in old(table))
      ensures forall s, i: nat :: At(s, i) ==>
                var on := Joined(old(In(s)), i, key);
                (on.flights, on.table) == (flights, table)
                && on.threads[i] == if started then Starting(key, flight) else Waiting(key, flight)
    {
      if key in table {
        return table[key], false;
      }
      flight := |flights|;
      flights := flights + [Flight(key, 0, None)];
      table := table[key := flight];
      started := true;
    }

    method FinishFlight(key: string, err: Option<Trouble>)
      requires key in table ==> table[key] < |flights|
      modifies this
      ensures forall s :: In(s) == FlightFinished(old(In(s)), key, err)
    {
      if key !in table {
        return;
      }
      var f := table[key];
      flights := flights[f := flights[f].(err := err)];
      table := table - {key};
      flights := flights[f := flights[f].(closes := flights[f].closes + 1)];
    }
  }

  /** How `Put` ends: the blob is there; the pipe broke or the blob was never renamed; or it was, but its metadata
      could not be kept, and the blob may have been deleted again. */
  datatype Store = Stored | NotCommitted | NotRecorded(dropped: bool)

  /** What the pipe and the store do during one read: whether the pipe takes the chunk, and how `Put` ends if the read
      finalises the reader. */
  datatype Answer = Answer(accepted: bool, store: Store)

  function StoreError(store: Store): Option<Trouble> {
    if store.Stored? then None else Some(CacheFailed)
  }

  predicate Refused(chunk: Bytes, answer: Answer) {
    chunk != [] && !answer.accepted
  }

  /** A store that has failed stays failed, and nothing is renamed when the pipe is closed with an error. */
  predicate MayAnswer(put: Put, chunk: Bytes, end: End, answer: Answer) {
    && (put == Filling || (put == Failed && (chunk != [] ==> !answer.accepted) && answer.store == NotCommitted))
    && (Refused(chunk, answer) || end != Eof ==> answer.store == NotCommitted)
  }

  // The machine's actions during one call.

  function FinalActions(i: nat, put: Put, store: Store): seq<Action> {
    (match store
     case Stored => [Action.Commit(i), Action.Conclude(i, true, false)]
     case NotCommitted => if put == Filling then [Action.PutFails(i)] else []
     case NotRecorded(dropped) => [Action.Commit(i), Action.Conclude(i, false, dropped)])
    + [Action.Finish(i)]
  }

  function ReadActions(i: nat, pc: Pc, chunk: Bytes, end: End, answer: Answer): seq<Action> {
    match pc
    case Streaming(_, _, _, _, put) =>
      if Refused(chunk, answer) then
        (if put == Filling then [Action.PutFails(i)] else []) + [Action.Read(i, chunk, end), Action.Finish(i)]
      else if end == More then [Action.Read(i, chunk, end)]
      else [Action.Read(i, chunk, end)] + FinalActions(i, put, answer.store)
    case Draining(_, _, live, _) => if live then [Action.Read(i, chunk, end)] else []
    case _ => []
  }

  function CloseActions(i: nat, pc: Pc): seq<Action> {
    match pc
    case Streaming(_, _, _, _, put) => [Action.Close(i)] + FinalActions(i, put, NotCommitted)
    case Draining(_, _, _, _) => [Action.Close(i)]
    case _ => []
  }

  /** `t` has the tables of `u` and goroutine `i` at a finalised reader. */
  ghost predicate Drains(t: State, u: State, i: nat, key: string, got: Bytes, live: bool) {
    && At(t, i) && t.flights == u.flights && t.table == u.table
    && t.threads[i].Draining? && t.threads[i].key == key && t.threads[i].got == got && t.threads[i].live == live
  }

  // Single actions, over the tables of `base`.

  lemma PutFailsApplies(s: State, i: nat)
    requires At(s, i) && (s.threads[i].Streaming? || s.threads[i].Closing?) && s.threads[i].put == Filling
    ensures Enabled(s, Action.PutFails(i))
            && Apply(s, Action.PutFails(i)) == Moved(s, i, WithPut(s.threads[i], Put.Failed))
  {
  }

  lemma FinishApplies(base: State, s: State, i: nat)
    requires At(s, i) && s.threads[i].Closing? && (s.threads[i].put == Succeeded || s.threads[i].put == Failed)
    requires base.flights == s.flights && base.table == s.table
    ensures var pc := s.threads[i];
            var err := if pc.trouble.Some? then pc.trouble else if pc.put == Failed then Some(CacheFailed) else None;
            && Runs(s, [Action.Finish(i)])
            && Drains(After(s, [Action.Finish(i)]), FlightFinished(base, pc.key, err), i, pc.key, pc.got, pc.live)
  {
    hide Runs, After;
    RunOf([Action.Finish(i)], s);
  }

  lemma CommitApplies(s: State, i: nat)
    requires At(s, i) && s.threads[i].Closing? && s.threads[i].put == Filling && s.threads[i].trouble.None?
    ensures Enabled(s, Action.Commit(i))
    ensures var t := Apply(s, Action.Commit(i));
            At(t, i) && t.flights == s.flights && t.table == s.table && t.threads[i] == WithPut(s.threads[i], Renamed)
  {
  }

  lemma ConcludeApplies(s: State, i: nat, ok: bool, dropped: bool)
    requires At(s, i) && s.threads[i].Closing? && s.threads[i].put == Renamed && (ok ==> !dropped)
    ensures Enabled(s, Action.Conclude(i, ok, dropped))
    ensures var t := Apply(s, Action.Conclude(i, ok, dropped));
            && At(t, i) && t.flights == s.flights && t.table == s.table
            && t.threads[i] == WithPut(s.threads[i], if ok then Succeeded else Failed)
  {
  }

  lemma ReadApplies(s: State, i: nat, chunk: Bytes, end: End)
    requires At(s, i) && s.threads[i].Streaming?
    ensures Enabled(s, Action.Read(i, chunk, end))
    ensures var pc, t := s.threads[i], Apply(s, Action.Read(i, chunk, end));
            && At(t, i) && t.flights == s.flights && t.table == s.table
            && t.threads[i] ==
               if chunk != [] && pc.put == Failed then
                 Closing(pc.key, pc.flight, pc.got + chunk, pc.stored, pc.put, Some(CacheFailed), end == More)
               else if end == More then Streaming(pc.key, pc.flight, pc.got + chunk, pc.stored + chunk, pc.put)
               else Closing(pc.key, pc.flight, pc.got + chunk, pc.stored + chunk, pc.put,
                            if end == Eof then None else Some(StreamBroken), false)
  {
    match end case More => case Eof => case Broken =>
  }

  // From the closed pipe to the finished flight.

  lemma GivenUpActionsRun(base: State, s: State, i: nat)
    requires At(s, i) && s.threads[i].Closing? && (s.threads[i].put == Filling || s.threads[i].put == Failed)
    requires base.flights == s.flights && base.table == s.table
    ensures var pc, actions := s.threads[i], FinalActions(i, s.threads[i].put, NotCommitted);
            var err := if pc.trouble.Some? then pc.trouble else Some(CacheFailed);
            && Runs(s, actions)
            && Drains(After(s, actions), FlightFinished(base, pc.key, err), i, pc.key, pc.got, pc.live)
  {
    hide Runs, After, Apply, Enabled, FlightFinished;
    if s.threads[i].put == Filling {
      PutFailsApplies(s, i);
      FinishApplies(base, Apply(s, Action.PutFails(i)), i);
      Extend(Action.PutFails(i), [Action.Finish(i)], s);
    } else {
      assert FinalActions(i, s.threads[i].put, NotCommitted) == [Action.Finish(i)];
      FinishApplies(base, s, i);
    }
  }

  lemma CommittedActionsRun(base: State, s: State, i: nat, ok: bool, dropped: bool)
    requires At(s, i) && s.threads[i].Closing? && s.threads[i].put == Filling && s.threads[i].trouble.None?
             && (ok ==> !dropped)
    requires base.flights == s.flights && base.table == s.table
    ensures var pc, actions := s.threads[i], [Action.Commit(i), Action.Conclude(i, ok, dropped)] + [Action.Finish(i)];
            && Runs(s, actions)
            && Drains(After(s, actions), FlightFinished(base, pc.key, if ok then None else Some(CacheFailed)),
                      i, pc.key, pc.got, pc.live)
  {
    hide Runs, After, Apply, Enabled, FlightFinished;
    var commit, conclude, finish := Action.Commit(i), Action.Conclude(i, ok, dropped), Action.Finish(i);
    CommitApplies(s, i);
    var t := Apply(s, commit);
    ConcludeApplies(t, i, ok, dropped);
    var u := Apply(t, conclude);
    FinishApplies(base, u, i);
    Extend(conclude, [finish], t);
    Extend(commit, [conclude] + [finish], s);
    assert [commit, conclude] + [finish] == [commit] + ([conclude] + [finish]);
  }

  lemma FinalActionsRun(base: State, s: State, i: nat, store: Store)
    requires At(s, i) && s.threads[i].Closing? && MayAnswer(s.threads[i].put, [], Eof, Answer(true, store))
    requires s.threads[i].trouble.Some? ==> store == NotCommitted
    requires base.flights == s.flights && base.table == s.table
    ensures var pc, actions := s.threads[i], FinalActions(i, s.threads[i].put, store);
            && Runs(s, actions)
            && Drains(After(s, actions), FlightFinished(base, pc.key,
                                                        if pc.trouble.Some? then pc.trouble else StoreError(store)),
                      i, pc.key, pc.got, pc.live)
  {
    hide Runs, After, Drains, FlightFinished;
    match store
    case NotCommitted => GivenUpActionsRun(base, s, i);
    case Stored => CommittedActionsRun(base, s, i, true, false);
    case NotRecorded(dropped) => CommittedActionsRun(base, s, i, false, dropped);
  }

  // What a streaming goroutine has done after the actions of one call.

  lemma RefusedReads(s: State, i: nat, chunk: Bytes, end: End, answer: Answer)
    requires At(s, i) && s.threads[i].Streaming? && Refused(chunk, answer)
             && MayAnswer(s.threads[i].put, chunk, end, answer)
    ensures var pc, actions := s.threads[i], ReadActions(i, s.threads[i], chunk, end, answer);
            && Runs(s, actions)
            && Drains(After(s, actions), FlightFinished(s, pc.key, Some(CacheFailed)), i, pc.key, pc.got + chunk,
                      end == More)
  {
    hide Runs, After, Apply, Enabled, FlightFinished;
    var pc, read, finish := s.threads[i], Action.Read(i, chunk, end), Action.Finish(i);
    if pc.put == Filling {
      PutFailsApplies(s, i);
      RefusedFinishes(s, Apply(s, Action.PutFails(i)), i, chunk, end);
      Extend(Action.PutFails(i), [read, finish], s);
    } else {
      assert ReadActions(i, pc, chunk, end, answer) == [read, finish];
      RefusedFinishes(s, s, i, chunk, end);
    }
  }

  lemma RefusedFinishes(base: State, s: State, i: nat, chunk: Bytes, end: End)
    requires At(s, i) && s.threads[i].Streaming? && chunk != [] && s.threads[i].put == Failed
    requires base.flights == s.flights && base.table == s.table
    ensures var pc, actions := s.threads[i], [Action.Read(i, chunk, end), Action.Finish(i)];
            && Runs(s, actions)
            && Drains(After(s, actions), FlightFinished(base, pc.key, Some(CacheFailed)), i, pc.key, pc.got + chunk,
                      end == More)
  {
    hide Runs, After, Apply, Enabled, FlightFinished;
    var read, finish := Action.Read(i, chunk, end), Action.Finish(i);
    ReadApplies(s, i, chunk, end);
    FinishApplies(base, Apply(s, read), i);
    Extend(read, [finish], s);
    assert [read] + [finish] == [read, finish];
  }

  lemma AcceptedReads(s: State, i: nat, chunk: Bytes, answer: Answer)
    requires At(s, i) && s.threads[i].Streaming? && !Refused(chunk, answer)
             && MayAnswer(s.threads[i].put, chunk, More, answer)
    ensures var pc, actions := s.threads[i], ReadActions(i, s.threads[i], chunk, More, answer);
            && Runs(s, actions)
            && var t := After(s, actions);
               At(t, i) && t.flights == s.flights && t.table == s.table
               && t.threads[i] == Streaming(pc.key, pc.flight, pc.got + chunk, pc.stored + chunk, pc.put)
  {
    hide Runs, After, Apply, Enabled;
    ReadApplies(s, i, chunk, More);
    RunOf([Action.Read(i, chunk, More)], s);
  }

  lemma LastReads(s: State, i: nat, chunk: Bytes, end: End, answer: Answer)
    requires At(s, i) && s.threads[i].Streaming? && !Refused(chunk, answer)
             && MayAnswer(s.threads[i].put, chunk, end, answer)
    requires end != More
    ensures var pc, actions := s.threads[i], ReadActions(i, s.threads[i], chunk, end, answer);
            && Runs(s, actions)
            && Drains(After(s, actions), FlightFinished(s, pc.key,
                                                        if end == Broken then Some(StreamBroken)
                                                        else StoreError(answer.store)),
                      i, pc.key, pc.got + chunk, false)
  {
    hide Runs, After, Apply, Enabled, FlightFinished, FinalActions;
    var read := Action.Read(i, chunk, end);
    ReadApplies(s, i, chunk, end);
    FinalActionsRun(s, Apply(s, read), i, answer.store);
    Extend(read, FinalActions(i, s.threads[i].put, answer.store), s);
  }

  lemma StreamingCloses(s: State, i: nat)
    requires At(s, i) && s.threads[i].Streaming? && (s.threads[i].put == Filling || s.threads[i].put == Failed)
    ensures var pc, actions := s.threads[i], CloseActions(i, s.threads[i]);
            && Runs(s, actions)
            && Drains(After(s, actions), FlightFinished(s, pc.key, Some(ClosedEarly)), i, pc.key, pc.got, false)
  {
    hide Runs, After, FlightFinished;
    GivenUpActionsRun(s, Apply(s, Action.Close(i)), i);
    Extend(Action.Close(i), FinalActions(i, s.threads[i].put, NotCommitted), s);
  }

  /** A finalised reader passes on what is left of the stream, and ends when it is closed. */
  lemma FinalisedReads(s: State, i: nat, chunk: Bytes, end: End, answer: Answer)
    requires At(s, i) && !s.threads[i].Streaming?
    ensures var pc, actions := s.threads[i], ReadActions(i, s.threads[i], chunk, end, answer);
            && Runs(s, actions)
            && After(s, actions) == if pc.Draining? && pc.live then DrainStep(s, i, pc, chunk, end) else s
  {
    if s.threads[i].Draining? && s.threads[i].live {
      hide Runs, After;
      RunOf([Action.Read(i, chunk, end)], s);
    }
  }

  lemma FinalisedCloses(s: State, i: nat)
    requires At(s, i) && s.threads[i].Draining?
    ensures Runs(s, CloseActions(i, s.threads[i])) && After(s, CloseActions(i, s.threads[i])) == Moved(s, i, Ended)
  {
    hide Runs, After;
    RunOf([Action.Close(i)], s);
  }

  class CachingTranscodeReader {
    const owner: CachedAudioTranscoder
    const key: string
    var stored: Bytes
    var completed: nat
    var finished: bool
    var closed: bool
    /** Everything the client received, how the delegate's stream has ended so far, and how the flight was finished. */
    ghost var received: Bytes
    ghost var ended: End
    ghost var outcome: Option<Trouble>

    /** A flight that ended well was fed the whole stream, and the stream had come to its end. */
    ghost predicate Valid()
      reads this
    {
      && completed == |stored|
      && (!finished ==> stored == received && ended == More && !closed)
      && (finished && outcome.None? ==> stored == received && ended == Eof)
    }

    /** This reader is where goroutine `i` of `s` is, over the flight table of `s`. */
    ghost predicate Shows(s: State, i: nat)
      reads this, owner
    {
      && At(s, i) && owner.flights == s.flights && owner.table == s.table
      && match s.threads[i]
         case Streaming(k, _, got, fed, put) => !finished && k == key && got == received && fed == stored
         case Draining(k, got, live, _) => finished && k == key && got == received && live == (ended == More && !closed)
         case Ended => finished && closed
         case _ => false
    }

    constructor (owner: CachedAudioTranscoder, key: string)
      ensures Valid() && !finished && received == [] && this.owner == owner && this.key == key
      ensures forall s, i: nat, flight: nat ::
                At(s, i) && s.threads[i] == Starting(key, flight) && owner.flights == s.flights
                && owner.table == s.table ==>
                Shows(Apply(s, Action.Start(i, true)), i)
    {
      this.owner, this.key := owner, key;
      stored, completed, finished, closed := [], 0, false, false;
      received, outcome, ended := [], None, More;
    }

    /** The client gets exactly what the delegate's read returned, whatever happens to the cache, and the goroutine
        has made the machine's steps. A stream that has ended, or is closed, gives nothing more. */
    method Read(chunk: Bytes, end: End, answer: Answer, ghost s: State, ghost i: nat) returns (n: nat, err: End)
      requires Valid() && Shows(s, i)
      requires s.threads[i].Streaming? ==> MayAnswer(s.threads[i].put, chunk, end, answer)
      requires closed || ended != More ==> chunk == [] && end != More
      requires ended != More ==> end == ended
      requires key in owner.table ==> owner.table[key] < |owner.flights|
      modifies this, owner
      ensures Valid() && n == |chunk| && err == end && received == old(received) + chunk
      ensures var actions := ReadActions(i, s.threads[i], chunk, end, answer);
              Runs(s, actions) && Shows(After(s, actions), i)
      ensures finished == (old(finished) || Refused(chunk, answer) || end != More)
      ensures old(finished) ==>
                (owner.flights, owner.table, outcome, stored) == old((owner.flights, owner.table, outcome, stored))
      ensures finished && !old(finished) ==>
                outcome == (if Refused(chunk, answer) then Some(CacheFailed)
                            else if end == Broken then Some(StreamBroken) else StoreError(answer.store))
    {
      hide Runs, After, MayAnswer, ReadActions, FlightFinished, StoreError;
      if finished {
        FinalisedReads(s, i, chunk, end, answer);
      } else if Refused(chunk, answer) {
        RefusedReads(s, i, chunk, end, answer);
      } else if end == More {
        AcceptedReads(s, i, chunk, answer);
      } else {
        LastReads(s, i, chunk, end, answer);
      }
      assert owner.In(s) == s;
      received := received + chunk;
      ended := end;
      if chunk != [] && !finished {
        if !answer.accepted {
          Finalize(Some(CacheFailed), answer.store);
          assert owner.In(s) == FlightFinished(s, key, outcome);
        } else {
          stored := stored + chunk;
          completed := completed + |chunk|;
        }
      }
      if end != More && !finished {
        Finalize(if end == Eof then None else Some(StreamBroken), answer.store);
        assert owner.In(s) == FlightFinished(s, key, outcome);
      }
      return |chunk|, end;
    }

    method Close(ghost s: State, ghost i: nat)
      requires Valid() && Shows(s, i)
               && (s.threads[i].Streaming? ==> s.threads[i].put == Filling || s.threads[i].put == Failed)
      requires key in owner.table ==> owner.table[key] < |owner.flights|
      modifies this, owner
      ensures Valid() && received == old(received) && ended == old(ended)
      ensures finished && closed
      ensures !old(closed) ==>
                var actions := CloseActions(i, s.threads[i]); Runs(s, actions) && Shows(After(s, actions), i)
      ensures !old(finished) ==> outcome == Some(ClosedEarly)
      ensures old(closed) || old(finished) ==>
                (owner.flights, owner.table, outcome) == old((owner.flights, owner.table, outcome))
    {
      hide Runs, After, CloseActions, FlightFinished;
      if s.threads[i].Streaming? {
        StreamingCloses(s, i);
      } else if !closed {
        FinalisedCloses(s, i);
      }
      if closed {
        return;
      }
      closed := true;
      if !finished {
        assert owner.In(s) == s;
        Finalize(Some(ClosedEarly), NotCommitted);
        assert owner.In(s) == FlightFinished(s, key, outcome);
      }
    }

    /** Closes the pipe, waits for the store and finishes the flight; the stream's own error goes first. */
    method Finalize(streamError: Option<Trouble>, store: Store)
      requires !finished && (streamError.None? ==> stored == received && ended == Eof) && completed == |stored|
      requires key in owner.table ==> owner.table[key] < |owner.flights|
      modifies this`finished, this`outcome, owner
      ensures Valid() && finished
      ensures outcome == if streamError.Some? then streamError else StoreError(store)
      ensures forall s :: owner.In(s) == FlightFinished(old(owner.In(s)), key, outcome)
    {
      finished := true;
      outcome := if streamError.Some? then streamError else StoreError(store);
      owner.FinishFlight(key, if streamError.Some? then streamError else StoreError(store));
    }
  }
}
