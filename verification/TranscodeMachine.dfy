/** Every interleaving of the transcode cache: callers that share one run of the transcoder per key, the tee reader
    that fills the cache while a client listens, and the goroutine that stores what it is fed. */
module TranscodeMachine {
  import opened Common
  import opened Counting

  /** Why a flight failed. */
  datatype Trouble = StartFailed | StreamBroken | ClosedEarly | CacheFailed

  /** The goroutine in `cache.Put`: reading from the pipe into a temporary file; past the rename, busy with metadata;
      or returned. */
  datatype Put = Filling | Renamed | Succeeded | Failed

  /** One call of `Transcode` and, later, the reader it returned.
      `got` is what the delegate's stream has produced and the client received, `stored` what the cache was fed.
      `live` says that the stream may still produce bytes. */
  datatype Pc =
    | Arriving(key: string)
    | Waiting(key: string, flight: nat)
    | Starting(key: string, flight: nat)
    | Streaming(key: string, flight: nat, got: Bytes, stored: Bytes, put: Put)
    | Closing(key: string, flight: nat, got: Bytes, stored: Bytes, put: Put, trouble: Option<Trouble>, live: bool)
    | Draining(key: string, got: Bytes, live: bool, put: Put)
    | Ended

  /** `key` never changes and is kept for the proofs. */
  datatype Flight = Flight(key: string, closes: nat, err: Option<Trouble>)

  /** `finished` is history: the streams that were read to their end, by key. */
  datatype State = State(
    flights: seq<Flight>, table: map<string, nat>, blobs: map<string, Bytes>, finished: set<(string, Bytes)>,
        threads: seq<Pc>)

  predicate At(s: State, i: nat) {
    i < |s.threads|
  }

  function Moved(s: State, i: nat, pc: Pc): State
    requires At(s, i)
  {
    s.(threads := s.threads[i := pc])
  }

  // Single flight.

  /** The section of `Transcode`: join the key's flight, or start one. */
  function Joined(s: State, i: nat, key: string): State
    requires At(s, i)
  {
    if key in s.table then Moved(s, i, Waiting(key, s.table[key]))
    else
      var f := |s.flights|;
      Moved(s, i, Starting(key, f)).(flights := s.flights + [Flight(key, 0, None)], table := s.table[key := f])
  }

  /** `finishFlight` goes by the key; the error is set before `done` is closed. */
  function FlightFinished(s: State, key: string, err: Option<Trouble>): State {
    if key !in s.table || s.table[key] >= |s.flights| then s
    else
      var f := s.table[key];
      s.(flights := s.flights[f := s.flights[f].(closes := s.flights[f].closes + 1, err := err)],
         table := s.table - {key})
  }

  // The tee.

  datatype End = More | Eof | Broken

  /** One `Read` of an unfinalised reader: the chunk goes to the client in any case, and to the cache while the pipe
      takes it; a refusal, the end of the stream and a stream error all start `finalize`. */
  function ReadStep(s: State, i: nat, pc: Pc, chunk: Bytes, end: End): State
    requires At(s, i) && pc.Streaming?
  {
    var got := pc.got + chunk;
    var seen := if end == Eof then s.(finished := s.finished + {(pc.key, got)}) else s;
    if chunk != [] && pc.put == Failed then
      Moved(seen, i, Closing(pc.key, pc.flight, got, pc.stored, pc.put, Some(CacheFailed), end == More))
    else
      var stored := pc.stored + chunk;
      match end
      case More => Moved(seen, i, Streaming(pc.key, pc.flight, got, stored, pc.put))
      case Eof => Moved(seen, i, Closing(pc.key, pc.flight, got, stored, pc.put, None, false))
      case Broken => Moved(seen, i, Closing(pc.key, pc.flight, got, stored, pc.put, Some(StreamBroken), false))
  }

  /** A finalised reader passes the stream on. */
  function DrainStep(s: State, i: nat, pc: Pc, chunk: Bytes, end: End): State
    requires At(s, i) && pc.Draining?
  {
    var got := pc.got + chunk;
    var seen := if end == Eof then s.(finished := s.finished + {(pc.key, got)}) else s;
    Moved(seen, i, Draining(pc.key, got, end == More, pc.put))
  }

  function WithPut(pc: Pc, put: Put): Pc {
    match pc
    case Streaming(key, flight, got, stored, _) => Streaming(key, flight, got, stored, put)
    case Closing(key, flight, got, stored, _, trouble, live) => Closing(key, flight, got, stored, put, trouble, live)
    case _ => pc
  }

  /** The pipe's writer is closed without error, so the store renames its temporary file. */
  function CommitStep(s: State, i: nat, pc: Pc): State
    requires At(s, i) && pc.Closing?
  {
    Moved(s, i, WithPut(pc, Renamed)).(blobs := s.blobs[pc.key := pc.stored])
  }

  /** Metadata and pruning decide whether `Put` succeeds; on failure the new blob may be deleted again. */
  function ConcludeStep(s: State, i: nat, pc: Pc, ok: bool, dropped: bool): State
    requires At(s, i) && pc.Closing?
  {
    var on := Moved(s, i, WithPut(pc, if ok then Succeeded else Failed));
    if dropped then on.(blobs := s.blobs - {pc.key}) else on
  }

  /** The rest of `finalize`: the stream's own error goes first, then the cache's. */
  function FinishStep(s: State, i: nat, pc: Pc): State
    requires At(s, i) && pc.Closing?
  {
    var err := if pc.trouble.Some? then pc.trouble else if pc.put == Failed then Some(CacheFailed) else None;
    Moved(FlightFinished(s, pc.key, err), i, Draining(pc.key, pc.got, pc.live, pc.put))
  }

  datatype Action =
    | Call(key: string)
    | Join(i: nat)
    | Wake(i: nat)
    | GiveUp(i: nat)
    | Start(i: nat, ok: bool)
    | Read(i: nat, chunk: Bytes, end: End)
    | Close(i: nat)
    | PutFails(i: nat)
    | Commit(i: nat)
    | Conclude(i: nat, ok: bool, dropped: bool)
    | Finish(i: nat)
    | Drop(key: string)

  predicate Enabled(s: State, a: Action) {
    match a
    case Call(_) => true
    case Join(i) => At(s, i) && s.threads[i].Arriving?
    case Wake(i) => At(s, i) && s.threads[i].Waiting? && s.threads[i].flight < |s.flights|
                    && s.flights[s.threads[i].flight].closes > 0
    case GiveUp(i) => At(s, i) && s.threads[i].Waiting?
    case Start(i, _) => At(s, i) && s.threads[i].Starting?
    case Read(i, _, _) => At(s, i) && (s.threads[i].Streaming? || (s.threads[i].Draining? && s.threads[i].live))
    case Close(i) => At(s, i) && (s.threads[i].Streaming? || s.threads[i].Draining?)
    case PutFails(i) => At(s, i) && (s.threads[i].Streaming? || s.threads[i].Closing?) && s.threads[i].put == Filling
    case Commit(i) => At(s, i) && s.threads[i].Closing? && s.threads[i].put == Filling && s.threads[i].trouble.None?
    case Conclude(i, ok, dropped) => At(s, i) && s.threads[i].Closing? && s.threads[i].put == Renamed
                                     && (ok ==> !dropped)
    case Finish(i) => At(s, i) && s.threads[i].Closing? && (s.threads[i].put == Succeeded || s.threads[i].put == Failed)
    case Drop(_) => true
  }

  function Apply(s: State, a: Action): State
    requires Enabled(s, a)
  {
    match a
    case Call(key) => s.(threads := s.threads + [Arriving(key)])
    case Join(i) => Joined(s, i, s.threads[i].key)
    case Wake(i) => Moved(s, i, Ended)
    case GiveUp(i) => Moved(s, i, Ended)
    case Start(i, ok) =>
      var pc := s.threads[i];
      if ok then Moved(s, i, Streaming(pc.key, pc.flight, [], [], Filling))
      else Moved(FlightFinished(s, pc.key, Some(StartFailed)), i, Ended)
    case Read(i, chunk, end) =>
      if s.threads[i].Streaming? then ReadStep(s, i, s.threads[i], chunk, end)
      else DrainStep(s, i, s.threads[i], chunk, end)
    case Close(i) =>
      var pc := s.threads[i];
      if pc.Streaming? then Moved(s, i, Closing(pc.key, pc.flight, pc.got, pc.stored, pc.put, Some(ClosedEarly), false))
      else Moved(s, i, Ended)
    case PutFails(i) => Moved(s, i, WithPut(s.threads[i], Failed))
    case Commit(i) => CommitStep(s, i, s.threads[i])
    case Conclude(i, ok, dropped) => ConcludeStep(s, i, s.threads[i], ok, dropped)
    case Finish(i) => FinishStep(s, i, s.threads[i])
    case Drop(key) => s.(blobs := s.blobs - {key})
  }

  // The invariant.

  /** Who has to finish the flight of a key. */
  predicate OwnsFlight(pc: Pc) {
    pc.Starting? || pc.Streaming? || pc.Closing?
  }

  function Owns(pc: Pc, key: string): nat {
    if OwnsFlight(pc) && pc.key == key then 1 else 0
  }

  /** A key is in the table exactly when one caller or reader owns its flight. */
  ghost predicate Conserved(s: State) {
    forall key: string :: (if key in s.table then 1 else 0) == Total(s.threads, Owns, key)
  }

  /** What has been stored is what the stream produced, unless the store has given up. */
  ghost predicate ThreadSound(s: State, pc: Pc) {
    && (OwnsFlight(pc) ==> pc.key in s.table && s.table[pc.key] == pc.flight)
    && (pc.Streaming? ==> pc.put != Failed ==> pc.stored == pc.got && pc.put == Filling)
    && (pc.Closing? ==>
          && (pc.put == Filling && pc.trouble.None? ==> pc.stored == pc.got)
          && (pc.trouble.None? ==> (pc.key, pc.got) in s.finished)
          && (pc.trouble.Some? ==> pc.put == Filling || pc.put == Failed)
          && (pc.live ==> pc.put == Failed))
    && (pc.Draining? ==> pc.live ==> pc.put == Failed)
  }

  ghost predicate TablesSound(s: State) {
    && (forall key :: key in s.table ==> s.table[key] < |s.flights| && s.flights[s.table[key]].key == key
                                         && s.flights[s.table[key]].closes == 0)
    && (forall f :: 0 <= f < |s.flights| ==>
          var flight := s.flights[f];
          && flight.closes <= 1 && (flight.err.Some? ==> flight.closes == 1)
          && (flight.closes == 0 ==> flight.key in s.table && s.table[flight.key] == f))
    && BlobsSound(s.blobs, s.finished)
  }

  /** Every stored blob is a stream that was read to its end. */
  ghost predicate BlobsSound(blobs: map<string, Bytes>, finished: set<(string, Bytes)>) {
    forall key :: key in blobs ==> (key, blobs[key]) in finished
  }

  ghost predicate Inv(s: State) {
    Conserved(s) && TablesSound(s) && forall i :: 0 <= i < |s.threads| ==> ThreadSound(s, s.threads[i])
  }
}
