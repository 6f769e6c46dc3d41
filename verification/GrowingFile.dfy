/** Reading a Soulseek file while it is still being downloaded: to its reader it is the finished file, only slower. */
module GrowingFile {
  import opened Common

  datatype Fault = CannotSeek | CannotRead | CannotClose | CannotOpen | Missing | JobFailed | UserClosed

  /** What one attempt on one path finds: no file, a file that cannot be opened, or a file that holds a prefix of the
      content, of which a read takes some bytes and may report errors. */
  datatype Sight =
    | Absent
    | Unopenable
    | Seen(available: nat, got: nat, seekFails: bool, readFails: bool, closeFails: bool)

  /** What happens between two attempts. */
  datatype Pause = Closed | JobDone(failed: bool, finalExists: bool) | Tick

  /** One round of the loop: the final path, the incomplete path, and the pause. */
  datatype Round = Round(final: Sight, incomplete: Sight, pause: Pause)

  datatype Outcome = Chunk(bytes: Bytes) | Eof | Failed(fault: Fault) | StillWaiting

  /** A read takes at most what fits into the buffer and what is there, and something if it can. */
  predicate Plausible(content: Bytes, offset: nat, buffer: nat, sight: Sight) {
    sight.Seen? ==>
      && sight.available <= |content|
      && sight.got <= Min(buffer, |content| - offset)
      && (sight.got > 0 ==> offset + sight.got <= sight.available)
      && (sight.got == 0 && sight.available > offset ==> sight.readFails || sight.seekFails)
  }

  predicate PlausibleRound(content: Bytes, offset: nat, buffer: nat, round: Round) {
    Plausible(content, offset, buffer, round.final) && Plausible(content, offset, buffer, round.incomplete)
  }

  /** One path: an outcome, or nothing, and then whether the file could not be opened. */
  function Tried(content: Bytes, offset: nat, sight: Sight): Option<Outcome>
    requires offset <= |content| && (sight.Seen? ==> offset + sight.got <= |content|)
  {
    if !sight.Seen? then None
    else if sight.seekFails then Some(Failed(CannotSeek))
    else if sight.got > 0 then Some(Chunk(content[offset..offset + sight.got]))
    else if sight.readFails then Some(Failed(CannotRead))
    else if sight.closeFails then Some(Failed(CannotClose))
    else None
  }

  /** Nothing could be got at the offset. */
  predicate NothingThere(offset: nat, sight: Sight) {
    sight.Seen? ==> sight.available <= offset && sight.got == 0
  }

  /** One round: what the final path gives, else the incomplete one, else what the pause says; or another round. */
  function RoundOutcome(content: Bytes, offset: nat, buffer: nat, round: Round): Option<Outcome>
    requires offset <= |content| && PlausibleRound(content, offset, buffer, round)
  {
    var final := Tried(content, offset, round.final);
    var incomplete := Tried(content, offset, round.incomplete);
    if final.Some? then final
    else if incomplete.Some? then incomplete
    else if round.pause.Closed? then Some(Failed(UserClosed))
    else if round.pause.Tick? then None
    else if round.pause.failed then Some(Failed(JobFailed))
    else if round.final.Unopenable? || round.incomplete.Unopenable? then Some(Failed(CannotOpen))
    else if !round.pause.finalExists then Some(Failed(Missing))
    else None
  }

  /** What a read may meet at an offset inside the file. */
  ghost predicate PossibleRead(content: Bytes, offset: nat, buffer: nat, rounds: seq<Round>) {
    offset <= |content| ==> forall k :: 0 <= k < |rounds| ==> PlausibleRound(content, offset, buffer, rounds[k])
  }

  /** The first round from `n` on that ends the read. */
  ghost function StopAt(content: Bytes, offset: nat, buffer: nat, rounds: seq<Round>, n: nat): (k: nat)
    requires offset < |content| && PossibleRead(content, offset, buffer, rounds) && n <= |rounds|
    ensures n <= k <= |rounds|
    ensures k < |rounds| ==> RoundOutcome(content, offset, buffer, rounds[k]).Some?
    ensures forall l :: n <= l < k ==> RoundOutcome(content, offset, buffer, rounds[l]).None?
    decreases |rounds| - n
  {
    if n == |rounds| || RoundOutcome(content, offset, buffer, rounds[n]).Some? then n
    else StopAt(content, offset, buffer, rounds, n + 1)
  }

  /** The outcome of a read; if the rounds run out it is still waiting. */
  ghost function ReadOutcome(content: Bytes, offset: nat, buffer: nat, rounds: seq<Round>): Outcome
    requires PossibleRead(content, offset, buffer, rounds)
  {
    if buffer == 0 then Chunk([])
    else if offset >= |content| then Eof
    else
      var k := StopAt(content, offset, buffer, rounds, 0);
      if k == |rounds| then StillWaiting else RoundOutcome(content, offset, buffer, rounds[k]).value
  }

  function OffsetAfter(offset: nat, outcome: Outcome): nat {
    offset + if outcome.Chunk? then |outcome.bytes| else 0
  }

  lemma RoundIsRight(content: Bytes, offset: nat, buffer: nat, round: Round)
    requires offset < |content| && buffer > 0 && PlausibleRound(content, offset, buffer, round)
    ensures var outcome := RoundOutcome(content, offset, buffer, round);
            && (outcome.Some? && outcome.value.Chunk? ==>
                  && 0 < |outcome.value.bytes| <= buffer && offset + |outcome.value.bytes| <= |content|
                  && outcome.value.bytes == content[offset..offset + |outcome.value.bytes|])
            && outcome != Some(Eof) && outcome != Some(StillWaiting)
            && (outcome.None? || outcome == Some(Failed(JobFailed)) || outcome == Some(Failed(UserClosed)) ==>
                  NothingThere(offset, round.final) && NothingThere(offset, round.incomplete))
            && (outcome == Some(Failed(JobFailed)) ==> round.pause.JobDone? && round.pause.failed)
  {
  }

  /** A read returns the content at the offset; the end of the file exactly at the size; and a failed job's error, or
      that of a closed reader, only in a round that finds nothing at the offset, after rounds that did not either. */
  lemma ReadIsRight(content: Bytes, offset: nat, buffer: nat, rounds: seq<Round>)
    requires PossibleRead(content, offset, buffer, rounds)
    ensures var outcome := ReadOutcome(content, offset, buffer, rounds);
            && (outcome.Chunk? && buffer > 0 ==>
                  && 0 < |outcome.bytes| <= buffer && offset + |outcome.bytes| <= |content|
                  && outcome.bytes == content[offset..offset + |outcome.bytes|])
            && (buffer == 0 ==> outcome == Chunk([]))
            && (outcome == Eof <==> buffer > 0 && offset >= |content|)
            && (outcome == Failed(JobFailed) || outcome == Failed(UserClosed) || outcome == StillWaiting ==>
                  && offset < |content|
                  && var k := StopAt(content, offset, buffer, rounds, 0);
                     && (forall l :: 0 <= l <= k && l < |rounds| ==>
                           NothingThere(offset, rounds[l].final) && NothingThere(offset, rounds[l].incomplete))
                     && (outcome == Failed(JobFailed) ==>
                           k < |rounds| && rounds[k].pause.JobDone? && rounds[k].pause.failed))
  {
    if buffer > 0 && offset < |content| {
      var k := StopAt(content, offset, buffer, rounds, 0);
      forall l | 0 <= l <= k && l < |rounds|
        ensures RoundOutcome(content, offset, buffer, rounds[l]).None?
                || RoundOutcome(content, offset, buffer, rounds[l]) == Some(Failed(JobFailed))
                || RoundOutcome(content, offset, buffer, rounds[l]) == Some(Failed(UserClosed)) ==>
                  NothingThere(offset, rounds[l].final) && NothingThere(offset, rounds[l].incomplete)
      {
        RoundIsRight(content, offset, buffer, rounds[l]);
      }
      if k < |rounds| {
        RoundIsRight(content, offset, buffer, rounds[k]);
      }
      hide RoundOutcome, PlausibleRound, NothingThere;
    }
  }

  class GrowingReader {
    const content: Bytes
    const size: nat
    var offset: nat

    ghost predicate Valid()
      reads this
    {
      size == |content|
    }

    constructor (content: Bytes)
      ensures Valid() && this.content == content && offset == 0
    {
      this.content, size, offset := content, |content|, 0;
    }

    /** `Read`, against a world that shows `rounds`. */
    method Read(buffer: nat, rounds: seq<Round>) returns (outcome: Outcome)
      requires Valid() && PossibleRead(content, offset, buffer, rounds)
      modifies this`offset
      ensures outcome == ReadOutcome(content, old(offset), buffer, rounds)
      ensures offset == OffsetAfter(old(offset), outcome)
    {
      if buffer == 0 {
        return Chunk([]);
      }
      var n := 0;
      while n < |rounds| && offset < size
        invariant n <= |rounds| && offset == old(offset)
        invariant offset < size ==>
                    StopAt(content, offset, buffer, rounds, 0) == StopAt(content, offset, buffer, rounds, n)
      {
        var round := rounds[n];
        assert PlausibleRound(content, offset, buffer, round);
        var cannotOpen := false;
        var result := Tried(content, offset, round.final);
        if result.None? {
          cannotOpen := round.final.Unopenable?;
          result := Tried(content, offset, round.incomplete);
          cannotOpen := cannotOpen || round.incomplete.Unopenable?;
        }
        if result.Some? {
          if result.value.Chunk? {
            offset := offset + |result.value.bytes|;
          }
          return result.value;
        }
        if round.pause.Closed? {
          return Failed(UserClosed);
        } else if round.pause.JobDone? {
          if round.pause.failed {
            return Failed(JobFailed);
          }
          if cannotOpen {
            return Failed(CannotOpen);
          }
          if !round.pause.finalExists {
            return Failed(Missing);
          }
        }
        n := n + 1;
      }
      return if offset >= size then Eof else StillWaiting;
    }

    method Seek(delta: int, whence: int) returns (next: int, ok: bool)
      requires Valid()
      modifies this`offset
      ensures ok <==> Sought(old(offset), size, delta, whence).Some?
      ensures ok ==> Sought(old(offset), size, delta, whence) == Some(offset) && next == offset
      ensures !ok ==> offset == old(offset)
    {
      next := 0;
      if whence == 0 {
        next := delta;
      } else if whence == 1 {
        next := offset + delta;
      } else if whence == 2 {
        next := size + delta;
      } else {
        return 0, false;
      }
      if next < 0 {
        return 0, false;
      }
      offset := next;
      return next, true;
    }
  }

  /** Where a seek leads: one of the three origins, and not before the start. */
  function Sought(offset: nat, size: nat, delta: int, whence: int): Option<nat> {
    var base := if whence == 0 then 0 else if whence == 1 then offset else size;
    if 0 <= whence <= 2 && base + delta >= 0 then Some(base + delta) else None
  }

  // Whole runs.

  datatype Call = Read(buffer: nat, rounds: seq<Round>) | Seek(delta: int, whence: int)

  ghost predicate Possible(content: Bytes, offset: nat, call: Call) {
    call.Read? ==> PossibleRead(content, offset, call.buffer, call.rounds)
  }

  ghost function After(content: Bytes, offset: nat, call: Call): nat
    requires Possible(content, offset, call)
  {
    match call
    case Read(buffer, rounds) => OffsetAfter(offset, ReadOutcome(content, offset, buffer, rounds))
    case Seek(delta, whence) =>
      match Sought(offset, |content|, delta, whence) case Some(next) => next case None => offset
  }

  ghost predicate Runs(content: Bytes, offset: nat, calls: seq<Call>)
    decreases |calls|
  {
    calls == [] || (Possible(content, offset, calls[0]) && Runs(content, After(content, offset, calls[0]), calls[1..]))
  }

  ghost function Last(content: Bytes, offset: nat, calls: seq<Call>): nat
    requires Runs(content, offset, calls)
    decreases |calls|
  {
    if calls == [] then offset else Last(content, After(content, offset, calls[0]), calls[1..])
  }

  ghost function Outcomes(content: Bytes, offset: nat, calls: seq<Call>): seq<Outcome>
    requires Runs(content, offset, calls)
    decreases |calls|
  {
    if calls == [] then []
    else
      var rest := Outcomes(content, After(content, offset, calls[0]), calls[1..]);
      if calls[0].Read? then [ReadOutcome(content, offset, calls[0].buffer, calls[0].rounds)] + rest else rest
  }

  /** Everything that reads returned. */
  function Delivered(outcomes: seq<Outcome>): Bytes {
    if outcomes == [] then [] else (if outcomes[0].Chunk? then outcomes[0].bytes else []) + Delivered(outcomes[1..])
  }

  lemma DeliveredOneMore(content: Bytes, offset: nat, outcome: Outcome, rest: seq<Outcome>, last: nat)
    requires offset <= OffsetAfter(offset, outcome) <= last <= |content|
    requires outcome.Chunk? ==> outcome.bytes == content[offset..offset + |outcome.bytes|]
    requires Delivered(rest) == content[OffsetAfter(offset, outcome)..last]
    ensures Delivered([outcome] + rest) == content[offset..last]
  {
    assert ([outcome] + rest)[1..] == rest;
    var next := OffsetAfter(offset, outcome);
    assert content[offset..next] + content[next..last] == content[offset..last];
  }

  /** Between seeks, whatever the growth, the move to the final path, the end of the job and the sizes of the chunks,
      the reads deliver the piece of the finished file between the offsets before and after; if one of them reported
      the end of the file, all the rest of it. */
  lemma {:induction false} ReadsDeliverTheFile(content: Bytes, offset: nat, calls: seq<Call>)
    requires Runs(content, offset, calls) && offset <= |content| && forall call :: call in calls ==> call.Read?
    ensures var last, outcomes := Last(content, offset, calls), Outcomes(content, offset, calls);
            && offset <= last <= |content| && Delivered(outcomes) == content[offset..last]
            && (Eof in outcomes ==> last == |content|)
    decreases |calls|
  {
    hide ReadOutcome, PossibleRead, StopAt;
    if calls != [] {
      var call := calls[0];
      assert call in calls;
      var next := After(content, offset, call);
      ReadIsRight(content, offset, call.buffer, call.rounds);
      ReadsDeliverTheFile(content, next, calls[1..]);
      DeliveredOneMore(content, offset, ReadOutcome(content, offset, call.buffer, call.rounds),
                       Outcomes(content, next, calls[1..]), Last(content, next, calls[1..]));
    }
  }

  /** With seeks in between, every chunk is still the content at the place the calls before it lead to. */
  lemma EveryReadIsInPlace(content: Bytes, offset: nat, calls: seq<Call>, call: Call)
    requires Runs(content, offset, calls) && Possible(content, Last(content, offset, calls), call) && call.Read?
    ensures var at := Last(content, offset, calls);
            var outcome := ReadOutcome(content, at, call.buffer, call.rounds);
            && (outcome.Chunk? ==> (outcome.bytes == [] || at + |outcome.bytes| <= |content|)
                                   && (outcome.bytes != [] ==> outcome.bytes == content[at..at + |outcome.bytes|]))
            && (outcome == Eof <==> call.buffer > 0 && at >= |content|)
  {
    ReadIsRight(content, Last(content, offset, calls), call.buffer, call.rounds);
  }
}
