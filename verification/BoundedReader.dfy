/** The reader of one file of a torrent: it ends where the file does, and says "complete" only if it was. */
module BoundedReader {
  import opened Common

  datatype Err = NoError | Eof | Other

  /** `returned` is history: everything the caller got, in the order it got it; `completions` counts `onComplete`. */
  datatype Reader = Reader(
    position: nat, readStarted: bool, contiguous: bool, completed: bool, returned: Bytes, completions: nat)

  const FRESH := Reader(0, false, true, false, [], 0)

  /** What the torrent's own reader answers: how many bytes it delivers, which may be fewer than asked and may belong
      to the next file, and its error; or where a seek leads, if it succeeds. */
  datatype Op = Read(buffer: nat, got: nat, err: Err) | Seek(target: Option<nat>)

  /** `data` is the stream the torrent's reader delivers, `length` how much of it belongs to the file. */
  predicate Possible(data: Bytes, length: nat, r: Reader, op: Op) {
    match op
    case Read(buffer, got, _) =>
      r.position < length ==> got <= Min(buffer, length - r.position) && r.position + got <= |data|
    case Seek(_) => true
  }

  /** The chunk and the error of a read. */
  function Outcome(data: Bytes, length: nat, r: Reader, op: Op): (Bytes, Err)
    requires op.Read? && Possible(data, length, r, op)
  {
    if r.position >= length then ([], Eof)
    else
      (data[r.position..r.position + op.got],
       if op.err == NoError && r.position + op.got >= length then Eof else op.err)
  }

  function After(data: Bytes, length: nat, r: Reader, op: Op): Reader
    requires Possible(data, length, r, op)
  {
    match op
    case Read(buffer, got, _) =>
      if r.position >= length then r
      else
        var next := r.(readStarted := r.readStarted || got > 0, position := r.position + got,
                       returned := r.returned + data[r.position..r.position + got]);
        if next.position >= length && next.contiguous && !next.completed then
          next.(completed := true, completions := next.completions + 1)
        else next
    case Seek(target) =>
      if target.None? then r
      else
        r.(position := target.value,
           contiguous := if !r.readStarted then target.value == 0 else if target.value != r.position then false
           else r.contiguous)
  }

  ghost predicate Valid(data: Bytes, length: nat, r: Reader) {
    && (!r.readStarted ==> r.returned == [] && r.contiguous == (r.position == 0))
    && (r.contiguous && r.position <= |data| ==> r.returned == data[..r.position])
    && (r.contiguous && r.readStarted ==> r.position <= |data| && r.position <= length)
    && r.completions == (if r.completed then 1 else 0)
  }

  lemma StepKeepsValid(data: Bytes, length: nat, r: Reader, op: Op)
    requires Valid(data, length, r) && Possible(data, length, r, op)
    ensures Valid(data, length, After(data, length, r, op))
    ensures op.Read? ==> |Outcome(data, length, r, op).0| <= op.buffer
    ensures op.Read? && r.position <= length ==> After(data, length, r, op).position <= length
    ensures After(data, length, r, op).completions > r.completions ==>
              length <= |data| && After(data, length, r, op).returned == data[..length]
  {
    if op.Read? && r.position < length {
      var got := data[r.position..r.position + op.got];
      if r.contiguous {
        assert data[..r.position] + got == data[..r.position + op.got];
      }
    }
  }

  ghost predicate Runs(data: Bytes, length: nat, r: Reader, ops: seq<Op>)
    decreases |ops|
  {
    ops == [] || (Possible(data, length, r, ops[0]) && Runs(data, length, After(data, length, r, ops[0]), ops[1..]))
  }

  ghost function Last(data: Bytes, length: nat, r: Reader, ops: seq<Op>): Reader
    requires Runs(data, length, r, ops)
    decreases |ops|
  {
    if ops == [] then r else Last(data, length, After(data, length, r, ops[0]), ops[1..])
  }

  lemma {:induction false} RunKeepsValid(data: Bytes, length: nat, r: Reader, ops: seq<Op>)
    requires Valid(data, length, r) && Runs(data, length, r, ops)
    ensures Valid(data, length, Last(data, length, r, ops))
    decreases |ops|
  {
    if ops != [] {
      StepKeepsValid(data, length, r, ops[0]);
      hide Valid, After, Possible;
      RunKeepsValid(data, length, After(data, length, r, ops[0]), ops[1..]);
    }
  }

  /** Over every run of reads and seeks `onComplete` is called at most once, and at the moment it is called the caller
      has received exactly the file, in order and without gaps. */
  lemma CompletionIsHonest(data: Bytes, length: nat, ops: seq<Op>, op: Op)
    requires Runs(data, length, FRESH, ops)
    requires Possible(data, length, Last(data, length, FRESH, ops), op)
    ensures var before := Last(data, length, FRESH, ops);
            var after := After(data, length, before, op);
            && after.completions <= 1
            && (after.completions > before.completions ==> length <= |data| && after.returned == data[..length])
  {
    RunKeepsValid(data, length, FRESH, ops);
    StepKeepsValid(data, length, Last(data, length, FRESH, ops), op);
  }

  /** Nothing past the end of the file is ever handed out, wherever the caller has been seeking. */
  lemma NeverPastTheEnd(data: Bytes, length: nat, r: Reader, op: Op)
    requires op.Read? && Possible(data, length, r, op)
    ensures var (chunk, err) := Outcome(data, length, r, op);
            && (chunk != [] ==> r.position + |chunk| <= length && chunk == data[r.position..r.position + |chunk|])
            && (r.position >= length ==> chunk == [] && err == Eof)
            && (r.position < length && r.position + |chunk| == length ==> err != NoError)
  {
  }

  class File {
    const data: Bytes
    const length: nat
    var position: nat
    var readStarted: bool
    var contiguous: bool
    var completed: bool
    ghost var returned: Bytes
    ghost var completions: nat

    ghost function Abs(): Reader
      reads this
    {
      Reader(position, readStarted, contiguous, completed, returned, completions)
    }

    constructor (data: Bytes, length: nat)
      ensures Abs() == FRESH && this.data == data && this.length == length
    {
      this.data, this.length := data, length;
      position, readStarted, contiguous, completed := 0, false, true, false;
      returned, completions := [], 0;
    }

    method ReadInto(buffer: nat, got: nat, err: Err) returns (chunk: Bytes, error: Err)
      requires Possible(data, length, Abs(), Read(buffer, got, err))
      modifies this
      ensures (chunk, error) == Outcome(data, length, old(Abs()), Read(buffer, got, err))
      ensures Abs() == After(data, length, old(Abs()), Read(buffer, got, err))
    {
      if position >= length {
        return [], Eof;
      }
      chunk := data[position..position + got];
      readStarted := readStarted || got > 0;
      position := position + got;
      returned := returned + chunk;
      if position >= length && contiguous && !completed {
        completed := true;
        completions := completions + 1;
      }
      error := err;
      if error == NoError && position >= length {
        error := Eof;
      }
    }

    method SeekTo(target: Option<nat>)
      modifies this
      ensures Abs() == After(data, length, old(Abs()), Seek(target))
    {
      var previous := position;
      if target.Some? {
        position := target.value;
        if !readStarted {
          contiguous := position == 0;
        } else if position != previous {
          contiguous := false;
        }
      }
    }
  }
}
