/** The media cache under overlapping calls, and when its metadata cannot be saved.

    `Put` writes its blob before it takes the lock, so other operations come between its blob and its metadata. Two
    things survive that: the size limit always, and the agreement of metadata and blobs exactly as long as nobody
    touches a key between the two. */
module MediaCacheOverlap {
  import opened Common
  import opened MediaCache

  /** A call of `Put` whose blob is in place, or that has returned. */
  datatype Pc = Recording(key: string, size: nat, pinned: bool) | Returned

  datatype State = State(cache: Cache, puts: seq<Pc>)

  /** `Record` is the locked section of a put; `saved` says whether its metadata could be saved. `Locked` is any other
      operation, which holds the lock throughout. */
  datatype Action =
    | Write(key: string, content: Bytes, pinned: bool)
    | Record(i: nat, now: int, order: seq<string>, saved: bool)
    | Locked(op: Op)

  function Entered(c: Cache, key: string, size: nat, pinned: bool, now: int): Cache {
    c.(meta := c.meta[key := Entry(size, now, pinned)])
  }

  /** The new entry is given up: it does not fit even though all that may go has gone. */
  ghost predicate GivenUp(c: Cache, put: Pc, now: int, order: seq<string>)
    requires put.Recording?
  {
    Size(Pruned(Entered(c, put.key, put.size, put.pinned, now), order, put.key)) > c.maxBytes && !put.pinned
  }

  ghost function Recorded(c: Cache, put: Pc, now: int, order: seq<string>, saved: bool): Cache
    requires put.Recording?
  {
    if !saved then c.(blobs := c.blobs - {put.key})
    else
      var pruned := Pruned(Entered(c, put.key, put.size, put.pinned, now), order, put.key);
      if GivenUp(c, put, now, order) then Without(pruned, put.key) else pruned
  }

  ghost predicate Enabled(s: State, a: Action) {
    match a
    case Write(key, _, _) => ValidKey(key)
    case Record(i, now, order, saved) =>
      && i < |s.puts| && s.puts[i].Recording? && ValidKey(s.puts[i].key)
      && (saved ==> Lists(order, Entered(s.cache, s.puts[i].key, s.puts[i].size, s.puts[i].pinned, now).meta))
    case Locked(op) => !op.Put? && Possible(s.cache, op)
  }

  ghost function Apply(s: State, a: Action): State
    requires Enabled(s, a)
  {
    match a
    case Write(key, content, pinned) =>
      State(s.cache.(blobs := s.cache.blobs[key := content]), s.puts + [Recording(key, |content|, pinned)])
    case Record(i, now, order, saved) =>
      State(Recorded(s.cache, s.puts[i], now, order, saved), s.puts[i := Returned])
    case Locked(op) => s.(cache := Result(s.cache, op))
  }

  /** A put that nothing comes between is the put of the sequential model. */
  lemma PutIsWriteAndRecord(s: State, key: string, content: Bytes, pinned: bool, now: int, order: seq<string>)
    requires ValidKey(key) && Possible(s.cache, Op.Put(key, content, pinned, now, order))
    ensures var w := Apply(s, Write(key, content, pinned));
            && Enabled(w, Record(|s.puts|, now, order, true))
            && Apply(w, Record(|s.puts|, now, order, true)).cache
               == Result(s.cache, Op.Put(key, content, pinned, now, order))
  {
    var c := Apply(s, Write(key, content, pinned)).cache;
    assert Entered(c, key, |content|, pinned, now) == Stored(s.cache, key, content, pinned, now);
  }

  // The size limit.

  lemma RecordFits(c: Cache, put: Pc, now: int, order: seq<string>)
    requires put.Recording? && Lists(order, Entered(c, put.key, put.size, put.pinned, now).meta)
    ensures Fits(Recorded(c, put, now, order, true))
  {
    var entered := Entered(c, put.key, put.size, put.pinned, now);
    PrunedFits(entered, order, put.key);
    PruningSpares(entered, order, put.key, put.key);
    hide Pruned, Size, Lists;
  }

  lemma LockedFits(c: Cache, op: Op)
    requires !op.Put? && Possible(c, op) && Fits(c) && "" !in c.meta
    ensures Fits(Result(c, op))
  {
    match op
    case Open(key, now) =>
      if key in c.meta {
        if key in c.blobs {
          assert Sizes(Result(c, op).meta) == Sizes(c.meta);
        } else {
          RemovalShrinks(c, key);
          assert Result(c, op).meta == Without(c, key).meta;
        }
      }
    case SetPinned(key, pinned, order) =>
      if key in c.meta {
        var changed := c.(meta := c.meta[key := c.meta[key].(pinned := pinned)]);
        assert Sizes(changed.meta) == Sizes(c.meta);
        if !pinned {
          PrunedFits(changed, order, "");
        }
      }
    case Remove(key) =>
      if key in c.meta {
        RemovalShrinks(c, key);
      } else {
        assert Without(c, key).meta == c.meta;
      }
    case Prune(order) => PrunedFits(c, order, "");
  }

  // Metadata and blobs, key by key.

  /** If there is an entry, its blob is there and has the recorded size. */
  predicate Faithful(c: Cache, key: string) {
    key in c.meta ==> key in c.blobs && |c.blobs[key]| == c.meta[key].size
  }

  /** Pruning takes entry and blob together, and leaves blobs without an entry alone. */
  lemma PruningTakesBoth(c: Cache, order: seq<string>, protectedKey: string, key: string)
    requires Lists(order, c.meta)
    ensures var p := Pruned(c, order, protectedKey);
            && (Faithful(c, key) ==> Faithful(p, key)) && (key in p.meta ==> key in c.meta)
            && (key !in c.meta || key == protectedKey ==>
                  Lookup(p.blobs, key) == Lookup(c.blobs, key) && Lookup(p.meta, key) == Lookup(c.meta, key))
  {
    if key in c.meta {
      PruningSpares(c, order, protectedKey, key);
    }
  }

  lemma LockedKeepsFaithful(c: Cache, op: Op, key: string)
    requires !op.Put? && Possible(c, op) && Faithful(c, key)
    ensures Faithful(Result(c, op), key)
  {
    match op
    case Open(_, _) =>
    case SetPinned(k, pinned, order) =>
      if k in c.meta {
        var changed := c.(meta := c.meta[k := c.meta[k].(pinned := pinned)]);
        assert Faithful(changed, key);
        if !pinned {
          PruningTakesBoth(changed, order, "", key);
        }
      }
    case Remove(_) =>
    case Prune(order) => PruningTakesBoth(c, order, "", key);
  }

  /** The key's blob is what this put has written, as far as sizes tell. */
  predicate InPlace(c: Cache, put: Pc)
    requires put.Recording?
  {
    put.key in c.blobs && |c.blobs[put.key]| == put.size
  }

  /** Whatever happened before, the locked section leaves its key right exactly if the entry is given up or the blob
      is in place, or, when the entry could not be saved, if there is no older one. */
  lemma RecordIsFaithfulExactly(c: Cache, put: Pc, now: int, order: seq<string>, saved: bool)
    requires put.Recording?
    requires saved ==> Lists(order, Entered(c, put.key, put.size, put.pinned, now).meta)
    ensures Faithful(Recorded(c, put, now, order, saved), put.key) <==>
            if saved then GivenUp(c, put, now, order) || InPlace(c, put) else put.key !in c.meta
  {
    if saved {
      PruningTakesBoth(Entered(c, put.key, put.size, put.pinned, now), order, put.key, put.key);
      hide Pruned, Lists, GivenUp;
    }
  }

  lemma RecordKeepsOthers(c: Cache, put: Pc, now: int, order: seq<string>, saved: bool, key: string)
    requires put.Recording? && key != put.key && Faithful(c, key)
    requires saved ==> Lists(order, Entered(c, put.key, put.size, put.pinned, now).meta)
    ensures Faithful(Recorded(c, put, now, order, saved), key)
  {
    if saved {
      PruningTakesBoth(Entered(c, put.key, put.size, put.pinned, now), order, put.key, key);
      hide Pruned, Lists, GivenUp;
    }
  }

  /** A blob of another size under an entry; an entry recorded without its blob; an older entry that stays when a new
      one could not be saved. */
  ghost predicate Spoils(s: State, a: Action, key: string)
    requires Enabled(s, a)
  {
    match a
    case Write(k, content, _) => k == key && key in s.cache.meta && |content| != s.cache.meta[key].size
    case Record(i, now, order, saved) =>
      s.puts[i].key == key
      && if saved then !GivenUp(s.cache, s.puts[i], now, order) && !InPlace(s.cache, s.puts[i]) else key in s.cache.meta
    case Locked(_) => false
  }

  /** A key that is right stays so exactly unless a step spoils it. */
  lemma StaysFaithfulExactly(s: State, a: Action, key: string)
    requires Enabled(s, a) && Faithful(s.cache, key)
    ensures Faithful(Apply(s, a).cache, key) <==> !Spoils(s, a, key)
  {
    hide Recorded, GivenUp, InPlace, Lists, Result, Possible;
    match a
    case Write(_, _, _) =>
    case Record(i, now, order, saved) =>
      if s.puts[i].key == key {
        RecordIsFaithfulExactly(s.cache, s.puts[i], now, order, saved);
      } else {
        RecordKeepsOthers(s.cache, s.puts[i], now, order, saved, key);
      }
    case Locked(op) => LockedKeepsFaithful(s.cache, op, key);
  }

  // Runs.

  ghost predicate Runs(s: State, actions: seq<Action>)
    decreases |actions|
  {
    actions == [] || (Enabled(s, actions[0]) && Runs(Apply(s, actions[0]), actions[1..]))
  }

  ghost function After(s: State, actions: seq<Action>): State
    requires Runs(s, actions)
    decreases |actions|
  {
    if actions == [] then s else After(Apply(s, actions[0]), actions[1..])
  }

  ghost predicate FaithfulThroughout(s: State, actions: seq<Action>, key: string)
    requires Runs(s, actions)
    decreases |actions|
  {
    Faithful(s.cache, key) && (actions == [] || FaithfulThroughout(Apply(s, actions[0]), actions[1..], key))
  }

  ghost predicate Unspoilt(s: State, actions: seq<Action>, key: string)
    requires Runs(s, actions)
    decreases |actions|
  {
    actions == [] || (!Spoils(s, actions[0], key) && Unspoilt(Apply(s, actions[0]), actions[1..], key))
  }

  /** Over every interleaving, the metadata of a key agrees with its blob throughout exactly if no step spoils it. */
  lemma {:induction false} FaithfulThroughoutExactly(s: State, actions: seq<Action>, key: string)
    requires Runs(s, actions) && Faithful(s.cache, key)
    ensures FaithfulThroughout(s, actions, key) <==> Unspoilt(s, actions, key)
    decreases |actions|
  {
    if actions != [] {
      hide Enabled, Apply, Spoils, Faithful;
      StaysFaithfulExactly(s, actions[0], key);
      if Faithful(Apply(s, actions[0]).cache, key) {
        FaithfulThroughoutExactly(Apply(s, actions[0]), actions[1..], key);
      }
    }
  }

  // The size limit holds in every interleaving, saved or not.

  lemma StepFits(s: State, a: Action)
    requires Enabled(s, a) && Fits(s.cache) && "" !in s.cache.meta
    ensures Fits(Apply(s, a).cache) && "" !in Apply(s, a).cache.meta
  {
    match a
    case Write(_, _, _) =>
    case Record(i, now, order, saved) =>
      if saved {
        RecordFits(s.cache, s.puts[i], now, order);
      }
    case Locked(op) => LockedFits(s.cache, op);
  }

  lemma {:induction false} LimitHoldsThroughout(s: State, actions: seq<Action>)
    requires Runs(s, actions) && Fits(s.cache) && "" !in s.cache.meta
    ensures Fits(After(s, actions).cache)
    decreases |actions|
  {
    if actions != [] {
      hide Enabled, Apply, Fits;
      StepFits(s, actions[0]);
      LimitHoldsThroughout(Apply(s, actions[0]), actions[1..]);
    }
  }

  // Orderly callers.

  predicate Writing(put: Pc, key: string) {
    put.Recording? && put.key == key
  }

  ghost predicate Pending(s: State, key: string) {
    exists i :: 0 <= i < |s.puts| && Writing(s.puts[i], key)
  }

  /** Puts are for keys without an entry, one at a time, and nobody removes a key that is being put. */
  ghost predicate Orderly(s: State, a: Action) {
    match a
    case Write(key, _, _) => key !in s.cache.meta && !Pending(s, key)
    case Record(_, _, _, _) => true
    case Locked(op) => op.Remove? ==> !Pending(s, op.key)
  }

  /** Metadata and blobs agree, and so they will when the puts that are under way are recorded. */
  ghost predicate Agrees(s: State) {
    && "" !in s.cache.meta
    && (forall key :: Faithful(s.cache, key))
    && (forall i :: 0 <= i < |s.puts| && s.puts[i].Recording? ==>
          s.puts[i].key !in s.cache.meta && InPlace(s.cache, s.puts[i]))
    && (forall i, j :: 0 <= i < j < |s.puts| && s.puts[i].Recording? && s.puts[j].Recording? ==>
          s.puts[i].key != s.puts[j].key)
  }

  /** A key without an entry, and its blob, are left alone by whatever is not about it. */
  predicate LeftAlone(c: Cache, d: Cache, key: string) {
    key !in d.meta && Lookup(d.blobs, key) == Lookup(c.blobs, key)
  }

  lemma LockedLeavesAlone(c: Cache, op: Op, key: string)
    requires !op.Put? && Possible(c, op) && key !in c.meta && (op.Remove? ==> op.key != key)
    ensures LeftAlone(c, Result(c, op), key)
  {
    match op
    case Open(_, _) =>
    case SetPinned(k, pinned, order) =>
      if k in c.meta && !pinned {
        PruningTakesBoth(c.(meta := c.meta[k := c.meta[k].(pinned := pinned)]), order, "", key);
      }
    case Remove(_) =>
    case Prune(order) => PruningTakesBoth(c, order, "", key);
  }

  lemma RecordLeavesAlone(c: Cache, put: Pc, now: int, order: seq<string>, saved: bool, key: string)
    requires put.Recording? && key != put.key && key !in c.meta
    requires saved ==> Lists(order, Entered(c, put.key, put.size, put.pinned, now).meta)
    ensures LeftAlone(c, Recorded(c, put, now, order, saved), key)
  {
    if saved {
      PruningTakesBoth(Entered(c, put.key, put.size, put.pinned, now), order, put.key, key);
      hide Pruned, Lists, GivenUp;
    }
  }

  lemma PendingIsLeftAlone(s: State, a: Action, j: nat)
    requires Enabled(s, a) && Agrees(s) && Orderly(s, a) && j < |s.puts| && s.puts[j].Recording?
    requires a.Record? ==> a.i != j
    ensures LeftAlone(s.cache, Apply(s, a).cache, s.puts[j].key)
  {
    assert Writing(s.puts[j], s.puts[j].key);
    hide Recorded, Result, Lists, Possible;
    match a
    case Write(_, _, _) =>
    case Record(i, now, order, saved) =>
      RecordLeavesAlone(s.cache, s.puts[i], now, order, saved, s.puts[j].key);
    case Locked(op) => LockedLeavesAlone(s.cache, op, s.puts[j].key);
  }

  lemma OrderlySpoilsNothing(s: State, a: Action, key: string)
    requires Enabled(s, a) && Agrees(s) && Orderly(s, a)
    ensures !Spoils(s, a, key)
  {
  }

  lemma OrderlyStepAgrees(s: State, a: Action)
    requires Enabled(s, a) && Agrees(s) && Orderly(s, a) && Fits(s.cache)
    ensures Agrees(Apply(s, a)) && Fits(Apply(s, a).cache)
  {
    var t := Apply(s, a);
    StepFits(s, a);
    forall key ensures Faithful(t.cache, key) {
      OrderlySpoilsNothing(s, a, key);
      StaysFaithfulExactly(s, a, key);
    }
    forall j | 0 <= j < |t.puts| && t.puts[j].Recording?
      ensures t.puts[j].key !in t.cache.meta && InPlace(t.cache, t.puts[j])
    {
      if j < |s.puts| {
        assert s.puts[j] == t.puts[j];
        PendingIsLeftAlone(s, a, j);
      }
    }
    hide Recorded, Result, Fits, Spoils;
    assert a.Write? ==> forall i :: 0 <= i < |s.puts| ==> !Writing(s.puts[i], a.key);
  }

  ghost predicate AllOrderly(s: State, actions: seq<Action>)
    requires Runs(s, actions)
    decreases |actions|
  {
    actions == [] || (Orderly(s, actions[0]) && AllOrderly(Apply(s, actions[0]), actions[1..]))
  }

  /** However puts of different keys, openings, pins and prunes interleave, and whether metadata can be saved or not,
      with orderly callers metadata and blobs agree and the limit holds. */
  lemma {:induction false} OrderlyRunsAgree(s: State, actions: seq<Action>)
    requires Runs(s, actions) && AllOrderly(s, actions) && Agrees(s) && Fits(s.cache)
    ensures Agrees(After(s, actions)) && Fits(After(s, actions).cache)
    decreases |actions|
  {
    if actions != [] {
      hide Enabled, Apply, Orderly, Agrees, Fits;
      OrderlyStepAgrees(s, actions[0]);
      OrderlyRunsAgree(Apply(s, actions[0]), actions[1..]);
    }
  }

  // Disorderly callers.

  /** A cache with one small entry is left as it is by pruning. */
  lemma SmallStays(c: Cache, key: string, protectedKey: string)
    requires c.meta.Keys == {key} && c.meta[key].size <= c.maxBytes
    ensures Lists([key], c.meta) && Pruned(c, [key], protectedKey) == c && Size(c) <= c.maxBytes
  {
    RemovalShrinks(c, key);
    assert Without(c, key).meta == map[];
    assert Sizes(map[]) == map[];
    NothingDropped(c, [key], protectedKey);
  }

  lemma RecordAlone(s: State, i: nat, key: string, size: nat)
    requires ValidKey(key) && i < |s.puts| && s.puts[i] == Recording(key, size, false) && size <= s.cache.maxBytes
    requires s.cache.meta.Keys <= {key}
    ensures var a := Record(i, 0, [key], true);
            && Enabled(s, a)
            && Apply(s, a) == State(s.cache.(meta := map[key := Entry(size, 0, false)]), s.puts[i := Returned])
  {
    var entered := Entered(s.cache, key, size, false, 0);
    assert entered.meta == map[key := Entry(size, 0, false)];
    hide Pruned, Size;
    SmallStays(entered, key, key);
  }

  lemma RunsJoin(s: State, a: Action, b: Action, rest: seq<Action>)
    requires Enabled(s, a) && Enabled(Apply(s, a), b) && Runs(Apply(Apply(s, a), b), rest)
    ensures Runs(s, [a, b] + rest) && After(s, [a, b] + rest) == After(Apply(Apply(s, a), b), rest)
  {
    assert ([a, b] + rest)[1..] == [b] + rest && ([b] + rest)[1..] == rest;
  }

  lemma RunOfTwo(s: State, a: Action, b: Action)
    requires Enabled(s, a) && Enabled(Apply(s, a), b)
    ensures Runs(s, [a, b]) && After(s, [a, b]) == Apply(Apply(s, a), b)
  {
    hide Enabled, Apply;
    assert [a, b] + [] == [a, b];
    RunsJoin(s, a, b, []);
  }

  /** Two puts of one key that are recorded in the other order leave the size of the first over the blob of the
      second. */
  lemma ReversedPutsDisagree(key: string, first: Bytes, second: Bytes, maxBytes: nat) returns (actions: seq<Action>)
    requires ValidKey(key) && |first| != |second| && |first| <= maxBytes && |second| <= maxBytes
    ensures var s := State(Cache(map[], map[], maxBytes), []);
            && Runs(s, actions)
            && After(s, actions) == State(Cache(map[key := Entry(|first|, 0, false)], map[key := second], maxBytes),
                                          [Returned, Returned])
            && !Faithful(After(s, actions).cache, key)
  {
    var s := State(Cache(map[], map[], maxBytes), []);
    var write, again := Write(key, first, false), Write(key, second, false);
    var record, late := Record(1, 0, [key], true), Record(0, 0, [key], true);
    var s1 := Apply(s, write);
    var s2 := Apply(s1, again);
    assert s2 == State(Cache(map[], map[key := second], maxBytes),
                       [Recording(key, |first|, false), Recording(key, |second|, false)]);
    RecordAlone(s2, 1, key, |second|);
    var s3 := Apply(s2, record);
    RecordAlone(s3, 0, key, |first|);
    hide Enabled, Apply, Runs, After;
    RunOfTwo(s2, record, late);
    RunOfTwo(s, write, again);
    RunsJoin(s, write, again, [record, late]);
    actions := [write, again] + [record, late];
  }

  /** No operation but another put corrects a wrong size, short of taking the entry off. */
  lemma WrongSizeStays(c: Cache, op: Op, key: string)
    requires !op.Put? && Possible(c, op) && key in c.meta && key in c.blobs && |c.blobs[key]| != c.meta[key].size
    ensures key in Result(c, op).meta ==> !Faithful(Result(c, op), key)
  {
    match op
    case Open(_, _) =>
    case SetPinned(k, pinned, order) =>
      if k in c.meta && !pinned {
        PruningSpares(c.(meta := c.meta[k := c.meta[k].(pinned := pinned)]), order, "", key);
      }
    case Remove(_) =>
    case Prune(order) => PruningSpares(c, order, "", key);
  }

  /** An operation that takes the key off while a put of it has yet to be recorded leaves an entry without a blob, which
      the next opening drops. */
  lemma RemovedMeanwhileIsDropped(s: State, i: nat, now: int, order: seq<string>, later: int)
    requires Enabled(s, Record(i, now, order, true)) && s.puts[i].key !in s.cache.blobs
    requires !GivenUp(s.cache, s.puts[i], now, order)
    ensures var key, t := s.puts[i].key, Apply(s, Record(i, now, order, true));
            && key in t.cache.meta && key !in t.cache.blobs
            && key !in Result(t.cache, Op.Open(key, later)).meta
  {
    var put := s.puts[i];
    PruningTakesBoth(Entered(s.cache, put.key, put.size, put.pinned, now), order, put.key, put.key);
    hide Pruned, Lists, GivenUp;
  }
}
