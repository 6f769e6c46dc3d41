/** The media cache: blobs with metadata, a size limit, pins, and removal of what was used least recently. */
module MediaCache {
  import opened Common
  import opened Eviction

  datatype Entry = Entry(size: nat, lastAccessed: int, pinned: bool)

  datatype Cache = Cache(meta: map<string, Entry>, blobs: map<string, Bytes>, maxBytes: nat)

  function Sizes(meta: map<string, Entry>): map<string, nat> {
    map key | key in meta :: meta[key].size
  }

  ghost function Size(c: Cache): nat {
    DiskBytes(Sizes(c.meta))
  }

  function Without(c: Cache, key: string): Cache {
    c.(meta := c.meta - {key}, blobs := c.blobs - {key})
  }

  /** `validCacheKey`. */
  predicate ValidKey(key: string) {
    key != "" && '/' !in key && '\\' !in key
  }

  /** The listing the metadata store returns, least recently used first; its order is taken as given. */
  ghost predicate Lists(order: seq<string>, meta: map<string, Entry>) {
    (forall key :: key in order <==> key in meta) && Distinct(order)
  }

  predicate MayGo(c: Cache, key: string, protectedKey: string) {
    key in c.meta && !c.meta[key].pinned && key != protectedKey
  }

  /** What a walk over the listing finds: sizes, and which entries may go. */
  function Items(c: Cache, order: seq<string>, protectedKey: string): seq<Item> {
    seq(|order|, k requires 0 <= k < |order| =>
      Item(if order[k] in c.meta then c.meta[order[k]].size else 0, MayGo(c, order[k], protectedKey)))
  }

  /** The entries among the first `n` that may go. */
  function Gone(c: Cache, order: seq<string>, protectedKey: string, n: nat): set<string>
    requires n <= |order|
  {
    set k | 0 <= k < n && MayGo(c, order[k], protectedKey) :: order[k]
  }

  function Dropped(c: Cache, order: seq<string>, protectedKey: string, n: nat): Cache
    requires n <= |order|
  {
    var gone := Gone(c, order, protectedKey, n);
    c.(meta := c.meta - gone, blobs := c.blobs - gone)
  }

  /** Pruning: the shortest prefix of the listing whose removable entries bring the size down to the limit, or all. */
  ghost function Pruned(c: Cache, order: seq<string>, protectedKey: string): Cache {
    Dropped(c, order, protectedKey, StopFrom(Items(c, order, protectedKey), Size(c) - c.maxBytes, 0))
  }

  // Operations.

  datatype Op =
    | Put(key: string, content: Bytes, pinned: bool, now: int, order: seq<string>)
    | Open(key: string, now: int)
    | SetPinned(key: string, pinned: bool, order: seq<string>)
    | Remove(key: string)
    | Prune(order: seq<string>)

  function Stored(c: Cache, key: string, content: Bytes, pinned: bool, now: int): Cache {
    c.(blobs := c.blobs[key := content], meta := c.meta[key := Entry(|content|, now, pinned)])
  }

  /** Storing prunes around the new entry, and gives it up if it still does not fit. */
  ghost function PutResult(c: Cache, key: string, content: Bytes, pinned: bool, now: int, order: seq<string>): Cache {
    var pruned := Pruned(Stored(c, key, content, pinned, now), order, key);
    if Size(pruned) > c.maxBytes && !pinned then Without(pruned, key) else pruned
  }

  ghost function Result(c: Cache, op: Op): Cache {
    match op
    case Put(key, content, pinned, now, order) => if !ValidKey(key) then c
                                                  else PutResult(c, key, content, pinned, now, order)
    case Open(key, now) =>
      if key !in c.meta then c
      else if key !in c.blobs then c.(meta := c.meta - {key})
      else c.(meta := c.meta[key := c.meta[key].(lastAccessed := now)])
    case SetPinned(key, pinned, order) =>
      if key !in c.meta then c
      else
        var changed := c.(meta := c.meta[key := c.meta[key].(pinned := pinned)]);
        if pinned then changed else Pruned(changed, order, "")
    case Remove(key) => Without(c, key)
    case Prune(order) => Pruned(c, order, "")
  }

  /** The listing an operation works with is the one of the metadata at that time. */
  ghost predicate Possible(c: Cache, op: Op) {
    match op
    case Put(key, content, pinned, now, order) => Lists(order, Stored(c, key, content, pinned, now).meta)
    case SetPinned(_, _, order) => Lists(order, c.meta)
    case Prune(order) => Lists(order, c.meta)
    case _ => true
  }

  // Invariants.

  /** Every entry has a blob of the recorded size. */
  ghost predicate Sound(c: Cache) {
    "" !in c.meta && forall key :: key in c.meta ==> key in c.blobs && |c.blobs[key]| == c.meta[key].size
  }

  ghost predicate Fits(c: Cache) {
    Size(c) <= c.maxBytes || forall key :: key in c.meta ==> c.meta[key].pinned
  }

  // Sizes.

  lemma RemovalShrinks(c: Cache, key: string)
    requires key in c.meta
    ensures Size(Without(c, key)) == Size(c) - c.meta[key].size
  {
    assert Sizes(c.meta - {key}) == Sizes(c.meta) - {key};
    DeleteTakesItsSize(Sizes(c.meta), key);
  }

  lemma DroppedByOneMore(c: Cache, order: seq<string>, protectedKey: string, n: nat)
    requires n < |order| && Lists(order, c.meta)
    ensures var before := Dropped(c, order, protectedKey, n);
            && order[n] in c.meta && order[n] in before.meta && before.meta[order[n]] == c.meta[order[n]]
            && Dropped(c, order, protectedKey, n + 1) == if MayGo(c, order[n], protectedKey) then
                 Without(before, order[n]) else before
  {
    var gone := Gone(c, order, protectedKey, n);
    assert order[n] in order && order[n] !in gone;
    if MayGo(c, order[n], protectedKey) {
      assert Gone(c, order, protectedKey, n + 1) == gone + {order[n]};
      assert c.meta - (gone + {order[n]}) == (c.meta - gone) - {order[n]};
      assert c.blobs - (gone + {order[n]}) == (c.blobs - gone) - {order[n]};
    } else {
      assert Gone(c, order, protectedKey, n + 1) == gone;
    }
  }

  lemma NothingDropped(c: Cache, order: seq<string>, protectedKey: string)
    ensures Dropped(c, order, protectedKey, 0) == c
  {
    assert Gone(c, order, protectedKey, 0) == {};
    assert c.meta - {} == c.meta && c.blobs - {} == c.blobs;
  }

  /** What is dropped is what the walk counts as freed. */
  lemma {:induction false} DroppedShrinks(c: Cache, order: seq<string>, protectedKey: string, n: nat)
    requires n <= |order| && Lists(order, c.meta)
    ensures Size(Dropped(c, order, protectedKey, n)) == Size(c) - Freed(Items(c, order, protectedKey), n)
  {
    hide Dropped, Size, Without;
    if n == 0 {
      NothingDropped(c, order, protectedKey);
    } else {
      DroppedShrinks(c, order, protectedKey, n - 1);
      DroppedByOneMore(c, order, protectedKey, n - 1);
      hide Lists;
      if MayGo(c, order[n - 1], protectedKey) {
        RemovalShrinks(Dropped(c, order, protectedKey, n - 1), order[n - 1]);
      }
    }
  }

  /** After the whole listing only entries that may not go are left. */
  lemma WhatIsLeft(c: Cache, order: seq<string>, protectedKey: string, key: string)
    requires Lists(order, c.meta) && key in Dropped(c, order, protectedKey, |order|).meta
    ensures key in c.meta && !MayGo(c, key, protectedKey)
            && Dropped(c, order, protectedKey, |order|).meta[key] == c.meta[key]
  {
    assert key in order;
    var k :| 0 <= k < |order| && order[k] == key;
    assert !MayGo(c, order[k], protectedKey);
  }

  /** After pruning the cache is within its limit, or everything left is pinned or protected. */
  lemma PrunedFits(c: Cache, order: seq<string>, protectedKey: string)
    requires Lists(order, c.meta)
    ensures var p := Pruned(c, order, protectedKey);
            Size(p) <= c.maxBytes || forall key :: key in p.meta ==> p.meta[key].pinned || key == protectedKey
  {
    hide Dropped, Size, Freed, MayGo;
    var n := StopFrom(Items(c, order, protectedKey), Size(c) - c.maxBytes, 0);
    DroppedShrinks(c, order, protectedKey, n);
    if n == |order| {
      LeftAreSpared(c, order, protectedKey);
    }
  }

  lemma LeftAreSpared(c: Cache, order: seq<string>, protectedKey: string)
    requires Lists(order, c.meta)
    ensures var p := Dropped(c, order, protectedKey, |order|);
            forall key :: key in p.meta ==> p.meta[key].pinned || key == protectedKey
  {
    hide Dropped, Lists;
    forall key | key in Dropped(c, order, protectedKey, |order|).meta
      ensures Dropped(c, order, protectedKey, |order|).meta[key].pinned || key == protectedKey
    {
      WhatIsLeft(c, order, protectedKey, key);
    }
  }

  /** Pruning keeps pinned and protected entries, and all that it keeps stays as it was. */
  lemma PruningSpares(c: Cache, order: seq<string>, protectedKey: string, key: string)
    requires Lists(order, c.meta) && key in c.meta
    ensures var p := Pruned(c, order, protectedKey);
            && (!MayGo(c, key, protectedKey) ==> key in p.meta)
            && (key in p.meta ==> p.meta[key] == c.meta[key] && (key in p.blobs <==> key in c.blobs)
                                  && (key in c.blobs ==> p.blobs[key] == c.blobs[key]))
  {
  }

  lemma PrunedIsSound(c: Cache, order: seq<string>, protectedKey: string)
    requires Sound(c) && Lists(order, c.meta)
    ensures Sound(Pruned(c, order, protectedKey))
  {
    forall key | key in Pruned(c, order, protectedKey).meta
      ensures key in Pruned(c, order, protectedKey).blobs
      ensures |Pruned(c, order, protectedKey).blobs[key]| == Pruned(c, order, protectedKey).meta[key].size
    {
      PruningSpares(c, order, protectedKey, key);
    }
  }

  lemma StoredIsSound(c: Cache, key: string, content: Bytes, pinned: bool, now: int)
    requires Sound(c) && ValidKey(key)
    ensures Sound(Stored(c, key, content, pinned, now)) && key in Stored(c, key, content, pinned, now).meta
    ensures Stored(c, key, content, pinned, now).meta[key].pinned == pinned
    ensures Stored(c, key, content, pinned, now).maxBytes == c.maxBytes
  {
  }

  lemma PrunedKeepsLimit(c: Cache, order: seq<string>, protectedKey: string)
    ensures Pruned(c, order, protectedKey).maxBytes == c.maxBytes
  {
    hide Items, StopFrom, Size, Gone;
  }

  /** A cache whose entries are all pinned, or the one put last, fits once that is given up or pinned itself. */
  lemma GivenUpFits(c: Cache, key: string, pinned: bool)
    requires Sound(c) && key in c.meta && c.meta[key].pinned == pinned
    requires Size(c) <= c.maxBytes || forall k :: k in c.meta ==> c.meta[k].pinned || k == key
    ensures var result := if Size(c) > c.maxBytes && !pinned then Without(c, key) else c; Sound(result) && Fits(result)
  {
    hide Size;
  }

  lemma PutKeeps(c: Cache, key: string, content: Bytes, pinned: bool, now: int, order: seq<string>)
    requires Sound(c) && ValidKey(key) && Lists(order, Stored(c, key, content, pinned, now).meta)
    ensures Sound(PutResult(c, key, content, pinned, now, order))
            && Fits(PutResult(c, key, content, pinned, now, order))
  {
    hide Sound, Fits, Size, Pruned, Stored, Lists;
    var stored := Stored(c, key, content, pinned, now);
    StoredIsSound(c, key, content, pinned, now);
    PrunedIsSound(stored, order, key);
    PrunedFits(stored, order, key);
    PruningSpares(stored, order, key, key);
    PrunedKeepsLimit(stored, order, key);
    GivenUpFits(Pruned(stored, order, key), key, pinned);
  }

  lemma OpenKeeps(c: Cache, key: string, now: int)
    requires Sound(c) && Fits(c)
    ensures Sound(Result(c, Op.Open(key, now))) && Fits(Result(c, Op.Open(key, now)))
  {
    if key in c.meta {
      assert Sizes(Result(c, Op.Open(key, now)).meta) == Sizes(c.meta);
    }
  }

  lemma SetPinnedKeeps(c: Cache, key: string, pinned: bool, order: seq<string>)
    requires Sound(c) && Fits(c) && Lists(order, c.meta)
    ensures Sound(Result(c, Op.SetPinned(key, pinned, order))) && Fits(Result(c, Op.SetPinned(key, pinned, order)))
  {
    if key in c.meta {
      var changed := c.(meta := c.meta[key := c.meta[key].(pinned := pinned)]);
      assert Sizes(changed.meta) == Sizes(c.meta);
      assert Sound(changed) && Lists(order, changed.meta);
      if !pinned {
        PruneRestores(changed, order);
        hide Sound, Fits, Pruned, Lists;
        assert Result(changed, Op.Prune(order)) == Pruned(changed, order, "");
      }
    }
  }

  lemma RemoveKeeps(c: Cache, key: string)
    requires Sound(c) && Fits(c)
    ensures Sound(Without(c, key)) && Fits(Without(c, key))
  {
    if key in c.meta {
      RemovalShrinks(c, key);
    } else {
      assert Without(c, key).meta == c.meta;
    }
  }

  /** One prune brings any sound cache there, whatever state it was left in. */
  lemma PruneRestores(c: Cache, order: seq<string>)
    requires Sound(c) && Lists(order, c.meta)
    ensures Sound(Result(c, Prune(order))) && Fits(Result(c, Prune(order)))
  {
    PrunedIsSound(c, order, "");
    PrunedFits(c, order, "");
    assert "" !in Pruned(c, order, "").meta;
  }

  lemma ResultKeepsLimit(c: Cache, op: Op)
    ensures Result(c, op).maxBytes == c.maxBytes
  {
    hide Items, StopFrom, Size;
  }

  /** Each operation keeps the metadata right and the cache within its limit (or pinned). */
  lemma StepKeeps(c: Cache, op: Op)
    requires Sound(c) && Fits(c) && Possible(c, op)
    ensures Sound(Result(c, op)) && Fits(Result(c, op)) && Result(c, op).maxBytes == c.maxBytes
  {
    hide Sound, Fits, Lists, Pruned, Stored, PutResult;
    ResultKeepsLimit(c, op);
    match op
    case Put(key, content, pinned, now, order) =>
      if ValidKey(key) {
        PutKeeps(c, key, content, pinned, now, order);
      }
    case Open(key, now) => OpenKeeps(c, key, now);
    case SetPinned(key, pinned, order) => SetPinnedKeeps(c, key, pinned, order);
    case Remove(key) => RemoveKeeps(c, key);
    case Prune(order) => PruneRestores(c, order);
  }

  ghost predicate Runs(c: Cache, ops: seq<Op>)
    decreases |ops|
  {
    ops == [] || (Possible(c, ops[0]) && Runs(Result(c, ops[0]), ops[1..]))
  }

  ghost function After(c: Cache, ops: seq<Op>): Cache
    decreases |ops|
  {
    if ops == [] then c else After(Result(c, ops[0]), ops[1..])
  }

  /** Over any sequence of operations. */
  lemma {:induction false} RunKeeps(c: Cache, ops: seq<Op>)
    requires Sound(c) && Fits(c) && Runs(c, ops)
    ensures Sound(After(c, ops)) && Fits(After(c, ops))
    decreases |ops|
  {
    if ops != [] {
      StepKeeps(c, ops[0]);
      hide Sound, Fits, Result, Possible;
      RunKeeps(Result(c, ops[0]), ops[1..]);
    }
  }

  /** The first prefix after which the cache fits is where pruning stops. */
  lemma PrunedStopsHere(c: Cache, order: seq<string>, protectedKey: string, n: nat)
    requires n <= |order| && Lists(order, c.meta)
    requires forall l :: 0 <= l < n ==> Size(Dropped(c, order, protectedKey, l)) > c.maxBytes
    requires n < |order| ==> Size(Dropped(c, order, protectedKey, n)) <= c.maxBytes
    ensures StopsAt(Items(c, order, protectedKey), Size(c) - c.maxBytes, n)
    ensures Pruned(c, order, protectedKey) == Dropped(c, order, protectedKey, n)
  {
    var items, request := Items(c, order, protectedKey), Size(c) - c.maxBytes;
    hide Dropped, Size;
    forall l | 0 <= l < n ensures Freed(items, l) < request {
      DroppedShrinks(c, order, protectedKey, l);
    }
    DroppedShrinks(c, order, protectedKey, n);
    StopIsUnique(items, request, n, StopFrom(items, request, 0));
  }

  // The object.

  function SumOf(c: Cache, order: seq<string>, n: nat): nat
    requires n <= |order|
  {
    if n == 0 then 0 else SumOf(c, order, n - 1) + (if order[n - 1] in c.meta then c.meta[order[n - 1]].size else 0)
  }

  lemma {:induction false} SumIsSize(c: Cache, order: seq<string>, n: nat)
    requires n <= |order| && Distinct(order)
    requires forall key :: key in c.meta <==> key in order[..n]
    ensures SumOf(c, order, n) == Size(c)
    decreases n
  {
    if n == 0 {
      assert c.meta == map[];
      assert Sizes(c.meta) == map[];
    } else {
      var last := order[n - 1];
      assert order[..n] == order[..n - 1] + [last];
      assert last in order[..n];
      RemovalShrinks(c, last);
      SumIsSize(Without(c, last), order, n - 1);
      SumSkips(c, order, n - 1, last);
    }
  }

  lemma {:induction false} SumSkips(c: Cache, order: seq<string>, n: nat, key: string)
    requires n <= |order| && key !in order[..n]
    ensures SumOf(Without(c, key), order, n) == SumOf(c, order, n)
  {
    if n > 0 {
      assert order[..n] == order[..n - 1] + [order[n - 1]];
      SumSkips(c, order, n - 1, key);
    }
  }

  class Store {
    const maxBytes: nat
    var meta: map<string, Entry>
    var blobs: map<string, Bytes>

    function Abs(): Cache
      reads this
    {
      Cache(meta, blobs, maxBytes)
    }

    method RemoveLocked(key: string)
      modifies this
      ensures Abs() == Without(old(Abs()), key)
    {
      blobs := blobs - {key};
      meta := meta - {key};
    }

    method TotalSize(order: seq<string>) returns (size: nat)
      requires Lists(order, meta)
      ensures size == Size(Abs())
    {
      size := 0;
      var k := 0;
      while k < |order|
        invariant k <= |order| && size == SumOf(Abs(), order, k)
      {
        assert order[k] in order;
        size := size + meta[order[k]].size;
        k := k + 1;
      }
      assert order[..k] == order;
      SumIsSize(Abs(), order, k);
    }

    /** The loop's body: an entry that may go goes. */
    method ExamineOne(key: string, protectedKey: string, size: nat) returns (left: nat)
      requires key in meta && size == Size(Abs())
      modifies this
      ensures Abs() == if MayGo(old(Abs()), key, protectedKey) then Without(old(Abs()), key) else old(Abs())
      ensures left == Size(Abs())
    {
      hide Size;
      left := size;
      var entry := meta[key];
      if !(entry.pinned || key == protectedKey) {
        RemovalShrinks(Abs(), key);
        RemoveLocked(key);
        left := left - entry.size;
      }
    }

    /** The second loop of `pruneLocked`. */
    method DropUntilItFits(order: seq<string>, protectedKey: string, size: nat) returns (left: nat, n: nat)
      requires Lists(order, meta) && size == Size(Abs())
      modifies this
      ensures n <= |order| && left == Size(Abs())
      ensures Abs() == Dropped(old(Abs()), order, protectedKey, n)
      ensures forall l :: 0 <= l < n ==> Size(Dropped(old(Abs()), order, protectedKey, l)) > maxBytes
      ensures n < |order| ==> left <= maxBytes
    {
      ghost var c := Abs();
      NothingDropped(c, order, protectedKey);
      hide Dropped, Size, Without;
      left, n := size, 0;
      while n < |order| && left > maxBytes
        invariant n <= |order| && left == Size(Abs())
        invariant Abs() == Dropped(c, order, protectedKey, n)
        invariant forall l :: 0 <= l < n ==> Size(Dropped(c, order, protectedKey, l)) > maxBytes
      {
        DroppedByOneMore(c, order, protectedKey, n);
        left := ExamineOne(order[n], protectedKey, left);
        n := n + 1;
      }
    }

    /** `pruneLocked`; `n` is where its second loop stops. */
    method PruneLocked(order: seq<string>, protectedKey: string) returns (size: nat, n: nat)
      requires Lists(order, meta)
      modifies this
      ensures Abs() == Pruned(old(Abs()), order, protectedKey)
      ensures size == Size(Abs())
      ensures n <= |order| && Abs() == Dropped(old(Abs()), order, protectedKey, n)
      ensures StopsAt(Items(old(Abs()), order, protectedKey), Size(old(Abs())) - maxBytes, n)
    {
      hide Dropped, Size, Pruned, Items, StopsAt;
      size := TotalSize(order);
      size, n := DropUntilItFits(order, protectedKey, size);
      PrunedStopsHere(old(Abs()), order, protectedKey, n);
    }

    method Put(key: string, content: Bytes, pinned: bool, now: int, order: seq<string>) returns (ok: bool)
      requires Lists(order, Stored(Abs(), key, content, pinned, now).meta)
      modifies this
      ensures Abs() == Result(old(Abs()), Op.Put(key, content, pinned, now, order))
      ensures !ok ==> key !in meta || !ValidKey(key)
    {
      if !ValidKey(key) {
        return false;
      }
      blobs := blobs[key := content];
      meta := meta[key := Entry(|content|, now, pinned)];
      var remaining, _ := PruneLocked(order, key);
      if remaining > maxBytes && !pinned {
        RemoveLocked(key);
        return false;
      }
      return true;
    }

    method SetPinned(key: string, pinned: bool, order: seq<string>) returns (found: bool)
      requires Lists(order, meta)
      modifies this
      ensures found == (key in old(meta))
      ensures Abs() == Result(old(Abs()), Op.SetPinned(key, pinned, order))
    {
      if key !in meta {
        return false;
      }
      meta := meta[key := meta[key].(pinned := pinned)];
      if !pinned {
        var _, _ := PruneLocked(order, "");
      }
      return true;
    }

    method Open(key: string, now: int) returns (content: Option<Bytes>)
      modifies this`meta
      ensures content == if key in old(meta) && key in blobs then Some(blobs[key]) else None
      ensures Abs() == Result(old(Abs()), Op.Open(key, now))
    {
      if key !in meta {
        return None;
      }
      if key !in blobs {
        meta := meta - {key};
        return None;
      }
      meta := meta[key := meta[key].(lastAccessed := now)];
      return Some(blobs[key]);
    }
  }
}
