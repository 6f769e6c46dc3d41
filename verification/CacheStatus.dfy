/** The combined cache: one shared media cache and several provider caches under one capacity. */
module CacheStatus {
  import opened Common
  import opened Eviction

  /** A provider cache: how much it uses and, if it can evict, how many bytes it says it has freed for a request.
      `items`, what it would find in age order, is there for the proofs only. */
  datatype Source =
    | Plain(usage: nat, entries: nat)
    | Evictor(usage: nat, entries: nat, items: seq<Item>, evict: int -> nat)

  /** The contract of every provider's `Evict`, however it goes about it: for each request its walk stops at the first
      prefix that frees enough, or has dealt with everything, and it reports what that prefix frees. */
  ghost predicate Evicts(source: Source) {
    source.Evictor? ==> forall request: int :: request > 0 ==> Answers(source.items, request, source.evict(request))
  }

  datatype Stats = Stats(size: int, entries: int, capacity: int)

  function Usage(sources: seq<Source>, n: nat): nat
    requires n <= |sources|
  {
    if n == 0 then 0 else Usage(sources, n - 1) + sources[n - 1].usage
  }

  function Entries(sources: seq<Source>, n: nat): nat
    requires n <= |sources|
  {
    if n == 0 then 0 else Entries(sources, n - 1) + sources[n - 1].entries
  }

  function ItemsOf(source: Source): seq<Item> {
    if source.Evictor? then source.items else []
  }

  /** Everything the first `n` providers could evict, provider after provider. */
  function AllItems(sources: seq<Source>, n: nat): seq<Item>
    requires n <= |sources|
  {
    if n == 0 then [] else AllItems(sources, n - 1) + ItemsOf(sources[n - 1])
  }

  lemma {:induction false} FreedInFront(a: seq<Item>, b: seq<Item>, n: nat)
    requires n <= |a|
    ensures Freed(a + b, n) == Freed(a, n)
  {
    if n > 0 {
      FreedInFront(a, b, n - 1);
    }
  }

  lemma {:induction false} FreedBehind(a: seq<Item>, b: seq<Item>, n: nat)
    requires n <= |b|
    ensures Freed(a + b, |a| + n) == Freed(a, |a|) + Freed(b, n)
  {
    if n == 0 {
      FreedInFront(a, b, |a|);
    } else {
      FreedBehind(a, b, n - 1);
    }
  }

  /** However far one walks, the request is not met. */
  ghost predicate FallsShort(items: seq<Item>, request: int) {
    forall k :: 0 <= k <= |items| ==> Freed(items, k) < request
  }

  /** Asking the next provider for what is still missing continues the same walk. */
  lemma WalkContinues(a: seq<Item>, b: seq<Item>, request: int, n: nat)
    requires FallsShort(a, request) && StopsAt(b, request - Freed(a, |a|), n)
    ensures StopsAt(a + b, request, |a| + n)
    ensures Freed(a + b, |a| + n) == Freed(a, |a|) + Freed(b, n)
    ensures Freed(a, |a|) + Freed(b, n) < request ==> n == |b| && FallsShort(a + b, request)
  {
    FreedBehind(a, b, n);
    forall k | 0 <= k < |a| + n ensures Freed(a + b, k) < request {
      if k <= |a| {
        FreedInFront(a, b, k);
      } else {
        FreedBehind(a, b, k - |a|);
      }
    }
  }

  lemma ShortfallStopsNowhere(items: seq<Item>, request: int)
    requires FallsShort(items, request)
    ensures StopsAt(items, request, |items|)
  {
  }

  /** A walk that has stopped is not affected by what comes behind. */
  lemma WalkStays(a: seq<Item>, b: seq<Item>, request: int, n: nat)
    requires StopsAt(a, request, n) && Freed(a, n) >= request
    ensures StopsAt(a + b, request, n) && Freed(a + b, n) == Freed(a, n)
  {
    FreedInFront(a, b, n);
    forall k | 0 <= k < n ensures Freed(a + b, k) < request {
      FreedInFront(a, b, k);
    }
  }

  lemma {:induction false} StopsAmongAll(sources: seq<Source>, k: nat, request: int, n: nat)
    requires k <= |sources| && StopsAt(AllItems(sources, k), request, n) && Freed(AllItems(sources, k), n) >= request
    ensures StopsAt(AllItems(sources, |sources|), request, n)
    ensures Freed(AllItems(sources, |sources|), n) == Freed(AllItems(sources, k), n)
    decreases |sources| - k
  {
    if k < |sources| {
      WalkStays(AllItems(sources, k), ItemsOf(sources[k]), request, n);
      StopsAmongAll(sources, k + 1, request, n);
    }
  }

  method CombinedStats(primary: Stats, sources: seq<Source>) returns (stats: Stats)
    ensures stats
            == Stats(primary.size + Usage(sources, |sources|), primary.entries + Entries(sources, |sources|),
                     primary.capacity)
  {
    stats := primary;
    for k := 0 to |sources|
      invariant stats
                == Stats(primary.size + Usage(sources, k), primary.entries + Entries(sources, k), primary.capacity)
    {
      stats := stats.(size := stats.size + sources[k].usage);
      stats := stats.(entries := stats.entries + sources[k].entries);
    }
  }

  /** Asking provider `k` for what is still missing leads on in the one walk over everything. */
  lemma ProviderContinues(sources: seq<Source>, k: nat, request: int, freed: nat) returns (n: nat)
    requires k < |sources| && sources[k].Evictor? && Evicts(sources[k])
    requires FallsShort(AllItems(sources, k), request) && freed == Freed(AllItems(sources, k), |AllItems(sources, k)|)
    ensures var items, more := AllItems(sources, k + 1), sources[k].evict(request - freed);
            && n <= |items| && Freed(items, n) == freed + more
            && (freed + more >= request ==> StopsAt(items, request, n))
            && (freed + more < request ==> n == |items| && FallsShort(items, request))
  {
    var before, items := AllItems(sources, k), sources[k].items;
    assert freed < request;
    assert Answers(items, request - freed, sources[k].evict(request - freed));
    var stop :| StopsAt(items, request - freed, stop) && sources[k].evict(request - freed) == Freed(items, stop);
    WalkContinues(before, items, request, stop);
    assert AllItems(sources, k + 1) == before + items;
    n := |before| + stop;
  }

  lemma NothingAsked(sources: seq<Source>, request: int)
    requires request > 0
    ensures FallsShort(AllItems(sources, 0), request) && AllItems(sources, 0) == []
            && Freed(AllItems(sources, 0), 0) == 0
  {
  }

  lemma PlainAddsNothing(sources: seq<Source>, k: nat)
    requires k < |sources| && sources[k].Plain?
    ensures AllItems(sources, k + 1) == AllItems(sources, k)
  {
  }

  /** Asks each provider in turn for what is still missing. `failing` is the provider whose eviction fails, if any.
      Without a failure the providers' separate walks are one walk over everything they could evict: it stops at the
      first prefix that covers the excess, or has exhausted every provider. */
  method Prune(primary: Stats, sources: seq<Source>, failing: Option<nat>) returns (ok: bool, freed: nat)
    requires forall k :: 0 <= k < |sources| ==> Evicts(sources[k])
    ensures var excess := primary.size + Usage(sources, |sources|) - primary.capacity;
            var items := AllItems(sources, |sources|);
            && (excess <= 0 ==> ok && freed == 0)
            && (excess > 0 && ok ==> Answers(items, excess, freed))
            && (ok ==> freed >= excess || freed == Freed(items, |items|))
    ensures !ok ==>
              && failing.Some? && failing.value < |sources|
              && freed == Freed(AllItems(sources, failing.value), |AllItems(sources, failing.value)|)
              && freed < primary.size + Usage(sources, |sources|) - primary.capacity
  {
    hide FallsShort, Freed, Evicts, StopsAt, AllItems, Usage, Entries;
    freed, ok := 0, true;
    ghost var n := 0;
    var stats := CombinedStats(primary, sources);
    var remaining := stats.size - stats.capacity;
    ghost var excess := remaining;
    if remaining <= 0 {
      return;
    }
    var k := 0;
    NothingAsked(sources, excess);
    while k < |sources|
      invariant k <= |sources| && ok && n == |AllItems(sources, k)| && freed == Freed(AllItems(sources, k), n)
      invariant remaining == excess - freed > 0
      invariant FallsShort(AllItems(sources, k), excess)
    {
      if sources[k].Evictor? {
        if failing == Some(k) {
          ok := false;
          return;
        }
        n := ProviderContinues(sources, k, excess, freed);
        var more := sources[k].evict(remaining);
        freed := freed + more;
        remaining := remaining - more;
        if remaining <= 0 {
          StopsAmongAll(sources, k + 1, excess, n);
          return;
        }
      } else {
        PlainAddsNothing(sources, k);
      }
      k := k + 1;
    }
    ShortfallStopsNowhere(AllItems(sources, |sources|), excess);
  }

  /** The walk over a list, looked for from its start, keeps the contract. */
  lemma WalkingEvicts(usage: nat, entries: nat, items: seq<Item>)
    ensures Evicts(Evictor(usage, entries, items, request => Freed(items, StopFrom(items, request, 0))))
  {
  }
}
