/** What "evict the oldest files until enough bytes are free" means, for any provider.

    An examined item is either skipped or frees its size. A provider walks its candidates in age order and must
    stop at the first prefix that frees the requested bytes. */
module Eviction {

  datatype Item = Item(size: nat, eligible: bool)

  /** Bytes freed by the first `n` items. */
  function Freed(items: seq<Item>, n: nat): nat
    requires n <= |items|
  {
    if n == 0 then 0 else Freed(items, n - 1) + (if items[n - 1].eligible then items[n - 1].size else 0)
  }

  /** `n` is where a walk stops: no shorter prefix frees enough, and this one does unless it is everything. */
  ghost predicate StopsAt(items: seq<Item>, request: int, n: nat) {
    && n <= |items|
    && (forall k :: 0 <= k < n ==> Freed(items, k) < request)
    && (n < |items| ==> Freed(items, n) >= request)
  }

  /** The stopping point is unique, so a provider's answer is determined by its candidate order. */
  lemma StopIsUnique(items: seq<Item>, request: int, n: nat, m: nat)
    requires StopsAt(items, request, n) && StopsAt(items, request, m)
    ensures n == m
  {
  }

  /** The stopping point itself, looked for from `n` on. */
  function StopFrom(items: seq<Item>, request: int, n: nat): (stop: nat)
    requires n <= |items| && forall k :: 0 <= k < n ==> Freed(items, k) < request
    ensures StopsAt(items, request, stop)
    decreases |items| - n
  {
    if n == |items| || Freed(items, n) >= request then n else StopFrom(items, request, n + 1)
  }

  /** What a provider may report for a request: the bytes freed up to where its walk over `items` stops. */
  ghost predicate Answers(items: seq<Item>, request: int, freed: nat) {
    exists n :: StopsAt(items, request, n) && freed == Freed(items, n)
  }

  // Sorting candidates.

  ghost predicate AgeOrdered<T>(items: seq<T>, age: T -> nat) {
    forall i, j :: 0 <= i < j < |items| ==> age(items[i]) <= age(items[j])
  }

  function Inserted<T>(sorted: seq<T>, item: T, age: T -> nat): seq<T> {
    if sorted == [] || age(sorted[|sorted| - 1]) <= age(item) then sorted + [item]
    else Inserted(sorted[..|sorted| - 1], item, age) + [sorted[|sorted| - 1]]
  }

  /** One of the orders in which `sort.Slice` may leave the candidates. */
  function SortedByAge<T>(items: seq<T>, age: T -> nat): seq<T> {
    if items == [] then [] else Inserted(SortedByAge(items[..|items| - 1], age), items[|items| - 1], age)
  }

  lemma {:induction false} InsertedElements<T>(sorted: seq<T>, item: T, age: T -> nat)
    ensures multiset(Inserted(sorted, item, age)) == multiset(sorted) + multiset{item}
  {
    if sorted != [] && age(sorted[|sorted| - 1]) > age(item) {
      InsertedElements(sorted[..|sorted| - 1], item, age);
      assert sorted == sorted[..|sorted| - 1] + [sorted[|sorted| - 1]];
    }
  }

  lemma OrderedWithLast<T>(items: seq<T>, last: T, age: T -> nat)
    requires AgeOrdered(items, age) && forall x :: x in items ==> age(x) <= age(last)
    ensures AgeOrdered(items + [last], age)
  {
    assert forall i :: 0 <= i < |items| ==> items[i] in items;
  }

  lemma OrderedFront<T>(items: seq<T>, age: T -> nat)
    requires items != [] && AgeOrdered(items, age)
    ensures AgeOrdered(items[..|items| - 1], age)
    ensures forall x :: x in items ==> age(x) <= age(items[|items| - 1])
  {
  }

  lemma {:induction false} InsertedIsOrdered<T>(sorted: seq<T>, item: T, age: T -> nat)
    requires AgeOrdered(sorted, age)
    ensures AgeOrdered(Inserted(sorted, item, age), age)
  {
    hide AgeOrdered;
    if sorted == [] {
      OrderedAlone(item, age);
    } else {
      OrderedFront(sorted, age);
      var few, last := sorted[..|sorted| - 1], sorted[|sorted| - 1];
      if age(last) <= age(item) {
        OrderedWithLast(sorted, item, age);
      } else {
        InsertedIsOrdered(few, item, age);
        InsertedElements(few, item, age);
        var rest := Inserted(few, item, age);
        forall x | x in rest ensures age(x) <= age(last) {
          assert x in multiset(rest);
          assert x == item || x in multiset(few);
        }
        OrderedWithLast(rest, last, age);
      }
    }
  }

  lemma OrderedAlone<T>(item: T, age: T -> nat)
    ensures AgeOrdered([item], age) && [] + [item] == [item]
  {
  }

  lemma {:induction false} SortedIsRight<T>(items: seq<T>, age: T -> nat)
    ensures AgeOrdered(SortedByAge(items, age), age) && multiset(SortedByAge(items, age)) == multiset(items)
  {
    if items != [] {
      var few, last := items[..|items| - 1], items[|items| - 1];
      assert items == few + [last];
      SortedIsRight(few, age);
      InsertedIsOrdered(SortedByAge(few, age), last, age);
      InsertedElements(SortedByAge(few, age), last, age);
      hide Inserted;
    }
  }

  /** A permutation has the same elements, and as few twice. */
  lemma PermutationKeepsDistinct<T>(a: seq<T>, b: seq<T>)
    requires multiset(a) == multiset(b) && forall i, j :: 0 <= i < j < |a| ==> a[i] != a[j]
    ensures forall i, j :: 0 <= i < j < |b| ==> b[i] != b[j]
    ensures forall x :: x in a <==> x in b
  {
    assert forall x :: x in a <==> x in multiset(a);
    assert forall x :: x in b <==> x in multiset(b);
    forall i, j | 0 <= i < j < |b| ensures b[i] != b[j] {
      if b[i] == b[j] {
        assert b == b[..i] + [b[i]] + b[i + 1..j] + [b[j]] + b[j + 1..];
        assert multiset(b)[b[i]] >= 2;
        DistinctMeansOnce(a, b[i]);
        assert false;
      }
    }
  }

  lemma {:induction false} DistinctMeansOnce<T>(a: seq<T>, x: T)
    requires forall i, j :: 0 <= i < j < |a| ==> a[i] != a[j]
    ensures multiset(a)[x] <= 1
  {
    if a != [] {
      var few, last := a[..|a| - 1], a[|a| - 1];
      assert a == few + [last];
      DistinctMeansOnce(few, x);
      if x == last {
        assert x !in few;
        assert x !in multiset(few);
      }
    }
  }

  /** Bytes on a disk given as a map from path to size. */
  ghost function DiskBytes<P(!new)>(disk: map<P, nat>): nat
    decreases |disk|
  {
    if disk == map[] then 0
    else
      var path :| path in disk;
      assert |disk - {path}| < |disk| by { assert (disk - {path}).Keys == disk.Keys - {path}; }
      disk[path] + DiskBytes(disk - {path})
  }

  /** Deleting one file takes exactly its size off the disk, whichever file the sum starts with. */
  lemma {:induction false} DeleteTakesItsSize<P(!new)>(disk: map<P, nat>, gone: P)
    requires gone in disk
    ensures DiskBytes(disk - {gone}) == DiskBytes(disk) - disk[gone]
    decreases |disk|
  {
    var path :| path in disk && DiskBytes(disk) == disk[path] + DiskBytes(disk - {path});
    if path != gone {
      assert (disk - {path}).Keys == disk.Keys - {path} && (disk - {gone}).Keys == disk.Keys - {gone};
      DeleteTakesItsSize(disk - {path}, gone);
      DeleteTakesItsSize(disk - {gone}, path);
      assert disk - {path} - {gone} == disk - {gone} - {path};
    }
  }
}
