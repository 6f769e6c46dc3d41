/** Counting owners of a resource over the threads (or heap cells) of a step machine.

    `owns(t, r)` says how many units of resource `r` the element `t` holds; `Total` adds them up.
    Every machine below states its conservation laws as "a shared counter equals a Total". */
module Counting {

  /** A Go `map[string]int` read: a missing key counts as zero. */
  function Count<K>(m: map<K, nat>, k: K): nat {
    if k in m then m[k] else 0
  }

  /** Go maps used as counters never keep an entry that has dropped to zero. */
  ghost predicate Positive<K(!new)>(m: map<K, nat>) {
    forall k :: k in m ==> m[k] > 0
  }

  function Total<T, R>(ts: seq<T>, owns: (T, R) -> nat, r: R): nat {
    if |ts| == 0 then 0 else Total(ts[..|ts| - 1], owns, r) + owns(ts[|ts| - 1], r)
  }

  lemma {:induction false} TotalUpdate<T, R>(ts: seq<T>, owns: (T, R) -> nat, r: R, i: nat, t: T)
    requires i < |ts|
    ensures Total(ts[i := t], owns, r) == Total(ts, owns, r) - owns(ts[i], r) + owns(t, r)
  {
    var n := |ts| - 1;
    if i == n {
      assert ts[i := t][..n] == ts[..n];
    } else {
      TotalUpdate(ts[..n], owns, r, i, t);
      assert ts[i := t][..n] == ts[..n][i := t];
    }
  }

  lemma TotalAppend<T, R>(ts: seq<T>, owns: (T, R) -> nat, r: R, t: T)
    ensures Total(ts + [t], owns, r) == Total(ts, owns, r) + owns(t, r)
  {
    assert (ts + [t])[..|ts|] == ts;
  }

  /** Two different elements contribute separately; one element contributes at least itself. */
  lemma {:induction false} TotalAtLeast<T, R>(ts: seq<T>, owns: (T, R) -> nat, r: R, i: nat, j: nat)
    requires i < |ts| && j < |ts|
    ensures Total(ts, owns, r) >= owns(ts[i], r)
    ensures i != j ==> Total(ts, owns, r) >= owns(ts[i], r) + owns(ts[j], r)
  {
    var n := |ts| - 1;
    if i < n && j < n {
      TotalAtLeast(ts[..n], owns, r, i, j);
    } else if i < n {
      TotalAtLeast(ts[..n], owns, r, i, i);
    } else if j < n {
      TotalAtLeast(ts[..n], owns, r, j, j);
    }
  }

  /** A resource whose owners all own another one is never more plentiful than it. */
  lemma {:induction false} TotalMonotone<T(!new), R>(ts: seq<T>, owns: (T, R) -> nat, small: R, large: R)
    requires forall t :: owns(t, small) <= owns(t, large)
    ensures Total(ts, owns, small) <= Total(ts, owns, large)
  {
    if |ts| > 0 {
      TotalMonotone(ts[..|ts| - 1], owns, small, large);
    }
  }

  /** If a total is positive, somebody owns the resource. */
  lemma {:induction false} TotalOwner<T, R>(ts: seq<T>, owns: (T, R) -> nat, r: R) returns (i: nat)
    requires Total(ts, owns, r) > 0
    ensures i < |ts| && owns(ts[i], r) > 0
  {
    var n := |ts| - 1;
    if owns(ts[n], r) > 0 {
      i := n;
    } else {
      i := TotalOwner(ts[..n], owns, r);
    }
  }

  /** Nobody owns anything: the total is zero. */
  lemma {:induction false} TotalNone<T, R>(ts: seq<T>, owns: (T, R) -> nat, r: R)
    requires forall i :: 0 <= i < |ts| ==> owns(ts[i], r) == 0
    ensures Total(ts, owns, r) == 0
  {
    if |ts| > 0 {
      TotalNone(ts[..|ts| - 1], owns, r);
    }
  }
}
