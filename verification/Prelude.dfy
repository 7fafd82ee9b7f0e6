/** Small shared vocabulary. */
module Prelude {
  datatype Option<+T> = None | Some(value: T)

  // A list is another one at these positions, in order.
  ghost predicate PickedAt<T>(picked: seq<T>, s: seq<T>, at: seq<nat>) {
    && |picked| == |at|
    && (forall j | 0 <= j < |at| :: at[j] < |s| && picked[j] == s[at[j]])
    && (forall i, j | 0 <= i < j < |at| :: at[i] < at[j])
  }

  // An order in which n concurrent workers finish: every index exactly once.
  ghost predicate IsPermutation(order: seq<nat>, n: nat) {
    && |order| == n
    && (forall i | 0 <= i < n :: order[i] < n)
    && (forall i, j | 0 <= i < j < n :: order[i] != order[j])
    && (forall x | 0 <= x < n :: x in order)
  }

  // The indices k..n in increasing order.
  function Indices(k: nat, n: nat): (r: seq<nat>)
    requires k <= n
    ensures |r| == n - k
    ensures forall i | 0 <= i < |r| :: r[i] == k + i
    decreases n - k
  {
    if k == n then [] else [k] + Indices(k + 1, n)
  }

  lemma {:induction false} DistinctCount(s: seq<nat>, x: nat)
    requires forall i, j | 0 <= i < j < |s| :: s[i] != s[j]
    ensures multiset(s)[x] == if x in s then 1 else 0
  {
    if s == [] {
    } else {
      assert s == [s[0]] + s[1..];
      DistinctCount(s[1..], x);
    }
  }

  lemma {:induction false} PermutationMultiset(order: seq<nat>, n: nat)
    requires IsPermutation(order, n)
    ensures multiset(order) == multiset(Indices(0, n))
  {
    forall x: nat
      ensures multiset(order)[x] == multiset(Indices(0, n))[x]
    {
      DistinctCount(order, x);
      DistinctCount(Indices(0, n), x);
      assert x < n ==> Indices(0, n)[x] == x;
    }
    assert multiset(order) <= multiset(Indices(0, n)) <= multiset(order);
  }

  lemma {:induction false} PickedFacts<T>(picked: seq<T>, s: seq<T>, at: seq<nat>)
    requires PickedAt(picked, s, at)
    ensures |picked| == |at|
    ensures forall j | 0 <= j < |at| :: at[j] < |s| && picked[j] == s[at[j]]
  {}

  lemma {:induction false} PickedOrder<T>(picked: seq<T>, s: seq<T>, at: seq<nat>, i: nat, j: nat)
    requires PickedAt(picked, s, at) && i < |at| && j < |at|
    ensures at[i] < at[j] <==> i < j
  {
    assert i < j ==> at[i] < at[j];
    assert j < i ==> at[j] < at[i];
  }

  lemma {:induction false} NothingPicked<T>()
    ensures forall s: seq<T> :: PickedAt([], s, [])
  {}

  lemma {:induction false} PickOneMore<T>(picked: seq<T>, s: seq<T>, at: seq<nat>)
    requires s != [] && PickedAt(picked, s[..|s| - 1], at)
    ensures PickedAt(picked, s, at)
    ensures PickedAt(picked + [s[|s| - 1]], s, at + [|s| - 1])
    ensures forall i | i in at :: i < |s| - 1
    ensures forall i :: i in at + [|s| - 1] <==> i in at || i == |s| - 1
  {
    var n := |s| - 1;
    forall i | i in at
      ensures i < n
    {
      var j :| 0 <= j < |at| && at[j] == i;
    }
  }

  // A part of a picked list is picked at that part of the positions.
  lemma {:induction false} PickSlice<T>(picked: seq<T>, s: seq<T>, at: seq<nat>, a: nat, b: nat)
    requires PickedAt(picked, s, at) && a <= b <= |at|
    ensures PickedAt(picked[a..b], s, at[a..b])
  {
    forall j | 0 <= j < b - a
      ensures at[a..b][j] == at[a + j] && picked[a..b][j] == picked[a + j]
    {}
  }

  lemma {:induction false} InSlice(at: seq<nat>, a: nat, b: nat)
    requires a <= b <= |at|
    ensures forall i | i in at[a..b] :: i in at
  {}

  // Where a position outside the slice stands.
  lemma {:induction false} OutsideSlice<T>(picked: seq<T>, s: seq<T>, at: seq<nat>, a: nat, b: nat, i: nat)
    returns (j: nat)
    requires PickedAt(picked, s, at) && a <= b <= |at| && i in at && i !in at[a..b]
    ensures j < |at| && at[j] == i && (j < a || b <= j)
    ensures a < b ==> i < at[a] || at[b - 1] < i
  {
    j :| 0 <= j < |at| && at[j] == i;
    forall k | a <= k < b
      ensures at[k] in at[a..b]
    {
      assert at[a..b][k - a] == at[k];
    }
    if a < b {
      PickedOrder(picked, s, at, j, a);
      PickedOrder(picked, s, at, b - 1, j);
    }
  }
}
