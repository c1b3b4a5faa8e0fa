/** Shared vocabulary: options and results, sums over sequences and over finite sets. */
module Prelude {
  datatype Option<+T> = None | Some(value: T)

  datatype Result<+T, +E> = Ok(value: T) | Err(error: E)

  predicate NoDup<T(==)>(s: seq<T>) {
    forall i, j :: 0 <= i < j < |s| ==> s[i] != s[j]
  }

  function Elems<T>(s: seq<T>): set<T> {
    set x | x in s
  }

  /** Exact sum, split at the last element as an accumulating loop does. */
  function Sum(s: seq<nat>): nat {
    if s == [] then 0 else Sum(s[..|s| - 1]) + s[|s| - 1]
  }

  lemma {:induction false} SumAppend(a: seq<nat>, b: seq<nat>)
    ensures Sum(a + b) == Sum(a) + Sum(b)
  {
    if b == [] {
      assert a + b == a;
    } else {
      SumAppend(a, b[..|b| - 1]);
      assert (a + b)[..|a + b| - 1] == a + b[..|b| - 1];
    }
  }

  /** Sum of a weight over a finite set, in any order. */
  ghost function SetSum<K(!new)>(s: set<K>, w: K -> int): int {
    if s == {} then 0 else
      var k :| k in s;
      w(k) + SetSum(s - {k}, w)
  }

  lemma {:induction false} SetSumRemove<K(!new)>(s: set<K>, w: K -> int, k: K)
    requires k in s
    ensures SetSum(s, w) == w(k) + SetSum(s - {k}, w)
    decreases |s|
  {
    var c :| c in s && SetSum(s, w) == w(c) + SetSum(s - {c}, w);
    if c != k {
      SetSumRemove(s - {c}, w, k);
      assert s - {c} - {k} == s - {k} - {c};
      SetSumRemove(s - {k}, w, c);
    }
  }

  lemma {:induction false} SetSumCongruent<K(!new)>(s: set<K>, w: K -> int, v: K -> int)
    requires forall k :: k in s ==> w(k) == v(k)
    ensures SetSum(s, w) == SetSum(s, v)
    decreases |s|
  {
    if s != {} {
      var k :| k in s;
      SetSumRemove(s, w, k);
      SetSumRemove(s, v, k);
      SetSumCongruent(s - {k}, w, v);
    }
  }

  lemma {:induction false} SetSumUnion<K(!new)>(a: set<K>, b: set<K>, w: K -> int)
    requires a !! b
    ensures SetSum(a + b, w) == SetSum(a, w) + SetSum(b, w)
    decreases |b|
  {
    if b == {} {
      assert a + b == a;
    } else {
      var k :| k in b;
      SetSumRemove(b, w, k);
      SetSumRemove(a + b, w, k);
      assert a + b - {k} == a + (b - {k});
      SetSumUnion(a, b - {k}, w);
    }
  }

  lemma {:induction false} SetSumZero<K(!new)>(s: set<K>, w: K -> int)
    requires forall k :: k in s ==> w(k) == 0
    ensures SetSum(s, w) == 0
    decreases |s|
  {
    if s != {} {
      var k :| k in s;
      SetSumRemove(s, w, k);
      SetSumZero(s - {k}, w);
    }
  }

  lemma {:induction false} SetSumNonNegative<K(!new)>(s: set<K>, w: K -> int)
    requires forall k :: k in s ==> w(k) >= 0
    ensures SetSum(s, w) >= 0
    decreases |s|
  {
    if s != {} {
      var k :| k in s;
      SetSumRemove(s, w, k);
      SetSumNonNegative(s - {k}, w);
    }
  }

  lemma {:induction false} SetSumAdd<K(!new)>(s: set<K>, w: K -> int, v: K -> int, u: K -> int)
    requires forall k :: k in s ==> u(k) == w(k) + v(k)
    ensures SetSum(s, u) == SetSum(s, w) + SetSum(s, v)
    decreases |s|
  {
    if s != {} {
      var k :| k in s;
      SetSumRemove(s, w, k);
      SetSumRemove(s, v, k);
      SetSumRemove(s, u, k);
      SetSumAdd(s - {k}, w, v, u);
    }
  }

  /** Summing a weight over the members of a duplicate-free list is summing the list of weights. */
  lemma {:induction false} SetSumOfList<K(!new)>(ids: seq<K>, w: K -> int, amounts: seq<nat>)
    requires NoDup(ids) && |amounts| == |ids|
    requires forall i :: 0 <= i < |ids| ==> w(ids[i]) == amounts[i]
    ensures SetSum(Elems(ids), w) == Sum(amounts)
    decreases |ids|
  {
    if ids != [] {
      var n := |ids| - 1;
      SetSumOfList(ids[..n], w, amounts[..n]);
      assert Elems(ids) - {ids[n]} == Elems(ids[..n]) by {
        assert ids == ids[..n] + [ids[n]];
      }
      SetSumRemove(Elems(ids), w, ids[n]);
    }
  }
}
