/**
 * Python's `sorted(xs, key=key, reverse=True)`: a stable sort into
 * non-increasing key order. Modelled as an insertion sort in which an element
 * is placed in front of every later element whose key is not larger, so that
 * equal keys keep their input order. `np.argsort` is built from it as well.
 */
module Ranking {
  import opened Seqs

  function InsertDesc<T>(x: T, ys: seq<T>, key: T -> real): (r: seq<T>)
    ensures |r| == |ys| + 1
  {
    if ys == [] || key(x) >= key(ys[0]) then [x] + ys
    else [ys[0]] + InsertDesc(x, ys[1..], key)
  }

  function SortDesc<T>(xs: seq<T>, key: T -> real): (r: seq<T>)
    ensures |r| == |xs|
  {
    if xs == [] then [] else InsertDesc(xs[0], SortDesc(xs[1..], key), key)
  }

  ghost predicate NonIncreasing<T>(xs: seq<T>, key: T -> real) {
    forall i, j :: 0 <= i < j < |xs| ==> key(xs[i]) >= key(xs[j])
  }

  /** The subsequence of `xs` whose key is exactly `v`, in order. */
  function WithKey<T>(xs: seq<T>, key: T -> real, v: real): seq<T> {
    if xs == [] then []
    else (if key(xs[0]) == v then [xs[0]] else []) + WithKey(xs[1..], key, v)
  }

  lemma {:induction false} InsertDescPermutes<T>(x: T, ys: seq<T>, key: T -> real)
    ensures multiset(InsertDesc(x, ys, key)) == multiset(ys) + multiset{x}
  {
    if ys != [] && key(x) < key(ys[0]) {
      InsertDescPermutes(x, ys[1..], key);
      assert ys == [ys[0]] + ys[1..];
    }
  }

  /** The sort only rearranges its input. */
  lemma {:induction false} SortDescPermutes<T>(xs: seq<T>, key: T -> real)
    ensures multiset(SortDesc(xs, key)) == multiset(xs)
  {
    if xs != [] {
      SortDescPermutes(xs[1..], key);
      InsertDescPermutes(xs[0], SortDesc(xs[1..], key), key);
      assert xs == [xs[0]] + xs[1..];
    }
  }

  lemma {:induction false} InsertDescOrdered<T>(x: T, ys: seq<T>, key: T -> real)
    requires NonIncreasing(ys, key)
    ensures NonIncreasing(InsertDesc(x, ys, key), key)
  {
    if ys != [] && key(x) < key(ys[0]) {
      var tail := InsertDesc(x, ys[1..], key);
      InsertDescOrdered(x, ys[1..], key);
      InsertDescPermutes(x, ys[1..], key);
      forall k | 0 <= k < |tail| ensures key(ys[0]) >= key(tail[k]) {
        assert tail[k] in multiset(tail);
        if tail[k] != x {
          assert tail[k] in multiset(ys[1..]);
          var m :| 0 <= m < |ys[1..]| && ys[1..][m] == tail[k];
          assert ys[m + 1] == tail[k];
        }
      }
      var r := [ys[0]] + tail;
      forall i, j | 0 <= i < j < |r| ensures key(r[i]) >= key(r[j]) {
        if i > 0 { assert r[i] == tail[i - 1] && r[j] == tail[j - 1]; }
        else { assert r[j] == tail[j - 1]; }
      }
    }
  }

  /** The sort yields non-increasing keys (the `reverse=True` order). */
  lemma {:induction false} SortDescOrdered<T>(xs: seq<T>, key: T -> real)
    ensures NonIncreasing(SortDesc(xs, key), key)
  {
    if xs != [] {
      SortDescOrdered(xs[1..], key);
      InsertDescOrdered(xs[0], SortDesc(xs[1..], key), key);
    }
  }

  lemma {:induction false} InsertDescStable<T>(x: T, ys: seq<T>, key: T -> real, v: real)
    ensures WithKey(InsertDesc(x, ys, key), key, v) == WithKey([x] + ys, key, v)
  {
    assert ([x] + ys)[1..] == ys;
    if ys != [] && key(x) < key(ys[0]) {
      var r := [ys[0]] + InsertDesc(x, ys[1..], key);
      assert r[1..] == InsertDesc(x, ys[1..], key);
      InsertDescStable(x, ys[1..], key, v);
      assert ([x] + ys[1..])[1..] == ys[1..];
      assert ys == [ys[0]] + ys[1..];
    }
  }

  /**
   * Stability: for every key value, the elements carrying it appear in the
   * output in exactly the order they had in the input.
   */
  lemma {:induction false} SortDescStable<T>(xs: seq<T>, key: T -> real, v: real)
    ensures WithKey(SortDesc(xs, key), key, v) == WithKey(xs, key, v)
  {
    if xs != [] {
      SortDescStable(xs[1..], key, v);
      InsertDescStable(xs[0], SortDesc(xs[1..], key), key, v);
      assert ([xs[0]] + SortDesc(xs[1..], key))[1..] == SortDesc(xs[1..], key);
    }
  }

  lemma {:induction false} InsertDescMap<T, U>(x: T, ys: seq<T>, f: T -> U, k1: T -> real, k2: U -> real)
    requires k1(x) == k2(f(x))
    requires forall y :: y in ys ==> k1(y) == k2(f(y))
    ensures MapSeq(f, InsertDesc(x, ys, k1)) == InsertDesc(f(x), MapSeq(f, ys), k2)
  {
    if ys != [] && k1(x) < k1(ys[0]) {
      InsertDescMap(x, ys[1..], f, k1, k2);
      assert MapSeq(f, ys)[1..] == MapSeq(f, ys[1..]);
    }
  }

  /**
   * Sorting records by a key, then projecting, is sorting the projections by
   * the key they determine: the sort never looks at anything but the key.
   */
  lemma {:induction false} SortDescMap<T, U>(xs: seq<T>, f: T -> U, k1: T -> real, k2: U -> real)
    requires forall x :: x in xs ==> k1(x) == k2(f(x))
    ensures MapSeq(f, SortDesc(xs, k1)) == SortDesc(MapSeq(f, xs), k2)
  {
    if xs != [] {
      SortDescMap(xs[1..], f, k1, k2);
      SortDescPermutes(xs[1..], k1);
      forall y | y in SortDesc(xs[1..], k1) ensures k1(y) == k2(f(y)) {
        assert y in multiset(SortDesc(xs[1..], k1));
      }
      InsertDescMap(xs[0], SortDesc(xs[1..], k1), f, k1, k2);
      assert MapSeq(f, xs)[1..] == MapSeq(f, xs[1..]);
    }
  }
}
