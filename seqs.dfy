/** Small sequence helpers standing for Python list/set idioms used by the engine. */
module Seqs {

  function Min(a: int, b: int): int { if a <= b then a else b }

  /** Python's `xs[:n]`. */
  function Take<T>(xs: seq<T>, n: nat): (r: seq<T>)
    ensures |r| == Min(n, |xs|)
    ensures forall i :: 0 <= i < |r| ==> r[i] == xs[i]
  {
    if |xs| <= n then xs else xs[..n]
  }

  /** Python's `xs[::-1]`. */
  function Reverse<T>(xs: seq<T>): (r: seq<T>)
    ensures |r| == |xs|
    ensures forall i :: 0 <= i < |xs| ==> r[i] == xs[|xs| - 1 - i]
  {
    if xs == [] then [] else Reverse(xs[1..]) + [xs[0]]
  }

  /** `[f(x) for x in xs]`. */
  function MapSeq<T, U>(f: T -> U, xs: seq<T>): (r: seq<U>)
    ensures |r| == |xs|
    ensures forall i :: 0 <= i < |xs| ==> r[i] == f(xs[i])
  {
    if xs == [] then [] else [f(xs[0])] + MapSeq(f, xs[1..])
  }

  /** The row positions 0, 1, ..., n-1 (what `np.argsort` permutes). */
  function Indices(n: nat): (r: seq<nat>)
    ensures |r| == n
    ensures forall i :: 0 <= i < n ==> r[i] == i
  {
    if n == 0 then [] else Indices(n - 1) + [n - 1]
  }

  /** Python's `set(xs)`. */
  function SetOf(xs: seq<string>): set<string> { set x | x in xs }

  predicate NoDuplicates<T(==)>(xs: seq<T>) {
    forall i, j :: 0 <= i < j < |xs| ==> xs[i] != xs[j]
  }

  lemma {:induction false} MultisetOfIndices(n: nat, k: int)
    ensures k in multiset(Indices(n)) <==> 0 <= k < n
  {
    assert k in multiset(Indices(n)) <==> k in Indices(n);
    if 0 <= k < n { assert Indices(n)[k] == k; }
  }

  /** A list has no duplicates exactly when no value occurs in it twice. */
  lemma {:induction false} NoDuplicatesCount<T>(xs: seq<T>)
    ensures NoDuplicates(xs) <==> forall v :: multiset(xs)[v] <= 1
  {
    if xs != [] {
      var rest := xs[1..];
      NoDuplicatesCount(rest);
      assert xs == [xs[0]] + rest;
      assert multiset(xs) == multiset{xs[0]} + multiset(rest);
      if NoDuplicates(xs) {
        assert NoDuplicates(rest) by {
          forall i, j | 0 <= i < j < |rest| ensures rest[i] != rest[j] {
            assert rest[i] == xs[i + 1] && rest[j] == xs[j + 1];
          }
        }
        assert xs[0] !in rest by {
          forall i | 0 <= i < |rest| ensures rest[i] != xs[0] {
            assert rest[i] == xs[i + 1];
          }
        }
      }
      if forall v :: multiset(xs)[v] <= 1 {
        forall v ensures multiset(rest)[v] <= 1 {
          assert multiset(xs)[v] <= 1;
        }
        assert multiset(rest)[xs[0]] == 0 by {
          assert multiset(xs)[xs[0]] <= 1;
        }
        forall i, j | 0 <= i < j < |xs| ensures xs[i] != xs[j] {
          if i == 0 {
            assert xs[j] == rest[j - 1];
            assert xs[j] in rest;
          } else {
            assert xs[i] == rest[i - 1] && xs[j] == rest[j - 1];
          }
        }
      }
    }
  }

  /** Rearranging a list without duplicates leaves none. */
  lemma PermutationNoDuplicates<T>(xs: seq<T>, ys: seq<T>)
    requires multiset(xs) == multiset(ys)
    requires NoDuplicates(xs)
    ensures NoDuplicates(ys)
  {
    NoDuplicatesCount(xs);
    NoDuplicatesCount(ys);
  }

  lemma {:induction false} MapTake<T, U>(f: T -> U, xs: seq<T>, n: nat)
    ensures MapSeq(f, Take(xs, n)) == Take(MapSeq(f, xs), n)
  {
  }
}
