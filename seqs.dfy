/**
 * The JavaScript array operations the pages rely on (`indexOf`, `map`,
 * `filter`), as functions on sequences, each characterised by its contract.
 */
module Seqs {

  /** `a` is `b` with some elements left out, the rest in their original order. */
  predicate IsSubsequence<T(==)>(a: seq<T>, b: seq<T>)
    decreases |b|
  {
    a == [] ||
    (b != [] &&
     ((a[0] == b[0] && IsSubsequence(a[1..], b[1..])) || IsSubsequence(a, b[1..])))
  }

  /** Every element of a subsequence is an element of the whole. */
  lemma {:induction false} SubsequenceMembers<T>(a: seq<T>, b: seq<T>)
    requires IsSubsequence(a, b)
    ensures forall x :: x in a ==> x in b
    decreases |b|
  {
    if a != [] {
      if a[0] == b[0] && IsSubsequence(a[1..], b[1..]) {
        SubsequenceMembers(a[1..], b[1..]);
        assert a == [a[0]] + a[1..];
        assert b == [b[0]] + b[1..];
      } else {
        SubsequenceMembers(a, b[1..]);
        assert b == [b[0]] + b[1..];
      }
    }
  }

  /** `i` and `j` are positions of `xs` whose elements have different keys. */
  predicate KeysDifferAt<T, K(==)>(xs: seq<T>, key: T -> K, i: int, j: int)
  {
    0 <= i < |xs| && 0 <= j < |xs| && key(xs[i]) != key(xs[j])
  }

  /**
   * No two elements of `xs` share a key. The quantifier fires only on an
   * explicit `KeysDifferAt` term, so that a list state holding this fact does
   * not compare every pair of its elements.
   */
  predicate KeysUnique<T, K(==)>(xs: seq<T>, key: T -> K)
  {
    forall i, j {:trigger KeysDifferAt(xs, key, i, j)} :: 0 <= i < j < |xs| ==> KeysDifferAt(xs, key, i, j)
  }

  /** Two different positions of a list with unique keys hold different keys. */
  lemma KeysUniqueAt<T, K>(xs: seq<T>, key: T -> K, i: int, j: int)
    requires KeysUnique(xs, key) && 0 <= i < |xs| && 0 <= j < |xs| && i != j
    ensures key(xs[i]) != key(xs[j])
  {
    if i < j {
      assert KeysDifferAt(xs, key, i, j);
    } else {
      assert KeysDifferAt(xs, key, j, i);
    }
  }

  /** Appending an element under a key no element has keeps the keys unique. */
  lemma AppendFreshKey<T, K>(xs: seq<T>, x: T, key: T -> K)
    requires KeysUnique(xs, key) && key(x) !in Map(xs, key)
    ensures KeysUnique(xs + [x], key)
  {
    var ys := xs + [x];
    forall i, j | 0 <= i < j < |ys| ensures KeysDifferAt(ys, key, i, j) {
      if j == |xs| {
        assert Map(xs, key)[i] == key(ys[i]);
      } else {
        KeysUniqueAt(xs, key, i, j);
      }
    }
  }

  /** Keeping some elements of a sequence, in order, keeps its keys unique. */
  lemma {:induction false} SubsequenceKeysUnique<T, K>(a: seq<T>, b: seq<T>, key: T -> K)
    requires IsSubsequence(a, b) && KeysUnique(b, key)
    ensures KeysUnique(a, key)
    decreases |b|
  {
    if a != [] {
      if a[0] == b[0] && IsSubsequence(a[1..], b[1..]) {
        forall i, j | 0 <= i < j < |b[1..]| ensures KeysDifferAt(b[1..], key, i, j) {
          KeysUniqueAt(b, key, i + 1, j + 1);
        }
        SubsequenceKeysUnique(a[1..], b[1..], key);
        SubsequenceMembers(a[1..], b[1..]);
        forall i, j | 0 <= i < j < |a| ensures KeysDifferAt(a, key, i, j) {
          if i == 0 {
            assert a[1..][j - 1] == a[j];
            assert a[j] in b[1..];
            var m :| 0 <= m < |b[1..]| && b[1..][m] == a[j];
            KeysUniqueAt(b, key, 0, m + 1);
          } else {
            KeysUniqueAt(a[1..], key, i - 1, j - 1);
          }
        }
      } else {
        forall i, j | 0 <= i < j < |b[1..]| ensures KeysDifferAt(b[1..], key, i, j) {
          KeysUniqueAt(b, key, i + 1, j + 1);
        }
        SubsequenceKeysUnique(a, b[1..], key);
      }
    }
  }

  /** `Array.prototype.indexOf`: the first position of `x` in `xs`, or -1. */
  function IndexOf<T(==)>(xs: seq<T>, x: T): (r: int)
    ensures -1 <= r < |xs|
    ensures r == -1 <==> x !in xs
    ensures 0 <= r ==> xs[r] == x && x !in xs[..r]
  {
    if xs == [] then -1
    else if xs[0] == x then 0
    else
      var k := IndexOf(xs[1..], x);
      if k == -1 then -1
      else
        assert xs[..k + 1] == [xs[0]] + xs[1..][..k];
        k + 1
  }

  /** `Array.prototype.map`: `f` applied to every element, in place. */
  function Map<T, U>(xs: seq<T>, f: T -> U): (r: seq<U>)
    ensures |r| == |xs|
    ensures forall i :: 0 <= i < |xs| ==> r[i] == f(xs[i])
  {
    if xs == [] then [] else [f(xs[0])] + Map(xs[1..], f)
  }

  /**
   * `Array.prototype.filter`: exactly the elements satisfying `p`, each as
   * often as in `xs`, in their original order.
   */
  function Filter<T(==, !new)>(xs: seq<T>, p: T -> bool): (r: seq<T>)
    ensures forall x :: x in r <==> x in xs && p(x)
    ensures forall x :: multiset(r)[x] == if p(x) then multiset(xs)[x] else 0
    ensures IsSubsequence(r, xs)
  {
    if xs == [] then []
    else
      var rest := Filter(xs[1..], p);
      assert xs == [xs[0]] + xs[1..];
      if p(xs[0]) then
        assert ([xs[0]] + rest)[1..] == rest;
        [xs[0]] + rest
      else rest
  }

  /** Filtering with a predicate every element meets returns the sequence itself. */
  lemma {:induction false} FilterKeepsAll<T(!new)>(xs: seq<T>, p: T -> bool)
    requires forall x :: x in xs ==> p(x)
    ensures Filter(xs, p) == xs
  {
    if xs != [] {
      FilterKeepsAll(xs[1..], p);
    }
  }

  /** Filtering with a predicate no element meets returns the empty sequence. */
  lemma {:induction false} FilterDropsAll<T(!new)>(xs: seq<T>, p: T -> bool)
    requires forall x :: x in xs ==> !p(x)
    ensures Filter(xs, p) == []
  {
    if xs != [] {
      FilterDropsAll(xs[1..], p);
    }
  }

  /** Filtering keeps a prefix whose elements all pass and drops a suffix whose elements all fail. */
  lemma FilterKeepsPrefix<T(!new)>(xs: seq<T>, ys: seq<T>, p: T -> bool)
    requires forall x :: x in xs ==> p(x)
    requires forall y :: y in ys ==> !p(y)
    ensures Filter(xs + ys, p) == xs
  {
    FilterAppend(xs, ys, p);
    FilterKeepsAll(xs, p);
    FilterDropsAll(ys, p);
    assert xs + [] == xs;
  }

  /** Filtering distributes over concatenation. */
  lemma {:induction false} FilterAppend<T(!new)>(xs: seq<T>, ys: seq<T>, p: T -> bool)
    ensures Filter(xs + ys, p) == Filter(xs, p) + Filter(ys, p)
  {
    if xs == [] {
      assert xs + ys == ys;
    } else {
      assert (xs + ys)[1..] == xs[1..] + ys;
      FilterAppend(xs[1..], ys, p);
    }
  }
}
