/**
 * Go's sort.Slice with a "less by timestamp" comparator. The Go sort is not stable, so the
 * model claims only what any correct sort gives: the result is ordered by the key and is a
 * permutation of the input. The model fixes one deterministic admissible order (insertion
 * sort); Go's sort is likewise a deterministic function of the comparison outcomes, which is
 * what SortByMap expresses: sorting depends on the elements only through their keys.
 */
module Sorting {

  /** Elements appear in non-decreasing key order. */
  predicate SortedBy<T>(s: seq<T>, key: T -> int) {
    forall i, j :: 0 <= i < j < |s| ==> key(s[i]) <= key(s[j])
  }

  /** The indices 0, 1, ..., n-1 in order. */
  function Range(n: nat): (r: seq<int>)
    ensures |r| == n && forall i :: 0 <= i < n ==> r[i] == i
  {
    seq(n, i => i)
  }

  /** `f` applied to every element. */
  function MapSeq<A, B>(s: seq<A>, f: A -> B): (r: seq<B>)
    ensures |r| == |s| && forall i :: 0 <= i < |s| ==> r[i] == f(s[i])
  {
    seq(|s|, i requires 0 <= i < |s| => f(s[i]))
  }

  lemma MapSeqCons<A, B>(x: A, s: seq<A>, f: A -> B)
    ensures MapSeq([x] + s, f) == [f(x)] + MapSeq(s, f)
  {
    assert forall i :: 0 < i <= |s| ==> ([x] + s)[i] == s[i - 1];
  }

  lemma MapSeqHead<A, B>(s: seq<A>, f: A -> B)
    requires |s| > 0
    ensures MapSeq(s, f) == [f(s[0])] + MapSeq(s[1..], f)
  {
    assert s == [s[0]] + s[1..];
    MapSeqCons(s[0], s[1..], f);
  }

  /** Puts `x` in front of the first element whose key is not less than its own. */
  function Insert<T>(x: T, s: seq<T>, key: T -> int): (r: seq<T>)
    ensures |r| == |s| + 1
    ensures multiset(r) == multiset(s) + multiset{x}
    ensures SortedBy(s, key) ==> SortedBy(r, key)
    decreases |s|
  {
    if |s| == 0 then [x]
    else if key(s[0]) < key(x) then
      var rest := Insert(x, s[1..], key);
      InsertStep(x, s, key, rest);
      [s[0]] + rest
    else
      InsertFront(x, s, key);
      [x] + s
  }

  /** A smaller key in front of a sorted sequence keeps it sorted. */
  lemma SortedCons<T>(h: T, t: seq<T>, key: T -> int)
    requires SortedBy(t, key)
    requires forall i :: 0 <= i < |t| ==> key(h) <= key(t[i])
    ensures SortedBy([h] + t, key)
  {
    forall i, j | 0 <= i < j < |t| + 1
      ensures key(([h] + t)[i]) <= key(([h] + t)[j])
    {
      assert ([h] + t)[j] == t[j - 1];
      if i > 0 {
        assert ([h] + t)[i] == t[i - 1];
      }
    }
  }

  lemma InsertFront<T>(x: T, s: seq<T>, key: T -> int)
    requires |s| > 0 && key(x) <= key(s[0])
    ensures SortedBy(s, key) ==> SortedBy([x] + s, key)
  {
    if SortedBy(s, key) {
      assert forall i :: 0 <= i < |s| ==> key(s[0]) <= key(s[i]);
      SortedCons(x, s, key);
    }
  }

  lemma InsertStep<T>(x: T, s: seq<T>, key: T -> int, rest: seq<T>)
    requires |s| > 0 && key(s[0]) < key(x)
    requires multiset(rest) == multiset(s[1..]) + multiset{x}
    requires SortedBy(s[1..], key) ==> SortedBy(rest, key)
    ensures multiset([s[0]] + rest) == multiset(s) + multiset{x}
    ensures SortedBy(s, key) ==> SortedBy([s[0]] + rest, key)
  {
    assert s == [s[0]] + s[1..];
    if SortedBy(s, key) {
      forall i | 0 <= i < |rest|
        ensures key(s[0]) <= key(rest[i])
      {
        assert rest[i] in multiset(rest);
        if rest[i] != x {
          assert rest[i] in multiset(s[1..]);
          var j :| 0 <= j < |s[1..]| && s[1..][j] == rest[i];
          assert s[j + 1] == rest[i];
        }
      }
      SortedCons(s[0], rest, key);
    }
  }

  /** sort.Slice(s, func(i, j int) bool { return key(s[i]) < key(s[j]) }) */
  function SortBy<T>(s: seq<T>, key: T -> int): (r: seq<T>)
    ensures |r| == |s|
    ensures multiset(r) == multiset(s)
    ensures SortedBy(r, key)
    decreases |s|
  {
    if |s| == 0 then []
    else
      assert s == [s[0]] + s[1..];
      Insert(s[0], SortBy(s[1..], key), key)
  }

  lemma {:induction false} InsertMap<A, B>(x: A, s: seq<A>, f: A -> B, ka: A -> int, kb: B -> int)
    requires forall a :: kb(f(a)) == ka(a)
    ensures Insert(f(x), MapSeq(s, f), kb) == MapSeq(Insert(x, s, ka), f)
    decreases |s|
  {
    if |s| > 0 {
      assert s == [s[0]] + s[1..];
      MapSeqCons(s[0], s[1..], f);
      var m := MapSeq(s, f);
      assert m[0] == f(s[0]) && m[1..] == MapSeq(s[1..], f);
      if ka(s[0]) < ka(x) {
        var rest := Insert(x, s[1..], ka);
        assert Insert(f(x), m, kb) == [f(s[0])] + Insert(f(x), MapSeq(s[1..], f), kb);
        InsertMap(x, s[1..], f, ka, kb);
        MapSeqCons(s[0], rest, f);
      } else {
        assert Insert(f(x), m, kb) == [f(x)] + m;
        MapSeqCons(x, s, f);
      }
    }
  }

  /**
   * Sorting commutes with a map that preserves keys: two sort calls whose comparator sees the
   * same keys order their elements the same way.
   */
  lemma {:induction false} SortByMap<A, B>(s: seq<A>, f: A -> B, ka: A -> int, kb: B -> int)
    requires forall a :: kb(f(a)) == ka(a)
    ensures SortBy(MapSeq(s, f), kb) == MapSeq(SortBy(s, ka), f)
    decreases |s|
  {
    if |s| > 0 {
      SortByMap(s[1..], f, ka, kb);
      assert MapSeq(s, f)[1..] == MapSeq(s[1..], f);
      InsertMap(s[0], SortBy(s[1..], ka), f, ka, kb);
    }
  }

  /** Sorting permutes any projection of the elements as well. */
  lemma {:induction false} SortByMapPermutation<T, U>(s: seq<T>, key: T -> int, f: T -> U)
    ensures multiset(MapSeq(SortBy(s, key), f)) == multiset(MapSeq(s, f))
    decreases |s|
  {
    if |s| > 0 {
      var sorted := SortBy(s[1..], key);
      SortByMapPermutation(s[1..], key, f);
      InsertMapPermutation(s[0], sorted, key, f);
      MapSeqHead(s, f);
      assert SortBy(s, key) == Insert(s[0], sorted, key);
    }
  }

  lemma {:induction false} InsertMapPermutation<T, U>(x: T, s: seq<T>, key: T -> int, f: T -> U)
    ensures multiset(MapSeq(Insert(x, s, key), f)) == multiset(MapSeq(s, f)) + multiset{f(x)}
    decreases |s|
  {
    if |s| == 0 {
      assert Insert(x, s, key) == [x] + s;
      ConsMapMultiset(x, s, f);
    } else if key(s[0]) < key(x) {
      InsertMapPermutation(x, s[1..], key, f);
      InsertMapStep(x, s, key, f);
    } else {
      assert Insert(x, s, key) == [x] + s;
      ConsMapMultiset(x, s, f);
    }
  }

  /** The step past a smaller key, given the property for the tail. */
  lemma {:induction false} InsertMapStep<T, U>(x: T, s: seq<T>, key: T -> int, f: T -> U)
    requires |s| > 0 && key(s[0]) < key(x)
    requires multiset(MapSeq(Insert(x, s[1..], key), f)) == multiset(MapSeq(s[1..], f)) + multiset{f(x)}
    ensures multiset(MapSeq(Insert(x, s, key), f)) == multiset(MapSeq(s, f)) + multiset{f(x)}
  {
    var rest := Insert(x, s[1..], key);
    var m := multiset(MapSeq(s[1..], f));
    assert Insert(x, s, key) == [s[0]] + rest;
    ConsMapMultiset(s[0], rest, f);
    assert multiset(MapSeq(Insert(x, s, key), f)) == m + multiset{f(x)} + multiset{f(s[0])};
    assert s == [s[0]] + s[1..];
    ConsMapMultiset(s[0], s[1..], f);
    assert multiset(MapSeq(s, f)) == m + multiset{f(s[0])};
    SwapLast(m, f(x), f(s[0]));
  }

  lemma SwapLast<U>(m: multiset<U>, a: U, b: U)
    ensures m + multiset{a} + multiset{b} == m + multiset{b} + multiset{a}
  {
  }

  lemma ConsMapMultiset<T, U>(h: T, a: seq<T>, f: T -> U)
    ensures multiset(MapSeq([h] + a, f)) == multiset(MapSeq(a, f)) + multiset{f(h)}
  {
    MapSeqCons(h, a, f);
  }

  /** With pairwise distinct keys in increasing order, sorting changes nothing. */
  lemma {:induction false} SortByStrictlySorted<T>(s: seq<T>, key: T -> int)
    requires forall i, j :: 0 <= i < j < |s| ==> key(s[i]) < key(s[j])
    ensures SortBy(s, key) == s
    decreases |s|
  {
    if |s| > 0 {
      SortByStrictlySorted(s[1..], key);
      assert s == [s[0]] + s[1..];
    }
  }

  /** An element of a permutation of 0..n-1 is in 0..n-1. */
  lemma PermutationOfRangeBounds(p: seq<int>, n: nat, k: int)
    requires multiset(p) == multiset(Range(n))
    requires 0 <= k < |p|
    ensures 0 <= p[k] < n
  {
    assert p[k] in multiset(p);
    assert p[k] in Range(n);
  }
}
