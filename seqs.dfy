/**
 * Generic sequence operations that stand for the JavaScript array built-ins
 * the tracker leans on: `Array.prototype.filter` and the stable
 * `Array.prototype.sort` with a numeric comparator.
 */
module Seqs {

  /** `s.filter(p)`: the elements of `s` that satisfy `p`, in their original order. */
  function Filter<T>(s: seq<T>, p: T -> bool): (r: seq<T>)
    ensures |r| <= |s|
    ensures forall x :: x in r ==> x in s && p(x)
    ensures forall x :: x in s && p(x) ==> x in r
  {
    if s == [] then []
    else (if p(s[0]) then [s[0]] else []) + Filter(s[1..], p)
  }

  /** Nothing that passes the predicate is dropped. */
  lemma {:induction false} FilterKeeps<T>(s: seq<T>, p: T -> bool, x: T)
    requires x in s && p(x)
    ensures x in Filter(s, p)
  {
    if s[0] != x {
      FilterKeeps(s[1..], p, x);
    }
  }

  /** Filtering distributes over concatenation, so the kept elements stay in order. */
  lemma {:induction false} FilterConcat<T>(a: seq<T>, b: seq<T>, p: T -> bool)
    ensures Filter(a + b, p) == Filter(a, p) + Filter(b, p)
  {
    if a == [] {
      assert a + b == b;
    } else {
      assert (a + b)[1..] == a[1..] + b;
      FilterConcat(a[1..], b, p);
    }
  }

  /** A filter that every element passes returns its input unchanged. */
  lemma {:induction false} FilterIdentity<T>(s: seq<T>, p: T -> bool)
    requires forall x :: x in s ==> p(x)
    ensures Filter(s, p) == s
  {
    if s != [] {
      FilterIdentity(s[1..], p);
    }
  }

  /** A filter that no element passes returns the empty sequence. */
  lemma {:induction false} FilterNone<T>(s: seq<T>, p: T -> bool)
    requires forall x :: x in s ==> !p(x)
    ensures Filter(s, p) == []
  {
    if s != [] {
      FilterNone(s[1..], p);
    }
  }

  /** The filter keeps every element exactly when every element passes. */
  lemma {:induction false} FilterKeepsAll<T>(s: seq<T>, p: T -> bool)
    ensures |Filter(s, p)| == |s| <==> forall i :: 0 <= i < |s| ==> p(s[i])
  {
    if s != [] {
      FilterKeepsAll(s[1..], p);
      if p(s[0]) {
        assert (forall i :: 0 <= i < |s| ==> p(s[i])) <==> (forall i :: 0 <= i < |s| - 1 ==> p(s[1..][i]));
      }
    }
  }

  /**
   * Two filters whose predicates are complementary on `s` split it: their
   * lengths add up to the length of `s`.
   */
  lemma {:induction false} FilterComplementLengths<T>(s: seq<T>, p: T -> bool, q: T -> bool)
    requires forall x :: x in s ==> (p(x) <==> !q(x))
    ensures |Filter(s, p)| + |Filter(s, q)| == |s|
  {
    if s != [] {
      FilterComplementLengths(s[1..], p, q);
    }
  }

  /**
   * The position of the first `x` in `s`, or -1. It stands for the object-key
   * lookups `stats.observationsByMonth[monthKey]` and `speciesCount[species]`
   * over a tally kept as a list of entries, and for the separator search
   * inside `split`.
   */
  function Find<T(==)>(s: seq<T>, x: T): (r: int)
    ensures -1 <= r < |s|
    ensures r >= 0 ==> s[r] == x
    ensures forall j :: 0 <= j < |s| && (r < 0 || j < r) ==> s[j] != x
  {
    if s == [] then -1
    else if s[0] == x then 0
    else
      var k := Find(s[1..], x);
      if k < 0 then -1 else k + 1
  }

  /** Appending an element can only add a first position for that element. */
  lemma FindAppend<T>(s: seq<T>, x: T, y: T)
    ensures Find(s + [x], y) == if Find(s, y) >= 0 then Find(s, y) else if x == y then |s| else -1
  {
    var r := Find(s + [x], y);
    assert forall j :: 0 <= j < |s| ==> (s + [x])[j] == s[j];
    if Find(s, y) >= 0 {
      assert (s + [x])[Find(s, y)] == y;
    } else if x == y {
      assert (s + [x])[|s|] == y;
    }
  }

  /** Keys ascend along `s` (ties allowed). */
  ghost predicate SortedByKey<T>(s: seq<T>, key: T -> int)
  {
    forall i, j :: 0 <= i < j < |s| ==> key(s[i]) <= key(s[j])
  }

  /**
   * Inserts `x` in front of the first element whose key is not smaller, so
   * that `x` precedes the elements of equal key that followed it in the input.
   */
  function InsertByKey<T>(x: T, s: seq<T>, key: T -> int): (r: seq<T>)
    ensures multiset(r) == multiset(s) + multiset{x}
  {
    if s == [] || key(x) <= key(s[0]) then [x] + s
    else
      assert s == [s[0]] + s[1..];
      [s[0]] + InsertByKey(x, s[1..], key)
  }

  /** Inserting into a sorted sequence keeps it sorted. */
  lemma {:induction false} InsertByKeySorted<T>(x: T, s: seq<T>, key: T -> int)
    requires SortedByKey(s, key)
    ensures SortedByKey(InsertByKey(x, s, key), key)
  {
    if s != [] && key(s[0]) < key(x) {
      var rest := InsertByKey(x, s[1..], key);
      SortedTail(s, key);
      InsertByKeySorted(x, s[1..], key);
      InsertKeepsBound(x, s[1..], key, key(s[0]));
      SortedCons(s[0], rest, key);
    } else {
      SortedCons(x, s, key);
    }
  }

  /** Behind the first element of a sorted sequence comes a sorted sequence of keys not below it. */
  lemma SortedTail<T>(s: seq<T>, key: T -> int)
    requires s != [] && SortedByKey(s, key)
    ensures SortedByKey(s[1..], key)
    ensures forall y :: y in s[1..] ==> key(s[0]) <= key(y)
  {
    forall y | y in s[1..] ensures key(s[0]) <= key(y) {
      var j :| 0 <= j < |s[1..]| && s[1..][j] == y;
      assert s[j + 1] == y;
    }
  }

  /** A lower bound on the keys of `x` and of `s` bounds the keys after the insertion. */
  lemma InsertKeepsBound<T>(x: T, s: seq<T>, key: T -> int, lo: int)
    requires lo <= key(x)
    requires forall y :: y in s ==> lo <= key(y)
    ensures forall y :: y in InsertByKey(x, s, key) ==> lo <= key(y)
  {
    var r := InsertByKey(x, s, key);
    forall y | y in r ensures lo <= key(y) {
      assert y in multiset(r);
      assert y == x || y in multiset(s);
    }
  }

  /** A sorted sequence stays sorted behind an element whose key is not above any of its keys. */
  lemma SortedCons<T>(x: T, s: seq<T>, key: T -> int)
    requires SortedByKey(s, key)
    requires forall y :: y in s ==> key(x) <= key(y)
    ensures SortedByKey([x] + s, key)
  {
    var r := [x] + s;
    forall i, j | 0 <= i < j < |r| ensures key(r[i]) <= key(r[j]) {
      assert r[j] == s[j - 1];
      if i > 0 {
        assert r[i] == s[i - 1];
      } else {
        assert s[j - 1] in s;
      }
    }
  }

  /**
   * A sort ascending by `key`, the behaviour of `Array.prototype.sort` with
   * the comparator `(a, b) => key(a) - key(b)`. It is an insertion sort, and
   * `InsertByKey` puts each element in front of the later elements of equal
   * key, so it is stable by construction, as that built-in sort is; the
   * contract states the order and the permutation, not the stability.
   */
  function SortByKey<T>(s: seq<T>, key: T -> int): (r: seq<T>)
    ensures multiset(r) == multiset(s)
    ensures SortedByKey(r, key)
  {
    if s == [] then []
    else
      assert s == [s[0]] + s[1..];
      var sorted := SortByKey(s[1..], key);
      InsertByKeySorted(s[0], sorted, key);
      InsertByKey(s[0], sorted, key)
  }
}
