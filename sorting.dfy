/**
 * `Array.prototype.sort` with a numeric comparator `a - b` on a key, and
 * `slice(0, n)`: the two list operations behind the dashboard's lists.
 */
module Sorting {

  /** Ascending by `key`. */
  predicate SortedBy<T>(s: seq<T>, key: T -> int) {
    forall i, j :: 0 <= i < j < |s| ==> key(s[i]) <= key(s[j])
  }

  /** Put `x` before the first element whose key is not smaller, so equal keys keep their order. */
  function Insert<T>(x: T, s: seq<T>, key: T -> int): (r: seq<T>)
    requires SortedBy(s, key)
    ensures SortedBy(r, key)
    ensures multiset(r) == multiset(s) + multiset{x}
    ensures |r| == |s| + 1
    ensures key(r[0]) == if |s| > 0 && key(s[0]) < key(x) then key(s[0]) else key(x)
  {
    if |s| == 0 || key(x) <= key(s[0]) then
      [x] + s
    else
      var rest := Insert(x, s[1..], key);
      assert s == [s[0]] + s[1..];
      [s[0]] + rest
  }

  /** The sort: a permutation of `s`, ascending by `key`. */
  function SortBy<T>(s: seq<T>, key: T -> int): (r: seq<T>)
    ensures SortedBy(r, key)
    ensures multiset(r) == multiset(s)
    ensures |r| == |s|
  {
    if |s| == 0 then []
    else
      assert s == [s[0]] + s[1..];
      Insert(s[0], SortBy(s[1..], key), key)
  }

  /** `slice(0, n)`. */
  function Take<T>(s: seq<T>, n: nat): (r: seq<T>)
    ensures |r| == if |s| < n then |s| else n
    ensures r == s[..|r|]
  {
    if |s| < n then s else s[..n]
  }

  /**
   * The first `n` of the sorted list are the `n` smallest keys: together with
   * the rest they are all of `s`, and none of the rest has a smaller key than
   * any of them.
   */
  lemma {:induction false} TakeSmallest<T>(s: seq<T>, key: T -> int, n: nat)
    ensures var t := SortBy(s, key); var r := Take(t, n);
      && multiset(r) + multiset(t[|r|..]) == multiset(s)
      && forall i, j :: 0 <= i < |r| && |r| <= j < |t| ==> key(r[i]) <= key(t[j])
  {
    var t := SortBy(s, key);
    var r := Take(t, n);
    assert t == r + t[|r|..];
  }

  /** A prefix of a sorted list is sorted. */
  lemma PrefixSorted<T>(t: seq<T>, key: T -> int, m: nat)
    requires m <= |t| && SortedBy(t, key)
    ensures SortedBy(t[..m], key)
  {
    forall i, j | 0 <= i < j < m ensures key(t[..m][i]) <= key(t[..m][j]) {
      assert t[..m][i] == t[i] && t[..m][j] == t[j];
    }
  }

  /** The first `n` of the sorted list are sorted ... */
  lemma TakeSorted<T>(s: seq<T>, key: T -> int, n: nat)
    ensures SortedBy(Take(SortBy(s, key), n), key)
  {
    var t := SortBy(s, key);
    PrefixSorted(t, key, |Take(t, n)|);
  }

  /** ... drawn from `s` ... */
  lemma TakeFromSource<T>(s: seq<T>, key: T -> int, n: nat)
    ensures multiset(Take(SortBy(s, key), n)) <= multiset(s)
  {
    var t := SortBy(s, key);
    var r := Take(t, n);
    assert t == r + t[|r|..];
    assert multiset(t) == multiset(r) + multiset(t[|r|..]);
  }

  /** ... and all of `s` when it has at most `n` elements. */
  lemma TakeAll<T>(s: seq<T>, key: T -> int, n: nat)
    ensures |s| <= n ==> multiset(Take(SortBy(s, key), n)) == multiset(s)
  {
    var t := SortBy(s, key);
    if |s| <= n {
      assert Take(t, n) == t;
    }
  }

  /** Whatever holds of every element of `s` holds of every element of a sub-multiset of it. */
  lemma SubMultisetKeeps<T>(r: seq<T>, s: seq<T>, p: T -> bool)
    requires multiset(r) <= multiset(s)
    requires forall k :: 0 <= k < |s| ==> p(s[k])
    ensures forall k :: 0 <= k < |r| ==> p(r[k])
  {
    forall k | 0 <= k < |r| ensures p(r[k]) {
      assert r[k] in multiset(s);
    }
  }
}
