/**
 * `values.sort((a, b) => key(b) - key(a)).slice(0, n)`: a stable descending sort (the
 * JavaScript engine's sort is stable) followed by truncation to the first `n` entries.
 */
module Ranking {

  /** Keys never increase along `s`. */
  predicate SortedDesc<T>(s: seq<T>, key: T -> real) {
    forall i, j :: 0 <= i < j < |s| ==> key(s[i]) >= key(s[j])
  }

  /** Puts `x` after every element with a larger key and before every other one. */
  function InsertDesc<T>(x: T, s: seq<T>, key: T -> real): (r: seq<T>)
    ensures |r| == |s| + 1
    ensures multiset(r) == multiset(s) + multiset{x}
    ensures r[0] == x || (s != [] && r[0] == s[0])
  {
    if s == [] || key(s[0]) <= key(x) then [x] + s
    else
      assert s == [s[0]] + s[1..];
      [s[0]] + InsertDesc(x, s[1..], key)
  }

  /** Inserting into a sorted sequence keeps it sorted. */
  lemma {:induction false} InsertDescSorted<T>(x: T, s: seq<T>, key: T -> real)
    requires SortedDesc(s, key)
    ensures SortedDesc(InsertDesc(x, s, key), key)
  {
    var r := InsertDesc(x, s, key);
    if s == [] || key(s[0]) <= key(x) {
      assert r == [x] + s;
      forall i, j | 0 <= i < j < |r|
        ensures key(r[i]) >= key(r[j])
      {
        assert r[j] == s[j - 1];
        if i > 0 {
          assert r[i] == s[i - 1];
        }
      }
    } else {
      var t := s[1..];
      var r' := InsertDesc(x, t, key);
      assert SortedDesc(t, key) by {
        forall i, j | 0 <= i < j < |t|
          ensures key(t[i]) >= key(t[j])
        {
          assert t[i] == s[i + 1] && t[j] == s[j + 1];
        }
      }
      InsertDescSorted(x, t, key);
      assert r == [s[0]] + r';
      assert key(s[0]) >= key(r'[0]) by {
        if r'[0] != x {
          assert r'[0] == t[0] == s[1];
        }
      }
      forall i, j | 0 <= i < j < |r|
        ensures key(r[i]) >= key(r[j])
      {
        assert r[j] == r'[j - 1];
        if i > 0 {
          assert r[i] == r'[i - 1];
        }
      }
    }
  }

  /** The comparator `(a, b) => key(b) - key(a)` under a stable sort. */
  function SortDesc<T>(s: seq<T>, key: T -> real): (r: seq<T>)
    ensures |r| == |s|
    ensures multiset(r) == multiset(s)
    ensures SortedDesc(r, key)
  {
    if s == [] then []
    else
      assert s == [s[0]] + s[1..];
      var rest := SortDesc(s[1..], key);
      InsertDescSorted(s[0], rest, key);
      InsertDesc(s[0], rest, key)
  }

  /**
   * Insertion lands right after the leading run of elements with a larger key: `x` goes at
   * the first position `m` whose element does not outrank it.
   */
  lemma {:induction false} InsertDescAt<T>(x: T, s: seq<T>, key: T -> real, m: int)
    requires 0 <= m <= |s|
    requires forall k :: 0 <= k < m ==> key(s[k]) > key(x)
    requires m < |s| ==> key(s[m]) <= key(x)
    ensures InsertDesc(x, s, key) == s[..m] + [x] + s[m..]
    decreases m
  {
    if m == 0 {
      assert s[..0] + [x] + s[0..] == [x] + s;
    } else {
      var t := s[1..];
      assert key(s[0]) > key(x);
      assert InsertDesc(x, s, key) == [s[0]] + InsertDesc(x, t, key);
      InsertDescAtTail(x, s, key, m);
      InsertDescAt(x, t, key, m - 1);
      JoinAfterHead(s, x, m);
    }
  }

  /** The requires of `InsertDescAt` carry over from `s` to its tail. */
  lemma InsertDescAtTail<T>(x: T, s: seq<T>, key: T -> real, m: int)
    requires 1 <= m <= |s|
    requires forall k :: 0 <= k < m ==> key(s[k]) > key(x)
    requires m < |s| ==> key(s[m]) <= key(x)
    ensures forall k :: 0 <= k < m - 1 ==> key(s[1..][k]) > key(x)
    ensures m - 1 < |s[1..]| ==> key(s[1..][m - 1]) <= key(x)
  {
    forall k | 0 <= k < m - 1
      ensures key(s[1..][k]) > key(x)
    {
      assert s[1..][k] == s[k + 1];
    }
  }

  lemma JoinAfterHead<T>(s: seq<T>, x: T, m: int)
    requires 1 <= m <= |s|
    ensures [s[0]] + (s[1..][..m - 1] + [x] + s[1..][m - 1..]) == s[..m] + [x] + s[m..]
  {
    assert s[..m] == [s[0]] + s[1..][..m - 1];
    assert s[m..] == s[1..][m - 1..];
  }

  /** Sorting one more element in front inserts it into the sorted rest. */
  lemma SortDescCons<T>(s: seq<T>, key: T -> real)
    requires s != []
    ensures SortDesc(s, key) == InsertDesc(s[0], SortDesc(s[1..], key), key)
  {
  }

  /** The elements of `s` whose key is `k`, in their order in `s`. */
  function WithKey<T>(s: seq<T>, key: T -> real, k: real): seq<T> {
    if s == [] then [] else (if key(s[0]) == k then [s[0]] else []) + WithKey(s[1..], key, k)
  }

  lemma {:induction false} InsertDescStable<T>(x: T, s: seq<T>, key: T -> real, k: real)
    ensures WithKey(InsertDesc(x, s, key), key, k)
            == (if key(x) == k then [x] else []) + WithKey(s, key, k)
  {
    var hx := if key(x) == k then [x] else [];
    if s == [] || key(s[0]) <= key(x) {
      assert ([x] + s)[0] == x;
      assert ([x] + s)[1..] == s;
      assert WithKey([x] + s, key, k) == hx + WithKey(s, key, k);
    } else {
      var h0 := if key(s[0]) == k then [s[0]] else [];
      var r := InsertDesc(x, s[1..], key);
      assert ([s[0]] + r)[0] == s[0];
      assert ([s[0]] + r)[1..] == r;
      assert WithKey([s[0]] + r, key, k) == h0 + WithKey(r, key, k);
      InsertDescStable(x, s[1..], key, k);
      assert WithKey(s, key, k) == h0 + WithKey(s[1..], key, k);
      assert h0 == [] || hx == [];
    }
  }

  /** Stability: among elements with equal keys the sort keeps their original order. */
  lemma {:induction false} SortDescStable<T>(s: seq<T>, key: T -> real, k: real)
    ensures WithKey(SortDesc(s, key), key, k) == WithKey(s, key, k)
  {
    if s != [] {
      SortDescStable(s[1..], key, k);
      InsertDescStable(s[0], SortDesc(s[1..], key), key, k);
    }
  }

  function Min(a: int, b: int): int {
    if a < b then a else b
  }

  /** `values.sort(byKeyDescending).slice(0, n)`. */
  function TopN<T>(s: seq<T>, key: T -> real, n: nat): (r: seq<T>)
    ensures |r| == Min(n, |s|)
    ensures SortedDesc(r, key)
    ensures multiset(r) <= multiset(s)
  {
    var sorted := SortDesc(s, key);
    assert sorted == sorted[..Min(n, |s|)] + sorted[Min(n, |s|)..];
    sorted[..Min(n, |s|)]
  }

  /**
   * The entries `TopN` keeps are the ones with the largest keys: no entry left out has a
   * larger key than an entry kept.
   */
  lemma TopNKeepsLargest<T>(s: seq<T>, key: T -> real, n: nat)
    ensures forall x, y :: x in multiset(s) - multiset(TopN(s, key, n)) && y in TopN(s, key, n)
                           ==> key(x) <= key(y)
  {
    var sorted := SortDesc(s, key);
    var m := Min(n, |s|);
    var kept, rest := sorted[..m], sorted[m..];
    assert sorted == kept + rest;
    assert multiset(s) - multiset(kept) == multiset(rest);
    forall x, y | x in multiset(s) - multiset(kept) && y in kept
      ensures key(x) <= key(y)
    {
      var i :| 0 <= i < |rest| && rest[i] == x;
      var j :| 0 <= j < |kept| && kept[j] == y;
      assert sorted[m + i] == x && sorted[j] == y;
    }
  }

  /** Ties among the kept entries are in their original relative order. */
  lemma TopNStable<T>(s: seq<T>, key: T -> real, n: nat, k: real)
    ensures exists tail :: WithKey(TopN(s, key, n), key, k) + tail == WithKey(s, key, k)
  {
    var sorted := SortDesc(s, key);
    var m := Min(n, |s|);
    assert sorted == sorted[..m] + sorted[m..];
    WithKeyAppend(sorted[..m], sorted[m..], key, k);
    SortDescStable(s, key, k);
    assert WithKey(TopN(s, key, n), key, k) + WithKey(sorted[m..], key, k) == WithKey(s, key, k);
  }

  lemma {:induction false} WithKeyAppend<T>(a: seq<T>, b: seq<T>, key: T -> real, k: real)
    ensures WithKey(a + b, key, k) == WithKey(a, key, k) + WithKey(b, key, k)
  {
    if a == [] {
      assert a + b == b;
    } else {
      var h := if key(a[0]) == k then [a[0]] else [];
      assert (a + b)[0] == a[0];
      assert (a + b)[1..] == a[1..] + b;
      assert WithKey(a + b, key, k) == h + WithKey(a[1..] + b, key, k);
      WithKeyAppend(a[1..], b, key, k);
      assert WithKey(a, key, k) == h + WithKey(a[1..], key, k);
    }
  }

  /** What holds of every entry holds of every entry `TopN` keeps. */
  lemma TopNHold<T>(s: seq<T>, key: T -> real, n: nat, P: T -> bool)
    requires forall i :: 0 <= i < |s| ==> P(s[i])
    ensures |TopN(s, key, n)| <= n
    ensures forall i :: 0 <= i < |TopN(s, key, n)| ==> P(TopN(s, key, n)[i])
  {
    var r := TopN(s, key, n);
    forall i | 0 <= i < |r|
      ensures P(r[i])
    {
      assert r[i] in multiset(r);
      assert r[i] in multiset(s);
    }
  }
}
