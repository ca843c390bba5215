/**
 * The `filter` and `reduce` chains of the handlers: keeping the records that satisfy a
 * predicate, and summing a numeric field. Amounts are exact reals, so the order in which
 * `reduce` adds them does not matter.
 */
module Folds {
  import opened Wrappers

  /** `s.filter(p)`: the elements satisfying `p`, in their original order. */
  function Filter<T>(s: seq<T>, p: T -> bool): (r: seq<T>)
    ensures |r| <= |s|
    ensures forall i :: 0 <= i < |r| ==> r[i] in s && p(r[i])
    ensures forall i :: 0 <= i < |s| && p(s[i]) ==> s[i] in r
    ensures multiset(r) <= multiset(s)
  {
    if s == [] then []
    else
      assert s == [s[0]] + s[1..];
      (if p(s[0]) then [s[0]] else []) + Filter(s[1..], p)
  }

  /** `s.reduce((sum, x) => sum + f(x), 0)`. */
  function Sum<T>(s: seq<T>, f: T -> real): real {
    if s == [] then 0.0 else f(s[0]) + Sum(s[1..], f)
  }

  /** `f` where `p` holds, 0 elsewhere. */
  function Masked<T>(p: T -> bool, f: T -> real): T -> real {
    x => if p(x) then f(x) else 0.0
  }

  lemma {:induction false} SumAppend<T>(a: seq<T>, b: seq<T>, f: T -> real)
    ensures Sum(a + b, f) == Sum(a, f) + Sum(b, f)
  {
    if a == [] {
      assert a + b == b;
    } else {
      assert (a + b)[0] == a[0];
      assert (a + b)[1..] == a[1..] + b;
      SumAppend(a[1..], b, f);
    }
  }

  /** Taking one element out of a sequence takes its value out of the sum. */
  lemma {:induction false} SumRemove<T>(s: seq<T>, k: int, f: T -> real)
    requires 0 <= k < |s|
    ensures Sum(s, f) == f(s[k]) + Sum(s[..k] + s[k + 1..], f)
  {
    var before, x, after := s[..k], s[k], s[k + 1..];
    assert s == before + ([x] + after);
    SumAppend(before, [x] + after, f);
    assert ([x] + after)[1..] == after;
    assert Sum([x] + after, f) == f(x) + Sum(after, f);
    SumAppend(before, after, f);
  }

  /** A sum does not depend on the order of the summands. */
  lemma {:induction false} SumPermutation<T>(a: seq<T>, b: seq<T>, f: T -> real)
    requires multiset(a) == multiset(b)
    ensures Sum(a, f) == Sum(b, f)
    decreases |a|
  {
    if a == [] {
      assert |b| == |multiset(b)| == 0;
    } else {
      var x := a[0];
      assert x in multiset(b);
      var k :| 0 <= k < |b| && b[k] == x;
      SumRemove(b, k, f);
      var rest := b[..k] + b[k + 1..];
      assert b == b[..k] + [x] + b[k + 1..];
      assert multiset(b) == multiset(rest) + multiset{x};
      assert a == [x] + a[1..];
      assert multiset(a) == multiset(a[1..]) + multiset{x};
      assert multiset(a[1..]) == multiset(a) - multiset{x};
      assert multiset(rest) == multiset(b) - multiset{x};
      SumPermutation(a[1..], rest, f);
    }
  }

  /** Summing the elements a filter keeps is summing `f` masked by the filter's predicate. */
  lemma {:induction false} SumFilter<T>(s: seq<T>, p: T -> bool, f: T -> real)
    ensures Sum(Filter(s, p), f) == Sum(s, Masked(p, f))
  {
    if s != [] {
      SumFilter(s[1..], p, f);
      SumAppend(if p(s[0]) then [s[0]] else [], Filter(s[1..], p), f);
    }
  }

  /** Filtering by `p` and by its negation `q` splits a sequence into two parts that together hold it all. */
  lemma {:induction false} FilterPartition<T>(s: seq<T>, p: T -> bool, q: T -> bool)
    requires forall x :: q(x) == !p(x)
    ensures multiset(Filter(s, p)) + multiset(Filter(s, q)) == multiset(s)
  {
    if s != [] {
      var t := s[1..];
      FilterPartition(t, p, q);
      FilterCons(s, p);
      FilterCons(s, q);
      assert multiset(s) == multiset{s[0]} + multiset(t) by {
        assert s == [s[0]] + t;
      }
      SplitOne(s[0], p(s[0]), multiset(Filter(t, p)), multiset(Filter(t, q)),
               multiset(Filter(s, p)), multiset(Filter(s, q)));
    }
  }

  /** Adding `x` to exactly one of two parts adds it to their union. */
  lemma SplitOne<T>(x: T, b: bool, a: multiset<T>, c: multiset<T>, a': multiset<T>, c': multiset<T>)
    requires a' == (if b then multiset{x} else multiset{}) + a
    requires c' == (if !b then multiset{x} else multiset{}) + c
    ensures a' + c' == multiset{x} + (a + c)
  {
  }

  /** The multiset of a filter of a non-empty sequence, by its first element. */
  lemma FilterCons<T>(s: seq<T>, p: T -> bool)
    requires s != []
    ensures multiset(Filter(s, p))
            == (if p(s[0]) then multiset{s[0]} else multiset{}) + multiset(Filter(s[1..], p))
  {
    var h := if p(s[0]) then [s[0]] else [];
    assert Filter(s, p) == h + Filter(s[1..], p);
    assert multiset(h + Filter(s[1..], p)) == multiset(h) + multiset(Filter(s[1..], p));
  }

  /** A filter whose predicate holds everywhere keeps everything; one that holds nowhere keeps nothing. */
  lemma {:induction false} FilterAllOrNone<T>(s: seq<T>, p: T -> bool)
    ensures (forall i :: 0 <= i < |s| ==> p(s[i])) ==> Filter(s, p) == s
    ensures (forall i :: 0 <= i < |s| ==> !p(s[i])) ==> Filter(s, p) == []
  {
    if s != [] {
      FilterAllOrNone(s[1..], p);
      assert s == [s[0]] + s[1..];
    }
  }

  /** Two summands that agree on every element give the same sum. */
  lemma {:induction false} SumCongruent<T>(s: seq<T>, f: T -> real, g: T -> real)
    requires forall i :: 0 <= i < |s| ==> f(s[i]) == g(s[i])
    ensures Sum(s, f) == Sum(s, g)
  {
    if s != [] {
      assert forall i :: 0 <= i < |s[1..]| ==> s[1..][i] == s[i + 1];
      SumCongruent(s[1..], f, g);
    }
  }

  /** Adding one element at the end adds its value to the sum. */
  lemma SumSnoc<T>(s: seq<T>, x: T, f: T -> real)
    ensures Sum(s + [x], f) == Sum(s, f) + f(x)
  {
    SumAppend(s, [x], f);
    assert [x][1..] == [];
  }

  /** A sum whose summand is 0 on every element is 0. */
  lemma {:induction false} SumZero<T>(s: seq<T>, f: T -> real)
    requires forall i :: 0 <= i < |s| ==> f(s[i]) == 0.0
    ensures Sum(s, f) == 0.0
  {
    if s != [] {
      assert forall i :: 0 <= i < |s[1..]| ==> s[1..][i] == s[i + 1];
      SumZero(s[1..], f);
    }
  }

  /** Filtering a concatenation filters each part. */
  lemma {:induction false} FilterAppend<T>(a: seq<T>, b: seq<T>, p: T -> bool)
    ensures Filter(a + b, p) == Filter(a, p) + Filter(b, p)
  {
    if a == [] {
      assert a + b == b;
    } else {
      assert (a + b)[0] == a[0];
      assert (a + b)[1..] == a[1..] + b;
      FilterAppend(a[1..], b, p);
    }
  }

  /** How many elements satisfy `p`: `s.filter(p).length`. */
  function Count<T>(s: seq<T>, p: T -> bool): nat {
    |Filter(s, p)|
  }

  /** One more element at the end is counted exactly when it satisfies `p`. */
  lemma CountSnoc<T>(s: seq<T>, x: T, p: T -> bool)
    ensures Count(s + [x], p) == Count(s, p) + if p(x) then 1 else 0
  {
    FilterAppend(s, [x], p);
    assert [x][1..] == [];
  }

  function One<T>(x: T): real {
    1.0
  }

  /** Counting is summing 1 over the elements that satisfy `p`. */
  lemma {:induction false} CountAsSum<T>(s: seq<T>, p: T -> bool)
    ensures Count(s, p) as real == Sum(s, Masked(p, One))
  {
    if s != [] {
      CountAsSum(s[1..], p);
    }
  }

  /** A count does not depend on the order of the elements. */
  lemma CountPermutation<T>(a: seq<T>, b: seq<T>, p: T -> bool)
    requires multiset(a) == multiset(b)
    ensures Count(a, p) == Count(b, p)
  {
    CountAsSum(a, p);
    CountAsSum(b, p);
    SumPermutation(a, b, Masked(p, One));
  }

  /** `s.find(p)`: the first element satisfying `p`, if there is one. */
  function First<T>(s: seq<T>, p: T -> bool): (r: Option<T>)
    ensures r.Some? <==> exists i :: 0 <= i < |s| && p(s[i])
    ensures r.Some? ==> r.value in s && p(r.value)
  {
    if s == [] then None
    else if p(s[0]) then Some(s[0])
    else
      var r := First(s[1..], p);
      assert forall i :: 1 <= i < |s| ==> s[i] == s[1..][i - 1];
      r
  }

  /** The first element of a concatenation satisfying `p` comes from the first part when it has one. */
  lemma {:induction false} FirstAppend<T>(a: seq<T>, b: seq<T>, p: T -> bool)
    ensures First(a + b, p) == if First(a, p).Some? then First(a, p) else First(b, p)
  {
    if a == [] {
      assert a + b == b;
    } else {
      assert (a + b)[0] == a[0];
      assert (a + b)[1..] == a[1..] + b;
      FirstAppend(a[1..], b, p);
    }
  }

  /** One more element at the end adds its value to a masked sum exactly when it passes the mask. */
  lemma MaskedSumSnoc<T>(s: seq<T>, x: T, p: T -> bool, f: T -> real)
    ensures Sum(s + [x], Masked(p, f)) == Sum(s, Masked(p, f)) + if p(x) then f(x) else 0.0
  {
    SumSnoc(s, x, Masked(p, f));
  }

  /** With no element passing the mask, a masked sum is 0. */
  lemma MaskedSumNone<T>(s: seq<T>, p: T -> bool, f: T -> real)
    requires First(s, p).None?
    ensures Sum(s, Masked(p, f)) == 0.0
  {
    SumZero(s, Masked(p, f));
  }
}
