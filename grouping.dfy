/**
 * A plain JavaScript object used as a dictionary (`acc[key] = ...`): its entries, plus the
 * order in which its keys were first assigned. `Object.values` and `Object.entries` list
 * array-index keys ("0", "42") first, in ascending numeric order, and every other key in
 * insertion order.
 */
module Grouping {
  import opened Text
  import opened Folds
  import opened Ranking

  datatype Groups<V> = Groups(order: seq<string>, entries: map<string, V>)

  /** Every key is recorded once in `order`, and `order` records exactly the keys. */
  ghost predicate Valid<V>(g: Groups<V>) {
    && (forall i, j :: 0 <= i < j < |g.order| ==> g.order[i] != g.order[j])
    && (forall k :: k in g.entries <==> k in g.order)
  }

  /** `{}` */
  function Empty<V>(): (g: Groups<V>)
    ensures Valid(g)
  {
    Groups([], map[])
  }

  /** `acc[k] = v`: a new key joins the end of the order, an existing key keeps its place. */
  function Put<V>(g: Groups<V>, k: string, v: V): (r: Groups<V>)
    ensures Valid(g) ==> Valid(r)
    ensures r.entries == g.entries[k := v]
    ensures r.order == if k in g.entries then g.order else g.order + [k]
  {
    if k in g.entries then Groups(g.order, g.entries[k := v])
    else Groups(g.order + [k], g.entries[k := v])
  }

  /** The values in key-insertion order. */
  function Values<V>(g: Groups<V>): (r: seq<V>)
    requires Valid(g)
    ensures |r| == |g.order|
    ensures forall i :: 0 <= i < |r| ==> r[i] == g.entries[g.order[i]]
  {
    seq(|g.order|, i requires 0 <= i < |g.order| => g.entries[g.order[i]])
  }

  /** The canonical decimal form of an integer below 2^32 - 1: JavaScript orders such keys first. */
  predicate IsArrayIndex(k: string) {
    && |k| > 0
    && AllDigits(k)
    && (k[0] != '0' || |k| == 1)
    && DigitsValue(k) < 4294967295
  }

  predicate NotArrayIndex(k: string) {
    !IsArrayIndex(k)
  }

  /** Sorting descending by this key puts array-index keys in ascending numeric order. */
  function AscendingIndex(k: string): real {
    if AllDigits(k) then -(DigitsValue(k) as real) else 0.0
  }

  /** The order of `Object.keys`, `Object.values` and `Object.entries`. */
  function OwnKeyOrder(keys: seq<string>): (r: seq<string>)
    ensures multiset(r) == multiset(keys)
  {
    FilterPartition(keys, IsArrayIndex, NotArrayIndex);
    SortDesc(Filter(keys, IsArrayIndex), AscendingIndex) + Filter(keys, NotArrayIndex)
  }

  /** `Object.values(acc)`. */
  function ObjectValues<V>(g: Groups<V>): (r: seq<V>)
    requires Valid(g)
    ensures |r| == |g.order|
  {
    OwnKeysAreKeys(g);
    ValuesAt(OwnKeyOrder(g.order), g.entries)
  }

  /** The values of the given keys, in their order. */
  function ValuesAt<V>(keys: seq<string>, m: map<string, V>): (r: seq<V>)
    requires forall i :: 0 <= i < |keys| ==> keys[i] in m
    ensures |r| == |keys|
    ensures forall i :: 0 <= i < |keys| ==> r[i] == m[keys[i]]
  {
    seq(|keys|, i requires 0 <= i < |keys| => m[keys[i]])
  }

  lemma OwnKeysAreKeys<V>(g: Groups<V>)
    requires Valid(g)
    ensures forall i :: 0 <= i < |OwnKeyOrder(g.order)| ==> OwnKeyOrder(g.order)[i] in g.entries
  {
    var keys := OwnKeyOrder(g.order);
    forall i | 0 <= i < |keys|
      ensures keys[i] in g.entries
    {
      assert keys[i] in multiset(keys);
      assert keys[i] in g.order;
    }
  }

  lemma {:induction false} Pow10AtLeast(k: nat)
    requires k >= 10
    ensures Pow10(k) >= 10_000_000_000
  {
    if k > 10 {
      Pow10AtLeast(k - 1);
    } else {
      assert Pow10(1) == 10;
      assert Pow10(3) == 1000;
      assert Pow10(5) == 100000;
      assert Pow10(7) == 10000000;
      assert Pow10(9) == 1000000000;
    }
  }

  /** An ObjectId string (24 characters) is never an array-index key. */
  lemma LongKeyIsNotArrayIndex(k: string)
    requires |k| >= 11
    ensures !IsArrayIndex(k)
  {
    if |k| > 0 && AllDigits(k) && k[0] != '0' {
      DigitsValueLowerBound(k);
      Pow10AtLeast(|k| - 1);
    }
  }

  /** Without array-index keys, the own-key order is the insertion order. */
  lemma OwnKeyOrderWithoutIndices(keys: seq<string>)
    requires forall i :: 0 <= i < |keys| ==> NotArrayIndex(keys[i])
    ensures OwnKeyOrder(keys) == keys
  {
    FilterAllOrNone(keys, IsArrayIndex);
    FilterAllOrNone(keys, NotArrayIndex);
  }

  /** Without array-index keys (ObjectId keys, for one), `Object.values` lists the values in key-insertion order. */
  lemma ObjectValuesInInsertionOrder<V>(g: Groups<V>)
    requires Valid(g)
    requires forall i :: 0 <= i < |g.order| ==> |g.order[i]| >= 11
    ensures ObjectValues(g) == Values(g)
  {
    forall i | 0 <= i < |g.order|
      ensures NotArrayIndex(g.order[i])
    {
      LongKeyIsNotArrayIndex(g.order[i]);
    }
    OwnKeyOrderWithoutIndices(g.order);
  }

  lemma {:induction false} DistinctMultiplicity(s: seq<string>)
    requires forall i, j :: 0 <= i < j < |s| ==> s[i] != s[j]
    ensures forall x :: multiset(s)[x] <= 1
  {
    if s != [] {
      DistinctMultiplicity(s[1..]);
      assert s == [s[0]] + s[1..];
      assert s[0] !in multiset(s[1..]);
    }
  }

  /** A rearrangement of distinct keys is distinct. */
  lemma RearrangedDistinct(keys: seq<string>, r: seq<string>)
    requires forall i, j :: 0 <= i < j < |keys| ==> keys[i] != keys[j]
    requires multiset(r) == multiset(keys)
    ensures forall i, j :: 0 <= i < j < |r| ==> r[i] != r[j]
  {
    DistinctMultiplicity(keys);
    forall i, j | 0 <= i < j < |r|
      ensures r[i] != r[j]
    {
      assert r == r[..j] + [r[j]] + r[j + 1..];
      assert r[..j][i] == r[i];
      assert multiset(r)[r[j]] >= multiset(r[..j])[r[j]] + 1;
    }
  }

  /** Distinct keys stay distinct in the own-key order. */
  lemma OwnKeyOrderDistinct(keys: seq<string>)
    requires forall i, j :: 0 <= i < j < |keys| ==> keys[i] != keys[j]
    ensures var r := OwnKeyOrder(keys);
            forall i, j :: 0 <= i < j < |r| ==> r[i] != r[j]
  {
    RearrangedDistinct(keys, OwnKeyOrder(keys));
  }

  /** `acc[k] || 0` for a dictionary of totals. */
  function Amount(m: map<string, real>, k: string): real {
    if k in m then m[k] else 0.0
  }

  function AmountOf(m: map<string, real>): string -> real {
    k => Amount(m, k)
  }

  /** Changing the total of a key listed once changes the sum over the keys by the difference. */
  lemma {:induction false} SumOverKeysUpdate(keys: seq<string>, m: map<string, real>, k: string, v: real)
    requires forall i, j :: 0 <= i < j < |keys| ==> keys[i] != keys[j]
    ensures Sum(keys, AmountOf(m[k := v]))
            == Sum(keys, AmountOf(m)) + if k in keys then v - Amount(m, k) else 0.0
  {
    if keys != [] {
      assert k in keys[1..] <==> k in keys && keys[0] != k;
      SumOverKeysUpdate(keys[1..], m, k, v);
    }
  }

  /** The sum of all totals of a dictionary of totals. */
  function GrandSum(g: Groups<real>): real {
    Sum(g.order, AmountOf(g.entries))
  }

  /** Setting a key's total to `v` changes the sum of all totals by `v` minus its old total. */
  lemma PutGrandSum(g: Groups<real>, k: string, v: real)
    requires Valid(g)
    ensures GrandSum(Put(g, k, v)) == GrandSum(g) + v - Amount(g.entries, k)
  {
    SumOverKeysUpdate(g.order, g.entries, k, v);
    if k !in g.entries {
      SumSnoc(g.order, k, AmountOf(g.entries[k := v]));
    }
  }

  /** What holds of every value of the dictionary holds of every entry `Object.values` lists. */
  lemma ObjectValuesHold<V>(g: Groups<V>, P: V -> bool)
    requires Valid(g)
    requires forall k :: k in g.entries ==> P(g.entries[k])
    ensures forall i :: 0 <= i < |ObjectValues(g)| ==> P(ObjectValues(g)[i])
  {
    OwnKeysAreKeys(g);
  }

  /** What every value of `g` satisfies, every one of its top `n` values satisfies. */
  lemma TopValuesHold<V>(g: Groups<V>, key: V -> real, n: nat, P: V -> bool)
    requires Valid(g)
    requires forall k :: k in g.entries ==> P(g.entries[k])
    ensures |TopN(ObjectValues(g), key, n)| <= n
    ensures forall i :: 0 <= i < |TopN(ObjectValues(g), key, n)| ==> P(TopN(ObjectValues(g), key, n)[i])
  {
    var values := ObjectValues(g);
    ObjectValuesHold(g, P);
    TopNHold(values, key, n, P);
  }

  /**
   * With ObjectId keys, the top `n` values by `key` list the values that tie on `key` in the
   * order their keys were first assigned: the stable sort keeps `Object.values` order.
   */
  lemma TopValuesKeepInsertionOrder<V>(g: Groups<V>, key: V -> real, n: nat, k: real)
    requires Valid(g)
    requires forall i :: 0 <= i < |g.order| ==> |g.order[i]| >= 11
    ensures exists tail :: WithKey(TopN(ObjectValues(g), key, n), key, k) + tail == WithKey(Values(g), key, k)
  {
    ObjectValuesInInsertionOrder(g);
    TopNStable(ObjectValues(g), key, n, k);
  }

  /** Assigning a key twice is assigning it the second value: `if (!acc[k]) acc[k] = a; acc[k] = b;`. */
  lemma PutTwice<V>(g: Groups<V>, k: string, a: V, b: V)
    ensures Put(Put(g, k, a), k, b) == Put(g, k, b)
  {
    assert g.entries[k := a][k := b] == g.entries[k := b];
  }
}
