/** A Python `dict` keyed by symbol: it remembers insertion order, an update keeps the place. */
module OrderedDict {
  import opened Common

  type Dict<V> = seq<(string, V)>

  /** The position of a key, or the length when it is absent. */
  function IndexOf<V>(d: Dict<V>, k: string): (i: nat)
    ensures i <= |d|
    ensures i < |d| ==> d[i].0 == k
    ensures forall j :: 0 <= j < i ==> d[j].0 != k
  {
    if d == [] then 0 else if d[0].0 == k then 0 else 1 + IndexOf(d[1..], k)
  }

  predicate Has<V>(d: Dict<V>, k: string) { IndexOf(d, k) < |d| }

  function Get<V>(d: Dict<V>, k: string): V
    requires Has(d, k)
  {
    d[IndexOf(d, k)].1
  }

  function Put<V>(d: Dict<V>, k: string, v: V): Dict<V> {
    if Has(d, k) then d[IndexOf(d, k) := (k, v)] else d + [(k, v)]
  }

  function Remove<V>(d: Dict<V>, k: string): Dict<V> {
    if Has(d, k) then d[..IndexOf(d, k)] + d[IndexOf(d, k) + 1..] else d
  }

  function Keys<V>(d: Dict<V>): seq<string> {
    seq(|d|, i requires 0 <= i < |d| => d[i].0)
  }

  predicate Distinct<V>(d: Dict<V>) {
    forall i, j :: 0 <= i < j < |d| ==> d[i].0 != d[j].0
  }

  lemma IndexByKeys<V, W>(d: Dict<V>, e: Dict<W>, k: string)
    requires Keys(d) == Keys(e)
    ensures IndexOf(d, k) == IndexOf(e, k) && Has(d, k) == Has(e, k)
  {
    var i, j := IndexOf(d, k), IndexOf(e, k);
    assert |d| == |Keys(d)| == |e|;
    assert forall n :: 0 <= n < |d| ==> Keys(d)[n] == d[n].0 && Keys(e)[n] == e[n].0;
    assert i < |d| ==> e[i].0 == k;
    assert j < |e| ==> d[j].0 == k;
  }

  lemma SameKeysPut<V, W>(d: Dict<V>, e: Dict<W>, k: string, v: V, w: W)
    requires Keys(d) == Keys(e)
    ensures Keys(Put(d, k, v)) == Keys(Put(e, k, w))
  {
    IndexByKeys(d, e, k);
    assert forall n :: 0 <= n < |d| ==> Keys(d)[n] == d[n].0 && Keys(e)[n] == e[n].0;
    assert |d| == |e|;
  }

  lemma PutKnown<V>(d: Dict<V>, k: string, v: V)
    requires Has(d, k)
    ensures Keys(Put(d, k, v)) == Keys(d)
  {
  }

  lemma SameKeysRemove<V, W>(d: Dict<V>, e: Dict<W>, k: string)
    requires Keys(d) == Keys(e)
    ensures Keys(Remove(d, k)) == Keys(Remove(e, k))
  {
    IndexByKeys(d, e, k);
    assert forall n :: 0 <= n < |d| ==> Keys(d)[n] == d[n].0 && Keys(e)[n] == e[n].0;
    assert |d| == |e|;
  }

  lemma HasIff<V>(d: Dict<V>, k: string)
    ensures Has(d, k) <==> exists i :: 0 <= i < |d| && d[i].0 == k
  {
  }

  lemma DistinctPut<V>(d: Dict<V>, k: string, v: V)
    requires Distinct(d)
    ensures Distinct(Put(d, k, v))
    ensures forall x :: Has(Put(d, k, v), x) <==> x == k || Has(d, x)
    ensures Get(Put(d, k, v), k) == v
  {
    var e := Put(d, k, v);
    forall x ensures Has(e, x) <==> x == k || Has(d, x) {
      HasIff(d, x);
      HasIff(e, x);
      if Has(d, x) {
        assert e[IndexOf(d, x)].0 == x;
      }
      if x == k && !Has(d, k) {
        assert e[|d|].0 == k;
      }
    }
  }

  lemma DistinctRemove<V>(d: Dict<V>, k: string)
    requires Distinct(d)
    ensures Distinct(Remove(d, k))
    ensures forall x :: Has(Remove(d, k), x) <==> x != k && Has(d, x)
  {
    var e := Remove(d, k);
    if Has(d, k) {
      var i := IndexOf(d, k);
      assert forall n :: 0 <= n < |e| ==> e[n] == if n < i then d[n] else d[n + 1];
      forall x ensures Has(e, x) <==> x != k && Has(d, x) {
        HasIff(d, x);
        HasIff(e, x);
        if x != k && Has(d, x) {
          var j := IndexOf(d, x);
          assert e[if j < i then j else j - 1].0 == x;
        }
      }
    }
  }

  /* ---------- sums over the values ---------- */

  function SumOf<V>(d: Dict<V>, f: V -> real): real {
    if d == [] then 0.0 else f(d[0].1) + SumOf(d[1..], f)
  }

  lemma SumAppend<V>(d: Dict<V>, e: Dict<V>, f: V -> real)
    ensures SumOf(d + e, f) == SumOf(d, f) + SumOf(e, f)
  {
    if d == [] {
      assert d + e == e;
    } else {
      assert (d + e)[1..] == d[1..] + e;
    }
  }

  lemma SumSplit<V>(d: Dict<V>, i: nat, f: V -> real)
    requires i < |d|
    ensures SumOf(d, f) == SumOf(d[..i], f) + f(d[i].1) + SumOf(d[i + 1..], f)
  {
    SumAppend(d[..i], d[i..], f);
    assert d == d[..i] + d[i..];
    assert d[i..][1..] == d[i + 1..];
  }

  lemma SumPut<V>(d: Dict<V>, k: string, v: V, f: V -> real)
    ensures SumOf(Put(d, k, v), f) == SumOf(d, f) + f(v) - (if Has(d, k) then f(Get(d, k)) else 0.0)
  {
    if Has(d, k) {
      var i := IndexOf(d, k);
      var e := Put(d, k, v);
      SumSplit(d, i, f);
      SumSplit(e, i, f);
      assert e[..i] == d[..i] && e[i + 1..] == d[i + 1..];
    } else {
      SumAppend(d, [(k, v)], f);
      assert [(k, v)][1..] == [];
    }
  }

  lemma SumRemove<V>(d: Dict<V>, k: string, f: V -> real)
    ensures SumOf(Remove(d, k), f) == SumOf(d, f) - (if Has(d, k) then f(Get(d, k)) else 0.0)
  {
    if Has(d, k) {
      var i := IndexOf(d, k);
      SumSplit(d, i, f);
      SumAppend(d[..i], d[i + 1..], f);
    }
  }

  /* ---------- values as a multiset ---------- */

  function Bag<V, K>(d: Dict<V>, f: V -> K): multiset<K> {
    if d == [] then multiset{} else multiset{f(d[0].1)} + Bag(d[1..], f)
  }

  lemma BagAppend<V, K>(d: Dict<V>, e: Dict<V>, f: V -> K)
    ensures Bag(d + e, f) == Bag(d, f) + Bag(e, f)
  {
    if d == [] {
      assert d + e == e;
    } else {
      assert (d + e)[1..] == d[1..] + e;
      BagHead(d, f);
      BagHead(d + e, f);
      hide Bag;
      BagAppend(d[1..], e, f);
    }
  }

  lemma BagSplit<V, K>(d: Dict<V>, i: nat, f: V -> K)
    requires i < |d|
    ensures Bag(d, f) == Bag(d[..i], f) + multiset{f(d[i].1)} + Bag(d[i + 1..], f)
  {
    hide Bag;
    assert d == d[..i] + d[i..] && d[i..][1..] == d[i + 1..] && d[i..][0] == d[i];
    BagAppend(d[..i], d[i..], f);
    BagHead(d[i..], f);
    Associate(Bag(d[..i], f), multiset{f(d[i].1)}, Bag(d[i + 1..], f));
  }

  lemma Associate<K>(a: multiset<K>, b: multiset<K>, c: multiset<K>)
    ensures a + (b + c) == a + b + c
  {
  }

  lemma BagHead<V, K>(d: Dict<V>, f: V -> K)
    requires d != []
    ensures Bag(d, f) == multiset{f(d[0].1)} + Bag(d[1..], f)
  {
  }

  lemma BagPutNew<V, K>(d: Dict<V>, k: string, v: V, f: V -> K)
    requires !Has(d, k)
    ensures Bag(Put(d, k, v), f) == Bag(d, f) + multiset{f(v)}
  {
    BagAppend(d, [(k, v)], f);
    assert [(k, v)][1..] == [];
  }

  lemma BagPutKnown<V, K>(d: Dict<V>, k: string, v: V, f: V -> K)
    requires Has(d, k) && f(Get(d, k)) == f(v)
    ensures Bag(Put(d, k, v), f) == Bag(d, f)
  {
    var i := IndexOf(d, k);
    var e := Put(d, k, v);
    BagSplit(d, i, f);
    BagSplit(e, i, f);
    assert e[..i] == d[..i] && e[i + 1..] == d[i + 1..];
  }

  lemma BagRemove<V, K>(d: Dict<V>, k: string, f: V -> K)
    requires Has(d, k)
    ensures Bag(Remove(d, k), f) + multiset{f(Get(d, k))} == Bag(d, f)
  {
    var i := IndexOf(d, k);
    BagSplit(d, i, f);
    BagAppend(d[..i], d[i + 1..], f);
  }
}
