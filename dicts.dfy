/** Python's insertion-ordered `dict` with string keys, as a sequence of
    entries whose keys are pairwise distinct. */
module Dicts {

  type Dict<V> = seq<(string, V)>

  predicate DistinctKeys<V>(m: Dict<V>) {
    forall i, j :: 0 <= i < j < |m| ==> m[i].0 != m[j].0
  }

  /** The keys in insertion order, what `d.keys()` iterates over. */
  function Keys<V>(m: Dict<V>): (ks: seq<string>)
    ensures |ks| == |m| && forall i :: 0 <= i < |m| ==> ks[i] == m[i].0
  {
    seq(|m|, i requires 0 <= i < |m| => m[i].0)
  }

  /** `k in d`. */
  predicate Has<V>(m: Dict<V>, k: string) {
    exists i :: 0 <= i < |m| && m[i].0 == k
  }

  /** The position of `k`: the first entry that carries it. */
  function IndexOf<V>(m: Dict<V>, k: string): (i: nat)
    requires Has(m, k)
    ensures i < |m| && m[i].0 == k
    ensures forall j :: 0 <= j < i ==> m[j].0 != k
  {
    if m[0].0 == k then 0 else 1 + IndexOf(m[1..], k)
  }

  /** `d[k]`. */
  function Get<V>(m: Dict<V>, k: string): V
    requires Has(m, k)
  {
    m[IndexOf(m, k)].1
  }

  lemma GetAt<V>(m: Dict<V>, i: nat)
    requires DistinctKeys(m) && i < |m|
    ensures Has(m, m[i].0) && Get(m, m[i].0) == m[i].1
  {
    assert Has(m, m[i].0);
  }

  /** `d[k] = v`: an existing key keeps its position and takes the new
      value; a new key goes last. */
  function Put<V>(m: Dict<V>, k: string, v: V): (r: Dict<V>)
    ensures Has(m, k) ==> r == m[IndexOf(m, k) := (k, v)]
    ensures !Has(m, k) ==> r == m + [(k, v)]
    ensures DistinctKeys(m) ==> DistinctKeys(r)
    ensures Has(r, k) && (DistinctKeys(m) ==> Get(r, k) == v)
    ensures forall k' :: k' != k ==> (Has(r, k') <==> Has(m, k'))
    ensures forall k' :: k' != k && Has(m, k') ==> Get(r, k') == Get(m, k')
    ensures Keys(r) == if Has(m, k) then Keys(m) else Keys(m) + [k]
  {
    if Has(m, k) then
      PutExisting(m, k, v, m[IndexOf(m, k) := (k, v)]);
      m[IndexOf(m, k) := (k, v)]
    else
      PutNew(m, k, v, m + [(k, v)]);
      m + [(k, v)]
  }

  lemma PutExisting<V>(m: Dict<V>, k: string, v: V, r: Dict<V>)
    requires Has(m, k) && r == m[IndexOf(m, k) := (k, v)]
    ensures DistinctKeys(m) ==> DistinctKeys(r)
    ensures Has(r, k) && (DistinctKeys(m) ==> Get(r, k) == v)
    ensures forall k' :: k' != k ==> (Has(r, k') <==> Has(m, k'))
    ensures forall k' :: k' != k && Has(m, k') ==> Get(r, k') == Get(m, k')
    ensures Keys(r) == Keys(m)
  {
    assert forall i :: 0 <= i < |r| ==> r[i].0 == m[i].0;
    forall k' | Has(m, k') ensures Has(r, k') && IndexOf(r, k') == IndexOf(m, k') {
      SameKeysIndexOf(m, r, k');
    }
    forall k' | Has(r, k') ensures Has(m, k') {
      SameKeysIndexOf(r, m, k');
    }
  }

  /** Dicts with the same keys at the same positions find a key at the same place. */
  lemma SameKeysIndexOf<V, W>(m: Dict<V>, n: Dict<W>, k: string)
    requires |m| == |n| && forall i :: 0 <= i < |m| ==> m[i].0 == n[i].0
    requires Has(m, k)
    ensures Has(n, k) && IndexOf(n, k) == IndexOf(m, k)
  {
    var a := IndexOf(m, k);
    assert n[a].0 == k;
    var b := IndexOf(n, k);
    assert m[b].0 == k;
  }

  lemma PutNew<V>(m: Dict<V>, k: string, v: V, r: Dict<V>)
    requires !Has(m, k) && r == m + [(k, v)]
    ensures DistinctKeys(m) ==> DistinctKeys(r)
    ensures Has(r, k) && (DistinctKeys(m) ==> Get(r, k) == v)
    ensures forall k' :: k' != k ==> (Has(r, k') <==> Has(m, k'))
    ensures forall k' :: k' != k && Has(m, k') ==> Get(r, k') == Get(m, k')
    ensures Keys(r) == Keys(m) + [k]
  {
    assert r[|m|].0 == k;
    assert forall i :: 0 <= i < |m| ==> r[i] == m[i];
    assert forall k' :: Has(m, k') ==> r[IndexOf(m, k')].0 == k';
  }
}
