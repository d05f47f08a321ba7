/** Python's ordered dictionary as a sequence of pairs, oldest first: updating a key keeps its place. */
module OrderedDictionary {
  import opened Wrappers

  type Dict<K, V> = seq<(K, V)>

  predicate Distinct<K(==), V>(d: Dict<K, V>) { forall i, j :: 0 <= i < j < |d| ==> d[i].0 != d[j].0 }

  predicate Has<K(==), V>(d: Dict<K, V>, k: K) { exists i :: 0 <= i < |d| && d[i].0 == k }

  /** The position of `k`, or the length when it is absent. */
  function Find<K(==), V>(d: Dict<K, V>, k: K): (i: nat)
    ensures i <= |d|
    ensures i < |d| ==> d[i].0 == k
    ensures forall j :: 0 <= j < i ==> d[j].0 != k
    ensures i == |d| <==> !Has(d, k)
  {
    if d == [] then 0 else if d[0].0 == k then 0 else
      var i := Find(d[1..], k);
      assert forall j :: 0 < j < |d| ==> d[j] == d[1..][j - 1];
      i + 1
  }

  function Lookup<K(==), V>(d: Dict<K, V>, k: K): Option<V> {
    var i := Find(d, k);
    if i < |d| then Some(d[i].1) else None
  }

  function Put<K(==), V>(d: Dict<K, V>, k: K, v: V): Dict<K, V> {
    var i := Find(d, k);
    if i < |d| then d[i := (k, v)] else d + [(k, v)]
  }

  function Remove<K(==), V>(d: Dict<K, V>, k: K): Dict<K, V> {
    var i := Find(d, k);
    if i < |d| then d[..i] + d[i + 1..] else d
  }

  lemma FindUnique<K, V>(d: Dict<K, V>, k: K, i: nat)
    requires Distinct(d) && i < |d| && d[i].0 == k
    ensures Find(d, k) == i && Lookup(d, k) == Some(d[i].1)
  {
    assert Has(d, k);
  }
}
