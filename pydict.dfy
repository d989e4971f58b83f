/**
 * Python's built-in `dict`, as the sequence of its entries in iteration order.
 * A dict remembers insertion order: storing to an existing key replaces the
 * value in place, storing to a new key appends an entry at the end.
 */
module PyDict {
  import opened Wrappers

  type Dict<K, V> = seq<(K, V)>

  /** `k in d` */
  predicate HasKey<K(==), V>(d: Dict<K, V>, k: K) {
    exists i :: 0 <= i < |d| && d[i].0 == k
  }

  /** Every key occurs in one entry only, as in every Python dict. */
  predicate DistinctKeys<K(==), V>(d: Dict<K, V>) {
    forall i, j :: 0 <= i < j < |d| ==> d[i].0 != d[j].0
  }

  /** The position of the entry whose key is `k`. */
  function IndexOf<K(==), V>(d: Dict<K, V>, k: K): (r: nat)
    requires HasKey(d, k)
    ensures r < |d| && d[r].0 == k
    ensures forall j :: 0 <= j < r ==> d[j].0 != k
  {
    if d[0].0 == k then 0
    else
      assert HasKey(d[1..], k) by {
        var i :| 0 <= i < |d| && d[i].0 == k;
        assert d[1..][i - 1].0 == k;
      }
      1 + IndexOf(d[1..], k)
  }

  /** The first entry with key `k` is the one `IndexOf` finds. */
  lemma IndexOfFirst<K, V>(d: Dict<K, V>, k: K, i: nat)
    requires i < |d| && d[i].0 == k
    requires forall j :: 0 <= j < i ==> d[j].0 != k
    ensures HasKey(d, k) && IndexOf(d, k) == i
  {
  }

  /** `d.get(k)`: the value stored under `k`, or `None` when `k` is not a key. */
  function Get<K(==), V>(d: Dict<K, V>, k: K): (r: Option<V>)
    ensures r.Some? <==> HasKey(d, k)
    ensures r.Some? ==> exists i :: 0 <= i < |d| && d[i] == (k, r.value)
    ensures DistinctKeys(d) ==> forall i :: 0 <= i < |d| && d[i].0 == k ==> r == Some(d[i].1)
  {
    if HasKey(d, k) then Some(d[IndexOf(d, k)].1) else None
  }

  /** `d[k] = v`, as a function of the dict before the store. */
  function Insert<K(==, !new), V>(d: Dict<K, V>, k: K, v: V): (r: Dict<K, V>)
    ensures |r| == if HasKey(d, k) then |d| else |d| + 1
    ensures forall i :: 0 <= i < |d| ==> r[i].0 == d[i].0
    ensures !HasKey(d, k) ==> r[|d|] == (k, v)
    ensures Get(r, k) == Some(v)
    ensures forall k' :: k' != k ==> Get(r, k') == Get(d, k')
    ensures DistinctKeys(d) ==> DistinctKeys(r)
  {
    if HasKey(d, k) then
      var r := d[IndexOf(d, k) := (k, v)];
      forall k' | k' != k
        ensures Get(r, k') == Get(d, k')
      {
        if HasKey(d, k') {
          IndexOfFirst(r, k', IndexOf(d, k'));
        } else {
          assert !HasKey(r, k');
        }
      }
      r
    else
      var r := d + [(k, v)];
      forall k' | k' != k
        ensures Get(r, k') == Get(d, k')
      {
        if HasKey(d, k') {
          IndexOfFirst(r, k', IndexOf(d, k'));
        } else {
          assert !HasKey(r, k');
        }
      }
      IndexOfFirst(r, k, |d|);
      r
  }
}
