/**
 * The multiset of what `Object.values(record).forEach(...)` visits:
 * one element per key of the record, duplicates kept.
 */
module MapValues {

  /** A fixed, otherwise arbitrary element of a non-empty set. */
  ghost function Pick<K>(s: set<K>): (k: K)
    requires s != {}
    ensures k in s
  {
    var k :| k in s; k
  }

  /** The multiset of `f(m[k])` over every key `k` of `m`. */
  ghost function Bag<K, V, U>(m: map<K, V>, f: V -> U): multiset<U>
    decreases m.Keys
  {
    if m.Keys == {} then multiset{}
    else
      var k := Pick(m.Keys);
      multiset{f(m[k])} + Bag(m - {k}, f)
  }

  /** Taking any key out of the map takes exactly its image out of the bag. */
  lemma {:induction false} BagRemove<K, V, U>(m: map<K, V>, f: V -> U, k: K)
    requires k in m
    ensures Bag(m, f) == multiset{f(m[k])} + Bag(m - {k}, f)
    decreases m.Keys
  {
    var j := Pick(m.Keys);
    if j != k {
      var mj, mk := m - {j}, m - {k};
      assert mj.Keys < m.Keys && mk.Keys < m.Keys;
      assert k in mj && mj[k] == m[k];
      assert j in mk && mk[j] == m[j];
      var rest := mj - {k};
      assert mk - {j} == rest;
      BagRemove(mj, f, k);
      BagRemove(mk, f, j);
      calc {
        Bag(m, f);
        multiset{f(m[j])} + Bag(mj, f);
        multiset{f(m[j])} + (multiset{f(m[k])} + Bag(rest, f));
        multiset{f(m[k])} + (multiset{f(m[j])} + Bag(rest, f));
        multiset{f(m[k])} + Bag(mk, f);
      }
    }
  }

  /** One element per key. */
  lemma {:induction false} BagSize<K, V, U>(m: map<K, V>, f: V -> U)
    ensures |Bag(m, f)| == |m|
    decreases m.Keys
  {
    if m.Keys != {} {
      var k := Pick(m.Keys);
      BagSize(m - {k}, f);
      assert (m - {k}).Keys == m.Keys - {k};
      assert |m.Keys - {k}| == |m.Keys| - 1;
    }
  }
}
