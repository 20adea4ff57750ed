/** Optional values: a TypeScript `undefined` or a Rust `None` becomes `None`. With them, two
    facts about sets. */
module Options {

  datatype Option<+T> = None | Some(value: T)

  /** Map lookup as `Map.get` does it: a missing key is not an error. */
  function Get<K, V>(m: map<K, V>, k: K): Option<V> {
    if k in m then Some(m[k]) else None
  }

  /** A set that is not empty has a member. */
  lemma Member<T>(s: set<T>) returns (x: T)
    requires |s| > 0
    ensures x in s
  {
    x :| x in s;
  }

  lemma SubsetSize<T>(a: set<T>, b: set<T>)
    requires a <= b
    ensures |a| <= |b|
  {
    assert |b| == |a| + |b - a| by { assert b == a + (b - a); }
  }
}
