/** The optional value the tracker hands back where the Java code returns a
    possibly-null reference. */
module Options {

  datatype Option<+T> = None | Some(value: T)

  /** `HashMap.get`: the value stored under `k`, or None when `k` is absent. */
  function Lookup<K, V>(m: map<K, V>, k: K): (o: Option<V>)
    ensures o.Some? <==> k in m
    ensures o.Some? ==> o.value == m[k]
  {
    if k in m then Some(m[k]) else None
  }
}
