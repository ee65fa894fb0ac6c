/** The optional value used for dictionary lookups (`dict.get`). */
module Wrappers {

  datatype Option<+T> = None | Some(value: T)

  /** `m.get(k)` for a Python dictionary: the value stored under `k`, or None. */
  function Get<K, V>(m: map<K, V>, k: K): (r: Option<V>)
    ensures r.Some? <==> k in m
    ensures r.Some? ==> r.value == m[k]
  {
    if k in m then Some(m[k]) else None
  }
}
