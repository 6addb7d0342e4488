/** The optional value used wherever the source has `undefined` or an absent entry. */
module Wrappers {

  datatype Option<+T> = None | Some(value: T)

  /** Map lookup that yields None for a missing key. */
  function Lookup<K, V>(m: map<K, V>, k: K): (r: Option<V>)
    ensures r.Some? <==> k in m
    ensures r.Some? ==> r.value == m[k]
  {
    if k in m then Some(m[k]) else None
  }
}
