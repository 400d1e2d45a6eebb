/** Option and a total dictionary lookup, shared by every module. */
module Wrappers {

  datatype Option<+T> = None | Some(value: T)

  /** `m[k]` when present, `None` otherwise (a `TryGetValue` on a dictionary). */
  function Lookup<K, V>(m: map<K, V>, k: K): (r: Option<V>)
    ensures r.Some? <==> k in m
    ensures r.Some? ==> r.value == m[k]
  {
    if k in m then Some(m[k]) else None
  }
}
