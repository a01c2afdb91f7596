/** The optional value used for the Go code's nil-able values other than the client and the adapter. */
module Wrappers {

  datatype Option<+T> = None | Some(value: T)

  /** The value stored under `key`, or None when `m` has no entry for it (Go's `v, ok := m[key]`). */
  function Lookup<K, V>(m: map<K, V>, key: K): (r: Option<V>)
    ensures r.Some? <==> key in m
    ensures r.Some? ==> r.value == m[key]
  {
    if key in m then Some(m[key]) else None
  }
}
