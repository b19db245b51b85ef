/** The optional value used wherever JavaScript code may hold `undefined`. */
module Wrappers {

  datatype Option<+T> = None | Some(value: T)

  /** Reading property `k` of a JavaScript object held as a map: `undefined` when absent. */
  function Get<K, V>(m: map<K, V>, k: K): (r: Option<V>)
    ensures r.Some? <==> k in m
    ensures r.Some? ==> r.value == m[k]
  {
    if k in m then Some(m[k]) else None
  }
}
