/** The usual Some/None wrapper, used for optional payload fields and map lookups. */
module Optional {

  datatype Option<+T> = None | Some(value: T)

  /** Looks a key up in a map, with absence made explicit. */
  function Lookup<K, V>(m: map<K, V>, k: K): (r: Option<V>)
    ensures r.Some? <==> k in m
    ensures r.Some? ==> r.value == m[k]
  {
    if k in m then Some(m[k]) else None
  }
}
