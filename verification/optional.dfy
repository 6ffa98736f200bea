/** The Java `null` of a reference-typed field, made explicit. */
module Optional {

  /** `None` stands for a Java `null`; `Some(v)` for a present value. */
  datatype Option<+T> = None | Some(value: T)

  /** Java's `Map.get`: the value stored under `key`, or `null` when the key is missing. */
  function Lookup<K, V>(m: map<K, V>, key: K): (r: Option<V>)
    ensures r.Some? <==> key in m
    ensures r.Some? ==> r.value == m[key]
  {
    if key in m then Some(m[key]) else None
  }
}
