/** Values that may be missing. */
module Options {

  datatype Option<+T> = None | Some(value: T)

  function OrElse<T>(a: Option<T>, b: Option<T>): (r: Option<T>) { if a.Some? then a else b }

  function Get<K, V>(m: map<K, V>, k: K): (r: Option<V>) { if k in m then Some(m[k]) else None }
}
