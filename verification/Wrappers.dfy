/** Values that may be absent, and outcomes that may be errors. */
module Wrappers {
  datatype Option<+T> = None | Some(value: T) {
    function GetOr(default: T): T { if Some? then value else default }
  }

  /** A map's value for a key, if it has one. */
  function Find<K(==), V>(m: map<K, V>, key: K): Option<V> {
    if key in m then Some(m[key]) else None
  }

  datatype Result<+T, +E> = Ok(value: T) | Err(error: E)
}
