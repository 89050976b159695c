/** The option type and the hash lookup shared by every part of the model. */
module Wrappers {

  datatype Option<+T> = None | Some(value: T)

  /** A hash lookup: the pointer stored under k, or None for the source's NULL. */
  function Find<K, V>(m: map<K, V>, k: K): Option<V> {
    if k in m then Some(m[k]) else None
  }
}
