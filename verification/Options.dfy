/** The optional value used throughout the model for Python's and JavaScript's absent values. */
module Options {

  datatype Option<+T> = None | Some(value: T) {

    /** The value when there is one, otherwise *default*. */
    function GetOr(default: T): T {
      match this
      case Some(v) => v
      case None => default
    }
  }

  /** `m.get(k)` on a dictionary. */
  function Get<K, V>(m: map<K, V>, k: K): Option<V> {
    if k in m then Some(m[k]) else None
  }
}
