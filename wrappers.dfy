/** Option and Result, the two failure-carrying wrappers the Rust code uses. */
module Wrappers {

  datatype Option<+T> = None | Some(value: T) {
    function GetOr(default: T): T {
      match this
      case Some(v) => v
      case None => default
    }
  }

  /** An `anyhow::Result`: the error is carried as its message. */
  datatype Result<+T> = Ok(value: T) | Err(error: string)

  /**
   * `get` on a keyed map whose entries are kept in iteration order (a JSON
   * object, a YAML mapping): the value stored under `key`, if any.
   */
  function Lookup<K(==), V>(entries: seq<(K, V)>, key: K): (r: Option<V>)
    ensures r.Some? ==> exists i :: 0 <= i < |entries| && entries[i] == (key, r.value)
    ensures r.None? ==> forall i :: 0 <= i < |entries| ==> entries[i].0 != key
  {
    if |entries| == 0 then None
    else if entries[0].0 == key then Some(entries[0].1)
    else Lookup(entries[1..], key)
  }
}
