/** Option type used for Python's `None`, and lookup in an insertion-ordered dictionary. */
module Wrappers {

  datatype Option<+T> = None | Some(value: T) {
    /** The value, or `default` when absent (Python's `d.get(k, default)`). */
    function GetOr(default: T): T {
      match this
      case Some(v) => v
      case None => default
    }
  }

  /**
   * `d.get(key)` on a dictionary given as its items in insertion order: the
   * value stored under `key`, if any.
   */
  function Get<K(==), V>(items: seq<(K, V)>, key: K): (r: Option<V>)
    ensures r.Some? <==> exists i :: 0 <= i < |items| && items[i].0 == key
    ensures r.Some? ==> exists i :: 0 <= i < |items| && items[i] == (key, r.value)
    decreases |items|
  {
    if |items| == 0 then None
    else if items[0].0 == key then Some(items[0].1)
    else Get(items[1..], key)
  }
}
