/** Option, the model's stand-in for Java's null (and for a caught exception), and `Map.get`. */
module Wrappers {

  /** `None` plays the role of a Java `null` reference. */
  datatype Option<+T> = None | Some(value: T)

  /** `Map.get`: a null key or a key the map lacks reads as null. */
  function Lookup<V>(m: map<string, V>, key: Option<string>): (v: Option<V>)
    ensures v.Some? <==> key.Some? && key.value in m
    ensures v.Some? ==> v.value == m[key.value]
  {
    if key.Some? && key.value in m then Some(m[key.value]) else None
  }
}
