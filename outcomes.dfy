/** Result types for the lookups that the C++ code reports by throwing an
    itk::ExceptionObject ("probe does not exist"). */
module Outcomes {

  datatype Option<+T> = None | Some(value: T)

  /** A lookup that either succeeds or names the probe that was not found. */
  datatype Result<+T> = Ok(value: T) | NoSuchProbe(name: string)

  /** Lookup of a probe by name in a collector's map: the stored value, or
      failure naming the key (where the C++ code throws). */
  function FindByName<V>(m: map<string, V>, key: string): (r: Result<V>)
    ensures r.Ok? <==> key in m
    ensures r.Ok? ==> r.value == m[key]
    ensures !r.Ok? ==> r == NoSuchProbe(key)
  {
    if key in m then Ok(m[key]) else NoSuchProbe(key)
  }

  /** The outcome of an operation that returns nothing but may throw. */
  datatype Status = Done | Missing(name: string)
}
