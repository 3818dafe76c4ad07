/** Optional values: a C pointer that may be NULL, a conversion that may fail. */
module Wrappers {
  datatype Option<+T> = None | Some(value: T)

  function Min(a: int, b: int): (r: int)
    ensures r <= a && r <= b && (r == a || r == b)
  {
    if a <= b then a else b
  }
}
