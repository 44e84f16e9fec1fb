/** Small shared value types. */
module Common {

  /** A value that may be missing: pandas' NaN marker or Python's None. */
  datatype Option<+T> = None | Some(value: T)

  function Min(a: int, b: int): int
  {
    if a <= b then a else b
  }

  function Max(a: int, b: int): int
  {
    if a >= b then a else b
  }
}
