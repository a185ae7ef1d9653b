/** Small helpers shared by every module of the model. */
module Basics {

  /** A value that may be absent: a Java reference that may be null. */
  datatype Option<+T> = None | Some(value: T)

  /** java.lang.Math.min on ints. */
  function Min(a: int, b: int): int
  {
    if a <= b then a else b
  }
}
