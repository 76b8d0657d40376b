/** Small shared vocabulary: an optional value (a nullable column or argument) and the minimum. */
module Basics {

  datatype Option<T> = None | Some(value: T)

  function Min(a: int, b: int): int
  {
    if a <= b then a else b
  }
}
