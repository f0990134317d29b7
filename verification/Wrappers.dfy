/** Small vocabulary shared by the models. */
module Wrappers {
  datatype Option<+T> = None | Some(value: T)

  /** A point in time; 0 is kept for the zero time, "never". */
  type Instant = t: int | 0 < t witness 1

  function Max(a: int, b: int): int {
    if a < b then b else a
  }

  function Min(a: int, b: int): int {
    if a < b then a else b
  }
}
