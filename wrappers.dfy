/** The optional value used wherever the game may or may not produce something. */
module Wrappers {
  datatype Option<+T> = None | Some(value: T)
}

/** Python's two-argument `min` and `max` on integers. */
module Ints {
  function Min(a: int, b: int): (m: int)
    ensures m <= a && m <= b && (m == a || m == b)
  {
    if a <= b then a else b
  }

  function Max(a: int, b: int): (m: int)
    ensures m >= a && m >= b && (m == a || m == b)
  {
    if a >= b then a else b
  }
}
