/** Small shared vocabulary: an optional value (JavaScript's `undefined` /
    `null` versus a present value) and integer minimum and maximum. */
module Common {

  /** A value that may be absent. */
  datatype Option<+T> = None | Some(value: T)

  function Min(a: int, b: int): int { if a <= b then a else b }

  function Max(a: int, b: int): int { if a >= b then a else b }
}
