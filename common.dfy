/** Small definitions shared by every module: Python's `None` as an option type and the
    `min`/`max`/`abs` built-ins, and the truthiness of an optional timestamp. */
module Common {

  datatype Option<T> = None | Some(value: T)

  function Min(a: int, b: int): int {
    if a <= b then a else b
  }

  function Max(a: int, b: int): int {
    if a >= b then a else b
  }

  function Abs(a: int): nat {
    if a < 0 then -a else a
  }

  function RealMax(a: real, b: real): real {
    if a >= b then a else b
  }

  /** Python truthiness of an optional timestamp: set, and not 0. */
  predicate IsSet(t: Option<real>) {
    t.Some? && t.value != 0.0
  }
}
