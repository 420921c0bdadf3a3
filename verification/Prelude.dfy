/** Small shared vocabulary: optional values and the arithmetic of `Math.min` / `Math.max`. */
module Prelude {
  datatype Option<+T> = None | Some(value: T)

  /** The value, or what takes its place where there is none. */
  function Or<T>(o: Option<T>, default: T): T { if o.Some? then o.value else default }

  function Max(a: int, b: int): int { if a >= b then a else b }
  function Min(a: int, b: int): int { if a <= b then a else b }
  function MaxReal(a: real, b: real): real { if a >= b then a else b }
  function MinReal(a: real, b: real): real { if a <= b then a else b }
  function AbsReal(a: real): real { if a >= 0.0 then a else -a }
}
