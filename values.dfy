/**
 Basic values of the controller: an optional value (a nullable protocol token, an absent
 request field) and a single-precision temperature that may be not-a-number.
 */
module Values {

  datatype Option<T> = None | Some(value: T)

  /** A stored temperature: either NaN (the "undefined" sentinel) or a real value. */
  datatype Temp = NaN | Val(v: real)

  /** Auto-mode band width preserved by single-sided updates. */
  const AutoAmplitude: real := 4.0

  /** Half of the band used when centring a single target, or reseeding from the unit. */
  const HalfSpan: real := 2.0

  /** Below this difference a re-issued setpoint counts as "no effective change". */
  const NoChangeEpsilon: real := 0.05

  /** `t + d`, NaN when `t` is NaN. */
  function Plus(t: Temp, d: real): Temp
  {
    if t.NaN? then NaN else Val(t.v + d)
  }

  /** `t - d`, NaN when `t` is NaN. */
  function Minus(t: Temp, d: real): Temp
  {
    if t.NaN? then NaN else Val(t.v - d)
  }

  /** `(a + b) / 2`, NaN when either operand is NaN. */
  function Midpoint(a: Temp, b: Temp): Temp
  {
    if a.NaN? || b.NaN? then NaN else Val((a.v + b.v) / 2.0)
  }

  /** `fabs(a - b) < eps`; like every comparison with NaN it is false when either side is NaN. */
  predicate WithinEpsilon(a: Temp, b: Temp, eps: real)
  {
    a.Val? && b.Val? && -eps < a.v - b.v < eps
  }

  /** `a >= b` with IEEE semantics (false on NaN). */
  predicate AtLeast(a: Temp, b: Temp)
  {
    a.Val? && b.Val? && a.v >= b.v
  }

  /** `a <= b` with IEEE semantics (false on NaN). */
  predicate AtMost(a: Temp, b: Temp)
  {
    a.Val? && b.Val? && a.v <= b.v
  }

  /** `a < b` with IEEE semantics (false on NaN). */
  predicate Below(a: Temp, b: Temp)
  {
    a.Val? && b.Val? && a.v < b.v
  }

  /** `!isnan(t) && t > 0`. */
  predicate Positive(t: Temp)
  {
    t.Val? && t.v > 0.0
  }
}
