/** The clamp helper of the core utility class, on integers. */
module Utility {

  /** Clamp `value` into `[min, max]`: the lower bound is tested first, so when
      `min > max` a value below `min` yields `min` and any other value above `max`
      yields `max`. */
  function Clamp(value: int, min: int, max: int): (r: int)
    ensures value < min ==> r == min
    ensures !(value < min) && value > max ==> r == max
    ensures min <= value <= max ==> r == value
    ensures r == value || r == min || r == max
  {
    if value < min then min
    else if value > max then max
    else value
  }

  /** With well-ordered bounds the result always lies between them. */
  lemma ClampInRange(value: int, min: int, max: int)
    requires min <= max
    ensures min <= Clamp(value, min, max) <= max
  {
  }

  /** With well-ordered bounds clamping is idempotent. */
  lemma ClampIdempotent(value: int, min: int, max: int)
    requires min <= max
    ensures Clamp(Clamp(value, min, max), min, max) == Clamp(value, min, max)
  {
  }

  /** With crossed bounds (min > max) clamping is never idempotent: every
      value clamps to `min` or to `max`, and a second clamp swaps the two. */
  lemma ClampCrossedBoundsNotIdempotent(value: int, min: int, max: int)
    requires min > max
    ensures Clamp(Clamp(value, min, max), min, max) != Clamp(value, min, max)
  {
  }

  /** Clamping keeps the order of values (for well-ordered bounds). */
  lemma ClampMonotonic(a: int, b: int, min: int, max: int)
    requires min <= max && a <= b
    ensures Clamp(a, min, max) <= Clamp(b, min, max)
  {
  }
}
