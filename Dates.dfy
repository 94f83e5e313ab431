/** JavaScript `Date` values as the components use them: a millisecond
    timestamp, or the invalid date (`NaN`) that a malformed string gives. */
module Dates {

  datatype Date = Invalid | At(ms: int)

  /** `a >= b` on dates: false whenever either side is invalid. */
  predicate OnOrAfter(a: Date, b: Date)
  {
    a.At? && b.At? && a.ms >= b.ms
  }

  /** `a <= b` on dates: false whenever either side is invalid. */
  predicate OnOrBefore(a: Date, b: Date)
  {
    a.At? && b.At? && a.ms <= b.ms
  }

  /** One hour in milliseconds, `1000 * 60 * 60`. */
  const HourMs: nat := 3600000

  /** `Math.floor(ms / HourMs)`. Dafny's integer division rounds toward
      negative infinity for a positive divisor, as `Math.floor` does. */
  function FloorHours(ms: int): (h: int)
    ensures HourMs * h <= ms < HourMs * (h + 1)
  {
    ms / HourMs
  }
}
