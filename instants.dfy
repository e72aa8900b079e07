/** Points in time, as the range sees them.

    An Arrow instant is modelled as a whole number of microseconds since
    0001-01-01T00:00:00 UTC. Python's `datetime` (and so Arrow) cannot go
    below `datetime.min` or above `datetime.max`; these are `Arrow.min` and
    `Arrow.max`, the sentinels the range substitutes for a missing bound. */
module Instants {

  /** One day, `shift(days=1)`, in microseconds. */
  const DAY: int := 86_400_000_000

  /** `Arrow.min`: 0001-01-01T00:00:00. */
  const MIN: int := 0

  /** `Arrow.max`: 9999-12-31T23:59:59.999999, the last microsecond of day 3652059. */
  const MAX: int := 3_652_059 * DAY - 1

  /** Every instant Arrow can represent. */
  type Instant = x: int | MIN <= x <= MAX
}
