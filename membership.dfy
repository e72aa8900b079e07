/** What `x in range` promises: inclusive bounds, open sides, and the
    membership tests built around "now" and a fifteen-day range. */
module Membership {
  import opened Instants
  import opened Ranges

  /** Both bounds of a non-inverted range are members; the instants just
      outside them are not. */
  lemma BoundsInclusive(r: DateTimeRange, x: Instant)
    requires r.start <= r.end
    ensures r.Contains(r.start) && r.Contains(r.end)
    ensures x < r.start || r.end < x ==> !r.Contains(x)
  {}

  /** The range with both bounds omitted holds every instant. */
  lemma FullyOpenHoldsAll(r: DateTimeRange, x: Instant)
    requires r.start == MIN && r.end == MAX
    ensures r.Contains(x)
  {}

  /** The membership tests: for `now` with a day either side of the
      fifteen-day range still an instant, the range holds its start, the
      day after it and its end but not the day before or after; the
      left-open range holds the day before but not the day after; the
      right-open range the other way round. */
  lemma MembershipScenario(now: Instant, dtr: DateTimeRange, leftOpen: DateTimeRange, rightOpen: DateTimeRange)
    requires MIN <= now - DAY && now + 16 * DAY <= MAX
    requires dtr.start == now && dtr.end == now + 15 * DAY
    requires leftOpen.start == MIN && leftOpen.end == now + 15 * DAY
    requires rightOpen.start == now && rightOpen.end == MAX
    ensures dtr.Contains(now) && dtr.Contains(now + DAY) && dtr.Contains(now + 15 * DAY)
    ensures !dtr.Contains(now - DAY) && !dtr.Contains(now + 16 * DAY)
    ensures leftOpen.Contains(now - DAY) && !leftOpen.Contains(now + 16 * DAY)
    ensures rightOpen.Contains(now + 16 * DAY) && !rightOpen.Contains(now - DAY)
  {}
}
