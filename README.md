# DateTimeRange in Dafny

A model of `DateTimeRange` from the python-dating library (`dating/ranges.py`).
A `DateTimeRange` is an inclusive interval between two Arrow instants. A bound
left out (`None`) stands for the sentinel `Arrow.min` or `Arrow.max`. The class
offers a membership test, a "both bounds given" check, equality and four
ordering operators, and a day-by-day iterator whose cursor is a field of the
range object itself.

Modules:

- `Wrappers` (`wrappers.dfy`): `Option` for Python's `None`, `Result` for a raised exception.
- `Instants` (`instants.dfy`): an instant is a whole number of microseconds since
  0001-01-01T00:00:00 UTC. `MIN` is `Arrow.min` (0), `MAX` is `Arrow.max`
  (9999-12-31T23:59:59.999999), and `DAY` is `shift(days=1)`. `Instant` holds
  only the values between them, as Python's `datetime` does.
- `Ranges` (`ranges.dfy`): the class. `start` and `end` are constants, read
  through `start_arrow`/`end_arrow` in the source. `pointer` is the mutable
  `_pointer`. `Iter` and `Next` are `__iter__` and `__next__`. `Next` returns a
  `Step`: a yielded instant, `Exhausted` for `StopIteration`, or a raised error.
  The two errors are the `TypeError` of calling `__next__` before `__iter__`
  (`None <= end`) and the `OverflowError` of shifting past `Arrow.max`. `StepAt`
  is the pure function that `Next` is proved against.
- `Iteration` (`iteration.dfy`): `Trace`, the steps of `n` successive `Next`
  calls, and the lemmas that count and list the days a range yields.
- `Ordering` (`ordering.dfy`): the order laws of the comparisons. It also proves
  that Python's `sorted` has only one possible output for ranges no two of which
  are `==`, and applies this to the five ranges of the sorting test.
- `Membership` (`membership.dfy`): inclusive bounds, open sides and the
  membership tests.

Three behaviours of the code that a reader of the class might not expect, all modelled as written:

- The cursor is stored on the range, so a second iteration rewinds the first
  (`Iteration.RestartRewindsSharedCursor`). It is not a fresh cursor object.
- Let the range's last day be `L = start + ((end - start) / DAY) * DAY`, the
  latest whole day after `start` that is not after `end`. When `L + DAY` passes
  `Arrow.max`, iteration does not end with `StopIteration`: on reaching `L`,
  `shift` raises `OverflowError`, so `L` is a member that is never yielded
  (`Iteration.DaysThenOverflow`). Every right-open range is such a range
  (`Iteration.RightOpenEndsInOverflow`). When `L + DAY` is still an instant,
  the range yields every day through `L` and then stops
  (`Iteration.DaysOfBoundedRange`).
- A range with `start` after `end` is accepted and holds nothing.

## Model

| member | source | states |
|---|---|---|
| `Ranges.DateTimeRange.constructor` | dating/ranges.py:7-11 | an omitted start is `Arrow.min` and an omitted end `Arrow.max`; a given bound is stored unchanged; the cursor starts unset |
| `Ranges.ParseBound` | dating/ranges.py:16-17 | a bound is omitted exactly when its text is `None` or empty; other text is what the parser returns, or a parse error naming that text |
| `Ranges.DateTimeRange.FromStrings` | dating/ranges.py:13-17 | fails with the start text's parse error first, then the end text's; otherwise builds a fresh range from the parsed bounds, missing or empty text giving the sentinels |
| `Ranges.DateTimeRange.FromDatetimes` | dating/ranges.py:19-23 | a `None` datetime gives the sentinel, any other is converted; the result is a fresh range with its cursor unset |
| `Ranges.DateTimeRange.IsWellDefined` | dating/ranges.py:65-67 | true exactly when neither bound is a sentinel, so false whenever a bound was omitted |
| `Ranges.DateTimeRange.Contains` | dating/ranges.py:69-70 | a left-open range holds every instant up to its end, a right-open one every instant from its start; a range whose start is after its end holds nothing |
| `Ranges.DateTimeRange.Eq` | dating/ranges.py:83-85 | two ranges are `==` exactly when neither is `<` the other |
| `Ranges.DateTimeRange.Gt` | dating/ranges.py:94-96 | `a > b` exactly when `b < a` |
| `Ranges.DateTimeRange.Le` | dating/ranges.py:91-92 | `a <= b` rules out `a > b` and implies `a < b` or `a == b` |
| `Ranges.DateTimeRange.Ge` | dating/ranges.py:98-99 | `a >= b` exactly when `b <= a` |
| `Ranges.DateTimeRange.Lt` | dating/ranges.py:87-89 | strict lexicographic order on `(start, end)`: an earlier start is always `<`, a later start never is, and equal bounds are never `<`; its laws are the `Ordering` lemmas |
| `Ranges.StepAt` | dating/ranges.py:76-81 | one `__next__`: yields the cursor exactly when it is within `end` and its next day is an instant, then moves it one day on; `StopIteration` exactly when the cursor is past `end`, `OverflowError` exactly when the next day passes `Arrow.max`, `TypeError` exactly when the cursor is unset; otherwise the cursor stays |
| `Ranges.DateTimeRange.Iter` | dating/ranges.py:72-74 | puts the cursor on `start` and returns the range itself |
| `Ranges.DateTimeRange.Next` | dating/ranges.py:76-81 | takes exactly the step `StepAt` gives for the old cursor; every yielded value is a member lying a whole number of days after `start`; `start` and `end` never change |
| `Iteration.Trace` | dating/ranges.py:76-81 | reference definition of `n` successive `Next` calls: `StepAt` applied `n` times, one step per call; its contract only fixes the length |
| `Iteration.NextCalls` | dating/ranges.py:76-81 | `n` successive `Next` calls on a range return exactly `Trace` from the cursor they found and leave the cursor where `Trace` says |
| `Iteration.TraceYieldsMembers` | dating/ranges.py:76-81 | every value yielded from a cursor at or after `start` lies between `start` and `end` |
| `Iteration.TracePrefix` | dating/ranges.py:76-80 | while the days stay within `end` and their successors are instants, call `i` yields `start + i` days |
| `Iteration.TraceExhausted` | dating/ranges.py:76-81 | once the cursor is past `end`, every call raises `StopIteration` |
| `Iteration.TraceOverflows` | dating/ranges.py:76-79 | a cursor within `end` whose next day passes `Arrow.max` raises `OverflowError` on every call |
| `Iteration.TraceUnset` | dating/ranges.py:76-77 | before `__iter__`, every call raises the `TypeError` |
| `Iteration.TraceBounded` | dating/ranges.py:76-81 | when exactly `n` days lie within `end` and the day after them is still an instant, `n + m` calls yield those days in order, then `StopIteration` `m` times |
| `Iteration.DaysOfBoundedRange` | dating/ranges.py:72-81 | a range whose last day `L` has a successor that is still an instant yields `(end - start) / DAY + 1` days, `start` then one day more each time, then stops for good |
| `Iteration.DaysThenOverflow` | dating/ranges.py:76-81 | a range whose last day `L` has no successor before `Arrow.max` yields `(end - start) / DAY` days, then raises `OverflowError` on every call |
| `Iteration.FortnightIteration` | tests/test_dating_ranges.py:79-81 | from a start at least sixteen days before `Arrow.max`, a fifteen-day range yields sixteen days from `start` to `end`, then only `StopIteration` |
| `Iteration.RightOpenMatchesFortnight` | tests/test_dating_ranges.py:82 | from a start at least sixteen days before `Arrow.max`, the first sixteen calls on a right-open range yield the same days as the fifteen-day range |
| `Iteration.RightOpenEndsInOverflow` | dating/ranges.py:76-81 | a right-open range yields `(MAX - start) / DAY` days, then raises `OverflowError` on every call |
| `Iteration.RestartRewindsSharedCursor` | dating/ranges.py:72-74 | starting a second iteration over a range makes the first iteration yield `start` again |
| `Ordering.LtIrreflexive` | dating/ranges.py:87-89 | no range is `<` itself |
| `Ordering.LtTransitive` | dating/ranges.py:87-89 | `<` is transitive |
| `Ordering.Trichotomy` | dating/ranges.py:83-89 | exactly one of `a < b`, `a == b`, `b < a` holds |
| `Ordering.LePartialOrder` | dating/ranges.py:91-92 | `<=` is reflexive, transitive, and antisymmetric up to `==` |
| `Ordering.LtWithoutLe` | dating/ranges.py:87-92 | a range starting earlier and ending later is `<` the other but neither `<=`, `>` nor `>=` it |
| `Ordering.ComparisonScenario` | tests/test_dating_ranges.py:88-106 | the `>`, `<`, `>=` and `<=` tests hold for every `now` that leaves room for their ranges |
| `Ordering.SortedIsUnique` | dating/ranges.py:87-89 | two non-decreasing arrangements under `<` of the same ranges, no two `==`, are identical |
| `Ordering.SortScenario` | tests/test_dating_ranges.py:108-114 | however the five test ranges are shuffled, the only non-decreasing order is left-open, day-before, fortnight, right-open, day-later |
| `Membership.BoundsInclusive` | dating/ranges.py:69-70 | both bounds of a non-inverted range are members; instants before the start or after the end are not |
| `Membership.FullyOpenHoldsAll` | dating/ranges.py:9-10 | the range with both bounds omitted holds every instant |
| `Membership.MembershipScenario` | tests/test_dating_ranges.py:61-72 | the membership tests of the bounded, left-open and right-open ranges hold for every `now` that leaves room for them |

## Left out

- `month_for_arrow` and `month_for_datetime`: they return Arrow's `span('month')`, and the calendar arithmetic lives in Arrow, which is not part of this model.
- ISO-8601 parsing (`arrow.get`) and `Arrow.fromdatetime`: library calls, passed in as the functions `parse` and `fromDatetime`. Only the rule that `None` or empty input omits the bound is modelled.
- `start_datetime`, `end_datetime`, `start_date`, `end_date`: they only forward to Arrow attributes.
- `__str__` and `__repr__`: the text depends on Arrow's own rendering of an instant.
- Time zones and daylight-saving time: an instant is an absolute point in time and a day is a fixed 86,400,000,000 microseconds.
- Python's dynamic typing: comparing with an object that has no `start_arrow`, or testing membership of a non-instant, is not modelled.
- `sorted` itself is not modelled. `Ordering.NonDecreasing` states what it guarantees about its output under `<`.
- `setup.py`: packaging metadata only.
