/** The day-by-day iteration of `DateTimeRange`: what a run of `__next__`
    calls returns, proved once for every start and end. */
module Iteration {
  import opened Wrappers
  import opened Instants
  import opened Ranges

  /** The steps that `n` successive calls of `Next` take from the cursor
      `pointer` on a range ending at `end` (each call is `StepAt`). */
  function Trace(pointer: Option<Instant>, end: Instant, n: nat): (t: seq<Step>)
    ensures |t| == n
    decreases n
  {
    if n == 0 then []
    else
      var (s, next) := StepAt(pointer, end);
      [s] + Trace(next, end, n - 1)
  }

  /** From index `from` on, every step of `t` is `s`. */
  predicate SameFrom(t: seq<Step>, from: nat, s: Step) {
    forall i :: from <= i < |t| ==> t[i] == s
  }

  /** Every value yielded from a cursor at or after `start` lies in
      `[start, end]`: iteration only yields members of the range. */
  lemma {:induction false} TraceYieldsMembers(start: Instant, pointer: Option<Instant>, end: Instant, n: nat)
    requires pointer.Some? ==> start <= pointer.value
    ensures forall i :: 0 <= i < n && Trace(pointer, end, n)[i].Yielded? ==>
              start <= Trace(pointer, end, n)[i].value <= end
    decreases n
  {
    if n > 0 {
      var (s, next) := StepAt(pointer, end);
      TraceYieldsMembers(start, next, end, n - 1);
      assert Trace(pointer, end, n) == [s] + Trace(next, end, n - 1);
    }
  }

  /** While the days `x, x + DAY, ...` stay within `end` and their
      successors within `Arrow.max`, the first `k` calls yield them in order. */
  lemma {:induction false} TracePrefix(x: Instant, end: Instant, k: nat)
    requires k > 0 ==> x + (k - 1) * DAY <= end
    requires x + k * DAY <= MAX
    ensures forall i :: 0 <= i < k ==> Trace(Some(x), end, k)[i] == Yielded(x + i * DAY)
    decreases k
  {
    if k > 0 {
      assert StepAt(Some(x), end) == (Yielded(x), Some(x + DAY));
      var y: Instant := x + DAY;
      TracePrefix(y, end, k - 1);
      var t := Trace(Some(x), end, k);
      assert t == [Yielded(x)] + Trace(Some(y), end, k - 1);
      forall i | 0 < i < k ensures t[i] == Yielded(x + i * DAY) {
        assert t[i] == Trace(Some(y), end, k - 1)[i - 1];
      }
    }
  }

  /** A cursor already past `end` raises `StopIteration` on every call. */
  lemma {:induction false} TraceExhausted(x: Instant, end: Instant, m: nat)
    requires end < x
    ensures SameFrom(Trace(Some(x), end, m), 0, Exhausted)
  {
    if m > 0 {
      TraceExhausted(x, end, m - 1);
      assert Trace(Some(x), end, m) == [Exhausted] + Trace(Some(x), end, m - 1);
    }
  }

  /** A cursor within `end` whose next day would pass `Arrow.max` raises
      `OverflowError` on every call and never moves. */
  lemma {:induction false} TraceOverflows(x: Instant, end: Instant, m: nat)
    requires x <= end && MAX < x + DAY
    ensures SameFrom(Trace(Some(x), end, m), 0, Raised(ShiftOverflow))
  {
    if m > 0 {
      TraceOverflows(x, end, m - 1);
      assert Trace(Some(x), end, m) == [Raised(ShiftOverflow)] + Trace(Some(x), end, m - 1);
    }
  }

  /** Before `Iter` the cursor is unset, and every call raises. */
  lemma {:induction false} TraceUnset(end: Instant, m: nat)
    ensures SameFrom(Trace(None, end, m), 0, Raised(PointerUnset))
  {
    if m > 0 {
      TraceUnset(end, m - 1);
      assert Trace(None, end, m) == [Raised(PointerUnset)] + Trace(None, end, m - 1);
    }
  }

  /** From a cursor `x`, if exactly `n` days `x, ..., x + (n - 1) * DAY` lie
      within `end`, and the day after them is still an instant, then `n + m`
      calls yield those `n` days and then `m` times `StopIteration`. */
  lemma {:induction false} TraceBounded(x: Instant, end: Instant, n: nat, m: nat)
    requires n == 0 ==> end < x
    requires n > 0 ==> x + (n - 1) * DAY <= end < x + n * DAY
    requires x + n * DAY <= MAX
    ensures forall i :: 0 <= i < n ==> Trace(Some(x), end, n + m)[i] == Yielded(x + i * DAY)
    ensures SameFrom(Trace(Some(x), end, n + m), n, Exhausted)
    decreases n
  {
    if n == 0 {
      TraceExhausted(x, end, m);
    } else {
      assert StepAt(Some(x), end) == (Yielded(x), Some(x + DAY));
      var y: Instant := x + DAY;
      TraceBounded(y, end, n - 1, m);
      var t := Trace(Some(x), end, n + m);
      assert t == [Yielded(x)] + Trace(Some(y), end, n - 1 + m);
      forall i | 0 < i < n + m
        ensures t[i] == Trace(Some(y), end, n - 1 + m)[i - 1]
      {}
      forall i | 0 < i < n ensures t[i] == Yielded(x + i * DAY) {
        assert t[i] == Trace(Some(y), end, n - 1 + m)[i - 1] == Yielded(y + (i - 1) * DAY);
      }
    }
  }

  /** The number of days a bounded range yields: one per whole day from
      `start` up to and including `end`, then `StopIteration` for good. */
  lemma DaysOfBoundedRange(start: Instant, end: Instant, m: nat)
    requires start <= end
    requires start + ((end - start) / DAY + 1) * DAY <= MAX
    ensures var n := (end - start) / DAY + 1;
      && (forall i :: 0 <= i < n ==> Trace(Some(start), end, n + m)[i] == Yielded(start + i * DAY))
      && SameFrom(Trace(Some(start), end, n + m), n, Exhausted)
  {
    var n := (end - start) / DAY + 1;
    assert start + (n - 1) * DAY <= end < start + n * DAY;
    TraceBounded(start, end, n, m);
  }

  /** The iterator test: a range of fifteen days yields sixteen days,
      `start` through `end`, then stops. */
  lemma FortnightIteration(start: Instant, m: nat)
    requires start + 16 * DAY <= MAX
    ensures forall i :: 0 <= i < 16 ==> Trace(Some(start), start + 15 * DAY, 16 + m)[i] == Yielded(start + i * DAY)
    ensures SameFrom(Trace(Some(start), start + 15 * DAY, 16 + m), 16, Exhausted)
  {
    TraceBounded(start, start + 15 * DAY, 16, m);
  }

  /** The right-open half of the iterator test: the first sixteen calls on
      a right-open range yield what the fifteen-day range from the same
      start yields. */
  lemma RightOpenMatchesFortnight(start: Instant)
    requires start + 16 * DAY <= MAX
    ensures Trace(Some(start), MAX, 16) == Trace(Some(start), start + 15 * DAY, 16)
  {
    TracePrefix(start, MAX, 16);
    TracePrefix(start, start + 15 * DAY, 16);
    var a, b := Trace(Some(start), MAX, 16), Trace(Some(start), start + 15 * DAY, 16);
    assert forall i :: 0 <= i < 16 ==> a[i] == b[i];
  }

  /** A range whose last day `start + q * DAY` (with `q` whole days from
      `start` to `end`) has no successor before `Arrow.max` yields its first
      `q` days, then raises `OverflowError` on every call: that last day is
      a member that is never yielded. */
  lemma DaysThenOverflow(start: Instant, end: Instant, m: nat)
    requires start <= end
    requires MAX < start + ((end - start) / DAY) * DAY + DAY
    ensures var q := (end - start) / DAY;
      && (forall i :: 0 <= i < q ==> Trace(Some(start), end, q + m)[i] == Yielded(start + i * DAY))
      && SameFrom(Trace(Some(start), end, q + m), q, Raised(ShiftOverflow))
  {
    var q := (end - start) / DAY;
    assert start + q * DAY <= end;
    TraceSplit(Some(start), end, q, m);
    TracePrefix(start, end, q);
    PointerAfterDays(start, end, q);
    TraceOverflows(start + q * DAY, end, m);
  }

  /** A right-open range from `start` yields `(MAX - start) / DAY` days and
      then raises `OverflowError` forever. */
  lemma RightOpenEndsInOverflow(start: Instant, m: nat)
    ensures var q := (MAX - start) / DAY;
      && (forall i :: 0 <= i < q ==> Trace(Some(start), MAX, q + m)[i] == Yielded(start + i * DAY))
      && SameFrom(Trace(Some(start), MAX, q + m), q, Raised(ShiftOverflow))
  {
    DaysThenOverflow(start, MAX, m);
  }

  /** Where the cursor stands after `n` calls of `Next`. */
  function PointerAfter(pointer: Option<Instant>, end: Instant, n: nat): Option<Instant>
    decreases n
  {
    if n == 0 then pointer else PointerAfter(StepAt(pointer, end).1, end, n - 1)
  }

  /** `n + m` calls are `n` calls followed by `m` from where they left the cursor. */
  lemma {:induction false} TraceSplit(pointer: Option<Instant>, end: Instant, n: nat, m: nat)
    ensures Trace(pointer, end, n + m) == Trace(pointer, end, n) + Trace(PointerAfter(pointer, end, n), end, m)
    decreases n
  {
    if n > 0 {
      var (s, next) := StepAt(pointer, end);
      TraceSplit(next, end, n - 1, m);
    }
  }

  /** After `k` yielded days the cursor stands `k` days on. */
  lemma {:induction false} PointerAfterDays(x: Instant, end: Instant, k: nat)
    requires k > 0 ==> x + (k - 1) * DAY <= end
    requires x + k * DAY <= MAX
    ensures PointerAfter(Some(x), end, k) == Some(x + k * DAY)
    decreases k
  {
    if k > 0 {
      assert StepAt(Some(x), end) == (Yielded(x), Some(x + DAY));
      PointerAfterDays(x + DAY, end, k - 1);
    }
  }

  /** `n` successive calls of `Next` on one range, as `islice` makes them:
      the steps they return are `Trace` from the cursor they found. */
  method NextCalls(range: DateTimeRange, n: nat) returns (steps: seq<Step>)
    requires range.Valid()
    modifies range
    ensures range.Valid()
    ensures steps == Trace(old(range.pointer), range.end, n)
    ensures range.pointer == PointerAfter(old(range.pointer), range.end, n)
  {
    steps := [];
    while |steps| < n
      invariant |steps| <= n && range.Valid()
      invariant steps + Trace(range.pointer, range.end, n - |steps|) == Trace(old(range.pointer), range.end, n)
      invariant PointerAfter(range.pointer, range.end, n - |steps|) == PointerAfter(old(range.pointer), range.end, n)
    {
      ghost var before := range.pointer;
      var s := range.Next();
      assert Trace(before, range.end, n - |steps|) == [s] + Trace(range.pointer, range.end, n - |steps| - 1);
      steps := steps + [s];
    }
  }

  /** `__iter__` returns the range itself, so two iterations over one range
      share one cursor: starting the second rewinds the first. */
  method RestartRewindsSharedCursor(start: Instant, end: Instant) returns (first: Step, again: Step)
    requires start <= end && start + DAY <= MAX
    ensures first == Yielded(start) && again == Yielded(start)
  {
    var range := new DateTimeRange(Some(start), Some(end));
    var it1 := range.Iter();
    first := it1.Next();
    var it2 := range.Iter();
    again := it1.Next();
  }
}
