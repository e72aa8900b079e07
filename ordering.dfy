/** What the comparisons of `DateTimeRange` promise together, and why
    Python's `sorted`, which only asks `<`, puts ranges in the order the
    tests expect. */
module Ordering {
  import opened Instants
  import opened Ranges

  /** `<` never relates a range to itself. */
  lemma LtIrreflexive(a: DateTimeRange)
    ensures !a.Lt(a)
  {}

  lemma LtTransitive(a: DateTimeRange, b: DateTimeRange, c: DateTimeRange)
    ensures a.Lt(b) && b.Lt(c) ==> a.Lt(c)
  {}

  /** Exactly one of `a < b`, `a == b`, `b < a` holds. */
  lemma Trichotomy(a: DateTimeRange, b: DateTimeRange)
    ensures a.Lt(b) || a.Eq(b) || b.Lt(a)
    ensures !(a.Lt(b) && a.Eq(b)) && !(a.Lt(b) && b.Lt(a)) && !(a.Eq(b) && b.Lt(a))
  {}

  /** `<=` is a partial order up to `==`: reflexive, antisymmetric, transitive. */
  lemma LePartialOrder(a: DateTimeRange, b: DateTimeRange, c: DateTimeRange)
    ensures a.Le(a)
    ensures a.Le(b) && b.Le(a) ==> a.Eq(b)
    ensures a.Le(b) && b.Le(c) ==> a.Le(c)
  {}

  /** A range that starts earlier but ends later is `<` the other yet not
      `<=` it: `<=` is not "`<` or `==`". */
  lemma LtWithoutLe(a: DateTimeRange, b: DateTimeRange)
    requires a.start < b.start && b.end < a.end
    ensures a.Lt(b) && !a.Le(b) && !a.Gt(b) && !a.Ge(b)
  {}

  /** The comparison tests around the fifteen-day range `dtr` from `now`:
      right-open ranges from the day before and from two days on compare
      `<` and `>` it; the right-open range from `now` is after it; it is
      `>=` its first twelve days and `<=` the range one day later with the
      same end. */
  lemma ComparisonScenario(now: Instant, dtr: DateTimeRange, before: DateTimeRange,
                           twoDaysOn: DateTimeRange, sameStart: DateTimeRange,
                           firstTwelve: DateTimeRange, dayLater: DateTimeRange)
    requires MIN <= now - DAY && now + 15 * DAY < MAX
    requires dtr.start == now && dtr.end == now + 15 * DAY
    requires before.start == now - DAY && before.end == MAX
    requires twoDaysOn.start == now + 2 * DAY && twoDaysOn.end == MAX
    requires sameStart.start == now && sameStart.end == MAX
    requires firstTwelve.start == now && firstTwelve.end == now + 12 * DAY
    requires dayLater.start == now + DAY && dayLater.end == now + 15 * DAY
    ensures dtr.Gt(before) && before.Lt(dtr)
    ensures twoDaysOn.Gt(dtr) && dtr.Lt(sameStart)
    ensures dtr.Ge(firstTwelve) && dtr.Le(dayLater)
  {}

  /** What `sorted` guarantees of its output under `<`: no element is
      `<` the one before it. */
  ghost predicate NonDecreasing(s: seq<DateTimeRange>) {
    forall i :: 0 < i < |s| ==> !s[i].Lt(s[i - 1])
  }

  /** No two elements compare `==`. */
  ghost predicate DistinctBounds(s: seq<DateTimeRange>) {
    forall i, j :: 0 <= i < j < |s| ==> !s[i].Eq(s[j])
  }

  /** In a non-decreasing sequence no later element is `<` an earlier one. */
  lemma {:induction false} NonDecreasingChain(s: seq<DateTimeRange>, i: nat, j: nat)
    requires NonDecreasing(s)
    requires i <= j < |s|
    ensures !s[j].Lt(s[i])
    decreases j - i
  {
    if i < j {
      NonDecreasingChain(s, i, j - 1);
      assert !s[j].Lt(s[j - 1]);
    }
  }

  /** With no two ranges equal, the first element of a non-decreasing
      sequence is `<` every other one. */
  lemma {:induction false} HeadIsLeast(s: seq<DateTimeRange>, j: nat)
    requires NonDecreasing(s) && DistinctBounds(s)
    requires 0 < j < |s|
    ensures s[0].Lt(s[j])
  {
    NonDecreasingChain(s, 0, j);
    assert !s[0].Eq(s[j]);
    Trichotomy(s[0], s[j]);
  }

  /** Dropping the first element keeps a sequence non-decreasing. */
  lemma NonDecreasingTail(s: seq<DateTimeRange>)
    requires NonDecreasing(s) && s != []
    ensures NonDecreasing(s[1..])
  {
    forall i | 0 < i < |s[1..]| ensures !s[1..][i].Lt(s[1..][i - 1]) {
      assert s[1..][i] == s[i + 1] && s[1..][i - 1] == s[i];
    }
  }

  /** Dropping the first element keeps the bounds distinct. */
  lemma DistinctBoundsTail(s: seq<DateTimeRange>)
    requires DistinctBounds(s) && s != []
    ensures DistinctBounds(s[1..])
  {
    forall i, j | 0 <= i < j < |s[1..]| ensures !s[1..][i].Eq(s[1..][j]) {
      assert s[1..][i] == s[i + 1] && s[1..][j] == s[j + 1];
    }
  }

  /** Two non-decreasing arrangements of the same distinct ranges start
      with the same range. */
  lemma {:induction false} SameHead(s: seq<DateTimeRange>, t: seq<DateTimeRange>)
    requires NonDecreasing(s) && NonDecreasing(t) && DistinctBounds(s)
    requires multiset(s) == multiset(t) && s != []
    ensures t != [] && s[0] == t[0]
  {
    assert s[0] in multiset(t);
    assert t != [];
    assert t[0] in multiset(s);
    var j :| 0 <= j < |s| && s[j] == t[0];
    var k :| 0 <= k < |t| && t[k] == s[0];
    if j != 0 {
      HeadIsLeast(s, j);
      NonDecreasingChain(t, 0, k);
    }
  }

  /** When no two ranges are `==`, there is exactly one non-decreasing
      arrangement of them, so `sorted` has only one possible answer. */
  lemma {:induction false} SortedIsUnique(s: seq<DateTimeRange>, t: seq<DateTimeRange>)
    requires NonDecreasing(s) && NonDecreasing(t) && DistinctBounds(s)
    requires multiset(s) == multiset(t)
    ensures s == t
  {
    if s == [] {
      assert |t| == |multiset(t)| == 0;
    } else {
      SameHead(s, t);
      assert s == [s[0]] + s[1..] && t == [t[0]] + t[1..];
      assert multiset(s[1..]) == multiset(t[1..]) by {
        assert multiset(s) == multiset{s[0]} + multiset(s[1..]);
        assert multiset(t) == multiset{s[0]} + multiset(t[1..]);
        assert multiset(s[1..]) == multiset(s) - multiset{s[0]};
      }
      NonDecreasingTail(s);
      NonDecreasingTail(t);
      DistinctBoundsTail(s);
      SortedIsUnique(s[1..], t[1..]);
    }
  }

  /** A sequence whose neighbours are each `<` the next is non-decreasing
      and holds no two `==` ranges. */
  lemma {:induction false} IncreasingIsSorted(s: seq<DateTimeRange>)
    requires forall i :: 0 < i < |s| ==> s[i - 1].Lt(s[i])
    ensures NonDecreasing(s) && DistinctBounds(s)
  {
    forall i | 0 < i < |s| ensures !s[i].Lt(s[i - 1]) {
      Trichotomy(s[i - 1], s[i]);
    }
    forall i, j | 0 <= i < j < |s| ensures !s[i].Eq(s[j]) {
      IncreasingChain(s, i, j);
      Trichotomy(s[i], s[j]);
    }
  }

  lemma {:induction false} IncreasingChain(s: seq<DateTimeRange>, i: nat, j: nat)
    requires forall k :: 0 < k < |s| ==> s[k - 1].Lt(s[k])
    requires i < j < |s|
    ensures s[i].Lt(s[j])
    decreases j - i
  {
    if i + 1 < j {
      IncreasingChain(s, i, j - 1);
      LtTransitive(s[i], s[j - 1], s[j]);
    }
  }

  /** The five ranges of the sorting test, built from `now`: whatever order
      they are shuffled into, `sorted` returns left-open, the one starting
      the day before, the fortnight, right-open, the one starting a day late. */
  lemma SortScenario(now: Instant,
                     dtr: DateTimeRange, dtr1: DateTimeRange, dtr2: DateTimeRange,
                     leftOpen: DateTimeRange, rightOpen: DateTimeRange,
                     shuffled: seq<DateTimeRange>, sorted: seq<DateTimeRange>)
    requires MIN <= now - DAY && now + 15 * DAY < MAX
    requires dtr.start == now && dtr.end == now + 15 * DAY
    requires dtr1.start == now - DAY && dtr1.end == MAX
    requires dtr2.start == now + DAY && dtr2.end == now + 15 * DAY
    requires leftOpen.start == MIN && leftOpen.end == now + 15 * DAY
    requires rightOpen.start == now && rightOpen.end == MAX
    requires multiset(shuffled) == multiset([dtr, dtr2, dtr1, leftOpen, rightOpen])
    requires multiset(sorted) == multiset(shuffled) && NonDecreasing(sorted)
    ensures sorted == [leftOpen, dtr1, dtr, rightOpen, dtr2]
  {
    var expected := [leftOpen, dtr1, dtr, rightOpen, dtr2];
    assert multiset(expected) == multiset([dtr, dtr2, dtr1, leftOpen, rightOpen]);
    assert leftOpen.Lt(dtr1) && dtr1.Lt(dtr) && dtr.Lt(rightOpen) && rightOpen.Lt(dtr2);
    IncreasingFive(leftOpen, dtr1, dtr, rightOpen, dtr2);
    SortedIsUnique(expected, sorted);
  }

  /** Five ranges each `<` the next form a sorted sequence with no two `==`. */
  lemma IncreasingFive(a: DateTimeRange, b: DateTimeRange, c: DateTimeRange, d: DateTimeRange, e: DateTimeRange)
    requires a.Lt(b) && b.Lt(c) && c.Lt(d) && d.Lt(e)
    ensures NonDecreasing([a, b, c, d, e]) && DistinctBounds([a, b, c, d, e])
  {
    var s := [a, b, c, d, e];
    assert forall i :: 0 < i < |s| ==> s[i - 1].Lt(s[i]);
    IncreasingIsSorted(s);
  }
}
