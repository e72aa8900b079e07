/** The `DateTimeRange` class of `dating/ranges.py`: an inclusive interval
    between two instants, a missing bound standing for `Arrow.min` or
    `Arrow.max`, with membership, well-definedness, five comparisons and a
    day-by-day iterator whose cursor lives on the range object itself. */
module Ranges {
  import opened Wrappers
  import opened Instants

  /** The exceptions `__next__` can raise besides `StopIteration`. */
  datatype IterError =
    | PointerUnset   // `None <= end` is a TypeError: `__next__` called before `__iter__`
    | ShiftOverflow  // `shift(days=1)` would pass `Arrow.max`: an OverflowError

  /** What one call of `__next__` does: return a value, raise `StopIteration`,
      or raise another exception. */
  datatype Step = Yielded(value: Instant) | Exhausted | Raised(error: IterError)

  /** `arrow.get` raised on this text. */
  datatype ParseError = ParseError(text: string)

  /** The `x or sentinel` idiom of the constructor: an Arrow is never falsy. */
  function BoundOr(bound: Option<Instant>, sentinel: Instant): Instant {
    if bound.Some? then bound.value else sentinel
  }

  /** The `x if x else None` idiom of `from_strings`: `None` and the empty
      string omit the bound, any other text goes through `parse`. */
  function ParseBound(text: Option<string>, parse: string -> Option<Instant>): (r: Result<Option<Instant>, ParseError>)
    ensures r == Ok(None) <==> text == None || text == Some("")
    ensures r.Ok? && r.value.Some? ==> text.Some? && parse(text.value) == r.value
    ensures r.Err? <==> text.Some? && text.value != "" && parse(text.value).None?
    ensures r.Err? ==> r.error == ParseError(text.value)
  {
    if text.None? || text.value == "" then Ok(None)
    else if parse(text.value).Some? then Ok(Some(parse(text.value).value))
    else Err(ParseError(text.value))
  }

  /** One call of `__next__` on the cursor `pointer` of a range ending at
      `end`: the step it takes and the cursor it leaves behind. */
  function StepAt(pointer: Option<Instant>, end: Instant): (r: (Step, Option<Instant>))
    ensures r.0.Yielded? ==> pointer == Some(r.0.value) && r.0.value <= end && r.1 == Some(r.0.value + DAY)
    ensures !r.0.Yielded? ==> r.1 == pointer
    ensures r.0 == Exhausted <==> pointer.Some? && end < pointer.value
    ensures r.0 == Raised(ShiftOverflow) <==> pointer.Some? && pointer.value <= end && MAX < pointer.value + DAY
    ensures r.0 == Raised(PointerUnset) <==> pointer.None?
  {
    match pointer
    case None => (Raised(PointerUnset), None)
    case Some(p) =>
      if p <= end then
        if p + DAY <= MAX then (Yielded(p), Some(p + DAY))
        else (Raised(ShiftOverflow), pointer)
      else (Exhausted, pointer)
  }

  class DateTimeRange {
    /** `_start_arrow`, read through `start_arrow`. */
    const start: Instant
    /** `_end_arrow`, read through `end_arrow`. */
    const end: Instant
    /** `_pointer`, the iteration cursor; `None` until `__iter__` runs. */
    var pointer: Option<Instant>

    /** The cursor only ever sits on a whole day after `start`. */
    ghost predicate Valid()
      reads this
    {
      pointer.Some? ==> start <= pointer.value && (pointer.value - start) % DAY == 0
    }

    /** `DateTimeRange(start=None, end=None)`. */
    constructor (start: Option<Instant>, end: Option<Instant>)
      ensures start.None? ==> this.start == MIN
      ensures end.None? ==> this.end == MAX
      ensures start.Some? ==> this.start == start.value
      ensures end.Some? ==> this.end == end.value
      ensures pointer == None && Valid()
    {
      this.start := BoundOr(start, MIN);
      this.end := BoundOr(end, MAX);
      pointer := None;
    }

    /** `DateTimeRange.from_strings`, with `arrow.get` given as `parse`
        (`None` when it raises). The start text is parsed first. */
    static method FromStrings(startStr: Option<string>, endStr: Option<string>, parse: string -> Option<Instant>)
      returns (r: Result<DateTimeRange, ParseError>)
      ensures ParseBound(startStr, parse).Err? ==> r == Err(ParseBound(startStr, parse).error)
      ensures ParseBound(startStr, parse).Ok? && ParseBound(endStr, parse).Err? ==>
                r == Err(ParseBound(endStr, parse).error)
      ensures r.Ok? <==> ParseBound(startStr, parse).Ok? && ParseBound(endStr, parse).Ok?
      ensures r.Ok? ==> fresh(r.value) && r.value.pointer == None && r.value.Valid()
      ensures r.Ok? ==> r.value.start == BoundOr(ParseBound(startStr, parse).value, MIN)
      ensures r.Ok? ==> r.value.end == BoundOr(ParseBound(endStr, parse).value, MAX)
    {
      var s := ParseBound(startStr, parse);
      if s.Err? {
        return Err(s.error);
      }
      var e := ParseBound(endStr, parse);
      if e.Err? {
        return Err(e.error);
      }
      var range := new DateTimeRange(s.value, e.value);
      return Ok(range);
    }

    /** `DateTimeRange.from_datetimes`, with `Arrow.fromdatetime` given as
        `fromDatetime`; a `datetime` is never falsy, so only `None` omits a bound. */
    static method FromDatetimes<D>(startDt: Option<D>, endDt: Option<D>, fromDatetime: D -> Instant)
      returns (r: DateTimeRange)
      ensures fresh(r) && r.pointer == None && r.Valid()
      ensures r.start == (if startDt.Some? then fromDatetime(startDt.value) else MIN)
      ensures r.end == (if endDt.Some? then fromDatetime(endDt.value) else MAX)
    {
      var s := if startDt.Some? then Some(fromDatetime(startDt.value)) else None;
      var e := if endDt.Some? then Some(fromDatetime(endDt.value)) else None;
      r := new DateTimeRange(s, e);
    }

    /** `is_well_defined`: neither bound is the sentinel of an omitted one. */
    function IsWellDefined(): (r: bool)
      ensures r <==> start != MIN && end != MAX
    {
      start > MIN && end < MAX
    }

    /** `x in range`: inclusive at both ends. */
    function Contains(x: Instant): (r: bool)
      ensures start == MIN ==> (r <==> x <= end)
      ensures end == MAX ==> (r <==> start <= x)
      ensures end < start ==> !r
    {
      x >= start && x <= end
    }

    /** `__lt__`: lexicographic on `(start, end)`. */
    function Lt(other: DateTimeRange): (r: bool)
      ensures start < other.start ==> r
      ensures r ==> start <= other.start
      ensures r ==> start != other.start || end != other.end
    {
      start < other.start || (start == other.start && end < other.end)
    }

    /** `__eq__`: both bounds equal; exactly when neither range is `<` the other. */
    function Eq(other: DateTimeRange): (r: bool)
      ensures r <==> !Lt(other) && !other.Lt(this)
    {
      start == other.start && end == other.end
    }

    /** `__gt__`: written on its own in the source, it is the mirror of `<`. */
    function Gt(other: DateTimeRange): (r: bool)
      ensures r <==> other.Lt(this)
    {
      start > other.start || (start == other.start && end > other.end)
    }

    /** `__le__`: componentwise, so it implies `<` or `==` (never `>`),
        but `<` does not imply it. */
    function Le(other: DateTimeRange): (r: bool)
      ensures r ==> !Gt(other)
      ensures r ==> Lt(other) || Eq(other)
    {
      start <= other.start && end <= other.end
    }

    /** `__ge__`: componentwise, the mirror of `<=`. */
    function Ge(other: DateTimeRange): (r: bool)
      ensures r <==> other.Le(this)
    {
      start >= other.start && end >= other.end
    }

    /** `__iter__`: resets the cursor to `start` and returns the range itself. */
    method Iter() returns (it: DateTimeRange)
      modifies this
      ensures it == this
      ensures pointer == Some(start) && Valid()
    {
      pointer := Some(start);
      it := this;
    }

    /** `__next__`: yields the cursor while it has not passed `end`, then
        moves it one day on; `start` and `end` are constants. */
    method Next() returns (s: Step)
      requires Valid()
      modifies this
      ensures Valid()
      ensures (s, pointer) == StepAt(old(pointer), end)
      ensures s.Yielded? ==> Contains(s.value) && (s.value - start) % DAY == 0
    {
      match pointer
      case None =>
        s := Raised(PointerUnset);
      case Some(p) =>
        if p <= end {
          if p + DAY <= MAX {
            s := Yielded(p);
            pointer := Some(p + DAY);
          } else {
            s := Raised(ShiftOverflow);
          }
        } else {
          s := Exhausted;
        }
    }
  }
}
