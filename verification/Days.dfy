// Calendar days in UTC, as whole numbers of days since the epoch, and windows that cover both of
// their ends whole.

module Days {
  import opened Options
  import opened Money

  const MS_PER_DAY := 86_400_000
  const DEFAULT_RANGE_DAYS := 30

  datatype Range = Range(from: int, to: int)

  function StartOfDay(day: int): int {
    day * MS_PER_DAY
  }

  function EndOfDay(day: int): int {
    day * MS_PER_DAY + MS_PER_DAY - 1
  }

  // The day an instant falls on.
  function DayOf(at: int): (day: int)
    ensures StartOfDay(day) <= at <= EndOfDay(day)
  {
    at / MS_PER_DAY
  }

  // An inclusive window: the last 30 days including today when nothing is asked for.
  function ResolveRange(from: Option<int>, to: Option<int>, now: int): Range {
    var last := if to.Some? then to.value else DayOf(now);
    var first := if from.Some? then from.value else DayOf(StartOfDay(last) - (DEFAULT_RANGE_DAYS - 1) * MS_PER_DAY);
    Range(StartOfDay(first), EndOfDay(last))
  }

  function FirstDay(range: Range): int {
    DayOf(range.from)
  }

  function LastDay(range: Range): int {
    DayOf(range.to)
  }

  // A window covers exactly the whole days from its first to its last.
  lemma CoversWholeDays(from: Option<int>, to: Option<int>, now: int, at: int)
    ensures var range := ResolveRange(from, to, now);
            range.from <= at <= range.to <==> FirstDay(range) <= DayOf(at) <= LastDay(range)
  {
  }

  // A day that was asked for is the day the window starts or ends on; with no end given it ends today.
  lemma AskedDaysAreKept(from: int, to: Option<int>, now: int)
    ensures var range := ResolveRange(Some(from), to, now);
            && FirstDay(range) == from && range.from == from * 86_400_000
            && LastDay(range) == (if to.Some? then to.value else DayOf(now))
            && range.to == (LastDay(range) + 1) * 86_400_000 - 1
  {
  }

  // With no start given, the window is the 30 days that end on its last day.
  lemma DefaultIsThirtyDays(to: Option<int>, now: int)
    ensures var range := ResolveRange(None, to, now);
            && LastDay(range) - FirstDay(range) + 1 == 30 && range.from == (LastDay(range) - 29) * 86_400_000
            && LastDay(range) == if to.Some? then to.value else DayOf(now)
  {
  }

  // A window is the right way round unless its start is after its end, or after today when no end
  // was given.
  lemma InOrderExactlyWhen(from: Option<int>, to: Option<int>, now: int)
    ensures var range := ResolveRange(from, to, now);
            range.from <= range.to
            <==> from.None? || from.value <= (if to.Some? then to.value else DayOf(now))
  {
  }

  function DaysBetween(first: int, last: int): (days: seq<int>)
    ensures |days| == if first <= last then last - first + 1 else 0
    ensures forall i :: 0 <= i < |days| ==> days[i] == first + i
  {
    seq(if first <= last then last - first + 1 else 0, i => first + i)
  }

  // Midnight to midnight: every day from the first to the last, in order, none twice.
  method EachUtcDay(range: Range) returns (keys: seq<int>)
    ensures keys == DaysBetween(FirstDay(range), LastDay(range))
  {
    keys := [];
    var cursor := StartOfDay(DayOf(range.from));
    while cursor <= range.to
      invariant cursor == StartOfDay(FirstDay(range) + |keys|)
      invariant keys == DaysBetween(FirstDay(range), FirstDay(range) + |keys| - 1)
      invariant keys != [] ==> FirstDay(range) + |keys| - 1 <= LastDay(range)
      decreases range.to - cursor
    {
      keys := keys + [DayOf(cursor)];
      cursor := cursor + MS_PER_DAY;
    }
  }

  // Math.round of the window's length in days; the millisecond it falls short is rounded away.
  function DaysInRange(range: Range): int {
    RoundHalfUp((range.to - range.from) as real / MS_PER_DAY as real)
  }

  // The length of the series is what daysInRange reports, exactly for a window that is not inverted
  // by more than its own last day.
  lemma SeriesLength(from: Option<int>, to: Option<int>, now: int)
    ensures var range := ResolveRange(from, to, now);
            && DaysInRange(range) == LastDay(range) - FirstDay(range) + 1
            && (|DaysBetween(FirstDay(range), LastDay(range))| == DaysInRange(range)
                <==> FirstDay(range) <= LastDay(range) + 1)
  {
    var range := ResolveRange(from, to, now);
    var n := LastDay(range) - FirstDay(range) + 1;
    assert range.to - range.from == n * MS_PER_DAY - 1;
    var x := (range.to - range.from) as real / MS_PER_DAY as real;
    assert x == n as real - 1.0 / MS_PER_DAY as real;
  }
}
