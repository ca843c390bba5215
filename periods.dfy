/**
 * Instants, fixed-offset time zones and the `startOf`/`endOf`/`isBetween` operations of
 * moment-timezone that the handlers use. An instant is an integer number of milliseconds
 * since 1970-01-01T00:00:00Z; a zone is the number of milliseconds its local time is ahead
 * of UTC.
 */
module Periods {
  import opened Calendar
  import opened Folds

  const MS_PER_DAY: int := 86_400_000

  /** The units the handlers pass to `startOf` and `endOf`. */
  datatype Unit = Day | Month | Year

  /**
   * The `[startDate, endDate]` pair a handler filters with. `InvalidPeriod` is the pair of
   * invalid moments that an unparseable date produces: `isBetween` is false against it.
   */
  datatype Period = Between(start: int, end: int) | InvalidPeriod

  /** The local calendar day (as a day number) on which instant `t` falls in the zone. */
  function LocalDay(t: int, offset: int): int {
    (t + offset) / MS_PER_DAY
  }

  function LocalDate(t: int, offset: int): Date {
    DateOf(LocalDay(t, offset))
  }

  /** The first instant of local day `n` in the zone. */
  function Midnight(n: int, offset: int): int {
    n * MS_PER_DAY - offset
  }

  lemma MidnightLocalDay(n: int, offset: int)
    ensures LocalDay(Midnight(n, offset), offset) == n
  {
    assert Midnight(n, offset) + offset == n * MS_PER_DAY;
  }

  /** UTC midnight of day `n` falls on local day `n` east of UTC and on day `n - 1` west of it. */
  lemma UtcMidnightLocalDay(n: int, offset: int)
    requires -MS_PER_DAY <= offset < MS_PER_DAY
    ensures LocalDay(n * MS_PER_DAY, offset) == if offset >= 0 then n else n - 1
  {
    var t := n * MS_PER_DAY + offset;
    if offset >= 0 {
      assert n * MS_PER_DAY <= t < (n + 1) * MS_PER_DAY;
    } else {
      assert (n - 1) * MS_PER_DAY <= t < n * MS_PER_DAY;
    }
  }

  /** First day of the unit that contains day `n`. */
  function FirstDayOf(n: int, unit: Unit): int {
    match unit
    case Day => n
    case Month => var d := DateOf(n); EpochDay(Date(d.year, d.month, 1))
    case Year => YearStart(DateOf(n).year)
  }

  /** Number of days in the unit that contains day `n`. */
  function DaysIn(n: int, unit: Unit): int {
    match unit
    case Day => 1
    case Month => var d := DateOf(n); DaysInMonth(d.year, d.month)
    case Year => DaysInYear(DateOf(n).year)
  }

  /** `moment.tz(t, zone).startOf(unit)`: the first millisecond of the local unit containing `t`. */
  function StartOf(t: int, offset: int, unit: Unit): int {
    FirstDayOf(LocalDay(t, offset), unit) * MS_PER_DAY - offset
  }

  /** `moment.tz(t, zone).endOf(unit)`: one millisecond before the start of the next unit. */
  function EndOf(t: int, offset: int, unit: Unit): int {
    var n := LocalDay(t, offset);
    (FirstDayOf(n, unit) + DaysIn(n, unit)) * MS_PER_DAY - offset - 1
  }

  /** `s` and `t` fall in the same local day, month or year of the zone. */
  predicate SameUnit(s: int, t: int, offset: int, unit: Unit) {
    match unit
    case Day => LocalDay(s, offset) == LocalDay(t, offset)
    case Month =>
      LocalDate(s, offset).year == LocalDate(t, offset).year
      && LocalDate(s, offset).month == LocalDate(t, offset).month
    case Year => LocalDate(s, offset).year == LocalDate(t, offset).year
  }

  /** The instants of `k` whole local days starting with day `first` are those whose local day is one of them. */
  lemma DayRange(s: int, offset: int, first: int, k: int)
    requires k >= 1
    ensures first * MS_PER_DAY - offset <= s <= (first + k) * MS_PER_DAY - offset - 1
            <==> first <= LocalDay(s, offset) < first + k
  {
  }

  /**
   * `[startOf(unit), endOf(unit)]` around `t` holds exactly the instants that lie in the same
   * local unit as `t`: it is closed, starts at the unit's first instant and ends at its last.
   */
  lemma UnitWindow(t: int, offset: int, unit: Unit, s: int)
    ensures StartOf(t, offset, unit) <= t <= EndOf(t, offset, unit)
    ensures StartOf(t, offset, unit) <= s <= EndOf(t, offset, unit) <==> SameUnit(s, t, offset, unit)
  {
    var n := LocalDay(t, offset);
    var m := LocalDay(s, offset);
    var d := DateOf(n);
    match unit
    case Day =>
      DayRange(s, offset, n, 1);
      DayRange(t, offset, n, 1);
    case Month =>
      DayRange(s, offset, FirstDayOf(n, unit), DaysIn(n, unit));
      DayRange(t, offset, FirstDayOf(n, unit), DaysIn(n, unit));
      MonthDays(d.year, d.month, m);
      MonthDays(d.year, d.month, n);
    case Year =>
      YearStartStep(d.year);
      DayRange(s, offset, FirstDayOf(n, unit), DaysIn(n, unit));
      DayRange(t, offset, FirstDayOf(n, unit), DaysIn(n, unit));
      YearDays(d.year, m);
      YearDays(d.year, n);
  }

  /** The window is as long as the local unit: one day, the month's days or the year's days. */
  lemma UnitSpan(t: int, offset: int, unit: Unit)
    ensures var d := LocalDate(t, offset);
            EndOf(t, offset, unit) - StartOf(t, offset, unit) + 1
            == MS_PER_DAY * match unit
                            case Day => 1
                            case Month => DaysInMonth(d.year, d.month)
                            case Year => DaysInYear(d.year)
  {
  }

  /** `moment(t).isBetween(start, end, null, "[]")`: inclusive at both ends, false against invalid moments. */
  predicate InPeriod(t: int, p: Period) {
    p.Between? && p.start <= t && t <= p.end
  }

  /** `r => moment.tz(at(r), zone).isBetween(start, end, null, "[]")`. */
  function InWindow<T>(at: T -> int, p: Period): T -> bool {
    x => InPeriod(at(x), p)
  }

  /** `records.filter(r => moment.tz(at(r), zone).isBetween(start, end, null, "[]"))`. */
  function Within<T>(s: seq<T>, at: T -> int, p: Period): (r: seq<T>)
    ensures forall i :: 0 <= i < |r| ==> InPeriod(at(r[i]), p)
    ensures forall i :: 0 <= i < |s| && InPeriod(at(s[i]), p) ==> s[i] in r
    ensures multiset(r) <= multiset(s)
    ensures !p.Between? ==> r == []
  {
    FilterAllOrNone(s, InWindow(at, p));
    Filter(s, InWindow(at, p))
  }
}
