/**
 * The proleptic Gregorian calendar on day numbers: day 0 is 1970-01-01, and every
 * integer is a day. This is the calendar arithmetic that JavaScript `Date` and
 * moment use for `startOf`/`endOf` and for parsing `YYYY-MM-DD`.
 */
module Calendar {

  datatype Date = Date(year: int, month: int, day: int)

  predicate IsLeapYear(y: int) {
    y % 4 == 0 && (y % 100 != 0 || y % 400 == 0)
  }

  function DaysInYear(y: int): int {
    if IsLeapYear(y) then 366 else 365
  }

  function DaysInMonth(y: int, m: int): (n: int)
    requires 1 <= m <= 12
    ensures 28 <= n <= 31
    ensures m == 2 <==> n < 30
  {
    if m == 2 then (if IsLeapYear(y) then 29 else 28)
    else if m == 4 || m == 6 || m == 9 || m == 11 then 30
    else 31
  }

  predicate ValidDate(d: Date) {
    1 <= d.month <= 12 && 1 <= d.day <= DaysInMonth(d.year, d.month)
  }

  /** Days of year `y` that come before the first of month `m`. */
  function DaysBeforeMonth(y: int, m: int): int
    requires 1 <= m <= 12
  {
    var common :=
      if m == 1 then 0 else if m == 2 then 31 else if m == 3 then 59
      else if m == 4 then 90 else if m == 5 then 120 else if m == 6 then 151
      else if m == 7 then 181 else if m == 8 then 212 else if m == 9 then 243
      else if m == 10 then 273 else if m == 11 then 304 else 334;
    common + (if m > 2 && IsLeapYear(y) then 1 else 0)
  }

  /** The months tile the year: each starts where the previous one ends, and December ends the year. */
  lemma MonthsTile(y: int, m: int)
    requires 1 <= m <= 12
    ensures m < 12 ==> DaysBeforeMonth(y, m + 1) == DaysBeforeMonth(y, m) + DaysInMonth(y, m)
    ensures DaysBeforeMonth(y, m) + DaysInMonth(y, m) <= DaysInYear(y)
    ensures m == 12 ==> DaysBeforeMonth(y, m) + DaysInMonth(y, m) == DaysInYear(y)
  {
  }

  lemma MonthsOrdered(y: int, m1: int, m2: int)
    requires 1 <= m1 < m2 <= 12
    ensures DaysBeforeMonth(y, m1) + DaysInMonth(y, m1) <= DaysBeforeMonth(y, m2)
  {
  }

  /** Leap years in the years before `y`, counted from a fixed origin (floor division). */
  function LeapCount(y: int): int {
    (y - 1) / 4 - (y - 1) / 100 + (y - 1) / 400
  }

  /** Day number of January 1 of year `y`. */
  function YearStart(y: int): int {
    365 * (y - 1970) + LeapCount(y) - 477
  }

  lemma FloorStep4(y: int)
    ensures y / 4 - (y - 1) / 4 == if y % 4 == 0 then 1 else 0
  {
  }

  lemma FloorStep100(y: int)
    ensures y / 100 - (y - 1) / 100 == if y % 100 == 0 then 1 else 0
  {
  }

  lemma FloorStep400(y: int)
    ensures y / 400 - (y - 1) / 400 == if y % 400 == 0 then 1 else 0
  {
  }

  /** Consecutive years are `DaysInYear` apart. */
  lemma YearStartStep(y: int)
    ensures YearStart(y + 1) == YearStart(y) + DaysInYear(y)
  {
    FloorStep4(y);
    FloorStep100(y);
    FloorStep400(y);
  }

  lemma {:induction false} YearStartMonotone(a: int, b: int)
    requires a <= b
    ensures YearStart(a) <= YearStart(b)
    decreases b - a
  {
    if a < b {
      YearStartStep(a);
      YearStartMonotone(a + 1, b);
    }
  }

  /** A day belongs to at most one year. */
  lemma YearUnique(a: int, b: int, n: int)
    requires YearStart(a) <= n < YearStart(a + 1)
    requires YearStart(b) <= n < YearStart(b + 1)
    ensures a == b
  {
    if a < b {
      YearStartMonotone(a + 1, b);
    } else if b < a {
      YearStartMonotone(b + 1, a);
    }
  }

  /** The year containing day `n`, searched for from the guess `y`. */
  function FindYear(n: int, y: int): (r: int)
    ensures YearStart(r) <= n < YearStart(r + 1)
    decreases if n < YearStart(y) then YearStart(y) - n + 1000 else n - YearStart(y)
  {
    YearStartStep(y - 1);
    YearStartStep(y);
    if n < YearStart(y) then FindYear(n, y - 1)
    else if n >= YearStart(y + 1) then FindYear(n, y + 1)
    else y
  }

  /** The month of year `y` containing day-of-year `doy`, searched for downwards from `m`. */
  function FindMonth(y: int, doy: int, m: int): (r: int)
    requires 1 <= m <= 12
    requires 0 <= doy < DaysBeforeMonth(y, m) + DaysInMonth(y, m)
    ensures 1 <= r <= m
    ensures DaysBeforeMonth(y, r) <= doy < DaysBeforeMonth(y, r) + DaysInMonth(y, r)
    decreases m
  {
    if DaysBeforeMonth(y, m) <= doy then m
    else
      MonthsTile(y, m - 1);
      FindMonth(y, doy, m - 1)
  }

  /** Day number of a calendar date; days past the end of the month roll over, as in JavaScript's MakeDay. */
  function EpochDay(d: Date): int
    requires 1 <= d.month <= 12
  {
    YearStart(d.year) + DaysBeforeMonth(d.year, d.month) + d.day - 1
  }

  /** The calendar date of day number `n`. */
  function DateOf(n: int): (d: Date)
    ensures ValidDate(d)
    ensures EpochDay(d) == n
  {
    var y := FindYear(n, 1970 + n / 366);
    YearStartStep(y);
    MonthsTile(y, 12);
    var doy := n - YearStart(y);
    var m := FindMonth(y, doy, 12);
    Date(y, m, doy - DaysBeforeMonth(y, m) + 1)
  }

  lemma EpochDayWithinYear(d: Date)
    requires ValidDate(d)
    ensures YearStart(d.year) <= EpochDay(d) < YearStart(d.year + 1)
  {
    MonthsTile(d.year, d.month);
    YearStartStep(d.year);
  }

  /** Distinct valid dates have distinct day numbers. */
  lemma EpochDayInjective(a: Date, b: Date)
    requires ValidDate(a) && ValidDate(b)
    requires EpochDay(a) == EpochDay(b)
    ensures a == b
  {
    EpochDayWithinYear(a);
    EpochDayWithinYear(b);
    YearUnique(a.year, b.year, EpochDay(a));
    if a.month < b.month {
      MonthsOrdered(a.year, a.month, b.month);
    } else if b.month < a.month {
      MonthsOrdered(a.year, b.month, a.month);
    }
  }

  /** `DateOf` inverts `EpochDay` on valid dates (and, by its contract, `EpochDay` inverts `DateOf`). */
  lemma DateOfEpochDay(d: Date)
    requires ValidDate(d)
    ensures DateOf(EpochDay(d)) == d
  {
    EpochDayInjective(DateOf(EpochDay(d)), d);
  }

  /** Day `n` lies in month `m` of year `y` exactly when it is one of that month's days. */
  lemma MonthDays(y: int, m: int, n: int)
    requires 1 <= m <= 12
    ensures EpochDay(Date(y, m, 1)) <= n < EpochDay(Date(y, m, 1)) + DaysInMonth(y, m)
            <==> DateOf(n).year == y && DateOf(n).month == m
  {
    var first := EpochDay(Date(y, m, 1));
    var e := DateOf(n);
    if first <= n < first + DaysInMonth(y, m) {
      var d := Date(y, m, n - first + 1);
      assert EpochDay(d) == n;
      DateOfEpochDay(d);
    }
    if e.year == y && e.month == m {
      assert EpochDay(e) == first + e.day - 1;
    }
  }

  /** Day `n` lies in year `y` exactly when it is one of that year's days. */
  lemma YearDays(y: int, n: int)
    ensures YearStart(y) <= n < YearStart(y + 1) <==> DateOf(n).year == y
  {
    if YearStart(y) <= n < YearStart(y + 1) {
      DayInYear(y, n);
    }
    if DateOf(n).year == y {
      YearOfDay(n);
    }
  }

  lemma YearOfDay(n: int)
    ensures YearStart(DateOf(n).year) <= n < YearStart(DateOf(n).year + 1)
  {
    EpochDayWithinYear(DateOf(n));
  }

  lemma DayInYear(y: int, n: int)
    requires YearStart(y) <= n < YearStart(y + 1)
    ensures DateOf(n).year == y
  {
    YearOfDay(n);
    YearUnique(y, DateOf(n).year, n);
  }
}
