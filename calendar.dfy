/** The part of JavaScript's `Date` the application uses, on a local time line.

    A date-time is an `int` counting milliseconds of local time from 0000-01-01T00:00 in the
    proleptic Gregorian calendar (day number 0, a Saturday). Calendar fields are read back
    through `CivilFromDayNumber`, the proved inverse of `DayNumber`. Months are numbered
    0..11 and days 1..31, as `getMonth()` and `getDate()` return them. Constructors and
    setters normalise out-of-range months and days as ECMAScript's MakeDay does. */
module Calendar {

  const MsPerDay: int := 86400000
  const MsPerHour: int := 3600000

  predicate IsLeapYear(y: int)
  {
    y % 4 == 0 && (y % 100 != 0 || y % 400 == 0)
  }

  function DaysInYear(y: int): int
  {
    if IsLeapYear(y) then 366 else 365
  }

  function DaysInMonth(y: int, m: int): int
    requires 0 <= m < 12
  {
    if m == 1 then (if IsLeapYear(y) then 29 else 28)
    else if m == 3 || m == 5 || m == 8 || m == 10 then 30
    else 31
  }

  /** Days in year `y` before the first of month `m` (0 <= m <= 12). */
  function DaysBeforeMonth(y: int, m: int): int
    requires 0 <= m <= 12
  {
    var common :=
      if m == 0 then 0 else if m == 1 then 31 else if m == 2 then 59 else if m == 3 then 90
      else if m == 4 then 120 else if m == 5 then 151 else if m == 6 then 181
      else if m == 7 then 212 else if m == 8 then 243 else if m == 9 then 273
      else if m == 10 then 304 else if m == 11 then 334 else 365;
    common + (if m >= 2 && IsLeapYear(y) then 1 else 0)
  }

  lemma {:induction false} MonthTable(y: int, m: int)
    requires 0 <= m < 12
    ensures DaysBeforeMonth(y, m + 1) == DaysBeforeMonth(y, m) + DaysInMonth(y, m)
    ensures DaysBeforeMonth(y, 12) == DaysInYear(y) && DaysBeforeMonth(y, 0) == 0
  {
  }

  lemma {:induction false} MonthMonotone(y: int, i: int, j: int)
    requires 0 <= i <= j <= 12
    ensures DaysBeforeMonth(y, i) + 28 * (j - i) <= DaysBeforeMonth(y, j)
    decreases j - i
  {
    if i < j {
      MonthMonotone(y, i + 1, j);
      MonthTable(y, i);
    }
  }

  /** Days from 0000-01-01 to the first of January of year `y` (negative before year 0). */
  function DaysBeforeYear(y: int): int
    decreases if y < 0 then -y else y
  {
    if y == 0 then 0
    else if y > 0 then DaysBeforeYear(y - 1) + DaysInYear(y - 1)
    else DaysBeforeYear(y + 1) - DaysInYear(y)
  }

  lemma {:induction false} YearStep(y: int)
    ensures DaysBeforeYear(y + 1) == DaysBeforeYear(y) + DaysInYear(y)
  {
  }

  lemma {:induction false} YearMonotone(a: int, b: int)
    requires a <= b
    ensures DaysBeforeYear(a) + 365 * (b - a) <= DaysBeforeYear(b)
    decreases b - a
  {
    if a < b {
      YearStep(a);
      YearMonotone(a + 1, b);
    }
  }

  lemma {:induction false} YearBounds(y: int)
    ensures y >= 0 ==> DaysBeforeYear(y) <= 366 * y
    ensures y <= 0 ==> DaysBeforeYear(y) <= 365 * y
    decreases if y < 0 then -y else y
  {
    if y > 0 {
      YearBounds(y - 1);
    } else if y < 0 {
      YearBounds(y + 1);
    }
  }

  /** A year whose first day is no later than day `n`: where the search for `n`'s year starts. */
  function StartYear(n: int): (y: int)
    ensures DaysBeforeYear(y) <= n
  {
    var y := if n >= 0 then n / 366 else n / 365 - 1;
    YearBounds(y);
    y
  }

  /** The year containing day `n`, searching upwards from year `y`. */
  function YearFrom(n: int, y: int): (r: int)
    requires DaysBeforeYear(y) <= n
    ensures DaysBeforeYear(r) <= n < DaysBeforeYear(r + 1)
    decreases n - DaysBeforeYear(y)
  {
    YearStep(y);
    if DaysBeforeYear(y + 1) <= n then YearFrom(n, y + 1) else y
  }

  /** The last month `res <= m` whose first day (counted within year `y`) is at most `r`. */
  function MonthFrom(y: int, r: int, m: int): (res: int)
    requires 0 <= r && 0 <= m < 12
    ensures 0 <= res <= m && DaysBeforeMonth(y, res) <= r
    ensures res < m ==> r < DaysBeforeMonth(y, res + 1)
    decreases m
  {
    if DaysBeforeMonth(y, m) <= r then m else MonthFrom(y, r, m - 1)
  }

  /** A calendar date as `getFullYear()`, `getMonth()` and `getDate()` report it. */
  datatype Civil = Civil(year: int, month: int, day: int)

  predicate ValidCivil(c: Civil)
  {
    0 <= c.month < 12 && 1 <= c.day <= DaysInMonth(c.year, c.month)
  }

  function DayNumber(c: Civil): int
    requires 0 <= c.month < 12
  {
    DaysBeforeYear(c.year) + DaysBeforeMonth(c.year, c.month) + c.day - 1
  }

  function CivilFromDayNumber(n: int): (c: Civil)
    ensures ValidCivil(c) && DayNumber(c) == n
  {
    var y := YearFrom(n, StartYear(n));
    YearStep(y);
    var r := n - DaysBeforeYear(y);
    var m := MonthFrom(y, r, 11);
    MonthTable(y, m);
    Civil(y, m, r - DaysBeforeMonth(y, m) + 1)
  }

  lemma {:induction false} YearUnique(n: int, a: int, b: int)
    requires DaysBeforeYear(a) <= n < DaysBeforeYear(a + 1)
    requires DaysBeforeYear(b) <= n < DaysBeforeYear(b + 1)
    ensures a == b
  {
    if a < b {
      YearMonotone(a + 1, b);
    } else if b < a {
      YearMonotone(b + 1, a);
    }
  }

  lemma {:induction false} MonthUnique(y: int, r: int, a: int, b: int)
    requires 0 <= a < 12 && 0 <= b < 12
    requires DaysBeforeMonth(y, a) <= r < DaysBeforeMonth(y, a + 1)
    requires DaysBeforeMonth(y, b) <= r < DaysBeforeMonth(y, b + 1)
    ensures a == b
  {
    if a < b {
      MonthMonotone(y, a + 1, b);
    } else if b < a {
      MonthMonotone(y, b + 1, a);
    }
  }

  /** Every valid calendar date is recovered from its day number: calendar dates and day
      numbers are in one-to-one correspondence. */
  lemma {:induction false} CivilRoundTrip(c: Civil)
    requires ValidCivil(c)
    ensures CivilFromDayNumber(DayNumber(c)) == c
  {
    var n := DayNumber(c);
    var y := c.year;
    MonthTable(y, c.month);
    MonthMonotone(y, c.month + 1, 12);
    YearStep(y);
    var c' := CivilFromDayNumber(n);
    YearStep(c'.year);
    YearUnique(n, y, c'.year);
    var r := n - DaysBeforeYear(y);
    MonthTable(y, c'.month);
    MonthUnique(y, r, c.month, c'.month);
  }

  /** `getDay()` of day number `n`: 0 is Sunday, 6 is Saturday (day 0 is a Saturday). */
  function Weekday(n: int): (w: int)
    ensures 0 <= w < 7
  {
    (n + 6) % 7
  }

  // ---- date-times ----

  /** The day number of a date-time. */
  function DayOf(t: int): int
  {
    t / MsPerDay
  }

  /** Milliseconds since local midnight. */
  function TimeInDay(t: int): (ms: int)
    ensures 0 <= ms < MsPerDay
  {
    t % MsPerDay
  }

  function CivilOf(t: int): Civil
  {
    CivilFromDayNumber(DayOf(t))
  }

  /** `getHours()`. */
  function Hours(t: int): (h: int)
    ensures 0 <= h < 24
  {
    TimeInDay(t) / MsPerHour
  }

  /** `a.getDate() === b.getDate() && a.getMonth() === b.getMonth() && a.getFullYear() === b.getFullYear()`. */
  predicate SameCalendarDay(a: int, b: int)
  {
    CivilOf(a) == CivilOf(b)
  }

  /** Two date-times share their calendar fields exactly when they fall on the same day. */
  lemma {:induction false} SameCalendarDayIff(a: int, b: int)
    ensures SameCalendarDay(a, b) <==> DayOf(a) == DayOf(b)
  {
  }

  /** ECMAScript MakeDay: the day number of `new Date(y, m, d)`, months beyond 0..11 carried
      into the year and days beyond the month carried into the following months. */
  function MakeDay(y: int, m: int, d: int): int
  {
    DayNumber(Civil(y + m / 12, m % 12, 1)) + d - 1
  }

  /** `new Date(y, m, d)` at local midnight. */
  function MakeDate(y: int, m: int, d: int): int
  {
    MakeDay(y, m, d) * MsPerDay
  }

  /** `new Date(y, m + 1, 0)` is the last day of month `m`. */
  lemma {:induction false} DayZeroOfNextMonth(y: int, m: int)
    requires 0 <= m < 12
    ensures MakeDay(y, m + 1, 0) == DayNumber(Civil(y, m, DaysInMonth(y, m)))
  {
    MonthTable(y, m);
    if m == 11 {
      YearStep(y);
    }
  }

  /** The first of a month is the day number of `new Date(y, m, 1)`. */
  lemma {:induction false} FirstOfMonth(y: int, m: int)
    requires 0 <= m < 12
    ensures MakeDay(y, m, 1) == DayNumber(Civil(y, m, 1))
  {
  }

  /** `d.setHours(0, 0, 0, 0)`. */
  function StartOfDay(t: int): int
  {
    DayOf(t) * MsPerDay
  }

  /** `d.setHours(23, 59, 59, 999)`. */
  function EndOfDay(t: int): int
  {
    DayOf(t) * MsPerDay + MsPerDay - 1
  }

  /** `d.setDate(d.getDate() + k)`: the same local time `k` days later. */
  function AddDays(t: int, k: int): int
  {
    t + k * MsPerDay
  }

  /** `d.setDate(v)`: day `v` of the same month (normalised), time kept. */
  function SetDate(t: int, v: int): int
  {
    var c := CivilOf(t);
    MakeDay(c.year, c.month, v) * MsPerDay + TimeInDay(t)
  }

  /** `d.setMonth(v)`: the same day-of-month in month `v` (normalised), time kept. A day that the
      new month does not have overflows into the month after it. */
  function SetMonth(t: int, v: int): int
  {
    var c := CivilOf(t);
    MakeDay(c.year, v, c.day) * MsPerDay + TimeInDay(t)
  }

  /** Setting the date to `getDate() + k` is moving `k` whole days. */
  lemma {:induction false} SetDateMovesDays(t: int, k: int)
    ensures SetDate(t, CivilOf(t).day + k) == AddDays(t, k)
    ensures DayOf(AddDays(t, k)) == DayOf(t) + k && TimeInDay(AddDays(t, k)) == TimeInDay(t)
  {
    var c := CivilOf(t);
    var d := DayOf(t);
    assert c.month / 12 == 0 && c.month % 12 == c.month;
    assert MakeDay(c.year, c.month, c.day + k) == d + k;
    DayOfBounds(t);
    assert (d + k) * MsPerDay == d * MsPerDay + k * MsPerDay;
    DaySplit(AddDays(t, k), d + k, TimeInDay(t));
  }

  lemma {:induction false} DayOfBounds(t: int)
    ensures DayOf(t) * MsPerDay <= t < DayOf(t) * MsPerDay + MsPerDay
    ensures t == DayOf(t) * MsPerDay + TimeInDay(t)
  {
  }

  /** A date-time is determined by its day number and its time of day. */
  lemma {:induction false} DaySplit(t: int, d: int, ms: int)
    requires 0 <= ms < MsPerDay && t == d * MsPerDay + ms
    ensures DayOf(t) == d && TimeInDay(t) == ms
  {
    DayOfBounds(t);
  }

  /** A date-time lies between midnight of day `a` and the last millisecond of day `b`
      exactly when its day number lies between `a` and `b`. */
  lemma {:induction false} WithinDays(t: int, a: int, b: int)
    ensures a * MsPerDay <= t <= b * MsPerDay + MsPerDay - 1 <==> a <= DayOf(t) <= b
  {
    DayOfBounds(t);
  }

  /** A date-time on the day that a valid calendar date numbers reads back that date. */
  lemma {:induction false} CivilOfDay(t: int, c: Civil)
    requires ValidCivil(c) && DayOf(t) == DayNumber(c)
    ensures CivilOf(t) == c
  {
    CivilRoundTrip(c);
  }

  /** A date-time `ms` past midnight of the day a valid calendar date numbers reads back that
      date and that time of day. */
  lemma {:induction false} CivilAt(t: int, n: int, c: Civil, ms: int)
    requires ValidCivil(c) && n == DayNumber(c) && 0 <= ms < MsPerDay && t == n * MsPerDay + ms
    ensures DayOf(t) == n && TimeInDay(t) == ms
    ensures CivilOf(t) == c
  {
    DaySplit(t, n, ms);
    CivilOfDay(t, c);
  }

  /** `new Date(y, m, d)` for a month `m` in 0..11 is day `d` of that month, counted from its 1st. */
  lemma {:induction false} MakeDayInMonth(y: int, m: int, d: int)
    requires 0 <= m < 12
    ensures MakeDay(y, m, d) == DayNumber(Civil(y, m, d))
  {
    assert m / 12 == 0 && m % 12 == m;
  }

  /** Year and month of the month before month `m` of year `y`. */
  function YearBefore(y: int, m: int): int { if m == 0 then y - 1 else y }

  function MonthBefore(m: int): int { if m == 0 then 11 else m - 1 }

  /** `new Date(y, m - 1, d)` for a month `m` in 0..11 is day `d` of the month before, counted
      from its 1st: December of the year before when `m` is January. */
  lemma {:induction false} MakeDayMonthBefore(y: int, m: int, d: int)
    requires 0 <= m < 12
    ensures MakeDay(y, m - 1, d) == DayNumber(Civil(YearBefore(y, m), MonthBefore(m), d))
  {
    if m == 0 {
      assert (m - 1) / 12 == -1 && (m - 1) % 12 == 11;
    } else {
      assert (m - 1) / 12 == 0 && (m - 1) % 12 == m - 1;
    }
  }

  /** Going back `Weekday(n)` days from day `n` lands on a Sunday. */
  lemma {:induction false} SundayOnOrBefore(n: int)
    ensures Weekday(n - Weekday(n)) == 0
  {
    var q := (n + 6) / 7;
    assert n - Weekday(n) + 6 == 7 * q;
    assert (7 * q) % 7 == 0;
  }

  /** Consecutive days have consecutive weekdays. */
  lemma {:induction false} WeekdayStep(n: int)
    ensures Weekday(n + 1) == (Weekday(n) + 1) % 7
  {
  }

  lemma {:induction false} StepDiv(y: int, k: int)
    requires k == 4 || k == 100 || k == 400
    ensures (y + k) / k - (y + k - 1) / k == if y % k == 0 then 1 else 0
  {
  }

  lemma {:induction false} LeapAsCounts(x: int)
    ensures DaysInYear(x) == 365 + (if x % 4 == 0 then 1 else 0) - (if x % 100 == 0 then 1 else 0)
                                 + (if x % 400 == 0 then 1 else 0)
  {
    if x % 100 == 0 {
      var q := x / 100;
      assert x == 4 * (25 * q);
    }
    if x % 400 == 0 {
      var q := x / 400;
      assert x == 100 * (4 * q);
    }
  }

  /** Closed form of `DaysBeforeYear` for years from 0 on (leap years every 4 years, except
      centuries not divisible by 400). */
  lemma {:induction false} DaysBeforeYearClosedForm(y: nat)
    ensures DaysBeforeYear(y) == 365 * y + (y + 3) / 4 - (y + 99) / 100 + (y + 399) / 400
    decreases y
  {
    if y > 0 {
      DaysBeforeYearClosedForm(y - 1);
      YearStep(y - 1);
      StepDiv(y - 1, 4);
      StepDiv(y - 1, 100);
      StepDiv(y - 1, 400);
      LeapAsCounts(y - 1);
    }
  }

  /** Anchor of the week: 1 January 1970 was a Thursday. */
  lemma {:induction false} EpochIsThursday()
    ensures Weekday(DayNumber(Civil(1970, 0, 1))) == 4
  {
    DaysBeforeYearClosedForm(1970);
    assert DaysBeforeYear(1970) == 719528;
    assert DayNumber(Civil(1970, 0, 1)) == 719528;
  }
}
