/** Leaderboard period boundaries (lib/pearls/periods.ts): the UTC midnight
    that starts the current week (Monday), month, quarter and year, rendered
    by `toISOString()`. Time values and day numbers follow the ECMAScript
    definitions (Day, WeekDay, DayFromYear, MakeDay); the clock reading is a
    parameter carrying its own UTC decomposition. */
module Periods {
  import opened Text
  import opened Dates

  const MsPerDay: int := 86_400_000

  /** ECMAScript Day(t): the day number of a time value (floor division). */
  function Day(t: int): int {
    t / MsPerDay
  }

  /** ECMAScript WeekDay for a day number: 0 is Sunday, 1 is Monday. */
  function WeekDayOfDay(day: int): (w: int)
    ensures 0 <= w < 7
  {
    (day + 4) % 7
  }

  function IsLeap(y: int): bool {
    y % 4 == 0 && (y % 100 != 0 || y % 400 == 0)
  }

  /** ECMAScript DayFromYear: the day number of 1 January of year y. */
  function DayFromYear(y: int): int {
    365 * (y - 1970) + (y - 1969) / 4 - (y - 1901) / 100 + (y - 1601) / 400
  }

  /** Days from 1 January to the first of month m (0-based) of year y. */
  function MonthStartDay(y: int, m: int): (days: int)
    requires 0 <= m < 12
    ensures 0 <= days <= 335
  {
    var table := [0, 31, 59, 90, 120, 151, 181, 212, 243, 273, 304, 334];
    table[m] + (if m >= 2 && IsLeap(y) then 1 else 0)
  }

  function DaysInMonth(y: int, m: int): (days: int)
    requires 0 <= m < 12
    ensures 28 <= days <= 31
  {
    if m == 1 then (if IsLeap(y) then 29 else 28)
    else if m == 3 || m == 5 || m == 8 || m == 10 then 30
    else 31
  }

  /** A calendar day with a 0-based month, as the getUTC* accessors report it. */
  datatype UtcDay = UtcDay(year: int, month: int, date: int)

  predicate ValidDay(d: UtcDay) {
    0 <= d.month < 12 && 1 <= d.date <= DaysInMonth(d.year, d.month)
  }

  /** MakeDay(year, month, date) for a month in 0-11 and any date, which may
      run before the first of the month. */
  function MakeDay(year: int, month: int, date: int): int
    requires 0 <= month < 12
  {
    DayFromYear(year) + MonthStartDay(year, month) + date - 1
  }

  function DayNumber(d: UtcDay): int
    requires 0 <= d.month < 12
  {
    MakeDay(d.year, d.month, d.date)
  }

  /** A clock reading: the time value and what getUTCFullYear, getUTCMonth,
      getUTCDate and getUTCDay return for it. */
  datatype Now = Now(time: int, today: UtcDay, weekDay: int)

  /** The decomposition is the one the Date accessors compute from the time value. */
  predicate Consistent(now: Now) {
    && ValidDay(now.today)
    && Day(now.time) == DayNumber(now.today)
    && now.weekDay == WeekDayOfDay(Day(now.time))
  }

  /** `toISOString()` of a UTC midnight. */
  function MidnightIso(d: UtcDay): string
    requires ValidDay(d)
  {
    IsoDate(CivilDate(d.year, d.month + 1, d.date)) + "T00:00:00.000Z"
  }

  // ---------------------------------------------------------------------------
  // getWeekStart
  // ---------------------------------------------------------------------------

  /** Days back to Monday: 6 on Sunday, weekDay - 1 otherwise. */
  function DaysSinceMonday(weekDay: int): int {
    if weekDay == 0 then 6 else weekDay - 1
  }

  /** The calendar day Date.UTC(year, month, date - diff) lands on; the date can
      run at most six days before the first of the month. */
  function WeekStartDay(now: Now): UtcDay
    requires Consistent(now)
  {
    DayBefore(now.today, now.today.date - DaysSinceMonday(now.weekDay))
  }

  /** The calendar day for `date` of t's month, where date may be up to a few
      days before the first: it then falls in the previous month, or in
      December of the previous year. */
  function DayBefore(t: UtcDay, date: int): UtcDay
    requires 0 <= t.month < 12
  {
    if date >= 1 then UtcDay(t.year, t.month, date)
    else if t.month > 0 then UtcDay(t.year, t.month - 1, DaysInMonth(t.year, t.month - 1) + date)
    else UtcDay(t.year - 1, 11, 31 + date)
  }

  /** getWeekStart. */
  function GetWeekStart(now: Now): string
    requires Consistent(now)
  {
    WeekStartFacts(now);
    MidnightIso(WeekStartDay(now))
  }

  /** The day getWeekStart renders is a valid date, is the day Date.UTC computes,
      is a Monday, and is the last Monday on or before today. */
  lemma WeekStartFacts(now: Now)
    requires Consistent(now)
    ensures var w := WeekStartDay(now);
      var today := Day(now.time);
      && ValidDay(w)
      && DayNumber(w) == MakeDay(now.today.year, now.today.month, now.today.date - DaysSinceMonday(now.weekDay))
      && WeekDayOfDay(DayNumber(w)) == 1
      && DayNumber(w) <= today < DayNumber(w) + 7
  {
    var today := Day(now.time);
    var diff := DaysSinceMonday(now.weekDay);
    assert diff == DaysSinceMonday(WeekDayOfDay(today));
    BackToMonday(today);
    var t := now.today;
    var w := WeekStartDay(now);
    assert w == DayBefore(t, t.date - diff);
    WeekStartDayNumber(t, diff);
    MakeDayBack(t.year, t.month, t.date, diff);
    assert DayNumber(w) == today - diff;
  }

  /** MakeDay is linear in the date. */
  lemma MakeDayBack(year: int, month: int, date: int, diff: int)
    requires 0 <= month < 12
    ensures MakeDay(year, month, date - diff) == MakeDay(year, month, date) - diff
  {
  }

  /** Stepping back DaysSinceMonday days from any day lands on a Monday at most six days earlier. */
  lemma BackToMonday(day: int)
    ensures var diff := DaysSinceMonday(WeekDayOfDay(day));
      0 <= diff <= 6 && WeekDayOfDay(day - diff) == 1
  {
  }

  /** Normalising a date up to six days before the first of the month into the
      previous month (or December of the previous year) names the same day. */
  lemma WeekStartDayNumber(t: UtcDay, diff: int)
    requires ValidDay(t) && 0 <= diff <= 6
    ensures var w := DayBefore(t, t.date - diff);
      ValidDay(w) && DayNumber(w) == MakeDay(t.year, t.month, t.date - diff)
  {
    var date := t.date - diff;
    if date < 1 {
      if t.month > 0 {
        MonthStartStep(t.year, t.month - 1);
      } else {
        YearLength(t.year - 1);
      }
    }
  }

  /** Consecutive months: the next month starts DaysInMonth later. */
  lemma MonthStartStep(y: int, m: int)
    requires 0 <= m < 11
    ensures MonthStartDay(y, m + 1) == MonthStartDay(y, m) + DaysInMonth(y, m)
  {
  }

  function DaysInYear(y: int): int {
    if IsLeap(y) then 366 else 365
  }

  /** Consecutive years: the next year starts DaysInYear later. */
  lemma YearLength(y: int)
    ensures DayFromYear(y + 1) == DayFromYear(y) + DaysInYear(y)
  {
    FloorStep(y - 1969, 4);
    FloorStep(y - 1901, 100);
    FloorStep(y - 1601, 400);
    ShiftedMultiple(y, 1968, 4);
    ShiftedMultiple(y, 1900, 100);
    ShiftedMultiple(y, 1600, 400);
    DivisorChain(y);
    assert DaysInYear(y) == 365 + (if y % 4 == 0 then 1 else 0) - (if y % 100 == 0 then 1 else 0) + (if y % 400 == 0 then 1 else 0);
  }

  /** A multiple of 400 is one of 100, and a multiple of 100 one of 4. */
  lemma DivisorChain(y: int)
    ensures y % 400 == 0 ==> y % 100 == 0
    ensures y % 100 == 0 ==> y % 4 == 0
  {
    if y % 400 == 0 {
      assert y == 400 * (y / 400);
      FourHundredsAreHundreds(y / 400);
    }
    if y % 100 == 0 {
      assert y == 100 * (y / 100);
      HundredsAreFours(y / 100);
    }
  }

  lemma FourHundredsAreHundreds(q: int)
    ensures (400 * q) % 100 == 0
  {
    assert 400 * q == 100 * (4 * q);
  }

  lemma HundredsAreFours(q: int)
    ensures (100 * q) % 4 == 0
  {
    assert 100 * q == 4 * (25 * q);
  }

  /** The leap-year divisors: floor division by k steps up exactly at multiples of k. */
  lemma FloorStep(a: int, k: int)
    requires k == 4 || k == 100 || k == 400
    ensures (a + 1) / k == a / k + (if (a + 1) % k == 0 then 1 else 0)
  {
    if k == 4 {
      assert (a + 1) / 4 == a / 4 + (if (a + 1) % 4 == 0 then 1 else 0);
    } else if k == 100 {
      assert (a + 1) / 100 == a / 100 + (if (a + 1) % 100 == 0 then 1 else 0);
    } else {
      assert (a + 1) / 400 == a / 400 + (if (a + 1) % 400 == 0 then 1 else 0);
    }
  }

  /** 1968, 1900 and 1600 are multiples of 4, 100 and 400. */
  lemma ShiftedMultiple(y: int, c: int, k: int)
    requires (k == 4 && c == 1968) || (k == 100 && c == 1900) || (k == 400 && c == 1600)
    ensures ((y - c) % k == 0) == (y % k == 0)
  {
    if k == 4 {
      assert (y - 1968) % 4 == y % 4;
    } else if k == 100 {
      assert (y - 1900) % 100 == y % 100;
    } else {
      assert (y - 1600) % 400 == y % 400;
    }
  }

  // ---------------------------------------------------------------------------
  // getMonthStart, getQuarterStart, getYearStart
  // ---------------------------------------------------------------------------

  function MonthStartDayOf(now: Now): UtcDay
    requires Consistent(now)
  {
    UtcDay(now.today.year, now.today.month, 1)
  }

  /** getMonthStart. */
  function GetMonthStart(now: Now): string
    requires Consistent(now)
  {
    MidnightIso(MonthStartDayOf(now))
  }

  /** The first month of the quarter: floor(month / 3) * 3. */
  function QuarterMonth(month: int): (q: int)
    requires 0 <= month < 12
    ensures q in {0, 3, 6, 9} && q <= month < q + 3
  {
    (month / 3) * 3
  }

  function QuarterStartDayOf(now: Now): UtcDay
    requires Consistent(now)
  {
    UtcDay(now.today.year, QuarterMonth(now.today.month), 1)
  }

  /** getQuarterStart. */
  function GetQuarterStart(now: Now): string
    requires Consistent(now)
  {
    MidnightIso(QuarterStartDayOf(now))
  }

  function YearStartDayOf(now: Now): UtcDay
    requires Consistent(now)
  {
    UtcDay(now.today.year, 0, 1)
  }

  /** getYearStart. */
  function GetYearStart(now: Now): string
    requires Consistent(now)
  {
    MidnightIso(YearStartDayOf(now))
  }

  /** The period starts are nested: year start <= quarter start <= month start
      <= today, and the week start is within the last seven days. */
  lemma PeriodStartsOrdered(now: Now)
    requires Consistent(now)
    ensures var today := Day(now.time);
      && DayNumber(YearStartDayOf(now)) <= DayNumber(QuarterStartDayOf(now))
      && DayNumber(QuarterStartDayOf(now)) <= DayNumber(MonthStartDayOf(now))
      && DayNumber(MonthStartDayOf(now)) <= today
      && today - 6 <= DayNumber(WeekStartDay(now)) <= today
  {
    WeekStartFacts(now);
    MonthStartMonotone(now.today.year, QuarterMonth(now.today.month), now.today.month);
  }

  lemma MonthStartMonotone(y: int, m1: int, m2: int)
    requires 0 <= m1 <= m2 < 12
    ensures MonthStartDay(y, m1) <= MonthStartDay(y, m2)
  {
  }

  /** Every boundary is a UTC midnight: its time value is a whole number of days,
      and it lies at or before the clock reading. */
  lemma BoundariesAreMidnights(now: Now)
    requires Consistent(now)
    ensures var d := DayNumber(WeekStartDay(now));
      (d * MsPerDay) % MsPerDay == 0 && d * MsPerDay <= now.time
    ensures var d := DayNumber(MonthStartDayOf(now));
      (d * MsPerDay) % MsPerDay == 0 && d * MsPerDay <= now.time
  {
    PeriodStartsOrdered(now);
    DayStartBefore(now.time, DayNumber(WeekStartDay(now)));
    DayStartBefore(now.time, DayNumber(MonthStartDayOf(now)));
  }

  lemma DayStartBefore(time: int, d: int)
    requires d <= Day(time)
    ensures (d * MsPerDay) % MsPerDay == 0 && d * MsPerDay <= time
  {
    assert Day(time) * MsPerDay <= time;
    assert d * MsPerDay <= Day(time) * MsPerDay;
  }
}
