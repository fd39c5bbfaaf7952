/**
 The proleptic Gregorian calendar of Python's `date`, as far as the reminder schedule uses it.
 A day is its number of days since 1 January of year 1, which was a Monday; a month is the
 number 12 * year + (month - 1), the form in which the schedule adds months.
 */
module Calendar {

  const SECOND: int := 1_000_000
  const MINUTE: int := 60_000_000
  const DAY: int := 86_400_000_000

  /** The first month of year 1 and the month after the last one of year 9999. */
  const FIRST_MONTH: int := 12
  const END_MONTH: int := 120_000

  /** The day after 31 December 9999. */
  const END_DAY: int := 3_652_059

  predicate IsLeap(year: int) {
    year % 4 == 0 && (year % 100 != 0 || year % 400 == 0)
  }

  function DaysIn(month: int): (days: int)
    ensures 28 <= days <= 31
  {
    var m := month % 12;
    if m == 1 then (if IsLeap(month / 12) then 29 else 28)
    else if m == 3 || m == 5 || m == 8 || m == 10 then 30
    else 31
  }

  function DaysBeforeYear(year: int): int {
    365 * (year - 1) + (year - 1) / 4 - (year - 1) / 100 + (year - 1) / 400
  }

  function DaysBeforeMonth(month: int): int {
    var m := month % 12;
    var leapDay := if IsLeap(month / 12) then 1 else 0;
    if m == 0 then 0
    else if m == 1 then 31
    else leapDay +
         if m == 2 then 59
         else if m == 3 then 90
         else if m == 4 then 120
         else if m == 5 then 151
         else if m == 6 then 181
         else if m == 7 then 212
         else if m == 8 then 243
         else if m == 9 then 273
         else if m == 10 then 304
         else 334
  }

  /** The number of the first day of a month. */
  function MonthStart(month: int): int {
    DaysBeforeYear(month / 12) + DaysBeforeMonth(month)
  }

  /** `date(year, month, monthday)` does not raise. */
  predicate IsDate(month: int, monthday: int) {
    FIRST_MONTH <= month < END_MONTH && 1 <= monthday <= DaysIn(month)
  }

  /** The months of a year have the lengths everybody knows. */
  lemma MonthLengths(year: int, m: nat)
    requires m < 12
    ensures var february := if year % 400 == 0 || (year % 4 == 0 && year % 100 != 0) then 29 else 28;
            DaysIn(12 * year + m) == [31, february, 31, 30, 31, 30, 31, 31, 30, 31, 30, 31][m]
  {
    assert (12 * year + m) / 12 == year && (12 * year + m) % 12 == m;
  }

  /** The first and the last day, and the one Unix time begins with. */
  lemma KnownDays()
    ensures MonthStart(12 * 1) == 0 && MonthStart(12 * 10000) == END_DAY && MonthStart(12 * 1970) == 719162
  {
  }

  lemma YearLength(year: int)
    ensures DaysBeforeYear(year + 1) == DaysBeforeYear(year) + (if IsLeap(year) then 366 else 365)
  {
    var p := year - 1;
    assert (p + 1) / 4 == p / 4 + if (p + 1) % 4 == 0 then 1 else 0;
    assert (p + 1) / 100 == p / 100 + if (p + 1) % 100 == 0 then 1 else 0;
    assert (p + 1) / 400 == p / 400 + if (p + 1) % 400 == 0 then 1 else 0;
  }

  /** The months tile the days: each starts where the one before it ends. */
  lemma MonthsAreAdjacent(month: int)
    ensures MonthStart(month + 1) == MonthStart(month) + DaysIn(month)
  {
    hide IsLeap;
    var y, m := month / 12, month % 12;
    if m == 11 {
      assert (month + 1) / 12 == y + 1 && (month + 1) % 12 == 0;
      YearLength(y);
    } else {
      assert (month + 1) / 12 == y && (month + 1) % 12 == m + 1;
    }
  }

  lemma {:induction false} MonthsAreOrdered(a: int, b: int)
    requires a < b
    ensures MonthStart(a) + DaysIn(a) <= MonthStart(b)
    decreases b - a
  {
    hide MonthStart, DaysIn;
    MonthsAreAdjacent(a);
    if a + 1 < b {
      MonthsAreOrdered(a + 1, b);
    }
  }

  predicate InMonth(day: int, month: int) {
    MonthStart(month) <= day < MonthStart(month) + DaysIn(month)
  }

  lemma {:induction false} MonthExists(day: int, end: int)
    requires FIRST_MONTH < end <= END_MONTH && 0 <= day < MonthStart(end)
    ensures exists m :: FIRST_MONTH <= m < END_MONTH && InMonth(day, m)
    decreases end
  {
    MonthsAreAdjacent(end - 1);
    if MonthStart(end - 1) <= day {
      assert InMonth(day, end - 1);
    } else {
      assert MonthStart(FIRST_MONTH) == 0;
      MonthExists(day, end - 1);
    }
  }

  lemma MonthIsUnique(day: int, a: int, b: int)
    requires InMonth(day, a) && InMonth(day, b)
    ensures a == b
  {
    if a < b {
      MonthsAreOrdered(a, b);
    } else if b < a {
      MonthsAreOrdered(b, a);
    }
  }

  lemma MonthIsDetermined(day: int)
    requires 0 <= day < END_DAY
    ensures exists m :: FIRST_MONTH <= m < END_MONTH && InMonth(day, m)
    ensures forall a, b | InMonth(day, a) && InMonth(day, b) :: a == b
  {
    assert MonthStart(END_MONTH) == END_DAY;
    MonthExists(day, END_MONTH);
    forall a, b | InMonth(day, a) && InMonth(day, b)
      ensures a == b
    {
      MonthIsUnique(day, a, b);
    }
  }

  /** The month a day lies in. */
  function MonthOf(day: int): (month: int)
    requires 0 <= day < END_DAY
    ensures FIRST_MONTH <= month < END_MONTH && InMonth(day, month)
  {
    MonthIsDetermined(day);
    var m :| FIRST_MONTH <= m < END_MONTH && InMonth(day, m);
    m
  }

  /** A day is the only date with its month and monthday. */
  lemma DateRoundTrip(month: int, monthday: int)
    requires IsDate(month, monthday)
    ensures var day := MonthStart(month) + monthday - 1;
            0 <= day < END_DAY && MonthOf(day) == month
  {
    assert MonthStart(FIRST_MONTH) == 0 && MonthStart(END_MONTH) == END_DAY;
    if FIRST_MONTH < month {
      MonthsAreOrdered(FIRST_MONTH, month);
    }
    MonthsAreOrdered(month, END_MONTH);
    var day := MonthStart(month) + monthday - 1;
    var m := MonthOf(day);
    if m < month {
      MonthsAreOrdered(m, month);
    } else if month < m {
      MonthsAreOrdered(month, m);
    }
  }

  /** Dates in a later month are later days. */
  lemma LaterMonthIsLater(day: int, month: int, monthday: int)
    requires 0 <= day < END_DAY && IsDate(month, monthday) && MonthOf(day) < month
    ensures day < MonthStart(month) + monthday - 1
  {
    MonthsAreOrdered(MonthOf(day), month);
  }

  /** The calendar repeats after 400 years, in which no date is lost or gained. */
  lemma {:induction false} LeapCycle(month: int, cycles: nat)
    ensures DaysIn(month + 4800 * cycles) == DaysIn(month)
  {
    if cycles > 0 {
      LeapCycle(month, cycles - 1);
      OneLeapCycle(month + 4800 * (cycles - 1));
    }
  }

  lemma LeapYearsRepeat(year: int)
    ensures IsLeap(year + 400) == IsLeap(year)
  {
    assert (year + 400) % 400 == year % 400;
    assert (year + 400) % 100 == year % 100;
    assert (year + 400) % 4 == year % 4;
  }

  lemma OneLeapCycle(month: int)
    ensures DaysIn(month + 4800) == DaysIn(month)
  {
    hide IsLeap;
    var y, m := month / 12, month % 12;
    assert month + 4800 == 12 * (y + 400) + m;
    assert (month + 4800) / 12 == y + 400 && (month + 4800) % 12 == m;
    LeapYearsRepeat(y);
  }
}
