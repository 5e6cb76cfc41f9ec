/**
 * The proleptic Gregorian calendar the usage chart draws on. A day is its
 * number since 1970-01-01, a Thursday; a month is its number since January 1970.
 */
module Calendar {
  /** 0 is Sunday. */
  function Weekday(day: int): int {
    (day + 4) % 7
  }

  function MondayOf(day: int): (monday: int)
    ensures Weekday(monday) == 1 && monday <= day < monday + 7
  {
    day - (Weekday(day) + 6) % 7
  }

  predicate IsLeap(year: int) {
    year % 4 == 0 && (year % 100 != 0 || year % 400 == 0)
  }

  function DaysIn(month: int): (n: int)
    ensures 28 <= n <= 31
  {
    var m := month % 12;
    if m == 1 then if IsLeap(1970 + month / 12) then 29 else 28
    else if m == 3 || m == 5 || m == 8 || m == 10 then 30
    else 31
  }

  /** The first day of a month. */
  function MonthStart(month: int): int
    decreases if month < 0 then -month else month
  {
    if month == 0 then 0
    else if month > 0 then MonthStart(month - 1) + DaysIn(month - 1)
    else MonthStart(month + 1) - DaysIn(month)
  }

  /** Months follow each other without a gap. */
  lemma MonthsAreContiguous(month: int)
    ensures MonthStart(month + 1) == MonthStart(month) + DaysIn(month)
  {
  }

  function MonthFrom(day: int, month: int): (m: int)
    requires MonthStart(month) <= day
    ensures MonthStart(m) <= day < MonthStart(m + 1)
    decreases day - MonthStart(month)
  {
    MonthsAreContiguous(month);
    if day < MonthStart(month + 1) then month else MonthFrom(day, month + 1)
  }

  function MonthUpTo(day: int, month: int): (m: int)
    requires day < MonthStart(month + 1)
    ensures MonthStart(m) <= day < MonthStart(m + 1)
    decreases MonthStart(month + 1) - day
  {
    MonthsAreContiguous(month);
    if MonthStart(month) <= day then month else MonthUpTo(day, month - 1)
  }

  /** The month a day falls in. */
  function MonthOf(day: int): (month: int)
    ensures MonthStart(month) <= day < MonthStart(month + 1)
  {
    if day >= 0 then MonthFrom(day, 0) else MonthUpTo(day, -1)
  }

  /** A day has one Monday on or before it within a week, and falls in one month. */
  lemma MondayUnique(monday: int, day: int)
    requires Weekday(monday) == 1 && monday <= day < monday + 7
    ensures MondayOf(day) == monday
  {
  }

  lemma {:induction false} MonthsInOrder(m: int, n: int)
    requires m <= n
    ensures MonthStart(m) <= MonthStart(n)
    decreases n - m
  {
    if m < n {
      MonthsInOrder(m, n - 1);
      MonthsAreContiguous(n - 1);
    }
  }

  lemma {:induction false} MonthUnique(month: int, day: int)
    requires MonthStart(month) <= day < MonthStart(month + 1)
    ensures MonthOf(day) == month
  {
    var m := MonthOf(day);
    if m < month {
      MonthsInOrder(m + 1, month);
    } else if m > month {
      MonthsInOrder(month + 1, m);
    }
  }

  // ----- Against the usual reckoning -----

  /** How many years before that one are leap years, counted from year 1: every fourth, but only every fourth century. */
  function LeapYearsBefore(year: int): int {
    (year - 1) / 4 - (year - 1) / 100 + (year - 1) / 400
  }

  /** Days of a common year before each of its months. */
  const DAYS_BEFORE := [0, 31, 59, 90, 120, 151, 181, 212, 243, 273, 304, 334]

  /** The first day of month m of a year, January being 0, counted from 1970-01-01. */
  function FirstOf(year: int, m: int): int
    requires 0 <= m < 12
  {
    365 * (year - 1970) + (LeapYearsBefore(year) - LeapYearsBefore(1970)) + DAYS_BEFORE[m] + if m >= 2 then LeapDay(year) else 0
  }

  /** The 29th of February, if there is one. */
  function LeapDay(year: int): int {
    if year % 400 == 0 || (year % 4 == 0 && year % 100 != 0) then 1 else 0
  }

  lemma LeapYearCounted(year: int)
    ensures LeapYearsBefore(year + 1) == LeapYearsBefore(year) + LeapDay(year)
  {
    assert year / 4 == (year - 1) / 4 + if year % 4 == 0 then 1 else 0;
    assert year / 100 == (year - 1) / 100 + if year % 100 == 0 then 1 else 0;
    assert year / 400 == (year - 1) / 400 + if year % 400 == 0 then 1 else 0;
  }

  /** The first day of a month counted from January 1970. */
  function FirstOfMonth(month: int): int {
    FirstOf(1970 + month / 12, month % 12)
  }

  lemma LeapDayIsLeap(year: int)
    ensures LeapDay(year) == if IsLeap(year) then 1 else 0
  {
  }

  lemma NextInYear(year: int, m: int)
    requires 0 <= m < 11
    ensures FirstOf(year, m + 1) == FirstOf(year, m) + if m == 1 then 28 + LeapDay(year) else if m == 3 || m == 5 || m == 8 || m == 10 then 30 else 31
  {
    assert DAYS_BEFORE[m + 1] - DAYS_BEFORE[m] == if m == 1 then 28 else if m == 3 || m == 5 || m == 8 || m == 10 then 30 else 31;
  }

  lemma NextYear(year: int)
    ensures FirstOf(year + 1, 0) == FirstOf(year, 11) + 31
  {
    LeapYearCounted(year);
  }

  lemma NextFirst(month: int)
    ensures FirstOfMonth(month + 1) == FirstOfMonth(month) + DaysIn(month)
  {
    var y, m := 1970 + month / 12, month % 12;
    if m == 11 {
      assert (month + 1) / 12 == month / 12 + 1 && (month + 1) % 12 == 0;
      NextYear(y);
    } else {
      assert (month + 1) / 12 == month / 12 && (month + 1) % 12 == m + 1;
      NextInYear(y, m);
      LeapDayIsLeap(y);
    }
  }

  lemma NextStart(month: int)
    ensures MonthStart(month + 1) == MonthStart(month) + DaysIn(month)
  {
  }

  /** Counting month by month agrees with the reckoning by years, before 1970 as after. */
  lemma {:induction false} MonthStartIsFirst(month: int)
    ensures MonthStart(month) == FirstOfMonth(month)
    decreases if month < 0 then -month else month
  {
    if month > 0 {
      MonthStartIsFirst(month - 1);
      NextStart(month - 1);
      NextFirst(month - 1);
    } else if month < 0 {
      MonthStartIsFirst(month + 1);
      NextStart(month);
      NextFirst(month);
    } else {
      assert FirstOfMonth(0) == 0;
    }
  }

  /** The days of the week follow each other from a Thursday, 1970-01-01; 2000-01-01 is a Saturday. */
  lemma Weekdays(day: int)
    ensures Weekday(0) == 4 && FirstOf(2000, 0) == 10957 && Weekday(10957) == 6
    ensures Weekday(day + 1) == if Weekday(day) == 6 then 0 else Weekday(day) + 1
  {
  }
}
