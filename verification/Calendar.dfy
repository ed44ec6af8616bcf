/** Dates of the proleptic Gregorian calendar, as Python's `datetime.date` counts them. */
module Calendar {

  datatype Date = Date(year: int, month: int, day: int)

  predicate Leap(year: int) {
    year % 4 == 0 && (year % 100 != 0 || year % 400 == 0)
  }

  function DaysIn(year: int, month: int): int {
    if month == 2 then (if Leap(year) then 29 else 28)
    else if month in {4, 6, 9, 11} then 30
    else 31
  }

  predicate ValidDate(d: Date) {
    1 <= d.month <= 12 && 1 <= d.day <= DaysIn(d.year, d.month)
  }

  predicate Leq(a: Date, b: Date) {
    a.year < b.year || (a.year == b.year && (a.month < b.month || (a.month == b.month && a.day <= b.day)))
  }

  function DayAfter(d: Date): Date {
    if d.day < DaysIn(d.year, d.month) then d.(day := d.day + 1)
    else if d.month < 12 then Date(d.year, d.month + 1, 1)
    else Date(d.year + 1, 1, 1)
  }

  function DayBefore(d: Date): Date {
    if d.day > 1 then d.(day := d.day - 1)
    else if d.month > 1 then Date(d.year, d.month - 1, DaysIn(d.year, d.month - 1))
    else Date(d.year - 1, 12, 31)
  }

  function AddDays(d: Date, n: nat): Date
    decreases n
  {
    if n == 0 then d else AddDays(DayAfter(d), n - 1)
  }

  // ---------------------------------------------------------------- day numbers

  function DaysBeforeYear(year: int): int {
    var y := year - 1;
    365 * y + y / 4 - y / 100 + y / 400
  }

  function DaysBeforeMonth(year: int, month: int): int {
    if month <= 1 then 0 else DaysBeforeMonth(year, month - 1) + DaysIn(year, month - 1)
  }

  /** The day number: consecutive days have consecutive numbers. */
  function Ordinal(d: Date): int {
    DaysBeforeYear(d.year) + DaysBeforeMonth(d.year, d.month) + d.day
  }

  lemma YearStep(year: int)
    ensures DaysBeforeYear(year + 1) == DaysBeforeYear(year) + (if Leap(year) then 366 else 365)
  {
    DivStep(year, 4);
    DivStep(year, 100);
    DivStep(year, 400);
    CenturiesAreMultiples(year);
    assert year + 1 - 1 == year;
  }

  lemma CenturiesAreMultiples(year: int)
    ensures year % 100 == 0 ==> year % 4 == 0
    ensures year % 400 == 0 ==> year % 100 == 0
  {
    var q, r := year / 100, year / 400;
    assert year % 100 == 0 ==> year == 4 * (25 * q);
    assert year % 400 == 0 ==> year == 100 * (4 * r);
  }

  lemma DivStep(year: int, k: int)
    requires k in {4, 100, 400}
    ensures year / k == (year - 1) / k + (if year % k == 0 then 1 else 0)
  {
  }

  lemma MonthsMakeYear(year: int)
    ensures DaysBeforeMonth(year, 12) + 31 == (if Leap(year) then 366 else 365)
  {
    assert DaysBeforeMonth(year, 3) == DaysBeforeMonth(year, 2) + DaysIn(year, 2) == 31 + DaysIn(year, 2);
    assert DaysBeforeMonth(year, 5) == DaysBeforeMonth(year, 4) + 30 == DaysBeforeMonth(year, 3) + 61;
    assert DaysBeforeMonth(year, 7) == DaysBeforeMonth(year, 6) + 30 == DaysBeforeMonth(year, 5) + 61;
    assert DaysBeforeMonth(year, 9) == DaysBeforeMonth(year, 8) + 31 == DaysBeforeMonth(year, 7) + 62;
    assert DaysBeforeMonth(year, 11) == DaysBeforeMonth(year, 10) + 31 == DaysBeforeMonth(year, 9) + 61;
    assert DaysBeforeMonth(year, 12) == DaysBeforeMonth(year, 11) + 30;
  }

  lemma DayAfterMeans(d: Date)
    requires ValidDate(d)
    ensures ValidDate(DayAfter(d)) && Ordinal(DayAfter(d)) == Ordinal(d) + 1
    ensures DayBefore(DayAfter(d)) == d
  {
    hide DaysBeforeYear;
    YearStep(d.year);
    MonthsMakeYear(d.year);
  }

  lemma DayBeforeMeans(d: Date)
    requires ValidDate(d)
    ensures ValidDate(DayBefore(d)) && Ordinal(DayBefore(d)) == Ordinal(d) - 1
    ensures DayAfter(DayBefore(d)) == d
  {
    hide DaysBeforeYear;
    YearStep(d.year - 1);
    MonthsMakeYear(d.year - 1);
  }

  lemma {:induction false} AddDaysMeans(d: Date, n: nat)
    requires ValidDate(d)
    ensures ValidDate(AddDays(d, n)) && Ordinal(AddDays(d, n)) == Ordinal(d) + n
    decreases n
  {
    if n > 0 {
      DayAfterMeans(d);
      AddDaysMeans(DayAfter(d), n - 1);
    }
  }

  lemma {:induction false} YearsGrow(a: int, b: int)
    requires a <= b
    ensures DaysBeforeYear(a) <= DaysBeforeYear(b)
    decreases b - a
  {
    if a < b {
      YearStep(b - 1);
      YearsGrow(a, b - 1);
    }
  }

  lemma {:induction false} MonthsGrow(year: int, a: int, b: int)
    requires 1 <= a < b <= 12
    ensures DaysBeforeMonth(year, a) + DaysIn(year, a) <= DaysBeforeMonth(year, b)
    decreases b - a
  {
    if a + 1 < b {
      MonthsGrow(year, a, b - 1);
    }
  }

  lemma InsideYear(d: Date)
    requires ValidDate(d)
    ensures DaysBeforeYear(d.year) < Ordinal(d) <= DaysBeforeYear(d.year + 1)
  {
    YearStep(d.year);
    MonthsMakeYear(d.year);
    MonthNonNegative(d.year, d.month);
    if d.month < 12 {
      MonthsGrow(d.year, d.month, 12);
    }
  }

  lemma MonthNonNegative(year: int, month: int)
    ensures DaysBeforeMonth(year, month) >= 0
  {
  }

  /** The calendar order is the order of day numbers. */
  lemma OrderIsOrdinal(a: Date, b: Date)
    requires ValidDate(a) && ValidDate(b)
    ensures Leq(a, b) <==> Ordinal(a) <= Ordinal(b)
    ensures a == b <==> Ordinal(a) == Ordinal(b)
  {
    if a != b {
      if Leq(a, b) {
        Earlier(a, b);
      } else {
        Earlier(b, a);
      }
    }
  }

  lemma Earlier(a: Date, b: Date)
    requires ValidDate(a) && ValidDate(b) && Leq(a, b) && a != b
    ensures Ordinal(a) < Ordinal(b)
  {
    if a.year < b.year {
      InsideYear(a);
      InsideYear(b);
      YearsGrow(a.year + 1, b.year);
    } else if a.month < b.month {
      MonthsGrow(a.year, a.month, b.month);
    }
  }
}
