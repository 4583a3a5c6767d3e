/**
  Python's `datetime.date`, as far as the application uses it: dates are
  compared as (year, month, day) tuples and subtracted through their
  proleptic Gregorian ordinal (`date.toordinal`), so that
  `(a - b).days == Ordinal(a) - Ordinal(b)`.
*/
module Calendar {

  datatype Date = Date(year: int, month: int, day: int)

  const MIN_YEAR := 1
  const MAX_YEAR := 9999

  predicate IsLeap(year: int)
  {
    year % 4 == 0 && (year % 100 != 0 || year % 400 == 0)
  }

  function DaysInYear(year: int): int
  {
    if IsLeap(year) then 366 else 365
  }

  function DaysInMonth(year: int, month: int): int
    requires 1 <= month <= 12
  {
    if month == 2 then (if IsLeap(year) then 29 else 28)
    else if month == 4 || month == 6 || month == 9 || month == 11 then 30
    else 31
  }

  /** A date Python can represent. */
  predicate ValidDate(d: Date)
  {
    MIN_YEAR <= d.year <= MAX_YEAR && 1 <= d.month <= 12 && 1 <= d.day <= DaysInMonth(d.year, d.month)
  }

  /** Days in the years before `year` (Python's `_days_before_year`). */
  function DaysBeforeYear(year: int): int
    requires year >= 1
  {
    var y := year - 1;
    y * 365 + y / 4 - y / 100 + y / 400
  }

  /** Days in the months of `year` before `month` (Python's `_days_before_month`). */
  function DaysBeforeMonth(year: int, month: int): int
    requires 1 <= month <= 12
  {
    var table := [0, 31, 59, 90, 120, 151, 181, 212, 243, 273, 304, 334];
    table[month - 1] + (if month > 2 && IsLeap(year) then 1 else 0)
  }

  /** `date.toordinal()`: 1 January of year 1 is day 1. */
  function Ordinal(d: Date): int
    requires ValidDate(d)
  {
    DaysBeforeYear(d.year) + DaysBeforeMonth(d.year, d.month) + d.day
  }

  /** `(a - b).days` */
  function DaysBetween(a: Date, b: Date): int
    requires ValidDate(a) && ValidDate(b)
  {
    Ordinal(a) - Ordinal(b)
  }

  /** `date._cmp`: -1, 0 or 1 after comparing the (year, month, day) tuples. */
  function Cmp(a: Date, b: Date): (c: int)
    ensures -1 <= c <= 1
    ensures c == 0 <==> a == b
  {
    if a.year != b.year then (if a.year < b.year then -1 else 1)
    else if a.month != b.month then (if a.month < b.month then -1 else 1)
    else if a.day != b.day then (if a.day < b.day then -1 else 1)
    else 0
  }

  /** `a < b` on dates. */
  predicate Lt(a: Date, b: Date) { Cmp(a, b) < 0 }

  /** `a >= b` on dates. */
  predicate Ge(a: Date, b: Date) { Cmp(a, b) >= 0 }

  lemma MonthStep(year: int, month: int)
    requires 1 <= month < 12
    ensures DaysBeforeMonth(year, month) + DaysInMonth(year, month) == DaysBeforeMonth(year, month + 1)
  {
  }

  lemma DaysBeforeMonthGrows(year: int, m1: int, m2: int)
    requires 1 <= m1 < m2 <= 12
    ensures DaysBeforeMonth(year, m1) + DaysInMonth(year, m1) <= DaysBeforeMonth(year, m2)
    decreases m2 - m1
  {
    MonthStep(year, m1);
    if m1 + 1 < m2 {
      DaysBeforeMonthGrows(year, m1 + 1, m2);
    }
  }

  lemma LastMonth(year: int)
    ensures DaysBeforeMonth(year, 12) + DaysInMonth(year, 12) == DaysInYear(year)
  {
  }

  lemma DivStep4(y: int)
    requires y >= 1
    ensures y / 4 - (y - 1) / 4 == if y % 4 == 0 then 1 else 0
  {
  }

  lemma DivStep100(y: int)
    requires y >= 1
    ensures y / 100 - (y - 1) / 100 == if y % 100 == 0 then 1 else 0
  {
  }

  lemma DivStep400(y: int)
    requires y >= 1
    ensures y / 400 - (y - 1) / 400 == if y % 400 == 0 then 1 else 0
  {
  }

  lemma DivisorsNest(y: int)
    ensures y % 400 == 0 ==> y % 100 == 0
    ensures y % 100 == 0 ==> y % 4 == 0
  {
    if y % 400 == 0 {
      var q := y / 400;
      assert y == 100 * (4 * q);
    }
    if y % 100 == 0 {
      var q := y / 100;
      assert y == 4 * (25 * q);
    }
  }

  /** Python's year table and its leap rule agree: one year more is one `DaysInYear` more. */
  lemma YearStep(year: int)
    requires year >= 1
    ensures DaysBeforeYear(year + 1) == DaysBeforeYear(year) + DaysInYear(year)
  {
    DivStep4(year);
    DivStep100(year);
    DivStep400(year);
    DivisorsNest(year);
    var y := year - 1;
    var d4, d100, d400 := year / 4 - y / 4, year / 100 - y / 100, year / 400 - y / 400;
    assert DaysBeforeYear(year + 1) - DaysBeforeYear(year) == 365 + d4 - d100 + d400;
  }

  lemma DaysBeforeYearGrows(y1: int, y2: int)
    requires 1 <= y1 < y2
    ensures DaysBeforeYear(y1) + DaysInYear(y1) <= DaysBeforeYear(y2)
    decreases y2 - y1
  {
    YearStep(y1);
    if y1 + 1 < y2 {
      DaysBeforeYearGrows(y1 + 1, y2);
      YearStep(y1 + 1);
    }
  }

  /** Within a year, a date's offset lies in [1, DaysInYear]. */
  lemma DayOfYearBounds(d: Date)
    requires ValidDate(d)
    ensures 1 <= DaysBeforeMonth(d.year, d.month) + d.day <= DaysInYear(d.year)
  {
    if d.month < 12 {
      DaysBeforeMonthGrows(d.year, d.month, 12);
    }
    LastMonth(d.year);
  }

  lemma OrdinalLess(a: Date, b: Date)
    requires ValidDate(a) && ValidDate(b)
    requires Cmp(a, b) < 0
    ensures Ordinal(a) < Ordinal(b)
  {
    if a.year < b.year {
      DayOfYearBounds(a);
      DayOfYearBounds(b);
      DaysBeforeYearGrows(a.year, b.year);
    } else if a.month < b.month {
      DaysBeforeMonthGrows(a.year, a.month, b.month);
    }
  }

  /** Comparing dates as tuples and comparing their ordinals give the same answer. */
  lemma {:induction false} CmpAgreesWithOrdinal(a: Date, b: Date)
    requires ValidDate(a) && ValidDate(b)
    ensures Cmp(a, b) < 0 <==> Ordinal(a) < Ordinal(b)
    ensures Cmp(a, b) == 0 <==> Ordinal(a) == Ordinal(b)
    ensures Cmp(a, b) > 0 <==> Ordinal(a) > Ordinal(b)
  {
    if Cmp(a, b) < 0 {
      OrdinalLess(a, b);
    } else if Cmp(a, b) > 0 {
      OrdinalLess(b, a);
    }
  }

  /** The day after `d`; past 31 December 9999 Python has no date (`OverflowError`). */
  function NextDay(d: Date): (r: Date)
    requires ValidDate(d)
    ensures Lt(d, r)
    ensures d != Date(MAX_YEAR, 12, 31) ==> ValidDate(r)
  {
    if d.day < DaysInMonth(d.year, d.month) then Date(d.year, d.month, d.day + 1)
    else if d.month < 12 then Date(d.year, d.month + 1, 1)
    else Date(d.year + 1, 1, 1)
  }

  /** `NextDay` is one ordinal further: `d + timedelta(days=1)`. */
  lemma {:induction false} NextDayOrdinal(d: Date)
    requires ValidDate(d) && d != Date(MAX_YEAR, 12, 31)
    ensures Ordinal(NextDay(d)) == Ordinal(d) + 1
  {
    if d.day < DaysInMonth(d.year, d.month) {
    } else if d.month < 12 {
      MonthStep(d.year, d.month);
    } else {
      LastMonth(d.year);
      YearStep(d.year);
    }
  }
}
