/** Local dates in the ISO (proleptic Gregorian) chronology, as Joda-Time's
    LocalDate represents them: a year, a month 1..12 and a day of month. */
module Calendar {

  datatype Date = Date(year: int, month: int, day: int)

  /** The Gregorian leap-year rule. Only whether a remainder is zero is tested, so
      Dafny's Euclidean `%` agrees with Java's truncating `%` for negative years. */
  predicate IsLeapYear(y: int)
  {
    y % 4 == 0 && (y % 100 != 0 || y % 400 == 0)
  }

  /** `dayOfMonth().getMaximumValue()`: the number of days in month `m` of year `y`. */
  function DaysInMonth(y: int, m: int): (n: int)
    requires 1 <= m <= 12
    ensures 28 <= n <= 31
    ensures n == 31 <==> m in {1, 3, 5, 7, 8, 10, 12}
    ensures n == 30 <==> m in {4, 6, 9, 11}
    ensures m == 2 ==> (n == 29 <==> IsLeapYear(y))
  {
    if m == 2 then (if IsLeapYear(y) then 29 else 28)
    else if m in {4, 6, 9, 11} then 30
    else 31
  }

  /** A date the LocalDate constructor accepts. */
  predicate Valid(d: Date)
  {
    1 <= d.month <= 12 && 1 <= d.day <= DaysInMonth(d.year, d.month)
  }

  /** Chronological order: `a.isBefore(b)`. */
  predicate Before(a: Date, b: Date)
  {
    a.year < b.year
    || (a.year == b.year && a.month < b.month)
    || (a.year == b.year && a.month == b.month && a.day < b.day)
  }

  predicate NotAfter(a: Date, b: Date)
  {
    a == b || Before(a, b)
  }

  /** The year and month that follow month `m` of year `y`. */
  function NextMonth(y: int, m: int): (r: (int, int))
    requires 1 <= m <= 12
    ensures 1 <= r.1 <= 12
    ensures m < 12 ==> r == (y, m + 1)
    ensures m == 12 ==> r == (y + 1, 1)
  {
    if m == 12 then (y + 1, 1) else (y, m + 1)
  }

  /** `d.plusMonths(1)`: the same day in the next month, clamped to that month's
      last day when it is shorter (January 31 becomes the end of February). */
  function PlusOneMonth(d: Date): (r: Date)
    requires Valid(d)
    ensures Valid(r)
    ensures (r.year, r.month) == NextMonth(d.year, d.month)
    ensures r.day == d.day || (r.day < d.day && r.day == DaysInMonth(r.year, r.month))
    ensures Before(d, r)
  {
    var (y, m) := NextMonth(d.year, d.month);
    var last := DaysInMonth(y, m);
    Date(y, m, if d.day <= last then d.day else last)
  }
}
