/**
 * Calendar dates as Python's `datetime.date` has them: a year from 1 to 9999,
 * a month and a day that exists in that month, compared field by field.
 * `dateutil.relativedelta(months = n)` subtraction is modelled by MinusMonths.
 */
module Dates {

  const MinYear := 1
  const MaxYear := 9999

  datatype Date = Date(year: int, month: int, day: int)

  predicate IsLeapYear(year: int) {
    year % 4 == 0 && (year % 100 != 0 || year % 400 == 0)
  }

  /** The length of a month in the proleptic Gregorian calendar. */
  function DaysInMonth(year: int, month: int): (n: int)
    requires 1 <= month <= 12
    ensures 28 <= n <= 31
    ensures n == 31 <==> month in {1, 3, 5, 7, 8, 10, 12}
    ensures n == 29 <==> month == 2 && IsLeapYear(year)
  {
    if month == 2 then (if IsLeapYear(year) then 29 else 28)
    else if month == 4 || month == 6 || month == 9 || month == 11 then 30
    else 31
  }

  /** The dates that `datetime.date(year, month, day)` accepts. */
  predicate IsValid(d: Date) {
    MinYear <= d.year <= MaxYear && 1 <= d.month <= 12 && 1 <= d.day <= DaysInMonth(d.year, d.month)
  }

  /** Python's `a < b` on dates: year first, then month, then day. */
  predicate Before(a: Date, b: Date) {
    a.year < b.year
    || (a.year == b.year && a.month < b.month)
    || (a.year == b.year && a.month == b.month && a.day < b.day)
  }

  /** Python's `a <= b` on dates. */
  predicate NotAfter(a: Date, b: Date) {
    Before(a, b) || a == b
  }

  lemma BeforeIsStrictTotalOrder(a: Date, b: Date, c: Date)
    ensures !Before(a, a)
    ensures Before(a, b) && Before(b, c) ==> Before(a, c)
    ensures a != b ==> (Before(a, b) <==> !Before(b, a))
  {
  }

  /** The month index that relativedelta arithmetic works on: twelve per year. */
  function MonthIndex(d: Date): int {
    d.year * 12 + (d.month - 1)
  }

  /**
   * `d - relativedelta(months = n)`: move back n calendar months and, when the
   * day does not exist in the month reached, use that month's last day.
   * A result before year 1 is refused by `date.replace`; callers stay above it.
   */
  function MinusMonths(d: Date, n: nat): (r: Date)
    requires 1 <= d.month <= 12
    requires MonthIndex(d) - n >= MinYear * 12
    ensures 1 <= r.month <= 12 && MinYear <= r.year
    ensures MonthIndex(r) == MonthIndex(d) - n
    ensures 1 <= d.day ==> 1 <= r.day <= DaysInMonth(r.year, r.month)
    ensures d.day <= DaysInMonth(r.year, r.month) ==> r.day == d.day
    ensures d.day > DaysInMonth(r.year, r.month) ==> r.day == DaysInMonth(r.year, r.month)
  {
    var index := MonthIndex(d) - n;
    var year := index / 12;
    var month := index % 12 + 1;
    var last := DaysInMonth(year, month);
    Date(year, month, if d.day <= last then d.day else last)
  }
}
