/**
 * `LLC.get_filing_status`: a traffic light for how an LLC's last filing date
 * sits against the next April 15 deadline. The clock read by the source
 * (`datetime.date.today()`) is the parameter `today`.
 */
module Filing {
  import opened Wrappers
  import opened Dates

  datatype FilingStatus = Green | Yellow | Red | Unknown

  /** `datetime.date(current_year + 1, 4, 15)` raises when the year passes MaxYear. */
  datatype FilingError = YearOutOfRange

  /** The status order in which a later filing is never "greener". */
  function Severity(s: FilingStatus): nat
    requires s != Unknown
  {
    match s
    case Green => 0
    case Yellow => 1
    case Red => 2
  }

  function AprilFifteenth(year: int): Date {
    Date(year, 4, 15)
  }

  /** The deadline the source computes: this year's April 15 unless today is past it. */
  function NextDeadline(today: Date): (deadline: Date)
    ensures deadline.month == 4 && deadline.day == 15
    ensures deadline.year == today.year || deadline.year == today.year + 1
    ensures NotAfter(today, deadline)
  {
    if NotAfter(today, AprilFifteenth(today.year)) then AprilFifteenth(today.year)
    else AprilFifteenth(today.year + 1)
  }

  /** The start of the yellow window: two calendar months before the deadline. */
  function YellowThreshold(deadline: Date): Date
    requires deadline.month == 4 && MinYear <= deadline.year
  {
    MinusMonths(deadline, 2)
  }

  /** Whether the deadline can be built as a `datetime.date` at all. */
  predicate DeadlineInRange(today: Date) {
    NextDeadline(today).year <= MaxYear
  }

  /** `LLC.get_filing_status` with the clock passed in; the clock always gives a real date. */
  function GetFilingStatus(lastFilingDate: Option<Date>, today: Date): (r: Result<FilingStatus, FilingError>)
    requires IsValid(today)
    ensures lastFilingDate.None? ==> r == Ok(Unknown)
    ensures lastFilingDate.Some? ==> (r.Err? <==> !DeadlineInRange(today))
    ensures r == Ok(Unknown) ==> lastFilingDate.None?
  {
    match lastFilingDate
    case None => Ok(Unknown)
    case Some(last) =>
      var deadline := NextDeadline(today);
      if deadline.year > MaxYear then Err(YearOutOfRange)
      else
        var threshold := YellowThreshold(deadline);
        if NotAfter(deadline, last) then Ok(Red)
        else if NotAfter(threshold, last) then Ok(Yellow)
        else Ok(Green)
  }

  /** The only dates whose deadline cannot be built are those after April 15 of the last year. */
  lemma DeadlineOutOfRangeOnlyAtEnd(today: Date)
    requires IsValid(today)
    ensures !DeadlineInRange(today) <==> today.year == MaxYear && Before(AprilFifteenth(MaxYear), today)
  {
  }

  /** The deadline is the earliest April 15 on or after today. */
  lemma NextDeadlineIsEarliest(today: Date, year: int)
    requires NotAfter(today, AprilFifteenth(year))
    ensures NotAfter(NextDeadline(today), AprilFifteenth(year))
  {
  }

  /** Two months before any April 15 is February 15 of the same year: the day never clamps. */
  lemma YellowThresholdIsFebruaryFifteenth(today: Date)
    requires IsValid(today)
    ensures YellowThreshold(NextDeadline(today)) == Date(NextDeadline(today).year, 2, 15)
    ensures Before(YellowThreshold(NextDeadline(today)), NextDeadline(today))
  {
    var deadline := NextDeadline(today);
    var t := YellowThreshold(deadline);
    assert MonthIndex(t) == deadline.year * 12 + 1;
    assert t.year == deadline.year && t.month == 2;
  }

  /** With a filing date present, each colour is returned exactly on its own band of dates. */
  lemma Classification(last: Date, today: Date)
    requires IsValid(today) && DeadlineInRange(today)
    ensures var deadline := NextDeadline(today);
            var status := GetFilingStatus(Some(last), today);
            && (status == Ok(Red) <==> NotAfter(deadline, last))
            && (status == Ok(Yellow) <==> NotAfter(Date(deadline.year, 2, 15), last) && Before(last, deadline))
            && (status == Ok(Green) <==> Before(last, Date(deadline.year, 2, 15)))
  {
    YellowThresholdIsFebruaryFifteenth(today);
  }

  /** For a fixed today, a later filing date never yields a greener status. */
  lemma StatusIsMonotone(earlier: Date, later: Date, today: Date)
    requires NotAfter(earlier, later)
    requires IsValid(today) && DeadlineInRange(today)
    ensures GetFilingStatus(Some(earlier), today).Ok?
    ensures GetFilingStatus(Some(later), today).Ok?
    ensures Severity(GetFilingStatus(Some(earlier), today).value) <= Severity(GetFilingStatus(Some(later), today).value)
  {
    Classification(earlier, today);
    Classification(later, today);
    var deadline := NextDeadline(today);
    BeforeIsStrictTotalOrder(Date(deadline.year, 2, 15), earlier, later);
    BeforeIsStrictTotalOrder(deadline, earlier, later);
  }

  /** Worked dates before April 15: today 2024-03-01, deadline 2024-04-15, threshold 2024-02-15. */
  lemma ExamplesBeforeDeadline()
    ensures GetFilingStatus(Some(Date(2024, 1, 1)), Date(2024, 3, 1)) == Ok(Green)
    ensures GetFilingStatus(Some(Date(2024, 3, 1)), Date(2024, 3, 1)) == Ok(Yellow)
    ensures GetFilingStatus(Some(Date(2024, 4, 15)), Date(2024, 3, 1)) == Ok(Red)
    ensures GetFilingStatus(Some(Date(2024, 4, 16)), Date(2024, 3, 1)) == Ok(Red)
  {
    var today := Date(2024, 3, 1);
    Classification(Date(2024, 1, 1), today);
    Classification(Date(2024, 3, 1), today);
    Classification(Date(2024, 4, 15), today);
    Classification(Date(2024, 4, 16), today);
  }

  /** Worked dates after April 15: today 2024-05-01 looks ahead to 2025-04-15. */
  lemma ExamplesAfterDeadline()
    ensures GetFilingStatus(Some(Date(2024, 6, 1)), Date(2024, 5, 1)) == Ok(Green)
    ensures GetFilingStatus(Some(Date(2025, 3, 1)), Date(2024, 5, 1)) == Ok(Yellow)
    ensures GetFilingStatus(Some(Date(2024, 6, 1)), Date(MaxYear, 5, 1)) == Err(YearOutOfRange)
  {
    var today := Date(2024, 5, 1);
    Classification(Date(2024, 6, 1), today);
    Classification(Date(2025, 3, 1), today);
  }
}
