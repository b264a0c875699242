/** Period summaries: the date range a period token or a custom range selects,
    the search filter it contributes, the day count used for the average and
    the human-readable label. */
module Period {
  import opened Wrappers
  import opened Decimal
  import opened Calendar
  import opened Entity
  import opened Odoo

  /** How many days back a look-back token reaches; every other token, known
      or not, falls to the 30-day default of the switch. */
  function LookbackDays(periodType: PeriodType): int {
    if periodType == PeriodTypeDay then 1
    else if periodType == PeriodTypeWeek then 7
    else if periodType == PeriodTypeQuarter then 90
    else 30
  }

  /** The range a period summary covers at instant `now`: two custom dates
      as given; otherwise a calendar range from a midnight to the second
      before a midnight, or a look-back of 1 to 90 whole days ending now. */
  function ResolvePeriod(periodType: PeriodType, customStart: Option<Instant>, customEnd: Option<Instant>,
                         now: Instant): (r: DateRange)
    ensures customStart.Some? && customEnd.Some? ==> r == DateRange(customStart.value, customEnd.value)
    ensures !(customStart.Some? && customEnd.Some?) && (periodType == PeriodTypeMonthly || periodType == PeriodTypeYearly) ==>
              r.startDate % SecondsPerDay == 0 && (r.endDate + 1) % SecondsPerDay == 0
    ensures !(customStart.Some? && customEnd.Some?) && periodType != PeriodTypeMonthly && periodType != PeriodTypeYearly ==>
              && r.endDate == now
              && (r.endDate - r.startDate) % SecondsPerDay == 0
              && SecondsPerDay <= r.endDate - r.startDate <= 90 * SecondsPerDay
  {
    if customStart.Some? && customEnd.Some? then DateRange(customStart.value, customEnd.value)
    else if periodType == PeriodTypeMonthly then
      MonthAligned(now);
      DateRange(MonthStart(now), NextMonthStart(now) - 1)
    else if periodType == PeriodTypeYearly then
      YearAligned(now);
      DateRange(YearStart(now), NextYearStart(now) - 1)
    else
      LookbackAligned(periodType);
      DateRange(now - LookbackDays(periodType) * SecondsPerDay, now)
  }

  lemma MonthAligned(now: Instant)
    ensures MonthStart(now) % SecondsPerDay == 0 && NextMonthStart(now) % SecondsPerDay == 0
  {
    var c := CivilOf(now);
    MidnightIsWholeDays(Civil(c.year, c.month, 1));
    MidnightIsWholeDays(if c.month >= 12 then Civil(c.year + 1, 1, 1) else Civil(c.year, c.month + 1, 1));
  }

  lemma YearAligned(now: Instant)
    ensures YearStart(now) % SecondsPerDay == 0 && NextYearStart(now) % SecondsPerDay == 0
  {
    MidnightIsWholeDays(Civil(CivilOf(now).year, 1, 1));
    MidnightIsWholeDays(Civil(CivilOf(now).year + 1, 1, 1));
  }

  lemma LookbackAligned(periodType: PeriodType)
    ensures 1 <= LookbackDays(periodType) <= 90
    ensures (LookbackDays(periodType) * SecondsPerDay) % SecondsPerDay == 0
  {
  }

  lemma MidnightIsWholeDays(c: Civil)
    ensures InstantOf(c) % SecondsPerDay == 0
  {
    assert InstantOf(c) == DaysFromCivil(c) * SecondsPerDay;
  }

  /** Two custom dates are used as given, whatever the token. */
  lemma CustomRangeVerbatim(periodType: PeriodType, startDate: Instant, endDate: Instant, now: Instant)
    ensures ResolvePeriod(periodType, Some(startDate), Some(endDate), now) == DateRange(startDate, endDate)
  {
  }

  /** Without two custom dates the look-back tokens end now and reach back
      1, 7, 30 or 90 whole days. */
  lemma LookbackRanges(periodType: PeriodType, customStart: Option<Instant>, customEnd: Option<Instant>, now: Instant)
    requires !(customStart.Some? && customEnd.Some?)
    requires periodType in [PeriodTypeDay, PeriodTypeWeek, PeriodTypeMonth, PeriodTypeQuarter]
    ensures var r := ResolvePeriod(periodType, customStart, customEnd, now);
      && r.endDate == now
      && r.endDate - r.startDate == (if periodType == PeriodTypeDay then 1
                                     else if periodType == PeriodTypeWeek then 7
                                     else if periodType == PeriodTypeMonth then 30
                                     else 90) * SecondsPerDay
  {
    var days := LookbackDays(periodType);
    assert days == (if periodType == PeriodTypeDay then 1
                    else if periodType == PeriodTypeWeek then 7
                    else if periodType == PeriodTypeMonth then 30
                    else 90);
    assert ResolvePeriod(periodType, customStart, customEnd, now) == DateRange(now - days * SecondsPerDay, now);
  }

  /** Without two custom dates the calendar tokens run from the first instant
      of the current month or year to one second before the next one. */
  lemma CalendarRanges(customStart: Option<Instant>, customEnd: Option<Instant>, now: Instant)
    requires !(customStart.Some? && customEnd.Some?)
    ensures ResolvePeriod(PeriodTypeMonthly, customStart, customEnd, now)
            == DateRange(MonthStart(now), NextMonthStart(now) - 1)
    ensures ResolvePeriod(PeriodTypeYearly, customStart, customEnd, now)
            == DateRange(YearStart(now), NextYearStart(now) - 1)
  {
  }

  /** An unrecognised token resolves like "30D". */
  lemma UnknownTokenIsThirtyDays(periodType: PeriodType, customStart: Option<Instant>, customEnd: Option<Instant>, now: Instant)
    requires !IsPeriodType(periodType)
    ensures ResolvePeriod(periodType, customStart, customEnd, now)
            == ResolvePeriod(PeriodTypeMonth, customStart, customEnd, now)
  {
  }

  /** Posted invoices whose invoice date, compared as a date, lies in the range
      inclusive at both ends. */
  function PeriodCriteria(r: DateRange): Criteria {
    [Condition("state", Eq, "posted"),
     Condition("invoice_date", Ge, FormatDate(r.startDate)),
     Condition("invoice_date", Le, FormatDate(r.endDate))]
  }

  /** The filter compares dates only: two ranges whose ends fall on the same
      days select the same invoices. */
  lemma PeriodCriteriaByDay(r: DateRange, r': DateRange)
    requires DayOf(r.startDate) == DayOf(r'.startDate) && DayOf(r.endDate) == DayOf(r'.endDate)
    ensures PeriodCriteria(r) == PeriodCriteria(r')
    ensures PeriodCriteria(r)[1].value == FormatDate(DayOf(r.startDate) * SecondsPerDay)
    ensures PeriodCriteria(r)[2].value == FormatDate(DayOf(r.endDate) * SecondsPerDay)
  {
    MidnightDay(DayOf(r.startDate));
    MidnightDay(DayOf(r.endDate));
  }

  const NanosPerSecond: int := 1_000_000_000

  /** `endDate.Sub(startDate)` in nanoseconds, saturated to the int64 range
      of a Go `Duration`. */
  function SubNanos(r: DateRange): (d: int)
    ensures MinInt64 <= d <= MaxInt64
    ensures var n := (r.endDate - r.startDate) * NanosPerSecond;
      && (n > MaxInt64 ==> d == MaxInt64)
      && (n < MinInt64 ==> d == MinInt64)
      && (MinInt64 <= n <= MaxInt64 ==> d == n)
  {
    var d := (r.endDate - r.startDate) * NanosPerSecond;
    if d > MaxInt64 then MaxInt64 else if d < MinInt64 then MinInt64 else d
  }

  /** `Sub(...).Hours() / 24`, raised to 1 when below 1. */
  function DayCount(r: DateRange): (days: real)
    ensures days >= 1.0
    ensures SubNanos(r) as real >= 86400.0 * NanosPerSecond as real ==>
              days == SubNanos(r) as real / (86400.0 * NanosPerSecond as real)
  {
    var days := SubNanos(r) as real / (3600.0 * NanosPerSecond as real) / 24.0;
    if days < 1.0 then 1.0 else days
  }

  /** A range of at least one day and under about 292 years (the reach of a
      Duration) counts its exact length in days; shorter ranges count as one
      day, so a one-day look-back and an empty range average over one day. */
  lemma DayCountOfRange(r: DateRange)
    ensures r.endDate - r.startDate <= SecondsPerDay ==> DayCount(r) == 1.0
    ensures SecondsPerDay <= r.endDate - r.startDate && (r.endDate - r.startDate) * NanosPerSecond <= MaxInt64 ==>
              DayCount(r) == (r.endDate - r.startDate) as real / SecondsPerDay as real
  {
    var s := r.endDate - r.startDate;
    if s <= SecondsPerDay {
      assert SubNanos(r) <= 86400 * NanosPerSecond;
    }
  }

  /** The average per day: the total spread over the day count. */
  function AverageDaily(totalAmount: real, r: DateRange): (avg: real)
    ensures avg * DayCount(r) == totalAmount
  {
    totalAmount / DayCount(r)
  }

  /** The period label: fixed words for the look-back tokens, the month and
      year or the year of the end date for the calendar tokens, and otherwise
      "<start> to <end>" in the date layout. */
  function PeriodLabel(periodType: PeriodType, r: DateRange): string {
    if periodType == PeriodTypeDay then "Last 24 Hours"
    else if periodType == PeriodTypeWeek then "Last 7 Days"
    else if periodType == PeriodTypeMonth then "Last 30 Days"
    else if periodType == PeriodTypeQuarter then "Last 90 Days"
    else if periodType == PeriodTypeMonthly then FormatMonthYear(r.endDate)
    else if periodType == PeriodTypeYearly then FormatYear(r.endDate)
    else FormatDate(r.startDate) + " to " + FormatDate(r.endDate)
  }

  /** The label follows the token, not the range: a custom range requested
      with a look-back token is still labelled with that token's words. */
  lemma LookbackLabelsIgnoreRange(periodType: PeriodType, r: DateRange, r': DateRange)
    requires periodType == PeriodTypeDay || periodType == PeriodTypeWeek
             || periodType == PeriodTypeMonth || periodType == PeriodTypeQuarter
    ensures PeriodLabel(periodType, r) == PeriodLabel(periodType, r')
  {
  }

  /** The calendar tokens are labelled by the end of the range alone. */
  lemma CalendarLabelsFollowEnd(periodType: PeriodType, r: DateRange, r': DateRange)
    requires periodType == PeriodTypeMonthly || periodType == PeriodTypeYearly
    requires r.endDate == r'.endDate
    ensures PeriodLabel(periodType, r) == PeriodLabel(periodType, r')
  {
  }

  /** The words of each known token's label. */
  lemma LabelWords(r: DateRange)
    ensures PeriodLabel(PeriodTypeDay, r) == "Last 24 Hours"
    ensures PeriodLabel(PeriodTypeWeek, r) == "Last 7 Days"
    ensures PeriodLabel(PeriodTypeMonth, r) == "Last 30 Days"
    ensures PeriodLabel(PeriodTypeQuarter, r) == "Last 90 Days"
    ensures PeriodLabel(PeriodTypeMonthly, r) == FormatMonthYear(r.endDate)
    ensures PeriodLabel(PeriodTypeYearly, r) == FormatYear(r.endDate)
  {
  }

  /** Only an unrecognised token names the range itself. */
  lemma UnknownTokenLabel(periodType: PeriodType, r: DateRange)
    requires !IsPeriodType(periodType)
    ensures PeriodLabel(periodType, r) == FormatDate(r.startDate) + " to " + FormatDate(r.endDate)
  {
  }
}
