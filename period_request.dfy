/** The validation both period-summary handlers apply to their query: the
    token with its default, the optional custom dates, the both-or-neither
    rule and the token check. */
module PeriodRequest {
  import opened Wrappers
  import opened Calendar
  import opened Entity
  import opened Http

  const BothDatesRequired := "Both start_date and end_date must be provided for custom date range"
  const InvalidPeriodType := "Invalid period_type. Must be one of: 1D, 7D, 30D, 90D, MONTHLY, YEARLY"

  datatype PeriodQuery =
    | Proceed(periodType: PeriodType, startDate: Option<Instant>, endDate: Option<Instant>)
    | Reject(message: string)

  /** A custom date: absent when the parameter is empty or not a date in the
      "2006-01-02" layout; otherwise the midnight of the date the parameter
      spells, which formats back to the parameter. */
  function CustomDate(raw: string): (d: Option<Instant>)
    ensures d.Some? <==> ParseCivil(raw).Some?
    ensures d.Some? ==> d == ParseDate(raw) && CivilOf(d.value) == ParseCivil(raw).value
    ensures d.Some? ==> d.value % SecondsPerDay == 0 && FormatDate(d.value) == raw
  {
    if raw != "" then ParseDate(raw) else None
  }

  /** The decision on the raw `period_type`, `start_date` and `end_date`. */
  function ValidatePeriodQuery(periodRaw: string, startRaw: string, endRaw: string): (q: PeriodQuery)
    ensures var t, s, e := Query(periodRaw, PeriodTypeMonth), CustomDate(startRaw), CustomDate(endRaw);
      && (s.Some? != e.Some? ==> q == Reject(BothDatesRequired))
      && (s.None? && e.None? && !IsPeriodType(t) ==> q == Reject(InvalidPeriodType))
      && (q.Proceed? <==> s.Some? == e.Some? && (s.Some? || IsPeriodType(t)))
      && (q.Proceed? ==> q == Proceed(t, s, e))
  {
    var periodType := Query(periodRaw, PeriodTypeMonth);
    var startDate := CustomDate(startRaw);
    var endDate := CustomDate(endRaw);
    if (startDate.Some? && endDate.None?) || (startDate.None? && endDate.Some?) then
      Reject(BothDatesRequired)
    else if !IsPeriodType(periodType) && (startDate.None? || endDate.None?) then
      Reject(InvalidPeriodType)
    else
      Proceed(periodType, startDate, endDate)
  }

  /** With no parameters at all the request proceeds as a 30-day look-back. */
  lemma EmptyQueryIsThirtyDays()
    ensures ValidatePeriodQuery("", "", "") == Proceed(PeriodTypeMonth, None, None)
  {
  }

  /** An unparseable date counts as a missing one. */
  lemma UnparseableDateIsMissing(periodRaw: string, startRaw: string, endRaw: string)
    requires ParseCivil(startRaw).None?
    ensures ValidatePeriodQuery(periodRaw, startRaw, endRaw) == ValidatePeriodQuery(periodRaw, "", endRaw)
  {
  }

  /** The reply to a request the validation rejects: 400 with its message. */
  function RejectReply<T>(q: PeriodQuery): (reply: Reply<T>)
    requires q.Reject?
    ensures reply.status == StatusBadRequest && reply.body == ErrorBody(q.message)
  {
    Reply(StatusBadRequest, ErrorBody(q.message))
  }
}
