/** The period sales endpoint. Its service calls a repository operation that
    is not part of this model, so the handler takes the service's answer as a
    function of the arguments it is called with. */
module SaleHandler {
  import opened Wrappers
  import opened Calendar
  import opened Entity
  import opened Http
  import opened PeriodRequest

  /** GET of a period sales summary: the same validation as the invoice
      endpoint, then the service's answer. */
  function GetPeriodSalesSummary<T>(service: (PeriodType, Option<Instant>, Option<Instant>) -> Result<T>,
                                    periodRaw: string, startRaw: string, endRaw: string): (reply: Reply<T>)
  {
    match ValidatePeriodQuery(periodRaw, startRaw, endRaw)
    case Reject(message) => Reply(StatusBadRequest, ErrorBody(message))
    case Proceed(periodType, startDate, endDate) => Respond(service(periodType, startDate, endDate))
  }

  /** The period sales endpoint answers 400 with the validation's message
      exactly when the query is rejected. On an accepted query a service
      error gets 500 with `{"error": message}`, and a result gets 200 with
      that result. */
  lemma PeriodSalesStatus<T>(service: (PeriodType, Option<Instant>, Option<Instant>) -> Result<T>,
                             periodRaw: string, startRaw: string, endRaw: string)
    ensures var q := ValidatePeriodQuery(periodRaw, startRaw, endRaw);
      var reply := GetPeriodSalesSummary(service, periodRaw, startRaw, endRaw);
      && (reply.status == StatusBadRequest <==> q.Reject?)
      && (q.Reject? ==> reply.body == ErrorBody(q.message))
      && (q.Proceed? ==>
            var answer := service(q.periodType, q.startDate, q.endDate);
            && (answer.Success? ==> reply == Reply(StatusOK, Payload(answer.value)))
            && (answer.Failure? ==> reply == Reply(StatusInternalServerError, ErrorBody(answer.error))))
  {
  }
}
