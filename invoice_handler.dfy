/** The invoice endpoints: query parameters in, the repository called through
    the pass-through service, and the reply out. */
module InvoiceHandler {
  import opened Wrappers
  import opened Calendar
  import opened Entity
  import opened Odoo
  import opened Pagination
  import opened Period
  import opened InvoiceRepository
  import opened Http
  import opened PeriodRequest

  /** Whatever the query, the page the repository serves is a valid window:
      a missing page gives the first page of at most 500 invoices. */
  lemma DefaultPageIsFirst(pageSizeRaw: string)
    ensures var pq := PageQuery("", pageSizeRaw);
      var w := Paginate(pq.0, pq.1);
      w.page == 1 && w.offset == 0 && 1 <= w.pageSize <= MaxPageSize
  {
  }

  /** The reply to a repository outcome. A returned error is answered by the
      handler as a JSON 500. A nil dereference is a panic instead: the
      `recover` middleware turns it into an error, and the framework's
      default error handler, which the app does not replace, answers it
      with a 500 carrying the panic's text as plain text. */
  function Answer<T>(res: Result<T>): (reply: Reply<T>)
    ensures reply.status == StatusOK <==> res.Success?
    ensures res.Success? ==> reply.body == Payload(res.value)
    ensures res.Failure? && res.error != NilDereference ==> reply == Reply(StatusInternalServerError, ErrorBody(res.error))
    ensures res.Failure? && res.error == NilDereference ==> reply == Reply(StatusInternalServerError, TextBody(NilDereference))
  {
    if res.Failure? && res.error == NilDereference then Reply(StatusInternalServerError, TextBody(res.error))
    else Respond(res)
  }

  /** The errors the repository returns all start with "failed to", so none
      of them is mistaken for the panic's text. */
  lemma ReturnedErrorIsNotPanic(e: string)
    ensures "failed to get total count: " + e != NilDereference
    ensures "failed to search invoices: " + e != NilDereference
  {
    assert ("failed to get total count: " + e)[0] == 'f' && ("failed to search invoices: " + e)[0] == 'f';
    assert NilDereference[0] == RuntimeErrorPrefix[0] == 'r';
  }

  /** GET of a page of invoices. */
  method GetAllInvoices(src: InvoiceSource, pageRaw: string, pageSizeRaw: string)
    returns (reply: Reply<InvoicePagination>, calls: seq<Call>)
    ensures var pq := PageQuery(pageRaw, pageSizeRaw);
      var w := Paginate(pq.0, pq.1);
      && 1 <= |calls| && calls[0] == Count(InvoiceReportModel, NotCancelled())
      && (reply.status == StatusOK <==>
            src.count(NotCancelled()).Success?
            && src.searchRead(NotCancelled(), Some(w.pageSize), Some(w.offset), []).Success?)
      && (reply.status != StatusOK ==>
            reply.status == StatusInternalServerError
            && reply.body == ErrorBody(
                 if src.count(NotCancelled()).Failure? then "failed to get total count: " + src.count(NotCancelled()).error
                 else "failed to search invoices: " + src.searchRead(NotCancelled(), Some(w.pageSize), Some(w.offset), []).error))
      && (reply.status == StatusOK ==>
            && reply.body.Payload?
            && reply.body.value.page == w.page && reply.body.value.pageSize == w.pageSize
            && |reply.body.value.items| == |src.searchRead(NotCancelled(), Some(w.pageSize), Some(w.offset), []).value|)
  {
    var pq := PageQuery(pageRaw, pageSizeRaw);
    var res;
    res, calls := InvoiceRepository.GetAllInvoices(src, pq.0, pq.1);
    reply := Respond(res);
  }

  /** GET of a page of the daily summary. */
  method GetDailyInvoiceSummary(src: InvoiceSource, pageRaw: string, pageSizeRaw: string)
    returns (reply: Reply<InvoiceSummaryResponse>, calls: seq<Call>)
    ensures var pq := PageQuery(pageRaw, pageSizeRaw);
      var w := Paginate(pq.0, pq.1);
      && (src.count(Posted()).Failure? ==> calls == PageCalls(Posted(), w)[..1])
      && (src.count(Posted()).Success? ==> calls == PageCalls(Posted(), w))
      && (reply.status == StatusOK <==>
            && src.count(Posted()).Success?
            && src.searchRead(Posted(), Some(w.pageSize), Some(w.offset), []).Success?
            && DailySummary.AllDated(src.searchRead(Posted(), Some(w.pageSize), Some(w.offset), []).value))
      && (reply.status != StatusOK ==>
            var search := src.searchRead(Posted(), Some(w.pageSize), Some(w.offset), []);
            && reply.status == StatusInternalServerError
            && reply.body ==
                 if src.count(Posted()).Failure? then ErrorBody("failed to get total count: " + src.count(Posted()).error)
                 else if search.Failure? then ErrorBody("failed to search invoices: " + search.error)
                 else TextBody(NilDereference))
  {
    var pq := PageQuery(pageRaw, pageSizeRaw);
    var res;
    res, calls := InvoiceRepository.GetDailyInvoiceSummary(src, pq.0, pq.1);
    var w := Paginate(pq.0, pq.1);
    var counted, searched := src.count(Posted()), src.searchRead(Posted(), Some(w.pageSize), Some(w.offset), []);
    if counted.Failure? {
      ReturnedErrorIsNotPanic(counted.error);
    } else if searched.Failure? {
      ReturnedErrorIsNotPanic(searched.error);
    }
    reply := Answer(res);
  }

  /** How a summary that follows one search is answered: 200 exactly when
      the search succeeded with dated rows, a JSON 500 when the search failed
      and the plain-text panic reply when a row has no date. */
  lemma AnswerAfterSearch<T>(res: Result<T>, search: Result<seq<InvoiceReport>>)
    requires search.Failure? ==> res == Failure("failed to search invoices: " + search.error)
    requires search.Success? ==> (res.Success? <==> DailySummary.AllDated(search.value))
    requires search.Success? && res.Failure? ==> res.error == NilDereference
    ensures Answer(res).status == StatusOK <==> search.Success? && DailySummary.AllDated(search.value)
    ensures Answer(res).status != StatusOK ==>
              Answer(res).status == StatusInternalServerError
              && Answer(res).body == if search.Failure? then ErrorBody("failed to search invoices: " + search.error)
                                     else TextBody(NilDereference)
    ensures Answer(res).status == StatusOK ==> res.Success? && Answer(res).body == Payload(res.value)
  {
    if search.Failure? {
      ReturnedErrorIsNotPanic(search.error);
    }
  }

  /** An accepted period request: the repository runs on the query's token
      and dates, and its error, if any, is answered 500. */
  method AnswerPeriod(src: InvoiceSource, now: Instant, periodType: PeriodType,
                      startDate: Option<Instant>, endDate: Option<Instant>)
    returns (reply: Reply<PeriodInvoiceSummaryResponse>, calls: seq<Call>)
    ensures var r := ResolvePeriod(periodType, startDate, endDate, now);
      var search := src.searchRead(PeriodCriteria(r), None, None, PeriodFields);
      && calls == [SearchRead(InvoiceReportModel, PeriodCriteria(r), None, None, PeriodFields)]
      && (reply.status == StatusOK <==> search.Success? && DailySummary.AllDated(search.value))
      && (reply.status != StatusOK ==>
            reply.status == StatusInternalServerError
            && reply.body == if search.Failure? then ErrorBody("failed to search invoices: " + search.error)
                             else TextBody(NilDereference))
      && (reply.status == StatusOK ==>
            var rows := search.value;
            && reply.body.Payload?
            && reply.body.value.period == PeriodLabel(periodType, r)
            && reply.body.value.dateRange == r && reply.body.value.periodType == periodType
            && DailySummary.IsDailySummary(reply.body.value.items, rows)
            && reply.body.value.totalAmount == DailySummary.Amounts(rows)
            && reply.body.value.invoiceCount == |rows|
            && reply.body.value.averageDaily == AverageDaily(reply.body.value.totalAmount, r))
  {
    var res;
    res, calls := InvoiceRepository.GetPeriodInvoiceSummary(src, now, periodType, startDate, endDate);
    var r := ResolvePeriod(periodType, startDate, endDate, now);
    AnswerAfterSearch(res, src.searchRead(PeriodCriteria(r), None, None, PeriodFields));
    reply := Answer(res);
  }

  /** GET of a period summary at instant `now`: a rejected query is answered
      400 without calling the ERP; an accepted one as `AnswerPeriod` says. */
  method GetPeriodInvoiceSummary(src: InvoiceSource, now: Instant,
                                 periodRaw: string, startRaw: string, endRaw: string)
    returns (reply: Reply<PeriodInvoiceSummaryResponse>, calls: seq<Call>)
    ensures var q := ValidatePeriodQuery(periodRaw, startRaw, endRaw);
      && (q.Reject? ==> reply == Reply(StatusBadRequest, ErrorBody(q.message)) && calls == [])
      && (q.Proceed? ==>
            var r := ResolvePeriod(q.periodType, q.startDate, q.endDate, now);
            var search := src.searchRead(PeriodCriteria(r), None, None, PeriodFields);
            && calls == [SearchRead(InvoiceReportModel, PeriodCriteria(r), None, None, PeriodFields)]
            && (reply.status == StatusOK <==> search.Success? && DailySummary.AllDated(search.value))
            && (reply.status != StatusOK ==>
                  reply.status == StatusInternalServerError
                  && reply.body == if search.Failure? then ErrorBody("failed to search invoices: " + search.error)
                                   else TextBody(NilDereference))
            && (reply.status == StatusOK ==>
                  var rows := search.value;
                  && reply.body.Payload?
                  && reply.body.value.period == PeriodLabel(q.periodType, r)
                  && reply.body.value.dateRange == r && reply.body.value.periodType == q.periodType
                  && DailySummary.IsDailySummary(reply.body.value.items, rows)
                  && reply.body.value.totalAmount == DailySummary.Amounts(rows)
                  && reply.body.value.invoiceCount == |rows|
                  && reply.body.value.averageDaily == AverageDaily(reply.body.value.totalAmount, r)))
  {
    var q := ValidatePeriodQuery(periodRaw, startRaw, endRaw);
    if q.Reject? {
      return RejectReply(q), [];
    }
    reply, calls := AnswerPeriod(src, now, q.periodType, q.startDate, q.endDate);
  }
}
