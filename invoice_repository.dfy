/** The invoice repository: a page of invoices with their partners, journals
    and currencies resolved, the paginated daily summary of posted invoices,
    and the summary of one period. Each operation returns its result together
    with the log of ERP calls it issued, in order. */
module InvoiceRepository {
  import opened Wrappers
  import opened Calendar
  import opened Entity
  import opened Odoo
  import opened Pagination
  import opened References
  import opened InvoiceMapping
  import opened DailySummary
  import opened Period

  /** The prefix of every Go runtime error's text. */
  const RuntimeErrorPrefix := "runtime error: "

  /** What a Go program reports when it dereferences a nil pointer; the
      summaries read every row's invoice date without checking it. */
  const NilDereference := RuntimeErrorPrefix + "invalid memory address or nil pointer dereference"

  function Posted(): Criteria { [Condition("state", Eq, "posted")] }

  const PartnerFields: seq<string> := ["id", "name", "vat", "phone", "mobile"]
  const NameFields: seq<string> := ["id", "name"]
  const PeriodFields: seq<string> := ["id", "display_name", "invoice_date", "price_total"]

  /** The batched reads a page issues after its search: one per kind of
      reference, and only for a kind that occurs on the page. */
  function ReferenceCalls(rows: seq<InvoiceReport>): seq<Call> {
    (if PartnerIds(rows) != {} then [Read(PartnerModel, PartnerIds(rows), PartnerFields)] else [])
    + (if JournalIds(rows) != {} then [Read(JournalModel, JournalIds(rows), NameFields)] else [])
    + (if CurrencyIds(rows) != {} then [Read(CurrencyModel, CurrencyIds(rows), NameFields)] else [])
  }

  /** The count and the page search shared by the two paginated operations. */
  function PageCalls(criteria: Criteria, w: Window): seq<Call> {
    [Count(InvoiceReportModel, criteria),
     SearchRead(InvoiceReportModel, criteria, Some(w.pageSize), Some(w.offset), [])]
  }

  /** The lookup maps of a page: the ids it refers to are collected, each
      non-empty kind is read in one batch, and a successful read is indexed
      by id. */
  method ResolveReferences(src: InvoiceSource, rows: seq<InvoiceReport>)
    returns (partners: map<int, ResPartner>, journals: map<int, AccountJournal>,
             currencies: map<int, ResCurrency>, calls: seq<Call>)
    ensures partners == PartnerLookup(src, rows)
    ensures journals == JournalLookup(src, rows)
    ensures currencies == CurrencyLookup(src, rows)
    ensures calls == ReferenceCalls(rows)
  {
    calls := [];
    var partnerIds, journalIds, currencyIds := CollectReferenceIds(rows);

    partners := map[];
    if partnerIds != {} {
      calls := calls + [Read(PartnerModel, partnerIds, PartnerFields)];
      var read := src.readPartners(partnerIds);
      if read.Success? {
        partners := IndexById(read.value, PartnerKey);
      }
    }

    journals := map[];
    if journalIds != {} {
      calls := calls + [Read(JournalModel, journalIds, NameFields)];
      var read := src.readJournals(journalIds);
      if read.Success? {
        journals := IndexById(read.value, JournalKey);
      }
    }

    currencies := map[];
    if currencyIds != {} {
      calls := calls + [Read(CurrencyModel, currencyIds, NameFields)];
      var read := src.readCurrencies(currencyIds);
      if read.Success? {
        currencies := IndexById(read.value, CurrencyKey);
      }
    }
  }

  /** A page of non-cancelled invoices. The count and the search fail the
      call; a failed reference read only leaves those names empty. */
  method GetAllInvoices(src: InvoiceSource, page: int, pageSize: int)
    returns (res: Result<InvoicePagination>, calls: seq<Call>)
    ensures var w := Paginate(page, pageSize);
      && (src.count(NotCancelled()).Failure? ==>
            res == Failure("failed to get total count: " + src.count(NotCancelled()).error)
            && calls == PageCalls(NotCancelled(), w)[..1])
      && (src.count(NotCancelled()).Success? ==>
            var search := src.searchRead(NotCancelled(), Some(w.pageSize), Some(w.offset), []);
            && (search.Failure? ==>
                  res == Failure("failed to search invoices: " + search.error)
                  && calls == PageCalls(NotCancelled(), w))
            && (search.Success? ==>
                  var rows := search.value;
                  var count := src.count(NotCancelled()).value;
                  && res.Success?
                  && res.value.page == w.page && res.value.pageSize == w.pageSize
                  && res.value.totalItems == count
                  && res.value.totalPages == TotalPages(count, w.pageSize)
                  && |res.value.items| == |rows|
                  && (forall j :: 0 <= j < |rows| ==>
                        res.value.items[j] == ToInvoice(rows[j], PartnerLookup(src, rows),
                                                        JournalLookup(src, rows), CurrencyLookup(src, rows)))
                  && calls == PageCalls(NotCancelled(), w) + ReferenceCalls(rows)))
  {
    var w := Paginate(page, pageSize);
    var criteria := NotCancelled();
    calls := [Count(InvoiceReportModel, criteria)];
    var counted := src.count(criteria);
    if counted.Failure? {
      return Failure("failed to get total count: " + counted.error), calls;
    }
    var totalCount := counted.value;
    var totalPages := TotalPages(totalCount, w.pageSize);

    calls := calls + [SearchRead(InvoiceReportModel, criteria, Some(w.pageSize), Some(w.offset), [])];
    var searched := src.searchRead(criteria, Some(w.pageSize), Some(w.offset), []);
    if searched.Failure? {
      return Failure("failed to search invoices: " + searched.error), calls;
    }
    var rows := searched.value;
    if |rows| == 0 {
      return Success(InvoicePagination([], w.page, w.pageSize, totalCount, totalPages)), calls;
    }

    var partners, journals, currencies, lookups := ResolveReferences(src, rows);
    calls := calls + lookups;
    var items := MapInvoices(rows, partners, journals, currencies);
    res := Success(InvoicePagination(items, w.page, w.pageSize, totalCount, totalPages));
  }

  /** Each reference read asks only for ids the page itself refers to, with
      the fields the mapping consumes, and at most one read per kind. */
  lemma ReferenceCallsAskForPageIds(rows: seq<InvoiceReport>)
    ensures |ReferenceCalls(rows)| <= 3
    ensures forall c :: c in ReferenceCalls(rows) ==>
              && c.Read? && c.ids != {}
              && (c.model == PartnerModel ==> c.ids == PartnerIds(rows) && c.fields == PartnerFields)
              && (c.model == JournalModel ==> c.ids == JournalIds(rows) && c.fields == NameFields)
              && (c.model == CurrencyModel ==> c.ids == CurrencyIds(rows) && c.fields == NameFields)
              && (forall id :: id in c.ids ==>
                    exists j :: 0 <= j < |rows| && (Some(id) == rows[j].partnerId
                                                   || Some(id) == rows[j].journalId || Some(id) == rows[j].currencyId))
  {
  }

  /** The bucketing shared by both summaries: the buckets newest first with
      the grand total and count, or the nil-dereference failure when a row has
      no invoice date. */
  method Summarize(rows: seq<InvoiceReport>)
    returns (res: Result<seq<DailyInvoiceSummary>>, totalAmount: real, totalInvoices: int)
    ensures res.Success? <==> AllDated(rows)
    ensures res.Failure? ==> res.error == NilDereference
    ensures res.Success? ==>
              && IsDailySummary(res.value, rows)
              && totalAmount == Amounts(rows) && totalInvoices == |rows|
  {
    if !AllDated(rows) {
      return Failure(NilDereference), 0.0, 0;
    }
    var dateMap;
    dateMap, totalAmount, totalInvoices := BucketByDay(rows);
    var buckets := NewestFirst(dateMap);
    res := Success(buckets);
  }

  /** A page of posted invoices grouped by day, newest day first. The page
      counts invoices, not days, so a day can continue on the next page. */
  method GetDailyInvoiceSummary(src: InvoiceSource, page: int, pageSize: int)
    returns (res: Result<InvoiceSummaryResponse>, calls: seq<Call>)
    ensures var w := Paginate(page, pageSize);
      && (src.count(Posted()).Failure? ==>
            res == Failure("failed to get total count: " + src.count(Posted()).error)
            && calls == PageCalls(Posted(), w)[..1])
      && (src.count(Posted()).Success? ==>
            var search := src.searchRead(Posted(), Some(w.pageSize), Some(w.offset), []);
            && calls == PageCalls(Posted(), w)
            && (search.Failure? ==> res == Failure("failed to search invoices: " + search.error))
            && (search.Success? ==>
                  var rows := search.value;
                  var count := src.count(Posted()).value;
                  && (res.Success? <==> AllDated(rows))
                  && (res.Failure? ==> res.error == NilDereference)
                  && (res.Success? ==>
                        && res.value.page == w.page && res.value.pageSize == w.pageSize
                        && res.value.totalItems == count
                        && res.value.totalPages == TotalPages(count, w.pageSize)
                        && IsDailySummary(res.value.items, rows))))
  {
    var w := Paginate(page, pageSize);
    var criteria := Posted();
    calls := [Count(InvoiceReportModel, criteria)];
    var counted := src.count(criteria);
    if counted.Failure? {
      return Failure("failed to get total count: " + counted.error), calls;
    }
    var totalCount := counted.value;
    var totalPages := TotalPages(totalCount, w.pageSize);

    calls := calls + [SearchRead(InvoiceReportModel, criteria, Some(w.pageSize), Some(w.offset), [])];
    var searched := src.searchRead(criteria, Some(w.pageSize), Some(w.offset), []);
    if searched.Failure? {
      return Failure("failed to search invoices: " + searched.error), calls;
    }
    var rows := searched.value;
    if |rows| == 0 {
      return Success(InvoiceSummaryResponse([], w.page, w.pageSize, totalCount, totalPages)), calls;
    }

    var buckets, _, _ := Summarize(rows);
    if buckets.Failure? {
      return Failure(buckets.error), calls;
    }
    res := Success(InvoiceSummaryResponse(buckets.value, w.page, w.pageSize, totalCount, totalPages));
  }

  /** The summary of one period at instant `now`: the posted invoices dated
      within the resolved range, grouped by day, with their grand total,
      count, average per day and label. */
  method GetPeriodInvoiceSummary(src: InvoiceSource, now: Instant, periodType: PeriodType,
                                 customStart: Option<Instant>, customEnd: Option<Instant>)
    returns (res: Result<PeriodInvoiceSummaryResponse>, calls: seq<Call>)
    ensures var r := ResolvePeriod(periodType, customStart, customEnd, now);
      var search := src.searchRead(PeriodCriteria(r), None, None, PeriodFields);
      && calls == [SearchRead(InvoiceReportModel, PeriodCriteria(r), None, None, PeriodFields)]
      && (search.Failure? ==> res == Failure("failed to search invoices: " + search.error))
      && (search.Success? ==>
            var rows := search.value;
            && (res.Success? <==> AllDated(rows))
            && (res.Failure? ==> res.error == NilDereference)
            && (res.Success? ==>
                  && res.value.period == PeriodLabel(periodType, r)
                  && res.value.periodType == periodType
                  && res.value.dateRange == r
                  && IsDailySummary(res.value.items, rows)
                  && res.value.totalAmount == Amounts(rows)
                  && res.value.invoiceCount == |rows|
                  && res.value.averageDaily == AverageDaily(res.value.totalAmount, r)))
  {
    var range := ResolvePeriod(periodType, customStart, customEnd, now);
    var criteria := PeriodCriteria(range);
    calls := [SearchRead(InvoiceReportModel, criteria, None, None, PeriodFields)];
    var searched := src.searchRead(criteria, None, None, PeriodFields);
    if searched.Failure? {
      return Failure("failed to search invoices: " + searched.error), calls;
    }
    var rows := searched.value;
    var buckets, totalAmount, totalInvoices := Summarize(rows);
    if buckets.Failure? {
      return Failure(buckets.error), calls;
    }
    var desc := PeriodLabel(periodType, range);
    var average := AverageDaily(totalAmount, range);
    res := Success(PeriodInvoiceSummaryResponse(desc, periodType, range, buckets.value,
                                                totalAmount, totalInvoices, average));
  }
}
