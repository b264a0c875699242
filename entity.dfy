/** The domain shapes the gateway returns: invoices, sale orders, daily and
    period summaries, and the period tokens. They carry no behaviour. */
module Entity {
  import opened Calendar

  /** A period token; the six recognised values are below. */
  type PeriodType = string

  const PeriodTypeDay: PeriodType := "1D"
  const PeriodTypeWeek: PeriodType := "7D"
  const PeriodTypeMonth: PeriodType := "30D"
  const PeriodTypeQuarter: PeriodType := "90D"
  const PeriodTypeMonthly: PeriodType := "MONTHLY"
  const PeriodTypeYearly: PeriodType := "YEARLY"

  predicate IsPeriodType(p: PeriodType) {
    p == PeriodTypeDay || p == PeriodTypeWeek || p == PeriodTypeMonth
    || p == PeriodTypeQuarter || p == PeriodTypeMonthly || p == PeriodTypeYearly
  }

  datatype Invoice = Invoice(
    id: int,
    name: string,
    partner: int,
    partnerName: string,
    partnerVat: string,
    partnerPhone: string,
    partnerMobile: string,
    dateInvoice: Instant,
    dateDue: Instant,
    reference: string,
    amountUntaxed: real,
    amountTax: real,
    amountTotal: real,
    amountResidual: real,
    state: string,
    invoiceType: string,
    journalId: int,
    journalName: string,
    currencyId: int,
    currencyName: string,
    note: string)

  datatype InvoicePagination = InvoicePagination(
    items: seq<Invoice>, page: int, pageSize: int, totalItems: int, totalPages: int)

  /** One invoice inside a daily bucket; `invoiceNumber` is its 1-based place in the bucket. */
  datatype InvoiceSummary = InvoiceSummary(
    invoiceNumber: int, invoiceId: int, invoiceName: string, amountTotal: real, dateInvoice: Instant)

  /** The invoices of one calendar day. */
  datatype DailyInvoiceSummary = DailyInvoiceSummary(
    date: Instant, totalAmount: real, invoiceCount: int, invoices: seq<InvoiceSummary>)

  datatype InvoiceSummaryResponse = InvoiceSummaryResponse(
    items: seq<DailyInvoiceSummary>, page: int, pageSize: int, totalItems: int, totalPages: int)

  datatype DateRange = DateRange(startDate: Instant, endDate: Instant)

  datatype PeriodInvoiceSummaryResponse = PeriodInvoiceSummaryResponse(
    period: string,
    periodType: PeriodType,
    dateRange: DateRange,
    items: seq<DailyInvoiceSummary>,
    totalAmount: real,
    invoiceCount: int,
    averageDaily: real)

  datatype SaleOrder = SaleOrder(
    id: int, name: string, partner: int, dateOrder: Instant, amountTotal: real, state: string)
}
