# nerp_warper gateway core in Dafny

nerp_warper is a REST gateway in front of an Odoo ERP. This project models its request-shaping and aggregation core:

- **Invoice repository.** It serves three operations:
  - a page of invoices whose partner, journal and currency references are resolved by batched reads;
  - a page of posted invoices grouped by calendar day, newest day first;
  - the summary of a period. A period is a look-back token, the current month, the current year, or a custom range. The summary gives the days, the total, the count, the average per day and a label.
- **Sale repository.** It lists every non-cancelled sale order.
- **Invoice and sale handlers.** They read the query string with its defaults, validate period requests (both custom dates or neither; a known token unless both dates are given) and map errors to status codes.
- **Bearer middleware.** It checks the `Authorization` header.

Each ERP round trip is an input to the model. The answers to `Count`, `SearchRead`, `Search` and `Read` are total functions, the fields of `Odoo.InvoiceSource` and `Odoo.SaleSource`. Every repository method also returns the log of calls it issued, in order. This lets contracts state which reads happen, for example "no read after an empty search" or "one batched read per kind of reference, only when the page refers to it".

Instants are whole seconds since 1970-01-01T00:00:00Z, and the model assumes UTC throughout. The day of an instant is `t / 86400`, rounded down. That is what Go's `Truncate(24 * time.Hour)` gives, because Go's zero time lies a whole number of days before 1970. Amounts are `real`.

The model keeps the code's own arithmetic:

- `amountUntaxed` is `priceTotal - userCurrencyPriceTotal` (odoo_invoice_repository.go:172).
- The average per day divides the total by the exact fractional day count, which is at least 1 (odoo_invoice_repository.go:386-389, :416).
- Every present partner, journal and currency id is collected, 0 included (odoo_invoice_repository.go:63-73).

Layout, one module per file:

| module | models |
|---|---|
| wrappers | `Option`, `Result` |
| decimal | `strconv.Atoi` / `Itoa`, zero-padded digits |
| calendar | Gregorian civil dates, `Format`/`Parse` of the "2006-01-02", "January 2006" and "2006" layouts, month and year starts |
| entity | the domain records (`domain/entity`) |
| odoo | raw ERP records, search criteria, the call log, the upstream answers |
| pagination | the page clamp, the offset, `totalPages` |
| references | the id-set collection and the id-keyed lookup maps |
| invoice_mapping | raw invoice row to `Invoice` |
| daily_summary | day buckets, the bucketing loop, the newest-first sort |
| period | period resolution, the filter, the day count, the average, the label |
| invoice_repository | the three invoice operations |
| sale_repository | the sale order listing |
| http | `Query` / `QueryInt` defaults, status codes, error replies |
| period_request | the period query validation shared by both handlers |
| invoice_handler, sale_handler | the endpoints |
| auth_middleware | `strings.Split` on spaces and the bearer check |

## Model

| member | source | states |
|---|---|---|
| Pagination.Paginate | infrastructure/odoo/odoo_invoice_repository.go:24-31 | The clamped page is at least 1 and equals the request when that is at least 1. The size is in 1..500: kept when in range, otherwise exactly 500. The offset is the intended `(page-1)*pageSize` in unbounded arithmetic, so it is never negative; the 64-bit wrap of the code is under Findings. |
| Pagination.Quot | infrastructure/odoo/odoo_invoice_repository.go:38 | Go's `/` truncates toward zero: for a non-negative dividend `q*b <= a < q*b + b`, for a negative one `q*b - b < a <= q*b`. |
| Pagination.TotalPages | infrastructure/odoo/odoo_invoice_repository.go:38 | For a count of at least 0 the page count is at least 0, and it is 0 exactly when the count is 0; the ceiling property is Pagination.TotalPagesIsCeiling. |
| Pagination.TotalPagesIsCeiling | infrastructure/odoo/odoo_invoice_repository.go:38 | For a count of at least 0, `totalPages` is the least number of pages holding every row: `(tp-1)*size < count <= tp*size`. It is 0 exactly when the count is 0. |
| Pagination.OffsetSkipsEarlierPages | infrastructure/odoo/odoo_invoice_repository.go:31 | Offsets are non-negative, and each page starts exactly one page size after the previous one. |
| Pagination.EveryRowOnOnePage | infrastructure/odoo/odoo_invoice_repository.go:31-42 | Every row below the count lies in the window of page `row/size + 1`, and that page is within 1..totalPages. |
| Pagination.WrapInt64 | infrastructure/odoo/odoo_invoice_repository.go:31 | Go's wrap-around: the result is in the int64 range, congruent to the input modulo 2^64, and the input itself when that is in range. |
| Pagination.OffsetAsWrittenWraps | infrastructure/odoo/odoo_invoice_repository.go:31 | The offset as computed in 64 bits wraps: page 2^62+1 of size 500 gets offset 0, and page 2^61+1 gets a negative one. |
| Pagination.OffsetAsWrittenAgrees | infrastructure/odoo/odoo_invoice_repository.go:31 | Below the wrap-around, the 64-bit offset is the intended offset. |
| References.CollectReferenceIds | infrastructure/odoo/odoo_invoice_repository.go:60-74 | The collection loop yields exactly the set of partner, journal and currency ids present on the page. Absent references add nothing. |
| References.IndexedMeaning | infrastructure/odoo/odoo_invoice_repository.go:86-88 | An id-keyed map has as keys exactly the ids of the returned rows. Each entry sits under its own id, and the last row with an id is the one kept. |
| References.IndexById | infrastructure/odoo/odoo_invoice_repository.go:86-88 | The indexing loop builds exactly that map. |
| References.LookupMeaning | infrastructure/odoo/odoo_invoice_repository.go:85-89 | A failed batched read leaves the lookup map empty. A successful one files each returned record under its own id. |
| InvoiceRepository.ResolveReferences | infrastructure/odoo/odoo_invoice_repository.go:59-122 | The three lookup maps of a page, and the reads issued: one per kind with a non-empty id set, in partner, journal, currency order. |
| InvoiceRepository.ReferenceCallsAskForPageIds | infrastructure/odoo/odoo_invoice_repository.go:76-122 | At most three reference reads. Each asks for a non-empty set of ids that occur on the page, with the field list of its kind. |
| Odoo.SelectionText | infrastructure/odoo/odoo_invoice_repository.go:182-192 | A selection's text when present and a string, otherwise "". |
| InvoiceMapping.ToInvoice | infrastructure/odoo/odoo_invoice_repository.go:125-202 | A missing reference id maps to 0. The partner fields are "" unless the partner is present and resolved, and then they are that partner's fields or "". The journal and currency names are the resolved record's name when it has one, and are non-empty only then. `amountUntaxed + amountTax == 0` and `amountTotal == priceTotal`. `state` and `invoiceType` are the selections' texts. Missing dates give Go's zero time. |
| InvoiceMapping.MapInvoices | infrastructure/odoo/odoo_invoice_repository.go:124-203 | One `Invoice` per row, in row order, each the mapping of its row. |
| InvoiceRepository.GetAllInvoices | infrastructure/odoo/odoo_invoice_repository.go:23-212 | A failed count or search fails the call with its message, and no later call is issued. Otherwise the call returns the clamped page and size, `totalItems` = count, `totalPages`, and one mapped invoice per row, using the page's lookup maps. The call log is the count, the search, then the reference reads. |
| DailySummary.OnDayRowsOnDay | infrastructure/odoo/odoo_invoice_repository.go:255-261 | The rows selected for a day all lie on that day. |
| DailySummary.ItemTotalNumbered | infrastructure/odoo/odoo_invoice_repository.go:268-279 | The items built from a day's rows add up to the rows' amounts. |
| DailySummary.DailyOfWellFormed | infrastructure/odoo/odoo_invoice_repository.go:259-279 | Each bucket keeps its invariant: count = number of items, items numbered 1..count in scan order, every item on the bucket's day, total = sum of the items' amounts. |
| DailySummary.BucketByDay | infrastructure/odoo/odoo_invoice_repository.go:254-280 | The bucketing loop with its in-place updates yields one bucket per day that has rows, and no others. Each bucket equals the reference bucket of its day. The running total and count equal the sum of all amounts and the number of rows. |
| DailySummary.AddToBucket | infrastructure/odoo/odoo_invoice_repository.go:256-279 | One row's update: a day without a bucket gets one at its midnight; the row's bucket gains one in count, the row's amount in total, and the row as its next numbered item; every other bucket is unchanged. |
| DailySummary.Latest | infrastructure/odoo/odoo_invoice_repository.go:287-289 | The latest day still to be listed is a member of the remaining days and not earlier than any of them. |
| DailySummary.NewestFirst | infrastructure/odoo/odoo_invoice_repository.go:282-289 | Collecting and sorting the buckets lists each map entry exactly once, and their dates strictly decrease. |
| DailySummary.SumsOverBuckets | infrastructure/odoo/odoo_invoice_repository.go:282-289 | Over newest-first buckets, the bucket counts and totals add up to the rows and amounts of exactly the days listed. |
| DailySummary.AllDaysCovered | infrastructure/odoo/odoo_invoice_repository.go:254-280 | Counting and summing the rows day by day over a superset of their days gives all rows and all amounts. |
| DailySummary.DailySummaryTotals | infrastructure/odoo/odoo_invoice_repository.go:254-289 | In a daily summary, the counts sum to the number of rows and the totals to the grand total. Every bucket is well formed, and no day appears twice. |
| DailySummary.TwoDays | infrastructure/odoo/odoo_invoice_repository.go:282-289 | Strictly decreasing buckets covering exactly two days are two, the later day first. |
| DailySummary.TwoDayExample | infrastructure/odoo/odoo_invoice_repository.go:254-289 | Three invoices of 10, 20 and 30 on 2024-01-02 and one of 5 on 2024-01-01 give exactly two buckets: 2024-01-02 with total 60 and count 3, then 2024-01-01 with total 5 and count 1. |
| InvoiceRepository.Summarize | infrastructure/odoo/odoo_invoice_repository.go:254-289 | The summary succeeds exactly when every row has an invoice date; otherwise it fails with Go's nil-dereference message. On success it is a daily summary of the rows, with the grand total and count. |
| InvoiceRepository.GetDailyInvoiceSummary | infrastructure/odoo/odoo_invoice_repository.go:215-298 | The count and the search of posted invoices, with their failure messages. On success it returns the clamped page and size, count and `totalPages`, and the daily summary of the page's rows (empty for an empty page). Missing dates fail with the nil-dereference message. |
| Period.CustomRangeVerbatim | infrastructure/odoo/odoo_invoice_repository.go:305-307 | Two custom dates are the range, whatever the token. |
| Period.LookbackRanges | infrastructure/odoo/odoo_invoice_repository.go:309-318 | Without both dates, 1D/7D/30D/90D end now and start 1, 7, 30 or 90 days earlier. |
| Period.CalendarRanges | infrastructure/odoo/odoo_invoice_repository.go:319-324 | Without both dates, MONTHLY and YEARLY run from the first instant of the current month or year to one second before the next one. |
| Period.UnknownTokenIsThirtyDays | infrastructure/odoo/odoo_invoice_repository.go:325-326 | An unrecognised token resolves exactly like 30D. |
| Period.ResolvePeriod | infrastructure/odoo/odoo_invoice_repository.go:303-328 | Two custom dates are the range as given. Otherwise MONTHLY and YEARLY start at a midnight and end one second before a midnight, and every other token ends now and reaches back a whole number of days, from 1 to 90. |
| Period.PeriodCriteriaByDay | infrastructure/odoo/odoo_invoice_repository.go:330-333 | The filter compares dates only: ranges whose ends lie on the same days give the same criteria, with the bounds written as those days' dates. |
| Period.SubNanos | infrastructure/odoo/odoo_invoice_repository.go:386 | `endDate.Sub(startDate)` in nanoseconds: the exact span when it fits an int64, otherwise the int64 bound on its side. |
| Period.DayCount | infrastructure/odoo/odoo_invoice_repository.go:386-389 | The day count is at least 1. Above one day it is the nanosecond span over one day of nanoseconds. |
| Period.DayCountOfRange | infrastructure/odoo/odoo_invoice_repository.go:386-389 | A range of at most a day counts as 1 day. A longer range within a Duration's reach counts its exact length in days. |
| Period.AverageDaily | infrastructure/odoo/odoo_invoice_repository.go:416 | The average per day times the day count is the total. |
| Period.LookbackLabelsIgnoreRange | infrastructure/odoo/odoo_invoice_repository.go:392-400 | The look-back tokens' labels do not depend on the range, so a custom range keeps the token's label. |
| Period.CalendarLabelsFollowEnd | infrastructure/odoo/odoo_invoice_repository.go:401-404 | The MONTHLY and YEARLY labels depend only on the end of the range. |
| Period.LabelWords | infrastructure/odoo/odoo_invoice_repository.go:391-404 | 1D, 7D, 30D and 90D are labelled "Last 24 Hours", "Last 7 Days", "Last 30 Days" and "Last 90 Days". MONTHLY is labelled with the end date's month and year ("January 2006"), and YEARLY with its year. |
| Period.UnknownTokenLabel | infrastructure/odoo/odoo_invoice_repository.go:405-406 | An unrecognised token is labelled "start to end" in the date layout. |
| InvoiceRepository.GetPeriodInvoiceSummary | infrastructure/odoo/odoo_invoice_repository.go:301-418 | One search, for posted invoices between the formatted bounds, with the four summary fields. A failed search fails with its message, and missing dates fail with the nil-dereference message. On success it returns the label, the token, the resolved range and the daily summary of the rows, with `totalAmount` = sum of amounts, `invoiceCount` = number of rows and the average per day. |
| SaleRepository.ToSaleOrder | infrastructure/odoo/odoo_sale_repository.go:44-91 | A present field is copied unchanged. The state is copied only when it is a string, otherwise it is "". |
| SaleRepository.CompleteRecordRoundTrip | infrastructure/odoo/odoo_sale_repository.go:46-91 | A record with every field present maps back to the order it came from. |
| SaleRepository.EmptyRecordIsZero | infrastructure/odoo/odoo_sale_repository.go:46-81 | A record with every field missing maps to id 0, name "", partner 0, the zero time, amount 0 and state "". |
| SaleRepository.MapSaleOrders | infrastructure/odoo/odoo_sale_repository.go:43-92 | The conversion loop gives one order per read record, in read order. |
| SaleRepository.GetAllSaleOrders | infrastructure/odoo/odoo_sale_repository.go:23-95 | The search excludes cancelled orders. A failed search fails with its message; no ids fails with "no sale order records found" and issues no read. A failed read fails with its message and returns nothing partial. Otherwise it returns one order per read record. |
| Decimal.Atoi | interfaces/http/handler/invoice_handler.go:23-24 | A number read from the query fits int64. |
| Decimal.AtoiItoa | interfaces/http/handler/invoice_handler.go:23-24 | Every int64 written in decimal is read back. |
| Http.QueryInt | interfaces/http/handler/invoice_handler.go:23-24 | The parameter read by `Atoi`, or the default when it does not read as an int64 (absent and empty included). |
| Http.QueryIntRoundTrip | interfaces/http/handler/invoice_handler.go:23-24 | A decimal query value is read back; an empty one gives the default. |
| Http.PageQuery | interfaces/http/handler/invoice_handler.go:23-24 | page defaults to 1 and page_size to 500; any int64 value is taken unchanged for the repository to clamp. The sale endpoints (sale_handler.go:24-25) read the same defaults. |
| InvoiceHandler.DefaultPageIsFirst | interfaces/http/handler/invoice_handler.go:23-24 | A missing page gives the first page at offset 0, with a valid size. |
| Http.Query | interfaces/http/handler/invoice_handler.go:54 | The parameter, or the default when it is empty. |
| Calendar.ParseCivil | interfaces/http/handler/invoice_handler.go:59 | A parsed date has the layout's shape, a month in 1..12, a day that exists in that month, and a four-digit year. Written back in the layout it gives the parsed string exactly. |
| Calendar.ParseDate | interfaces/http/handler/invoice_handler.go:59 | A date string parses exactly when its civil date does. The result is a midnight, its civil date is the parsed date, and formatting it gives the string back. |
| Calendar.CivilRoundTrip | interfaces/http/handler/invoice_handler.go:59 | Every real date of any year, turned into a day number and back, is the same date. |
| Calendar.ParseFormatRoundTrip | interfaces/http/handler/invoice_handler.go:59 | Every real date of years 0..9999 written in the layout parses back to itself. |
| PeriodRequest.CustomDate | interfaces/http/handler/invoice_handler.go:57-67 | A custom date is present exactly when its parameter parses in the layout. It is then the parsed midnight, whose civil date is the parsed date and which formats back to the parameter. |
| PeriodRequest.ValidatePeriodQuery | interfaces/http/handler/invoice_handler.go:52-88 | Exactly one date rejects with "Both start_date and end_date …", checked first. No dates and an unknown token rejects with "Invalid period_type …". The request proceeds exactly when both or neither date is given and there are two dates or a known token. On proceeding it carries the token (default 30D) and the dates. |
| PeriodRequest.EmptyQueryIsThirtyDays | interfaces/http/handler/invoice_handler.go:54 | No parameters proceed as 30D with no custom dates. |
| PeriodRequest.UnparseableDateIsMissing | interfaces/http/handler/invoice_handler.go:58-67 | An unparseable start date decides exactly like a missing one. |
| Http.Respond | interfaces/http/handler/invoice_handler.go:90-97 | 200 exactly on success, with the result as body; on an error, 500 with the error's text. |
| InvoiceHandler.Answer | main.go:40-45 | 200 exactly on success, with the result as JSON. A returned error gets a 500 with the error as JSON. The nil-dereference panic, caught by `recover` and answered by the default error handler, gets a 500 with its text as plain text. |
| InvoiceHandler.GetAllInvoices | interfaces/http/handler/invoice_handler.go:22-34 | 200 exactly when the count and the search succeed, with the clamped page and size and one item per row. Otherwise a 500 carrying the count's or the search's error text. The count is the first call. |
| InvoiceHandler.GetDailyInvoiceSummary | interfaces/http/handler/invoice_handler.go:37-49 | 200 exactly when the count and the search succeed and every row is dated; otherwise a 500: a JSON error carrying the count's or the search's error text, or, for a row without a date, the nil-dereference message as plain text. The calls are only the count when the count fails, and the count then the search otherwise. |
| InvoiceHandler.ReturnedErrorIsNotPanic | infrastructure/odoo/odoo_invoice_repository.go:230-241 | No error the repository returns, "failed to get total count: …" or "failed to search invoices: …", is the panic's text. |
| InvoiceHandler.AnswerAfterSearch | infrastructure/odoo/odoo_invoice_repository.go:338-341 | For a summary that follows one search: 200 exactly when the search succeeds with dated rows, carrying the result. A failed search gets a JSON 500 with its error, and a row without a date gets the plain-text panic reply. |
| InvoiceHandler.AnswerPeriod | interfaces/http/handler/invoice_handler.go:90-97 | An accepted period request issues the one period search. The reply is 200 exactly when the search succeeds with dated rows, with the label, token, range, daily summary, total, count and average per day. Otherwise a 500: a JSON error with the search's error text, or the nil-dereference message as plain text. |
| InvoiceHandler.GetPeriodInvoiceSummary | interfaces/http/handler/invoice_handler.go:52-98 | A rejected query gets a 400 with its message and no ERP call. An accepted one issues the period search. The reply is 200 exactly when the search succeeds with dated rows. The 200 payload carries the label, the token, the resolved range, the daily summary of the rows, their total and count, and the average per day. Otherwise the reply is a 500: a JSON error carrying the search's error text, or, for a row without a date, the nil-dereference message as plain text. |
| SaleHandler.PeriodSalesStatus | interfaces/http/handler/sale_handler.go:53-99 | 400 exactly when the shared validation rejects, with its message. On an accepted query, a service error gets 500 with `{"error": message}`, and a result gets 200 with that result. |
| AuthMiddleware.Split | interfaces/http/middleware/auth.go:23 | Splitting always yields at least one piece. |
| AuthMiddleware.JoinSplit | interfaces/http/middleware/auth.go:23 | Joining the pieces with single spaces gives the header back. |
| AuthMiddleware.SplitPieces | interfaces/http/middleware/auth.go:23-24 | No piece contains a space, and there is one piece more than there are spaces. |
| AuthMiddleware.SplitJoin | interfaces/http/middleware/auth.go:23-24 | Space-free pieces joined by spaces split back into the same pieces. |
| AuthMiddleware.RequireAuthAccepts | interfaces/http/middleware/auth.go:17-35 | The header is accepted with token `t` exactly when it is "Bearer " followed by `t` and `t` has no space; `t` may be empty. |
| AuthMiddleware.RequireAuthRejects | interfaces/http/middleware/auth.go:14-29 | Every rejection is a 401 with `success: false`. An empty header gets "Authorization header is required". Every other rejected header, including one with no space, several spaces or a scheme other than `Bearer`, gets "Invalid authorization header format". |

## Left out

- ERP round trips (`Count`, `SearchRead`, `Search`, `Read`): their answers are inputs, total functions of the call's arguments. Connections, authentication and retries are not modelled.
- `time.Now()`: the period operations take `now` as a parameter.
- Time zones: everything is in UTC. In UTC, grouping by the local "2006-01-02" key and dating a bucket by `Truncate(24h)` agree. Instants are whole seconds, so nanoseconds are not modelled.
- `AddDate` with negative days is exactly N×86400 seconds in UTC. The civil-date conversions are the standard proleptic Gregorian formulas. Apart from the parse/format round trips, the day-number round trip of every real date and month and year starts falling on a midnight, no calendar property is proved.
- Floating point: amounts, totals, day counts and averages are `real`, so float64 rounding is left out.
- JSON serialisation: field names and `null` versus `[]` for an empty item list are not modelled. `GetAllInvoices` returns `[]` for an empty page but a nil slice for an empty period summary.
- `log.Printf` in the sale repository is not modelled.
- Go's map iteration order: the id lists sent to the reads are sets. `sort.Slice` is modelled as repeated selection of the latest remaining day. The day keys are unique, so the order of the result is fully determined.
- Fields read without a nil check:
  - The summaries read every row's invoice date unchecked. Go panics on a nil date. The `recover` middleware (main.go:45) turns the panic into an error, and Fiber's default error handler, which `fiber.Config` (main.go:40-42) does not replace, answers it with a 500 with a plain-text body. The repository model returns a failure carrying Go's runtime message, and the invoice handlers answer that failure with `TextBody`. Other headers the default handler sets are not modelled.
  - Id, display name, price total, user-currency price total and residual are also read unchecked. The model assumes they are present: they are plain fields of `InvoiceReport`.
  - The `Id` of every partner, journal and currency record read back (odoo_invoice_repository.go:87, :103, :119) is read unchecked too. The model assumes it is present: it is a plain field of `ResPartner`, `AccountJournal` and `ResCurrency`.
- The sale service's `GetAllSaleOrders(page, pageSize)`, `GetDailySalesSummary` and `GetPeriodSalesSummary` call repository functions that do not exist in the repository's source, and `SaleOrderPagination` is not defined there. So the paginated sale endpoints and the sale daily summary are not modelled. The period sale endpoint is modelled with the service's answer as a parameter.
- The auth repository and service, the login handler, the client plumbing, the router and `main` are not part of this model. So are the middleware's `c.Locals` store and `c.Next()`, which are modelled as the `Next(token)` outcome.
- Pagination.Paginate: gives the intended, unbounded offset, and the repository methods send that offset in their searches. The code sends the 64-bit product `(page-1)*pageSize` (odoo_invoice_repository.go:31 and :223), which leaves the int64 range, and wraps, from page 18446744073709553 (about 2^54) at size 500. Pagination.OffsetAsWritten models that product, and the Findings row shows the wrap.
- InvoiceHandler.GetAllInvoices: states only the first entry of the call log and the number of items. The full log and the items are stated by InvoiceRepository.GetAllInvoices, which it calls.
- InvoiceHandler.GetDailyInvoiceSummary: does not restate the payload. The payload is stated by InvoiceRepository.GetDailyInvoiceSummary, which it calls.

## Findings

| source | as written | input that shows it | evidently intended | confidence | as-written member | corrected member |
|---|---|---|---|---|---|---|
| infrastructure/odoo/odoo_invoice_repository.go:31 | `offset := (page - 1) * pageSize` in 64-bit `int` | `page=4611686018427387905&page_size=500`: the offset wraps to 0, so the first page is served under that page number. `page=2305843009213693953` gives a negative offset. | The offset of the requested page: never negative, and growing by one page size per page | low, not executed | Pagination.OffsetAsWrittenWraps | Pagination.OffsetSkipsEarlierPages |
