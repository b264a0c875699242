/** The slice of the web framework the handlers use: query-string lookups
    with defaults, and the status and JSON body of a reply. */
module Http {
  import opened Wrappers
  import opened Decimal

  const DefaultPageSize := 500

  const StatusOK := 200
  const StatusBadRequest := 400
  const StatusUnauthorized := 401
  const StatusInternalServerError := 500

  /** A reply body: the JSON object `{"error": message}`, the payload itself
      as JSON, or plain text, which is what the framework's default error
      handler sends for an error that reaches it. */
  datatype Body<T> = ErrorBody(error: string) | Payload(value: T) | TextBody(text: string)

  datatype Reply<T> = Reply(status: int, body: Body<T>)

  /** `c.Query(key, default)`: the raw value, or the default when the value
      is empty; an absent key reads as the empty string. */
  function Query(raw: string, default: string): (v: string)
    ensures raw != "" ==> v == raw
    ensures raw == "" ==> v == default
  {
    if raw == "" then default else raw
  }

  /** `c.QueryInt(key, default)`: the value as read by `strconv.Atoi`, or the
      default when it is absent, empty or not an int64. */
  function QueryInt(raw: string, default: int): (v: int)
    ensures Atoi(raw).Some? ==> v == Atoi(raw).value
    ensures Atoi(raw).None? ==> v == default
  {
    match Atoi(raw)
    case Some(n) => n
    case None => default
  }

  /** `page` defaults to 1 and `page_size` to 500 before any clamping; a
      number that reads as an int64 is taken as it is. */
  function PageQuery(pageRaw: string, pageSizeRaw: string): (pq: (int, int))
    ensures Atoi(pageRaw).None? ==> pq.0 == 1
    ensures Atoi(pageSizeRaw).None? ==> pq.1 == DefaultPageSize
    ensures Atoi(pageRaw).Some? ==> pq.0 == Atoi(pageRaw).value
    ensures Atoi(pageSizeRaw).Some? ==> pq.1 == Atoi(pageSizeRaw).value
  {
    (QueryInt(pageRaw, 1), QueryInt(pageSizeRaw, DefaultPageSize))
  }

  /** A query written by `Itoa` is read back; an empty one gives the default. */
  lemma QueryIntRoundTrip(n: int, default: int)
    requires MinInt64 <= n <= MaxInt64
    ensures QueryInt(Itoa(n), default) == n
    ensures QueryInt("", default) == default
  {
    AtoiItoa(n);
  }

  /** The handlers' last step: a service error becomes a 500 reply carrying
      the error's text, a result becomes a 200 reply carrying it. */
  function Respond<T>(r: Result<T>): (reply: Reply<T>)
    ensures reply.status == StatusOK <==> r.Success?
    ensures r.Success? ==> reply.body == Payload(r.value)
    ensures r.Failure? ==> reply == Reply(StatusInternalServerError, ErrorBody(r.error))
  {
    match r
    case Success(v) => Reply(StatusOK, Payload(v))
    case Failure(e) => Reply(StatusInternalServerError, ErrorBody(e))
  }
}
