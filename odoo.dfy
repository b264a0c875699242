/** What the ERP's RPC interface returns and is asked. Raw records keep the
    ERP's optional fields as `Option`; the calls themselves are opaque inputs. */
module Odoo {
  import opened Wrappers
  import opened Calendar

  /** A selection field: the ERP sends a string, or `false` when it is unset. */
  datatype Selection = SelString(s: string) | SelOther

  /** The text of a selection field, or "" when it is missing or not a string. */
  function SelectionText(sel: Option<Selection>): (t: string)
    ensures (sel.Some? && sel.value.SelString?) ==> t == sel.value.s
    ensures !(sel.Some? && sel.value.SelString?) ==> t == ""
  {
    match sel
    case Some(SelString(s)) => s
    case _ => ""
  }

  /** A row of `account.invoice.report`. The fields the repository reads without
      a nil check are plain values; the ones it checks are optional. */
  datatype InvoiceReport = InvoiceReport(
    id: int,
    displayName: string,
    partnerId: Option<int>,
    journalId: Option<int>,
    currencyId: Option<int>,
    priceTotal: real,
    userCurrencyPriceTotal: real,
    residual: real,
    state: Option<Selection>,
    invoiceType: Option<Selection>,
    date: Option<Instant>,
    dateDue: Option<Instant>)

  datatype ResPartner = ResPartner(
    id: int, name: Option<string>, vat: Option<string>, phone: Option<string>, mobile: Option<string>)

  datatype AccountJournal = AccountJournal(id: int, name: Option<string>)

  datatype ResCurrency = ResCurrency(id: int, name: Option<string>)

  /** A row of `sale.order`; every field may be missing. */
  datatype RawSaleOrder = RawSaleOrder(
    id: Option<int>,
    name: Option<string>,
    partnerId: Option<int>,
    dateOrder: Option<Instant>,
    amountTotal: Option<real>,
    state: Option<Selection>)

  datatype Operator = Eq | Ne | Ge | Le

  /** One `(field, operator, value)` triple; a criteria list is their conjunction. */
  datatype Condition = Condition(field: string, op: Operator, value: string)

  type Criteria = seq<Condition>

  /** The filter both repositories list records with: everything not cancelled. */
  function NotCancelled(): Criteria { [Condition("state", Ne, "cancel")] }

  /** One round trip to the ERP, as the repositories issue it. */
  datatype Call =
    | Count(model: string, criteria: Criteria)
    | Search(model: string, criteria: Criteria)
    | SearchRead(model: string, criteria: Criteria, limit: Option<int>, offset: Option<int>, fields: seq<string>)
    | Read(model: string, ids: set<int>, fields: seq<string>)

  /** The answers of the ERP to the invoice repository's calls. */
  datatype InvoiceSource = InvoiceSource(
    count: Criteria -> Result<int>,
    searchRead: (Criteria, Option<int>, Option<int>, seq<string>) -> Result<seq<InvoiceReport>>,
    readPartners: set<int> -> Result<seq<ResPartner>>,
    readJournals: set<int> -> Result<seq<AccountJournal>>,
    readCurrencies: set<int> -> Result<seq<ResCurrency>>)

  /** The answers of the ERP to the sale repository's calls. */
  datatype SaleSource = SaleSource(
    search: Criteria -> Result<seq<int>>,
    read: seq<int> -> Result<seq<RawSaleOrder>>)

  const InvoiceReportModel := "account.invoice.report"
  const PartnerModel := "res.partner"
  const JournalModel := "account.journal"
  const CurrencyModel := "res.currency"
  const SaleOrderModel := "sale.order"
}
