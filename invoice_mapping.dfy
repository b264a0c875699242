/** The mapping of raw invoice rows and the resolved references to `Invoice`. */
module InvoiceMapping {
  import opened Wrappers
  import opened Calendar
  import opened Entity
  import opened Odoo

  /** The partner a row refers to, when the id is present and was resolved. */
  function ResolvedPartner(raw: InvoiceReport, partners: map<int, ResPartner>): Option<ResPartner> {
    match raw.partnerId
    case Some(pid) => if pid in partners then Some(partners[pid]) else None
    case None => None
  }

  function JournalNameOf(raw: InvoiceReport, journals: map<int, AccountJournal>): string {
    match raw.journalId
    case Some(jid) => if jid in journals then journals[jid].name.GetOr("") else ""
    case None => ""
  }

  function CurrencyNameOf(raw: InvoiceReport, currencies: map<int, ResCurrency>): string {
    match raw.currencyId
    case Some(cid) => if cid in currencies then currencies[cid].name.GetOr("") else ""
    case None => ""
  }

  /** One raw row as an `Invoice`. Reference ids fall back to 0 and reference
      texts to "" unless the id is present, resolved and the field is set;
      missing dates fall back to the zero time. */
  function ToInvoice(raw: InvoiceReport, partners: map<int, ResPartner>,
                     journals: map<int, AccountJournal>, currencies: map<int, ResCurrency>): (inv: Invoice)
    ensures inv.id == raw.id && inv.name == raw.displayName
    ensures inv.partner == (if raw.partnerId.Some? then raw.partnerId.value else 0)
    ensures inv.journalId == (if raw.journalId.Some? then raw.journalId.value else 0)
    ensures inv.currencyId == (if raw.currencyId.Some? then raw.currencyId.value else 0)
    ensures raw.partnerId.None? || raw.partnerId.value !in partners ==>
              inv.partnerName == "" && inv.partnerVat == "" && inv.partnerPhone == "" && inv.partnerMobile == ""
    ensures raw.partnerId.Some? && raw.partnerId.value in partners ==>
              var p := partners[raw.partnerId.value];
              && inv.partnerName == (if p.name.Some? then p.name.value else "")
              && inv.partnerVat == (if p.vat.Some? then p.vat.value else "")
              && inv.partnerPhone == (if p.phone.Some? then p.phone.value else "")
              && inv.partnerMobile == (if p.mobile.Some? then p.mobile.value else "")
    ensures inv.journalName != "" ==>
              raw.journalId.Some? && raw.journalId.value in journals
              && journals[raw.journalId.value].name == Some(inv.journalName)
    ensures raw.journalId.Some? && raw.journalId.value in journals && journals[raw.journalId.value].name.Some? ==>
              inv.journalName == journals[raw.journalId.value].name.value
    ensures inv.currencyName != "" ==>
              raw.currencyId.Some? && raw.currencyId.value in currencies
              && currencies[raw.currencyId.value].name == Some(inv.currencyName)
    ensures raw.currencyId.Some? && raw.currencyId.value in currencies && currencies[raw.currencyId.value].name.Some? ==>
              inv.currencyName == currencies[raw.currencyId.value].name.value
    ensures inv.amountUntaxed + inv.amountTax == 0.0
    ensures inv.amountTotal == raw.priceTotal && inv.amountResidual == raw.residual
    ensures inv.amountUntaxed == raw.priceTotal - raw.userCurrencyPriceTotal
    ensures inv.dateInvoice == (if raw.date.Some? then raw.date.value else ZeroTime)
    ensures inv.dateDue == (if raw.dateDue.Some? then raw.dateDue.value else ZeroTime)
    ensures inv.state == SelectionText(raw.state) && inv.invoiceType == SelectionText(raw.invoiceType)
    ensures inv.reference == "" && inv.note == ""
  {
    var partner := ResolvedPartner(raw, partners);
    Invoice(
      id := raw.id,
      name := raw.displayName,
      partner := raw.partnerId.GetOr(0),
      partnerName := if partner.Some? then partner.value.name.GetOr("") else "",
      partnerVat := if partner.Some? then partner.value.vat.GetOr("") else "",
      partnerPhone := if partner.Some? then partner.value.phone.GetOr("") else "",
      partnerMobile := if partner.Some? then partner.value.mobile.GetOr("") else "",
      dateInvoice := raw.date.GetOr(ZeroTime),
      dateDue := raw.dateDue.GetOr(ZeroTime),
      reference := "",
      amountUntaxed := raw.priceTotal - raw.userCurrencyPriceTotal,
      amountTax := raw.userCurrencyPriceTotal - raw.priceTotal,
      amountTotal := raw.priceTotal,
      amountResidual := raw.residual,
      state := SelectionText(raw.state),
      invoiceType := SelectionText(raw.invoiceType),
      journalId := raw.journalId.GetOr(0),
      journalName := JournalNameOf(raw, journals),
      currencyId := raw.currencyId.GetOr(0),
      currencyName := CurrencyNameOf(raw, currencies),
      note := "")
  }

  /** The mapping loop: one `Invoice` per row, in row order. */
  method MapInvoices(rows: seq<InvoiceReport>, partners: map<int, ResPartner>,
                     journals: map<int, AccountJournal>, currencies: map<int, ResCurrency>)
    returns (result: seq<Invoice>)
    ensures |result| == |rows|
    ensures forall j :: 0 <= j < |rows| ==> result[j] == ToInvoice(rows[j], partners, journals, currencies)
  {
    result := [];
    var i := 0;
    while i < |rows|
      invariant 0 <= i <= |rows|
      invariant |result| == i
      invariant forall j :: 0 <= j < i ==> result[j] == ToInvoice(rows[j], partners, journals, currencies)
    {
      result := result + [ToInvoice(rows[i], partners, journals, currencies)];
      i := i + 1;
    }
  }
}
