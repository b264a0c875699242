/** The sale repository: every non-cancelled sale order, searched for its ids
    and then read in one batch, with each missing field mapped to its zero
    value. */
module SaleRepository {
  import opened Wrappers
  import opened Calendar
  import opened Entity
  import opened Odoo

  const SaleFields: seq<string> := ["id", "name", "partner_id", "date_order", "amount_total", "state"]

  const NoSaleOrders := "no sale order records found"

  /** One read sale order as a `SaleOrder`: a present field is copied, a
      missing one becomes 0, "", the zero time or 0.0, and the state is kept
      only when it is a string. */
  function ToSaleOrder(raw: RawSaleOrder): (o: SaleOrder)
    ensures raw.id.Some? ==> o.id == raw.id.value
    ensures raw.name.Some? ==> o.name == raw.name.value
    ensures raw.partnerId.Some? ==> o.partner == raw.partnerId.value
    ensures raw.dateOrder.Some? ==> o.dateOrder == raw.dateOrder.value
    ensures raw.amountTotal.Some? ==> o.amountTotal == raw.amountTotal.value
    ensures raw.id.None? ==> o.id == 0
    ensures raw.name.None? ==> o.name == ""
    ensures raw.partnerId.None? ==> o.partner == 0
    ensures raw.dateOrder.None? ==> o.dateOrder == ZeroTime
    ensures raw.amountTotal.None? ==> o.amountTotal == 0.0
    ensures raw.state.Some? && raw.state.value.SelString? ==> o.state == raw.state.value.s
    ensures raw.state.None? || raw.state.value.SelOther? ==> o.state == ""
  {
    SaleOrder(
      raw.id.GetOr(0),
      raw.name.GetOr(""),
      raw.partnerId.GetOr(0),
      raw.dateOrder.GetOr(ZeroTime),
      raw.amountTotal.GetOr(0.0),
      SelectionText(raw.state))
  }

  /** The record the ERP would send for an order with every field set. */
  function Complete(o: SaleOrder): RawSaleOrder {
    RawSaleOrder(Some(o.id), Some(o.name), Some(o.partner), Some(o.dateOrder), Some(o.amountTotal),
                 Some(SelString(o.state)))
  }

  /** Nothing is lost when every field is present. */
  lemma CompleteRecordRoundTrip(o: SaleOrder)
    ensures ToSaleOrder(Complete(o)) == o
  {
  }

  /** A record with every field missing maps to the zero order. */
  lemma EmptyRecordIsZero(state: Option<Selection>)
    requires state.None? || state == Some(SelOther)
    ensures ToSaleOrder(RawSaleOrder(None, None, None, None, None, state))
            == SaleOrder(0, "", 0, ZeroTime, 0.0, "")
  {
  }

  /** The conversion loop: one order per read record, in read order. */
  method MapSaleOrders(orders: seq<RawSaleOrder>) returns (result: seq<SaleOrder>)
    ensures |result| == |orders|
    ensures forall j :: 0 <= j < |orders| ==> result[j] == ToSaleOrder(orders[j])
  {
    result := [];
    var i := 0;
    while i < |orders|
      invariant 0 <= i <= |orders|
      invariant |result| == i
      invariant forall j :: 0 <= j < i ==> result[j] == ToSaleOrder(orders[j])
    {
      var order := orders[i];
      var orderId := 0;
      if order.id.Some? {
        orderId := order.id.value;
      }
      var name := "";
      if order.name.Some? {
        name := order.name.value;
      }
      var partnerId := 0;
      if order.partnerId.Some? {
        partnerId := order.partnerId.value;
      }
      var dateOrder := ZeroTime;
      if order.dateOrder.Some? {
        dateOrder := order.dateOrder.value;
      }
      var amountTotal := 0.0;
      if order.amountTotal.Some? {
        amountTotal := order.amountTotal.value;
      }
      var state := "";
      if order.state.Some? && order.state.value.SelString? {
        state := order.state.value.s;
      }
      result := result + [SaleOrder(orderId, name, partnerId, dateOrder, amountTotal, state)];
      i := i + 1;
    }
  }

  /** The ids searched for, as the set the read call names. */
  function IdSet(ids: seq<int>): set<int> {
    set id | id in ids
  }

  /** All non-cancelled sale orders. A failed search or read fails the call
      with no partial result; a search that finds nothing fails without a read. */
  method GetAllSaleOrders(src: SaleSource) returns (res: Result<seq<SaleOrder>>, calls: seq<Call>)
    ensures var search := src.search(NotCancelled());
      && (search.Failure? ==>
            res == Failure("failed to search sale orders: " + search.error)
            && calls == [Search(SaleOrderModel, NotCancelled())])
      && (search.Success? && search.value == [] ==>
            res == Failure(NoSaleOrders) && calls == [Search(SaleOrderModel, NotCancelled())])
      && (search.Success? && search.value != [] ==>
            var read := src.read(search.value);
            && calls == [Search(SaleOrderModel, NotCancelled()),
                         Read(SaleOrderModel, IdSet(search.value), SaleFields)]
            && (read.Failure? ==> res == Failure("failed to read sale orders: " + read.error))
            && (read.Success? ==>
                  && res.Success? && |res.value| == |read.value|
                  && forall j :: 0 <= j < |read.value| ==> res.value[j] == ToSaleOrder(read.value[j])))
  {
    var criteria := NotCancelled();
    calls := [Search(SaleOrderModel, criteria)];
    var searched := src.search(criteria);
    if searched.Failure? {
      return Failure("failed to search sale orders: " + searched.error), calls;
    }
    var ids := searched.value;
    if |ids| == 0 {
      return Failure(NoSaleOrders), calls;
    }
    calls := calls + [Read(SaleOrderModel, IdSet(ids), SaleFields)];
    var read := src.read(ids);
    if read.Failure? {
      return Failure("failed to read sale orders: " + read.error), calls;
    }
    var orders := MapSaleOrders(read.value);
    res := Success(orders);
  }
}
