/** Daily aggregation of invoice rows: rows grouped by calendar day with a
    running count, total and 1-based position per day, and the buckets listed
    newest day first. */
module DailySummary {
  import opened Wrappers
  import opened Calendar
  import opened Entity
  import opened Odoo

  /** Rows that carry an invoice date, which the aggregation reads unchecked. */
  predicate AllDated(rows: seq<InvoiceReport>) {
    forall j :: 0 <= j < |rows| ==> rows[j].date.Some?
  }

  function RowDay(r: InvoiceReport): int
    requires r.date.Some?
  {
    DayOf(r.date.value)
  }

  /** The days that have rows. */
  function Days(rows: seq<InvoiceReport>): set<int>
    requires AllDated(rows)
  {
    set j | 0 <= j < |rows| :: RowDay(rows[j])
  }

  /** The rows of day `k`, in scan order. */
  function OnDay(rows: seq<InvoiceReport>, k: int): (on: seq<InvoiceReport>)
    requires AllDated(rows)
    ensures AllDated(on)
  {
    if rows == [] then []
    else
      var last := rows[|rows| - 1];
      OnDay(rows[..|rows| - 1], k) + (if RowDay(last) == k then [last] else [])
  }

  /** The sum of the rows' `price_total`. */
  function Amounts(rows: seq<InvoiceReport>): real {
    if rows == [] then 0.0 else Amounts(rows[..|rows| - 1]) + rows[|rows| - 1].priceTotal
  }

  function ItemOf(r: InvoiceReport, n: int): InvoiceSummary
    requires r.date.Some?
  {
    InvoiceSummary(n, r.id, r.displayName, r.priceTotal, r.date.value)
  }

  /** The rows as bucket items numbered 1, 2, ... in order. */
  function Numbered(rows: seq<InvoiceReport>): seq<InvoiceSummary>
    requires AllDated(rows)
  {
    seq(|rows|, j requires 0 <= j < |rows| => ItemOf(rows[j], j + 1))
  }

  /** The bucket of day `k`: its midnight, the total and number of that day's
      rows, and those rows numbered in scan order. */
  function DailyOf(rows: seq<InvoiceReport>, k: int): DailyInvoiceSummary
    requires AllDated(rows)
  {
    var on := OnDay(rows, k);
    DailyInvoiceSummary(k * SecondsPerDay, Amounts(on), |on|, Numbered(on))
  }

  function ItemTotal(items: seq<InvoiceSummary>): real {
    if items == [] then 0.0 else ItemTotal(items[..|items| - 1]) + items[|items| - 1].amountTotal
  }

  /** The bucket invariant: the count is the number of items, the items are
      numbered 1..count, each lies on the bucket's day, and the total is the
      sum of the items' amounts. */
  predicate WellFormed(b: DailyInvoiceSummary) {
    && b.invoiceCount == |b.invoices|
    && (forall j :: 0 <= j < |b.invoices| ==> b.invoices[j].invoiceNumber == j + 1)
    && (forall j :: 0 <= j < |b.invoices| ==> DayOf(b.invoices[j].dateInvoice) * SecondsPerDay == b.date)
    && b.totalAmount == ItemTotal(b.invoices)
  }

  lemma {:induction false} OnDayRowsOnDay(rows: seq<InvoiceReport>, k: int)
    requires AllDated(rows)
    ensures forall j :: 0 <= j < |OnDay(rows, k)| ==> RowDay(OnDay(rows, k)[j]) == k
  {
    if rows != [] {
      OnDayRowsOnDay(rows[..|rows| - 1], k);
    }
  }

  lemma {:induction false} ItemTotalNumbered(on: seq<InvoiceReport>)
    requires AllDated(on)
    ensures ItemTotal(Numbered(on)) == Amounts(on)
  {
    if on != [] {
      var init := on[..|on| - 1];
      ItemTotalNumbered(init);
      assert Numbered(on)[..|on| - 1] == Numbered(init);
    }
  }

  /** Every reference bucket keeps the bucket invariant. */
  lemma DailyOfWellFormed(rows: seq<InvoiceReport>, k: int)
    requires AllDated(rows)
    ensures WellFormed(DailyOf(rows, k))
  {
    var on := OnDay(rows, k);
    OnDayRowsOnDay(rows, k);
    ItemTotalNumbered(on);
  }

  lemma {:induction false} NoRowsOffDays(rows: seq<InvoiceReport>, k: int)
    requires AllDated(rows) && k !in Days(rows)
    ensures OnDay(rows, k) == []
  {
    if rows != [] {
      var init := rows[..|rows| - 1];
      assert Days(init) <= Days(rows) by {
        forall d | d in Days(init) ensures d in Days(rows) {
          var j :| 0 <= j < |init| && RowDay(init[j]) == d;
          assert rows[j] == init[j];
        }
      }
      NoRowsOffDays(init, k);
      assert RowDay(rows[|rows| - 1]) in Days(rows);
    }
  }

  /** The change one more row makes to its day's bucket. */
  function Extend(b: DailyInvoiceSummary, r: InvoiceReport): DailyInvoiceSummary
    requires r.date.Some?
  {
    DailyInvoiceSummary(b.date, b.totalAmount + r.priceTotal, b.invoiceCount + 1,
                        b.invoices + [ItemOf(r, b.invoiceCount + 1)])
  }

  lemma DailyOfStep(rows: seq<InvoiceReport>, i: int, k: int)
    requires AllDated(rows) && 0 <= i < |rows|
    ensures AllDated(rows[..i]) && AllDated(rows[..i + 1])
    ensures DailyOf(rows[..i + 1], k)
            == if RowDay(rows[i]) == k then Extend(DailyOf(rows[..i], k), rows[i]) else DailyOf(rows[..i], k)
  {
    var pre, cur := rows[..i], rows[..i + 1];
    assert cur[..i] == pre && cur[i] == rows[i];
    if RowDay(rows[i]) == k {
      var on := OnDay(pre, k);
      assert OnDay(cur, k) == on + [rows[i]];
      assert (on + [rows[i]])[..|on|] == on;
      assert Numbered(on + [rows[i]]) == Numbered(on) + [ItemOf(rows[i], |on| + 1)];
    } else {
      assert OnDay(cur, k) == OnDay(pre, k);
    }
  }

  lemma DaysStep(rows: seq<InvoiceReport>, i: int)
    requires AllDated(rows) && 0 <= i < |rows|
    ensures AllDated(rows[..i]) && AllDated(rows[..i + 1])
    ensures Days(rows[..i + 1]) == Days(rows[..i]) + {RowDay(rows[i])}
  {
    var pre, cur := rows[..i], rows[..i + 1];
    assert forall j :: 0 <= j < i ==> cur[j] == pre[j];
    assert cur[i] == rows[i];
  }

  /** The bucket a row joins: the day's bucket so far, or a fresh one at its
      midnight. */
  function Opened(dateMap: map<int, DailyInvoiceSummary>, key: int): DailyInvoiceSummary {
    if key in dateMap then dateMap[key] else DailyInvoiceSummary(key * SecondsPerDay, 0.0, 0, [])
  }

  /** The map after one more row. */
  function AddRow(dateMap: map<int, DailyInvoiceSummary>, r: InvoiceReport): map<int, DailyInvoiceSummary>
    requires r.date.Some?
  {
    dateMap[RowDay(r) := Extend(Opened(dateMap, RowDay(r)), r)]
  }

  /** One row adds its day to the map's keys. */
  lemma KeysStep(rows: seq<InvoiceReport>, i: int, dateMap: map<int, DailyInvoiceSummary>)
    requires AllDated(rows) && 0 <= i < |rows|
    requires dateMap.Keys == Days(rows[..i])
    ensures AllDated(rows[..i + 1])
    ensures AddRow(dateMap, rows[i]).Keys == Days(rows[..i + 1])
  {
    DaysStep(rows, i);
  }

  /** One row keeps every entry of the map equal to its reference bucket. */
  lemma EntriesStep(rows: seq<InvoiceReport>, i: int, dateMap: map<int, DailyInvoiceSummary>)
    requires AllDated(rows) && 0 <= i < |rows|
    requires dateMap.Keys == Days(rows[..i])
    requires forall k :: k in dateMap ==> dateMap[k] == DailyOf(rows[..i], k)
    ensures AllDated(rows[..i + 1])
    ensures forall k :: k in AddRow(dateMap, rows[i]) ==> AddRow(dateMap, rows[i])[k] == DailyOf(rows[..i + 1], k)
  {
    var key := RowDay(rows[i]);
    if key !in dateMap {
      NoRowsOffDays(rows[..i], key);
    }
    assert Opened(dateMap, key) == DailyOf(rows[..i], key);
    DaysStep(rows, i);
    var m := AddRow(dateMap, rows[i]);
    forall k | k in m ensures m[k] == DailyOf(rows[..i + 1], k) {
      DailyOfStep(rows, i, k);
    }
  }

  lemma AmountsStep(rows: seq<InvoiceReport>, i: int)
    requires 0 <= i < |rows|
    ensures Amounts(rows[..i + 1]) == Amounts(rows[..i]) + rows[i].priceTotal
  {
    assert rows[..i + 1][..i] == rows[..i];
  }

  /** The loop body: the row's day gets a fresh bucket at its midnight when it
      has none yet, then the row is counted, added to the total and appended
      with its 1-based position of the day. */
  method AddToBucket(dateMap: map<int, DailyInvoiceSummary>, r: InvoiceReport)
    returns (updated: map<int, DailyInvoiceSummary>)
    requires r.date.Some?
    ensures updated == AddRow(dateMap, r)
    ensures updated.Keys == dateMap.Keys + {RowDay(r)}
    ensures forall k :: k in dateMap && k != RowDay(r) ==> updated[k] == dateMap[k]
    ensures var b, b' := Opened(dateMap, RowDay(r)), updated[RowDay(r)];
      && b'.date == b.date && b'.invoiceCount == b.invoiceCount + 1
      && b'.totalAmount == b.totalAmount + r.priceTotal
      && b'.invoices == b.invoices + [ItemOf(r, b.invoiceCount + 1)]
    ensures RowDay(r) !in dateMap ==> updated[RowDay(r)].date == RowDay(r) * SecondsPerDay
  {
    var key := DayOf(r.date.value);
    updated := dateMap;
    if key !in updated {
      updated := updated[key := DailyInvoiceSummary(key * SecondsPerDay, 0.0, 0, [])];
    }
    var summary := updated[key];
    var amount := r.priceTotal;
    summary := summary.(totalAmount := summary.totalAmount + amount, invoiceCount := summary.invoiceCount + 1);
    summary := summary.(invoices := summary.invoices
                          + [InvoiceSummary(summary.invoiceCount, r.id, r.displayName, amount, r.date.value)]);
    updated := updated[key := summary];
  }

  /** The bucketing loop: one bucket per day that has rows, each equal to the
      reference bucket of its day, with the running grand total and count. */
  method BucketByDay(rows: seq<InvoiceReport>)
    returns (dateMap: map<int, DailyInvoiceSummary>, totalAmount: real, totalInvoices: int)
    requires AllDated(rows)
    ensures dateMap.Keys == Days(rows)
    ensures forall k :: k in dateMap ==> dateMap[k] == DailyOf(rows, k)
    ensures totalAmount == Amounts(rows) && totalInvoices == |rows|
  {
    dateMap := map[];
    totalAmount, totalInvoices := 0.0, 0;
    var i := 0;
    while i < |rows|
      invariant 0 <= i <= |rows|
      invariant AllDated(rows[..i])
      invariant dateMap.Keys == Days(rows[..i])
      invariant forall k :: k in dateMap ==> dateMap[k] == DailyOf(rows[..i], k)
      invariant totalAmount == Amounts(rows[..i]) && totalInvoices == i
    {
      KeysStep(rows, i, dateMap);
      EntriesStep(rows, i, dateMap);
      AmountsStep(rows, i);
      dateMap := AddToBucket(dateMap, rows[i]);
      totalAmount := totalAmount + rows[i].priceTotal;
      totalInvoices := totalInvoices + 1;
      i := i + 1;
    }
    assert rows[..|rows|] == rows;
  }

  /** Strictly decreasing dates: newest first, no date twice. */
  predicate NewestFirstOrder(bs: seq<DailyInvoiceSummary>) {
    forall i, j :: 0 <= i < j < |bs| ==> bs[i].date > bs[j].date
  }

  function BucketDays(bs: seq<DailyInvoiceSummary>): set<int> {
    set j | 0 <= j < |bs| :: DayOf(bs[j].date)
  }

  lemma HasElement(s: set<int>)
    requires s != {}
    ensures exists x :: x in s
  {
    if forall x :: x !in s {
      assert false;
    }
  }

  /** The largest day of a non-empty set. */
  method Latest(days: set<int>) returns (m: int)
    requires days != {}
    ensures m in days && forall k :: k in days ==> k <= m
  {
    HasElement(days);
    m :| m in days;
    var rest := days - {m};
    while rest != {}
      invariant rest <= days && m in days
      invariant forall d :: d in days && d !in rest ==> d <= m
      decreases |rest|
    {
      HasElement(rest);
      var k :| k in rest;
      if k > m {
        m := k;
      }
      rest := rest - {k};
    }
  }

  /** Every bucket listed is the map's entry for its own day. */
  predicate FromMap(bs: seq<DailyInvoiceSummary>, dateMap: map<int, DailyInvoiceSummary>) {
    forall j :: 0 <= j < |bs| ==> DayOf(bs[j].date) in dateMap && bs[j] == dateMap[DayOf(bs[j].date)]
  }

  /** The state of the selection loop: the buckets listed so far, newest first,
      are all later than the days still to be listed. */
  predicate SelectionState(bs: seq<DailyInvoiceSummary>, remaining: set<int>, dateMap: map<int, DailyInvoiceSummary>) {
    && remaining <= dateMap.Keys
    && BucketDays(bs) + remaining == dateMap.Keys
    && FromMap(bs, dateMap)
    && (forall j, k :: 0 <= j < |bs| && k in remaining ==> DayOf(bs[j].date) > k)
    && NewestFirstOrder(bs)
  }

  lemma SelectLatest(bs: seq<DailyInvoiceSummary>, remaining: set<int>,
                     dateMap: map<int, DailyInvoiceSummary>, latest: int)
    requires forall k :: k in dateMap ==> dateMap[k].date == k * SecondsPerDay
    requires SelectionState(bs, remaining, dateMap)
    requires latest in remaining && forall k :: k in remaining ==> k <= latest
    ensures SelectionState(bs + [dateMap[latest]], remaining - {latest}, dateMap)
  {
    var b := dateMap[latest];
    var bs' := bs + [b];
    MidnightDay(latest);
    BucketDaysSnoc(bs, b);
    assert forall j :: 0 <= j < |bs| ==> bs'[j] == bs[j];
    forall i, j | 0 <= i < j < |bs'| ensures bs'[i].date > bs'[j].date {
      if j == |bs| {
        var d := DayOf(bs[i].date);
        assert bs[i].date == d * SecondsPerDay;
      }
    }
  }

  /** Collecting the buckets and sorting them by date, newest first. */
  method NewestFirst(dateMap: map<int, DailyInvoiceSummary>) returns (buckets: seq<DailyInvoiceSummary>)
    requires forall k :: k in dateMap ==> dateMap[k].date == k * SecondsPerDay
    ensures NewestFirstOrder(buckets)
    ensures BucketDays(buckets) == dateMap.Keys
    ensures forall j :: 0 <= j < |buckets| ==>
              DayOf(buckets[j].date) in dateMap && buckets[j] == dateMap[DayOf(buckets[j].date)]
  {
    var remaining := dateMap.Keys;
    buckets := [];
    while remaining != {}
      invariant SelectionState(buckets, remaining, dateMap)
      decreases |remaining|
    {
      var latest := Latest(remaining);
      SelectLatest(buckets, remaining, dateMap, latest);
      buckets := buckets + [dateMap[latest]];
      remaining := remaining - {latest};
    }
  }

  lemma BucketDaysSnoc(bs: seq<DailyInvoiceSummary>, b: DailyInvoiceSummary)
    ensures BucketDays(bs + [b]) == BucketDays(bs) + {DayOf(b.date)}
  {
    assert forall j :: 0 <= j < |bs| ==> (bs + [b])[j] == bs[j];
    assert (bs + [b])[|bs|] == b;
  }

  /** `buckets` is the daily summary of `rows`: newest first, one bucket for
      each day that has rows and no other, each the reference bucket of its day. */
  predicate IsDailySummary(buckets: seq<DailyInvoiceSummary>, rows: seq<InvoiceReport>)
    requires AllDated(rows)
  {
    && NewestFirstOrder(buckets)
    && BucketDays(buckets) == Days(rows)
    && forall j :: 0 <= j < |buckets| ==> buckets[j] == DailyOf(rows, DayOf(buckets[j].date))
  }

  function SumCounts(bs: seq<DailyInvoiceSummary>): int {
    if bs == [] then 0 else bs[0].invoiceCount + SumCounts(bs[1..])
  }

  function SumTotals(bs: seq<DailyInvoiceSummary>): real {
    if bs == [] then 0.0 else bs[0].totalAmount + SumTotals(bs[1..])
  }

  /** The number and the total of the rows whose day is in `days`. */
  function CountIn(rows: seq<InvoiceReport>, days: set<int>): int
    requires AllDated(rows)
  {
    if rows == [] then 0
    else CountIn(rows[..|rows| - 1], days) + (if RowDay(rows[|rows| - 1]) in days then 1 else 0)
  }

  function AmountIn(rows: seq<InvoiceReport>, days: set<int>): real
    requires AllDated(rows)
  {
    if rows == [] then 0.0
    else AmountIn(rows[..|rows| - 1], days) + (if RowDay(rows[|rows| - 1]) in days then rows[|rows| - 1].priceTotal else 0.0)
  }

  lemma {:induction false} AddDay(rows: seq<InvoiceReport>, days: set<int>, k: int)
    requires AllDated(rows) && k !in days
    ensures CountIn(rows, days + {k}) == CountIn(rows, days) + |OnDay(rows, k)|
    ensures AmountIn(rows, days + {k}) == AmountIn(rows, days) + Amounts(OnDay(rows, k))
  {
    if rows != [] {
      var init, last := rows[..|rows| - 1], rows[|rows| - 1];
      AddDay(init, days, k);
      if RowDay(last) == k {
        var on := OnDay(init, k);
        assert (on + [last])[..|on|] == on;
      } else {
        assert OnDay(rows, k) == OnDay(init, k);
        assert (RowDay(last) in days + {k}) == (RowDay(last) in days);
      }
    }
  }

  lemma {:induction false} AllDaysCovered(rows: seq<InvoiceReport>, days: set<int>)
    requires AllDated(rows) && Days(rows) <= days
    ensures CountIn(rows, days) == |rows| && AmountIn(rows, days) == Amounts(rows)
  {
    if rows != [] {
      var init := rows[..|rows| - 1];
      assert Days(init) <= Days(rows) by {
        forall d | d in Days(init) ensures d in Days(rows) {
          var j :| 0 <= j < |init| && RowDay(init[j]) == d;
          assert rows[j] == init[j];
        }
      }
      AllDaysCovered(init, days);
      assert RowDay(rows[|rows| - 1]) in Days(rows);
    }
  }

  lemma {:induction false} SumsOverBuckets(bs: seq<DailyInvoiceSummary>, rows: seq<InvoiceReport>)
    requires AllDated(rows) && NewestFirstOrder(bs)
    requires forall j :: 0 <= j < |bs| ==> bs[j] == DailyOf(rows, DayOf(bs[j].date))
    ensures SumCounts(bs) == CountIn(rows, BucketDays(bs))
    ensures SumTotals(bs) == AmountIn(rows, BucketDays(bs))
  {
    if bs == [] {
      assert BucketDays(bs) == {};
      AllDaysCoveredEmpty(rows);
    } else {
      var tail := bs[1..];
      var d := DayOf(bs[0].date);
      assert forall j :: 0 <= j < |tail| ==> tail[j] == bs[j + 1];
      SumsOverBuckets(tail, rows);
      assert BucketDays(bs) == BucketDays(tail) + {d} by {
        forall e | e in BucketDays(bs) ensures e in BucketDays(tail) + {d} {
          var j :| 0 <= j < |bs| && DayOf(bs[j].date) == e;
          if j > 0 { assert tail[j - 1] == bs[j]; }
        }
      }
      assert d !in BucketDays(tail) by {
        forall j | 0 <= j < |tail| ensures DayOf(tail[j].date) != d {
          var e := DayOf(tail[j].date);
          assert tail[j] == bs[j + 1];
          assert bs[0].date == d * SecondsPerDay && tail[j].date == e * SecondsPerDay;
          assert bs[0].date > tail[j].date;
        }
      }
      AddDay(rows, BucketDays(tail), d);
    }
  }

  lemma {:induction false} AllDaysCoveredEmpty(rows: seq<InvoiceReport>)
    requires AllDated(rows)
    ensures CountIn(rows, {}) == 0 && AmountIn(rows, {}) == 0.0
  {
    if rows != [] {
      AllDaysCoveredEmpty(rows[..|rows| - 1]);
    }
  }

  /** The summary invariants: the bucket counts add up to the number of rows,
      the bucket totals to the grand total, every bucket keeps the bucket
      invariant, and no day appears twice. */
  lemma DailySummaryTotals(buckets: seq<DailyInvoiceSummary>, rows: seq<InvoiceReport>)
    requires AllDated(rows) && IsDailySummary(buckets, rows)
    ensures SumCounts(buckets) == |rows|
    ensures SumTotals(buckets) == Amounts(rows)
    ensures forall j :: 0 <= j < |buckets| ==> WellFormed(buckets[j])
    ensures forall i, j :: 0 <= i < j < |buckets| ==> DayOf(buckets[i].date) > DayOf(buckets[j].date)
  {
    SumsOverBuckets(buckets, rows);
    AllDaysCovered(rows, Days(rows));
    forall j | 0 <= j < |buckets| ensures WellFormed(buckets[j]) {
      DailyOfWellFormed(rows, DayOf(buckets[j].date));
    }
    forall i, j | 0 <= i < j < |buckets| ensures DayOf(buckets[i].date) > DayOf(buckets[j].date) {
      var a, b := DayOf(buckets[i].date), DayOf(buckets[j].date);
      assert buckets[i].date == a * SecondsPerDay && buckets[j].date == b * SecondsPerDay;
    }
  }

  /** A posted row with an id, an amount and an invoice date, nothing else set. */
  function DatedRow(id: int, amount: real, date: Instant): InvoiceReport {
    InvoiceReport(id, "", None, None, None, amount, 0.0, 0.0, None, None, Some(date), None)
  }

  lemma BucketDayListed(buckets: seq<DailyInvoiceSummary>, j: int)
    requires 0 <= j < |buckets|
    ensures DayOf(buckets[j].date) in BucketDays(buckets)
  {
  }

  /** Buckets of strictly decreasing days covering exactly two days are two,
      the later day first. */
  lemma TwoDays(buckets: seq<DailyInvoiceSummary>, later: int, earlier: int)
    requires BucketDays(buckets) == {later, earlier} && later > earlier
    requires forall i, j :: 0 <= i < j < |buckets| ==> DayOf(buckets[i].date) > DayOf(buckets[j].date)
    ensures |buckets| == 2 && DayOf(buckets[0].date) == later && DayOf(buckets[1].date) == earlier
  {
    var days := BucketDays(buckets);
    assert later in days;
    var il :| 0 <= il < |buckets| && DayOf(buckets[il].date) == later;
    assert earlier in days;
    var ie :| 0 <= ie < |buckets| && DayOf(buckets[ie].date) == earlier;
    assert DayOf(buckets[0].date) in days;
    if |buckets| > 2 {
      BucketDayListed(buckets, 1);
      BucketDayListed(buckets, 2);
      assert false;
    }
  }

  /** The rows of the worked example below. Day 19723 is 2024-01-01. */
  function ExampleRows(): seq<InvoiceReport> {
    var jan1, jan2 := 19723 * SecondsPerDay, 19724 * SecondsPerDay;
    [DatedRow(1, 10.0, jan2 + 3600), DatedRow(2, 20.0, jan2 + 7200),
     DatedRow(3, 30.0, jan2 + 60), DatedRow(4, 5.0, jan1 + 43200)]
  }

  lemma ExampleDays()
    ensures AllDated(ExampleRows()) && Days(ExampleRows()) == {19724, 19723}
  {
    var rows := ExampleRows();
    assert RowDay(rows[0]) == 19724 && RowDay(rows[1]) == 19724 && RowDay(rows[2]) == 19724;
    assert RowDay(rows[3]) == 19723;
    forall d | d in Days(rows) ensures d in {19724, 19723} {
      var j :| 0 <= j < |rows| && RowDay(rows[j]) == d;
    }
    assert RowDay(rows[0]) in Days(rows) && RowDay(rows[3]) in Days(rows);
  }

  /** The three rows of 2024-01-02 in the example. */
  lemma ExampleSecondDay()
    requires AllDated(ExampleRows())
    ensures DailyOf(ExampleRows(), 19724).totalAmount == 60.0 && DailyOf(ExampleRows(), 19724).invoiceCount == 3
  {
    var rows := ExampleRows();
    var r0, r1, r2, r3 := rows[0], rows[1], rows[2], rows[3];
    assert rows[..3] == [r0, r1, r2] && [r0, r1, r2][..2] == [r0, r1] && [r0, r1][..1] == [r0] && [r0][..0] == [];
    assert OnDay([r0], 19724) == [r0];
    assert OnDay([r0, r1], 19724) == [r0, r1];
    assert OnDay([r0, r1, r2], 19724) == [r0, r1, r2];
    assert OnDay(rows, 19724) == [r0, r1, r2];
    assert Amounts([r0]) == 10.0;
    assert Amounts([r0, r1]) == Amounts([r0]) + 20.0;
    assert Amounts([r0, r1, r2]) == Amounts([r0, r1]) + 30.0;
  }

  /** The one row of 2024-01-01 in the example. */
  lemma ExampleFirstDay()
    requires AllDated(ExampleRows())
    ensures DailyOf(ExampleRows(), 19723).totalAmount == 5.0 && DailyOf(ExampleRows(), 19723).invoiceCount == 1
  {
    var rows := ExampleRows();
    var r0, r1, r2, r3 := rows[0], rows[1], rows[2], rows[3];
    assert rows[..3] == [r0, r1, r2] && [r0, r1, r2][..2] == [r0, r1] && [r0, r1][..1] == [r0] && [r0][..0] == [];
    assert OnDay([r0], 19723) == [];
    assert OnDay([r0, r1], 19723) == [];
    assert OnDay([r0, r1, r2], 19723) == [];
    assert OnDay(rows, 19723) == [r3];
    assert [r3][..0] == [] && Amounts([r3]) == 5.0;
  }

  /** Three invoices on 2024-01-02 (10, 20 and 30) and one on 2024-01-01 (5)
      summarise to exactly two buckets: the 2nd with total 60 and count 3,
      then the 1st with total 5 and count 1. */
  lemma TwoDayExample(buckets: seq<DailyInvoiceSummary>)
    requires AllDated(ExampleRows()) && IsDailySummary(buckets, ExampleRows())
    ensures |buckets| == 2
    ensures buckets[0].date == 19724 * SecondsPerDay && buckets[0].totalAmount == 60.0 && buckets[0].invoiceCount == 3
    ensures buckets[1].date == 19723 * SecondsPerDay && buckets[1].totalAmount == 5.0 && buckets[1].invoiceCount == 1
  {
    ExampleDays();
    DailySummaryTotals(buckets, ExampleRows());
    TwoDays(buckets, 19724, 19723);
    ExampleSecondDay();
    ExampleFirstDay();
  }
}
