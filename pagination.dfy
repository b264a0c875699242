/** Page clamping, offsets and page counts of the paged invoice queries. */
module Pagination {
  import opened Decimal

  const MaxPageSize: int := 500

  /** A clamped page request: the page shown, its size and the rows skipped. */
  datatype Window = Window(page: int, pageSize: int, offset: int)

  /** A page below 1 becomes 1, a size outside 1..500 becomes 500, and the
      offset skips every row of the earlier pages. */
  function Paginate(page: int, pageSize: int): (w: Window)
    ensures w.page >= 1 && 1 <= w.pageSize <= MaxPageSize
    ensures w.page == (if page < 1 then 1 else page)
    ensures (1 <= pageSize <= MaxPageSize ==> w.pageSize == pageSize)
         && (pageSize < 1 || pageSize > MaxPageSize ==> w.pageSize == MaxPageSize)
    ensures w.offset == Offset(w.page, w.pageSize) && w.offset >= 0
  {
    var p := if page < 1 then 1 else page;
    var s := if pageSize < 1 || pageSize > MaxPageSize then MaxPageSize else pageSize;
    OffsetSkipsEarlierPages(p, s);
    Window(p, s, Offset(p, s))
  }

  function Offset(page: int, pageSize: int): int {
    (page - 1) * pageSize
  }

  /** Go's integer division, which truncates toward zero: the quotient is
      rounded down for a non-negative dividend and up for a negative one. */
  function Quot(a: int, b: int): (q: int)
    requires b > 0
    ensures a >= 0 ==> q * b <= a < q * b + b
    ensures a < 0 ==> q * b - b < a <= q * b
  {
    if a >= 0 then a / b else -((-a) / b)
  }

  /** `(totalCount + pageSize - 1) / pageSize` in Go's division. */
  function TotalPages(totalCount: int, pageSize: int): (tp: int)
    requires pageSize >= 1
    ensures totalCount >= 0 ==> tp >= 0 && (tp == 0 <==> totalCount == 0)
  {
    if totalCount >= 0 then QuotSign(totalCount + pageSize - 1, pageSize); Quot(totalCount + pageSize - 1, pageSize)
    else Quot(totalCount + pageSize - 1, pageSize)
  }

  /** A non-negative quotient is 0 exactly when the dividend is below the divisor. */
  lemma QuotSign(a: int, b: int)
    requires a >= 0 && b >= 1
    ensures a / b >= 0 && (a / b == 0 <==> a < b)
  {
    var q, r := a / b, a % b;
    assert a == q * b + r && 0 <= r < b;
    if q >= 1 {
      assert q * b >= b;
    }
  }

  /** Page `page` starts right after the rows of pages 1..page-1. */
  lemma OffsetSkipsEarlierPages(page: int, pageSize: int)
    requires page >= 1 && pageSize >= 1
    ensures Offset(page, pageSize) >= 0
    ensures Offset(page + 1, pageSize) == Offset(page, pageSize) + pageSize
  {
    assert Offset(page + 1, pageSize) == (page - 1) * pageSize + pageSize;
  }

  /** The page count is the ceiling of `totalCount / pageSize`: the fewest pages
      that hold every row; no rows means no pages. */
  lemma TotalPagesIsCeiling(totalCount: int, pageSize: int)
    requires totalCount >= 0 && pageSize >= 1
    ensures TotalPages(totalCount, pageSize) >= 0
    ensures (TotalPages(totalCount, pageSize) - 1) * pageSize < totalCount
    ensures totalCount <= TotalPages(totalCount, pageSize) * pageSize
    ensures TotalPages(totalCount, pageSize) == 0 <==> totalCount == 0
  {
    var a := totalCount + pageSize - 1;
    var q := a / pageSize;
    var r := a % pageSize;
    assert a == q * pageSize + r && 0 <= r < pageSize;
    assert TotalPages(totalCount, pageSize) == q;
    assert (q - 1) * pageSize == q * pageSize - pageSize;
    if totalCount == 0 {
      assert q * pageSize <= pageSize - 1;
    } else {
      assert q * pageSize >= totalCount + pageSize - 1 - r;
    }
  }

  /** Every row index below the total falls in exactly the window of one page
      among 1..totalPages. */
  lemma EveryRowOnOnePage(totalCount: int, pageSize: int, row: int)
    requires 0 <= row < totalCount && pageSize >= 1
    ensures var p := row / pageSize + 1;
      && 1 <= p <= TotalPages(totalCount, pageSize)
      && Offset(p, pageSize) <= row < Offset(p, pageSize) + pageSize
  {
    var p := row / pageSize + 1;
    var r := row % pageSize;
    assert row == (p - 1) * pageSize + r && 0 <= r < pageSize;
    assert Offset(p, pageSize) == (p - 1) * pageSize;
    TotalPagesIsCeiling(totalCount, pageSize);
  }

  /** Reduction of an integer to the int64 range, as Go's int arithmetic wraps. */
  function WrapInt64(x: int): (r: int)
    ensures MinInt64 <= r <= MaxInt64
    ensures MinInt64 <= x <= MaxInt64 ==> r == x
    ensures (r - x) % 0x1_0000_0000_0000_0000 == 0
  {
    (x - MinInt64) % 0x1_0000_0000_0000_0000 + MinInt64
  }

  /** The offset exactly as the repository computes it, in 64-bit arithmetic. */
  function OffsetAsWritten(page: int, pageSize: int): int {
    WrapInt64((page - 1) * pageSize)
  }

  /** Page 2^62 + 1 of size 500 is a valid query value, yet its 64-bit offset
      wraps to 0, so the repository would serve the first page under that
      page number; page 2^61 + 1 wraps to a negative offset. */
  lemma OffsetAsWrittenWraps()
    ensures Paginate(0x4000_0000_0000_0001, 500).page == 0x4000_0000_0000_0001
    ensures OffsetAsWritten(0x4000_0000_0000_0001, 500) == 0
    ensures Offset(0x4000_0000_0000_0001, 500) == 500 * 0x4000_0000_0000_0000
    ensures OffsetAsWritten(0x2000_0000_0000_0001, 500) < 0
  {
  }

  /** Below the wrap-around the computed offset is the intended one. */
  lemma OffsetAsWrittenAgrees(page: int, pageSize: int)
    requires 1 <= page && 1 <= pageSize <= MaxPageSize
    requires (page - 1) * pageSize <= MaxInt64
    ensures OffsetAsWritten(page, pageSize) == Offset(page, pageSize)
  {
    OffsetSkipsEarlierPages(page, pageSize);
  }
}
