/** Page arithmetic for list queries: the page a caller asks for, the page
    size, and the total row count a count query reports back. The LIMIT
    clause carries the page size and the offset of the page's first row. */
module Paging {

  /** Go's uint on a 64-bit platform. */
  const U64Size: int := 0x1_0000_0000_0000_0000
  newtype u64 = x: int | 0 <= x < 0x1_0000_0000_0000_0000

  const DefaultPageSize: u64 := 12
  const LimitClause: string := "LIMIT ? OFFSET ?"

  /** (CurrentPage - 1) * PageSize in uint arithmetic, which wraps modulo 2^64;
      without a wrap it is the plain product. */
  function Offset(currentPage: u64, pageSize: u64): (r: u64)
    ensures 1 <= currentPage && (currentPage as int - 1) * pageSize as int < U64Size ==>
              r as int == (currentPage as int - 1) * pageSize as int
  {
    Wrap((currentPage as int - 1) * pageSize as int)
  }

  /** An integer reduced into uint's range, as Go's uint arithmetic does. */
  function Wrap(x: int): (r: u64)
    ensures 0 <= x < U64Size ==> r as int == x
    ensures (r as int - x) % U64Size == 0
  {
    (x % U64Size) as u64
  }

  /** The number of pages that hold `total` rows: the quotient rounded up. */
  function PageCount(total: u64, pageSize: u64): (n: u64)
    requires pageSize > 0
    ensures n as int * pageSize as int >= total as int
    ensures n > 0 ==> (n as int - 1) * pageSize as int < total as int
    ensures n <= total
  {
    CeilDivBounds(total as int, pageSize as int);
    CeilDiv(total as int, pageSize as int) as u64
  }

  function CeilDiv(t: nat, p: int): nat
    requires p > 0
  {
    if t % p == 0 then t / p else t / p + 1
  }

  lemma CeilDivBounds(t: nat, p: int)
    requires p > 0
    ensures CeilDiv(t, p) * p >= t
    ensures CeilDiv(t, p) > 0 ==> (CeilDiv(t, p) - 1) * p < t
    ensures CeilDiv(t, p) <= t
  {
    var q, r := t / p, t % p;
    assert t == q * p + r && 0 <= r < p;
    MulAtLeast(q, p);
    if r != 0 {
      assert (q + 1) * p == q * p + p;
    } else if q > 0 {
      assert (q - 1) * p == q * p - p;
    }
  }

  lemma MulAtLeast(a: nat, b: int)
    requires b >= 1
    ensures a <= a * b
  {
  }

  lemma MulMonotone(a: int, b: int, c: nat)
    requires a <= b
    ensures a * c <= b * c
  {
  }

  class Paging {
    var currentPage: u64
    var pageSize: u64
    var total: u64

    /** The literal Paging{currentPage, pageSize, total}. */
    constructor (currentPage: u64, pageSize: u64, total: u64)
      ensures this.currentPage == currentPage && this.pageSize == pageSize && this.total == total
    {
      this.currentPage := currentPage;
      this.pageSize := pageSize;
      this.total := total;
    }

    /** A page and a page size a LIMIT clause can use. */
    predicate Normalized()
      reads this
    {
      currentPage >= 1 && pageSize >= 1
    }

    /** A zero page becomes the first page and a zero size the default size;
        everything else is kept. */
    method Normalize()
      modifies this
      ensures Normalized()
      ensures currentPage == (if old(currentPage) == 0 then 1 else old(currentPage))
      ensures pageSize == (if old(pageSize) == 0 then DefaultPageSize else old(pageSize))
      ensures total == old(total)
    {
      if currentPage == 0 {
        currentPage := 1;
      }
      if pageSize == 0 {
        pageSize := DefaultPageSize;
      }
    }

    /** The LIMIT clause and its arguments: the page size, then the offset. */
    function BuildQuery(): (r: (string, seq<u64>))
      reads this
      ensures r.0 == LimitClause && |r.1| == 2 && r.1[0] == pageSize
      ensures Normalized() && (currentPage as int - 1) * pageSize as int < U64Size ==>
                r.1[1] as int == (currentPage as int - 1) * pageSize as int
    {
      (LimitClause, [pageSize, Offset(currentPage, pageSize)])
    }

    /** The number of the last page: the fewest pages that hold every row. */
    function LastPage(): (n: u64)
      reads this
      requires pageSize > 0
      ensures n as int * pageSize as int >= total as int
      ensures n > 0 ==> (n as int - 1) * pageSize as int < total as int
    {
      PageCount(total, pageSize)
    }
  }

  /** NewPaging: the first page of the default size over `total` rows. */
  method NewPaging(total: u64) returns (p: Paging)
    ensures fresh(p)
    ensures p.currentPage == 1 && p.pageSize == DefaultPageSize && p.total == total
  {
    p := new Paging(1, DefaultPageSize, total);
  }

  /** The zero Paging, normalized: the first page of the default size. */
  method NormalizedZero() returns (p: Paging)
    ensures p.currentPage == 1 && p.pageSize == DefaultPageSize && p.total == 0
  {
    p := new Paging(0, 0, 0);
    p.Normalize();
  }

  // ---- what the clause means ----

  /** Every page up to the last one starts at a row that exists. */
  lemma PagesWithinTotal(p: Paging)
    requires p.Normalized() && p.currentPage <= p.LastPage()
    ensures p.BuildQuery().1[1] < p.total
  {
    var n := p.LastPage();
    MulMonotone(p.currentPage as int - 1, n as int - 1, p.pageSize as int);
  }

  /** A page past the last one starts at or after the last row, so it is empty. */
  lemma PastLastPageIsEmpty(p: Paging)
    requires p.Normalized() && p.currentPage > p.LastPage()
    requires (p.currentPage as int - 1) * p.pageSize as int < U64Size
    ensures p.BuildQuery().1[1] >= p.total
  {
    var n := p.LastPage();
    MulMonotone(n as int, p.currentPage as int - 1, p.pageSize as int);
  }

  /** Consecutive pages are adjacent: the next page starts one page size later. */
  lemma NextPageFollows(currentPage: u64, pageSize: u64)
    requires 1 <= currentPage < 0xFFFF_FFFF_FFFF_FFFF
    requires currentPage as int * pageSize as int < U64Size
    ensures Offset(currentPage + 1, pageSize) as int == Offset(currentPage, pageSize) as int + pageSize as int
  {
    MulMonotone(currentPage as int - 1, currentPage as int, pageSize as int);
  }

  /** The four pagings of the test table. */
  lemma BuildQueryVectors(p: Paging)
    ensures (p.currentPage, p.pageSize, p.total) == (1, 10, 100) ==>
              p.BuildQuery() == (LimitClause, [10, 0]) && p.LastPage() == 10
    ensures (p.currentPage, p.pageSize, p.total) == (3, 10, 100) ==>
              p.BuildQuery() == (LimitClause, [10, 20]) && p.LastPage() == 10
    ensures (p.currentPage, p.pageSize, p.total) == (1, 3, 100) ==>
              p.BuildQuery() == (LimitClause, [3, 0]) && p.LastPage() == 34
    ensures (p.currentPage, p.pageSize, p.total) == (6, 3, 100) ==>
              p.BuildQuery() == (LimitClause, [3, 15]) && p.LastPage() == 34
  {
  }
}
