/** app/utils/pagination.py. */
module Pagination {

  /** Python's `//`, which rounds towards minus infinity. */
  function FloorDiv(a: int, b: int): int
    requires b > 0
  {
    a / b
  }

  /** `PaginationParams.offset`; the schema keeps both numbers at 1 or more. */
  function Offset(page: nat, pageSize: nat): nat
    requires page >= 1
  {
    var before: nat := page - 1;
    Product(before, pageSize)
  }

  /** Kept apart so that proofs reason about products by the lemmas below only. */
  function Product(a: int, b: nat): (r: int)
    ensures a >= 0 ==> r >= 0
  {
    if a >= 0 then NonNegative(a, b); a * b else a * b
  }

  lemma NonNegative(a: nat, b: nat)
    ensures a * b >= 0
  {
  }

  lemma ProductNext(a: int, b: nat)
    ensures Product(a + 1, b) == Product(a, b) + b
  {
  }

  lemma {:induction false} ProductMonotone(a: int, c: int, b: nat)
    requires a <= c
    ensures Product(a, b) <= Product(c, b)
    decreases c - a
  {
    if a < c {
      ProductMonotone(a, c - 1, b);
      ProductNext(c - 1, b);
    }
  }

  /** `Page.total_pages`: 0 for a page size of at most 0, otherwise the ceiling. */
  function TotalPages(totalItems: int, pageSize: int): int {
    if pageSize <= 0 then 0 else -FloorDiv(-totalItems, pageSize)
  }

  function Min(a: int, b: int): int {
    if a <= b then a else b
  }

  /** The rows OFFSET/LIMIT select. */
  function Slice<T>(rows: seq<T>, offset: nat, limit: nat): seq<T> {
    if offset >= |rows| then [] else rows[offset..Min(offset + limit, |rows|)]
  }

  function PageOf<T>(rows: seq<T>, page: nat, pageSize: nat): seq<T>
    requires page >= 1
  {
    Slice(rows, Offset(page, pageSize), pageSize)
  }

  /** Pages 1 to `n`, one after the other. */
  function Pages<T>(rows: seq<T>, n: nat, pageSize: nat): seq<T> {
    if n == 0 then [] else Pages(rows, n - 1, pageSize) + PageOf(rows, n, pageSize)
  }

  lemma {:induction false} PagesArePrefix<T>(rows: seq<T>, n: nat, pageSize: nat)
    ensures Pages(rows, n, pageSize) == rows[..Min(Product(n, pageSize), |rows|)]
  {
    if n > 0 {
      PagesArePrefix(rows, n - 1, pageSize);
      ProductNext(n - 1, pageSize);
    }
  }

  /** `total_pages` is the least number of pages that hold all rows. */
  lemma TotalPagesIsCeiling(totalItems: int, pageSize: nat)
    requires totalItems >= 0 && pageSize >= 1
    ensures var n := TotalPages(totalItems, pageSize);
      n >= 0 && Product(n, pageSize) >= totalItems && Product(n - 1, pageSize) < totalItems + if n == 0 then 1 else 0
  {
    var d, m := -totalItems / pageSize, -totalItems % pageSize;
    assert d * pageSize + m == -totalItems;
    assert (-d) * pageSize == -(d * pageSize);
    ProductNext(-d - 1, pageSize);
  }

  /** The pages partition the list: together they are the list, each is non-empty, later ones are empty. */
  lemma PagingPartitions<T>(rows: seq<T>, pageSize: nat, page: nat)
    requires pageSize >= 1 && page >= 1
    ensures TotalPages(|rows|, pageSize) >= 0
    ensures Pages(rows, TotalPages(|rows|, pageSize), pageSize) == rows
    ensures PageOf(rows, page, pageSize) != [] <==> page <= TotalPages(|rows|, pageSize)
    ensures |PageOf(rows, page, pageSize)| <= pageSize
  {
    var n := TotalPages(|rows|, pageSize);
    TotalPagesIsCeiling(|rows|, pageSize);
    PagesArePrefix(rows, n, pageSize);
    if page <= n { ProductMonotone(page - 1, n - 1, pageSize); } else { ProductMonotone(n, page - 1, pageSize); }
  }

  /** No smaller number of pages shows every row. */
  lemma FewerPagesMissRows<T>(rows: seq<T>, pageSize: nat, n: nat)
    requires pageSize >= 1 && n < TotalPages(|rows|, pageSize)
    ensures Pages(rows, n, pageSize) != rows
  {
    TotalPagesIsCeiling(|rows|, pageSize);
    PagesArePrefix(rows, n, pageSize);
    ProductMonotone(n, TotalPages(|rows|, pageSize) - 1, pageSize);
  }
}
