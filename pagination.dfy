/**
 * The page arithmetic of the resource handler's GetMany
 * (apps/api/internal/handler/resource.go): which page an offset falls on and
 * how many pages the total needs.
 */
module Pagination {

  /** The metadata of a PaginatedResponse. */
  datatype PageInfo = PageInfo(page: int, limit: int, total: int, totalPages: int)

  /**
   * Page = Offset / Limit + 1 and TotalPages = (total + Limit - 1) / Limit.
   * The options come from normalisation, so the limit is positive and the
   * offset is not negative, and a count is never negative; on those values
   * Go's truncating division and Dafny's agree.
   */
  function Paginate(offset: int, limit: int, total: int): (p: PageInfo)
    requires limit > 0 && offset >= 0 && total >= 0
    ensures p.limit == limit && p.total == total
    ensures p.page >= 1
    ensures (p.page - 1) * limit <= offset < p.page * limit
    ensures p.totalPages * limit >= total
    ensures total > 0 ==> (p.totalPages - 1) * limit < total
    ensures total == 0 <==> p.totalPages == 0
  {
    var page := offset / limit + 1;
    var pages := (total + limit - 1) / limit;
    DivBounds(offset, limit);
    DivBounds(total + limit - 1, limit);
    PageInfo(page, limit, total, pages)
  }

  /** q = n / d is the one q with q * d <= n < (q + 1) * d. */
  lemma DivBounds(n: int, d: int)
    requires n >= 0 && d > 0
    ensures (n / d) * d <= n < (n / d + 1) * d
  {
  }

  /** Two items per page, starting at the third, out of five: page 2 of 3. */
  lemma PaginateExample()
    ensures Paginate(2, 2, 5) == PageInfo(2, 2, 5, 3)
  {
  }
}
