/**
 * The pagination metadata and the paginated response body returned by the
 * history endpoint, both built from a page in one step.
 */
module PaginationDtos {
  import opened Paging

  /** Pagination: 1-based current page, total items, total pages, items on this page. */
  datatype Pagination = Pagination(currentPage: int, totalItems: int, totalPages: int, itemsPerPage: int)

  /** PaginatedResponse: the page's items and its pagination metadata. */
  datatype PaginatedResponse<+T> = PaginatedResponse(data: seq<T>, pagination: Pagination)

  /** Pagination.of: the four fields, taken from the page. */
  function PaginationOf<T>(p: Page<T>): (r: Pagination)
    ensures r.currentPage == p.number + 1 && r.currentPage >= 1
    ensures r.itemsPerPage == |p.content|
    ensures r.totalItems == p.totalElements
    ensures r.totalPages == TotalPages(p)
  {
    Pagination(
      currentPage := p.number + 1,
      totalItems := p.totalElements,
      totalPages := TotalPages(p),
      itemsPerPage := |p.content|)
  }

  /** PaginatedResponse.of: the page's content, in order, beside Pagination.of of the same page. */
  function PaginatedResponseOf<T>(p: Page<T>): (r: PaginatedResponse<T>)
    ensures r.data == p.content
    ensures r.pagination == PaginationOf(p)
    ensures |r.data| == r.pagination.itemsPerPage
  {
    PaginatedResponse(p.content, PaginationOf(p))
  }

  /**
   * For a page selected from a record sequence: `itemsPerPage` counts the items
   * actually present, at most the requested size and smaller only on the last
   * page; the page is non-empty exactly when `currentPage` does not exceed
   * `totalPages`.
   */
  lemma ItemsPerPageOfFoundPage<T>(all: seq<T>, req: PageRequest)
    requires req.pageSize >= 1
    ensures var m := PaginationOf(FindPage(all, req));
      && m.itemsPerPage <= req.pageSize
      && (m.currentPage < m.totalPages ==> m.itemsPerPage == req.pageSize)
      && (m.itemsPerPage > 0 <==> m.currentPage <= m.totalPages)
      && m.totalItems == |all|
  {
    var p := FindPage(all, req);
    PageSizeBound(all, req);
    NonEmptyIff(all, req);
    TotalPagesBounds(p);
    var s, k, t := req.pageSize, req.pageNumber, TotalPages(p);
    if k + 1 < t {
      MulMonotonic(k + 1, t - 1, s);
      assert Offset(req) + s == (k + 1) * s;
    }
  }
}
