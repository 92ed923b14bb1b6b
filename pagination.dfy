/**
 * Page and limit clamping, offset computation and the paginated response
 * envelope shared by the listing endpoints (packages/common/pagination.js).
 *
 * JavaScript's `parseInt` is taken as already applied: its result is an
 * `Option<int>`, `None` standing for `NaN` (a missing or unparseable value).
 */
module Pagination {
  import opened Wrappers

  const DefaultPage := 1
  const DefaultLimit := 20
  const MaxLimit := 100

  /** What `parsePagination` returns. */
  datatype Window = Window(page: int, limit: int, offset: int)

  /** The `{ page, limit }` argument of `paginatedResponse`. */
  datatype PageRequest = PageRequest(page: int, limit: int)

  datatype PageInfo = PageInfo(page: int, limit: int, total: nat, totalPages: nat)

  /** The JSON envelope `{ data, pagination }`. */
  datatype Paginated<T> = Paginated(data: seq<T>, pagination: PageInfo)

  /** `parseInt(x) || d`: both `NaN` and `0` are falsy and give way to `d`. */
  function OrDefault(parsed: Option<int>, d: int): int {
    if parsed.Some? && parsed.value != 0 then parsed.value else d
  }

  function Max(a: int, b: int): int { if a < b then b else a }

  function Min(a: int, b: int): int { if a < b then a else b }

  /** Clamps the requested page and limit and derives the row offset of the page. */
  function ParsePagination(page: Option<int>, limit: Option<int>): (w: Window)
    ensures w.page >= 1
    ensures 1 <= w.limit <= MaxLimit
    ensures w.offset == (w.page - 1) * w.limit
    ensures w.offset >= 0
    // page: absent, unparseable, zero or negative all mean the first page
    ensures page.None? || page.value < 1 ==> w.page == 1
    ensures page.Some? && page.value >= 1 ==> w.page == page.value
    // limit: absent, unparseable or zero means the default; otherwise clamp to [1, 100]
    ensures limit.None? || limit.value == 0 ==> w.limit == DefaultLimit
    ensures limit.Some? && limit.value < 0 ==> w.limit == 1
    ensures limit.Some? && limit.value > MaxLimit ==> w.limit == MaxLimit
    ensures limit.Some? && 1 <= limit.value <= MaxLimit ==> w.limit == limit.value
  {
    var p := Max(1, OrDefault(page, DefaultPage));
    var l := Min(MaxLimit, Max(1, OrDefault(limit, DefaultLimit)));
    Window(p, l, (p - 1) * l)
  }

  /** `Math.ceil(total / limit)` for a row count and a positive limit. */
  function TotalPages(total: nat, limit: int): (n: nat)
    requires limit >= 1
    ensures n * limit >= total
    ensures total > 0 ==> (n - 1) * limit < total
    ensures total == 0 ==> n == 0
  {
    var q := (total + limit - 1) / limit;
    assert total + limit - 1 == q * limit + (total + limit - 1) % limit;
    q
  }

  /** The page count is the least number of pages that holds every row. */
  lemma TotalPagesIsLeast(total: nat, limit: int, k: nat)
    requires limit >= 1
    requires k * limit >= total
    ensures k >= TotalPages(total, limit)
  {
    var n := TotalPages(total, limit);
    if k < n {
      assert k * limit <= (n - 1) * limit by {
        MulMonotone(k, n - 1, limit);
      }
    }
  }

  lemma MulMonotone(a: nat, b: nat, c: int)
    requires a <= b && c >= 0
    ensures a * c <= b * c
  {
  }

  /**
   * A page starts inside the result set exactly when its number is at most
   * the page count; the pages after the last one are empty.
   */
  lemma {:induction false} PageWithinTotal(w: Window, total: nat)
    requires w.page >= 1 && w.limit >= 1 && w.offset == (w.page - 1) * w.limit
    ensures w.offset < total <==> w.page <= TotalPages(total, w.limit)
  {
    var n := TotalPages(total, w.limit);
    if w.page <= n {
      if total > 0 {
        MulMonotone(w.page - 1, n - 1, w.limit);
      }
    } else {
      MulMonotone(n, w.page - 1, w.limit);
    }
  }

  /** Builds the `{ data, pagination }` envelope for one page of rows. */
  function PaginatedResponse<T>(rows: seq<T>, total: nat, req: PageRequest): (r: Paginated<T>)
    requires req.limit >= 1
    ensures r.data == rows
    ensures r.pagination.page == req.page && r.pagination.limit == req.limit
    ensures r.pagination.total == total
    ensures r.pagination.totalPages * req.limit >= total
    ensures total > 0 ==> (r.pagination.totalPages - 1) * req.limit < total
    ensures total == 0 ==> r.pagination.totalPages == 0
  {
    Paginated(rows, PageInfo(req.page, req.limit, total, TotalPages(total, req.limit)))
  }

  /** The positional form of `PaginatedResponse`. */
  function FormatPaginatedResponse<T>(data: seq<T>, total: nat, page: int, limit: int): (r: Paginated<T>)
    requires limit >= 1
    ensures r.data == data
    ensures r.pagination.page == page && r.pagination.limit == limit && r.pagination.total == total
    ensures r.pagination.totalPages * limit >= total
    ensures total > 0 ==> (r.pagination.totalPages - 1) * limit < total
    ensures total == 0 ==> r.pagination.totalPages == 0
    ensures r == PaginatedResponse(data, total, PageRequest(page, limit))
  {
    PaginatedResponse(data, total, PageRequest(page, limit))
  }
}
