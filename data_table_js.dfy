/**
 * Client-side pagination of the Carbon data table: the wrapper's rows are
 * split into pages of `pageSize`, the current page is clamped into range,
 * the pager's attributes are kept in sync, and exactly the rows of the
 * current page are shown.
 *
 * DOM nodes are objects: the pager and the optional empty-state element are
 * classes, and the `hidden` flags of the table rows are an array. Attribute
 * values that the script writes with `String(n)` and reads with `Number(s)`
 * are held as the integers they spell.
 */
module CdsDataTable {
  import opened Common

  /** `clampNumber(n, min, max)`: `Math.max(min, Math.min(n, max))`. */
  function Clamp(n: int, lo: int, hi: int): (r: int)
    ensures lo <= hi ==> lo <= r <= hi
    ensures lo <= n <= hi ==> r == n
    ensures n < lo ==> r == lo
    ensures lo <= hi && hi < n ==> r == hi
  {
    var m := if n < hi then n else hi;
    if lo > m then lo else m
  }

  /** `Math.max(1, Math.ceil(total / pageSize))`. */
  function TotalPages(total: nat, pageSize: int): (pages: int)
    requires pageSize >= 1
    ensures pages >= 1
  {
    var c := (total + pageSize - 1) / pageSize;
    if c < 1 then 1 else c
  }

  /** The page count is the least number of pages of `pageSize` rows that hold every row. */
  lemma TotalPagesCeil(total: nat, pageSize: int)
    requires pageSize >= 1
    ensures total > 0 ==> (TotalPages(total, pageSize) - 1) * pageSize < total <= TotalPages(total, pageSize) * pageSize
    ensures total == 0 ==> TotalPages(total, pageSize) == 1
  {
    var c := (total + pageSize - 1) / pageSize;
    var r := (total + pageSize - 1) % pageSize;
    assert total + pageSize - 1 == c * pageSize + r;
    assert (c - 1) * pageSize == c * pageSize - pageSize;
  }

  lemma MulLe(a: int, b: int, k: int)
    requires a <= b && k >= 0
    ensures a * k <= b * k
  {
    assert b * k - a * k == (b - a) * k;
  }

  /**
   * The first row of a clamped page lies inside the table when the table has
   * rows, so the page shows `min(pageSize, total - start)` rows, at least one.
   */
  lemma PageStartInside(total: nat, pageSize: int, page: int)
    requires pageSize >= 1
    requires 1 <= page <= TotalPages(total, pageSize)
    ensures 0 <= (page - 1) * pageSize
    ensures total > 0 ==> (page - 1) * pageSize < total
    ensures total == 0 ==> page == 1
  {
    TotalPagesCeil(total, pageSize);
    MulLe(0, page - 1, pageSize);
    MulLe(page - 1, TotalPages(total, pageSize) - 1, pageSize);
  }

  /** The page size: the pager's property, its `page-size` attribute, the wrapper's `data-page-size`, or 10. */
  function PageSize(property: Option<int>, attribute: Option<int>, wrapperSetting: Option<int>): int {
    if property.Some? then property.value
    else if attribute.Some? then attribute.value
    else wrapperSetting.GetOr(10)
  }

  /** The requested page: the pager's property, its `page` attribute, or 1. */
  function RequestedPage(property: Option<int>, attribute: Option<int>): int {
    if property.Some? then property.value else attribute.GetOr(1)
  }

  /** A row is shown exactly when its index lies in the page's slice. */
  predicate Visible(i: int, page: int, pageSize: int) {
    (page - 1) * pageSize <= i < page * pageSize
  }

  /** The `<cds-pagination>` element. */
  class Pager {
    var pageSize: Option<int>
    var pageSizeAttribute: Option<int>
    var page: Option<int>
    var pageAttribute: Option<int>
    var totalItemsAttribute: Option<int>

    constructor (pageSize: Option<int>, pageSizeAttribute: Option<int>, page: Option<int>, pageAttribute: Option<int>,
                 totalItemsAttribute: Option<int>)
      ensures this.pageSize == pageSize && this.pageSizeAttribute == pageSizeAttribute
      ensures this.page == page && this.pageAttribute == pageAttribute
      ensures this.totalItemsAttribute == totalItemsAttribute
    {
      this.pageSize := pageSize;
      this.pageSizeAttribute := pageSizeAttribute;
      this.page := page;
      this.pageAttribute := pageAttribute;
      this.totalItemsAttribute := totalItemsAttribute;
    }

    /** Keeping the pager in sync: the total is written, the page only when the property differs. */
    method Sync(total: nat, page: int)
      modifies this
      ensures totalItemsAttribute == Some(total)
      ensures pageAttribute == if old(this.page) == Some(page) then old(pageAttribute) else Some(page)
      ensures this.page == old(this.page) && pageSize == old(pageSize) && pageSizeAttribute == old(pageSizeAttribute)
    {
      if totalItemsAttribute != Some(total) {
        totalItemsAttribute := Some(total);
      }
      if this.page != Some(page) {
        pageAttribute := Some(page);
      }
    }
  }

  /** Hide every row, then show the rows of `allRows.slice(start, end)`. */
  method ShowSlice(rowsHidden: array<bool>, start: nat, end: int)
    requires start <= end
    modifies rowsHidden
    ensures forall i :: 0 <= i < rowsHidden.Length ==> (rowsHidden[i] <==> !(start <= i < end))
  {
    var i := 0;
    while i < rowsHidden.Length
      invariant 0 <= i <= rowsHidden.Length
      invariant forall j :: 0 <= j < i ==> rowsHidden[j]
    {
      rowsHidden[i] := true;
      i := i + 1;
    }
    i := start;
    while i < end && i < rowsHidden.Length
      invariant start <= i <= end
      invariant forall j :: 0 <= j < rowsHidden.Length ==> (rowsHidden[j] <==> !(start <= j < i))
    {
      rowsHidden[i] := false;
      i := i + 1;
    }
  }

  /** The optional `.cds-table-empty` element. */
  class EmptyState {
    var hidden: bool

    constructor (hidden: bool)
      ensures this.hidden == hidden
    {
      this.hidden := hidden;
    }
  }

  /** The `[data-cds-datatable]` wrapper: its settings, its pager, its rows and its empty state. */
  class Wrapper {
    /** `dataset.paginated`; `'0'` switches pagination off. */
    const paginated: Option<string>
    const dataPageSize: Option<int>
    const pager: Pager?
    /** The `hidden` flag of every `cds-table-row`, in document order. */
    const rowsHidden: array<bool>
    const empty: EmptyState?

    constructor (paginated: Option<string>, dataPageSize: Option<int>, pager: Pager?, rowsHidden: array<bool>,
                 empty: EmptyState?)
      ensures this.paginated == paginated && this.dataPageSize == dataPageSize && this.pager == pager
      ensures this.rowsHidden == rowsHidden && this.empty == empty
    {
      this.paginated := paginated;
      this.dataPageSize := dataPageSize;
      this.pager := pager;
      this.rowsHidden := rowsHidden;
      this.empty := empty;
    }

    /** The page size the script computes from the pager and the wrapper. */
    function CurrentPageSize(): int
      reads this, pager
      requires pager != null
    {
      PageSize(pager.pageSize, pager.pageSizeAttribute, dataPageSize)
    }

    /**
     * `applyPaginationToWrapper`: a no-op when pagination is off or there is
     * no pager; otherwise the page is clamped into `[1, totalPages]`, the
     * pager is told the total and the page, exactly the rows of that page are
     * shown, and the empty state is shown exactly when there are no rows.
     */
    method ApplyPagination()
      requires pager != null ==> CurrentPageSize() >= 1
      modifies rowsHidden, pager, empty
      ensures paginated == Some("0") || pager == null ==>
                && rowsHidden[..] == old(rowsHidden[..])
                && (empty != null ==> empty.hidden == old(empty.hidden))
                && (pager != null ==> unchanged(pager))
      ensures paginated != Some("0") && pager != null ==>
                var total := rowsHidden.Length;
                var size := old(CurrentPageSize());
                var page := Clamp(old(RequestedPage(pager.page, pager.pageAttribute)), 1, TotalPages(total, size));
                && pager.totalItemsAttribute == Some(total)
                && pager.pageAttribute == (if old(pager.page) == Some(page) then old(pager.pageAttribute) else Some(page))
                && pager.page == old(pager.page) && pager.pageSize == old(pager.pageSize)
                && pager.pageSizeAttribute == old(pager.pageSizeAttribute)
                && (forall i :: 0 <= i < total ==> (rowsHidden[i] <==> !Visible(i, page, size)))
                && (empty != null ==> empty.hidden == (total != 0))
    {
      if paginated == Some("0") {
        return;
      }
      if pager == null {
        return;
      }
      var total := rowsHidden.Length;
      var pageSize := PageSize(pager.pageSize, pager.pageSizeAttribute, dataPageSize);
      var totalPages := TotalPages(total, pageSize);
      var page := RequestedPage(pager.page, pager.pageAttribute);
      page := Clamp(page, 1, totalPages);

      pager.Sync(total, page);

      var start := (page - 1) * pageSize;
      var end := start + pageSize;
      PageStartInside(total, pageSize, page);
      ShowSlice(rowsHidden, start, end);
      assert end == page * pageSize;

      if empty != null {
        empty.hidden := total != 0;
      }
    }
  }

  /** On a table with rows the clamped page shows at least one row and at most `pageSize`. */
  lemma VisibleCount(total: nat, pageSize: int, requested: int)
    requires pageSize >= 1
    ensures var page := Clamp(requested, 1, TotalPages(total, pageSize));
            var start := (page - 1) * pageSize;
            var shown := if start + pageSize < total then pageSize else total - start;
            && 0 <= start
            && (total > 0 ==> 1 <= shown <= pageSize)
            && (forall i :: 0 <= i < total ==> (Visible(i, page, pageSize) <==> start <= i < start + shown))
  {
    var page := Clamp(requested, 1, TotalPages(total, pageSize));
    PageStartInside(total, pageSize, page);
    assert page * pageSize == (page - 1) * pageSize + pageSize;
  }
}
