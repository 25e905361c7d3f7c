/**
 * `query.paginate(page=..., per_page=..., error_out=False)` as the handlers
 * use it: an out-of-range page number or page size is replaced by a default
 * instead of failing, and a page past the end is simply empty.
 */
module Pagination {
  import opened Wrappers
  import opened Py

  /** One page of a result list, with the metadata the handlers report. */
  datatype Page<T> = Page(items: seq<T>, page: int, perPage: int, pages: int, total: int)

  /** `ceil(n / d)`, which is 0 for an empty list. */
  function CeilDiv(n: nat, d: nat): (r: nat)
    requires d >= 1
    ensures r * d >= n && (r == 0 || (r - 1) * d < n)
  {
    CeilDivBounds(n, d);
    (n + d - 1) / d
  }

  lemma CeilDivBounds(n: nat, d: nat)
    requires d >= 1
    ensures var r := (n + d - 1) / d; r >= 0 && r * d >= n && (r == 0 || (r - 1) * d < n)
  {
    var q, m := (n + d - 1) / d, (n + d - 1) % d;
    assert n + d - 1 == q * d + m && 0 <= m < d;
    assert (q - 1) * d == q * d - d;
  }

  /** With `error_out=False` a page number below 1 becomes 1. */
  function PageNumber(page: int): int {
    if page < 1 then 1 else page
  }

  /** With `error_out=False` a page size below 1 becomes 20. */
  function PageSize(perPage: int): int {
    if perPage < 1 then 20 else perPage
  }

  /** The offset of the page's first item, `(page - 1) * per_page`. */
  function Offset(page: int, perPage: int): (r: nat) {
    MulNonNegative(PageNumber(page) - 1, PageSize(perPage));
    (PageNumber(page) - 1) * PageSize(perPage)
  }

  lemma MulNonNegative(a: nat, b: nat)
    ensures a * b >= 0
  {
  }

  function Paginate<T>(all: seq<T>, page: int, perPage: int): (p: Page<T>)
    ensures p.page == PageNumber(page) && p.perPage == PageSize(perPage)
    ensures p.total == |all| && p.pages == CeilDiv(|all|, p.perPage)
    ensures |p.items| <= p.perPage
    ensures Offset(page, perPage) >= |all| ==> p.items == []
    ensures Offset(page, perPage) < |all| ==>
      var stop := Offset(page, perPage) + p.perPage;
      p.items == all[Offset(page, perPage) .. if stop < |all| then stop else |all|]
    ensures forall x :: x in p.items ==> x in all
  {
    var size := PageSize(perPage);
    var start := Offset(page, perPage);
    var stop := start + size;
    var items := if start >= |all| then [] else all[start .. if stop < |all| then stop else |all|];
    assert forall i :: 0 <= i < |items| ==> items[i] == all[start + i];
    Page(items, PageNumber(page), size, CeilDiv(|all|, size), |all|)
  }

  /** `request.args.get(name, default, type=int)`: a missing or non-integer argument gives the default. */
  function ArgOr(arg: Option<int>, default: int): (r: int)
    ensures arg.None? ==> r == default
    ensures arg.Some? ==> r == arg.value
  {
    if arg.Some? then arg.value else default
  }

  /** The `pagination` object both list endpoints report. */
  function PaginationDict<T>(p: Page<T>): (d: PyValue)
    ensures d.PyDict? && d.entries.Keys == {"page", "per_page", "total_pages", "total_items"}
    ensures d.entries["page"] == PyInt(p.page) && d.entries["per_page"] == PyInt(p.perPage)
    ensures d.entries["total_pages"] == PyInt(p.pages) && d.entries["total_items"] == PyInt(p.total)
  {
    PyDict(map[
      "page" := PyInt(p.page),
      "per_page" := PyInt(p.perPage),
      "total_pages" := PyInt(p.pages),
      "total_items" := PyInt(p.total)])
  }

  /**
   * Every element is on exactly one page: element `i` is item `i % perPage`
   * of page `i / perPage + 1`, and that page is within `pages`.
   */
  lemma EveryItemOnItsPage<T>(all: seq<T>, perPage: int, i: nat)
    requires perPage >= 1 && i < |all|
    ensures var p := Paginate(all, i / perPage + 1, perPage);
      && p.page <= p.pages
      && i % perPage < |p.items|
      && p.items[i % perPage] == all[i]
  {
    var q, m := i / perPage, i % perPage;
    var start := StartOfPage(i, perPage);
    assert Offset(q + 1, perPage) == start;
    PageWithinPages(|all|, perPage, q);
    var p := Paginate(all, q + 1, perPage);
    assert p.items[m] == all[start + m];
  }

  /** Index `i` sits `i % d` places after the offset of page `i / d + 1`. */
  lemma StartOfPage(i: nat, d: int) returns (start: nat)
    requires d >= 1
    ensures start == (i / d) * d && i == start + i % d && 0 <= i % d < d
    ensures Offset(i / d + 1, d) == start
  {
    start := (i / d) * d;
  }

  /** A page whose offset is inside the list is within the page count. */
  lemma PageWithinPages(n: nat, d: int, q: nat)
    requires d >= 1 && q * d < n
    ensures q + 1 <= CeilDiv(n, d)
  {
    var r := CeilDiv(n, d);
    if r <= q {
      MulMonotone(r, q, d);
    }
  }

  lemma MulMonotone(a: nat, b: nat, c: nat)
    requires a <= b
    ensures a * c <= b * c
  {
  }
}
