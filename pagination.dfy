/** Page stepping. The shared `Pagination` component steps by one with no
    clamping and relies on its disabled buttons; the dashboard, habits and
    weekly-analytics pages render their own buttons, which also clamp with
    `Math.max(page - 1, 1)` and `Math.min(page + 1, totalPages)`. */
module Pagination {

  /** The shared component's Previous button is disabled exactly on page 1. */
  predicate PreviousDisabled(page: int) { page == 1 }

  /** The shared component's Next button is disabled exactly on the last page. */
  predicate NextDisabled(page: int, totalPages: int) { page == totalPages }

  /** The page after a click on the shared component's Previous button
      (a click on a disabled button does nothing). */
  function ClickPrevious(page: int): (r: int)
    ensures PreviousDisabled(page) ==> r == page
    ensures !PreviousDisabled(page) ==> r == page - 1
  {
    if PreviousDisabled(page) then page else page - 1
  }

  /** The page after a click on the shared component's Next button. */
  function ClickNext(page: int, totalPages: int): (r: int)
    ensures NextDisabled(page, totalPages) ==> r == page
    ensures !NextDisabled(page, totalPages) ==> r == page + 1
  {
    if NextDisabled(page, totalPages) then page else page + 1
  }

  /** Starting inside [1, totalPages], any click of the shared component stays inside. */
  lemma ClicksStayInRange(page: int, totalPages: int)
    requires 1 <= page <= totalPages
    ensures 1 <= ClickPrevious(page) <= totalPages
    ensures 1 <= ClickNext(page, totalPages) <= totalPages
  {
  }

  /** Past the last page (for instance with 0 pages) Next stays enabled and keeps
      increasing the page. */
  lemma NextPastLastPage(page: int, totalPages: int)
    requires page > totalPages
    ensures !NextDisabled(page, totalPages)
    ensures ClickNext(page, totalPages) == page + 1 > totalPages
  {
  }

  function Max(a: int, b: int): int { if a >= b then a else b }
  function Min(a: int, b: int): int { if a <= b then a else b }

  /** A page's own Previous button: disabled on page 1, else `Math.max(page - 1, 1)`. */
  function ClampedPrevious(page: int): (r: int)
    ensures r >= 1
    ensures page == 1 ==> r == 1
    ensures page > 1 ==> r == page - 1
    ensures page < 1 ==> r == 1
  {
    if page == 1 then page else Max(page - 1, 1)
  }

  /** A page's own Next button: disabled on the last page, else `Math.min(page + 1, totalPages)`. */
  function ClampedNext(page: int, totalPages: int): (r: int)
    ensures r <= totalPages
    ensures page == totalPages ==> r == totalPages
    ensures page < totalPages ==> r == page + 1
    ensures page > totalPages ==> r == totalPages
  {
    if page == totalPages then page else Min(page + 1, totalPages)
  }

  /** The clamped buttons keep a page inside [1, totalPages]. */
  lemma ClampedStayInRange(page: int, totalPages: int)
    requires 1 <= page <= totalPages
    ensures 1 <= ClampedPrevious(page) <= totalPages
    ensures 1 <= ClampedNext(page, totalPages) <= totalPages
  {
  }
}
