/** The page counters behind every paged table: the admin screens' lists
    (departments, locations, designations, shift and weekly-off policies,
    announcements, business units) and the timesheet list. Each keeps the
    whole list, the current page (from 1), the page count and the slice
    shown; all use five rows per page. */
module Pagination {

  /** Rows per page in every paged table. */
  const PageSize: nat := 5

  /** `Math.ceil(n / size)`. */
  function PageCount(n: nat, size: nat): (t: nat)
    requires size > 0
    ensures t * size >= n
    ensures t > 0 ==> (t - 1) * size < n
    ensures t == 0 <==> n == 0
  {
    if n % size == 0 then n / size else n / size + 1
  }

  /** `items.slice((page - 1) * size, (page - 1) * size + size)`; the slice
      is cut short at the end of the list and is empty past it. */
  function PageView<T>(items: seq<T>, page: nat, size: nat): (v: seq<T>)
    requires page >= 1
    ensures |v| <= size
    ensures forall i :: 0 <= i < |v| ==>
      (page - 1) * size + i < |items| && v[i] == items[(page - 1) * size + i]
    ensures v == [] <==> size == 0 || (page - 1) * size >= |items|
    ensures (page - 1) * size + size <= |items| ==> |v| == size
  {
    Window(items, (page - 1) * size, size)
  }

  /** `items.slice(start, start + size)`. */
  function Window<T>(items: seq<T>, start: nat, size: nat): (v: seq<T>)
    ensures |v| <= size
    ensures forall i :: 0 <= i < |v| ==> start + i < |items| && v[i] == items[start + i]
    ensures v == [] <==> size == 0 || start >= |items|
    ensures start + size <= |items| ==> |v| == size
  {
    if start >= |items| then []
    else if start + size <= |items| then items[start..start + size]
    else items[start..]
  }

  /** Every row of the list is shown on exactly one page within the page
      count: row `k` is row `k % size` of page `k / size + 1`. */
  lemma ItemOnPage<T>(items: seq<T>, k: nat, size: nat)
    requires size > 0 && k < |items|
    ensures 1 <= k / size + 1 <= PageCount(|items|, size)
    ensures k % size < |PageView(items, k / size + 1, size)|
    ensures PageView(items, k / size + 1, size)[k % size] == items[k]
  {
    var p := k / size;
    assert p * size + k % size == k;
    assert p * size <= k;
    var t := PageCount(|items|, size);
    if t < p + 1 {
      assert t * size <= p * size by {
        MulMonotone(t, p, size);
      }
      assert false;
    }
  }

  lemma MulMonotone(a: nat, b: nat, c: nat)
    requires a <= b
    ensures a * c <= b * c
  {
  }

  /** A page within the page count is never empty; a page past it always is. */
  lemma PagesWithinCountAreFull<T>(items: seq<T>, page: nat, size: nat)
    requires size > 0 && page >= 1
    ensures page <= PageCount(|items|, size) <==> PageView(items, page, size) != []
  {
    var t := PageCount(|items|, size);
    if page <= t {
      MulMonotone(page - 1, t - 1, size);
    } else {
      MulMonotone(t, page - 1, size);
    }
  }

  /** One paged table. The invariant: the page is at least 1 and, unless it
      is the first page, within the page count; the page count and the
      shown slice agree with the list. */
  class Pager<T> {
    var items: seq<T>
    var currentPage: nat
    var totalPages: nat
    var view: seq<T>

    ghost predicate Valid()
      reads this
    {
      1 <= currentPage
      && (currentPage == 1 || currentPage <= totalPages)
      && totalPages == PageCount(|items|, PageSize)
      && view == PageView(items, currentPage, PageSize)
    }

    /** The field initialisers: an empty list on page 1 of 0. */
    constructor ()
      ensures Valid()
      ensures items == [] && currentPage == 1 && totalPages == 0 && view == []
    {
      items := [];
      currentPage := 1;
      totalPages := 0;
      view := [];
    }

    /** `updatePaginated*`: show the slice of the current page. */
    method UpdateView()
      requires currentPage >= 1
      modifies this`view
      ensures view == PageView(items, currentPage, PageSize)
    {
      var start := (currentPage - 1) * PageSize;
      if start >= |items| {
        view := [];
      } else if start + PageSize <= |items| {
        view := items[start..start + PageSize];
      } else {
        view := items[start..];
      }
    }

    /** `calculate*Pagination`: recompute the page count, then the slice. */
    method Calculate()
      requires currentPage >= 1
      modifies this`totalPages, this`view
      ensures totalPages == PageCount(|items|, PageSize)
      ensures view == PageView(items, currentPage, PageSize)
    {
      var n := |items|;
      totalPages := if n % PageSize == 0 then n / PageSize else n / PageSize + 1;
      UpdateView();
    }

    /** `load*` on a server answer (`r || []`): replace the list, go back
        to page 1, recompute. */
    method Reload(response: seq<T>)
      modifies this
      ensures Valid()
      ensures items == response && currentPage == 1
      ensures view == PageView(response, 1, PageSize)
    {
      items := response;
      currentPage := 1;
      Calculate();
    }

    /** `goToNext*Page`: move forward only when not on the last page. */
    method Next()
      requires Valid()
      modifies this`currentPage, this`view
      ensures Valid()
      ensures old(currentPage) < totalPages ==> currentPage == old(currentPage) + 1
      ensures old(currentPage) >= totalPages ==> currentPage == old(currentPage) && view == old(view)
    {
      if currentPage < totalPages {
        currentPage := currentPage + 1;
        UpdateView();
      }
    }

    /** `goToPrevious*Page`: move back only when not on page 1. */
    method Previous()
      requires Valid()
      modifies this`currentPage, this`view
      ensures Valid()
      ensures old(currentPage) > 1 ==> currentPage == old(currentPage) - 1
      ensures old(currentPage) == 1 ==> currentPage == 1 && view == old(view)
    {
      if currentPage > 1 {
        currentPage := currentPage - 1;
        UpdateView();
      }
    }

    /** `goToPage(page)` of the timesheet list: jump only to a page between
        1 and the page count. */
    method GoToPage(page: int)
      requires Valid()
      modifies this`currentPage, this`view
      ensures Valid()
      ensures 1 <= page <= totalPages ==> currentPage == page
      ensures !(1 <= page <= totalPages) ==> currentPage == old(currentPage) && view == old(view)
    {
      if page >= 1 && page <= totalPages {
        currentPage := page;
        UpdateView();
      }
    }

    /** In a valid state the page lies in `[1, max(1, totalPages)]`, and the
        slice shown is non-empty exactly when the list is. */
    lemma PageInRange()
      requires Valid()
      ensures 1 <= currentPage <= (if totalPages < 1 then 1 else totalPages)
      ensures view == [] <==> items == []
    {
      PagesWithinCountAreFull(items, currentPage, PageSize);
    }
  }
}
