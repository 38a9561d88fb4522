// The page of src/communication/server/ServerPage.ts: a constructor that validates its
// arguments and derives the page count and the next page.
module ServerPage {
  import opened Wrappers
  import opened JsSemantics
  import opened HttpErrors

  datatype Page<T> = Page(
    pages: int,
    nextPage: int,
    totalElements: int,
    currentPage: int,
    pageSize: int,
    elements: seq<T>)

  /** `Math.ceil(a / b)` for a positive divisor: the least p with p * b >= a. */
  function CeilDiv(a: int, b: int): (p: int)
    requires b > 0
    ensures p * b >= a
    ensures (p - 1) * b < a
  {
    (a + b - 1) / b
  }

  function PageSizeError(pageSize: int): HttpError {
    NewError(ValidationClass, "Page size " + IntToString(pageSize) + " must be a positive number higher than 0")
  }

  function CurrentPageError(currentPage: int): HttpError {
    NewError(ValidationClass, "Current page " + IntToString(currentPage) + " must be a positive number higher than 0")
  }

  /**
   * `new ServerPage(totalElements, currentPage, pageSize, elements)`. A non-positive page size
   * is rejected first, then a non-positive current page; both with a ValidationError. A good
   * page stores its arguments, with a negative total counted as 0, and derives the page count
   * and the next page: the current one on the last page, otherwise the one after it, unclamped.
   */
  function NewServerPage<T>(totalElements: int, currentPage: int, pageSize: int, elements: seq<T>)
    : (r: Result<Page<T>, HttpError>)
    ensures pageSize <= 0 ==> r == Failure(PageSizeError(pageSize))
    ensures pageSize > 0 && currentPage <= 0 ==> r == Failure(CurrentPageError(currentPage))
    ensures r.Success? <==> pageSize > 0 && currentPage > 0
    ensures r.Success? ==>
              && r.value.totalElements == (if totalElements > 0 then totalElements else 0)
              && r.value.pageSize == pageSize
              && r.value.currentPage == currentPage
              && r.value.elements == elements
              && r.value.pages * pageSize >= r.value.totalElements
              && (r.value.pages - 1) * pageSize < r.value.totalElements
              && (r.value.pages == currentPage ==> r.value.nextPage == currentPage)
              && (r.value.pages != currentPage ==> r.value.nextPage == currentPage + 1)
  {
    var total := if totalElements > 0 then totalElements else 0;
    if pageSize <= 0 then Failure(PageSizeError(pageSize))
    else if currentPage <= 0 then Failure(CurrentPageError(currentPage))
    else
      var pages := CeilDiv(total, pageSize);
      Success(Page(pages, if pages == currentPage then currentPage else currentPage + 1,
                   total, currentPage, pageSize, elements))
  }

  /** The page count is the only p with (p - 1) * size < total <= p * size. */
  lemma {:induction false} PagesUnique(total: int, size: int, p: int)
    requires size > 0
    requires p * size >= total && (p - 1) * size < total
    ensures p == CeilDiv(total, size)
  {
    var q := CeilDiv(total, size);
    MulCancel(q - 1, p, size);
    MulCancel(p - 1, q, size);
  }

  /** Multiplying by a positive number keeps a strict order, so it can be cancelled. */
  lemma MulCancel(a: int, b: int, c: int)
    requires c > 0 && a * c < b * c
    ensures a < b
  {
    if a >= b {
      MulMonotone(b, a, c);
    }
  }

  lemma MulMonotone(a: int, b: int, c: int)
    requires c > 0 && a <= b
    ensures a * c <= b * c
  {
    assert b * c == a * c + (b - a) * c;
  }

  /** The pages of a valid page are never negative, and there are none exactly when there is nothing to show. */
  lemma {:induction false} PagesBounds<T>(totalElements: int, currentPage: int, pageSize: int, elements: seq<T>)
    requires NewServerPage(totalElements, currentPage, pageSize, elements).Success?
    ensures var page := NewServerPage(totalElements, currentPage, pageSize, elements).value;
            page.pages >= 0 && (page.pages == 0 <==> page.totalElements == 0)
  {
    var page := NewServerPage(totalElements, currentPage, pageSize, elements).value;
    MulCancel(-1, page.pages, pageSize);
    if page.totalElements == 0 {
      MulCancel(page.pages - 1, 0, pageSize);
    }
  }

  /**
   * An empty first page reports 0 pages and a next page of 2: it points past the last page,
   * although it is already on (or beyond) it.
   */
  lemma EmptyFirstPage<T>(pageSize: int)
    requires pageSize > 0
    ensures NewServerPage<T>(0, 1, pageSize, []) == Success(Page(0, 2, 0, 1, pageSize, []))
    ensures var page := NewServerPage<T>(0, 1, pageSize, []).value;
            page.currentPage >= page.pages && page.nextPage > page.currentPage
  {
    PagesUnique(0, pageSize, 0);
  }

  /**
   * The next page as the comparison evidently means it: the page after the current one while
   * there is one, the current page from the last page on.
   */
  function IntendedNextPage(pages: int, currentPage: int): (next: int)
    ensures next > currentPage <==> currentPage < pages
    ensures next == currentPage || next == currentPage + 1
  {
    if currentPage >= pages then currentPage else currentPage + 1
  }

  /** The two agree exactly on the pages that exist or the one just after them: currentPage <= pages. */
  lemma {:induction false} NextPageAgreement<T>(totalElements: int, currentPage: int, pageSize: int, elements: seq<T>)
    requires NewServerPage(totalElements, currentPage, pageSize, elements).Success?
    ensures var page := NewServerPage(totalElements, currentPage, pageSize, elements).value;
            page.nextPage == IntendedNextPage(page.pages, page.currentPage) <==> page.currentPage <= page.pages
  {
  }

  /** The next page is not clamped: past the last page it keeps counting up. */
  lemma {:induction false} NextPageUnclamped<T>(totalElements: int, currentPage: int, pageSize: int, elements: seq<T>)
    requires pageSize > 0 && currentPage > 0
    requires currentPage > CeilDiv(if totalElements > 0 then totalElements else 0, pageSize)
    ensures NewServerPage(totalElements, currentPage, pageSize, elements).value.nextPage == currentPage + 1
  {
  }

  /** Both arguments bad: the page size is reported. */
  lemma BothInvalid<T>(totalElements: int, elements: seq<T>)
    ensures NewServerPage(totalElements, 0, 0, elements) == Failure(PageSizeError(0))
  {
  }
}
