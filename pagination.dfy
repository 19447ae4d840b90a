/** The page arithmetic of the product listing: query values parsed with a
    fallback, the number of documents skipped, the next/previous links and
    the page count. */
module Pagination {
  import opened Common

  /** `parseInt(raw, 10) || fallback`: `None` stands for a value that does
      not parse (NaN); 0 is falsy too, so it also gives the fallback. */
  function IntOr(raw: Option<int>, fallback: int): (r: int)
    ensures raw.Some? && raw.value != 0 ==> r == raw.value
    ensures raw.None? || raw.value == 0 ==> r == fallback
  {
    if raw.Some? && raw.value != 0 then raw.value else fallback
  }

  /** `Math.ceil(a / b)`. */
  function CeilDiv(a: int, b: int): (q: int)
    requires b != 0
    ensures b > 0 ==> (q - 1) * b < a <= q * b
    ensures b < 0 ==> q * b <= a < (q - 1) * b
  {
    if b > 0 then
      var f := (-a) / b;
      assert -a == b * f + (-a) % b;
      -f
    else
      var f := a / (-b);
      assert a == (-b) * f + a % (-b);
      -f
  }

  datatype PageLink = PageLink(page: int, limit: int)

  datatype PageInfo = PageInfo(
    page: int, limit: int, total: int, pages: int, startIndex: int,
    next: Option<PageLink>, prev: Option<PageLink>)

  /** The pagination block of `getProducts` for the parsed `page` and
      `limit` and the number of matching documents. */
  function Paginate(page: int, limit: int, total: nat): (info: PageInfo)
    requires limit != 0
    ensures info.page == page && info.limit == limit && info.total == total
    ensures info.startIndex == (page - 1) * limit
    ensures info.next.Some? ==> info.next.value == PageLink(page + 1, limit)
    ensures info.prev.Some? ==> info.prev.value == PageLink(page - 1, limit)
    ensures limit > 0 ==> (info.pages - 1) * limit < total <= info.pages * limit
  {
    var startIndex := (page - 1) * limit;
    var endIndex := page * limit;
    PageInfo(page, limit, total, CeilDiv(total, limit), startIndex,
             if endIndex < total then Some(PageLink(page + 1, limit)) else None,
             if startIndex > 0 then Some(PageLink(page - 1, limit)) else None)
  }

  /** The query values as `getProducts` reads them: page 1 and limit 10 when
      absent, unparsable or 0. */
  function PaginateQuery(rawPage: Option<int>, rawLimit: Option<int>, total: nat): (info: PageInfo)
    ensures info.page == IntOr(rawPage, 1) && info.limit == IntOr(rawLimit, 10)
    ensures rawPage.None? ==> info.page == 1 && info.startIndex == 0
    ensures rawLimit.None? ==> info.limit == 10
  {
    Paginate(IntOr(rawPage, 1), IntOr(rawLimit, 10), total)
  }

  /** For a page and a limit of at least 1: the documents skipped are those
      of the earlier pages, a next link exists exactly when a later page
      exists, and a previous link exactly when this is not the first page. */
  lemma LinksFollowPageCount(page: int, limit: int, total: nat)
    requires page >= 1 && limit >= 1
    ensures var info := Paginate(page, limit, total);
      && info.startIndex >= 0
      && (info.next.Some? <==> page < info.pages)
      && (info.prev.Some? <==> page > 1)
  {
    var info := Paginate(page, limit, total);
    var q := info.pages;
    MulLeq(limit, 0, page - 1);
    if page < q {
      MulLeq(limit, page, q - 1);
    } else {
      MulLeq(limit, q, page);
    }
    if page > 1 {
      MulLeq(limit, 1, page - 1);
    }
  }
}
