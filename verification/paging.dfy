/**
 * Page metadata of the paginated list endpoints. The client keeps exactly
 * what the backend reports and does no pagination arithmetic of its own.
 */
module Paging {
  import opened Wrappers

  /** One entry of the paginator's link list. */
  datatype Link = Link(url: Option<string>, caption: string, active: bool)

  /** The paginated payload `data` of a list answer; `links` may be missing. */
  datatype Page<T> = Page(
    data: seq<T>,
    currentPage: int,
    lastPage: int,
    nextPageUrl: Option<string>,
    prevPageUrl: Option<string>,
    total: int,
    perPage: int,
    links: Option<seq<Link>>)

  /** The `pagination` field of a store slice. */
  datatype Pagination = Pagination(
    currentPage: int,
    lastPage: int,
    nextPageUrl: Option<string>,
    prevPageUrl: Option<string>,
    total: int,
    perPage: int,
    links: seq<Link>)

  /** What a store holds before its first list fetch. */
  const InitialPagination: Pagination := Pagination(1, 1, None, None, 0, 6, [])

  /** The metadata a successful list fetch installs, with `links || []`. */
  function PaginationOf<T>(p: Page<T>): (r: Pagination)
    ensures r.links == p.links.GetOr([])
  {
    Pagination(p.currentPage, p.lastPage, p.nextPageUrl, p.prevPageUrl, p.total, p.perPage, p.links.GetOr([]))
  }

  /** A page the backend could send to produce `info`, holding `items`. */
  function PageFor<T>(info: Pagination, items: seq<T>): Page<T> {
    Page(items, info.currentPage, info.lastPage, info.nextPageUrl, info.prevPageUrl, info.total, info.perPage, Some(info.links))
  }

  /** Page metadata is copied verbatim: every field of the stored pagination
      is the backend's own, and the items on the page play no part in it. */
  lemma PaginationIsVerbatim<T>(p: Page<T>, items: seq<T>)
    ensures PaginationOf(p) == PaginationOf(p.(data := items))
    ensures PageFor(PaginationOf(p), p.data) == p.(links := Some(p.links.GetOr([])))
    ensures p.links.Some? ==> PageFor(PaginationOf(p), p.data) == p
  {
  }

  /** Reading back a page built from stored metadata gives that metadata. */
  lemma PaginationRoundTrip<T>(info: Pagination, items: seq<T>)
    ensures PaginationOf(PageFor(info, items)) == info
    ensures PageFor(info, items).data == items
  {
  }
}
