/** The home feed page: filter state split between the address bar (`s`, `t`)
    and local state (`readState`, `sortBy`, `page`), the query it composes,
    and the choice of what to render. */
module FeedView {
  import opened Wrappers

  /** The address bar's query string, key to (first) value, as
      `URLSearchParams.get` sees it. */
  type UrlParams = map<string, string>

  /** What the search bar reports on every change. `tagId` is optional
      (`undefined` in the source). */
  datatype SearchParams = SearchParams(
    searchText: string,
    tagId: Option<string>,
    readState: string,
    sortBy: string)

  /** The local `searchParams` slot. It starts without `searchText` and
      `tagId` and holds whatever the search bar last reported. */
  datatype LocalParams = LocalParams(
    searchText: Option<string>,
    tagId: Option<string>,
    readState: string,
    sortBy: string)

  /** The arguments handed to the feed query hook. */
  datatype FeedQuery = FeedQuery(
    page: int,
    readState: string,
    sortBy: string,
    searchText: string,
    tagId: Option<string>)

  const DefaultReadState := "all"
  const DefaultSortBy := "added_to_library"
  const InitialLocal := LocalParams(None, None, DefaultReadState, DefaultSortBy)

  /** A JavaScript string is falsy exactly when it is empty: `x || undefined`. */
  function NonEmpty(x: Option<string>): (r: Option<string>)
    ensures r.Some? <==> x.Some? && x.value != ""
    ensures r.Some? ==> r == x
  {
    if x.Some? && x.value != "" then x else None
  }

  /** `urlParams.get("s") || ""`. */
  function DecodeSearchText(url: UrlParams): (r: string)
    ensures "s" in url ==> r == url["s"]
    ensures "s" !in url ==> r == ""
  {
    if "s" in url && url["s"] != "" then url["s"] else ""
  }

  /** `urlParams.get("t") || undefined`. */
  function DecodeTagId(url: UrlParams): (r: Option<string>)
    ensures r.Some? <==> "t" in url && url["t"] != ""
    ensures r.Some? ==> r.value == url["t"]
  {
    if "t" in url then NonEmpty(Some(url["t"])) else None
  }

  /** The object handed to `setUrlParams`: `s` always, `t` only for a
      non-empty tag, nothing else. */
  function Encode(p: SearchParams): (url: UrlParams)
    ensures "s" in url && url["s"] == p.searchText
    ensures "t" in url <==> p.tagId.Some? && p.tagId.value != ""
    ensures "t" in url ==> url["t"] == p.tagId.value
    ensures url.Keys <= {"s", "t"}
  {
    var base := map["s" := p.searchText];
    if p.tagId.Some? && p.tagId.value != "" then base["t" := p.tagId.value] else base
  }

  /** The address bar wins over local state for `searchText` and `tagId`;
      `readState` and `sortBy` come from local state only. */
  function ComposeQuery(page: int, local: LocalParams, url: UrlParams): (q: FeedQuery)
    ensures q.page == page
    ensures q.readState == local.readState && q.sortBy == local.sortBy
    ensures q.searchText == DecodeSearchText(url) && q.tagId == DecodeTagId(url)
  {
    FeedQuery(page, local.readState, local.sortBy, DecodeSearchText(url), DecodeTagId(url))
  }

  /** Round trip through the address bar: the search text comes back
      exactly, the tag comes back exactly when it is non-empty. */
  lemma DecodeEncode(p: SearchParams)
    ensures DecodeSearchText(Encode(p)) == p.searchText
    ensures DecodeTagId(Encode(p)) == NonEmpty(p.tagId)
  {
  }

  /** The other direction: a query string the page itself wrote is written
      back unchanged when the decoded filter is re-encoded, whatever the
      local read state and sort. */
  lemma EncodeDecode(p: SearchParams, readState: string, sortBy: string)
    ensures Encode(SearchParams(DecodeSearchText(Encode(p)), DecodeTagId(Encode(p)), readState, sortBy))
            == Encode(p)
  {
  }

  /** The query issued after a filter change is on page 1 and carries
      exactly the new filter (with an empty tag meaning "no tag"),
      whatever the page and filter were before. */
  lemma QueryAfterChange(p: SearchParams)
    ensures ComposeQuery(1, FromSearchParams(p), Encode(p))
            == FeedQuery(1, p.readState, p.sortBy, p.searchText, NonEmpty(p.tagId))
  {
  }

  /** Local state after `setSearchParams(newSearchParams)`. */
  function FromSearchParams(p: SearchParams): (l: LocalParams)
    ensures l.readState == p.readState && l.sortBy == p.sortBy
  {
    LocalParams(Some(p.searchText), p.tagId, p.readState, p.sortBy)
  }

  /** The home page's state slots. */
  class HomePage {
    var urlParams: UrlParams
    var page: int
    var searchParams: LocalParams

    /** First render: page 1, read state "all", sorted by date added; the
        address bar is whatever the browser navigated to. */
    constructor (url: UrlParams)
      ensures urlParams == url && page == 1 && searchParams == InitialLocal
      ensures Query() == FeedQuery(1, "all", "added_to_library", DecodeSearchText(url), DecodeTagId(url))
    {
      urlParams := url;
      page := 1;
      searchParams := InitialLocal;
    }

    /** The arguments of the feed query on the current render. */
    function Query(): (q: FeedQuery)
      reads this
    {
      ComposeQuery(page, searchParams, urlParams)
    }

    /** `handleSearchParamsChange`: store the new filter locally, rewrite the
        address bar from it, and go back to page 1. */
    method HandleSearchParamsChange(p: SearchParams)
      modifies this
      ensures searchParams == FromSearchParams(p)
      ensures urlParams == Encode(p)
      ensures page == 1
      ensures Query() == FeedQuery(1, p.readState, p.sortBy, p.searchText, NonEmpty(p.tagId))
    {
      searchParams := FromSearchParams(p);
      urlParams := Encode(p);
      page := 1;
      QueryAfterChange(p);
    }

    /** The paginator's `onPageChange`, which is `setPage` itself. */
    method SetPage(n: int)
      modifies this
      ensures page == n && searchParams == old(searchParams) && urlParams == old(urlParams)
    {
      page := n;
    }
  }

  /** What the query hook hands back when it has a page. */
  datatype FeedPage<L> = FeedPage(items: seq<L>, totalPages: int)

  datatype PaginatorProps = PaginatorProps(currentPage: int, totalPages: int)

  /** The content area: five skeleton cards, the cards of a page with an
      optional paginator, an alert, or nothing. */
  datatype Content<L> =
    | Skeletons(count: nat)
    | Cards(items: seq<L>, paginator: Option<PaginatorProps>)
    | Notice(destructive: bool, title: string, description: string)
    | Blank

  const SkeletonCount: nat := 5
  const NoLinksMessage := "Try adjusting your filters or add some new links to your feed."

  /** `renderContent`. `error` holds the error's message when there is one. */
  function RenderContent<L>(loading: bool, result: Option<FeedPage<L>>, error: Option<string>, page: int)
    : (c: Content<L>)
    ensures loading ==> c == Skeletons(5)
    ensures !loading && result.Some? && |result.value.items| > 0 ==>
              c.Cards? && c.items == result.value.items
              && (c.paginator.Some? <==> result.value.totalPages > 1)
              && (c.paginator.Some? ==> c.paginator.value == PaginatorProps(page, result.value.totalPages))
    ensures !loading && (result.None? || |result.value.items| == 0) ==>
              c.Notice? && (c.title == "Error" <==> error.Some?) && c.destructive == error.Some?
    ensures !c.Blank?
  {
    if loading then Skeletons(SkeletonCount)
    else if result.Some? && |result.value.items| > 0 then
      Cards(result.value.items,
            if result.value.totalPages > 1 then Some(PaginatorProps(page, result.value.totalPages)) else None)
    else if error.Some? || result.None? || |result.value.items| == 0 then
      Notice(error.Some?,
             if error.Some? then "Error" else "No links found",
             if error.Some? then error.value else NoLinksMessage)
    else Blank
  }
}
