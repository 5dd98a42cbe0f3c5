/**
 * The URL-producing half of the two search providers
 * (packages/backend/src/web_searcher.ts): the request the web search is sent
 * with and how its response becomes a URL list (`performWebSearch`), and how an
 * arXiv feed becomes a list of entry ids (`searchArxiv`).  The network calls
 * themselves are parameters: a function from the request to how it settles.
 */
module WebSearcher {
  import opened Wrappers
  import opened Types
  import opened UrlOrder

  datatype SafeSearchLevel = Off | Moderate | Strict

  /** The query and options `performWebSearch` hands to the Brave client. */
  datatype BraveRequest = BraveRequest(
    query: string, count: int, safesearch: SafeSearchLevel,
    search_lang: string, country: string, text_decorations: bool)

  /** The Brave request for a user query: its text, its result count, and fixed options. */
  function BraveRequestFor(q: UserQuery): BraveRequest {
    BraveRequest(q.query, q.result_count, Off, "en", "US", false)
  }

  /** The web search asks for `result_count` results, safe search off, in English, for the US, without decorations. */
  lemma BraveRequestOptions(q: UserQuery)
    ensures BraveRequestFor(q).query == q.query && BraveRequestFor(q).count == q.result_count
    ensures BraveRequestFor(q).safesearch == Off && BraveRequestFor(q).search_lang == "en"
    ensures BraveRequestFor(q).country == "US" && !BraveRequestFor(q).text_decorations
  {
  }

  /**
   * The URL list of a web-search response: without a mixed ranking, the URLs of
   * all web results in their order (none without a `web` section); with one,
   * the list `extractOrderedUrls` builds.
   */
  function SelectUrls(response: WebSearchResponse): (urls: Option<seq<Url>>)
    ensures response.mixedMain.None? ==> (urls.None? <==> response.web.None?)
    ensures response.mixedMain.None? && response.web.Some? ==>
              |urls.value| == |response.web.value| &&
              forall k :: 0 <= k < |urls.value| ==> urls.value[k] == response.web.value[k].url
    ensures response.mixedMain.Some? ==> urls == Some(OrderedUrls(response.mixedMain.value, response.web))
    ensures urls.Some? ==> FromWebResults(urls.value, response.web)
  {
    if response.mixedMain.None? then
      match response.web
      case None => None
      case Some(results) =>
        assert FromWebResults(Urls(results), response.web) by {
          forall k | 0 <= k < |results| ensures IsWebUrl(Urls(results)[k], response.web) { }
        }
        Some(Urls(results))
    else
      OrderedUrlsAreWebUrls(response.mixedMain.value, response.web, NoneUsed(response.web), AsWritten);
      Some(OrderedUrls(response.mixedMain.value, response.web))
  }

  /** `performWebSearch`: one Brave request; a rejection propagates, a response is turned into URLs. */
  function PerformWebSearch(q: UserQuery, brave: BraveRequest -> Settled<WebSearchResponse>): (r: Settled<Option<seq<Url>>>)
    ensures r.Rejected? <==> brave(BraveRequestFor(q)).Rejected?
    ensures r.Resolved? ==> r.value == SelectUrls(brave(BraveRequestFor(q)).value)
  {
    match brave(BraveRequestFor(q))
    case Rejected => Rejected
    case Resolved(response) => Resolved(SelectUrls(response))
  }

  /** The fields of a parsed arXiv entry the backend declares (authors and links are not read). */
  datatype ArxivEntry = ArxivEntry(id: string, updated: string, published: string, title: string, summary: string)

  /**
   * `parsedData.feed.entry` after XML parsing: absent (or another falsy value),
   * a single entry object, or an array of entries.
   */
  datatype FeedEntry = NoEntry | OneEntry(entry: ArxivEntry) | EntryArray(entries: seq<ArxivEntry>)

  /** `entry || []`, then wrapped in an array unless it already is one. */
  function EntriesArray(f: FeedEntry): seq<ArxivEntry> {
    match f
    case NoEntry => []
    case OneEntry(e) => [e]
    case EntryArray(es) => es
  }

  /**
   * The ids of the feed's entries in feed order: none for a missing entry, one
   * for a single entry, one per element of an array.
   */
  function EntryIds(f: FeedEntry): (ids: seq<string>)
    ensures f.NoEntry? ==> ids == []
    ensures f.OneEntry? ==> ids == [f.entry.id]
    ensures f.EntryArray? ==> |ids| == |f.entries| && forall k :: 0 <= k < |ids| ==> ids[k] == f.entries[k].id
  {
    var es := EntriesArray(f);
    seq(|es|, k requires 0 <= k < |es| => es[k].id)
  }

  /**
   * `searchArxiv`: a failed fetch, a non-OK status or a parse error (all folded
   * into `fetchFeed` rejecting) is re-thrown; otherwise the entry ids.
   */
  function SearchArxiv(params: ArxivSearchParams, fetchFeed: ArxivSearchParams -> Settled<FeedEntry>): (r: Settled<seq<Url>>)
    ensures r.Rejected? <==> fetchFeed(params).Rejected?
    ensures r.Resolved? ==> r.value == EntryIds(fetchFeed(params).value)
  {
    match fetchFeed(params)
    case Rejected => Rejected
    case Resolved(feed) => Resolved(EntryIds(feed))
  }
}
