/**
 * The two query pipelines of the backend (`performSearch` and
 * `performAcademicSearch`, packages/backend/src/index.ts): fetch URLs from a
 * search provider, then, when a URL list was obtained (even an empty one), ask
 * the LLM to summarise it.  The providers are parameters.  A rejection from any
 * of them is not caught, so the pipeline's promise rejects.
 */
module Pipelines {
  import opened Wrappers
  import opened Types
  import opened UrlOrder
  import opened WebSearcher

  /** The external services, each as a function from its request to how it settles. */
  datatype Upstream = Upstream(
    brave: BraveRequest -> Settled<WebSearchResponse>,
    arxiv: ArxivSearchParams -> Settled<FeedEntry>,
    llm: (string, seq<Url>) -> Settled<LlmSearchResults>)

  /** How an LLM call settles, seen as the pipeline's result (`llm_search` never returns undefined). */
  function Summary(s: Settled<LlmSearchResults>): (r: Settled<Option<LlmSearchResults>>)
    ensures r.Rejected? <==> s.Rejected?
    ensures r.Resolved? ==> r.value == Some(s.value)
  {
    match s
    case Rejected => Rejected
    case Resolved(v) => Resolved(Some(v))
  }

  /** The common shape: a rejected search propagates, undefined URLs give undefined, URLs are summarised. */
  function SummariseUrls(queryText: string, urls: Settled<Option<seq<Url>>>, llm: (string, seq<Url>) -> Settled<LlmSearchResults>): Settled<Option<LlmSearchResults>> {
    match urls
    case Rejected => Rejected
    case Resolved(None) => Resolved(None)
    case Resolved(Some(us)) => Summary(llm(queryText, us))
  }

  /** `performSearch`: web search, then the LLM on the URLs it returned. */
  function PerformSearch(q: UserQuery, up: Upstream): (r: Settled<Option<LlmSearchResults>>)
    ensures r == Resolved(None) <==> PerformWebSearch(q, up.brave) == Resolved(None)
    ensures PerformWebSearch(q, up.brave).Rejected? ==> r.Rejected?
    ensures PerformWebSearch(q, up.brave).Resolved? && PerformWebSearch(q, up.brave).value.Some? ==>
              r == Summary(up.llm(q.query, PerformWebSearch(q, up.brave).value.value))
  {
    SummariseUrls(q.query, PerformWebSearch(q, up.brave), up.llm)
  }

  /** The arXiv parameters of an academic query. */
  function ArxivParamsFor(q: UserQuery): ArxivSearchParams {
    ArxivSearchParams(q.query, 0, q.result_count)
  }

  /** `performAcademicSearch`: arXiv search from the first result, then the LLM on the entry ids. */
  function PerformAcademicSearch(q: UserQuery, up: Upstream): (r: Settled<Option<LlmSearchResults>>)
    ensures up.arxiv(ArxivParamsFor(q)).Rejected? ==> r.Rejected?
    ensures up.arxiv(ArxivParamsFor(q)).Resolved? ==>
              r == Summary(up.llm(q.query, EntryIds(up.arxiv(ArxivParamsFor(q)).value)))
    ensures r != Resolved(None)
  {
    var urls := SearchArxiv(ArxivParamsFor(q), up.arxiv);
    SummariseUrls(q.query, match urls case Rejected => Rejected case Resolved(ids) => Resolved(Some(ids)), up.llm)
  }

  /** The academic search starts at result 0 and asks for `result_count` results. */
  lemma AcademicParams(q: UserQuery)
    ensures ArxivParamsFor(q).search_query == q.query
    ensures ArxivParamsFor(q).start == 0 && ArxivParamsFor(q).max_results == q.result_count
  {
  }

  /** When the web search rejects or yields no URL list, the LLM is not consulted: any other LLM gives the same result. */
  lemma StandardSkipsLlmWithoutUrls(q: UserQuery, up: Upstream, otherLlm: (string, seq<Url>) -> Settled<LlmSearchResults>)
    requires !(PerformWebSearch(q, up.brave).Resolved? && PerformWebSearch(q, up.brave).value.Some?)
    ensures PerformSearch(q, up) == PerformSearch(q, up.(llm := otherLlm))
  {
  }

  /** An empty URL list is still summarised. */
  lemma StandardSummarisesEmptyList(q: UserQuery, up: Upstream)
    requires PerformWebSearch(q, up.brave) == Resolved(Some([]))
    ensures PerformSearch(q, up) == Summary(up.llm(q.query, []))
  {
  }

  /** The academic pipeline never consults the web search, and the standard one never consults arXiv. */
  lemma PipelinesUseOwnProvider(q: UserQuery, up: Upstream,
                                otherBrave: BraveRequest -> Settled<WebSearchResponse>,
                                otherArxiv: ArxivSearchParams -> Settled<FeedEntry>)
    ensures PerformAcademicSearch(q, up) == PerformAcademicSearch(q, up.(brave := otherBrave))
    ensures PerformSearch(q, up) == PerformSearch(q, up.(arxiv := otherArxiv))
  {
  }
}
