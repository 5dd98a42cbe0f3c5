/** The request and result shapes shared by the backend (packages/types/src/types.ts). */
module Types {

  type Url = string

  /** The JSON body of both query endpoints. */
  datatype UserQuery = UserQuery(query: string, result_count: int)

  /** The parameters of one arXiv query. */
  datatype ArxivSearchParams = ArxivSearchParams(search_query: string, start: int, max_results: int)

  /** One summarised source of an LLM answer. */
  datatype Source = Source(title: string, url: Url, summary: string)

  /** The structured answer the LLM integration returns once its schema check has passed. */
  datatype LlmSearchResults = LlmSearchResults(query: string, summary: string, sources: seq<Source>)
}
