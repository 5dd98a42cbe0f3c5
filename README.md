# llama-search backend core in Dafny

This project models the stateful and algorithmic core of the llama-search backend.
The backend takes a natural-language query, fetches candidate URLs from a search
provider, asks an LLM to summarise them, and caches the answer. Two parts are modelled:

- **The single-flight cache** of `performCachedRequest` (`packages/backend/src/index.ts`).
  There are two per-category maps, `normalQueryCache` (TTL 5 minutes) and
  `scientificQueryCache` (TTL 24 hours). Each maps the query text to an entry
  `{promise, data, timestamp, status}`. JavaScript runs a call up to its first `await`
  without interruption, so one call is two atomic steps:
  - `BeginStep` runs the age check, then one of three branches: a Finished hit, a join
    of an InProgress entry, or a miss that starts one pipeline.
  - `ResumeStep` runs when the awaited promise settles.

  The class `QueryCaches` holds the two maps as fields. Its methods `Begin` and
  `Resume` change them step by step: delete, set, and the in-place rewrite of lines
  126-128. Both methods are proved equal to those step functions, and they keep an
  invariant: every entry holds the promise of the latest pipeline started for its key.
  The pipelines `performSearch` and `performAcademicSearch` are functions of the
  external services they call.
- **URL ordering** in `packages/backend/src/web_searcher.ts`:
  - `extractOrderedUrls` walks the `mixed.main` ranking with a `result_used` array;
  - the URL selection of `performWebSearch`;
  - the normalisation of arXiv's `feed.entry` in `searchArxiv`.

Modules: `Wrappers` (Option, and `Settled`: a promise resolved with a value or
rejected), `Types`, `UrlOrder`, `WebSearcher`, `Environment`, `Pipelines`,
`QueryCache`, `CacheProperties`.

Time is the parameter `now`, in milliseconds. A promise is named by its position in
the log of pipelines started so far. The external services (Brave, arXiv, the LLM) are
functions from their request to a `Settled` result. The model uses one `now` per
atomic step. In the source one synchronous run reads the clock at most twice: at
lines 90 and 117 for a miss after a stale entry, at lines 90 and 128 for a Finished
hit. The model gives both reads the same value (see "## Left out").

A Finished hit does not `await`. So its completion block (lines 123-129) runs in the
same step: the entry is rewritten with the same data and the current time. The
model's `Begin` does that rewrite itself. `performCachedRequest` takes the flag
`scientific_search` and the map as separate arguments. Both endpoints pass them
together (false with the normal map, true with the scientific map), so the model
joins them into one `Category`.

On rejection, the error propagates to every waiting caller, and the entry is neither
finished nor removed. It stays InProgress with its creation time, and later calls
within the window rejoin the rejected promise (`RejectionWedgesKey`).

## Model

| member | source | states |
|---|---|---|
| `QueryCache.IsValidAt` | packages/backend/src/index.ts:90 | definition: an entry is valid when less than the TTL has passed since its timestamp |
| `QueryCache.RunJob` | packages/backend/src/index.ts:113 | definition: a started pipeline settles as `performAcademicSearch` for the academic category and as `performSearch` otherwise |
| `QueryCache.Outcome` | packages/backend/src/index.ts:109-121 | a promise settles as its pipeline run against what the services answered it; an academic pipeline never settles with undefined |
| `QueryCache.OutcomesAreStable` | packages/backend/src/index.ts:86-131 | neither step of a call rewrites a started pipeline, so every promise keeps its outcome across all later steps |
| `QueryCache.BeginStep` | packages/backend/src/index.ts:86-129 | definition of the synchronous part of a call: age check, then a Finished hit served and re-stamped, an InProgress entry joined, or a new pipeline started and stored InProgress; its properties are the `CacheProperties` lemmas |
| `QueryCache.ResumeStep` | packages/backend/src/index.ts:121-131 | definition of the part after `await`: a rejection changes nothing, a resolution completes whatever entry is under the key |
| `QueryCache.Ttl` | packages/backend/src/index.ts:62-63 | the standard window is 300000 ms, the academic one 86400000 ms |
| `QueryCache.AgeCheck` | packages/backend/src/index.ts:88-95 | the key keeps its entry iff the entry is younger than the TTL; other keys and their entries are untouched |
| `QueryCache.Complete` | packages/backend/src/index.ts:123-129 | the key set is unchanged; if present, the key's entry becomes Finished with the value and `now` and keeps its promise; other entries are unchanged |
| `QueryCache.BeginKeepsConsistent` | packages/backend/src/index.ts:86-120 | the synchronous part of a call preserves the invariant that every entry holds the latest pipeline started for its category and key |
| `QueryCache.ResumeKeepsConsistent` | packages/backend/src/index.ts:121-131 | the completion step preserves the same invariant |
| `QueryCache.QueryCaches.constructor` | packages/backend/src/index.ts:60-61 | both maps start empty, no pipeline has started, the invariant holds; `upstream` fixes what the services answer each pipeline |
| `QueryCache.QueryCaches.Store` | packages/backend/src/index.ts:94 | the category's map is replaced and nothing else changes, as for the Map `delete` and `set` calls |
| `QueryCache.QueryCaches.StartPipeline` | packages/backend/src/index.ts:113 | exactly one pipeline of the given category is appended to the log; its promise is the new position |
| `QueryCache.QueryCaches.MarkFinished` | packages/backend/src/index.ts:123-129 | the new state is `Complete` applied to the old map of the category; the other map is untouched |
| `QueryCache.QueryCaches.Begin` | packages/backend/src/index.ts:86-120 | the new state and the step (served or awaiting) are those of `BeginStep` on the old state; the log of pipelines only grows; the invariant is kept |
| `QueryCache.QueryCaches.Resume` | packages/backend/src/index.ts:121-131 | for an awaited promise `p` started for this category and query, the call yields `Outcome` of `p`, the one value that promise settles with, never undefined for an academic call; the new state is `ResumeStep` on the old state with that value; the invariant is kept |
| `QueryCache.AwaitedPromiseIsLatest` | packages/backend/src/index.ts:106-121 | under the invariant, the promise a call awaits (joined at line 109 or started at line 113) is the latest pipeline started for its category and query, so `Resume`'s precondition holds for it |
| `CacheProperties.StaleEntryIsReplaced` | packages/backend/src/index.ts:88-95 | an entry with `now - timestamp >= TTL`, whatever its status, is replaced; the call starts a new pipeline and awaits it |
| `CacheProperties.FinishedHitIsServed` | packages/backend/src/index.ts:102-129 | a valid Finished entry is served at once with its data, no pipeline starts, and the entry's timestamp becomes `now` |
| `CacheProperties.InProgressEntryIsJoined` | packages/backend/src/index.ts:106-109 | a valid InProgress entry is joined: the call awaits the stored promise, no pipeline starts, nothing changes |
| `CacheProperties.MissStartsOnePipeline` | packages/backend/src/index.ts:112-120 | with no entry left, exactly one pipeline of the call's category starts (academic iff `scientific_search`); the key maps to InProgress, no data, `now`, that promise |
| `CacheProperties.BeginReadsOnlyItsKey` | packages/backend/src/index.ts:86-120 | two states that agree on the key's entry in the call's map and on the number of started pipelines give the same step and the same new entry under the key |
| `CacheProperties.BeginTouchesOnlyItsKey` | packages/backend/src/index.ts:86-120 | a call changes only its own key in its own category's map and adds at most one pipeline |
| `CacheProperties.ResumeCompletesCurrentEntry` | packages/backend/src/index.ts:121-131 | after resolution, the entry under the key now becomes Finished with the value and time and keeps its promise; an absent key is not re-inserted; a rejection changes nothing; other keys and the other map are untouched |
| `CacheProperties.CategoriesAreIsolated` | packages/backend/src/index.ts:168 | an entry in one category's map is never served to the other category: the call is a miss there |
| `CacheProperties.LaterCallsJoin` | packages/backend/src/index.ts:106-109 | any number of calls within the window of an InProgress entry all await its promise and leave the state unchanged |
| `CacheProperties.Coalescing` | packages/backend/src/index.ts:86-122 | N calls for a missing query within the first call's window start exactly one pipeline, and all N await that one promise |
| `CacheProperties.CoalescedCallsShareOutcome` | packages/backend/src/index.ts:106-121 | every one of the N coalesced calls awaits a promise whose outcome is that of the one pipeline they started |
| `CacheProperties.CoalescedCallsAgree` | packages/backend/src/index.ts:86-131 | on one set of caches, a call and a second call within its window both yield the outcome of the first call's pipeline, whatever times they resume at |
| `CacheProperties.RejectionsChangeNothing` | packages/backend/src/index.ts:121-123 | awaiting calls whose promise rejects skip the completion block, so the state is unchanged |
| `CacheProperties.ResolutionsFinishEntry` | packages/backend/src/index.ts:123-129 | after the awaiting calls resume with a resolved value, the entry is Finished with it, stamped with the last completion time |
| `CacheProperties.RejectionWedgesKey` | packages/backend/src/index.ts:90-94 | after a rejection the entry stays InProgress with its creation time: later calls in the window rejoin the rejected promise, and only the age check lets a new pipeline start |
| `CacheProperties.HitsSlideExpiry` | packages/backend/src/index.ts:102-129 | hits each within the window of the previous one are all served the stored data with no pipeline, however far apart the first and last are; the entry's timestamp is the last hit's |
| `CacheProperties.LateCompletionOverwritesNewerEntry` | packages/backend/src/index.ts:123-129 | if an entry expired and was replaced while its pipeline ran, that pipeline's completion writes its result into the newer entry |
| `CacheProperties.RustOwnershipScenario` | packages/backend/src/index.ts:86-132 | first call starts a pipeline; a call 1 s after completion is served without a new one; a call 6 minutes later starts a second |
| `Pipelines.Summary` | packages/backend/src/index.ts:69 | an LLM call's rejection propagates; its value becomes a defined pipeline result |
| `Pipelines.SummariseUrls` | packages/backend/src/index.ts:67-70 | definition: a rejected URL search propagates, undefined URLs give undefined, a URL list is summarised with the query text |
| `Pipelines.ArxivParamsFor` | packages/backend/src/index.ts:74-78 | definition: the query text, start 0 and `result_count` as the maximum; stated by `AcademicParams` |
| `Pipelines.PerformSearch` | packages/backend/src/index.ts:66-71 | the result is undefined iff the web search yields no URL list; a rejection propagates; a URL list is summarised with the query text |
| `Pipelines.PerformAcademicSearch` | packages/backend/src/index.ts:73-84 | with the arXiv ids resolved, the result is the LLM summary of those ids, so it is never undefined; a rejection propagates |
| `Pipelines.AcademicParams` | packages/backend/src/index.ts:74-78 | the academic search uses the query text, `start = 0` and `max_results = result_count` |
| `Pipelines.StandardSkipsLlmWithoutUrls` | packages/backend/src/index.ts:67-70 | when the web search rejects or yields undefined, the LLM is not consulted: any other LLM gives the same result |
| `Pipelines.StandardSummarisesEmptyList` | packages/backend/src/index.ts:68-69 | an empty URL list is still summarised |
| `Pipelines.PipelinesUseOwnProvider` | packages/backend/src/index.ts:66-84 | the academic pipeline does not depend on the web search, and the standard one does not depend on arXiv |
| `Environment.IsMissing` | packages/backend/src/index.ts:12 | definition: `!process.env[key]`, the key is unset or empty |
| `Environment.Join` | packages/backend/src/index.ts:15 | definition: `Array.prototype.join`, the parts with the separator between neighbours |
| `Environment.MissingAmong` | packages/backend/src/index.ts:12 | a key is reported iff it is required and unset or empty; the report keeps the required order |
| `Environment.ValidateEnvVariables` | packages/backend/src/index.ts:10-17 | no error iff every required key is set and non-empty; otherwise the message lists the missing keys joined by ", " |
| `Environment.OnlyBraveKeyMissing` | packages/backend/src/index.ts:11-16 | with only the Groq key set, the error names exactly `BRAVE_API_KEY` |
| `UrlOrder.Urls` | packages/backend/src/web_searcher.ts:59 | the URLs of the web results, one per result, in order |
| `UrlOrder.UsedLength` | packages/backend/src/web_searcher.ts:15 | definition: `new Array(web?.results.length)` has one slot per web result, and one slot when `web` is missing |
| `UrlOrder.NoneUsed` | packages/backend/src/web_searcher.ts:15 | `result_used` after `.fill(false)`: `UsedLength` slots, none marked |
| `UrlOrder.UrlAt` | packages/backend/src/web_searcher.ts:29 | a URL exists iff `web` is present and the index is in range, and it is that result's URL |
| `UrlOrder.Mark` | packages/backend/src/web_searcher.ts:30 | `result_used[index] = true` keeps the length; `MarkSetsOnlyItsSlot` states that only that slot becomes marked |
| `UrlOrder.MarkSetsOnlyItsSlot` | packages/backend/src/web_searcher.ts:30 | after marking `i`, a slot is marked iff it was marked before or it is slot `i` |
| `UrlOrder.Remaining` | packages/backend/src/web_searcher.ts:21-22 | the `all` branch picks one position per unused slot; as written the positions are 0..k-1 (the filtered list's `idx`), as intended the unused slots themselves |
| `UrlOrder.UrlsAt` | packages/backend/src/web_searcher.ts:21-24 | the URLs at the given positions, out-of-range ones dropped: at most one per position, none without `web` |
| `UrlOrder.UrlsAtAreWebUrls` | packages/backend/src/web_searcher.ts:21-24 | every URL taken is a web result's URL, and the URL of every in-range position is taken |
| `UrlOrder.OrderedFrom` | packages/backend/src/web_searcher.ts:16-34 | definition of the walk: skip non-qualifying entries, stop at the first `all` entry after appending its picks, otherwise append the indexed URL if any and mark the slot |
| `UrlOrder.OrderedUrls` | packages/backend/src/web_searcher.ts:14-36 | definition: the walk from no marks with the `all` branch as written |
| `UrlOrder.OrderedUrlsIntended` | packages/backend/src/web_searcher.ts:14-36 | definition: the same walk with the `all` branch appending the unused results |
| `UrlOrder.UnusedSlots` | packages/backend/src/web_searcher.ts:21 | `result_used.filter(used => !used)` keeps exactly the unmarked slots, each once, in increasing order |
| `UrlOrder.ExtractOrderedUrls` | packages/backend/src/web_searcher.ts:11-38 | undefined iff `mixed.main` is undefined; otherwise the walk's result as written, and every URL is a web result's URL |
| `UrlOrder.OrderedUrlsAreWebUrls` | packages/backend/src/web_searcher.ts:16-34 | every returned URL is a web result's URL; the length is at most the plain references processed plus the number of web results |
| `UrlOrder.NonQualifyingRefsIgnored` | packages/backend/src/web_searcher.ts:17-19 | entries not of type "web" or without an index change nothing: dropping them gives the same output |
| `UrlOrder.FirstAllEndsLoop` | packages/backend/src/web_searcher.ts:20-27 | whatever follows the first qualifying `all` entry is ignored |
| `UrlOrder.PlainRefsInRankingOrder` | packages/backend/src/web_searcher.ts:28-34 | without an `all` entry the output is the URL at each index in ranking order, repeats included and out-of-range indices skipped |
| `UrlOrder.MarkAllMarksReferenced` | packages/backend/src/web_searcher.ts:30 | after the plain entries, a slot is marked iff it was marked before or some qualifying entry names it |
| `UrlOrder.WalkSplitsAtPrefix` | packages/backend/src/web_searcher.ts:16-34 | after any prefix of the ranking without an `all` entry, the output is the lookups of that prefix followed by the walk over the rest, from the marks the prefix left |
| `UrlOrder.AllEntryAppendsRemaining` | packages/backend/src/web_searcher.ts:16-33 | with an `all` entry, the output is the lookups before it followed by the URLs the `all` rule picks from the marks left by those lookups |
| `UrlOrder.AllBranchTakesFirstResults` | packages/backend/src/web_searcher.ts:21-26 | as written, [web:2, web:0, all] over [A,B,C,D] yields [C,A,A,B], so D is lost |
| `UrlOrder.UnindexedAllEntryIsSkipped` | packages/backend/src/web_searcher.ts:17-19 | an `all` entry without an index fails the guard before the `all` flag is read: [web:2, web:0, all with no index] over [A,B,C,D] yields [C,A] under either `all` branch |
| `UrlOrder.IntendedAllBranchAppendsUnused` | packages/backend/src/web_searcher.ts:21-26 | with the intended `all` branch the same ranking yields [C,A,B,D] |
| `UrlOrder.IntendedCoversUnusedResults` | packages/backend/src/web_searcher.ts:21-26 | with the intended `all` branch, each web result whose slot is unused at the start is returned |
| `UrlOrder.IntendedReturnsEveryResult` | packages/backend/src/web_searcher.ts:21-26 | with the intended `all` branch and a qualifying `all` entry, every web result's URL is returned |
| `WebSearcher.BraveRequestFor` | packages/backend/src/web_searcher.ts:47-53 | definition of the Brave request; stated by `BraveRequestOptions` |
| `WebSearcher.EntriesArray` | packages/backend/src/web_searcher.ts:120-123 | definition: `entry || []`, then wrapped in an array unless it already is one; stated by `EntryIds` |
| `WebSearcher.BraveRequestOptions` | packages/backend/src/web_searcher.ts:47-53 | the Brave request carries the query text and `result_count`, safe search off, language "en", country "US", no text decorations |
| `WebSearcher.SelectUrls` | packages/backend/src/web_searcher.ts:57-64 | without `mixed.main`: every web result's URL in order, or undefined without `web`; with it, the ordered extraction; every URL is a web result's URL |
| `WebSearcher.PerformWebSearch` | packages/backend/src/web_searcher.ts:41-70 | rejects iff the Brave call rejects; otherwise yields the selected URLs of the response |
| `WebSearcher.EntryIds` | packages/backend/src/web_searcher.ts:120-126 | a missing entry gives [], a single entry gives [its id], an array gives its ids in order |
| `WebSearcher.SearchArxiv` | packages/backend/src/web_searcher.ts:91-133 | rejects iff fetching or parsing the feed fails; otherwise yields the entry ids |

## Findings

| source | as written | input that shows it | evidently intended | confidence | as-written member | corrected member |
|---|---|---|---|---|---|---|
| packages/backend/src/web_searcher.ts:21-22 | the `all` branch filters `result_used` down to its unused slots, then maps each to a web result by its position in the filtered list, so it appends the first k web results (k = number of unused slots) | ranking [web:2, web:0, all] over web results [A,B,C,D] yields [C,A,A,B] | append the unused results themselves in their own order (the name `all_remaining_urls`), giving [C,A,B,D] | high; not executed | `UrlOrder.AllBranchTakesFirstResults` | `UrlOrder.IntendedReturnsEveryResult` |

A second, lesser oddity sits in the guard at lines 17-19: an `all` entry must also
carry an index, or it is skipped like a non-web entry and the walk goes on
(`UnindexedAllEntryIsSkipped`). Whether Brave ever sends an unindexed `all` entry is
not known here, so it is not claimed as a finding.

`UrlOrder.OrderedFrom` takes the `all` rule as a parameter. `AsWritten` is the code's
behaviour and `Intended` is the corrected one. `ExtractOrderedUrls`, `SelectUrls` and
the standard pipeline keep the code's behaviour, so that they model the backend as
deployed. `OrderedUrlsIntended` is the corrected definition.

## Left out

- HTTP plumbing is not modelled: Express routing, CORS, the session cookie with
  `uuid`, `app.listen` and console logging. This includes the `!query` 400 response
  and the 500 response for a rejected call. `Begin` accepts any query text.
- The clock is not modelled. `Date.now()` is the parameter `now`, one value per
  atomic step. The source's two reads in one synchronous run (lines 90 and 117, or
  90 and 128) may differ by the time the run takes. The model takes them as equal.
- The JavaScript event loop is not modelled. The model splits a call at its only
  `await`. What the external services answer each pipeline is the constructor's
  `upstream` argument, one `Upstream` per promise.
- The Brave client, `fetch`, `URLSearchParams`, the XML parser and the Groq call with
  `JSON.parse` and the zod schema check are all external. They are parameters, as
  functions from request to result.
- `packages/backend/src/llm_integration.ts`, the frontend and `packages/types` are not
  part of this model. Only their data shapes are used.
- `.at()` with a negative index is not modelled: indices are natural numbers. A write
  past the end of `result_used` is treated as no change. This matches `filter`, which
  skips holes and never reports such a slot as unused.
- Of an arXiv entry, only the fields the backend declares as strings are kept. The
  author and link fields are not read by the code.
