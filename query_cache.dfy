/**
 * The per-category single-flight cache of the backend (`performCachedRequest`
 * and the two cache maps, packages/backend/src/index.ts).
 *
 * JavaScript runs a call up to its first `await` without interruption, so one
 * call is two atomic steps:
 *  - Begin: the age check, then a Finished hit (served at once, and, as no
 *    `await` intervenes, the entry is rewritten in the same step), a join of
 *    the InProgress entry's promise, or a miss that starts one pipeline and
 *    inserts an InProgress entry;
 *  - Resume, when the awaited promise settles: on resolution, whatever entry is
 *    under the key at that moment becomes Finished with the value and the time;
 *    on rejection nothing happens (the exception escapes).
 * The clock is a parameter `now` (milliseconds); a promise is named by its
 * position in the log of pipelines started so far.
 */
module QueryCache {
  import opened Wrappers
  import opened Types
  import opened Pipelines

  const FIVE_MINUTES_IN_MS: int := 5 * 60 * 1000
  const DAY_IN_MS: int := 24 * 60 * 60 * 1000

  datatype JobStatus = InProgress | Finished

  /** A pipeline's promise: the position of that pipeline in the log of started pipelines. */
  type PromiseId = nat

  datatype CacheEntry = CacheEntry(promise: PromiseId, data: Option<LlmSearchResults>, timestamp: int, status: JobStatus)

  /** One cache: query text, verbatim, to its entry. */
  type Cache = map<string, CacheEntry>

  /** The two endpoints: `scientific_search` false (`/process-query`) or true (`/process-academic-query`). */
  datatype Category = Standard | Academic

  function Other(c: Category): Category {
    if c == Academic then Standard else Academic
  }

  /** The validity window of a category's entries. */
  function Ttl(c: Category): (ms: int)
    ensures c == Standard ==> ms == 300000
    ensures c == Academic ==> ms == 86400000
  {
    if c == Academic then DAY_IN_MS else FIVE_MINUTES_IN_MS
  }

  /** A started pipeline: the academic one for the academic category, the web one otherwise. */
  datatype Job = Job(category: Category, query: UserQuery)

  /** How a started pipeline settles, given the external services. */
  function RunJob(job: Job, up: Upstream): Settled<Option<LlmSearchResults>> {
    if job.category == Academic then PerformAcademicSearch(job.query, up) else PerformSearch(job.query, up)
  }

  /** Both caches and the pipelines started so far. */
  datatype CacheState = CacheState(normal: Cache, scientific: Cache, pipelines: seq<Job>)

  /**
   * How promise `p` settles: its pipeline run against `ups(p)`, what the
   * external services answered that pipeline.  A promise settles once, so every
   * `await` of it (lines 109 and 121) sees this one value.
   */
  function Outcome(s: CacheState, ups: PromiseId -> Upstream, p: PromiseId): (r: Settled<Option<LlmSearchResults>>)
    requires p < |s.pipelines|
    ensures s.pipelines[p].category == Academic ==> r != Resolved(None)
  {
    RunJob(s.pipelines[p], ups(p))
  }

  /** The map a category uses: `scientificQueryCache` for academic queries, `normalQueryCache` otherwise. */
  function CacheOf(s: CacheState, c: Category): Cache {
    if c == Academic then s.scientific else s.normal
  }

  function WithCache(s: CacheState, c: Category, m: Cache): (r: CacheState)
    ensures CacheOf(r, c) == m && CacheOf(r, Other(c)) == CacheOf(s, Other(c))
    ensures r.pipelines == s.pipelines
  {
    if c == Academic then s.(scientific := m) else s.(normal := m)
  }

  /** `isCacheValid`: the entry's last write is less than `ttl` ago. */
  predicate IsValidAt(e: CacheEntry, ttl: int, now: int) {
    now - e.timestamp < ttl
  }

  /** The age check: the entry under `key` stays only if it is still valid; nothing else changes. */
  function AgeCheck(m: Cache, key: string, ttl: int, now: int): (r: Cache)
    ensures key in r <==> key in m && IsValidAt(m[key], ttl, now)
    ensures forall k :: k in r ==> k in m && r[k] == m[k]
    ensures forall k :: k in m && k != key ==> k in r
  {
    if key in m && !IsValidAt(m[key], ttl, now) then m - {key} else m
  }

  /** Lines 123-129: if `key` is present, its entry becomes Finished with `value` and `now`, keeping its promise. */
  function Complete(m: Cache, key: string, value: Option<LlmSearchResults>, now: int): (r: Cache)
    ensures r.Keys == m.Keys
    ensures key in m ==> r[key] == CacheEntry(m[key].promise, value, now, Finished)
    ensures forall k :: k in m && k != key ==> r[k] == m[k]
  {
    if key in m then m[key := m[key].(status := Finished, data := value, timestamp := now)] else m
  }

  /** Where a call stands when its synchronous part ends: served, or awaiting a promise. */
  datatype Step = Served(data: Option<LlmSearchResults>) | Awaiting(promise: PromiseId)

  datatype Began = Began(state: CacheState, step: Step)

  /** The synchronous part of `performCachedRequest(query, c)` at time `now`. */
  function BeginStep(s: CacheState, q: UserQuery, c: Category, now: int): Began {
    var key := q.query;
    var m := AgeCheck(CacheOf(s, c), key, Ttl(c), now);
    if key in m && m[key].status == Finished then
      Began(WithCache(s, c, Complete(m, key, m[key].data, now)), Served(m[key].data))
    else if key in m then
      Began(WithCache(s, c, m), Awaiting(m[key].promise))
    else
      var p := |s.pipelines|;
      var s' := WithCache(s, c, m[key := CacheEntry(p, None, now, InProgress)]);
      Began(s'.(pipelines := s.pipelines + [Job(c, q)]), Awaiting(p))
  }

  /** The part of the call after its `await` settles with `settled`, at time `now`. */
  function ResumeStep(s: CacheState, c: Category, key: string, settled: Settled<Option<LlmSearchResults>>, now: int): CacheState {
    match settled
    case Rejected => s
    case Resolved(v) => WithCache(s, c, Complete(CacheOf(s, c), key, v, now))
  }

  // ---------------------------------------------------------------------------
  // The invariant: each entry's promise is the latest pipeline for its key
  // ---------------------------------------------------------------------------

  predicate StartedFor(job: Job, c: Category, key: string) {
    job.category == c && job.query.query == key
  }

  /** Pipeline `p` was started for `(c, key)` and no pipeline for `(c, key)` was started after it. */
  predicate Latest(jobs: seq<Job>, c: Category, key: string, p: nat) {
    p < |jobs| && StartedFor(jobs[p], c, key) &&
    forall j :: p < j < |jobs| ==> !StartedFor(jobs[j], c, key)
  }

  predicate CacheConsistent(m: Cache, c: Category, jobs: seq<Job>) {
    forall k :: k in m ==> Latest(jobs, c, k, m[k].promise)
  }

  /**
   * Every entry of either cache holds the promise of the most recent pipeline
   * started for its category and key: no second pipeline was started for a key
   * while its entry stayed in the cache.
   */
  predicate Consistent(s: CacheState) {
    CacheConsistent(s.normal, Standard, s.pipelines) && CacheConsistent(s.scientific, Academic, s.pipelines)
  }

  lemma WithCacheConsistent(s: CacheState, c: Category, m: Cache)
    requires Consistent(s) && CacheConsistent(m, c, s.pipelines)
    ensures Consistent(WithCache(s, c, m))
  {
  }

  /** A pipeline started for `(c, key)` leaves the consistency of every other category's or key's entry intact. */
  lemma StartKeepsOthers(m: Cache, mc: Category, jobs: seq<Job>, c: Category, q: UserQuery)
    requires CacheConsistent(m, mc, jobs)
    requires mc == c ==> q.query !in m
    ensures CacheConsistent(m, mc, jobs + [Job(c, q)])
  {
    var jobs' := jobs + [Job(c, q)];
    forall k | k in m
      ensures Latest(jobs', mc, k, m[k].promise)
    {
      assert Latest(jobs, mc, k, m[k].promise);
      assert !StartedFor(jobs'[|jobs|], mc, k);
    }
  }

  /** Begin keeps the invariant. */
  lemma {:induction false} BeginKeepsConsistent(s: CacheState, q: UserQuery, c: Category, now: int)
    requires Consistent(s)
    ensures Consistent(BeginStep(s, q, c, now).state)
  {
    var key := q.query;
    var m := AgeCheck(CacheOf(s, c), key, Ttl(c), now);
    assert CacheConsistent(m, c, s.pipelines);
    if key in m && m[key].status == Finished {
      WithCacheConsistent(s, c, Complete(m, key, m[key].data, now));
    } else if key in m {
      WithCacheConsistent(s, c, m);
    } else {
      var p := |s.pipelines|;
      var jobs' := s.pipelines + [Job(c, q)];
      var m' := m[key := CacheEntry(p, None, now, InProgress)];
      StartKeepsOthers(m, c, s.pipelines, c, q);
      StartKeepsOthers(CacheOf(s, Other(c)), Other(c), s.pipelines, c, q);
      assert Latest(jobs', c, key, p);
      assert CacheConsistent(m', c, jobs');
      var r := BeginStep(s, q, c, now).state;
      assert CacheOf(r, c) == m' && CacheOf(r, Other(c)) == CacheOf(s, Other(c)) && r.pipelines == jobs';
      assert c == Standard || c == Academic;
    }
  }

  /** Resume keeps the invariant. */
  lemma ResumeKeepsConsistent(s: CacheState, c: Category, key: string, settled: Settled<Option<LlmSearchResults>>, now: int)
    requires Consistent(s)
    ensures Consistent(ResumeStep(s, c, key, settled, now))
  {
    if settled.Resolved? {
      WithCacheConsistent(s, c, Complete(CacheOf(s, c), key, settled.value, now));
    }
  }

  /**
   * Under the invariant, the promise a call awaits, whether joined or just
   * started, is the most recent pipeline started for the call's category and
   * query: joining never hands a caller another query's or another category's
   * result, nor a superseded pipeline's.
   */
  lemma AwaitedPromiseIsLatest(s: CacheState, q: UserQuery, c: Category, now: int)
    requires Consistent(s)
    ensures BeginStep(s, q, c, now).step.Awaiting? ==>
              Latest(BeginStep(s, q, c, now).state.pipelines, c, q.query, BeginStep(s, q, c, now).step.promise)
  {
    var key := q.query;
    var m := AgeCheck(CacheOf(s, c), key, Ttl(c), now);
    assert CacheConsistent(CacheOf(s, c), c, s.pipelines) by {
      if c == Standard { } else { }
    }
    if key in m && m[key].status != Finished {
      assert m[key] == CacheOf(s, c)[key];
    }
  }

  /**
   * Neither step of a call rewrites a started pipeline: the log only grows, so
   * every promise keeps its pipeline and its outcome across all later steps.
   */
  lemma OutcomesAreStable(s: CacheState, q: UserQuery, c: Category, key: string,
                          settled: Settled<Option<LlmSearchResults>>, now: int, ups: PromiseId -> Upstream, p: PromiseId)
    requires p < |s.pipelines|
    ensures p < |BeginStep(s, q, c, now).state.pipelines|
    ensures Outcome(BeginStep(s, q, c, now).state, ups, p) == Outcome(s, ups, p)
    ensures p < |ResumeStep(s, c, key, settled, now).pipelines|
    ensures Outcome(ResumeStep(s, c, key, settled, now), ups, p) == Outcome(s, ups, p)
  {
    var jobs := BeginStep(s, q, c, now).state.pipelines;
    assert jobs == s.pipelines || jobs == s.pipelines + [Job(c, q)];
    assert jobs[p] == s.pipelines[p];
  }

  // ---------------------------------------------------------------------------
  // The two caches as the backend holds them
  // ---------------------------------------------------------------------------

  /**
   * The process-wide caches `normalQueryCache` and `scientificQueryCache`, the
   * pipelines started, and what the external services answer each pipeline.
   */
  class QueryCaches {
    /** Pipeline `p` runs against `upstream(p)`; fixed for the life of the process. */
    const upstream: PromiseId -> Upstream
    var normalQueryCache: Cache
    var scientificQueryCache: Cache
    var pipelines: seq<Job>

    function Snapshot(): CacheState
      reads this
    {
      CacheState(normalQueryCache, scientificQueryCache, pipelines)
    }

    ghost predicate Valid()
      reads this
    {
      Consistent(Snapshot())
    }

    constructor (upstream: PromiseId -> Upstream)
      ensures Valid()
      ensures Snapshot() == CacheState(map[], map[], [])
      ensures this.upstream == upstream
    {
      this.upstream := upstream;
      normalQueryCache := map[];
      scientificQueryCache := map[];
      pipelines := [];
    }

    /** The map of category `c` (the `queryCache` argument). */
    function CacheFor(c: Category): Cache
      reads this
    {
      CacheOf(Snapshot(), c)
    }

    /**
     * Replaces the map of category `c` (one `Map` operation on it).  An internal
     * step of `Begin` and `Resume`: on its own it need not keep `Valid()`.
     */
    method Store(c: Category, m: Cache)
      modifies this
      ensures Snapshot() == WithCache(old(Snapshot()), c, m)
    {
      if c == Academic {
        scientificQueryCache := m;
      } else {
        normalQueryCache := m;
      }
    }

    /**
     * Line 113: starts the pipeline of category `c` for `query`, returning its
     * promise.  An internal step of `Begin`: on its own it need not keep `Valid()`
     * (an entry already under the key would no longer hold the latest pipeline).
     */
    method StartPipeline(c: Category, query: UserQuery) returns (p: PromiseId)
      modifies this
      ensures p == |old(pipelines)|
      ensures Snapshot() == old(Snapshot()).(pipelines := old(pipelines) + [Job(c, query)])
    {
      p := |pipelines|;
      pipelines := pipelines + [Job(c, query)];
    }

    /**
     * Lines 123-129: the entry now under `key`, if any, becomes Finished with
     * `value` and `now`.  An internal step of `Begin` and `Resume`.
     */
    method MarkFinished(c: Category, key: string, value: Option<LlmSearchResults>, now: int)
      modifies this
      ensures Snapshot() == WithCache(old(Snapshot()), c, Complete(old(CacheFor(c)), key, value, now))
    {
      var cache := CacheFor(c);
      if key in cache {
        var cachedEntry := cache[key];
        cachedEntry := cachedEntry.(status := Finished);
        cachedEntry := cachedEntry.(data := value);
        cachedEntry := cachedEntry.(timestamp := now);
        Store(c, cache[key := cachedEntry]);
      }
    }

    /**
     * The synchronous part of `performCachedRequest(query, c)` at time `now`:
     * lines 87-120, and lines 123-131 too on a Finished hit.
     */
    method Begin(query: UserQuery, c: Category, now: int) returns (step: Step)
      requires Valid()
      modifies this
      ensures Valid()
      ensures Snapshot() == BeginStep(old(Snapshot()), query, c, now).state
      ensures step == BeginStep(old(Snapshot()), query, c, now).step
      ensures old(pipelines) <= pipelines
    {
      ghost var s := Snapshot();
      var query_text := query.query;
      var queryCache := CacheFor(c);
      if query_text in queryCache {
        var cachedEntry := queryCache[query_text];
        var isCacheValid := now - cachedEntry.timestamp < Ttl(c);
        if !isCacheValid {
          Store(c, queryCache - {query_text});
        }
      }
      queryCache := CacheFor(c);
      assert queryCache == AgeCheck(CacheOf(s, c), query_text, Ttl(c), now);
      if query_text in queryCache {
        var entry := queryCache[query_text];
        if entry.status == Finished {
          step := Served(entry.data);
          MarkFinished(c, query_text, entry.data, now);
        } else {
          step := Awaiting(entry.promise);
        }
      } else {
        var llm_promise := StartPipeline(c, query);
        var newCacheEntry := CacheEntry(llm_promise, None, now, InProgress);
        Store(c, queryCache[query_text := newCacheEntry]);
        step := Awaiting(llm_promise);
      }
      BeginKeepsConsistent(s, query, c, now);
    }

    /**
     * The rest of a call that awaited promise `p`, once it settles at time `now`
     * (lines 121-131).  The awaited promise is a pipeline started for this
     * category and query (`AwaitedPromiseIsLatest`).  Returns what the call
     * yields: the promise's one outcome, never undefined for an academic call.
     */
    method Resume(query_text: string, c: Category, p: PromiseId, now: int)
      returns (llm_response: Settled<Option<LlmSearchResults>>)
      requires Valid()
      requires p < |pipelines| && StartedFor(pipelines[p], c, query_text)
      modifies this
      ensures Valid()
      ensures llm_response == Outcome(old(Snapshot()), upstream, p)
      ensures c == Academic ==> llm_response != Resolved(None)
      ensures Snapshot() == ResumeStep(old(Snapshot()), c, query_text, llm_response, now)
    {
      ghost var s := Snapshot();
      llm_response := RunJob(pipelines[p], upstream(p));
      assert llm_response == Outcome(s, upstream, p);
      if llm_response.Resolved? {
        MarkFinished(c, query_text, llm_response.value, now);
      }
      ResumeKeepsConsistent(s, c, query_text, llm_response, now);
    }
  }
}
