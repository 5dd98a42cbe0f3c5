/**
 * What the single-flight cache promises, stated over its atomic steps
 * (`BeginStep` and `ResumeStep`): one step at a time, and over sequences of
 * calls for the same query.
 */
module CacheProperties {
  import opened Wrappers
  import opened Types
  import opened Pipelines
  import opened QueryCache

  // ---------------------------------------------------------------------------
  // One call
  // ---------------------------------------------------------------------------

  /**
   * An entry whose last write is `Ttl(c)` or more ago is deleted before the
   * lookup, whatever its status: the call is a miss and starts a new pipeline.
   */
  lemma StaleEntryIsReplaced(s: CacheState, q: UserQuery, c: Category, now: int)
    requires q.query in CacheOf(s, c) && !IsValidAt(CacheOf(s, c)[q.query], Ttl(c), now)
    ensures BeginStep(s, q, c, now).step == Awaiting(|s.pipelines|)
    ensures BeginStep(s, q, c, now).state.pipelines == s.pipelines + [Job(c, q)]
    ensures CacheOf(BeginStep(s, q, c, now).state, c)[q.query] == CacheEntry(|s.pipelines|, None, now, InProgress)
  {
  }

  /**
   * A valid Finished entry is served without starting a pipeline, and the same
   * step rewrites it with the same data and the current time.
   */
  lemma FinishedHitIsServed(s: CacheState, q: UserQuery, c: Category, now: int)
    requires q.query in CacheOf(s, c)
    requires CacheOf(s, c)[q.query].status == Finished && IsValidAt(CacheOf(s, c)[q.query], Ttl(c), now)
    ensures BeginStep(s, q, c, now).step == Served(CacheOf(s, c)[q.query].data)
    ensures BeginStep(s, q, c, now).state.pipelines == s.pipelines
    ensures CacheOf(BeginStep(s, q, c, now).state, c)[q.query] ==
              CacheOf(s, c)[q.query].(timestamp := now)
  {
  }

  /** A valid InProgress entry is joined: no pipeline starts, nothing changes, the call awaits the stored promise. */
  lemma InProgressEntryIsJoined(s: CacheState, q: UserQuery, c: Category, now: int)
    requires q.query in CacheOf(s, c)
    requires CacheOf(s, c)[q.query].status == InProgress && IsValidAt(CacheOf(s, c)[q.query], Ttl(c), now)
    ensures BeginStep(s, q, c, now).step == Awaiting(CacheOf(s, c)[q.query].promise)
    ensures BeginStep(s, q, c, now).state == s
  {
  }

  /**
   * With no entry left after the age check, exactly one pipeline starts, of the
   * call's category, and before any `await` the key maps to an InProgress entry
   * with no data, the current time and that pipeline's promise.
   */
  lemma MissStartsOnePipeline(s: CacheState, q: UserQuery, c: Category, now: int)
    requires q.query !in AgeCheck(CacheOf(s, c), q.query, Ttl(c), now)
    ensures BeginStep(s, q, c, now).step == Awaiting(|s.pipelines|)
    ensures BeginStep(s, q, c, now).state.pipelines == s.pipelines + [Job(c, q)]
    ensures CacheOf(BeginStep(s, q, c, now).state, c)[q.query] == CacheEntry(|s.pipelines|, None, now, InProgress)
  {
  }

  /**
   * A call touches only the entry of its own query in its own category's map;
   * the other map is untouched, and at most one pipeline is added.
   */
  lemma BeginTouchesOnlyItsKey(s: CacheState, q: UserQuery, c: Category, now: int)
    ensures CacheOf(BeginStep(s, q, c, now).state, Other(c)) == CacheOf(s, Other(c))
    ensures forall k :: k != q.query ==>
              (k in CacheOf(BeginStep(s, q, c, now).state, c) <==> k in CacheOf(s, c)) &&
              (k in CacheOf(s, c) ==> CacheOf(BeginStep(s, q, c, now).state, c)[k] == CacheOf(s, c)[k])
    ensures BeginStep(s, q, c, now).state.pipelines in {s.pipelines, s.pipelines + [Job(c, q)]}
  {
  }

  /**
   * What a call does depends only on its own key's entry in its own category's
   * map and on how many pipelines have started: two states that agree on those
   * give the same step and leave the same entry under the key.
   */
  lemma BeginReadsOnlyItsKey(s: CacheState, s': CacheState, q: UserQuery, c: Category, now: int)
    requires (q.query in CacheOf(s, c)) == (q.query in CacheOf(s', c))
    requires q.query in CacheOf(s, c) ==> CacheOf(s, c)[q.query] == CacheOf(s', c)[q.query]
    requires |s.pipelines| == |s'.pipelines|
    ensures BeginStep(s, q, c, now).step == BeginStep(s', q, c, now).step
    ensures (q.query in CacheOf(BeginStep(s, q, c, now).state, c)) == (q.query in CacheOf(BeginStep(s', q, c, now).state, c))
    ensures q.query in CacheOf(BeginStep(s, q, c, now).state, c) ==>
              CacheOf(BeginStep(s, q, c, now).state, c)[q.query] == CacheOf(BeginStep(s', q, c, now).state, c)[q.query]
  {
  }

  /**
   * After a resolved `await`, whatever entry is under the key now becomes
   * Finished with the value and the completion time (its promise is kept); an
   * absent key is not re-inserted; a rejection changes nothing.  Nothing else
   * changes in either case.
   */
  lemma ResumeCompletesCurrentEntry(s: CacheState, c: Category, key: string, settled: Settled<Option<LlmSearchResults>>, now: int)
    ensures settled.Rejected? ==> ResumeStep(s, c, key, settled, now) == s
    ensures settled.Resolved? && key in CacheOf(s, c) ==>
              CacheOf(ResumeStep(s, c, key, settled, now), c)[key] ==
                CacheEntry(CacheOf(s, c)[key].promise, settled.value, now, Finished)
    ensures key !in CacheOf(s, c) ==> ResumeStep(s, c, key, settled, now) == s
    ensures CacheOf(ResumeStep(s, c, key, settled, now), Other(c)) == CacheOf(s, Other(c))
    ensures ResumeStep(s, c, key, settled, now).pipelines == s.pipelines
    ensures forall k :: k != key ==>
              (k in CacheOf(ResumeStep(s, c, key, settled, now), c) <==> k in CacheOf(s, c)) &&
              (k in CacheOf(s, c) ==> CacheOf(ResumeStep(s, c, key, settled, now), c)[k] == CacheOf(s, c)[k])
  {
    if key !in CacheOf(s, c) && settled.Resolved? {
      assert Complete(CacheOf(s, c), key, settled.value, now) == CacheOf(s, c);
      assert WithCache(s, c, CacheOf(s, c)) == s;
    }
  }

  /** A standard result for a query is never served to an academic call for the same text, and vice versa. */
  lemma CategoriesAreIsolated(s: CacheState, q: UserQuery, c: Category, now: int)
    requires q.query !in CacheOf(s, c) && q.query in CacheOf(s, Other(c))
    ensures BeginStep(s, q, c, now).step == Awaiting(|s.pipelines|)
    ensures BeginStep(s, q, c, now).state.pipelines == s.pipelines + [Job(c, q)]
  {
  }

  // ---------------------------------------------------------------------------
  // Sequences of calls for one query
  // ---------------------------------------------------------------------------

  datatype Run = Run(state: CacheState, steps: seq<Step>)

  /** `|times|` calls for the same query and category, each running its synchronous part in turn. */
  function BeginAll(s: CacheState, q: UserQuery, c: Category, times: seq<int>): (r: Run)
    ensures |r.steps| == |times|
    decreases |times|
  {
    if times == [] then Run(s, [])
    else
      var b := BeginStep(s, q, c, times[0]);
      var rest := BeginAll(b.state, q, c, times[1..]);
      Run(rest.state, [b.step] + rest.steps)
  }

  /** The awaits of several calls on `key` settling one after the other with the same outcome. */
  function ResumeAll(s: CacheState, c: Category, key: string, settled: Settled<Option<LlmSearchResults>>, times: seq<int>): CacheState
    decreases |times|
  {
    if times == [] then s
    else ResumeAll(ResumeStep(s, c, key, settled, times[0]), c, key, settled, times[1..])
  }

  /** Calls arriving while a valid InProgress entry exists all join its promise and change nothing. */
  lemma {:induction false} LaterCallsJoin(s: CacheState, q: UserQuery, c: Category, times: seq<int>)
    requires q.query in CacheOf(s, c) && CacheOf(s, c)[q.query].status == InProgress
    requires forall i :: 0 <= i < |times| ==> IsValidAt(CacheOf(s, c)[q.query], Ttl(c), times[i])
    ensures BeginAll(s, q, c, times).state == s
    ensures forall i :: 0 <= i < |times| ==> BeginAll(s, q, c, times).steps[i] == Awaiting(CacheOf(s, c)[q.query].promise)
    decreases |times|
  {
    if times != [] {
      InProgressEntryIsJoined(s, q, c, times[0]);
      LaterCallsJoin(s, q, c, times[1..]);
      var r := BeginAll(s, q, c, times);
      assert r.steps == [Awaiting(CacheOf(s, c)[q.query].promise)] + BeginAll(s, q, c, times[1..]).steps;
    }
  }

  /**
   * Coalescing: N calls for a query that has no valid entry, all arriving within
   * the validity window of the first, start exactly one pipeline, of their
   * category, and all await its promise (`CoalescedCallsShareOutcome`: so all
   * observe the same outcome).
   */
  lemma Coalescing(s: CacheState, q: UserQuery, c: Category, times: seq<int>)
    requires |times| > 0
    requires q.query !in AgeCheck(CacheOf(s, c), q.query, Ttl(c), times[0])
    requires forall i :: 0 < i < |times| ==> times[i] - times[0] < Ttl(c)
    ensures BeginAll(s, q, c, times).state.pipelines == s.pipelines + [Job(c, q)]
    ensures forall i :: 0 <= i < |times| ==> BeginAll(s, q, c, times).steps[i] == Awaiting(|s.pipelines|)
    ensures q.query in CacheOf(BeginAll(s, q, c, times).state, c)
    ensures CacheOf(BeginAll(s, q, c, times).state, c)[q.query] == CacheEntry(|s.pipelines|, None, times[0], InProgress)
  {
    var first := BeginStep(s, q, c, times[0]);
    MissStartsOnePipeline(s, q, c, times[0]);
    var s1 := first.state;
    var e := CacheOf(s1, c)[q.query];
    assert forall i :: 0 <= i < |times[1..]| ==> IsValidAt(e, Ttl(c), times[1..][i]) by {
      forall i | 0 <= i < |times[1..]| ensures IsValidAt(e, Ttl(c), times[1..][i]) {
        assert times[1..][i] == times[i + 1];
      }
    }
    LaterCallsJoin(s1, q, c, times[1..]);
    var r := BeginAll(s, q, c, times);
    assert r.steps == [first.step] + BeginAll(s1, q, c, times[1..]).steps;
  }

  /**
   * The N coalesced calls all resume with one and the same result: the outcome
   * of the single pipeline they started, the call's own pipeline run against
   * what the services answered it.
   */
  lemma CoalescedCallsShareOutcome(s: CacheState, q: UserQuery, c: Category, times: seq<int>, ups: PromiseId -> Upstream)
    requires |times| > 0
    requires q.query !in AgeCheck(CacheOf(s, c), q.query, Ttl(c), times[0])
    requires forall i :: 0 < i < |times| ==> times[i] - times[0] < Ttl(c)
    ensures forall i :: 0 <= i < |times| ==>
              BeginAll(s, q, c, times).steps[i].Awaiting? &&
              BeginAll(s, q, c, times).steps[i].promise < |BeginAll(s, q, c, times).state.pipelines| &&
              Outcome(BeginAll(s, q, c, times).state, ups, BeginAll(s, q, c, times).steps[i].promise) ==
                RunJob(Job(c, q), ups(|s.pipelines|))
  {
    Coalescing(s, q, c, times);
    var r := BeginAll(s, q, c, times);
    assert r.state.pipelines[|s.pipelines|] == Job(c, q);
  }

  /**
   * Two calls on the same caches: the second arrives within the first's window
   * and joins it, and whenever the two resume, in either order, both yield the
   * outcome of the one pipeline the first call started.
   */
  method CoalescedCallsAgree(ups: PromiseId -> Upstream, q: UserQuery, c: Category, t1: int, t2: int, t3: int, t4: int)
    returns (r1: Settled<Option<LlmSearchResults>>, r2: Settled<Option<LlmSearchResults>>)
    requires t2 - t1 < Ttl(c)
    ensures r1 == r2 == RunJob(Job(c, q), ups(0))
  {
    var caches := new QueryCaches(ups);
    ghost var s0 := caches.Snapshot();
    MissStartsOnePipeline(s0, q, c, t1);
    var step1 := caches.Begin(q, c, t1);
    ghost var s1 := caches.Snapshot();
    InProgressEntryIsJoined(s1, q, c, t2);
    var step2 := caches.Begin(q, c, t2);
    r1 := caches.Resume(q.query, c, step1.promise, t3);
    r2 := caches.Resume(q.query, c, step2.promise, t4);
  }

  /** Once the shared promise rejects, every awaiting call skips its completion: the state is unchanged. */
  lemma {:induction false} RejectionsChangeNothing(s: CacheState, c: Category, key: string, times: seq<int>)
    ensures ResumeAll(s, c, key, Rejected, times) == s
    decreases |times|
  {
    if times != [] {
      RejectionsChangeNothing(s, c, key, times[1..]);
    }
  }

  /**
   * Once the shared promise resolves with `v`, the entry is Finished with `v`,
   * stamped with the last completion time, and keeps its promise.
   */
  lemma {:induction false} ResolutionsFinishEntry(s: CacheState, c: Category, key: string, v: Option<LlmSearchResults>, times: seq<int>)
    requires |times| > 0 && key in CacheOf(s, c)
    ensures key in CacheOf(ResumeAll(s, c, key, Resolved(v), times), c)
    ensures CacheOf(ResumeAll(s, c, key, Resolved(v), times), c)[key] ==
              CacheEntry(CacheOf(s, c)[key].promise, v, times[|times| - 1], Finished)
    ensures ResumeAll(s, c, key, Resolved(v), times).pipelines == s.pipelines
    decreases |times|
  {
    var s1 := ResumeStep(s, c, key, Resolved(v), times[0]);
    ResumeCompletesCurrentEntry(s, c, key, Resolved(v), times[0]);
    if |times| > 1 {
      ResolutionsFinishEntry(s1, c, key, v, times[1..]);
      assert times[1..][|times[1..]| - 1] == times[|times| - 1];
    }
  }

  /**
   * A rejected pipeline wedges its key: the entry stays InProgress with its
   * creation time, a later call within the window rejoins the rejected promise,
   * and only the age check, once the window has passed, lets a new pipeline start.
   */
  lemma RejectionWedgesKey(s: CacheState, q: UserQuery, c: Category, t0: int, resumeTimes: seq<int>, later: int)
    requires q.query !in AgeCheck(CacheOf(s, c), q.query, Ttl(c), t0)
    ensures var s1 := ResumeAll(BeginStep(s, q, c, t0).state, c, q.query, Rejected, resumeTimes);
            q.query in CacheOf(s1, c) &&
            CacheOf(s1, c)[q.query] == CacheEntry(|s.pipelines|, None, t0, InProgress) &&
            (later - t0 < Ttl(c) ==>
               BeginStep(s1, q, c, later).step == Awaiting(|s.pipelines|) &&
               BeginStep(s1, q, c, later).state.pipelines == s.pipelines + [Job(c, q)]) &&
            (later - t0 >= Ttl(c) ==>
               BeginStep(s1, q, c, later).step == Awaiting(|s.pipelines| + 1) &&
               |BeginStep(s1, q, c, later).state.pipelines| == |s.pipelines| + 2)
  {
    var s0 := BeginStep(s, q, c, t0).state;
    RejectionsChangeNothing(s0, c, q.query, resumeTimes);
  }

  /**
   * Repeated hits slide the expiry forward: as long as each call comes within
   * the window of the previous one, every call is served the stored data and
   * no pipeline starts, however far the last call is from the first.
   */
  lemma {:induction false} HitsSlideExpiry(s: CacheState, q: UserQuery, c: Category, times: seq<int>)
    requires q.query in CacheOf(s, c) && CacheOf(s, c)[q.query].status == Finished
    requires |times| > 0 ==> IsValidAt(CacheOf(s, c)[q.query], Ttl(c), times[0])
    requires forall i :: 0 < i < |times| ==> times[i] - times[i - 1] < Ttl(c)
    ensures BeginAll(s, q, c, times).state.pipelines == s.pipelines
    ensures forall i :: 0 <= i < |times| ==> BeginAll(s, q, c, times).steps[i] == Served(CacheOf(s, c)[q.query].data)
    ensures |times| > 0 ==>
              q.query in CacheOf(BeginAll(s, q, c, times).state, c) &&
              CacheOf(BeginAll(s, q, c, times).state, c)[q.query] == CacheOf(s, c)[q.query].(timestamp := times[|times| - 1])
    decreases |times|
  {
    if times != [] {
      var e := CacheOf(s, c)[q.query];
      FinishedHitIsServed(s, q, c, times[0]);
      var s1 := BeginStep(s, q, c, times[0]).state;
      assert CacheOf(s1, c)[q.query] == e.(timestamp := times[0]);
      assert forall i :: 0 < i < |times[1..]| ==> times[1..][i] - times[1..][i - 1] < Ttl(c) by {
        forall i | 0 < i < |times[1..]| ensures times[1..][i] - times[1..][i - 1] < Ttl(c) {
          assert times[1..][i] == times[i + 1] && times[1..][i - 1] == times[i];
        }
      }
      HitsSlideExpiry(s1, q, c, times[1..]);
      var r := BeginAll(s, q, c, times);
      assert r.steps == [Served(e.data)] + BeginAll(s1, q, c, times[1..]).steps;
      if |times| > 1 {
        assert times[1..][|times[1..]| - 1] == times[|times| - 1];
      }
    }
  }

  /**
   * A completion overwrites whatever is under the key when it runs: if the
   * first entry expired while its pipeline ran and a second call started a new
   * one, the first pipeline's result becomes the Finished data of the second
   * entry, which keeps the second promise.
   */
  lemma LateCompletionOverwritesNewerEntry(s: CacheState, q: UserQuery, c: Category, t0: int, t1: int, t2: int, v: Option<LlmSearchResults>)
    requires q.query !in AgeCheck(CacheOf(s, c), q.query, Ttl(c), t0)
    requires t1 - t0 >= Ttl(c)
    ensures var s1 := BeginStep(s, q, c, t0).state;
            var s2 := BeginStep(s1, q, c, t1).state;
            var s3 := ResumeStep(s2, c, q.query, Resolved(v), t2);
            |s3.pipelines| == |s.pipelines| + 2 &&
            CacheOf(s3, c)[q.query] == CacheEntry(|s.pipelines| + 1, v, t2, Finished)
  {
  }

  // ---------------------------------------------------------------------------
  // A worked scenario
  // ---------------------------------------------------------------------------

  /**
   * "rust ownership" on the standard endpoint, from empty caches: the first call
   * at t = 0 starts a pipeline, which resolves at t = 2000; a call one second
   * later is served the result without a new pipeline; a call six minutes after
   * that starts a second pipeline, the five-minute window having passed.
   */
  lemma RustOwnershipScenario(answer: LlmSearchResults)
    ensures var q := UserQuery("rust ownership", 3);
            var s0 := CacheState(map[], map[], []);
            var b1 := BeginStep(s0, q, Standard, 0);
            var s1 := ResumeStep(b1.state, Standard, q.query, Resolved(Some(answer)), 2000);
            var b2 := BeginStep(s1, q, Standard, 3000);
            var b3 := BeginStep(b2.state, q, Standard, 3000 + 6 * 60 * 1000);
            b1.step == Awaiting(0) &&
            b2.step == Served(Some(answer)) && b2.state.pipelines == [Job(Standard, q)] &&
            b3.step == Awaiting(1) && b3.state.pipelines == [Job(Standard, q), Job(Standard, q)]
  {
  }
}
