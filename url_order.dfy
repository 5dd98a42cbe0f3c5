/**
 * The order in which the backend lists the URLs of a Brave web search
 * (`extractOrderedUrls` in packages/backend/src/web_searcher.ts).
 *
 * The response may carry a "mixed" ranking, `mixed.main`, whose entries point
 * into the list of web results by index; an entry flagged `all` stands for
 * "every remaining web result".  The source walks that ranking once, marking
 * each referenced index in a boolean array `result_used`.
 *
 * `OrderedFrom` is the specification of that walk, the method
 * `ExtractOrderedUrls` is the walk itself over an array.  The `all` branch is
 * given twice: `AsWritten` is what the code does (it appends the first k web
 * results, k being the number of unmarked indices), `Intended` appends the
 * unmarked results themselves, in their original order.
 */
module UrlOrder {
  import opened Wrappers
  import opened Types

  /** One entry of `web.results`; only its `url` is read. */
  datatype SearchResult = SearchResult(title: string, url: Url, description: string)

  /** One entry of `mixed.main`: `kind` is the entry's `type` ("web", "news", ...). */
  datatype ResultRef = ResultRef(kind: string, index: Option<nat>, all: bool)

  /** What the backend reads of a web-search response: `web?.results` and `mixed?.main`. */
  datatype WebSearchResponse = WebSearchResponse(web: Option<seq<SearchResult>>, mixedMain: Option<seq<ResultRef>>)

  /** How the `all` branch chooses the URLs it appends. */
  datatype AllRule = AsWritten | Intended

  /** The URLs of `results`, in order (`results.map(result => result.url)`). */
  function Urls(results: seq<SearchResult>): (us: seq<Url>)
    ensures |us| == |results|
    ensures forall k :: 0 <= k < |results| ==> us[k] == results[k].url
  {
    seq(|results|, k requires 0 <= k < |results| => results[k].url)
  }

  /** `u` is the URL of one of the web results. */
  predicate IsWebUrl(u: Url, web: Option<seq<SearchResult>>) {
    web.Some? && u in Urls(web.value)
  }

  /** Every URL of `us` is the URL of one of the web results. */
  predicate FromWebResults(us: seq<Url>, web: Option<seq<SearchResult>>) {
    forall k :: 0 <= k < |us| ==> IsWebUrl(us[k], web)
  }

  /** A ranking entry the loop acts on: of type "web" and with an index. */
  predicate Qualifies(r: ResultRef) {
    r.kind == "web" && r.index.Some?
  }

  /** The length of `new Array(web?.results.length)`: a missing `web` yields `new Array(undefined)`, one slot. */
  function UsedLength(web: Option<seq<SearchResult>>): nat {
    match web
    case None => 1
    case Some(results) => |results|
  }

  /** `result_used` right after `.fill(false)`. */
  function NoneUsed(web: Option<seq<SearchResult>>): (used: seq<bool>)
    ensures |used| == UsedLength(web)
    ensures forall j :: 0 <= j < |used| ==> !used[j]
  {
    seq(UsedLength(web), _ => false)
  }

  /** `web?.results.at(i)?.url` for a non-negative `i`. */
  function UrlAt(web: Option<seq<SearchResult>>, i: nat): (u: Option<Url>)
    ensures u.Some? <==> web.Some? && i < |web.value|
    ensures u.Some? ==> u.value == web.value[i].url
  {
    if web.Some? && i < |web.value| then Some(web.value[i].url) else None
  }

  /**
   * `result_used[i] = true`.  Writing past the end only adds a hole and a `true`
   * slot, which `filter` never reports as unused, so it is modelled as no change.
   */
  function Mark(used: seq<bool>, i: nat): (r: seq<bool>)
    ensures |r| == |used|
  {
    if i < |used| then used[i := true] else used
  }

  /** Marking slot `i` sets that slot, when it exists, and no other. */
  lemma MarkSetsOnlyItsSlot(used: seq<bool>, i: nat)
    ensures forall j :: 0 <= j < |used| ==> Mark(used, i)[j] == (used[j] || j == i)
  {
  }

  /** The indices of the unused slots, in increasing order. */
  function Unused(used: seq<bool>): (ix: seq<nat>)
    ensures |ix| <= |used|
  {
    if used == [] then []
    else
      var n := |used| - 1;
      Unused(used[..n]) + (if used[n] then [] else [n])
  }

  /** `Unused` lists exactly the unmarked slots, each once, in increasing order. */
  lemma {:induction false} UnusedSlots(used: seq<bool>)
    ensures forall k :: 0 <= k < |Unused(used)| ==> Unused(used)[k] < |used| && !used[Unused(used)[k]]
    ensures forall j :: 0 <= j < |used| && !used[j] ==> j in Unused(used)
    ensures forall k, l :: 0 <= k < l < |Unused(used)| ==> Unused(used)[k] < Unused(used)[l]
    decreases |used|
  {
    if used != [] {
      var n := |used| - 1;
      var pre := used[..n];
      UnusedSlots(pre);
      var ix := Unused(used);
      var a := Unused(pre);
      assert ix == a + (if used[n] then [] else [n]);
      forall k | 0 <= k < |ix| ensures ix[k] < |used| && !used[ix[k]] {
        if k < |a| {
          assert ix[k] == a[k] && pre[a[k]] == used[a[k]];
        } else {
          assert ix[k] == n;
        }
      }
      forall j | 0 <= j < |used| && !used[j] ensures j in ix {
        if j < n {
          assert pre[j] == used[j] && j in a;
        } else {
          assert ix[|ix| - 1] == n;
        }
      }
      forall k, l | 0 <= k < l < |ix| ensures ix[k] < ix[l] {
        assert ix[k] == a[k];
        if l < |a| {
          assert ix[l] == a[l];
        } else {
          assert ix[l] == n && a[k] < |pre|;
        }
      }
    }
  }

  /** The positions 0, 1, ..., k - 1. */
  function Range(k: nat): (r: seq<nat>)
    ensures |r| == k
    ensures forall i :: 0 <= i < k ==> r[i] == i
  {
    if k == 0 then [] else Range(k - 1) + [k - 1]
  }

  /** The URLs of the web results at positions `ix`, skipping positions that have none. */
  function UrlsAt(web: Option<seq<SearchResult>>, ix: seq<nat>): (us: seq<Url>)
    ensures |us| <= |ix|
    ensures web.None? ==> us == []
  {
    if ix == [] then [] else ToSeq(UrlAt(web, ix[0])) + UrlsAt(web, ix[1..])
  }

  /** Every URL `UrlsAt` returns is a web result's, and the result at each position in range is among them. */
  lemma {:induction false} UrlsAtAreWebUrls(web: Option<seq<SearchResult>>, ix: seq<nat>)
    ensures FromWebResults(UrlsAt(web, ix), web)
    ensures forall k :: 0 <= k < |ix| && web.Some? && ix[k] < |web.value| ==> web.value[ix[k]].url in UrlsAt(web, ix)
    decreases |ix|
  {
    if ix != [] {
      UrlsAtAreWebUrls(web, ix[1..]);
      var u := UrlAt(web, ix[0]);
      var rest := UrlsAt(web, ix[1..]);
      assert UrlsAt(web, ix) == ToSeq(u) + rest;
      LookupIsWebUrl(web, ix[0]);
      WebUrlsConcat(ToSeq(u), rest, web);
      forall k | 0 <= k < |ix| && web.Some? && ix[k] < |web.value| ensures web.value[ix[k]].url in UrlsAt(web, ix) {
        if k == 0 {
          assert u == Some(web.value[ix[0]].url);
        } else {
          assert ix[k] == ix[1..][k - 1];
        }
      }
    }
  }

  /**
   * The positions whose URLs the `all` branch appends.  As written, the callback
   * of `.map((used, idx) => ...)` receives `idx`, a position in the FILTERED list,
   * so the positions are 0 .. k - 1 for k unused slots.
   */
  function Remaining(used: seq<bool>, rule: AllRule): (ix: seq<nat>)
    ensures |ix| == |Unused(used)|
  {
    match rule
    case AsWritten => Range(|Unused(used)|)
    case Intended => Unused(used)
  }

  /** The URLs the walk over `refs` appends, `used` being `result_used` when it starts. */
  function OrderedFrom(refs: seq<ResultRef>, web: Option<seq<SearchResult>>, used: seq<bool>, rule: AllRule): seq<Url>
    decreases |refs|
  {
    if refs == [] then []
    else if !Qualifies(refs[0]) then OrderedFrom(refs[1..], web, used, rule)
    else if refs[0].all then UrlsAt(web, Remaining(used, rule))
    else
      var i := refs[0].index.value;
      ToSeq(UrlAt(web, i)) + OrderedFrom(refs[1..], web, Mark(used, i), rule)
  }

  /** The list `extractOrderedUrls` returns for the ranking `refs`, as the code is written. */
  function OrderedUrls(refs: seq<ResultRef>, web: Option<seq<SearchResult>>): seq<Url> {
    OrderedFrom(refs, web, NoneUsed(web), AsWritten)
  }

  /** The list the code evidently means to return: the `all` branch appends the unused results. */
  function OrderedUrlsIntended(refs: seq<ResultRef>, web: Option<seq<SearchResult>>): seq<Url> {
    OrderedFrom(refs, web, NoneUsed(web), Intended)
  }

  /** One turn of the loop of `extractOrderedUrls`, on the list built so far and the current marks. */
  lemma WalkStep(refs: seq<ResultRef>, i: nat, web: Option<seq<SearchResult>>, used: seq<bool>, out: seq<Url>)
    requires i < |refs| && out + OrderedFrom(refs[i..], web, used, AsWritten) == OrderedUrls(refs, web)
    ensures !Qualifies(refs[i]) ==> out + OrderedFrom(refs[i + 1..], web, used, AsWritten) == OrderedUrls(refs, web)
    ensures Qualifies(refs[i]) && refs[i].all ==> out + UrlsAt(web, Range(|Unused(used)|)) == OrderedUrls(refs, web)
    ensures Qualifies(refs[i]) && !refs[i].all ==>
              var index := refs[i].index.value;
              (out + ToSeq(UrlAt(web, index))) + OrderedFrom(refs[i + 1..], web, Mark(used, index), AsWritten) == OrderedUrls(refs, web)
  {
    assert refs[i..][0] == refs[i] && refs[i..][1..] == refs[i + 1..];
    if Qualifies(refs[i]) && !refs[i].all {
      var index := refs[i].index.value;
      var head := ToSeq(UrlAt(web, index));
      var rest := OrderedFrom(refs[i + 1..], web, Mark(used, index), AsWritten);
      assert OrderedFrom(refs[i..], web, used, AsWritten) == head + rest;
      assert (out + head) + rest == out + (head + rest);
    }
  }

  /**
   * `extractOrderedUrls`: none exactly when the response has no `mixed.main`;
   * otherwise the walk over the ranking with a `result_used` array.
   */
  method ExtractOrderedUrls(response: WebSearchResponse) returns (urls: Option<seq<Url>>)
    ensures urls.None? <==> response.mixedMain.None?
    ensures urls.Some? ==> urls.value == OrderedUrls(response.mixedMain.value, response.web)
    ensures urls.Some? ==> FromWebResults(urls.value, response.web)
  {
    if response.mixedMain.None? {
      return None;
    }
    var refs := response.mixedMain.value;
    var web := response.web;
    var resultUsed := new bool[UsedLength(web)](_ => false);
    ghost var used := NoneUsed(web);
    assert resultUsed[..] == used;
    var out: seq<Url> := [];
    var i := 0;
    while i < |refs|
      invariant 0 <= i <= |refs|
      invariant resultUsed.Length == |used| == UsedLength(web)
      invariant resultUsed[..] == used
      invariant out + OrderedFrom(refs[i..], web, used, AsWritten) == OrderedUrls(refs, web)
    {
      var ref := refs[i];
      WalkStep(refs, i, web, used, out);
      if ref.kind != "web" || ref.index.None? {
        i := i + 1;
        continue;
      }
      if ref.all {
        out := out + UrlsAt(web, Range(|Unused(resultUsed[..])|));
        break;
      }
      var index := ref.index.value;
      var url := UrlAt(web, index);
      if index < resultUsed.Length {
        resultUsed[index] := true;
      }
      used := Mark(used, index);
      assert resultUsed[..] == used;
      if url.Some? {
        out := out + [url.value];
      }
      i := i + 1;
    }
    assert i == |refs| ==> refs[i..] == [];
    OrderedUrlsAreWebUrls(refs, web, NoneUsed(web), AsWritten);
    urls := Some(out);
  }

  // ---------------------------------------------------------------------------
  // Properties of the walk
  // ---------------------------------------------------------------------------

  /** The ranking entries handled by the plain (non-`all`) branch before the loop stops. */
  function PlainRefs(refs: seq<ResultRef>): nat
    decreases |refs|
  {
    if refs == [] then 0
    else if !Qualifies(refs[0]) then PlainRefs(refs[1..])
    else if refs[0].all then 0
    else 1 + PlainRefs(refs[1..])
  }

  /** The web results, or none when the response has no `web` section. */
  function ResultsOf(web: Option<seq<SearchResult>>): seq<SearchResult> {
    match web
    case None => []
    case Some(results) => results
  }

  /** The lookup of one index yields at most one URL, and it is a web result's. */
  lemma LookupIsWebUrl(web: Option<seq<SearchResult>>, i: nat)
    ensures |ToSeq(UrlAt(web, i))| <= 1
    ensures FromWebResults(ToSeq(UrlAt(web, i)), web)
  {
    if UrlAt(web, i).Some? {
      assert Urls(web.value)[i] == UrlAt(web, i).value;
    }
  }

  /** Lists of web-result URLs concatenate to one. */
  lemma WebUrlsConcat(a: seq<Url>, b: seq<Url>, web: Option<seq<SearchResult>>)
    requires FromWebResults(a, web) && FromWebResults(b, web)
    ensures FromWebResults(a + b, web)
  {
    forall k | 0 <= k < |a + b| ensures IsWebUrl((a + b)[k], web) {
      if k < |a| {
        assert (a + b)[k] == a[k] && IsWebUrl(a[k], web);
      } else {
        assert (a + b)[k] == b[k - |a|] && IsWebUrl(b[k - |a|], web);
      }
    }
  }

  /**
   * Every returned URL is the URL of a web result, and there are at most as many
   * as plain references processed plus web results.
   */
  lemma {:induction false} OrderedUrlsAreWebUrls(refs: seq<ResultRef>, web: Option<seq<SearchResult>>, used: seq<bool>, rule: AllRule)
    requires |used| == UsedLength(web)
    ensures FromWebResults(OrderedFrom(refs, web, used, rule), web)
    ensures |OrderedFrom(refs, web, used, rule)| <= PlainRefs(refs) + |ResultsOf(web)|
    decreases |refs|
  {
    if refs == [] {
    } else if !Qualifies(refs[0]) {
      OrderedUrlsAreWebUrls(refs[1..], web, used, rule);
      var r := OrderedFrom(refs, web, used, rule);
      var r1 := OrderedFrom(refs[1..], web, used, rule);
      assert r == r1;
      assert forall k :: 0 <= k < |r| ==> r[k] == r1[k];
    } else if refs[0].all {
      UrlsAtAreWebUrls(web, Remaining(used, rule));
    } else {
      var i := refs[0].index.value;
      OrderedUrlsAreWebUrls(refs[1..], web, Mark(used, i), rule);
      var head := ToSeq(UrlAt(web, i));
      var rest := OrderedFrom(refs[1..], web, Mark(used, i), rule);
      assert OrderedFrom(refs, web, used, rule) == head + rest;
      assert PlainRefs(refs) == 1 + PlainRefs(refs[1..]);
      LookupIsWebUrl(web, i);
      WebUrlsConcat(head, rest, web);
    }
  }

  /** The qualifying entries of a ranking, in order. */
  function QualifyingRefs(refs: seq<ResultRef>): (q: seq<ResultRef>)
    ensures forall k :: 0 <= k < |q| ==> Qualifies(q[k])
    decreases |refs|
  {
    if refs == [] then []
    else if Qualifies(refs[0]) then [refs[0]] + QualifyingRefs(refs[1..])
    else QualifyingRefs(refs[1..])
  }

  /**
   * Entries whose type is not "web" or that lack an index change neither the
   * output nor `result_used`: dropping them gives the same URLs.  The test comes
   * before the `all` test, so an `all` entry must qualify too.
   */
  lemma {:induction false} NonQualifyingRefsIgnored(refs: seq<ResultRef>, web: Option<seq<SearchResult>>, used: seq<bool>, rule: AllRule)
    ensures OrderedFrom(refs, web, used, rule) == OrderedFrom(QualifyingRefs(refs), web, used, rule)
    decreases |refs|
  {
    if refs == [] {
    } else if !Qualifies(refs[0]) {
      NonQualifyingRefsIgnored(refs[1..], web, used, rule);
    } else {
      var q := QualifyingRefs(refs);
      assert q[0] == refs[0] && q[1..] == QualifyingRefs(refs[1..]);
      if !refs[0].all {
        NonQualifyingRefsIgnored(refs[1..], web, Mark(used, refs[0].index.value), rule);
      }
    }
  }

  /** A qualifying `all` entry at position `i`. */
  predicate AllAt(refs: seq<ResultRef>, i: nat) {
    i < |refs| && Qualifies(refs[i]) && refs[i].all
  }

  /** The first qualifying `all` entry ends the loop: whatever follows it is ignored. */
  lemma {:induction false} FirstAllEndsLoop(refs: seq<ResultRef>, i: nat, rest: seq<ResultRef>, web: Option<seq<SearchResult>>, used: seq<bool>, rule: AllRule)
    requires AllAt(refs, i)
    ensures OrderedFrom(refs + rest, web, used, rule) == OrderedFrom(refs, web, used, rule)
    decreases |refs|
  {
    var all := refs + rest;
    assert all[0] == refs[0];
    if !Qualifies(refs[0]) || !refs[0].all {
      assert i > 0;
      assert all[1..] == refs[1..] + rest;
      FirstAllEndsLoop(refs[1..], i - 1, rest, web, if Qualifies(refs[0]) then Mark(used, refs[0].index.value) else used, rule);
    }
  }

  /** True when no entry of `refs` is a qualifying `all` entry. */
  predicate NoAll(refs: seq<ResultRef>) {
    forall k :: 0 <= k < |refs| ==> !(Qualifies(refs[k]) && refs[k].all)
  }

  /** The URL of each qualifying entry's index, in ranking order, repeats included. */
  function Lookups(refs: seq<ResultRef>, web: Option<seq<SearchResult>>): seq<Url>
    decreases |refs|
  {
    if refs == [] then []
    else if Qualifies(refs[0]) then ToSeq(UrlAt(web, refs[0].index.value)) + Lookups(refs[1..], web)
    else Lookups(refs[1..], web)
  }

  /** `result_used` after the plain branch has marked every qualifying entry of `refs`. */
  function MarkAll(used: seq<bool>, refs: seq<ResultRef>): seq<bool>
    decreases |refs|
  {
    if refs == [] then used
    else if Qualifies(refs[0]) then MarkAll(Mark(used, refs[0].index.value), refs[1..])
    else MarkAll(used, refs[1..])
  }

  /** Whether a qualifying entry of `refs` has index `j`. */
  predicate Referenced(refs: seq<ResultRef>, j: nat) {
    exists k :: 0 <= k < |refs| && Qualifies(refs[k]) && refs[k].index.value == j
  }

  /** A slot is marked after the plain branch exactly when it was marked before or some entry references it. */
  lemma {:induction false} MarkAllMarksReferenced(used: seq<bool>, refs: seq<ResultRef>)
    ensures |MarkAll(used, refs)| == |used|
    ensures forall j :: 0 <= j < |used| ==> (MarkAll(used, refs)[j] <==> used[j] || Referenced(refs, j))
    decreases |refs|
  {
    if refs == [] {
    } else {
      var used' := if Qualifies(refs[0]) then Mark(used, refs[0].index.value) else used;
      MarkAllMarksReferenced(used', refs[1..]);
      forall j | 0 <= j < |used|
        ensures MarkAll(used, refs)[j] <==> used[j] || Referenced(refs, j)
      {
        if Referenced(refs[1..], j) {
          var k :| 0 <= k < |refs[1..]| && Qualifies(refs[1..][k]) && refs[1..][k].index.value == j;
          assert refs[k + 1] == refs[1..][k];
        }
        if Referenced(refs, j) && !(Qualifies(refs[0]) && refs[0].index.value == j) {
          var k :| 0 <= k < |refs| && Qualifies(refs[k]) && refs[k].index.value == j;
          assert k > 0 && refs[1..][k - 1] == refs[k];
        }
      }
    }
  }

  /**
   * Without an `all` entry the output is the lookup of every qualifying entry in
   * ranking order; marking does not matter.
   */
  lemma {:induction false} PlainRefsInRankingOrder(refs: seq<ResultRef>, web: Option<seq<SearchResult>>, used: seq<bool>, rule: AllRule)
    requires NoAll(refs)
    ensures OrderedFrom(refs, web, used, rule) == Lookups(refs, web)
    decreases |refs|
  {
    if refs != [] {
      assert !(Qualifies(refs[0]) && refs[0].all);
      var used' := if Qualifies(refs[0]) then Mark(used, refs[0].index.value) else used;
      PlainRefsInRankingOrder(refs[1..], web, used', rule);
    }
  }

  /** Dropping the first entry of a prefix without `all` entries leaves a shorter such prefix. */
  lemma PrefixAfterFirst(refs: seq<ResultRef>, i: nat)
    requires 0 < i <= |refs| && NoAll(refs[..i])
    ensures refs[..i][0] == refs[0] && !(Qualifies(refs[0]) && refs[0].all)
    ensures refs[..i][1..] == refs[1..][..i - 1] && refs[1..][i - 1..] == refs[i..]
    ensures NoAll(refs[1..][..i - 1])
  {
    assert refs[..i][0] == refs[0];
    var tail := refs[1..][..i - 1];
    forall k | 0 <= k < |tail| ensures !(Qualifies(tail[k]) && tail[k].all) {
      assert tail[k] == refs[..i][k + 1];
    }
  }

  /** The URL the plain branch appends for one ranking entry: none for a non-qualifying one. */
  function RefUrl(r: ResultRef, web: Option<seq<SearchResult>>): seq<Url> {
    if Qualifies(r) then ToSeq(UrlAt(web, r.index.value)) else []
  }

  /** `result_used` after the plain branch has handled one ranking entry. */
  function MarkRef(used: seq<bool>, r: ResultRef): seq<bool> {
    if Qualifies(r) then Mark(used, r.index.value) else used
  }

  /** One plain entry of the walk: its URL, then the rest with its slot marked. */
  lemma StepOrderedFrom(refs: seq<ResultRef>, web: Option<seq<SearchResult>>, used: seq<bool>, rule: AllRule)
    requires refs != [] && !(Qualifies(refs[0]) && refs[0].all)
    ensures OrderedFrom(refs, web, used, rule) == RefUrl(refs[0], web) + OrderedFrom(refs[1..], web, MarkRef(used, refs[0]), rule)
  {
  }

  /** One entry of `Lookups`. */
  lemma StepLookups(refs: seq<ResultRef>, web: Option<seq<SearchResult>>)
    requires refs != []
    ensures Lookups(refs, web) == RefUrl(refs[0], web) + Lookups(refs[1..], web)
  {
  }

  /** One entry of `MarkAll`. */
  lemma StepMarkAll(used: seq<bool>, refs: seq<ResultRef>)
    requires refs != []
    ensures MarkAll(used, refs) == MarkAll(MarkRef(used, refs[0]), refs[1..])
  {
  }

  /** A ranking that starts with a qualifying `all` entry appends the remaining URLs and nothing else. */
  lemma AllEntryFirst(refs: seq<ResultRef>, web: Option<seq<SearchResult>>, used: seq<bool>, rule: AllRule)
    requires AllAt(refs, 0)
    ensures OrderedFrom(refs, web, used, rule) == UrlsAt(web, Remaining(used, rule))
  {
  }

  /**
   * The walk over a ranking splits after any prefix without `all` entries: the
   * lookups of the prefix, then the walk over the rest from the marks the prefix left.
   */
  lemma {:induction false} WalkSplitsAtPrefix(refs: seq<ResultRef>, i: nat, web: Option<seq<SearchResult>>, used: seq<bool>, rule: AllRule)
    requires i <= |refs| && NoAll(refs[..i])
    ensures OrderedFrom(refs, web, used, rule) ==
            Lookups(refs[..i], web) + OrderedFrom(refs[i..], web, MarkAll(used, refs[..i]), rule)
    decreases i
  {
    if i == 0 {
      assert refs[..0] == [] && refs[0..] == refs;
    } else {
      var before := refs[..i];
      var used' := MarkRef(used, refs[0]);
      var head := RefUrl(refs[0], web);
      var lookups := Lookups(before[1..], web);
      var rest := OrderedFrom(refs[i..], web, MarkAll(used, before), rule);
      assert OrderedFrom(refs[1..], web, used', rule) == lookups + rest by {
        PrefixAfterFirst(refs, i);
        WalkSplitsAtPrefix(refs[1..], i - 1, web, used', rule);
        StepMarkAll(used, before);
      }
      assert Lookups(before, web) == head + lookups by {
        PrefixAfterFirst(refs, i);
        StepLookups(before, web);
      }
      assert OrderedFrom(refs, web, used, rule) == head + OrderedFrom(refs[1..], web, used', rule) by {
        PrefixAfterFirst(refs, i);
        StepOrderedFrom(refs, web, used, rule);
      }
      assert head + (lookups + rest) == (head + lookups) + rest;
    }
  }

  /**
   * With a first qualifying `all` entry at `i`: the lookups of the entries before
   * it, then the URLs at the positions the `all` rule picks from the marks those
   * entries left.
   */
  lemma AllEntryAppendsRemaining(refs: seq<ResultRef>, i: nat, web: Option<seq<SearchResult>>, used: seq<bool>, rule: AllRule)
    requires AllAt(refs, i) && NoAll(refs[..i])
    ensures OrderedFrom(refs, web, used, rule) == Lookups(refs[..i], web) + UrlsAt(web, Remaining(MarkAll(used, refs[..i]), rule))
  {
    WalkSplitsAtPrefix(refs, i, web, used, rule);
    assert refs[i..][0] == refs[i];
    AllEntryFirst(refs[i..], web, MarkAll(used, refs[..i]), rule);
  }

  // ---------------------------------------------------------------------------
  // The `all` branch: as written and as intended
  // ---------------------------------------------------------------------------

  const A: SearchResult := SearchResult("A", "https://a.example", "")
  const B: SearchResult := SearchResult("B", "https://b.example", "")
  const C: SearchResult := SearchResult("C", "https://c.example", "")
  const D: SearchResult := SearchResult("D", "https://d.example", "")

  /**
   * The ranking [web:2, web:0, all] over four web results.  The `all` entry
   * carries index 0: an `all` entry without an index does not qualify and is
   * skipped (`UnindexedAllEntryIsSkipped`).
   */
  function SampleRanking(): seq<ResultRef> {
    [ResultRef("web", Some(2), false), ResultRef("web", Some(0), false), ResultRef("web", Some(0), true)]
  }

  /** After [web:2, web:0] over four results, slots 1 and 3 are unused. */
  lemma SampleMarksLeaveTwoUnused()
    ensures Unused([true, false, true, false]) == [1, 3]
  {
    assert [true, false, true, false][..3] == [true, false, true];
    assert [true, false, true][..2] == [true, false];
    assert [true, false][..1] == [true];
    assert [true][..0] == [];
    assert Unused([true]) == [];
    assert Unused([true, false]) == [1];
    assert Unused([true, false, true]) == [1];
  }

  /**
   * As written, the ranking [web:2, web:0, all] over [A, B, C, D] yields
   * [C, A, A, B]: the two unused slots make the `all` branch append the first two
   * results, so A is repeated and D is lost.
   */
  lemma AllBranchTakesFirstResults()
    ensures OrderedUrls(SampleRanking(), Some([A, B, C, D])) == [C.url, A.url, A.url, B.url]
    ensures D.url !in OrderedUrls(SampleRanking(), Some([A, B, C, D]))
  {
    var web := Some([A, B, C, D]);
    var refs := SampleRanking();
    var u0 := NoneUsed(web);
    var u1 := Mark(u0, 2);
    var u2 := Mark(u1, 0);
    assert u2 == [true, false, true, false];
    SampleMarksLeaveTwoUnused();
    assert Range(2) == [0, 1] by {
      assert Range(1) == Range(0) + [0];
    }
    assert UrlsAt(web, [0, 1]) == [A.url, B.url] by {
      assert [0, 1][1..] == [1];
      assert UrlsAt(web, [1]) == [B.url] by {
        assert [1][1..] == [];
      }
    }
    assert refs[1..] == [refs[1], refs[2]] && refs[1..][1..] == [refs[2]];
    assert OrderedFrom([refs[2]], web, u2, AsWritten) == [A.url, B.url];
    assert OrderedFrom(refs[1..], web, u1, AsWritten) == [A.url, A.url, B.url];
  }

  /**
   * The same ranking with an unindexed `all` entry yields only [C, A], under
   * either `all` branch: the guard on a missing index comes before the `all`
   * flag is looked at, so B and D are lost.
   */
  lemma UnindexedAllEntryIsSkipped()
    ensures OrderedUrls([ResultRef("web", Some(2), false), ResultRef("web", Some(0), false), ResultRef("web", None, true)],
                        Some([A, B, C, D])) == [C.url, A.url]
    ensures OrderedUrlsIntended([ResultRef("web", Some(2), false), ResultRef("web", Some(0), false), ResultRef("web", None, true)],
                                Some([A, B, C, D])) == [C.url, A.url]
  {
    var web := Some([A, B, C, D]);
    var refs := [ResultRef("web", Some(2), false), ResultRef("web", Some(0), false), ResultRef("web", None, true)];
    var u1 := Mark(NoneUsed(web), 2);
    var u2 := Mark(u1, 0);
    assert refs[1..] == [refs[1], refs[2]] && refs[1..][1..] == [refs[2]] && [refs[2]][1..] == [];
    assert !Qualifies(refs[2]);
    assert OrderedFrom([refs[2]], web, u2, AsWritten) == [];
    assert OrderedFrom([refs[2]], web, u2, Intended) == [];
  }

  /** The URLs at positions 1 and 3 of [A, B, C, D]. */
  lemma SampleUnusedUrls()
    ensures UrlsAt(Some([A, B, C, D]), [1, 3]) == [B.url, D.url]
  {
    var web := Some([A, B, C, D]);
    assert [1, 3][1..] == [3] && [3][1..] == [];
    assert UrlAt(web, 3) == Some(D.url);
    assert UrlsAt(web, [3]) == [D.url];
    assert UrlAt(web, 1) == Some(B.url);
  }

  /** As intended, the same ranking yields [C, A, B, D]: the unused results in their own order. */
  lemma IntendedAllBranchAppendsUnused()
    ensures OrderedUrlsIntended(SampleRanking(), Some([A, B, C, D])) == [C.url, A.url, B.url, D.url]
  {
    var web := Some([A, B, C, D]);
    var refs := SampleRanking();
    var u1 := Mark(NoneUsed(web), 2);
    var u2 := Mark(u1, 0);
    assert u2 == [true, false, true, false];
    SampleMarksLeaveTwoUnused();
    SampleUnusedUrls();
    assert refs[1..] == [refs[1], refs[2]] && refs[1..][1..] == [refs[2]];
    assert OrderedFrom([refs[2]], web, u2, Intended) == [B.url, D.url];
    assert OrderedFrom(refs[1..], web, u1, Intended) == [A.url, B.url, D.url];
  }

  /**
   * With the intended `all` branch, every web result whose slot is unused when
   * the walk starts is in the output, provided the ranking holds a qualifying
   * `all` entry: each one is either referenced by a plain entry or appended by
   * the `all` entry.
   */
  lemma {:induction false} IntendedCoversUnusedResults(refs: seq<ResultRef>, i: nat, results: seq<SearchResult>, used: seq<bool>, j: nat)
    requires AllAt(refs, i)
    requires |used| == |results| && j < |results| && !used[j]
    ensures results[j].url in OrderedFrom(refs, Some(results), used, Intended)
    decreases |refs|
  {
    var web := Some(results);
    if !Qualifies(refs[0]) {
      IntendedCoversUnusedResults(refs[1..], i - 1, results, used, j);
    } else if refs[0].all {
      UnusedSlots(used);
      UrlsAtAreWebUrls(web, Unused(used));
      assert j in Unused(used);
      var k :| 0 <= k < |Unused(used)| && Unused(used)[k] == j;
      assert results[Unused(used)[k]].url in UrlsAt(web, Unused(used));
    } else {
      var idx := refs[0].index.value;
      if idx == j {
        assert UrlAt(web, idx) == Some(results[j].url);
      } else {
        IntendedCoversUnusedResults(refs[1..], i - 1, results, Mark(used, idx), j);
      }
    }
  }

  /** With the intended `all` branch and a qualifying `all` entry, every web result's URL is returned. */
  lemma IntendedReturnsEveryResult(refs: seq<ResultRef>, i: nat, results: seq<SearchResult>)
    requires AllAt(refs, i)
    ensures forall j :: 0 <= j < |results| ==> results[j].url in OrderedUrlsIntended(refs, Some(results))
  {
    forall j | 0 <= j < |results|
      ensures results[j].url in OrderedUrlsIntended(refs, Some(results))
    {
      IntendedCoversUnusedResults(refs, i, results, NoneUsed(Some(results)), j);
    }
  }
}
