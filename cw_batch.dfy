/** Batched CloudWatch metric retrieval: analyzer queries become
    GetMetricData queries, sent in chunks of at most 500, each chunk paged
    through its continuation tokens, every call retried with exponential
    backoff on throttling; the datapoints of each query id are accumulated
    across pages and chunks and sorted by timestamp.

    The service is a function from (call number, request) to what that call
    does, so one request can be throttled on one call and answered on the
    next; sleeping is recorded as the list of requested durations. */
module CwBatch {
  import opened Wrappers
  import opened Numeric
  import opened Ddb
  import StableSort

  const ChunkSize: nat := 500
  const MaxRetries: int := 5
  const Namespace: string := "AWS/DynamoDB"

  datatype Dimension = Dimension(name: string, value: string)

  /** One entry of `MetricDataQueries`. */
  datatype DataQuery = DataQuery(
    id: string, namespace: string, metricName: string,
    dimensions: seq<Dimension>, period: nat, stat: string)

  datatype Request = Request(queries: seq<DataQuery>, nextToken: Option<string>)
  datatype DataResult = DataResult(id: string, timestamps: seq<int>, values: seq<real>)
  datatype Response = Response(results: seq<DataResult>, nextToken: Option<string>)

  /** What one call does: answer, or raise a client error with a code. */
  datatype Attempt = Returned(response: Response) | Raised(code: string, message: string)

  type Service = (nat, Request) -> Attempt

  datatype Point = Point(timestamp: int, value: real)
  type PointMap = map<string, seq<Point>>

  /** The empty response `_call_with_retry` returns when it makes no call. */
  const NoResponse: Response := Response([], None)

  // ---------------------------------------------------------------------------
  // Query construction

  /** `TableName`, then `GlobalSecondaryIndexName` only for a non-empty index. */
  function DimensionsOf(q: MetricQuery): (dims: seq<Dimension>)
    ensures 1 <= |dims| <= 2 && dims[0] == Dimension("TableName", q.table)
    ensures |dims| == 2 <==> Truthy(q.gsi)
    ensures |dims| == 2 ==> dims[1] == Dimension("GlobalSecondaryIndexName", q.gsi.value)
  {
    [Dimension("TableName", q.table)]
      + if Truthy(q.gsi) then [Dimension("GlobalSecondaryIndexName", q.gsi.value)] else []
  }

  function ToDataQuery(q: MetricQuery): DataQuery {
    DataQuery(q.id, Namespace, q.metric, DimensionsOf(q), q.period, q.stat)
  }

  function DataQueries(queries: seq<MetricQuery>): (r: seq<DataQuery>)
    ensures |r| == |queries|
  {
    seq(|queries|, i requires 0 <= i < |queries| => ToDataQuery(queries[i]))
  }

  /** The `metric_queries` list, one per query in order. */
  method BuildDataQueries(queries: seq<MetricQuery>) returns (dq: seq<DataQuery>)
    ensures dq == DataQueries(queries)
  {
    dq := [];
    for i := 0 to |queries|
      invariant dq == DataQueries(queries[..i])
    {
      dq := dq + [ToDataQuery(queries[i])];
    }
    assert queries[..|queries|] == queries;
  }

  // ---------------------------------------------------------------------------
  // Chunking

  /** `xs[i:i+size]` for i = 0, size, 2*size, ... below |xs|. */
  function Chunks<T>(xs: seq<T>, size: nat): seq<seq<T>>
    requires size > 0
    decreases |xs|
  {
    if xs == [] then []
    else if |xs| <= size then [xs]
    else [xs[..size]] + Chunks(xs[size..], size)
  }

  function Concat<T>(xss: seq<seq<T>>): seq<T>
    decreases |xss|
  {
    if xss == [] then [] else xss[0] + Concat(xss[1..])
  }

  /** The chunks, in order, are the queries. */
  lemma {:induction false} ChunksConcat<T>(xs: seq<T>, size: nat)
    requires size > 0
    ensures Concat(Chunks(xs, size)) == xs
    decreases |xs|
  {
    if xs != [] && |xs| > size {
      var rest := Chunks(xs[size..], size);
      assert Chunks(xs, size) == [xs[..size]] + rest;
      assert ([xs[..size]] + rest)[1..] == rest;
      ChunksConcat(xs[size..], size);
      assert xs[..size] + xs[size..] == xs;
    }
  }

  /** Every chunk holds between 1 and `size` queries. */
  lemma {:induction false} ChunksSized<T>(xs: seq<T>, size: nat)
    requires size > 0
    ensures forall c :: c in Chunks(xs, size) ==> 0 < |c| <= size
    decreases |xs|
  {
    if xs != [] && |xs| > size {
      ChunksSized(xs[size..], size);
    }
  }

  /** There are ceil(|xs| / size) chunks: the fewest of that size that hold
      every query. */
  lemma {:induction false} ChunksCount<T>(xs: seq<T>, size: nat)
    requires size > 0
    ensures |Chunks(xs, size)| == 0 <==> xs == []
    ensures |xs| <= |Chunks(xs, size)| * size
    ensures xs != [] ==> (|Chunks(xs, size)| - 1) * size < |xs|
    decreases |xs|
  {
    if xs != [] && |xs| > size {
      var n := |Chunks(xs[size..], size)|;
      ChunksCount(xs[size..], size);
      assert (n + 1) * size == n * size + size;
      assert (n - 1) * size + size == n * size;
    }
  }

  lemma ChunksStep<T>(xs: seq<T>, i: nat, size: nat)
    requires size > 0 && i < |xs|
    ensures var j := if i + size <= |xs| then i + size else |xs|;
      Chunks(xs[i..], size) == [xs[i..j]] + Chunks(xs[j..], size)
  {
    var j := if i + size <= |xs| then i + size else |xs|;
    if |xs[i..]| <= size {
      assert xs[i..j] == xs[i..];
      assert xs[j..] == [];
    } else {
      assert xs[i..][..size] == xs[i..j];
      assert xs[i..][size..] == xs[j..];
    }
  }

  /** The `range(0, len, 500)` loop's slices. */
  method BuildChunks<T>(xs: seq<T>, size: nat) returns (chunks: seq<seq<T>>)
    requires size > 0
    ensures chunks == Chunks(xs, size)
  {
    chunks := [];
    var i := 0;
    while i < |xs|
      invariant i <= |xs|
      invariant chunks + Chunks(xs[i..], size) == Chunks(xs, size)
      decreases |xs| - i
    {
      var j := if i + size <= |xs| then i + size else |xs|;
      ChunksStep(xs, i, size);
      chunks := chunks + [xs[i..j]];
      i := j;
    }
  }

  // ---------------------------------------------------------------------------
  // Retry with exponential backoff

  function Pow2(k: nat): nat {
    if k == 0 then 1 else 2 * Pow2(k - 1)
  }

  predicate IsThrottle(code: string) {
    code == "Throttling" || code == "ThrottlingException"
  }

  predicate Throttled(a: Attempt) {
    a.Raised? && IsThrottle(a.code)
  }

  /** The outcome, the number of calls made and the sleeps requested. */
  datatype RetryRun = RetryRun(result: Result<Response>, calls: nat, sleeps: seq<nat>)

  /** `_call_with_retry` from `attempt` on, having slept `slept` so far. */
  function Retry(service: Service, req: Request, start: nat, maxRetries: int, attempt: nat, slept: seq<nat>)
    : RetryRun
    decreases maxRetries - attempt
  {
    if attempt >= maxRetries then RetryRun(Ok(NoResponse), attempt, slept)
    else
      match service(start + attempt, req)
      case Returned(resp) => RetryRun(Ok(resp), attempt + 1, slept)
      case Raised(code, message) =>
        if IsThrottle(code) && attempt < maxRetries - 1 then
          Retry(service, req, start, maxRetries, attempt + 1, slept + [Pow2(attempt)])
        else RetryRun(Err(message), attempt + 1, slept)
  }

  method CallWithRetry(service: Service, req: Request, start: nat, maxRetries: int)
    returns (r: Result<Response>, calls: nat, slept: seq<nat>)
    ensures RetryRun(r, calls, slept) == Retry(service, req, start, maxRetries, 0, [])
  {
    var attempt: nat := 0;
    slept := [];
    while attempt < maxRetries
      invariant Retry(service, req, start, maxRetries, attempt, slept) == Retry(service, req, start, maxRetries, 0, [])
      decreases maxRetries - attempt
    {
      match service(start + attempt, req)
      case Returned(resp) =>
        return Ok(resp), attempt + 1, slept;
      case Raised(code, message) =>
        if IsThrottle(code) && attempt < maxRetries - 1 {
          slept := slept + [Pow2(attempt)];
          attempt := attempt + 1;
        } else {
          return Err(message), attempt + 1, slept;
        }
    }
    return Ok(NoResponse), attempt, slept;
  }

  /** How the last call ends the retries: its response, or its error when it
      is not a throttle or no attempt is left. */
  predicate Concludes(a: Attempt, r: Result<Response>, last: bool) {
    match a
    case Returned(resp) => r == Ok(resp)
    case Raised(code, message) => r == Err(message) && (!IsThrottle(code) || last)
  }

  lemma {:induction false} RetryShape(service: Service, req: Request, start: nat, maxRetries: int,
                                      attempt: nat, slept: seq<nat>)
    requires attempt < maxRetries
    ensures var run := Retry(service, req, start, maxRetries, attempt, slept);
      && attempt + 1 <= run.calls <= maxRetries
      && |run.sleeps| == |slept| + run.calls - 1 - attempt
      && run.sleeps[..|slept|] == slept
      && (forall k :: attempt <= k < run.calls - 1 ==>
            run.sleeps[|slept| + k - attempt] == Pow2(k) && Throttled(service(start + k, req)))
      && Concludes(service(start + run.calls - 1, req), run.result, run.calls == maxRetries)
    decreases maxRetries - attempt
  {
    var a := service(start + attempt, req);
    if a.Raised? && IsThrottle(a.code) && attempt < maxRetries - 1 {
      var slept' := slept + [Pow2(attempt)];
      RetryShape(service, req, start, maxRetries, attempt + 1, slept');
      var run := Retry(service, req, start, maxRetries, attempt + 1, slept');
      assert run.sleeps[..|slept'|] == slept';
      assert run.sleeps[..|slept|] == slept'[..|slept|];
    }
  }

  /** The retry policy: call k < calls - 1 was throttled and was followed by
      a sleep of 2^k; at most `maxRetries` calls are made; the last one's
      response is returned, or its error raised when it is not a throttle or
      it was the final attempt. With no attempts allowed nothing is called. */
  lemma RetryPolicy(service: Service, req: Request, start: nat, maxRetries: int)
    ensures var run := Retry(service, req, start, maxRetries, 0, []);
      && (maxRetries <= 0 ==> run == RetryRun(Ok(NoResponse), 0, []))
      && (maxRetries > 0 ==>
            && 1 <= run.calls <= maxRetries
            && |run.sleeps| == run.calls - 1
            && (forall k :: 0 <= k < run.calls - 1 ==>
                  run.sleeps[k] == Pow2(k) && Throttled(service(start + k, req)))
            && Concludes(service(start + run.calls - 1, req), run.result, run.calls == maxRetries))
  {
    if maxRetries > 0 {
      RetryShape(service, req, start, maxRetries, 0, []);
      var run := Retry(service, req, start, maxRetries, 0, []);
      forall k | 0 <= k < run.calls - 1
        ensures run.sleeps[k] == Pow2(k) && Throttled(service(start + k, req))
      {
      }
    }
  }

  /** A non-throttling error is raised at once, without sleeping. */
  lemma NonThrottleRaisedAtOnce(service: Service, req: Request, start: nat, maxRetries: int)
    requires maxRetries > 0
    requires service(start, req).Raised? && !IsThrottle(service(start, req).code)
    ensures Retry(service, req, start, maxRetries, 0, []) == RetryRun(Err(service(start, req).message), 1, [])
  {
  }

  // ---------------------------------------------------------------------------
  // Accumulating datapoints

  /** `zip(timestamps, values)`: pairs up to the shorter list. */
  function Zip(ts: seq<int>, vs: seq<real>): (r: seq<Point>)
    ensures |r| == if |ts| <= |vs| then |ts| else |vs|
    ensures forall i :: 0 <= i < |r| ==> r[i] == Point(ts[i], vs[i])
  {
    var n := if |ts| <= |vs| then |ts| else |vs|;
    seq(n, i requires 0 <= i < n => Point(ts[i], vs[i]))
  }

  function Existing(m: PointMap, id: string): seq<Point> {
    if id in m then m[id] else []
  }

  function MergeResult(m: PointMap, r: DataResult): PointMap {
    m[r.id := Existing(m, r.id) + Zip(r.timestamps, r.values)]
  }

  function MergeResults(m: PointMap, drs: seq<DataResult>): PointMap
    decreases |drs|
  {
    if drs == [] then m
    else MergeResult(MergeResults(m, drs[..|drs| - 1]), drs[|drs| - 1])
  }

  function MergePages(m: PointMap, pages: seq<Response>): PointMap
    decreases |pages|
  {
    if pages == [] then m
    else MergeResults(MergePages(m, pages[..|pages| - 1]), pages[|pages| - 1].results)
  }

  /** The inner `for r in resp['MetricDataResults']` loop. */
  method MergeInto(m: PointMap, drs: seq<DataResult>) returns (out: PointMap)
    ensures out == MergeResults(m, drs)
  {
    out := m;
    for i := 0 to |drs|
      invariant out == MergeResults(m, drs[..i])
    {
      assert drs[..i + 1][..i] == drs[..i];
      var r := drs[i];
      var existing := if r.id in out then out[r.id] else [];
      out := out[r.id := existing + Zip(r.timestamps, r.values)];
    }
    assert drs[..|drs|] == drs;
  }

  /** Every data result of every page, in order. */
  function AllResults(pages: seq<Response>): seq<DataResult>
    decreases |pages|
  {
    if pages == [] then []
    else AllResults(pages[..|pages| - 1]) + pages[|pages| - 1].results
  }

  /** The points that the data results with this id carry, in order. */
  function PointsIn(drs: seq<DataResult>, id: string): seq<Point>
    decreases |drs|
  {
    if drs == [] then []
    else
      var r := drs[|drs| - 1];
      PointsIn(drs[..|drs| - 1], id) + if r.id == id then Zip(r.timestamps, r.values) else []
  }

  predicate Mentions(drs: seq<DataResult>, id: string) {
    exists k :: 0 <= k < |drs| && drs[k].id == id
  }

  lemma {:induction false} MergeResultsPoints(m: PointMap, drs: seq<DataResult>, id: string)
    ensures Existing(MergeResults(m, drs), id) == Existing(m, id) + PointsIn(drs, id)
    decreases |drs|
  {
    if drs != [] {
      MergeResultsPoints(m, drs[..|drs| - 1], id);
    }
  }

  lemma {:induction false} MergeResultsKeys(m: PointMap, drs: seq<DataResult>, id: string)
    ensures id in MergeResults(m, drs) <==> id in m || Mentions(drs, id)
    decreases |drs|
  {
    if drs != [] {
      var init := drs[..|drs| - 1];
      MergeResultsKeys(m, init, id);
      if Mentions(init, id) {
        var k :| 0 <= k < |init| && init[k].id == id;
        assert drs[k].id == id;
      }
      if Mentions(drs, id) && !Mentions(init, id) {
        var k :| 0 <= k < |drs| && drs[k].id == id;
        assert k == |drs| - 1;
      }
    }
  }

  lemma {:induction false} MergeResultsConcat(m: PointMap, a: seq<DataResult>, b: seq<DataResult>)
    ensures MergeResults(m, a + b) == MergeResults(MergeResults(m, a), b)
    decreases |b|
  {
    if b == [] {
      assert a + b == a;
    } else {
      var init := b[..|b| - 1];
      MergeResultsConcat(m, a, init);
      assert (a + b)[..|a + b| - 1] == a + init;
    }
  }

  lemma {:induction false} MergePagesFlat(m: PointMap, pages: seq<Response>)
    ensures MergePages(m, pages) == MergeResults(m, AllResults(pages))
    decreases |pages|
  {
    if pages != [] {
      var init := pages[..|pages| - 1];
      MergePagesFlat(m, init);
      MergeResultsConcat(m, AllResults(init), pages[|pages| - 1].results);
    }
  }

  /** Points of one id are accumulated across every page: the merged list is
      the concatenation, in page order, of the points every data result with
      that id carried, and exactly the ids that appeared have a list. */
  lemma Accumulated(pages: seq<Response>, id: string)
    ensures Existing(MergePages(map[], pages), id) == PointsIn(AllResults(pages), id)
    ensures id in MergePages(map[], pages) <==> Mentions(AllResults(pages), id)
  {
    MergePagesFlat(map[], pages);
    MergeResultsPoints(map[], AllResults(pages), id);
    MergeResultsKeys(map[], AllResults(pages), id);
  }

  // ---------------------------------------------------------------------------
  // Sorting each id's points

  function ByTimestamp(p: Point): real {
    p.timestamp as real
  }

  function SortAll(m: PointMap): PointMap {
    map id | id in m :: StableSort.Sorted(m[id], ByTimestamp)
  }

  /** The `for qid in results: results[qid].sort(...)` loop. */
  method SortEach(m: PointMap) returns (r: PointMap)
    ensures r == SortAll(m)
  {
    r := map[];
    var keys := m.Keys;
    while keys != {}
      invariant keys <= m.Keys
      invariant r.Keys == m.Keys - keys
      invariant forall id :: id in r ==> r[id] == StableSort.Sorted(m[id], ByTimestamp)
      decreases keys
    {
      var id :| id in keys;
      var points := m[id];
      var a := new Point[|points|];
      forall i | 0 <= i < |points| {
        a[i] := points[i];
      }
      assert a[..] == points;
      StableSort.SortInPlace(a, ByTimestamp);
      r := r[id := a[..]];
      keys := keys - {id};
    }
  }

  /** Each id's list ends up in timestamp order, holding exactly the points
      accumulated for it, with equal timestamps kept in arrival order. */
  lemma SortedSeries(m: PointMap, id: string)
    requires id in m
    ensures StableSort.Ascending(SortAll(m)[id], ByTimestamp)
    ensures multiset(SortAll(m)[id]) == multiset(m[id])
    ensures forall t :: StableSort.WithKey(SortAll(m)[id], ByTimestamp, t) == StableSort.WithKey(m[id], ByTimestamp, t)
  {
    StableSort.SortedAscending(m[id], ByTimestamp);
    StableSort.SortedPermutation(m[id], ByTimestamp);
    forall t ensures StableSort.WithKey(SortAll(m)[id], ByTimestamp, t) == StableSort.WithKey(m[id], ByTimestamp, t) {
      StableSort.SortedStable(m[id], ByTimestamp, t);
    }
  }

  // ---------------------------------------------------------------------------
  // Paging and the chunk loop

  /** The pages received, the page requests made, the calls and the sleeps,
      and the error that stopped the run, if any. */
  datatype Fetch = Fetch(failure: Option<string>, pages: seq<Response>, requests: seq<Request>,
                         calls: nat, sleeps: seq<nat>)

  /** One chunk's `while True` loop from `token` on; `fuel` more pages may follow. */
  function PagesFrom(service: Service, batch: seq<DataQuery>, token: Option<string>, fuel: nat, s: Fetch): Fetch
    decreases fuel
  {
    var req := Request(batch, token);
    var run := Retry(service, req, s.calls, MaxRetries, 0, []);
    var s1 := s.(requests := s.requests + [req], calls := s.calls + run.calls, sleeps := s.sleeps + run.sleeps);
    if run.result.Err? then s1.(failure := Some(run.result.error))
    else
      var resp := run.result.value;
      var s2 := s1.(pages := s1.pages + [resp]);
      if !Truthy(resp.nextToken) then s2
      else if fuel == 0 then s2.(failure := Some(PageLimitExceeded))
      else PagesFrom(service, batch, resp.nextToken, fuel - 1, s2)
  }

  /** The first n chunks, stopping at the first error. */
  function FetchChunks(service: Service, chunks: seq<seq<DataQuery>>, n: nat, fuel: nat): Fetch
    requires n <= |chunks|
  {
    if n == 0 then Fetch(None, [], [], 0, [])
    else
      var prev := FetchChunks(service, chunks, n - 1, fuel);
      if prev.failure.Some? then prev
      else PagesFrom(service, chunks[n - 1], None, fuel, prev)
  }

  function BatchRun(service: Service, queries: seq<MetricQuery>, fuel: nat): Fetch {
    var chunks := Chunks(DataQueries(queries), ChunkSize);
    FetchChunks(service, chunks, |chunks|, fuel)
  }

  /** What `batch_get_metrics` returns, or the error it raises. */
  function BatchGetMetricsSpec(service: Service, queries: seq<MetricQuery>, fuel: nat): Result<PointMap> {
    var run := BatchRun(service, queries, fuel);
    if run.failure.Some? then Err(run.failure.value)
    else Ok(SortAll(MergePages(map[], run.pages)))
  }

  /** The analyzers' view: each id's values in timestamp order. */
  function AsCloudWatch(service: Service, fuel: nat): CloudWatch {
    queries =>
      match BatchGetMetricsSpec(service, queries, fuel)
      case Err(e) => Err(e)
      case Ok(m) => Ok(map id | id in m :: seq(|m[id]|, i requires 0 <= i < |m[id]| => m[id][i].value))
  }

  /** The method's running state: the merged map instead of the pages. */
  datatype Progress = Progress(results: PointMap, requests: seq<Request>, calls: nat, sleeps: seq<nat>)

  /** The progress the method keeps for a run that has reached `f`. */
  function ProgressOf(f: Fetch): Progress {
    Progress(MergePages(map[], f.pages), f.requests, f.calls, f.sleeps)
  }

  /** One unfolding of `PagesFrom`, once the call for `token` has come back
      as `r` after `calls` calls and the sleeps `slept`. */
  lemma PagesFromStep(service: Service, batch: seq<DataQuery>, token: Option<string>, fuel: nat, s: Fetch,
                      r: Result<Response>, calls: nat, slept: seq<nat>)
    requires RetryRun(r, calls, slept) == Retry(service, Request(batch, token), s.calls, MaxRetries, 0, [])
    ensures var s1 := s.(requests := s.requests + [Request(batch, token)], calls := s.calls + calls,
                         sleeps := s.sleeps + slept);
      var s2 := if r.Ok? then s1.(pages := s1.pages + [r.value]) else s1;
      var f := PagesFrom(service, batch, token, fuel, s);
      && (r.Err? ==> f == s1.(failure := Some(r.error)))
      && (r.Ok? && !Truthy(r.value.nextToken) ==> f == s2)
      && (r.Ok? && Truthy(r.value.nextToken) && fuel == 0 ==> f == s2.(failure := Some(PageLimitExceeded)))
      && (r.Ok? && Truthy(r.value.nextToken) && fuel > 0 ==>
            f == PagesFrom(service, batch, r.value.nextToken, fuel - 1, s2))
  {
  }

  /** Merging one more page extends the merge of the pages before it. */
  lemma MergePagesSnoc(m: PointMap, pages: seq<Response>, resp: Response)
    ensures MergePages(m, pages + [resp]) == MergeResults(MergePages(m, pages), resp.results)
  {
    assert (pages + [resp])[..|pages|] == pages;
  }

  /** One pass of a chunk's `while True` loop: one call (with retries) and
      its merge; `done` when the loop breaks or raises. */
  method FetchPage(service: Service, batch: seq<DataQuery>, token: Option<string>, left: nat,
                   q: Progress, ghost g: Fetch, ghost target: Fetch)
    returns (done: bool, failure: Option<string>, next: Option<string>, q': Progress, ghost g': Fetch)
    requires q == ProgressOf(g) && g.failure.None?
    requires target == PagesFrom(service, batch, token, left, g)
    ensures done ==> failure == target.failure && q' == ProgressOf(target)
    ensures !done ==> left > 0 && q' == ProgressOf(g') && g'.failure.None?
    ensures !done ==> target == PagesFrom(service, batch, next, left - 1, g')
  {
    var req := Request(batch, token);
    var r, calls, slept := CallWithRetry(service, req, q.calls, MaxRetries);
    PagesFromStep(service, batch, token, left, g, r, calls, slept);
    ghost var g1 := g.(requests := g.requests + [req], calls := g.calls + calls, sleeps := g.sleeps + slept);
    q' := q.(requests := q.requests + [req], calls := q.calls + calls, sleeps := q.sleeps + slept);
    next := None;
    g' := g1;
    if r.Err? {
      return true, Some(r.error), next, q', g';
    }
    var merged := MergeInto(q'.results, r.value.results);
    MergePagesSnoc(map[], g.pages, r.value);
    g' := g1.(pages := g1.pages + [r.value]);
    q' := q'.(results := merged);
    if !Truthy(r.value.nextToken) {
      return true, None, next, q', g';
    }
    if left == 0 {
      return true, Some(PageLimitExceeded), next, q', g';
    }
    return false, None, r.value.nextToken, q', g';
  }

  /** One chunk: pages followed while a continuation token comes back. */
  method FetchChunk(service: Service, batch: seq<DataQuery>, fuel: nat, p: Progress, ghost f: Fetch)
    returns (failure: Option<string>, q: Progress)
    requires p == ProgressOf(f) && f.failure.None?
    ensures failure == PagesFrom(service, batch, None, fuel, f).failure
    ensures q == ProgressOf(PagesFrom(service, batch, None, fuel, f))
  {
    var token: Option<string> := None;
    var left := fuel;
    ghost var g := f;
    ghost var target := PagesFrom(service, batch, None, fuel, f);
    q := p;
    while true
      invariant q == ProgressOf(g)
      invariant g.failure.None?
      invariant PagesFrom(service, batch, token, left, g) == target
      decreases left
    {
      var done;
      done, failure, token, q, g := FetchPage(service, batch, token, left, q, g, target);
      if done {
        return failure, q;
      }
      left := left - 1;
    }
  }

  lemma {:induction false} FailurePersists(service: Service, chunks: seq<seq<DataQuery>>, k: nat, n: nat, fuel: nat)
    requires k <= n <= |chunks|
    requires FetchChunks(service, chunks, k, fuel).failure.Some?
    ensures FetchChunks(service, chunks, n, fuel) == FetchChunks(service, chunks, k, fuel)
    decreases n
  {
    if n > k {
      FailurePersists(service, chunks, k, n - 1, fuel);
    }
  }

  /** `batch_get_metrics` over the service. */
  method BatchGetMetrics(service: Service, queries: seq<MetricQuery>, fuel: nat)
    returns (r: Result<PointMap>, requests: seq<Request>, sleeps: seq<nat>)
    ensures r == BatchGetMetricsSpec(service, queries, fuel)
    ensures requests == BatchRun(service, queries, fuel).requests
    ensures sleeps == BatchRun(service, queries, fuel).sleeps
  {
    var dq := BuildDataQueries(queries);
    var chunks := BuildChunks(dq, ChunkSize);
    var p := Progress(map[], [], 0, []);
    for i := 0 to |chunks|
      invariant FetchChunks(service, chunks, i, fuel).failure.None?
      invariant p == ProgressOf(FetchChunks(service, chunks, i, fuel))
    {
      var failure;
      failure, p := FetchChunk(service, chunks[i], fuel, p, FetchChunks(service, chunks, i, fuel));
      if failure.Some? {
        FailurePersists(service, chunks, i + 1, |chunks|, fuel);
        return Err(failure.value), p.requests, p.sleeps;
      }
    }
    var sorted := SortEach(p.results);
    return Ok(sorted), p.requests, p.sleeps;
  }

  // ---------------------------------------------------------------------------
  // Properties of the whole run

  lemma {:induction false} PagesFromRequests(service: Service, batch: seq<DataQuery>, token: Option<string>,
                                             fuel: nat, s: Fetch)
    ensures var r := PagesFrom(service, batch, token, fuel, s);
      && |s.requests| < |r.requests|
      && r.requests[..|s.requests|] == s.requests
      && forall k :: |s.requests| <= k < |r.requests| ==> r.requests[k].queries == batch
    decreases fuel
  {
    var req := Request(batch, token);
    var run := Retry(service, req, s.calls, MaxRetries, 0, []);
    var s1 := s.(requests := s.requests + [req], calls := s.calls + run.calls, sleeps := s.sleeps + run.sleeps);
    PagesFromStep(service, batch, token, fuel, s, run.result, run.calls, run.sleeps);
    if run.result.Ok? && Truthy(run.result.value.nextToken) && fuel > 0 {
      var s2 := s1.(pages := s1.pages + [run.result.value]);
      PagesFromRequests(service, batch, run.result.value.nextToken, fuel - 1, s2);
      var r := PagesFrom(service, batch, run.result.value.nextToken, fuel - 1, s2);
      assert r.requests[..|s2.requests|] == s2.requests;
      assert r.requests[..|s.requests|] == s2.requests[..|s.requests|];
    }
  }

  /** `c` names the chunk each request sends: the requests go through the
      chunks from the first, in order, each chunk after the one before. */
  predicate ChunkOrder(requests: seq<Request>, chunks: seq<seq<DataQuery>>, c: seq<nat>) {
    && |c| == |requests|
    && (forall k :: 0 <= k < |c| ==> c[k] < |chunks| && requests[k].queries == chunks[c[k]])
    && (|c| > 0 ==> c[0] == 0)
    && (forall k :: 0 < k < |c| ==> c[k - 1] <= c[k] <= c[k - 1] + 1)
  }

  /** Appending the requests of chunk i to a run that sent chunks 0 .. i-1
      in order extends its chunk index by i. */
  lemma ChunkOrderExtend(prev: seq<Request>, requests: seq<Request>, chunks: seq<seq<DataQuery>>,
                         cp: seq<nat>, i: nat) returns (c: seq<nat>)
    requires i < |chunks| && ChunkOrder(prev, chunks, cp)
    requires forall k :: 0 <= k < |cp| ==> cp[k] < i
    requires i > 0 ==> |cp| > 0 && cp[|cp| - 1] == i - 1
    requires forall j :: 0 <= j < i ==> j in cp
    requires |prev| < |requests| && requests[..|prev|] == prev
    requires forall k :: |prev| <= k < |requests| ==> requests[k].queries == chunks[i]
    ensures ChunkOrder(requests, chunks, c)
    ensures (forall k :: 0 <= k < |c| ==> c[k] <= i) && c[|c| - 1] == i
    ensures forall j :: 0 <= j <= i ==> j in c
  {
    c := cp + seq(|requests| - |prev|, _ => i);
    forall k | 0 <= k < |cp| ensures requests[k].queries == chunks[c[k]] {
      assert requests[k] == requests[..|prev|][k];
    }
    forall j | 0 <= j <= i ensures j in c {
      if j < i {
        assert j in cp;
        var k :| 0 <= k < |cp| && cp[k] == j;
        assert c[k] == j;
      } else {
        assert c[|cp|] == j;
      }
    }
  }

  /** The chunk index of every request of the first n chunks; a run without
      error has sent each of them. */
  lemma {:induction false} FetchChunksOrder(service: Service, chunks: seq<seq<DataQuery>>, n: nat, fuel: nat)
    returns (c: seq<nat>)
    requires n <= |chunks|
    ensures var r := FetchChunks(service, chunks, n, fuel);
      && ChunkOrder(r.requests, chunks, c)
      && (forall k :: 0 <= k < |c| ==> c[k] < n)
      && (r.failure.None? ==> (n > 0 ==> |c| > 0 && c[|c| - 1] == n - 1) && forall j :: 0 <= j < n ==> j in c)
  {
    if n == 0 {
      c := [];
    } else {
      var cp := FetchChunksOrder(service, chunks, n - 1, fuel);
      c := NextChunkOrder(service, chunks, n - 1, fuel, cp);
    }
  }

  /** One step of `FetchChunksOrder`: chunk i after the first i chunks. */
  lemma NextChunkOrder(service: Service, chunks: seq<seq<DataQuery>>, i: nat, fuel: nat, cp: seq<nat>)
    returns (c: seq<nat>)
    requires i < |chunks|
    requires var prev := FetchChunks(service, chunks, i, fuel);
      && ChunkOrder(prev.requests, chunks, cp)
      && (forall k :: 0 <= k < |cp| ==> cp[k] < i)
      && (prev.failure.None? ==> (i > 0 ==> |cp| > 0 && cp[|cp| - 1] == i - 1) && forall j :: 0 <= j < i ==> j in cp)
    ensures var r := FetchChunks(service, chunks, i + 1, fuel);
      && ChunkOrder(r.requests, chunks, c)
      && (forall k :: 0 <= k < |c| ==> c[k] < i + 1)
      && (r.failure.None? ==> |c| > 0 && c[|c| - 1] == i && forall j :: 0 <= j < i + 1 ==> j in c)
  {
    var prev := FetchChunks(service, chunks, i, fuel);
    if prev.failure.Some? {
      c := cp;
    } else {
      PagesFromRequests(service, chunks[i], None, fuel, prev);
      var r := PagesFrom(service, chunks[i], None, fuel, prev);
      c := ChunkOrderExtend(prev.requests, r.requests, chunks, cp, i);
    }
  }

  lemma FetchChunksRequests(service: Service, chunks: seq<seq<DataQuery>>, n: nat, fuel: nat)
    requires n <= |chunks|
    ensures forall k :: 0 <= k < |FetchChunks(service, chunks, n, fuel).requests| ==>
      FetchChunks(service, chunks, n, fuel).requests[k].queries in chunks
    ensures exists c ::
      && ChunkOrder(FetchChunks(service, chunks, n, fuel).requests, chunks, c)
      && (FetchChunks(service, chunks, n, fuel).failure.None? ==> forall j :: 0 <= j < n ==> j in c)
  {
    var c := FetchChunksOrder(service, chunks, n, fuel);
  }

  /** Every request sends one of the chunks, 1 to 500 queries, and the
      requests go through the chunks in order; a run without error sends
      every chunk. */
  lemma RequestsSendChunks(service: Service, queries: seq<MetricQuery>, fuel: nat)
    ensures var chunks := Chunks(DataQueries(queries), ChunkSize);
      && Concat(chunks) == DataQueries(queries)
      && (forall k :: 0 <= k < |BatchRun(service, queries, fuel).requests| ==>
           BatchRun(service, queries, fuel).requests[k].queries in chunks
           && 0 < |BatchRun(service, queries, fuel).requests[k].queries| <= ChunkSize)
      && exists c ::
           && ChunkOrder(BatchRun(service, queries, fuel).requests, chunks, c)
           && (BatchRun(service, queries, fuel).failure.None? ==> forall j :: 0 <= j < |chunks| ==> j in c)
  {
    var chunks := Chunks(DataQueries(queries), ChunkSize);
    ChunksConcat(DataQueries(queries), ChunkSize);
    ChunksSized(DataQueries(queries), ChunkSize);
    FetchChunksRequests(service, chunks, |chunks|, fuel);
    var c := FetchChunksOrder(service, chunks, |chunks|, fuel);
    var run := BatchRun(service, queries, fuel);
    assert run == FetchChunks(service, chunks, |chunks|, fuel);
    assert ChunkOrder(run.requests, chunks, c);
  }

  /** The result maps exactly the ids that came back to their points from
      every page of every chunk, in timestamp order, with no point lost or
      added and equal timestamps kept in arrival order. */
  lemma BatchPoints(service: Service, queries: seq<MetricQuery>, fuel: nat, id: string)
    requires BatchGetMetricsSpec(service, queries, fuel).Ok?
    ensures var m := BatchGetMetricsSpec(service, queries, fuel).value;
      var drs := AllResults(BatchRun(service, queries, fuel).pages);
      && (id in m <==> Mentions(drs, id))
      && (id in m ==>
            && StableSort.Ascending(m[id], ByTimestamp)
            && multiset(m[id]) == multiset(PointsIn(drs, id))
            && forall t :: StableSort.WithKey(m[id], ByTimestamp, t) == StableSort.WithKey(PointsIn(drs, id), ByTimestamp, t))
  {
    var pages := BatchRun(service, queries, fuel).pages;
    Accumulated(pages, id);
    if id in MergePages(map[], pages) {
      SortedSeries(MergePages(map[], pages), id);
    }
  }
}
