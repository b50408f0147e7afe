/** Utilisation right-sizing: for a provisioned table and each of its global
    secondary indexes, the average and peak consumed capacity against the
    provisioned capacity, and a recommendation to switch to on-demand, to
    reduce capacity, or nothing. */
module Utilization {
  import opened Wrappers
  import opened Numeric
  import opened Ddb
  import opened Config

  /** 30.4 days of seconds: average units per second to monthly request units. */
  const SecondsPerMonth: real := 2626560.0
  const HoursPerMonth: real := 730.0
  /** Smallest capacity a reduction recommends. */
  const MinRecommended: int := 5
  const NotProvisionedMessage: string := "Utilization analysis only applies to PROVISIONED tables"

  /** The table or one of its indexes, with its provisioned capacity. */
  datatype Resource = Resource(name: string, gsi: Option<string>, provR: nat, provW: nat)

  datatype RecType = SwitchToOnDemand | ReduceCapacity

  /** One recommendation; `recRead`/`recWrite` are None when switching to on-demand. */
  datatype UtilEntry = UtilEntry(
    resourceName: string,
    isGsi: bool,
    readUtil: real,
    writeUtil: real,
    recType: RecType,
    recRead: Option<int>,
    recWrite: Option<int>,
    savings: real)

  /** The message-only result for on-demand tables, or the recommendations. */
  datatype UtilOutcome = NotProvisioned | Recommendations(entries: seq<UtilEntry>, total: real, days: int)

  // ---------------------------------------------------------------------------
  // Resources and queries

  function TableResource(tableName: string, tp: Throughput): Resource {
    Resource(tableName, None, tp.read, tp.write)
  }

  /** An index is named `table#index`; a missing throughput counts as 0. */
  function GsiResource(tableName: string, g: Gsi): Resource {
    var tp := g.provisioned.GetOr(Throughput(0, 0));
    Resource(tableName + "#" + g.name, Some(g.name), tp.read, tp.write)
  }

  function GsiResources(tableName: string, gsis: seq<Gsi>): seq<Resource>
    decreases |gsis|
  {
    if gsis == [] then []
    else GsiResources(tableName, gsis[..|gsis| - 1]) + [GsiResource(tableName, gsis[|gsis| - 1])]
  }

  /** The table followed by its indexes, in order. */
  function ResourcesOf(tableName: string, tp: Throughput, gsis: seq<Gsi>): seq<Resource> {
    [TableResource(tableName, tp)] + GsiResources(tableName, gsis)
  }

  lemma {:induction false} GsiResourcesAt(tableName: string, gsis: seq<Gsi>, k: nat)
    requires k < |gsis|
    ensures |GsiResources(tableName, gsis)| == |gsis|
    ensures GsiResources(tableName, gsis)[k] == GsiResource(tableName, gsis[k])
    decreases |gsis|
  {
    var n := |gsis| - 1;
    if k < n {
      GsiResourcesAt(tableName, gsis[..n], k);
    } else if n > 0 {
      GsiResourcesAt(tableName, gsis[..n], 0);
    }
  }

  /** Resource 0 is the table; resource k+1 is index k. */
  lemma ResourcesShape(tableName: string, tp: Throughput, gsis: seq<Gsi>)
    ensures var res := ResourcesOf(tableName, tp, gsis);
      && |res| == |gsis| + 1
      && res[0] == TableResource(tableName, tp)
      && forall k :: 0 <= k < |gsis| ==> res[k + 1] == GsiResource(tableName, gsis[k])
  {
    if gsis != [] {
      GsiResourcesAt(tableName, gsis, 0);
    }
    forall k | 0 <= k < |gsis|
      ensures ResourcesOf(tableName, tp, gsis)[k + 1] == GsiResource(tableName, gsis[k])
    {
      GsiResourcesAt(tableName, gsis, k);
    }
  }

  /** The `resources` list, built by appending each index after the table. */
  method BuildResources(tableName: string, tp: Throughput, gsis: seq<Gsi>) returns (res: seq<Resource>)
    ensures res == ResourcesOf(tableName, tp, gsis)
  {
    res := [TableResource(tableName, tp)];
    for i := 0 to |gsis|
      invariant res == ResourcesOf(tableName, tp, gsis[..i])
    {
      assert gsis[..i + 1][..i] == gsis[..i];
      res := res + [GsiResource(tableName, gsis[i])];
    }
    assert gsis[..|gsis|] == gsis;
  }

  /** The four queries of resource i: read and write sums, read and write maxima. */
  function ResourceQueries(tableName: string, res: Resource, i: nat): seq<MetricQuery> {
    var gsi := if Truthy(res.gsi) then res.gsi else None;
    var idx := NatToString(i);
    [MetricQuery("r" + idx, tableName, gsi, ConsumedRead, 300, "Sum"),
     MetricQuery("w" + idx, tableName, gsi, ConsumedWrite, 300, "Sum"),
     MetricQuery("rm" + idx, tableName, gsi, ConsumedRead, 300, "Maximum"),
     MetricQuery("wm" + idx, tableName, gsi, ConsumedWrite, 300, "Maximum")]
  }

  function QueriesOf(tableName: string, resources: seq<Resource>): seq<MetricQuery>
    decreases |resources|
  {
    if resources == [] then []
    else
      var n := |resources| - 1;
      QueriesOf(tableName, resources[..n]) + ResourceQueries(tableName, resources[n], n)
  }

  /** Four queries per resource, resource i's at positions 4i..4i+3. */
  lemma {:induction false} QueriesShape(tableName: string, resources: seq<Resource>, i: nat)
    requires i < |resources|
    ensures |QueriesOf(tableName, resources)| == 4 * |resources|
    ensures QueriesOf(tableName, resources)[4 * i..4 * i + 4] == ResourceQueries(tableName, resources[i], i)
    decreases |resources|
  {
    var n := |resources| - 1;
    if i < n {
      QueriesShape(tableName, resources[..n], i);
    } else if n > 0 {
      QueriesShape(tableName, resources[..n], 0);
    }
  }

  /** The `queries` list, four appended per resource. */
  method BuildQueries(tableName: string, resources: seq<Resource>) returns (queries: seq<MetricQuery>)
    ensures queries == QueriesOf(tableName, resources)
  {
    queries := [];
    for i := 0 to |resources|
      invariant queries == QueriesOf(tableName, resources[..i])
    {
      assert resources[..i + 1][..i] == resources[..i];
      queries := queries + ResourceQueries(tableName, resources[i], i);
    }
    assert resources[..|resources|] == resources;
  }

  // ---------------------------------------------------------------------------
  // The recommendation of one resource

  /** Average consumed units per second and peak consumed units. */
  datatype Stats = Stats(avgR: real, avgW: real, peakR: real, peakW: real)

  /** `max(xs, default=0)`. */
  function PeakOrZero(xs: seq<real>): real {
    if xs == [] then 0.0 else MaxOf(xs)
  }

  function StatsOf(metrics: MetricMap, i: nat): Stats {
    var idx := NatToString(i);
    Stats(Mean(PerSecond(Series(metrics, "r" + idx))), Mean(PerSecond(Series(metrics, "w" + idx))),
          PeakOrZero(Series(metrics, "rm" + idx)), PeakOrZero(Series(metrics, "wm" + idx)))
  }

  /** Utilisation in percent, 0 when nothing is provisioned. */
  function UtilizationOf(avg: real, prov: nat): real {
    if prov > 0 then avg / prov as real * 100.0 else 0.0
  }

  /** 20% over the peak, at least 5, for a dimension under the threshold;
      the provisioned value otherwise. */
  function Recommended(util: real, threshold: real, peak: real, prov: nat): int {
    if util < threshold then MaxInt(MinRecommended, Trunc(peak * 1.2)) else prov
  }

  /** The entry for one resource: None when both utilisations reach the
      threshold; Err when a provisioned price it needs is missing. */
  function EntryFor(res: Resource, s: Stats, threshold: real, prices: PriceTable): Result<Option<UtilEntry>> {
    var rUtil := UtilizationOf(s.avgR, res.provR);
    var wUtil := UtilizationOf(s.avgW, res.provW);
    if rUtil >= threshold && wUtil >= threshold then Ok(None)
    else
      var rcuP :- Price(prices, "rcu_hour");
      var wcuP :- Price(prices, "wcu_hour");
      if rUtil < OnDemandThreshold && wUtil < OnDemandThreshold then
        var current := (res.provR as real * rcuP + res.provW as real * wcuP) * HoursPerMonth;
        var od := s.avgR * SecondsPerMonth * PriceOr(prices, "on_demand_read", PriceOr(prices, "read_request", 0.0))
                + s.avgW * SecondsPerMonth * PriceOr(prices, "on_demand_write", PriceOr(prices, "write_request", 0.0));
        Ok(Some(UtilEntry(res.name, res.gsi.Some?, rUtil, wUtil, SwitchToOnDemand, None, None, Max(0.0, current - od))))
      else
        var recR := Recommended(rUtil, threshold, s.peakR, res.provR);
        var recW := Recommended(wUtil, threshold, s.peakW, res.provW);
        var savings := Max(0.0, (res.provR - recR) as real * rcuP * HoursPerMonth)
                     + Max(0.0, (res.provW - recW) as real * wcuP * HoursPerMonth);
        Ok(Some(UtilEntry(res.name, res.gsi.Some?, rUtil, wUtil, ReduceCapacity, Some(recR), Some(recW), savings)))
  }

  /** The entries of the first n resources, or the first exception. */
  function EntriesFor(resources: seq<Resource>, metrics: MetricMap, threshold: real, prices: PriceTable, n: nat)
    : Result<seq<UtilEntry>>
    requires n <= |resources|
  {
    if n == 0 then Ok([])
    else
      var prev :- EntriesFor(resources, metrics, threshold, prices, n - 1);
      var e :- EntryFor(resources[n - 1], StatsOf(metrics, n - 1), threshold, prices);
      Ok(prev + if e.Some? then [e.value] else [])
  }

  function SavingsOf(entries: seq<UtilEntry>): (r: seq<real>)
    ensures |r| == |entries|
    ensures forall i :: 0 <= i < |entries| ==> r[i] == entries[i].savings
  {
    seq(|entries|, i requires 0 <= i < |entries| => entries[i].savings)
  }

  /** What `analyze` returns, or the exception it raises. */
  function AnalyzeSpec(tableName: string, info: Result<TableInfo>, cw: CloudWatch, days: int,
                       prices: PriceTable, threshold: real): Result<UtilOutcome>
  {
    var info :- info;
    if BillingMode(info) == PayPerRequest then Ok(NotProvisioned)
    else if info.provisioned.None? then Err(KeyError("ProvisionedThroughput"))
    else
      var resources := ResourcesOf(tableName, info.provisioned.value, info.gsis);
      var metrics :- cw(QueriesOf(tableName, resources));
      var entries :- EntriesFor(resources, metrics, threshold, prices, |resources|);
      Ok(Recommendations(entries, Sum(SavingsOf(entries)), days))
  }

  // ---------------------------------------------------------------------------
  // The analysis loop

  /** The main loop: one entry per resource under the threshold, savings summed. */
  method Recommend(resources: seq<Resource>, metrics: MetricMap, threshold: real, prices: PriceTable)
    returns (r: Result<seq<UtilEntry>>, total: real)
    ensures r == EntriesFor(resources, metrics, threshold, prices, |resources|)
    ensures r.Ok? ==> total == Sum(SavingsOf(r.value))
  {
    var results: seq<UtilEntry> := [];
    total := 0.0;
    for i := 0 to |resources|
      invariant EntriesFor(resources, metrics, threshold, prices, i) == Ok(results)
      invariant total == Sum(SavingsOf(results))
    {
      var next, t := RecommendOne(resources, metrics, threshold, prices, i, results, total);
      if next.Err? {
        ErrorPersists(resources, metrics, threshold, prices, i + 1, |resources|);
        return Err(next.error), total;
      }
      results, total := next.value, t;
    }
    return Ok(results), total;
  }

  /** One pass of the main loop: resource i's entry, if any, appended and its
      savings added. */
  method RecommendOne(resources: seq<Resource>, metrics: MetricMap, threshold: real, prices: PriceTable,
                      i: nat, results: seq<UtilEntry>, total: real)
    returns (r: Result<seq<UtilEntry>>, total': real)
    requires i < |resources|
    requires EntriesFor(resources, metrics, threshold, prices, i) == Ok(results)
    requires total == Sum(SavingsOf(results))
    ensures r == EntriesFor(resources, metrics, threshold, prices, i + 1)
    ensures r.Ok? ==> total' == Sum(SavingsOf(r.value))
  {
    var e := EntryFor(resources[i], StatsOf(metrics, i), threshold, prices);
    if e.Err? {
      return Err(e.error), total;
    }
    var added: seq<UtilEntry> := if e.value.Some? then [e.value.value] else [];
    EntriesStep(resources, metrics, threshold, prices, i, results, e.value);
    return Ok(results + added), total + Sum(SavingsOf(added));
  }

  /** One more resource appends its entry, if it has one, and its savings. */
  lemma EntriesStep(resources: seq<Resource>, metrics: MetricMap, threshold: real, prices: PriceTable,
                    i: nat, results: seq<UtilEntry>, e: Option<UtilEntry>)
    requires i < |resources|
    requires EntriesFor(resources, metrics, threshold, prices, i) == Ok(results)
    requires EntryFor(resources[i], StatsOf(metrics, i), threshold, prices) == Ok(e)
    ensures var added := if e.Some? then [e.value] else [];
      && EntriesFor(resources, metrics, threshold, prices, i + 1) == Ok(results + added)
      && Sum(SavingsOf(results + added)) == Sum(SavingsOf(results)) + Sum(SavingsOf(added))
  {
    var added := if e.Some? then [e.value] else [];
    assert SavingsOf(results + added) == SavingsOf(results) + SavingsOf(added);
    SumConcat(SavingsOf(results), SavingsOf(added));
  }

  /** The first exception ends the loop: later resources do not change it. */
  lemma {:induction false} ErrorPersists(resources: seq<Resource>, metrics: MetricMap, threshold: real,
                                         prices: PriceTable, k: nat, n: nat)
    requires k <= n <= |resources|
    requires EntriesFor(resources, metrics, threshold, prices, k).Err?
    ensures EntriesFor(resources, metrics, threshold, prices, n) == EntriesFor(resources, metrics, threshold, prices, k)
    decreases n
  {
    if n > k {
      ErrorPersists(resources, metrics, threshold, prices, k, n - 1);
    }
  }

  /** `analyze` over the fetched table description and metrics. */
  method Analyze(tableName: string, info: Result<TableInfo>, cw: CloudWatch, days: int,
                 prices: PriceTable, threshold: real) returns (r: Result<UtilOutcome>)
    ensures r == AnalyzeSpec(tableName, info, cw, days, prices, threshold)
  {
    if info.Err? {
      return Err(info.error);
    }
    var table := info.value;
    if BillingMode(table) == PayPerRequest {
      return Ok(NotProvisioned);
    }
    if table.provisioned.None? {
      return Err(KeyError("ProvisionedThroughput"));
    }
    var resources := BuildResources(tableName, table.provisioned.value, table.gsis);
    var queries := BuildQueries(tableName, resources);
    var metrics := cw(queries);
    if metrics.Err? {
      return Err(metrics.error);
    }
    var entries, total := Recommend(resources, metrics.value, threshold, prices);
    if entries.Err? {
      return Err(entries.error);
    }
    return Ok(Recommendations(entries.value, total, days));
  }

  // ---------------------------------------------------------------------------
  // Properties

  /** On-demand tables get the message-only result and nothing is fetched. */
  lemma OnDemandTablesSkipped(tableName: string, info: TableInfo, cw: CloudWatch, days: int,
                              prices: PriceTable, threshold: real)
    requires info.billingMode == Some(PayPerRequest)
    ensures AnalyzeSpec(tableName, Ok(info), cw, days, prices, threshold) == Ok(NotProvisioned)
  {
  }

  /** A provisioned table must carry its ProvisionedThroughput block. */
  lemma TableThroughputRequired(tableName: string, info: TableInfo, cw: CloudWatch, days: int,
                                prices: PriceTable, threshold: real)
    requires BillingMode(info) != PayPerRequest && info.provisioned.None?
    ensures AnalyzeSpec(tableName, Ok(info), cw, days, prices, threshold).Err?
  {
  }

  /** A resource gets no entry exactly when both utilisations reach the threshold. */
  lemma SkippedIff(res: Resource, s: Stats, threshold: real, prices: PriceTable)
    ensures EntryFor(res, s, threshold, prices) == Ok(None) <==>
      UtilizationOf(s.avgR, res.provR) >= threshold && UtilizationOf(s.avgW, res.provW) >= threshold
  {
  }

  /** An entry switches to on-demand exactly when both utilisations are under
      30%; it then recommends no capacity and saves the monthly provisioned
      cost less the monthly on-demand cost of the average load, or nothing. */
  lemma SwitchIff(res: Resource, s: Stats, threshold: real, prices: PriceTable)
    requires EntryFor(res, s, threshold, prices).Ok? && EntryFor(res, s, threshold, prices).value.Some?
    ensures var e := EntryFor(res, s, threshold, prices).value.value;
      && (e.recType == SwitchToOnDemand <==>
            e.readUtil < OnDemandThreshold && e.writeUtil < OnDemandThreshold)
      && (e.recType == SwitchToOnDemand ==> e.recRead == None && e.recWrite == None)
      && (e.readUtil < threshold || e.writeUtil < threshold)
      && e.readUtil == UtilizationOf(s.avgR, res.provR) && e.writeUtil == UtilizationOf(s.avgW, res.provW)
      && "rcu_hour" in prices && "wcu_hour" in prices
      && (e.recType == SwitchToOnDemand ==>
            e.savings == Max(0.0,
              (res.provR as real * prices["rcu_hour"] + res.provW as real * prices["wcu_hour"]) * HoursPerMonth
              - (s.avgR * SecondsPerMonth * PriceOr(prices, "on_demand_read", PriceOr(prices, "read_request", 0.0))
                 + s.avgW * SecondsPerMonth * PriceOr(prices, "on_demand_write", PriceOr(prices, "write_request", 0.0)))))
  {
  }

  /** A reduction gives each dimension under the threshold 20% over its peak,
      truncated, and at least 5; it leaves the other at its provisioned value. */
  lemma ReduceRecommendation(res: Resource, s: Stats, threshold: real, prices: PriceTable)
    requires EntryFor(res, s, threshold, prices).Ok? && EntryFor(res, s, threshold, prices).value.Some?
    requires EntryFor(res, s, threshold, prices).value.value.recType == ReduceCapacity
    ensures var e := EntryFor(res, s, threshold, prices).value.value;
      && e.recRead.Some? && e.recWrite.Some?
      && (e.readUtil < threshold ==>
            e.recRead.value >= MinRecommended && e.recRead.value as real > s.peakR * 1.2 - 1.0)
      && (e.readUtil >= threshold ==> e.recRead.value == res.provR)
      && (e.writeUtil < threshold ==>
            e.recWrite.value >= MinRecommended && e.recWrite.value as real > s.peakW * 1.2 - 1.0)
      && (e.writeUtil >= threshold ==> e.recWrite.value == res.provW)
      && (e.readUtil < threshold ==> e.recRead == Some(MaxInt(MinRecommended, Trunc(s.peakR * 1.2))))
      && (e.writeUtil < threshold ==> e.recWrite == Some(MaxInt(MinRecommended, Trunc(s.peakW * 1.2))))
  {
  }

  /** A reduction saves the provisioned-capacity cost each dimension sheds,
      and nothing for a dimension whose recommendation is above its
      provisioned value. */
  lemma ReduceSavings(res: Resource, s: Stats, threshold: real, prices: PriceTable)
    requires EntryFor(res, s, threshold, prices).Ok? && EntryFor(res, s, threshold, prices).value.Some?
    requires EntryFor(res, s, threshold, prices).value.value.recType == ReduceCapacity
    ensures var e := EntryFor(res, s, threshold, prices).value.value;
      && e.recRead.Some? && e.recWrite.Some? && "rcu_hour" in prices && "wcu_hour" in prices
      && e.savings ==
           Max(0.0, (res.provR - e.recRead.value) as real * prices["rcu_hour"] * HoursPerMonth)
           + Max(0.0, (res.provW - e.recWrite.value) as real * prices["wcu_hour"] * HoursPerMonth)
  {
  }

  lemma EntrySavingsNonNegative(res: Resource, s: Stats, threshold: real, prices: PriceTable)
    requires EntryFor(res, s, threshold, prices).Ok? && EntryFor(res, s, threshold, prices).value.Some?
    ensures EntryFor(res, s, threshold, prices).value.value.savings >= 0.0
  {
  }

  /** Every entry saves a non-negative amount, so the total does too. */
  lemma {:induction false} EntriesNonNegative(resources: seq<Resource>, metrics: MetricMap, threshold: real,
                                              prices: PriceTable, n: nat)
    requires n <= |resources|
    requires EntriesFor(resources, metrics, threshold, prices, n).Ok?
    ensures var es := EntriesFor(resources, metrics, threshold, prices, n).value;
      && (forall i :: 0 <= i < |es| ==> es[i].savings >= 0.0)
      && Sum(SavingsOf(es)) >= 0.0
      && |es| <= n
  {
    var es := EntriesFor(resources, metrics, threshold, prices, n).value;
    if n > 0 {
      EntriesNonNegative(resources, metrics, threshold, prices, n - 1);
      var prev := EntriesFor(resources, metrics, threshold, prices, n - 1).value;
      var s := StatsOf(metrics, n - 1);
      var e := EntryFor(resources[n - 1], s, threshold, prices).value;
      if e.Some? {
        EntrySavingsNonNegative(resources[n - 1], s, threshold, prices);
      }
      var added := if e.Some? then [e.value] else [];
      assert es == prev + added;
      assert forall i :: 0 <= i < |added| ==> added[i].savings >= 0.0;
    }
    SumNonNegative(SavingsOf(es));
  }
}
