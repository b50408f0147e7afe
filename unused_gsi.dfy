/** Unused global secondary index detection: an index nobody read from over
    the window is reported with what removing it would save. */
module UnusedGsi {
  import opened Wrappers
  import opened Numeric
  import opened Ddb

  const DaysPerMonth: real := 30.4
  const HoursPerMonth: real := 730.0
  const ProvisionedRead: string := "ProvisionedReadCapacityUnits"
  const ProvisionedWrite: string := "ProvisionedWriteCapacityUnits"
  /** Python's ZeroDivisionError texts for an int and for a float dividend. */
  const IntZeroDivision: string := "division by zero"
  const FloatZeroDivision: string := "float division by zero"

  datatype UnusedEntry = UnusedEntry(indexName: string, savings: real)

  /** `hasGSIs` False for a table without indexes; otherwise the report. */
  datatype GsiOutcome =
    | NoGsis(days: int)
    | GsiReport(totalGsis: nat, unused: seq<UnusedEntry>, total: real, days: int)

  // ---------------------------------------------------------------------------
  // Queries

  /** The queries of index i: the daily read sum, then the daily write sum for
      an on-demand table, or the average provisioned read and write capacity. */
  function GsiQueries(tableName: string, g: Gsi, i: nat, onDemand: bool): (r: seq<MetricQuery>)
    ensures |r| == if onDemand then 2 else 3
  {
    var idx := NatToString(i);
    var readSum := MetricQuery("r" + idx, tableName, Some(g.name), ConsumedRead, 86400, "Sum");
    if onDemand then
      [readSum, MetricQuery("w" + idx, tableName, Some(g.name), ConsumedWrite, 86400, "Sum")]
    else
      [readSum,
       MetricQuery("pr" + idx, tableName, Some(g.name), ProvisionedRead, 86400, "Average"),
       MetricQuery("pw" + idx, tableName, Some(g.name), ProvisionedWrite, 86400, "Average")]
  }

  function QueriesOf(tableName: string, gsis: seq<Gsi>, onDemand: bool): seq<MetricQuery>
    decreases |gsis|
  {
    if gsis == [] then []
    else
      var n := |gsis| - 1;
      QueriesOf(tableName, gsis[..n], onDemand) + GsiQueries(tableName, gsis[n], n, onDemand)
  }

  /** Two queries per index on an on-demand table, three otherwise, index i's
      in its own block. */
  lemma QueriesShape(tableName: string, gsis: seq<Gsi>, onDemand: bool, i: nat)
    requires i < |gsis|
    ensures var q := QueriesOf(tableName, gsis, onDemand);
      && (onDemand ==> |q| == 2 * |gsis| && q[2 * i..2 * i + 2] == GsiQueries(tableName, gsis[i], i, onDemand))
      && (!onDemand ==> |q| == 3 * |gsis| && q[3 * i..3 * i + 3] == GsiQueries(tableName, gsis[i], i, onDemand))
  {
    QueriesCount(tableName, gsis, onDemand);
    QueriesBlock(tableName, gsis, onDemand, if onDemand then 2 else 3, i);
  }

  /** Index i's queries sit in the i-th block of `w`. */
  lemma {:induction false} QueriesBlock(tableName: string, gsis: seq<Gsi>, onDemand: bool, w: nat, i: nat)
    requires w == if onDemand then 2 else 3
    requires i < |gsis|
    ensures w * i + w <= |QueriesOf(tableName, gsis, onDemand)|
    ensures QueriesOf(tableName, gsis, onDemand)[w * i..w * i + w] == GsiQueries(tableName, gsis[i], i, onDemand)
    decreases |gsis|
  {
    var n := |gsis| - 1;
    var prefix := QueriesOf(tableName, gsis[..n], onDemand);
    var block := GsiQueries(tableName, gsis[n], n, onDemand);
    var b := GsiQueries(tableName, gsis[i], i, onDemand);
    QueriesCount(tableName, gsis[..n], onDemand);
    if i < n {
      QueriesBlock(tableName, gsis[..n], onDemand, w, i);
      assert gsis[..n][i] == gsis[i];
    }
    AppendBlock(prefix, block, w, i, n, b);
  }

  /** Two queries per index on an on-demand table, three otherwise. */
  lemma {:induction false} QueriesCount(tableName: string, gsis: seq<Gsi>, onDemand: bool)
    ensures |QueriesOf(tableName, gsis, onDemand)| == if onDemand then 2 * |gsis| else 3 * |gsis|
    decreases |gsis|
  {
    if gsis != [] {
      QueriesCount(tableName, gsis[..|gsis| - 1], onDemand);
    }
  }

  /** Appending block n of width w keeps blocks i < n where they were and
      puts the new one at n. */
  lemma AppendBlock<T>(prefix: seq<T>, block: seq<T>, w: nat, i: nat, n: nat, b: seq<T>)
    requires |prefix| == w * n && |block| == w && i <= n
    requires i < n ==> w * i + w <= |prefix| && prefix[w * i..w * i + w] == b
    requires i == n ==> b == block
    ensures w * i + w <= |prefix + block|
    ensures (prefix + block)[w * i..w * i + w] == b
  {
    if i < n {
      assert (prefix + block)[w * i..w * i + w] == prefix[w * i..w * i + w];
    } else {
      assert (prefix + block)[|prefix|..] == block;
    }
  }

  method BuildQueries(tableName: string, gsis: seq<Gsi>, onDemand: bool) returns (queries: seq<MetricQuery>)
    ensures queries == QueriesOf(tableName, gsis, onDemand)
  {
    queries := [];
    for i := 0 to |gsis|
      invariant queries == QueriesOf(tableName, gsis[..i], onDemand)
    {
      assert gsis[..i + 1][..i] == gsis[..i];
      queries := queries + GsiQueries(tableName, gsis[i], i, onDemand);
    }
    assert gsis[..|gsis|] == gsis;
  }

  // ---------------------------------------------------------------------------
  // One index

  /** Total reads of index i over the window. */
  function TotalReads(metrics: MetricMap, i: nat): real {
    Sum(Series(metrics, "r" + NatToString(i)))
  }

  /** An index is unused unless its reads add up to something positive. */
  predicate Unread(metrics: MetricMap, i: nat) {
    !(TotalReads(metrics, i) > 0.0)
  }

  /** What dropping unused index i saves per month; zero without prices.
      Dividing by a zero-day window raises; the dividend `total_writes *
      prices.get('write_request', 0)` is the int 0 only when the index has no
      write samples (an empty `sum` is the int 0) and no write price. */
  function SavingsFor(metrics: MetricMap, i: nat, prices: PriceTable, onDemand: bool, days: int): (r: Result<real>)
    ensures r.Err? <==> prices != map[] && onDemand && days == 0
    ensures r.Err? ==>
      (r.error == IntZeroDivision <==> Series(metrics, "w" + NatToString(i)) == [] && "write_request" !in prices)
    ensures r.Err? ==> r.error == IntZeroDivision || r.error == FloatZeroDivision
  {
    var idx := NatToString(i);
    if prices == map[] then Ok(0.0)
    else if onDemand then
      if days == 0 then
        Err(if Series(metrics, "w" + idx) == [] && "write_request" !in prices then IntZeroDivision else FloatZeroDivision)
      else Ok(Sum(Series(metrics, "w" + idx)) * PriceOr(prices, "write_request", 0.0) / days as real * DaysPerMonth)
    else
      Ok((Mean(Series(metrics, "pr" + idx)) * PriceOr(prices, "rcu_hour", 0.0)
        + Mean(Series(metrics, "pw" + idx)) * PriceOr(prices, "wcu_hour", 0.0)) * HoursPerMonth)
  }

  function EntryFor(g: Gsi, metrics: MetricMap, i: nat, prices: PriceTable, onDemand: bool, days: int)
    : Result<Option<UnusedEntry>>
  {
    if !Unread(metrics, i) then Ok(None)
    else
      var savings :- SavingsFor(metrics, i, prices, onDemand, days);
      Ok(Some(UnusedEntry(g.name, savings)))
  }

  /** The unused entries among the first n indexes, or the exception. */
  function EntriesFor(gsis: seq<Gsi>, metrics: MetricMap, prices: PriceTable, onDemand: bool, days: int, n: nat)
    : Result<seq<UnusedEntry>>
    requires n <= |gsis|
  {
    if n == 0 then Ok([])
    else
      var prev :- EntriesFor(gsis, metrics, prices, onDemand, days, n - 1);
      var e :- EntryFor(gsis[n - 1], metrics, n - 1, prices, onDemand, days);
      Ok(prev + if e.Some? then [e.value] else [])
  }

  function SavingsOf(entries: seq<UnusedEntry>): (r: seq<real>)
    ensures |r| == |entries|
    ensures forall i :: 0 <= i < |entries| ==> r[i] == entries[i].savings
  {
    seq(|entries|, i requires 0 <= i < |entries| => entries[i].savings)
  }

  /** What `analyze` returns, or the exception it raises. */
  function AnalyzeSpec(tableName: string, info: Result<TableInfo>, cw: CloudWatch, days: int, prices: PriceTable)
    : Result<GsiOutcome>
  {
    var info :- info;
    var onDemand := BillingMode(info) == PayPerRequest;
    if info.gsis == [] then Ok(NoGsis(days))
    else
      var metrics :- cw(QueriesOf(tableName, info.gsis, onDemand));
      var entries :- EntriesFor(info.gsis, metrics, prices, onDemand, days, |info.gsis|);
      Ok(GsiReport(|info.gsis|, entries, Sum(SavingsOf(entries)), days))
  }

  // ---------------------------------------------------------------------------
  // The detection loop

  lemma {:induction false} ErrorPersists(gsis: seq<Gsi>, metrics: MetricMap, prices: PriceTable, onDemand: bool,
                                         days: int, k: nat, n: nat)
    requires k <= n <= |gsis|
    requires EntriesFor(gsis, metrics, prices, onDemand, days, k).Err?
    ensures EntriesFor(gsis, metrics, prices, onDemand, days, n) == EntriesFor(gsis, metrics, prices, onDemand, days, k)
    decreases n
  {
    if n > k {
      ErrorPersists(gsis, metrics, prices, onDemand, days, k, n - 1);
    }
  }

  /** The main loop: unused indexes in order, savings summed. */
  method Detect(gsis: seq<Gsi>, metrics: MetricMap, prices: PriceTable, onDemand: bool, days: int)
    returns (r: Result<seq<UnusedEntry>>, total: real)
    ensures r == EntriesFor(gsis, metrics, prices, onDemand, days, |gsis|)
    ensures r.Ok? ==> total == Sum(SavingsOf(r.value))
  {
    var unused: seq<UnusedEntry> := [];
    total := 0.0;
    for i := 0 to |gsis|
      invariant EntriesFor(gsis, metrics, prices, onDemand, days, i) == Ok(unused)
      invariant total == Sum(SavingsOf(unused))
    {
      var next, t := DetectOne(gsis, metrics, prices, onDemand, days, i, unused, total);
      if next.Err? {
        ErrorPersists(gsis, metrics, prices, onDemand, days, i + 1, |gsis|);
        return Err(next.error), total;
      }
      unused, total := next.value, t;
    }
    return Ok(unused), total;
  }

  /** One pass of the main loop: index i's entry, if it is unused, appended
      and its savings added. */
  method DetectOne(gsis: seq<Gsi>, metrics: MetricMap, prices: PriceTable, onDemand: bool, days: int,
                   i: nat, unused: seq<UnusedEntry>, total: real)
    returns (r: Result<seq<UnusedEntry>>, total': real)
    requires i < |gsis|
    requires EntriesFor(gsis, metrics, prices, onDemand, days, i) == Ok(unused)
    requires total == Sum(SavingsOf(unused))
    ensures r == EntriesFor(gsis, metrics, prices, onDemand, days, i + 1)
    ensures r.Ok? ==> total' == Sum(SavingsOf(r.value))
  {
    var e := EntryFor(gsis[i], metrics, i, prices, onDemand, days);
    if e.Err? {
      return Err(e.error), total;
    }
    var added: seq<UnusedEntry> := if e.value.Some? then [e.value.value] else [];
    EntriesStep(gsis, metrics, prices, onDemand, days, i, unused, e.value);
    return Ok(unused + added), total + Sum(SavingsOf(added));
  }

  /** One more index appends its entry, if it is unused, and its savings. */
  lemma EntriesStep(gsis: seq<Gsi>, metrics: MetricMap, prices: PriceTable, onDemand: bool, days: int,
                    i: nat, unused: seq<UnusedEntry>, e: Option<UnusedEntry>)
    requires i < |gsis|
    requires EntriesFor(gsis, metrics, prices, onDemand, days, i) == Ok(unused)
    requires EntryFor(gsis[i], metrics, i, prices, onDemand, days) == Ok(e)
    ensures var added := if e.Some? then [e.value] else [];
      && EntriesFor(gsis, metrics, prices, onDemand, days, i + 1) == Ok(unused + added)
      && Sum(SavingsOf(unused + added)) == Sum(SavingsOf(unused)) + Sum(SavingsOf(added))
  {
    var added := if e.Some? then [e.value] else [];
    assert SavingsOf(unused + added) == SavingsOf(unused) + SavingsOf(added);
    SumConcat(SavingsOf(unused), SavingsOf(added));
  }

  method Analyze(tableName: string, info: Result<TableInfo>, cw: CloudWatch, days: int, prices: PriceTable)
    returns (r: Result<GsiOutcome>)
    ensures r == AnalyzeSpec(tableName, info, cw, days, prices)
  {
    if info.Err? {
      return Err(info.error);
    }
    var table := info.value;
    var onDemand := BillingMode(table) == PayPerRequest;
    if table.gsis == [] {
      return Ok(NoGsis(days));
    }
    var queries := BuildQueries(tableName, table.gsis, onDemand);
    var metrics := cw(queries);
    if metrics.Err? {
      return Err(metrics.error);
    }
    var unused, total := Detect(table.gsis, metrics.value, prices, onDemand, days);
    if unused.Err? {
      return Err(unused.error);
    }
    return Ok(GsiReport(|table.gsis|, unused.value, total, days));
  }

  // ---------------------------------------------------------------------------
  // Properties

  /** The names of the unread indexes among the first n, in order. */
  function UnreadNames(gsis: seq<Gsi>, metrics: MetricMap, n: nat): seq<string>
    requires n <= |gsis|
  {
    if n == 0 then []
    else UnreadNames(gsis, metrics, n - 1) + if Unread(metrics, n - 1) then [gsis[n - 1].name] else []
  }

  function NamesOf(entries: seq<UnusedEntry>): (r: seq<string>)
    ensures |r| == |entries|
    ensures forall i :: 0 <= i < |entries| ==> r[i] == entries[i].indexName
  {
    seq(|entries|, i requires 0 <= i < |entries| => entries[i].indexName)
  }

  /** Exactly the indexes with no positive reads are reported, in index order. */
  lemma {:induction false} ReportsExactlyUnread(gsis: seq<Gsi>, metrics: MetricMap, prices: PriceTable,
                                                onDemand: bool, days: int, n: nat)
    requires n <= |gsis|
    requires EntriesFor(gsis, metrics, prices, onDemand, days, n).Ok?
    ensures NamesOf(EntriesFor(gsis, metrics, prices, onDemand, days, n).value) == UnreadNames(gsis, metrics, n)
  {
    if n > 0 {
      ReportsExactlyUnread(gsis, metrics, prices, onDemand, days, n - 1);
      var prev := EntriesFor(gsis, metrics, prices, onDemand, days, n - 1).value;
      var e := EntryFor(gsis[n - 1], metrics, n - 1, prices, onDemand, days).value;
      var added: seq<UnusedEntry> := if e.Some? then [e.value] else [];
      assert NamesOf(prev + added) == NamesOf(prev) + NamesOf(added);
    }
  }

  /** The only exception is the division by a zero-day window, raised exactly
      when an on-demand table with prices has an unread index. */
  lemma {:induction false} FailsIff(gsis: seq<Gsi>, metrics: MetricMap, prices: PriceTable,
                                    onDemand: bool, days: int, n: nat)
    requires n <= |gsis|
    ensures EntriesFor(gsis, metrics, prices, onDemand, days, n).Err? <==>
      (onDemand && prices != map[] && days == 0 && exists k :: 0 <= k < n && Unread(metrics, k))
    ensures EntriesFor(gsis, metrics, prices, onDemand, days, n).Err? ==>
      EntriesFor(gsis, metrics, prices, onDemand, days, n).error in {IntZeroDivision, FloatZeroDivision}
  {
    if n > 0 {
      FailsIff(gsis, metrics, prices, onDemand, days, n - 1);
    }
  }

  /** A table without indexes reports `hasGSIs` False without fetching metrics. */
  lemma NoGsisIff(tableName: string, info: TableInfo, cw: CloudWatch, days: int, prices: PriceTable)
    ensures (AnalyzeSpec(tableName, Ok(info), cw, days, prices).Ok? &&
             AnalyzeSpec(tableName, Ok(info), cw, days, prices).value.NoGsis?) <==> info.gsis == []
  {
  }

  /** Without prices every unused index is reported with zero savings. */
  lemma {:induction false} NoPricesNoSavings(gsis: seq<Gsi>, metrics: MetricMap, onDemand: bool, days: int, n: nat)
    requires n <= |gsis|
    ensures EntriesFor(gsis, metrics, map[], onDemand, days, n).Ok?
    ensures forall i :: 0 <= i < |EntriesFor(gsis, metrics, map[], onDemand, days, n).value| ==>
      EntriesFor(gsis, metrics, map[], onDemand, days, n).value[i].savings == 0.0
  {
    if n > 0 {
      NoPricesNoSavings(gsis, metrics, onDemand, days, n - 1);
    }
  }

  /** With non-negative prices and datapoints and a positive window, an
      unused index never saves a negative amount. */
  lemma SavingsNonNegative(metrics: MetricMap, i: nat, prices: PriceTable, onDemand: bool, days: int)
    requires NonNegativePrices(prices) && NonNegativeMetrics(metrics) && days > 0
    ensures SavingsFor(metrics, i, prices, onDemand, days).Ok?
    ensures SavingsFor(metrics, i, prices, onDemand, days).value >= 0.0
  {
    var idx := NatToString(i);
    var w, pr, pw := Series(metrics, "w" + idx), Series(metrics, "pr" + idx), Series(metrics, "pw" + idx);
    var wp, rp, wcp := PriceOr(prices, "write_request", 0.0), PriceOr(prices, "rcu_hour", 0.0), PriceOr(prices, "wcu_hour", 0.0);
    assert wp >= 0.0 && rp >= 0.0 && wcp >= 0.0;
    if onDemand {
      SumNonNegative(w);
      RateNonNegative(Sum(w), wp, days);
    } else {
      MeanNonNegative(pr);
      MeanNonNegative(pw);
      HourlyNonNegative(Mean(pr), rp, Mean(pw), wcp);
    }
  }

  lemma RateNonNegative(total: real, price: real, days: int)
    requires total >= 0.0 && price >= 0.0 && days > 0
    ensures total * price / days as real * DaysPerMonth >= 0.0
  {
    assert total * price >= 0.0;
  }

  lemma HourlyNonNegative(r: real, rp: real, w: real, wp: real)
    requires r >= 0.0 && rp >= 0.0 && w >= 0.0 && wp >= 0.0
    ensures (r * rp + w * wp) * HoursPerMonth >= 0.0
  {
    assert r * rp >= 0.0 && w * wp >= 0.0;
  }
}
