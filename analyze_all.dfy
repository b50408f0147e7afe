/** The batch analyzer: every table of every region is run through the four
    analyzers, a failing analyzer being recorded without stopping the
    others; the per-table results are then split into tables with
    recommendations (sorted by savings, largest first), already optimised
    tables and tables with errors, and the savings are totalled. */
module AnalyzeAll {
  import opened Wrappers
  import opened Numeric
  import opened Ddb
  import Config
  import CapacityMode
  import TableClass
  import Utilization
  import UnusedGsi
  import GetPricing
  import CwBatch
  import StableSort

  /** Where the analyzers' inputs come from: table descriptions, each
      region's metric service, the reserved-capacity flag, each region's
      price table as `get_pricing` answers it (`GetPricing.PriceSource`
      over the price-list service), and the bound on pages of a paged
      metric listing. */
  datatype Env = Env(
    describe: (string, string) -> Result<TableInfo>,
    metrics: string -> CwBatch.Service,
    reserved: (string, string) -> Option<bool>,
    prices: string -> Result<PriceTable>,
    pageLimit: nat)

  const AnalyzerKeys: seq<string> := ["capacityMode", "tableClass", "utilization", "unusedGsi"]

  datatype AnalyzerResult =
    | CapacityResult(capacity: CapacityMode.CapacityReport)
    | ClassResult(tableClass: TableClass.ClassOutcome)
    | UtilizationResult(utilization: Utilization.UtilOutcome)
    | UnusedGsiResult(unusedGsi: UnusedGsi.GsiOutcome)

  /** An analyzer's result, or the `{'error': msg}` that replaced it. */
  datatype Slot = Done(result: AnalyzerResult) | Failed(error: string)

  /** One table's entry: the four analyzer slots and the error lines. */
  datatype TableEntry = TableEntry(
    tableName: string,
    region: string,
    capacityMode: Slot,
    tableClass: Slot,
    utilization: Slot,
    unusedGsi: Slot,
    errors: seq<string>)

  // ---------------------------------------------------------------------------
  // analyze_table

  /** Analyzer k (in `AnalyzerKeys` order) on one table; each analyzer
      describes the table and queries the region's metrics itself. */
  function RunAnalyzer(env: Env, k: nat, region: string, table: string, days: int, prices: PriceTable)
    : Result<AnalyzerResult>
    requires k < 4
  {
    var info := env.describe(region, table);
    var cw := CwBatch.AsCloudWatch(env.metrics(region), env.pageLimit);
    if k == 0 then
      var r :- CapacityMode.Analyze(table, info, cw, days, prices);
      Ok(CapacityResult(r))
    else if k == 1 then
      var r :- TableClass.Analyze(table, info, cw, env.reserved(region, table), days, prices, Config.MinSavings);
      Ok(ClassResult(r))
    else if k == 2 then
      var r :- Utilization.AnalyzeSpec(table, info, cw, days, prices, Config.UtilizationThreshold);
      Ok(UtilizationResult(r))
    else
      var r :- UnusedGsi.AnalyzeSpec(table, info, cw, days, prices);
      Ok(UnusedGsiResult(r))
  }

  function SlotOf(r: Result<AnalyzerResult>): Slot {
    if r.Ok? then Done(r.value) else Failed(r.error)
  }

  function SlotAt(e: TableEntry, k: nat): Slot
    requires k < 4
  {
    if k == 0 then e.capacityMode else if k == 1 then e.tableClass
    else if k == 2 then e.utilization else e.unusedGsi
  }

  /** The entry with slot k set to s; the rest is unchanged. */
  function WithSlot(e: TableEntry, k: nat, s: Slot): (r: TableEntry)
    requires k < 4
    ensures SlotAt(r, k) == s
    ensures forall j :: 0 <= j < 4 && j != k ==> SlotAt(r, j) == SlotAt(e, j)
    ensures r.tableName == e.tableName && r.region == e.region && r.errors == e.errors
  {
    if k == 0 then e.(capacityMode := s) else if k == 1 then e.(tableClass := s)
    else if k == 2 then e.(utilization := s) else e.(unusedGsi := s)
  }

  /** `f"{key}: {e}"`. */
  function ErrorLine(k: nat, message: string): string
    requires k < 4
  {
    AnalyzerKeys[k] + ": " + message
  }

  /** A slot never written; every slot is written before the entry is returned. */
  const Unset: Slot := Failed("")

  /** The four analyzers' outcomes on one table, in key order. */
  function Outcomes(env: Env, region: string, table: string, days: int, prices: PriceTable)
    : (r: seq<Result<AnalyzerResult>>)
    ensures |r| == 4
  {
    seq(4, k requires 0 <= k < 4 => RunAnalyzer(env, k, region, table, days, prices))
  }

  /** The entry after the first n analyzers, given their outcomes. */
  function EntryOf(region: string, table: string, outcomes: seq<Result<AnalyzerResult>>, n: nat): TableEntry
    requires n <= 4 && |outcomes| == 4
  {
    if n == 0 then TableEntry(table, region, Unset, Unset, Unset, Unset, [])
    else
      var e := EntryOf(region, table, outcomes, n - 1);
      var r := outcomes[n - 1];
      var e' := WithSlot(e, n - 1, SlotOf(r));
      if r.Ok? then e' else e'.(errors := e'.errors + [ErrorLine(n - 1, r.error)])
  }

  /** What `analyze_table` returns. */
  function EntrySpec(env: Env, region: string, table: string, days: int, prices: PriceTable): TableEntry {
    EntryOf(region, table, Outcomes(env, region, table, days, prices), 4)
  }

  /** One analyzer call, through the imperative analyzers where they exist. */
  method Run(env: Env, k: nat, region: string, table: string, days: int, prices: PriceTable)
    returns (r: Result<AnalyzerResult>)
    requires k < 4
    ensures r == RunAnalyzer(env, k, region, table, days, prices)
  {
    var info := env.describe(region, table);
    var cw := CwBatch.AsCloudWatch(env.metrics(region), env.pageLimit);
    if k == 0 {
      var c := CapacityMode.Analyze(table, info, cw, days, prices);
      r := if c.Ok? then Ok(CapacityResult(c.value)) else Err(c.error);
    } else if k == 1 {
      var c := TableClass.Analyze(table, info, cw, env.reserved(region, table), days, prices, Config.MinSavings);
      r := if c.Ok? then Ok(ClassResult(c.value)) else Err(c.error);
    } else if k == 2 {
      var u := Utilization.Analyze(table, info, cw, days, prices, Config.UtilizationThreshold);
      r := if u.Ok? then Ok(UtilizationResult(u.value)) else Err(u.error);
    } else {
      var g := UnusedGsi.Analyze(table, info, cw, days, prices);
      r := if g.Ok? then Ok(UnusedGsiResult(g.value)) else Err(g.error);
    }
  }

  /** `analyze_table`: each analyzer in a try block of its own. */
  method AnalyzeTable(env: Env, region: string, table: string, days: int, prices: PriceTable)
    returns (entry: TableEntry)
    ensures entry == EntrySpec(env, region, table, days, prices)
  {
    ghost var outcomes := Outcomes(env, region, table, days, prices);
    entry := TableEntry(table, region, Unset, Unset, Unset, Unset, []);
    for k := 0 to 4
      invariant entry == EntryOf(region, table, outcomes, k)
    {
      var r := Run(env, k, region, table, days, prices);
      assert r == outcomes[k];
      if r.Ok? {
        entry := WithSlot(entry, k, Done(r.value));
      } else {
        entry := WithSlot(entry, k, Failed(r.error));
        entry := entry.(errors := entry.errors + [ErrorLine(k, r.error)]);
      }
    }
  }

  /** The error lines of the failed slots among the first n, in key order. */
  function ErrorLines(e: TableEntry, n: nat): seq<string>
    requires n <= 4
  {
    if n == 0 then []
    else
      var s := SlotAt(e, n - 1);
      ErrorLines(e, n - 1) + if s.Failed? then [ErrorLine(n - 1, s.error)] else []
  }

  lemma {:induction false} EntryIsolation(region: string, table: string, outcomes: seq<Result<AnalyzerResult>>,
                                          n: nat, k: nat)
    requires k < n <= 4 && |outcomes| == 4
    ensures SlotAt(EntryOf(region, table, outcomes, n), k) == SlotOf(outcomes[k])
  {
    if k < n - 1 {
      EntryIsolation(region, table, outcomes, n - 1, k);
    }
  }

  lemma {:induction false} EntryErrors(region: string, table: string, outcomes: seq<Result<AnalyzerResult>>, n: nat)
    requires n <= 4 && |outcomes| == 4
    ensures EntryOf(region, table, outcomes, n).errors == ErrorLines(EntryOf(region, table, outcomes, 4), n)
  {
    if n > 0 {
      EntryErrors(region, table, outcomes, n - 1);
      EntryIsolation(region, table, outcomes, 4, n - 1);
      EntryIsolation(region, table, outcomes, n, n - 1);
    }
  }

  lemma {:induction false} NoErrorLinesIff(e: TableEntry, n: nat)
    requires n <= 4
    ensures ErrorLines(e, n) == [] <==> forall k :: 0 <= k < n ==> SlotAt(e, k).Done?
  {
    if n > 0 {
      NoErrorLinesIff(e, n - 1);
    }
  }

  lemma {:induction false} EntryNames(region: string, table: string, outcomes: seq<Result<AnalyzerResult>>, n: nat)
    requires n <= 4 && |outcomes| == 4
    ensures EntryOf(region, table, outcomes, n).tableName == table
    ensures EntryOf(region, table, outcomes, n).region == region
  {
    if n > 0 {
      EntryNames(region, table, outcomes, n - 1);
    }
  }

  /** Failure isolation: each slot holds its own analyzer's outcome whatever
      the others did, and every failure adds exactly one `key: message` line,
      in key order. */
  lemma AnalyzeTableIsolates(env: Env, region: string, table: string, days: int, prices: PriceTable)
    ensures var e := EntrySpec(env, region, table, days, prices);
      && e.tableName == table && e.region == region
      && (forall k :: 0 <= k < 4 ==> SlotAt(e, k) == SlotOf(RunAnalyzer(env, k, region, table, days, prices)))
      && e.errors == ErrorLines(e, 4)
      && (e.errors == [] <==> forall k :: 0 <= k < 4 ==> SlotAt(e, k).Done?)
  {
    EntryIsolates(region, table, Outcomes(env, region, table, days, prices));
  }

  /** The same, for any four outcomes. */
  lemma EntryIsolates(region: string, table: string, outcomes: seq<Result<AnalyzerResult>>)
    requires |outcomes| == 4
    ensures var e := EntryOf(region, table, outcomes, 4);
      && e.tableName == table && e.region == region
      && (forall k :: 0 <= k < 4 ==> SlotAt(e, k) == SlotOf(outcomes[k]))
      && e.errors == ErrorLines(e, 4)
      && (e.errors == [] <==> forall k :: 0 <= k < 4 ==> SlotAt(e, k).Done?)
  {
    forall k | 0 <= k < 4
      ensures SlotAt(EntryOf(region, table, outcomes, 4), k) == SlotOf(outcomes[k])
    {
      EntryIsolation(region, table, outcomes, 4, k);
    }
    EntryErrors(region, table, outcomes, 4);
    NoErrorLinesIff(EntryOf(region, table, outcomes, 4), 4);
    EntryNames(region, table, outcomes, 4);
  }

  // ---------------------------------------------------------------------------
  // format_results: the data part

  datatype RecKind =
    | BillingModeChange(fromMode: string, toMode: string)
    | TableClassChange(fromClass: string, toClass: string)
    | RightSizing(resourceName: string, isGsi: bool, recType: Utilization.RecType)
    | UnusedIndex(indexName: string)

  datatype RecItem = RecItem(kind: RecKind, savings: real)
  datatype TableRecs = TableRecs(heading: string, items: seq<RecItem>, total: real)
  datatype TableErrors = TableErrors(heading: string, errors: seq<string>)
  datatype Summary = Summary(recs: seq<TableRecs>, optimized: seq<string>, errors: seq<TableErrors>, total: real)

  /** A billing-mode change, when the capacity analysis saves something. */
  function CapacityItems(s: Slot): seq<RecItem> {
    if s.Done? && s.result.CapacityResult? && s.result.capacity.savings > 0.0 then
      var c := s.result.capacity;
      [RecItem(BillingModeChange(c.currentMode, c.recommendedMode), c.savings)]
    else []
  }

  /** A table-class change, when the class analysis reports a saving. */
  function ClassItems(s: Slot): seq<RecItem> {
    if s.Done? && s.result.ClassResult? && s.result.tableClass.Report? && s.result.tableClass.report.savings > 0.0 then
      var c := s.result.tableClass.report;
      [RecItem(TableClassChange(c.currentClass, c.recommendedClass), c.savings)]
    else []
  }

  /** The utilisation recommendations that save something, in order. */
  function SavingEntries(entries: seq<Utilization.UtilEntry>): seq<RecItem>
    decreases |entries|
  {
    if entries == [] then []
    else
      var e := entries[|entries| - 1];
      SavingEntries(entries[..|entries| - 1])
        + if e.savings > 0.0 then [RecItem(RightSizing(e.resourceName, e.isGsi, e.recType), e.savings)] else []
  }

  function UtilizationItems(s: Slot): seq<RecItem> {
    if s.Done? && s.result.UtilizationResult? && s.result.utilization.Recommendations? then
      SavingEntries(s.result.utilization.entries)
    else []
  }

  /** Every unused index, whatever it saves. */
  function UnusedItems(s: Slot): seq<RecItem> {
    if s.Done? && s.result.UnusedGsiResult? && s.result.unusedGsi.GsiReport? then
      var unused := s.result.unusedGsi.unused;
      seq(|unused|, i requires 0 <= i < |unused| => RecItem(UnusedIndex(unused[i].indexName), unused[i].savings))
    else []
  }

  function ItemsOf(t: TableEntry): seq<RecItem> {
    CapacityItems(t.capacityMode) + ClassItems(t.tableClass) + UtilizationItems(t.utilization) + UnusedItems(t.unusedGsi)
  }

  function SavingsOf(items: seq<RecItem>): (r: seq<real>)
    ensures |r| == |items|
    ensures forall i :: 0 <= i < |items| ==> r[i] == items[i].savings
  {
    seq(|items|, i requires 0 <= i < |items| => items[i].savings)
  }

  /** The results span more than one region. */
  predicate MultiRegion(results: seq<TableEntry>) {
    |set t | t in results :: t.region| > 1
  }

  function Label(t: TableEntry, multi: bool): string {
    if multi then t.tableName + " (" + t.region + ")" else t.tableName
  }

  datatype Buckets = Buckets(recs: seq<TableRecs>, optimized: seq<string>, errors: seq<TableErrors>, total: real)

  /** The items each table yields, in input order. */
  function ItemsPer(results: seq<TableEntry>): (r: seq<seq<RecItem>>)
    ensures |r| == |results|
    ensures forall i :: 0 <= i < |results| ==> r[i] == ItemsOf(results[i])
  {
    seq(|results|, i requires 0 <= i < |results| => ItemsOf(results[i]))
  }

  /** The buckets after the first n tables, given the items of each table. */
  function Partition(results: seq<TableEntry>, items: seq<seq<RecItem>>, multi: bool, n: nat): Buckets
    requires n <= |results| == |items|
  {
    if n == 0 then Buckets([], [], [], 0.0)
    else
      var b := Partition(results, items, multi, n - 1);
      var t := results[n - 1];
      var heading := Label(t, multi);
      var b1 := if t.errors != [] then b.(errors := b.errors + [TableErrors(heading, t.errors)]) else b;
      if items[n - 1] != [] then
        var s := Sum(SavingsOf(items[n - 1]));
        b1.(recs := b1.recs + [TableRecs(heading, items[n - 1], s)], total := b1.total + s)
      else b1.(optimized := b1.optimized + [heading])
  }

  function BucketsOf(results: seq<TableEntry>): Buckets {
    Partition(results, ItemsPer(results), MultiRegion(results), |results|)
  }

  /** `reverse=True` on `totalSavings`: ascending on its negation, which
      Python's sort keeps as stable as the ascending order. */
  function NegTotal(r: TableRecs): real {
    -r.total
  }

  /** The summary `format_results` renders. */
  function FormatSpec(results: seq<TableEntry>): Summary {
    var b := BucketsOf(results);
    Summary(StableSort.Sorted(b.recs, NegTotal), b.optimized, b.errors, b.total)
  }

  /** The `for t in results` loop of `format_results`. */
  method PartitionResults(results: seq<TableEntry>, items: seq<seq<RecItem>>, multi: bool) returns (b: Buckets)
    requires |items| == |results|
    ensures b == Partition(results, items, multi, |results|)
  {
    var recs: seq<TableRecs> := [];
    var optimized: seq<string> := [];
    var errors: seq<TableErrors> := [];
    var total := 0.0;
    for i := 0 to |results|
      invariant Partition(results, items, multi, i) == Buckets(recs, optimized, errors, total)
    {
      var t := results[i];
      var heading := Label(t, multi);
      if t.errors != [] {
        errors := errors + [TableErrors(heading, t.errors)];
      }
      var tableRecs := items[i];
      if tableRecs != [] {
        var s := Sum(SavingsOf(tableRecs));
        total := total + s;
        recs := recs + [TableRecs(heading, tableRecs, s)];
      } else {
        optimized := optimized + [heading];
      }
    }
    b := Buckets(recs, optimized, errors, total);
  }

  /** `format_results`: the buckets, recommendations sorted by total. */
  method FormatResults(results: seq<TableEntry>) returns (summary: Summary)
    ensures summary == FormatSpec(results)
  {
    var multi := MultiRegion(results);
    var b := PartitionResults(results, ItemsPer(results), multi);
    var a := new TableRecs[|b.recs|];
    forall i | 0 <= i < |b.recs| {
      a[i] := b.recs[i];
    }
    assert a[..] == b.recs;
    StableSort.SortInPlace(a, NegTotal);
    summary := Summary(a[..], b.optimized, b.errors, b.total);
  }

  // ---------------------------------------------------------------------------
  // Properties of format_results

  function Totals(recs: seq<TableRecs>): (r: seq<real>)
    ensures |r| == |recs|
    ensures forall i :: 0 <= i < |recs| ==> r[i] == recs[i].total
  {
    seq(|recs|, i requires 0 <= i < |recs| => recs[i].total)
  }

  /** Every table goes to exactly one of recommendations and optimised; a
      table with errors is listed among the errors as well, and each table's
      total is the sum of its items. */
  lemma {:induction false} PartitionShape(results: seq<TableEntry>, items: seq<seq<RecItem>>, multi: bool, n: nat)
    requires n <= |results| == |items|
    ensures var b := Partition(results, items, multi, n);
      && |b.recs| + |b.optimized| == n
      && |b.errors| <= n
      && (forall i :: 0 <= i < |b.recs| ==> b.recs[i].items != [] && b.recs[i].total == Sum(SavingsOf(b.recs[i].items)))
      && (forall i :: 0 <= i < |b.errors| ==> b.errors[i].errors != [])
  {
    if n > 0 {
      PartitionShape(results, items, multi, n - 1);
      PartitionPlacesTable(results, items, multi, n);
    }
  }

  /** The grand total is the sum of the tables' totals. */
  lemma {:induction false} PartitionTotal(results: seq<TableEntry>, items: seq<seq<RecItem>>, multi: bool, n: nat)
    requires n <= |results| == |items|
    ensures var b := Partition(results, items, multi, n);
      b.total == Sum(Totals(b.recs))
  {
    if n > 0 {
      PartitionTotal(results, items, multi, n - 1);
      var prev := Partition(results, items, multi, n - 1);
      var b := Partition(results, items, multi, n);
      PartitionPlacesTable(results, items, multi, n);
      if items[n - 1] != [] {
        var s := Sum(SavingsOf(items[n - 1]));
        assert b.recs == prev.recs + [b.recs[|b.recs| - 1]];
        assert b.total == prev.total + s;
        assert Totals(b.recs) == Totals(prev.recs) + [s];
        SumAppend(Totals(prev.recs), s);
      } else {
        assert b.recs == prev.recs && b.total == prev.total;
      }
    }
  }

  /** A table is optimised exactly when it yields no item, it is listed
      among the errors exactly when it has some, and both may hold. */
  lemma PartitionPlacesTable(results: seq<TableEntry>, items: seq<seq<RecItem>>, multi: bool, n: nat)
    requires 0 < n <= |results| == |items|
    ensures var b := Partition(results, items, multi, n);
      var prev := Partition(results, items, multi, n - 1);
      var t := results[n - 1];
      && (items[n - 1] == [] <==> |b.optimized| == |prev.optimized| + 1)
      && (items[n - 1] != [] <==> |b.recs| == |prev.recs| + 1)
      && (items[n - 1] == [] ==> b.optimized[|b.optimized| - 1] == Label(t, multi))
      && (items[n - 1] != [] ==> b.recs == prev.recs + [TableRecs(Label(t, multi), items[n - 1], Sum(SavingsOf(items[n - 1])))])
      && (items[n - 1] != [] ==> b.total == prev.total + Sum(SavingsOf(items[n - 1])) && b.optimized == prev.optimized)
      && (items[n - 1] == [] ==> b.recs == prev.recs && b.total == prev.total)
      && (t.errors != [] <==> |b.errors| == |prev.errors| + 1)
      && (t.errors != [] ==> b.errors[|b.errors| - 1] == TableErrors(Label(t, multi), t.errors))
  {
  }

  /** Which items a table yields: billing-mode, class and right-sizing items
      only when they save something, every unused index whatever it saves. */
  lemma {:induction false} ItemsRule(t: TableEntry)
    ensures forall i :: 0 <= i < |ItemsOf(t)| ==> ItemsOf(t)[i].kind.UnusedIndex? || ItemsOf(t)[i].savings > 0.0
    ensures t.unusedGsi.Done? && t.unusedGsi.result.UnusedGsiResult? && t.unusedGsi.result.unusedGsi.GsiReport? ==>
      UnusedItems(t.unusedGsi) == ItemsOf(t)[|ItemsOf(t)| - |t.unusedGsi.result.unusedGsi.unused|..]
  {
    var front := CapacityItems(t.capacityMode) + ClassItems(t.tableClass);
    var util := UtilizationItems(t.utilization);
    if t.utilization.Done? && t.utilization.result.UtilizationResult? && t.utilization.result.utilization.Recommendations? {
      SavingEntriesSave(t.utilization.result.utilization.entries);
    }
    var all := ItemsOf(t);
    assert all == front + util + UnusedItems(t.unusedGsi);
    forall i | 0 <= i < |all| ensures all[i].kind.UnusedIndex? || all[i].savings > 0.0 {
      if i < |front| {
        assert all[i] == front[i];
      } else if i < |front| + |util| {
        assert all[i] == util[i - |front|];
      } else {
        assert all[i] == UnusedItems(t.unusedGsi)[i - |front| - |util|];
      }
    }
  }

  lemma {:induction false} SavingEntriesSave(entries: seq<Utilization.UtilEntry>)
    ensures forall i :: 0 <= i < |SavingEntries(entries)| ==>
      !SavingEntries(entries)[i].kind.UnusedIndex? && SavingEntries(entries)[i].savings > 0.0
    ensures |SavingEntries(entries)| <= |entries|
  {
    if entries != [] {
      SavingEntriesSave(entries[..|entries| - 1]);
    }
  }

  /** Tables with recommendations come largest total first, ties in input
      order, and none is lost or added by the sort. */
  lemma RecsSortedDescending(results: seq<TableEntry>)
    ensures var b := BucketsOf(results);
      var recs := FormatSpec(results).recs;
      && (forall i, j :: 0 <= i < j < |recs| ==> recs[i].total >= recs[j].total)
      && multiset(recs) == multiset(b.recs)
      && (forall v :: StableSort.WithKey(recs, NegTotal, v) == StableSort.WithKey(b.recs, NegTotal, v))
  {
    var b := BucketsOf(results);
    StableSort.SortedAscending(b.recs, NegTotal);
    StableSort.SortedPermutation(b.recs, NegTotal);
    forall v ensures StableSort.WithKey(StableSort.Sorted(b.recs, NegTotal), NegTotal, v) == StableSort.WithKey(b.recs, NegTotal, v) {
      StableSort.SortedStable(b.recs, NegTotal, v);
    }
  }

  /** A label carries the region exactly when the results span several regions. */
  lemma LabelSuffixIff(results: seq<TableEntry>, t: TableEntry)
    ensures Label(t, MultiRegion(results)) == t.tableName <==> !MultiRegion(results)
  {
    if MultiRegion(results) {
      assert |Label(t, true)| > |t.tableName|;
    }
  }

  // ---------------------------------------------------------------------------
  // analyze_all

  /** The tables to analyze in one region. */
  datatype RegionTables = RegionTables(region: string, tables: seq<string>)

  /** `{"regions": {region: [tables]}}` or `{"region": r, "tables": [...]}`. */
  datatype Scope = Regions(regions: seq<RegionTables>) | OneRegion(region: string, tables: seq<string>)

  datatype Request = Request(scope: Scope, days: Option<int>, concurrency: Option<int>, prices: Option<PriceTable>)

  /** One `(region, table, prices)` job for the worker pool. */
  datatype Task = Task(region: string, table: string, prices: PriceTable)

  const DefaultDays: int := 14
  const DefaultWorkers: int := 10
  /** The error a thread pool raises when asked for no worker. */
  const NoWorkers: string := "max_workers must be greater than 0"

  function RegionsOf(scope: Scope): seq<RegionTables> {
    match scope
    case Regions(rs) => rs
    case OneRegion(region, tables) => [RegionTables(region, tables)]
  }

  function OrDefault(v: Option<int>, d: int): int {
    if v.Some? then v.value else d
  }

  /** Prices of the first n regions: the supplied table for each, or else
      the region's fetched prices, the first failed fetch aborting. */
  function RegionPrices(fetch: string -> Result<PriceTable>, supplied: Option<PriceTable>, regions: seq<RegionTables>,
                        n: nat)
    : (r: Result<seq<PriceTable>>)
    requires n <= |regions|
    ensures r.Ok? ==> |r.value| == n
  {
    if n == 0 then Ok([])
    else
      var ps :- RegionPrices(fetch, supplied, regions, n - 1);
      if supplied.Some? then Ok(ps + [supplied.value])
      else
        var p :- fetch(regions[n - 1].region);
        Ok(ps + [p])
  }

  /** The jobs of one region, in table order. */
  function RegionTasks(rt: RegionTables, prices: PriceTable): (r: seq<Task>)
    ensures |r| == |rt.tables|
    ensures forall j :: 0 <= j < |r| ==> r[j] == Task(rt.region, rt.tables[j], prices)
  {
    seq(|rt.tables|, j requires 0 <= j < |rt.tables| => Task(rt.region, rt.tables[j], prices))
  }

  /** The jobs of the first n regions, region by region. */
  function TasksOf(regions: seq<RegionTables>, ps: seq<PriceTable>, n: nat): seq<Task>
    requires n <= |regions| == |ps|
  {
    if n == 0 then [] else TasksOf(regions, ps, n - 1) + RegionTasks(regions[n - 1], ps[n - 1])
  }

  /** How many tables the first n regions hold. */
  function TableCount(regions: seq<RegionTables>, n: nat): nat
    requires n <= |regions|
  {
    if n == 0 then 0 else TableCount(regions, n - 1) + |regions[n - 1].tables|
  }

  /** Each task's entry, in task order. */
  function Results(env: Env, tasks: seq<Task>, days: int): (r: seq<TableEntry>)
    ensures |r| == |tasks|
  {
    if tasks == [] then []
    else
      var t := tasks[|tasks| - 1];
      Results(env, tasks[..|tasks| - 1], days) + [EntrySpec(env, t.region, t.table, days, t.prices)]
  }

  /** What `analyze_all` reports for a request. */
  function AnalyzeAllSpec(env: Env, req: Request): Result<Summary> {
    var regions := RegionsOf(req.scope);
    var ps :- RegionPrices(env.prices, req.prices, regions, |regions|);
    var tasks := TasksOf(regions, ps, |regions|);
    if MinInt(OrDefault(req.concurrency, DefaultWorkers), |tasks|) <= 0 then Err(NoWorkers)
    else Ok(FormatSpec(Results(env, tasks, OrDefault(req.days, DefaultDays))))
  }

  /** An order in which a pool can complete n jobs: each job exactly once. */
  predicate CompletionOrder(order: seq<nat>, n: nat) {
    && |order| == n
    && (forall k :: 0 <= k < |order| ==> order[k] < n)
    && (forall i :: 0 <= i < n ==> i in order)
  }

  /** The per-region price loop. */
  method FetchRegionPrices(env: Env, supplied: Option<PriceTable>, regions: seq<RegionTables>)
    returns (r: Result<seq<PriceTable>>)
    ensures r == RegionPrices(env.prices, supplied, regions, |regions|)
  {
    var ps: seq<PriceTable> := [];
    for n := 0 to |regions|
      invariant RegionPrices(env.prices, supplied, regions, n) == Ok(ps)
    {
      if supplied.Some? {
        ps := ps + [supplied.value];
      } else {
        var p := env.prices(regions[n].region);
        if p.Err? {
          RegionPricesErrorPersists(env.prices, supplied, regions, n + 1, |regions|);
          return Err(p.error);
        }
        ps := ps + [p.value];
      }
    }
    return Ok(ps);
  }

  /** The nested `all_tasks` loop. */
  method BuildTasks(regions: seq<RegionTables>, ps: seq<PriceTable>) returns (tasks: seq<Task>)
    requires |regions| == |ps|
    ensures tasks == TasksOf(regions, ps, |regions|)
  {
    tasks := [];
    for n := 0 to |regions|
      invariant tasks == TasksOf(regions, ps, n)
    {
      var rt := regions[n];
      ghost var before := tasks;
      for j := 0 to |rt.tables|
        invariant tasks == before + RegionTasks(rt, ps[n])[..j]
      {
        tasks := tasks + [Task(rt.region, rt.tables[j], ps[n])];
        assert RegionTasks(rt, ps[n])[..j + 1] == RegionTasks(rt, ps[n])[..j] + [Task(rt.region, rt.tables[j], ps[n])];
      }
      assert RegionTasks(rt, ps[n])[..|rt.tables|] == RegionTasks(rt, ps[n]);
    }
  }

  /** The worker pool: every task is submitted, and each one's entry is
      written to its own slot as it completes, in the given completion order. */
  method RunTasks(env: Env, tasks: seq<Task>, days: int, order: seq<nat>) returns (results: seq<TableEntry>)
    requires CompletionOrder(order, |tasks|)
    ensures results == Results(env, tasks, days)
  {
    var futures := Submit(env, tasks, days);
    results := Collect(futures, order);
  }

  /** `ex.submit(analyze_table, ...)` for each task: the future of task i
      holds the entry of task i. */
  method Submit(env: Env, tasks: seq<Task>, days: int) returns (futures: seq<TableEntry>)
    ensures futures == Results(env, tasks, days)
  {
    futures := [];
    for i := 0 to |tasks|
      invariant futures == Results(env, tasks[..i], days)
    {
      var e := AnalyzeTable(env, tasks[i].region, tasks[i].table, days, tasks[i].prices);
      assert tasks[..i + 1][..i] == tasks[..i];
      futures := futures + [e];
    }
    assert tasks[..|tasks|] == tasks;
  }

  /** The `as_completed` loop: `results[futures[f]] = f.result()` in
      completion order fills every slot of `[None] * n` with its own
      future's result, whatever the order. */
  method Collect<T>(futures: seq<T>, order: seq<nat>) returns (results: seq<T>)
    requires CompletionOrder(order, |futures|)
    ensures results == futures
  {
    var slots := new Option<T>[|futures|](_ => None);
    for k := 0 to |order|
      invariant forall k' :: 0 <= k' < k ==> slots[order[k']] == Some(futures[order[k']])
    {
      slots[order[k]] := Some(futures[order[k]]);
    }
    forall i | 0 <= i < slots.Length ensures slots[i] == Some(futures[i]) {
      assert i in order;
    }
    results := Unwrap(slots, futures);
  }

  /** The filled `results` list, once every slot holds its entry. */
  method Unwrap<T>(slots: array<Option<T>>, ghost expected: seq<T>) returns (r: seq<T>)
    requires slots.Length == |expected|
    requires forall i :: 0 <= i < slots.Length ==> slots[i] == Some(expected[i])
    ensures r == expected
  {
    r := [];
    for i := 0 to slots.Length
      invariant r == expected[..i]
    {
      r := r + [slots[i].value];
    }
  }

  /** `analyze_all`: prices per region, the jobs region by region, the
      pool, and the formatted summary. */
  method AnalyzeAll(env: Env, req: Request, schedule: nat -> seq<nat>) returns (r: Result<Summary>)
    requires forall n: nat :: CompletionOrder(schedule(n), n)
    ensures r == AnalyzeAllSpec(env, req)
  {
    var regions := RegionsOf(req.scope);
    var days := OrDefault(req.days, DefaultDays);
    var workers := OrDefault(req.concurrency, DefaultWorkers);
    var ps := FetchRegionPrices(env, req.prices, regions);
    if ps.Err? {
      return Err(ps.error);
    }
    var tasks := BuildTasks(regions, ps.value);
    if MinInt(workers, |tasks|) <= 0 {
      return Err(NoWorkers);
    }
    var results := RunTasks(env, tasks, days, schedule(|tasks|));
    var summary := FormatResults(results);
    return Ok(summary);
  }

  // ---------------------------------------------------------------------------
  // Properties of analyze_all

  /** Entry i is the analysis of task i. */
  lemma {:induction false} ResultsAt(env: Env, tasks: seq<Task>, days: int, i: nat)
    requires i < |tasks|
    ensures Results(env, tasks, days)[i] == EntrySpec(env, tasks[i].region, tasks[i].table, days, tasks[i].prices)
    decreases |tasks|
  {
    if i < |tasks| - 1 {
      ResultsAt(env, tasks[..|tasks| - 1], days, i);
    }
  }

  lemma {:induction false} RegionPricesErrorPersists(fetch: string -> Result<PriceTable>, supplied: Option<PriceTable>,
                                                     regions: seq<RegionTables>, n: nat, m: nat)
    requires n <= m <= |regions|
    requires RegionPrices(fetch, supplied, regions, n).Err?
    ensures RegionPrices(fetch, supplied, regions, m) == RegionPrices(fetch, supplied, regions, n)
    decreases m
  {
    if m > n {
      RegionPricesErrorPersists(fetch, supplied, regions, n, m - 1);
    }
  }

  /** Supplied prices are used for every region and nothing is fetched. */
  lemma {:induction false} SuppliedPricesEverywhere(fetch: string -> Result<PriceTable>, prices: PriceTable,
                                                    regions: seq<RegionTables>, n: nat)
    requires n <= |regions|
    ensures RegionPrices(fetch, Some(prices), regions, n).Ok?
    ensures forall i :: 0 <= i < n ==> RegionPrices(fetch, Some(prices), regions, n).value[i] == prices
  {
    if n > 0 {
      SuppliedPricesEverywhere(fetch, prices, regions, n - 1);
    }
  }

  /** Without supplied prices, the prices succeed exactly when every
      region's fetch does, and region i then gets its own fetched prices. */
  lemma {:induction false} FetchedPricesPerRegion(fetch: string -> Result<PriceTable>, regions: seq<RegionTables>, n: nat)
    requires n <= |regions|
    ensures RegionPrices(fetch, None, regions, n).Ok? <==> forall i :: 0 <= i < n ==> fetch(regions[i].region).Ok?
    ensures RegionPrices(fetch, None, regions, n).Ok? ==>
      forall i :: 0 <= i < n ==> fetch(regions[i].region) == Ok(RegionPrices(fetch, None, regions, n).value[i])
  {
    if n > 0 {
      FetchedPricesPerRegion(fetch, regions, n - 1);
    }
  }

  /** The jobs list every table of every region once, region by region:
      table j of region i is task `TableCount(regions, i) + j`. */
  lemma {:induction false} TasksRegionMajor(regions: seq<RegionTables>, ps: seq<PriceTable>, n: nat, i: nat, j: nat)
    requires n <= |regions| == |ps|
    requires i < n && j < |regions[i].tables|
    ensures TableCount(regions, i) + j < TableCount(regions, n) == |TasksOf(regions, ps, n)|
    ensures TasksOf(regions, ps, n)[TableCount(regions, i) + j] == Task(regions[i].region, regions[i].tables[j], ps[i])
  {
    TasksCount(regions, ps, n);
    TableCountGrows(regions, i, n);
    if i < n - 1 {
      TasksRegionMajor(regions, ps, n - 1, i, j);
      TasksCount(regions, ps, n - 1);
      assert TasksOf(regions, ps, n) == TasksOf(regions, ps, n - 1) + RegionTasks(regions[n - 1], ps[n - 1]);
    }
  }

  lemma {:induction false} TasksCount(regions: seq<RegionTables>, ps: seq<PriceTable>, n: nat)
    requires n <= |regions| == |ps|
    ensures |TasksOf(regions, ps, n)| == TableCount(regions, n)
  {
    if n > 0 {
      TasksCount(regions, ps, n - 1);
    }
  }

  lemma {:induction false} TableCountGrows(regions: seq<RegionTables>, i: nat, n: nat)
    requires i <= n <= |regions|
    ensures TableCount(regions, i) + (if i < n then |regions[i].tables| else 0) <= TableCount(regions, n)
    decreases n
  {
    if i < n {
      TableCountGrows(regions, i, n - 1);
    }
  }

  /** `analyze_all` fails exactly when a price fetch fails, or when the pool
      would have no worker: no table at all, or a concurrency below one. */
  lemma AnalyzeAllFailsIff(env: Env, req: Request)
    ensures var regions := RegionsOf(req.scope);
      var ps := RegionPrices(env.prices, req.prices, regions, |regions|);
      AnalyzeAllSpec(env, req).Err? <==>
        ps.Err? || TableCount(regions, |regions|) == 0 || OrDefault(req.concurrency, DefaultWorkers) <= 0
  {
    var regions := RegionsOf(req.scope);
    var ps := RegionPrices(env.prices, req.prices, regions, |regions|);
    if ps.Ok? {
      TasksCount(regions, ps.value, |regions|);
    }
  }

  /** Every task is summarised exactly once, among the recommendations or
      the optimised tables, and the grand total sums the tables' totals. */
  lemma EveryTableReported(env: Env, req: Request)
    requires AnalyzeAllSpec(env, req).Ok?
    ensures var regions := RegionsOf(req.scope);
      var s := AnalyzeAllSpec(env, req).value;
      && |s.recs| + |s.optimized| == TableCount(regions, |regions|)
      && s.total == Sum(Totals(s.recs))
  {
    var regions := RegionsOf(req.scope);
    var ps := RegionPrices(env.prices, req.prices, regions, |regions|).value;
    var tasks := TasksOf(regions, ps, |regions|);
    TasksCount(regions, ps, |regions|);
    var results := Results(env, tasks, OrDefault(req.days, DefaultDays));
    var items := ItemsPer(results);
    var multi := MultiRegion(results);
    PartitionShape(results, items, multi, |results|);
    PartitionTotal(results, items, multi, |results|);
    var b := BucketsOf(results);
    StableSort.SortedPermutation(b.recs, NegTotal);
    var sorted := StableSort.Sorted(b.recs, NegTotal);
    assert |sorted| == |b.recs| by {
      assert |multiset(sorted)| == |multiset(b.recs)|;
    }
    TotalsPermutation(b.recs, sorted);
  }

  /** Reordering the tables does not change the sum of their totals. */
  lemma {:induction false} TotalsPermutation(a: seq<TableRecs>, b: seq<TableRecs>)
    requires multiset(a) == multiset(b)
    ensures Sum(Totals(a)) == Sum(Totals(b))
    decreases |a|
  {
    if a == [] {
      assert |multiset(b)| == 0;
    } else {
      var x := a[0];
      assert x in multiset(b);
      var k :| 0 <= k < |b| && b[k] == x;
      var rest := b[..k] + b[k + 1..];
      assert a == [x] + a[1..];
      RemovedMultiset(b, k);
      TotalsPermutation(a[1..], rest);
      TotalsRemove(a, 0);
      assert a[..0] + a[1..] == a[1..];
      assert Sum(Totals(a)) == x.total + Sum(Totals(a[1..]));
      TotalsRemove(b, k);
      assert Sum(Totals(b)) == x.total + Sum(Totals(rest));
    }
  }

  lemma RemovedMultiset(b: seq<TableRecs>, k: nat)
    requires k < |b|
    ensures multiset(b[..k] + b[k + 1..]) == multiset(b) - multiset{b[k]}
  {
    assert b == b[..k] + [b[k]] + b[k + 1..];
  }

  /** The sum of the totals is the total at k plus the sum of the others. */
  lemma TotalsRemove(a: seq<TableRecs>, k: nat)
    requires k < |a|
    ensures Sum(Totals(a)) == a[k].total + Sum(Totals(a[..k] + a[k + 1..]))
  {
    var left := Totals(a[..k]);
    var right := Totals(a[k + 1..]);
    assert Totals(a) == left + ([a[k].total] + right);
    assert Totals(a[..k] + a[k + 1..]) == left + right;
    SumConcat(left, [a[k].total] + right);
    SumConcat([a[k].total], right);
    SumConcat(left, right);
  }

  /** With prices from `get_pricing`, the capacity analysis of a Standard-IA
      table always fails: `get_price_keys` names `ia_rcu_hour` for such a
      table, and the price list fold never sets that name. Once the metrics
      are fetched, the error is the KeyError of the first missing IA name,
      unless `days` is 0 and the division fails first. */
  lemma FetchedPricesLackIaCapacity(service: GetPricing.PricingService, fuel: nat, region: string,
                                    tableName: string, info: TableInfo, cw: CloudWatch, days: int)
    requires GetPricing.GetPricingSpec(service, region, fuel).Ok?
    requires Ddb.TableClass(info) == StandardIa
    ensures CapacityMode.Analyze(tableName, Ok(info), cw, days, GetPricing.GetPricingSpec(service, region, fuel).value).Err?
    ensures var prices := GetPricing.GetPricingSpec(service, region, fuel).value;
      var r := CapacityMode.Analyze(tableName, Ok(info), cw, days, prices);
      cw(CapacityMode.Queries(tableName)).Ok? ==>
        && ("ia_read" !in prices ==> r == Err(Ddb.KeyError("ia_read")))
        && ("ia_read" in prices && "ia_write" !in prices ==> r == Err(Ddb.KeyError("ia_write")))
        && ("ia_read" in prices && "ia_write" in prices && days != 0 ==> r == Err(Ddb.KeyError("ia_rcu_hour")))
  {
    var prices := GetPricing.GetPricingSpec(service, region, fuel).value;
    GetPricing.AliasesCopyRequestPrices(service, region, fuel);
    assert Config.GetPriceKeys(info) == Config.IaKeys;
    CapacityMode.AnalyzeFailsIff(tableName, Ok(info), cw, days, prices);
  }
}
