/** Table-class analysis: compares the table's monthly storage cost with its
    throughput cost and recommends Standard-IA when storage dominates, or
    Standard when throughput dominates, with a dead band between the two
    breakeven ratios and a minimum saving. */
module TableClass {
  import opened Wrappers
  import opened Numeric
  import opened Ddb
  import opened Config

  const BytesPerGb: real := 1073741824.0
  const DaysPerMonth: real := 30.4
  /** Throughput costs at or below this are treated as no throughput. */
  const ThroughputFloor: real := 0.01
  const NoThroughputRatio: real := 999.99
  /** Storage cost above which a table without throughput moves to Standard-IA. */
  const StorageFloor: real := 1.0

  const PricesRequired: string := "prices object is required"
  const ReservedNote: string := "Account uses DynamoDB reserved capacity — estimate may differ"
  const UnverifiedNote: string := "Could not verify reserved capacity status — savings estimate may differ"

  datatype ClassCosts = ClassCosts(storage: real, throughput: real, ratio: real, days: int)

  /** `costs` is present only when the ratio was computed. */
  datatype ClassReport = ClassReport(
    currentClass: string,
    recommendedClass: string,
    savings: real,
    costs: Option<ClassCosts>,
    note: Option<string>)

  /** A returned `{'error': ...}` (not an exception) or a report. */
  datatype ClassOutcome = Refused(message: string) | Report(report: ClassReport)

  datatype Decision = Decision(rec: string, savings: real)

  /** Storage cost over throughput cost, or 999.99 when there is no throughput. */
  function Ratio(storage: real, throughput: real): real {
    if throughput > ThroughputFloor then storage / throughput else NoThroughputRatio
  }

  /** Storage dominates: the Standard to Standard-IA condition. */
  predicate StorageDominates(storage: real, throughput: real) {
    Ratio(storage, throughput) > StandardToIaRatio || (throughput <= ThroughputFloor && storage > StorageFloor)
  }

  /** Projected saving of Standard to Standard-IA: storage 60% cheaper, throughput 2.5 times dearer. */
  function IaSaving(storage: real, throughput: real): real {
    (storage + throughput) - (storage * 0.4 + throughput * 2.5)
  }

  /** Projected saving of Standard-IA to Standard. */
  function StandardSaving(storage: real, throughput: real): real {
    (storage + throughput) - (storage * 2.5 + throughput * 0.4)
  }

  /** The class decision: a change is made only with a saving of at least
      `minSavings`, and a kept class reports no saving. */
  function Decide(current: string, storage: real, throughput: real, minSavings: real): (d: Decision)
    ensures d.rec == current ==> d.savings == 0.0
    ensures d.rec != current ==> d.savings >= minSavings
    ensures current == Standard ==> d.rec in {Standard, StandardIa}
    ensures current != Standard ==> d.rec in {current, Standard}
  {
    if current == Standard then
      if StorageDominates(storage, throughput) && IaSaving(storage, throughput) >= minSavings then
        Decision(StandardIa, IaSaving(storage, throughput))
      else
        Decision(current, 0.0)
    else if Ratio(storage, throughput) < IaToStandardRatio && StandardSaving(storage, throughput) >= minSavings then
      Decision(Standard, StandardSaving(storage, throughput))
    else
      Decision(current, 0.0)
  }

  /** Monthly storage cost of the table at the Standard storage price. */
  function StorageCost(info: TableInfo, storageP: real): real {
    info.sizeBytes as real / BytesPerGb * storageP
  }

  /** Monthly throughput cost of the window's consumed units at Standard prices. */
  function ThroughputCost(metrics: MetricMap, readP: real, writeP: real, days: int): real
    requires days != 0
  {
    (Sum(Series(metrics, "cr")) * readP + Sum(Series(metrics, "cw")) * writeP) * (DaysPerMonth / days as real)
  }

  /** The daily consumed read and write sums of the table. */
  function Queries(tableName: string): seq<MetricQuery> {
    [MetricQuery("cr", tableName, None, ConsumedRead, 86400, "Sum"),
     MetricQuery("cw", tableName, None, ConsumedWrite, 86400, "Sum")]
  }

  /** `analyze` over the fetched inputs: the table description, the daily
      read and write sums, and the reserved-capacity flag (true, false or
      unknown). An exception it would raise is an Err. */
  function Analyze(tableName: string, info: Result<TableInfo>, cw: CloudWatch, reserved: Option<bool>,
                   days: int, prices: PriceTable, minSavings: real): (r: Result<ClassOutcome>)
    ensures r.Ok? && r.value.Refused? <==> prices == map[]
    ensures r.Ok? && r.value.Report? ==> info.Ok? && r.value.report.currentClass == TableClass(info.value)
  {
    if prices == map[] then Ok(Refused(PricesRequired))
    else
      var info :- info;
      var current := TableClass(info);
      if reserved == Some(true) then
        Ok(Report(ClassReport(current, current, 0.0, None, Some(ReservedNote))))
      else
        var note := if reserved == None then Some(UnverifiedNote) else None;
        var metrics :- cw(Queries(tableName));
        var storageP :- Price(prices, "standard_storage");
        var storage := StorageCost(info, storageP);
        if days == 0 then Err("[<class 'decimal.DivisionByZero'>]")
        else
          var readP :- Price(prices, "standard_read");
          var writeP :- Price(prices, "standard_write");
          var throughput := ThroughputCost(metrics, readP, writeP, days);
          if storage + throughput == 0.0 then
            Ok(Report(ClassReport(current, current, 0.0, None, None)))
          else
            var d := Decide(current, storage, throughput, minSavings);
            var costs := ClassCosts(storage, throughput, Ratio(storage, throughput), days);
            Ok(Report(ClassReport(current, d.rec, d.savings, Some(costs), note)))
  }

  // ---------------------------------------------------------------------------
  // Properties

  /** Missing or empty prices are refused before anything else is looked at. */
  lemma PricesCheckedFirst(tableName: string, info: Result<TableInfo>, cw: CloudWatch, reserved: Option<bool>,
                           days: int, minSavings: real)
    ensures Analyze(tableName, info, cw, reserved, days, map[], minSavings) == Ok(Refused(PricesRequired))
  {
  }

  /** With reserved capacity the class is kept with no saving and a note,
      whatever the metrics, prices and window. */
  lemma ReservedKeepsClass(tableName: string, info: TableInfo, cw: CloudWatch, days: int, prices: PriceTable, minSavings: real)
    requires prices != map[]
    ensures Analyze(tableName, Ok(info), cw, Some(true), days, prices, minSavings) ==
      Ok(Report(ClassReport(TableClass(info), TableClass(info), 0.0, None, Some(ReservedNote))))
  {
  }

  /** An unknown reserved-capacity status still runs the analysis and attaches
      the advisory note to every report that has costs; a known `false` never
      attaches a note. */
  lemma UnknownReservedAddsNote(tableName: string, info: Result<TableInfo>, cw: CloudWatch, reserved: Option<bool>,
                                days: int, prices: PriceTable, minSavings: real)
    requires Analyze(tableName, info, cw, reserved, days, prices, minSavings).Ok?
    requires Analyze(tableName, info, cw, reserved, days, prices, minSavings).value.Report?
    ensures var r := Analyze(tableName, info, cw, reserved, days, prices, minSavings).value.report;
      && (reserved == None && r.costs.Some? ==> r.note == Some(UnverifiedNote))
      && (reserved == Some(false) ==> r.note == None)
  {
  }

  /** Once every input is at hand, a zero total cost is the only way to get a
      report without cost figures, and it keeps the current class with no
      saving and no note. */
  lemma ZeroCostKeepsClass(tableName: string, info: TableInfo, cw: CloudWatch, reserved: Option<bool>,
                           days: int, prices: PriceTable, minSavings: real)
    requires prices != map[] && reserved != Some(true) && days != 0 && cw(Queries(tableName)).Ok?
    requires "standard_storage" in prices && "standard_read" in prices && "standard_write" in prices
    ensures var r := Analyze(tableName, Ok(info), cw, reserved, days, prices, minSavings);
      var total := StorageCost(info, prices["standard_storage"])
        + ThroughputCost(cw(Queries(tableName)).value, prices["standard_read"], prices["standard_write"], days);
      && r.Ok? && r.value.Report?
      && (r.value.report.costs.None? <==> total == 0.0)
      && (total == 0.0 ==> r.value.report == ClassReport(TableClass(info), TableClass(info), 0.0, None, None))
  {
  }

  /** Once the inputs are usable and the total cost is not zero, the report
      is the decision over the table's own storage and throughput costs, with
      those costs, their ratio and the window length. */
  lemma ReportDecides(tableName: string, info: TableInfo, cw: CloudWatch, reserved: Option<bool>,
                      days: int, prices: PriceTable, minSavings: real)
    requires prices != map[] && reserved != Some(true) && days != 0 && cw(Queries(tableName)).Ok?
    requires "standard_storage" in prices && "standard_read" in prices && "standard_write" in prices
    ensures var r := Analyze(tableName, Ok(info), cw, reserved, days, prices, minSavings);
      var storage := StorageCost(info, prices["standard_storage"]);
      var throughput :=
        ThroughputCost(cw(Queries(tableName)).value, prices["standard_read"], prices["standard_write"], days);
      var d := Decide(TableClass(info), storage, throughput, minSavings);
      storage + throughput != 0.0 ==>
        r == Ok(Report(ClassReport(TableClass(info), d.rec, d.savings,
                                   Some(ClassCosts(storage, throughput, Ratio(storage, throughput), days)),
                                   if reserved == None then Some(UnverifiedNote) else None)))
  {
  }

  /** The analysis fails exactly when a fetch it needs failed, a price it
      needs is missing, or `days` is 0. */
  lemma AnalyzeFailsIff(tableName: string, info: Result<TableInfo>, cw: CloudWatch, reserved: Option<bool>,
                        days: int, prices: PriceTable, minSavings: real)
    ensures Analyze(tableName, info, cw, reserved, days, prices, minSavings).Err? <==>
      prices != map[] &&
      (info.Err? ||
        (reserved != Some(true) &&
          (cw(Queries(tableName)).Err? || "standard_storage" !in prices || days == 0 ||
           "standard_read" !in prices || "standard_write" !in prices)))
  {
  }

  /** Every report keeps the class or moves it in the allowed direction, with
      no saving when kept and at least `minSavings` when moved. */
  lemma ReportSavings(tableName: string, info: Result<TableInfo>, cw: CloudWatch, reserved: Option<bool>,
                      days: int, prices: PriceTable, minSavings: real)
    requires Analyze(tableName, info, cw, reserved, days, prices, minSavings).Ok?
    requires Analyze(tableName, info, cw, reserved, days, prices, minSavings).value.Report?
    ensures var r := Analyze(tableName, info, cw, reserved, days, prices, minSavings).value.report;
      && (r.recommendedClass == r.currentClass ==> r.savings == 0.0)
      && (r.recommendedClass != r.currentClass ==> r.savings >= minSavings && r.costs.Some?)
      && r.currentClass == TableClass(info.value)
  {
  }

  /** From STANDARD, Standard-IA is recommended exactly when storage dominates
      and the projected saving reaches `minSavings`. */
  lemma StandardToIaIff(storage: real, throughput: real, minSavings: real)
    ensures Decide(Standard, storage, throughput, minSavings).rec == StandardIa <==>
      StorageDominates(storage, throughput) && IaSaving(storage, throughput) >= minSavings
  {
  }

  /** From any other class, STANDARD is recommended exactly when the ratio is
      below the IA-to-Standard breakeven and the saving reaches `minSavings`. */
  lemma ToStandardIff(current: string, storage: real, throughput: real, minSavings: real)
    requires current != Standard
    ensures Decide(current, storage, throughput, minSavings).rec == Standard <==>
      Ratio(storage, throughput) < IaToStandardRatio && StandardSaving(storage, throughput) >= minSavings
  {
  }

  /** The dead band: with real throughput and a ratio between the two
      breakeven ratios, no class changes. */
  lemma Hysteresis(current: string, storage: real, throughput: real, minSavings: real)
    requires throughput > ThroughputFloor
    requires IaToStandardRatio <= storage / throughput <= StandardToIaRatio
    ensures Decide(current, storage, throughput, minSavings).rec == current
  {
  }

  /** No flip-flop: costs that move a Standard table to Standard-IA never move
      a Standard-IA table back to Standard. */
  lemma NoFlipFlop(storage: real, throughput: real, minSavings: real)
    requires Decide(Standard, storage, throughput, minSavings).rec == StandardIa
    ensures Decide(StandardIa, storage, throughput, minSavings).rec == StandardIa
  {
    RatiosLeaveAGap();
  }
}
