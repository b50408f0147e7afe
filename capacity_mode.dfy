/** Capacity-mode analysis: the monthly cost of the table on on-demand
    billing, on its current provisioned capacity, and on the capacity an
    autoscaler would have provisioned for the observed load; which mode is
    cheaper, and the saving of switching to it. */
module CapacityMode {
  import opened Wrappers
  import opened Numeric
  import opened Ddb
  import opened Config
  import AutoscalingSim

  const HoursPerMonth: real := 730.0
  const DaysPerMonth: real := 30.4
  /** `recommendedMin/MaxRead/Write`. */
  datatype SuggestedBounds = SuggestedBounds(minRead: int, maxRead: int, minWrite: int, maxWrite: int)

  datatype CapacityReport = CapacityReport(
    currentMode: string,
    recommendedMode: string,
    currentCost: real,
    onDemandCost: real,
    currentProvisionedCost: real,
    optimalProvisionedCost: real,
    savings: real,
    savingsPercentage: real,
    days: int,
    suggested: Option<SuggestedBounds>)

  /** The billing mode as reported: PAY_PER_REQUEST is shown as ON_DEMAND. */
  function ReportedMode(info: TableInfo): string {
    if BillingMode(info) == PayPerRequest then OnDemand else BillingMode(info)
  }

  /** Current provisioned read and write capacity, 0 when absent. */
  function CurrentCapacity(info: TableInfo): Throughput {
    info.provisioned.GetOr(Throughput(0, 0))
  }

  /** `simulate(ups) if ups else []` with the default policy. */
  function SimulatedCapacity(xs: seq<real>): (r: seq<real>)
    ensures |r| == |xs|
  {
    if xs == [] then [] else AutoscalingSim.Simulated(PerSecond(xs), AutoscalingSim.DefaultPolicy)
  }

  /** Monthly cost of the consumed units on on-demand billing. */
  function OnDemandCost(totalR: real, totalW: real, readP: real, writeP: real, days: int): real
    requires days != 0
  {
    (totalR * readP + totalW * writeP) / (days as real) * DaysPerMonth
  }

  /** Monthly cost of a provisioned read and write capacity. */
  function ProvisionedCost(rcu: real, wcu: real, rcuP: real, wcuP: real): real {
    rcu * HoursPerMonth * rcuP + wcu * HoursPerMonth * wcuP
  }

  /** The text of the decimal exception raised by dividing by `days == 0`. */
  function DivisionError(dividend: real): string {
    if dividend == 0.0 then "[<class 'decimal.DivisionUndefined'>]"
    else "[<class 'decimal.DivisionByZero'>]"
  }

  /** The four prices a table is charged at. */
  datatype Rates = Rates(read: real, write: real, rcu: real, wcu: real)

  /** The cost of the mean simulated capacity, or `fallback` without a simulation. */
  function OptimalCost(simR: seq<real>, simW: seq<real>, fallback: real, p: Rates): real {
    if simR != [] && simW != [] then ProvisionedCost(Mean(simR), Mean(simW), p.rcu, p.wcu)
    else fallback
  }

  /** Everything after the price lookups, once the inputs are known to be usable. */
  function Evaluate(info: TableInfo, readSeries: seq<real>, writeSeries: seq<real>, days: int, p: Rates)
    : (r: CapacityReport)
    requires days != 0
    ensures r.recommendedMode == OnDemand || r.recommendedMode == Provisioned
    ensures r.currentMode == ReportedMode(info) && r.days == days
    ensures r.onDemandCost == OnDemandCost(Sum(readSeries), Sum(writeSeries), p.read, p.write, days)
    ensures r.savings >= 0.0
    ensures r.currentProvisionedCost ==
      ProvisionedCost(CurrentCapacity(info).read as real, CurrentCapacity(info).write as real, p.rcu, p.wcu)
    ensures r.optimalProvisionedCost ==
      OptimalCost(SimulatedCapacity(readSeries), SimulatedCapacity(writeSeries), r.currentProvisionedCost, p)
    ensures r.suggested.Some? ==>
      var simR, simW := SimulatedCapacity(readSeries), SimulatedCapacity(writeSeries);
      simR != [] && simW != [] &&
      r.suggested.value == SuggestedBounds(MaxInt(1, Trunc(MinOf(simR))), Trunc(MaxOf(simR)),
                                           MaxInt(1, Trunc(MinOf(simW))), Trunc(MaxOf(simW)))
  {
    var totalR := Sum(readSeries);
    var totalW := Sum(writeSeries);
    var od := OnDemandCost(totalR, totalW, p.read, p.write, days);
    var cap := CurrentCapacity(info);
    var curProv := ProvisionedCost(cap.read as real, cap.write as real, p.rcu, p.wcu);
    var simR := SimulatedCapacity(readSeries);
    var simW := SimulatedCapacity(writeSeries);
    var optimal := OptimalCost(simR, simW, curProv, p);
    var rec :=
      if totalR == 0.0 && totalW == 0.0 then OnDemand
      else if od < optimal then OnDemand
      else Provisioned;
    var mode := ReportedMode(info);
    var current := if mode == Provisioned then curProv else od;
    var savings := Max(0.0, current - Min(od, optimal));
    var pct := if current > 0.0 then savings / current * 100.0 else 0.0;
    var suggested :=
      if rec == Provisioned && simR != [] && simW != [] then
        Some(SuggestedBounds(MaxInt(1, Trunc(MinOf(simR))), Trunc(MaxOf(simR)),
                             MaxInt(1, Trunc(MinOf(simW))), Trunc(MaxOf(simW))))
      else None;
    CapacityReport(mode, rec, current, od, curProv, optimal, savings, pct, days, suggested)
  }

  /** The 5-minute consumed read and write sums of the table. */
  function Queries(tableName: string): seq<MetricQuery> {
    [MetricQuery("cr", tableName, None, ConsumedRead, 300, "Sum"),
     MetricQuery("cw", tableName, None, ConsumedWrite, 300, "Sum")]
  }

  /** `analyze` over the fetched table description and metrics; an exception
      it would raise (a fetch failure, a missing price, `days == 0`) is an Err. */
  function Analyze(tableName: string, info: Result<TableInfo>, cw: CloudWatch, days: int, prices: PriceTable)
    : (r: Result<CapacityReport>)
    ensures info.Err? ==> r == Err(info.error)
    ensures info.Ok? && cw(Queries(tableName)).Err? ==> r == Err(cw(Queries(tableName)).error)
    ensures r.Ok? ==> r.value.currentMode == ReportedMode(info.value) && r.value.days == days
  {
    var info :- info;
    var metrics :- cw(Queries(tableName));
    var pk := GetPriceKeys(info);
    var readSeries := Series(metrics, "cr");
    var writeSeries := Series(metrics, "cw");
    var readP :- Price(prices, pk.readReq);
    var writeP :- Price(prices, pk.writeReq);
    if days == 0 then
      Err(DivisionError(Sum(readSeries) * readP + Sum(writeSeries) * writeP))
    else
      var rcuP :- Price(prices, pk.rcu);
      var wcuP :- Price(prices, pk.wcu);
      Ok(Evaluate(info, readSeries, writeSeries, days, Rates(readP, writeP, rcuP, wcuP)))
  }

  /** The rates the analysis of this table is charged at, when all four exist. */
  predicate HasRates(info: TableInfo, prices: PriceTable) {
    var pk := GetPriceKeys(info);
    pk.readReq in prices && pk.writeReq in prices && pk.rcu in prices && pk.wcu in prices
  }

  function RatesOf(info: TableInfo, prices: PriceTable): Rates
    requires HasRates(info, prices)
  {
    var pk := GetPriceKeys(info);
    Rates(prices[pk.readReq], prices[pk.writeReq], prices[pk.rcu], prices[pk.wcu])
  }

  // ---------------------------------------------------------------------------
  // Properties

  /** The analysis fails exactly when a fetch failed, one of the four prices
      for the table's class is missing, or `days` is 0; otherwise it is the
      evaluation at those prices. */
  lemma AnalyzeFailsIff(tableName: string, info: Result<TableInfo>, cw: CloudWatch, days: int, prices: PriceTable)
    ensures var metrics := cw(Queries(tableName));
      Analyze(tableName, info, cw, days, prices).Err? <==>
        info.Err? || metrics.Err? || !HasRates(info.value, prices) || days == 0
    ensures var metrics := cw(Queries(tableName));
      Analyze(tableName, info, cw, days, prices).Ok? ==>
        Analyze(tableName, info, cw, days, prices).value ==
          Evaluate(info.value, Series(metrics.value, "cr"), Series(metrics.value, "cw"), days, RatesOf(info.value, prices))
  {
  }

  /** Only the four prices named for the table's class matter: an IA table is
      priced with the `ia_*` names, any other with the standard names. */
  lemma PricedByClassKeys(tableName: string, info: TableInfo, cw: CloudWatch, days: int, prices: PriceTable, prices': PriceTable)
    requires var pk := GetPriceKeys(info);
      forall k :: k in {pk.readReq, pk.writeReq, pk.rcu, pk.wcu} ==>
        (k in prices <==> k in prices') && (k in prices ==> prices[k] == prices'[k])
    ensures Analyze(tableName, Ok(info), cw, days, prices) == Analyze(tableName, Ok(info), cw, days, prices')
  {
    var pk := GetPriceKeys(info);
    assert pk.readReq in {pk.readReq, pk.writeReq, pk.rcu, pk.wcu};
    assert pk.writeReq in {pk.readReq, pk.writeReq, pk.rcu, pk.wcu};
    assert pk.rcu in {pk.readReq, pk.writeReq, pk.rcu, pk.wcu};
    assert pk.wcu in {pk.readReq, pk.writeReq, pk.rcu, pk.wcu};
  }

  /** PAY_PER_REQUEST is reported as ON_DEMAND and a missing mode as PROVISIONED. */
  lemma CurrentModeReported(info: TableInfo, readSeries: seq<real>, writeSeries: seq<real>, days: int, p: Rates)
    requires days != 0
    ensures var r := Evaluate(info, readSeries, writeSeries, days, p);
      && (info.billingMode == Some(PayPerRequest) ==> r.currentMode == OnDemand)
      && (info.billingMode == None ==> r.currentMode == Provisioned)
      && (r.currentMode == Provisioned ==> r.currentCost == r.currentProvisionedCost)
      && (r.currentMode != Provisioned ==> r.currentCost == r.onDemandCost)
  {
  }

  /** With no consumed units at all, on-demand is recommended. */
  lemma ZeroUsageRecommendsOnDemand(info: TableInfo, readSeries: seq<real>, writeSeries: seq<real>, days: int, p: Rates)
    requires days != 0 && Sum(readSeries) == 0.0 && Sum(writeSeries) == 0.0
    ensures Evaluate(info, readSeries, writeSeries, days, p).recommendedMode == OnDemand
  {
  }

  /** Otherwise on-demand is recommended exactly when it is strictly cheaper
      than the optimal provisioned cost, and PROVISIONED is recommended else. */
  lemma ModeDecision(info: TableInfo, readSeries: seq<real>, writeSeries: seq<real>, days: int, p: Rates)
    requires days != 0 && (Sum(readSeries) != 0.0 || Sum(writeSeries) != 0.0)
    ensures var r := Evaluate(info, readSeries, writeSeries, days, p);
      && (r.recommendedMode == OnDemand <==> r.onDemandCost < r.optimalProvisionedCost)
      && (r.recommendedMode == Provisioned <==> r.onDemandCost >= r.optimalProvisionedCost)
  {
  }

  /** Savings are the current cost less the cheaper of on-demand and optimal
      provisioned, floored at 0: never negative, zero exactly when the current
      cost is already no more than the cheaper alternative. The percentage is
      the savings as a share of a positive current cost, and 0 otherwise. */
  lemma SavingsNonNegative(info: TableInfo, readSeries: seq<real>, writeSeries: seq<real>, days: int, p: Rates)
    requires days != 0
    ensures var r := Evaluate(info, readSeries, writeSeries, days, p);
      && r.savings == Max(0.0, r.currentCost - Min(r.onDemandCost, r.optimalProvisionedCost))
      && r.savings >= 0.0
      && (r.savings == 0.0 <==> r.currentCost <= Min(r.onDemandCost, r.optimalProvisionedCost))
      && r.savings >= r.currentCost - r.onDemandCost
      && r.savings >= r.currentCost - r.optimalProvisionedCost
      && (r.currentCost <= 0.0 ==> r.savingsPercentage == 0.0)
      && (r.currentCost > 0.0 ==> r.savingsPercentage == r.savings / r.currentCost * 100.0)
  {
  }

  /** Without a read or a write series there is nothing to simulate, and the
      optimal provisioned cost is the current one. */
  lemma OptimalFallsBackToCurrent(info: TableInfo, readSeries: seq<real>, writeSeries: seq<real>, days: int, p: Rates)
    requires days != 0 && (readSeries == [] || writeSeries == [])
    ensures var r := Evaluate(info, readSeries, writeSeries, days, p);
      r.optimalProvisionedCost == r.currentProvisionedCost && r.suggested == None
  {
  }

  lemma SimulatedCapacityBounds(xs: seq<real>)
    ensures forall i :: 0 <= i < |xs| ==>
      1.0 <= SimulatedCapacity(xs)[i] <= 40000.0
  {
    if xs != [] {
      AutoscalingSim.SimulatedInBounds(PerSecond(xs), AutoscalingSim.DefaultPolicy);
    }
  }

  lemma ScaledBetween(x: real, lo: real, hi: real, c: real)
    requires lo <= x <= hi && c >= 0.0
    ensures lo * c <= x * c <= hi * c
  {
  }

  /** Provisioned cost is monotone in the capacities at non-negative prices. */
  lemma ProvisionedCostBetween(lo: real, hi: real, rcu: real, wcu: real, rcuP: real, wcuP: real)
    requires lo <= rcu <= hi && lo <= wcu <= hi && rcuP >= 0.0 && wcuP >= 0.0
    ensures ProvisionedCost(lo, lo, rcuP, wcuP) <= ProvisionedCost(rcu, wcu, rcuP, wcuP) <= ProvisionedCost(hi, hi, rcuP, wcuP)
  {
    ScaledBetween(rcu, lo, hi, HoursPerMonth * rcuP);
    ScaledBetween(wcu, lo, hi, HoursPerMonth * wcuP);
    assert rcu * HoursPerMonth * rcuP == rcu * (HoursPerMonth * rcuP);
    assert wcu * HoursPerMonth * wcuP == wcu * (HoursPerMonth * wcuP);
    assert lo * HoursPerMonth * rcuP == lo * (HoursPerMonth * rcuP);
    assert lo * HoursPerMonth * wcuP == lo * (HoursPerMonth * wcuP);
    assert hi * HoursPerMonth * rcuP == hi * (HoursPerMonth * rcuP);
    assert hi * HoursPerMonth * wcuP == hi * (HoursPerMonth * wcuP);
  }

  /** With both series present and non-negative prices, the optimal cost lies
      between the cost of the autoscaler's minimum (1 unit) and its maximum
      (40000 units) capacity, since every simulated capacity does. */
  lemma OptimalWithinAutoscalerBounds(info: TableInfo, readSeries: seq<real>, writeSeries: seq<real>, days: int, p: Rates)
    requires days != 0 && readSeries != [] && writeSeries != [] && p.rcu >= 0.0 && p.wcu >= 0.0
    ensures var r := Evaluate(info, readSeries, writeSeries, days, p);
      ProvisionedCost(1.0, 1.0, p.rcu, p.wcu) <= r.optimalProvisionedCost <= ProvisionedCost(40000.0, 40000.0, p.rcu, p.wcu)
  {
    var simR := SimulatedCapacity(readSeries);
    var simW := SimulatedCapacity(writeSeries);
    SimulatedCapacityBounds(readSeries);
    SimulatedCapacityBounds(writeSeries);
    MeanBetween(simR, 1.0, 40000.0);
    MeanBetween(simW, 1.0, 40000.0);
    ProvisionedCostBetween(1.0, 40000.0, Mean(simR), Mean(simW), p.rcu, p.wcu);
  }

  /** Suggested autoscaling bounds are given exactly when PROVISIONED is
      recommended and both series are present; they satisfy
      1 <= min <= max <= 40000. */
  lemma SuggestedBoundsIff(info: TableInfo, readSeries: seq<real>, writeSeries: seq<real>, days: int, p: Rates)
    requires days != 0
    ensures var r := Evaluate(info, readSeries, writeSeries, days, p);
      && (r.suggested.Some? <==> r.recommendedMode == Provisioned && readSeries != [] && writeSeries != [])
      && (r.suggested.Some? ==>
            && 1 <= r.suggested.value.minRead <= r.suggested.value.maxRead <= 40000
            && 1 <= r.suggested.value.minWrite <= r.suggested.value.maxWrite <= 40000)
  {
    var r := Evaluate(info, readSeries, writeSeries, days, p);
    if r.suggested.Some? {
      var simR := SimulatedCapacity(readSeries);
      var simW := SimulatedCapacity(writeSeries);
      SimulatedCapacityBounds(readSeries);
      SimulatedCapacityBounds(writeSeries);
      assert 1.0 <= MinOf(simR) <= MaxOf(simR) <= 40000.0;
      assert 1.0 <= MinOf(simW) <= MaxOf(simW) <= 40000.0;
    }
  }

  /** A table already on on-demand billing with no traffic saves nothing. */
  lemma IdleOnDemandTableSavesNothing(info: TableInfo, readSeries: seq<real>, writeSeries: seq<real>, days: int, p: Rates)
    requires days > 0 && info.billingMode == Some(PayPerRequest)
    requires Sum(readSeries) == 0.0 && Sum(writeSeries) == 0.0
    requires p.read >= 0.0 && p.write >= 0.0 && p.rcu >= 0.0 && p.wcu >= 0.0
    ensures Evaluate(info, readSeries, writeSeries, days, p).savings == 0.0
  {
    var cap := CurrentCapacity(info);
    var curProv := ProvisionedCost(cap.read as real, cap.write as real, p.rcu, p.wcu);
    ProvisionedCostBetween(0.0, Max(cap.read as real, cap.write as real), cap.read as real, cap.write as real, p.rcu, p.wcu);
    OptimalCostNonNegative(readSeries, writeSeries, curProv, p);
    assert OnDemandCost(0.0, 0.0, p.read, p.write, days) == 0.0;
  }

  /** The optimal provisioned cost is never negative at non-negative prices. */
  lemma OptimalCostNonNegative(readSeries: seq<real>, writeSeries: seq<real>, fallback: real, p: Rates)
    requires fallback >= 0.0 && p.rcu >= 0.0 && p.wcu >= 0.0
    ensures OptimalCost(SimulatedCapacity(readSeries), SimulatedCapacity(writeSeries), fallback, p) >= 0.0
  {
    var simR := SimulatedCapacity(readSeries);
    var simW := SimulatedCapacity(writeSeries);
    if simR != [] && simW != [] {
      SimulatedCapacityBounds(readSeries);
      SimulatedCapacityBounds(writeSeries);
      MeanBetween(simR, 1.0, 40000.0);
      MeanBetween(simW, 1.0, 40000.0);
      ProvisionedCostBetween(0.0, 40000.0, Mean(simR), Mean(simW), p.rcu, p.wcu);
    }
  }
}
