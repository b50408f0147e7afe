# DynamoDB cost optimizer — a Dafny model

This project models the decision core of the DynamoDB cost-optimizer skill's
analysis scripts. For each table, the scripts estimate what it would cost
under other settings and recommend changes. The model covers:

- **Autoscaling simulator** (`AutoscalingSim`). A tick-by-tick state machine
  that fills a capacity array in place. It scales out after 2 ticks above
  target. It scales in after a 15-tick window below target - 0.2, with a 1.2x
  materiality margin and a quota: 4 scale-ins per 1440-tick period, then one
  per 60 ticks. The imperative `Simulate` is proved equal to a functional
  trace, and the properties are lemmas about that trace: the clamp
  invariant, prefix stability, causality, and characterisations of scale-in
  and scale-out.
- **Four analyzers**, as functions of their fetched inputs:
  - capacity mode (`CapacityMode`): on-demand versus simulated provisioned
    cost, the mode decision, savings and suggested bounds;
  - table class (`TableClass`): reserved-capacity gating, the
    storage/throughput ratio, the asymmetric breakeven ratios (hysteresis)
    and the minimum saving;
  - utilization right-sizing (`Utilization`): the resource and query lists
    and the three-way decision per resource;
  - unused index detection (`UnusedGsi`): zero reads flag the index, with
    savings by billing mode.

  Utilization and unused-index detection build their lists and run their
  main loops as methods proved against those functions.
- **Orchestration** (`AnalyzeAll`):
  - `analyze_table` isolates failures per analyzer;
  - the job list (`all_tasks`) is built region by region;
  - the worker pool writes result slots by task index, whatever the
    completion order;
  - the data part of `format_results`: buckets, totals and the stable
    descending sort.
- **Supporting rules**:
  - `Config`: the `days` clamp in `validate_keys`, price names by table
    class, and the ratio constants;
  - `GetPricing`: the first-write-wins fold of price-list items, the
    required-name check and aliases;
  - `CwBatch`: query construction, 500-query chunking, page accumulation,
    the per-id sort and the throttle-retry policy;
  - `StableSort`: Python's stable `list.sort`.

The model has these conventions:
- The exceptions the analyzers raise on their inputs are `Err` values: a
  KeyError on a missing price, a division by a zero-day window, a failed
  fetch, an `int()` that rejects `days`. The few that cannot arise from the
  modelled inputs are listed under "Left out".
- What the scripts fetch over the network is a function parameter: table
  descriptions, the metric service, the reserved-capacity flag and each
  region's prices.
- `CwBatch.AsCloudWatch` and `GetPricing.PriceSource` connect those
  parameters to the modelled `batch_get_metrics` and `get_pricing`.
- Money is exact `real`.

One consequence the model proves is `AnalyzeAll.FetchedPricesLackIaCapacity`.
`get_price_keys` prices a Standard-IA table with `ia_rcu_hour` and
`ia_wcu_hour`, but `get_pricing` never sets either name. So the
capacity-mode analysis of such a table always fails when the prices come
from `get_pricing` rather than from the caller. Once the metric fetch has
succeeded, the error is a KeyError on `ia_read` or `ia_write` when that
price was not fetched, then the division error when `days` is 0, and
otherwise a KeyError on `ia_rcu_hour`. A failed metric fetch fails first.

## Model

| member | source | states |
|---|---|---|
| Config.RatiosLeaveAGap | plugins/dynamodb-cost-optimizer/skills/optimize-dynamodb/scripts/config.py:14-17 | STANDARD_TO_IA_RATIO (0.25/0.6) is strictly above IA_TO_STANDARD_RATIO (0.2/1.5), so a band remains where neither class change is made |
| Config.GetPriceKeys | plugins/dynamodb-cost-optimizer/skills/optimize-dynamodb/scripts/config.py:70-77 | the four price names are exactly `ia_rcu_hour`, `ia_wcu_hour`, `ia_read`, `ia_write` when the class is STANDARD_INFREQUENT_ACCESS, and exactly `rcu_hour`, `wcu_hour`, `read_request`, `write_request` for any other or missing class, and they are distinct |
| Config.Missing | plugins/dynamodb-cost-optimizer/skills/optimize-dynamodb/scripts/config.py:61-63 | the missing list holds exactly the required keys absent from the data, and is empty iff every required key is present |
| Config.ClampDays | plugins/dynamodb-cost-optimizer/skills/optimize-dynamodb/scripts/config.py:66-67 | the clamped window lies in [1, 90], equals the input inside that range, and is 1 below it and 90 above it |
| Config.IntOf | plugins/dynamodb-cost-optimizer/skills/optimize-dynamodb/scripts/config.py:67 | `int(days)` fails exactly on null, a list or an object, and on text that is not a decimal integer literal; a boolean gives 1 or 0 |
| Config.UnsignedNumeral | plugins/dynamodb-cost-optimizer/skills/optimize-dynamodb/scripts/config.py:67 | `int()` of the decimal numeral of n, with any surrounding whitespace, is n |
| Config.SignedNumeral | plugins/dynamodb-cost-optimizer/skills/optimize-dynamodb/scripts/config.py:67 | `int()` of `+` or `-` followed by the decimal numeral of n, with any surrounding whitespace, is n or -n |
| Config.Validated | plugins/dynamodb-cost-optimizer/skills/optimize-dynamodb/scripts/config.py:60-67 | a successful validation keeps exactly the keys of the request, and a present `days` becomes a number in [1, 90] |
| Config.ValidatedFailsIff | plugins/dynamodb-cost-optimizer/skills/optimize-dynamodb/scripts/config.py:61-67 | validation fails iff some required key is absent, or `days` is present and `int()` rejects it: null, a list or an object, or text that is not a decimal integer literal |
| Config.ValidatedChangesOnlyDays | plugins/dynamodb-cost-optimizer/skills/optimize-dynamodb/scripts/config.py:61-67 | a successful validation leaves every key but `days` unchanged and sets a present `days` to `max(1, min(int(days), 90))` |
| Config.ValidatedIdempotent | plugins/dynamodb-cost-optimizer/skills/optimize-dynamodb/scripts/config.py:66-67 | validating an already validated request changes nothing |
| Config.Request.ValidateKeys | plugins/dynamodb-cost-optimizer/skills/optimize-dynamodb/scripts/config.py:61-67 | in-place `validate_keys`: on failure the dictionary is untouched and the error is returned; on success the dictionary becomes the validated one, so numbers, booleans and numeric text for `days` are all accepted and clamped |
| Ddb.PerSecond | plugins/dynamodb-cost-optimizer/skills/optimize-dynamodb/scripts/capacity_mode.py:61-62 | each 5-minute sum becomes units per second: element i is the i-th value divided by 300, same length |
| Ddb.Price | plugins/dynamodb-cost-optimizer/skills/optimize-dynamodb/scripts/capacity_mode.py:52-58 | `prices[key]` succeeds iff the name is present, with its price; otherwise the KeyError |
| Numeric.MaxOf | plugins/dynamodb-cost-optimizer/skills/optimize-dynamodb/scripts/utilization.py:76 | `max` of a non-empty list is one of its elements and at least every element |
| Numeric.MinOf | plugins/dynamodb-cost-optimizer/skills/optimize-dynamodb/scripts/capacity_mode.py:95-97 | `min` of a non-empty list is one of its elements and at most every element |
| Numeric.Trunc | plugins/dynamodb-cost-optimizer/skills/optimize-dynamodb/scripts/utilization.py:94 | `int(x)` truncates toward zero: for x >= 0 the result n satisfies n <= x < n + 1, for x < 0 it satisfies n - 1 < x <= n |
| Numeric.NatToString | plugins/dynamodb-cost-optimizer/skills/optimize-dynamodb/scripts/utilization.py:58-61 | the index in a query id is the decimal numeral of the index: digits only, no leading zero, denoting exactly that number |
| Numeric.NatToStringInjective | plugins/dynamodb-cost-optimizer/skills/optimize-dynamodb/scripts/unused_gsi.py:36-45 | distinct indexes give distinct numerals, so the per-index query ids never clash |
| Numeric.Contains | plugins/dynamodb-cost-optimizer/skills/optimize-dynamodb/scripts/get_pricing.py:58 | the substring test `sub in s` holds iff `sub` occurs in `s` at some position |
| Numeric.SumConcat | plugins/dynamodb-cost-optimizer/skills/optimize-dynamodb/scripts/capacity_mode.py:48-49 | the sum of a concatenation is the sum of the sums |
| Numeric.SumNonNegative | plugins/dynamodb-cost-optimizer/skills/optimize-dynamodb/scripts/utilization.py:106 | a sum of non-negative values is non-negative |
| Numeric.MeanBetween | plugins/dynamodb-cost-optimizer/skills/optimize-dynamodb/scripts/capacity_mode.py:67-68 | the mean of a non-empty list whose values lie in [lo, hi] lies in [lo, hi] |
| Numeric.MeanNonNegative | plugins/dynamodb-cost-optimizer/skills/optimize-dynamodb/scripts/unused_gsi.py:64-65 | the mean of non-negative values (0 for an empty list) is non-negative |
| AutoscalingSim.Run | plugins/dynamodb-cost-optimizer/skills/optimize-dynamodb/scripts/autoscaling_sim.py:41-82 | the state after the first k ticks holds exactly k capacities |
| AutoscalingSim.Simulated | plugins/dynamodb-cost-optimizer/skills/optimize-dynamodb/scripts/autoscaling_sim.py:37-84 | the output has one capacity per input sample |
| AutoscalingSim.ScanWindow | plugins/dynamodb-cost-optimizer/skills/optimize-dynamodb/scripts/autoscaling_sim.py:64-71 | the window scan reports all-below iff every utilisation of ticks i-14..i is under the threshold, and then the peak consumption of the window |
| AutoscalingSim.ScaleOut | plugins/dynamodb-cost-optimizer/skills/optimize-dynamodb/scripts/autoscaling_sim.py:53-59 | tick i gets the scale-out capacity computed from tick i-1's capacity; no other element of the array changes |
| AutoscalingSim.ScaleIn | plugins/dynamodb-cost-optimizer/skills/optimize-dynamodb/scripts/autoscaling_sim.py:61-82 | a scale-in is applied iff i >= 15, the window is below target - 0.2, the quota allows it and the candidate times 1.2 is below the current capacity; it then writes the candidate; no other element changes |
| AutoscalingSim.Tick | plugins/dynamodb-cost-optimizer/skills/optimize-dynamodb/scripts/autoscaling_sim.py:47-82 | one loop iteration appends exactly the capacity, counter and last scale-in of one step of the state machine |
| AutoscalingSim.Simulate | plugins/dynamodb-cost-optimizer/skills/optimize-dynamodb/scripts/autoscaling_sim.py:37-84 | the imperative `simulate` fills a fresh array equal to the functional trace `Simulated` |
| AutoscalingSim.StepCases | plugins/dynamodb-cost-optimizer/skills/optimize-dynamodb/scripts/autoscaling_sim.py:47-82 | a tick either scales in (candidate capacity, counter + 1, last = i) or keeps the scale-out capacity and the last scale-in; the counter is reset at multiples of 1440 first; earlier capacities are kept |
| AutoscalingSim.LengthPreserved | plugins/dynamodb-cost-optimizer/skills/optimize-dynamodb/scripts/autoscaling_sim.py:37-41 | output length equals input length; empty input gives an empty list |
| AutoscalingSim.RunPrefix | plugins/dynamodb-cost-optimizer/skills/optimize-dynamodb/scripts/autoscaling_sim.py:47-48 | iteration i writes only prov[i]: the capacities of earlier ticks are never rewritten |
| AutoscalingSim.SimulatedPrefix | plugins/dynamodb-cost-optimizer/skills/optimize-dynamodb/scripts/autoscaling_sim.py:47-48 | the first k outputs are the capacities of the trace after k ticks |
| AutoscalingSim.FirstSample | plugins/dynamodb-cost-optimizer/skills/optimize-dynamodb/scripts/autoscaling_sim.py:42 | prov[0] is metrics[0] / target clamped to [min_cap, max_cap] |
| AutoscalingSim.HeadroomAtStart | plugins/dynamodb-cost-optimizer/skills/optimize-dynamodb/scripts/autoscaling_sim.py:42 | with 0 < target < 1 and metrics[0] / target within max_cap, the first capacity exceeds the first sample |
| AutoscalingSim.ClampedQuotientAbove | plugins/dynamodb-cost-optimizer/skills/optimize-dynamodb/scripts/autoscaling_sim.py:42 | the clamped quotient x / target exceeds x when 0 < target < 1 and x / target <= max_cap |
| AutoscalingSim.StepCausal | plugins/dynamodb-cost-optimizer/skills/optimize-dynamodb/scripts/autoscaling_sim.py:53-82 | one step at tick i depends only on the samples up to tick i |
| AutoscalingSim.RunCausal | plugins/dynamodb-cost-optimizer/skills/optimize-dynamodb/scripts/autoscaling_sim.py:47-82 | the trace after k ticks depends only on the first k samples |
| AutoscalingSim.Causal | plugins/dynamodb-cost-optimizer/skills/optimize-dynamodb/scripts/autoscaling_sim.py:47-82 | simulating a prefix of the samples gives the same prefix of the output |
| AutoscalingSim.RunInBounds | plugins/dynamodb-cost-optimizer/skills/optimize-dynamodb/scripts/autoscaling_sim.py:42-80 | with 0 <= min_cap <= max_cap every capacity of the trace lies in [min_cap, max_cap] |
| AutoscalingSim.SimulatedInBounds | plugins/dynamodb-cost-optimizer/skills/optimize-dynamodb/scripts/autoscaling_sim.py:42-80 | clamp invariant: with 0 <= min_cap <= max_cap every output lies in [min_cap, max_cap] |
| AutoscalingSim.ScaleInExcludesScaleOut | plugins/dynamodb-cost-optimizer/skills/optimize-dynamodb/scripts/autoscaling_sim.py:54-70 | a tick that scales in did not also scale out |
| AutoscalingSim.DayStartStep | plugins/dynamodb-cost-optimizer/skills/optimize-dynamodb/scripts/autoscaling_sim.py:50-51 | between counter resets the current 1440-tick period does not change |
| AutoscalingSim.CounterInvariant | plugins/dynamodb-cost-optimizer/skills/optimize-dynamodb/scripts/autoscaling_sim.py:44-51 | `scale_in_count` equals the number of scale-ins since the last multiple of 1440 |
| AutoscalingSim.LastScaleInInvariant | plugins/dynamodb-cost-optimizer/skills/optimize-dynamodb/scripts/autoscaling_sim.py:45-82 | `last_scale_in_minute` is the tick of the latest scale-in, or -61 when there has been none |
| AutoscalingSim.LastScaleInKept | plugins/dynamodb-cost-optimizer/skills/optimize-dynamodb/scripts/autoscaling_sim.py:73-82 | a tick without scale-in leaves the latest scale-in where it was |
| AutoscalingSim.QuotaAllowsMeansQuotaOk | plugins/dynamodb-cost-optimizer/skills/optimize-dynamodb/scripts/autoscaling_sim.py:74-76 | the quota test on the counters equals the quota stated over the trace: fewer than 4 scale-ins in the current period, or 60 ticks since the latest |
| AutoscalingSim.ScaleInCharacterization | plugins/dynamodb-cost-optimizer/skills/optimize-dynamodb/scripts/autoscaling_sim.py:62-82 | scale-in at tick i happens iff i >= 15, every utilisation of the window (against the output capacities) is below target - 0.2, the quota holds and 1.2 times the candidate is below the previous capacity |
| AutoscalingSim.WindowIff | plugins/dynamodb-cost-optimizer/skills/optimize-dynamodb/scripts/autoscaling_sim.py:62-71 | the loop's window test on its in-progress capacities equals the window condition on the final output |
| AutoscalingSim.QuotaRespected | plugins/dynamodb-cost-optimizer/skills/optimize-dynamodb/scripts/autoscaling_sim.py:74-76 | once 4 scale-ins happened in the current period, a further scale-in is at least 60 ticks after every earlier one |
| AutoscalingSim.SimulatedAt | plugins/dynamodb-cost-optimizer/skills/optimize-dynamodb/scripts/autoscaling_sim.py:47-82 | output i is the step at tick i from the trace of ticks 0..i-1 |
| AutoscalingSim.ScaledInIffDrop | plugins/dynamodb-cost-optimizer/skills/optimize-dynamodb/scripts/autoscaling_sim.py:48-82 | capacity drops at tick i exactly when a scale-in is applied there |
| AutoscalingSim.ScaleOutRaises | plugins/dynamodb-cost-optimizer/skills/optimize-dynamodb/scripts/autoscaling_sim.py:54-59 | when scale-out fires, prov[i] = min(max(needed, prov[i-1]), max_cap) >= prov[i-1]; any rise comes from scale-out, to min(needed, max_cap) |
| CapacityMode.SimulatedCapacity | plugins/dynamodb-cost-optimizer/skills/optimize-dynamodb/scripts/capacity_mode.py:61-64 | the simulation of the per-second series has one capacity per datapoint (empty for an empty series) |
| CapacityMode.Evaluate | plugins/dynamodb-cost-optimizer/skills/optimize-dynamodb/scripts/capacity_mode.py:48-99 | the report recommends ON_DEMAND or PROVISIONED, reports the table's mode (PAY_PER_REQUEST as ON_DEMAND) and the window, prices the on-demand cost as (reads * read price + writes * write price) / days * 30.4, never reports negative savings, prices the current provisioned capacity at rcu * 730 * rcu price + wcu * 730 * wcu price, prices the optimal capacity as the mean simulated read and write capacity at 730 hours (the current provisioned cost without both simulations), and suggests max(1, int(min sim)) .. int(max sim) per dimension from the simulations |
| CapacityMode.Analyze | plugins/dynamodb-cost-optimizer/skills/optimize-dynamodb/scripts/capacity_mode.py:18-99 | a failed table description or metric fetch is the analysis' error, in that order; a report carries the table's reported mode and the window |
| CapacityMode.AnalyzeFailsIff | plugins/dynamodb-cost-optimizer/skills/optimize-dynamodb/scripts/capacity_mode.py:28-80 | the analysis fails iff describing the table or fetching metrics failed, one of the four class-selected prices is missing, or `days` is 0; otherwise it is the cost evaluation at those prices |
| CapacityMode.PricedByClassKeys | plugins/dynamodb-cost-optimizer/skills/optimize-dynamodb/scripts/capacity_mode.py:36-58 | only the four prices named by `get_price_keys` for the table's class affect the result |
| CapacityMode.CurrentModeReported | plugins/dynamodb-cost-optimizer/skills/optimize-dynamodb/scripts/capacity_mode.py:29-31 | PAY_PER_REQUEST is reported as ON_DEMAND, a missing mode as PROVISIONED; the current cost is the provisioned cost in PROVISIONED mode and the on-demand cost otherwise (line 79) |
| CapacityMode.ZeroUsageRecommendsOnDemand | plugins/dynamodb-cost-optimizer/skills/optimize-dynamodb/scripts/capacity_mode.py:74-75 | zero total reads and writes always recommend ON_DEMAND |
| CapacityMode.ModeDecision | plugins/dynamodb-cost-optimizer/skills/optimize-dynamodb/scripts/capacity_mode.py:74-77 | with some usage, ON_DEMAND is recommended iff on-demand cost < optimal provisioned cost (strict), PROVISIONED iff >= |
| CapacityMode.SavingsNonNegative | plugins/dynamodb-cost-optimizer/skills/optimize-dynamodb/scripts/capacity_mode.py:79-91 | savings = max(0, current - min(od, optimal)), hence never negative, zero iff current <= both alternatives, at least each difference; the percentage is savings / current * 100 when current > 0 and 0 otherwise |
| CapacityMode.OptimalFallsBackToCurrent | plugins/dynamodb-cost-optimizer/skills/optimize-dynamodb/scripts/capacity_mode.py:66-72 | with an empty read or write series the optimal cost is the current provisioned cost and no bounds are suggested |
| CapacityMode.SimulatedCapacityBounds | plugins/dynamodb-cost-optimizer/skills/optimize-dynamodb/scripts/capacity_mode.py:63-64 | every simulated capacity lies in the default bounds [1, 40000] |
| CapacityMode.ProvisionedCostBetween | plugins/dynamodb-cost-optimizer/skills/optimize-dynamodb/scripts/capacity_mode.py:57-58 | provisioned cost is monotone in the capacities at non-negative prices |
| CapacityMode.OptimalWithinAutoscalerBounds | plugins/dynamodb-cost-optimizer/skills/optimize-dynamodb/scripts/capacity_mode.py:66-70 | with both series present, the optimal cost lies between the cost of 1 and of 40000 units |
| CapacityMode.SuggestedBoundsIff | plugins/dynamodb-cost-optimizer/skills/optimize-dynamodb/scripts/capacity_mode.py:94-98 | suggested min/max read/write appear iff PROVISIONED is recommended and both series are non-empty; then 1 <= min <= max <= 40000 |
| CapacityMode.IdleOnDemandTableSavesNothing | plugins/dynamodb-cost-optimizer/skills/optimize-dynamodb/scripts/capacity_mode.py:79-80 | an on-demand table with no usage and non-negative prices saves 0 |
| CapacityMode.OptimalCostNonNegative | plugins/dynamodb-cost-optimizer/skills/optimize-dynamodb/scripts/capacity_mode.py:66-72 | the optimal provisioned cost is non-negative at non-negative prices |
| TableClass.Decide | plugins/dynamodb-cost-optimizer/skills/optimize-dynamodb/scripts/table_class.py:65-83 | a kept class reports savings 0 and a change saves at least `min_savings`; STANDARD moves only to IA, any other class only to STANDARD |
| TableClass.Analyze | plugins/dynamodb-cost-optimizer/skills/optimize-dynamodb/scripts/table_class.py:17-97 | the `prices object is required` answer is given exactly when prices are missing or empty; every report carries the table's current class |
| TableClass.PricesCheckedFirst | plugins/dynamodb-cost-optimizer/skills/optimize-dynamodb/scripts/table_class.py:24-25 | missing or empty prices give the "prices object is required" result whatever the other inputs |
| TableClass.ReservedKeepsClass | plugins/dynamodb-cost-optimizer/skills/optimize-dynamodb/scripts/table_class.py:32-36 | reserved capacity keeps the current class with savings 0 and the reserved-capacity note |
| TableClass.UnknownReservedAddsNote | plugins/dynamodb-cost-optimizer/skills/optimize-dynamodb/scripts/table_class.py:38-40 | an unknown reserved status still analyses and attaches the advisory note (lines 95-96); a known false attaches none |
| TableClass.AnalyzeFailsIff | plugins/dynamodb-cost-optimizer/skills/optimize-dynamodb/scripts/table_class.py:24-58 | the analysis fails iff prices are given and describing the table failed, or (without reserved capacity) the metric fetch failed, a standard storage/read/write price is missing or `days` is 0 |
| TableClass.ReportSavings | plugins/dynamodb-cost-optimizer/skills/optimize-dynamodb/scripts/table_class.py:65-91 | every report keeps the class with savings 0 or changes it with savings >= `min_savings`; the current class is the table's |
| TableClass.ReportDecides | plugins/dynamodb-cost-optimizer/skills/optimize-dynamodb/scripts/table_class.py:53-97 | with every input at hand and a non-zero total cost, the report is the decision over the table's own storage cost (size / 2^30 * storage price) and throughput cost ((reads * read price + writes * write price) * 30.4 / days), carrying those costs, their ratio, the window and the unverified-reservation note when the flag is unknown |
| TableClass.ZeroCostKeepsClass | plugins/dynamodb-cost-optimizer/skills/optimize-dynamodb/scripts/table_class.py:53-61 | with every input at hand, a report lacks cost figures exactly when storage plus throughput cost is 0, and then keeps the current class with savings 0 and no note |
| TableClass.StandardToIaIff | plugins/dynamodb-cost-optimizer/skills/optimize-dynamodb/scripts/table_class.py:68-75 | from STANDARD, IA is recommended iff (ratio > 0.25/0.6, or throughput <= 0.01 and storage > 1) and total - (0.4 storage + 2.5 throughput) >= min_savings |
| TableClass.ToStandardIff | plugins/dynamodb-cost-optimizer/skills/optimize-dynamodb/scripts/table_class.py:76-83 | from any other class, STANDARD is recommended iff ratio < 0.2/1.5 and total - (2.5 storage + 0.4 throughput) >= min_savings |
| TableClass.Hysteresis | plugins/dynamodb-cost-optimizer/skills/optimize-dynamodb/scripts/table_class.py:63-83 | with throughput > 0.01 and a ratio between the two breakeven ratios, no class changes |
| TableClass.NoFlipFlop | plugins/dynamodb-cost-optimizer/skills/optimize-dynamodb/scripts/table_class.py:68-83 | costs that move a STANDARD table to IA never move an IA table back to STANDARD |
| Utilization.GsiResourcesAt | plugins/dynamodb-cost-optimizer/skills/optimize-dynamodb/scripts/utilization.py:45-51 | one resource per index, index k giving the `table#index` resource with its throughput (0 when absent) |
| Utilization.ResourcesShape | plugins/dynamodb-cost-optimizer/skills/optimize-dynamodb/scripts/utilization.py:40-51 | the resources are the table followed by each index in order |
| Utilization.BuildResources | plugins/dynamodb-cost-optimizer/skills/optimize-dynamodb/scripts/utilization.py:40-51 | the append loop builds exactly the table-then-indexes resource list |
| Utilization.QueriesShape | plugins/dynamodb-cost-optimizer/skills/optimize-dynamodb/scripts/utilization.py:53-61 | four queries per resource, resource i's read/write sums and maxima at positions 4i..4i+3 |
| Utilization.BuildQueries | plugins/dynamodb-cost-optimizer/skills/optimize-dynamodb/scripts/utilization.py:53-61 | the append loop builds exactly that query list |
| Utilization.Recommend | plugins/dynamodb-cost-optimizer/skills/optimize-dynamodb/scripts/utilization.py:65-106 | the main loop yields the entries of the resources under the threshold, in order, or the first KeyError; the running total is the sum of the entries' savings |
| Utilization.RecommendOne | plugins/dynamodb-cost-optimizer/skills/optimize-dynamodb/scripts/utilization.py:68-106 | one pass appends resource i's entry, if any, and adds its savings to the total |
| Utilization.EntriesStep | plugins/dynamodb-cost-optimizer/skills/optimize-dynamodb/scripts/utilization.py:99-106 | one more resource appends its entry (if any) and adds exactly its savings |
| Utilization.ErrorPersists | plugins/dynamodb-cost-optimizer/skills/optimize-dynamodb/scripts/utilization.py:87-97 | a missing capacity price raises and ends the loop: later resources do not change the outcome |
| Utilization.Analyze | plugins/dynamodb-cost-optimizer/skills/optimize-dynamodb/scripts/utilization.py:33-113 | `analyze` over the fetched inputs equals the functional specification |
| Utilization.OnDemandTablesSkipped | plugins/dynamodb-cost-optimizer/skills/optimize-dynamodb/scripts/utilization.py:35-37 | PAY_PER_REQUEST tables give the message-only result |
| Utilization.TableThroughputRequired | plugins/dynamodb-cost-optimizer/skills/optimize-dynamodb/scripts/utilization.py:40-44 | a provisioned table without a ProvisionedThroughput block raises |
| Utilization.SkippedIff | plugins/dynamodb-cost-optimizer/skills/optimize-dynamodb/scripts/utilization.py:79-83 | a resource yields no entry iff both utilisations reach the threshold |
| Utilization.SwitchIff | plugins/dynamodb-cost-optimizer/skills/optimize-dynamodb/scripts/utilization.py:79-91 | an entry is SWITCH_TO_ON_DEMAND iff both utilisations (avg / provisioned * 100, 0 when nothing is provisioned) are under 30; it then recommends no capacities and saves max(0, (provR * rcu_hour + provW * wcu_hour) * 730 - (avgR * rate_r + avgW * rate_w) * 2626560), with rate_r/rate_w the on_demand_* price, else the request price, else 0; every entry has a utilisation under the threshold |
| Utilization.ReduceRecommendation | plugins/dynamodb-cost-optimizer/skills/optimize-dynamodb/scripts/utilization.py:93-95 | REDUCE_CAPACITY gives each dimension under the threshold exactly max(5, int(peak * 1.2)) and keeps the other at its provisioned value |
| Utilization.ReduceSavings | plugins/dynamodb-cost-optimizer/skills/optimize-dynamodb/scripts/utilization.py:96-97 | REDUCE_CAPACITY saves max(0, (provR - recR) * rcu_hour * 730) + max(0, (provW - recW) * wcu_hour * 730) |
| Utilization.EntrySavingsNonNegative | plugins/dynamodb-cost-optimizer/skills/optimize-dynamodb/scripts/utilization.py:90-97 | every entry's savings are non-negative |
| Utilization.EntriesNonNegative | plugins/dynamodb-cost-optimizer/skills/optimize-dynamodb/scripts/utilization.py:99-111 | every entry saves a non-negative amount, so the total does too; at most one entry per resource |
| UnusedGsi.GsiQueries | plugins/dynamodb-cost-optimizer/skills/optimize-dynamodb/scripts/unused_gsi.py:36-45 | an index has two queries on an on-demand table, three otherwise |
| UnusedGsi.QueriesShape | plugins/dynamodb-cost-optimizer/skills/optimize-dynamodb/scripts/unused_gsi.py:34-45 | 2 or 3 queries per index by billing mode, index i's in its own block at 2i or 3i |
| UnusedGsi.QueriesBlock | plugins/dynamodb-cost-optimizer/skills/optimize-dynamodb/scripts/unused_gsi.py:34-45 | index i's queries occupy block i of the query list |
| UnusedGsi.QueriesCount | plugins/dynamodb-cost-optimizer/skills/optimize-dynamodb/scripts/unused_gsi.py:34-45 | the query list has 2 or 3 queries per index |
| UnusedGsi.BuildQueries | plugins/dynamodb-cost-optimizer/skills/optimize-dynamodb/scripts/unused_gsi.py:34-45 | the append loop builds exactly that query list |
| UnusedGsi.ErrorPersists | plugins/dynamodb-cost-optimizer/skills/optimize-dynamodb/scripts/unused_gsi.py:58-60 | the zero-day division raises and ends the loop: later indexes do not change the outcome |
| UnusedGsi.Detect | plugins/dynamodb-cost-optimizer/skills/optimize-dynamodb/scripts/unused_gsi.py:49-70 | the main loop yields the unused entries in index order, or the exception; the total is the sum of their savings |
| UnusedGsi.DetectOne | plugins/dynamodb-cost-optimizer/skills/optimize-dynamodb/scripts/unused_gsi.py:51-70 | one pass appends index i's entry if unread and adds its savings |
| UnusedGsi.SavingsFor | plugins/dynamodb-cost-optimizer/skills/optimize-dynamodb/scripts/unused_gsi.py:56-66 | the savings of an unused index fail exactly for an on-demand table with prices and a zero-day window; the error is the int `division by zero` exactly when the index has no write samples and no write price, and `float division by zero` otherwise |
| UnusedGsi.EntriesStep | plugins/dynamodb-cost-optimizer/skills/optimize-dynamodb/scripts/unused_gsi.py:68-70 | one more index appends its entry (if unread) and adds exactly its savings |
| UnusedGsi.Analyze | plugins/dynamodb-cost-optimizer/skills/optimize-dynamodb/scripts/unused_gsi.py:26-76 | `analyze` over the fetched inputs equals the functional specification |
| UnusedGsi.ReportsExactlyUnread | plugins/dynamodb-cost-optimizer/skills/optimize-dynamodb/scripts/unused_gsi.py:51-54 | exactly the indexes whose summed reads are not > 0 are reported, in index order (empty series count as zero) |
| UnusedGsi.FailsIff | plugins/dynamodb-cost-optimizer/skills/optimize-dynamodb/scripts/unused_gsi.py:56-60 | the only failure is the division by a zero-day window, raised iff the table is on-demand, prices are given and some index is unread |
| UnusedGsi.NoGsisIff | plugins/dynamodb-cost-optimizer/skills/optimize-dynamodb/scripts/unused_gsi.py:31-32 | `hasGSIs` False is reported iff the table has no index |
| UnusedGsi.NoPricesNoSavings | plugins/dynamodb-cost-optimizer/skills/optimize-dynamodb/scripts/unused_gsi.py:56-57 | without prices every unread index is still reported, with savings 0 |
| UnusedGsi.SavingsNonNegative | plugins/dynamodb-cost-optimizer/skills/optimize-dynamodb/scripts/unused_gsi.py:56-66 | with non-negative prices and datapoints and days > 0, the savings (total writes * write_request / days * 30.4 on-demand, mean provisioned capacity * rcu_hour/wcu_hour * 730 otherwise) are non-negative |
| CwBatch.DimensionsOf | plugins/dynamodb-cost-optimizer/skills/optimize-dynamodb/scripts/cw_batch.py:37-39 | dimensions are TableName, plus GlobalSecondaryIndexName exactly when a non-empty index name is given |
| CwBatch.DataQueries | plugins/dynamodb-cost-optimizer/skills/optimize-dynamodb/scripts/cw_batch.py:36-53 | one metric query per analyzer query |
| CwBatch.BuildDataQueries | plugins/dynamodb-cost-optimizer/skills/optimize-dynamodb/scripts/cw_batch.py:35-53 | the append loop builds exactly that list |
| CwBatch.ChunksConcat | plugins/dynamodb-cost-optimizer/skills/optimize-dynamodb/scripts/cw_batch.py:57-58 | the chunks, concatenated in order, are the queries |
| CwBatch.ChunksSized | plugins/dynamodb-cost-optimizer/skills/optimize-dynamodb/scripts/cw_batch.py:57-58 | every chunk holds between 1 and 500 queries |
| CwBatch.ChunksCount | plugins/dynamodb-cost-optimizer/skills/optimize-dynamodb/scripts/cw_batch.py:57-58 | there are ceil(n / 500) chunks, none for no queries |
| CwBatch.ChunksStep | plugins/dynamodb-cost-optimizer/skills/optimize-dynamodb/scripts/cw_batch.py:57-58 | the chunks from offset i are the slice i..min(i+500, n) followed by the chunks after it |
| CwBatch.BuildChunks | plugins/dynamodb-cost-optimizer/skills/optimize-dynamodb/scripts/cw_batch.py:57-58 | the `range(0, n, 500)` loop builds exactly those chunks |
| CwBatch.CallWithRetry | plugins/dynamodb-cost-optimizer/skills/optimize-dynamodb/scripts/cw_batch.py:89-100 | the retry loop returns the outcome, call count and sleeps of the retry specification |
| CwBatch.RetryShape | plugins/dynamodb-cost-optimizer/skills/optimize-dynamodb/scripts/cw_batch.py:91-99 | from any attempt, each throttled call before the last is followed by a sleep of 2^attempt, and the last call concludes the run |
| CwBatch.RetryPolicy | plugins/dynamodb-cost-optimizer/skills/optimize-dynamodb/scripts/cw_batch.py:89-100 | at most max_retries calls; every call but the last was throttled and followed by a sleep of 2^k; the last call's response is returned, or its error raised when not a throttle or on the final attempt; no attempts gives the empty response |
| CwBatch.NonThrottleRaisedAtOnce | plugins/dynamodb-cost-optimizer/skills/optimize-dynamodb/scripts/cw_batch.py:94-99 | a non-throttling error is raised after one call with no sleep |
| CwBatch.Zip | plugins/dynamodb-cost-optimizer/skills/optimize-dynamodb/scripts/cw_batch.py:76-77 | `zip` pairs timestamps and values positionally, up to the shorter list |
| CwBatch.MergeInto | plugins/dynamodb-cost-optimizer/skills/optimize-dynamodb/scripts/cw_batch.py:72-77 | the results loop merges each data result into the map as the merge specification says |
| CwBatch.MergeResultsPoints | plugins/dynamodb-cost-optimizer/skills/optimize-dynamodb/scripts/cw_batch.py:72-77 | an id's list gains the points of every data result with that id, in order |
| CwBatch.MergeResultsKeys | plugins/dynamodb-cost-optimizer/skills/optimize-dynamodb/scripts/cw_batch.py:73-75 | an id has a list iff it had one or some data result names it |
| CwBatch.MergeResultsConcat | plugins/dynamodb-cost-optimizer/skills/optimize-dynamodb/scripts/cw_batch.py:72-77 | merging two runs of data results is merging one after the other |
| CwBatch.MergePagesFlat | plugins/dynamodb-cost-optimizer/skills/optimize-dynamodb/scripts/cw_batch.py:61-81 | merging pages is merging all their data results in page order |
| CwBatch.Accumulated | plugins/dynamodb-cost-optimizer/skills/optimize-dynamodb/scripts/cw_batch.py:55-81 | points of the same id are accumulated across all pages; exactly the ids that appeared have a list |
| CwBatch.SortEach | plugins/dynamodb-cost-optimizer/skills/optimize-dynamodb/scripts/cw_batch.py:83-84 | the sort loop sorts every id's list by timestamp |
| CwBatch.SortedSeries | plugins/dynamodb-cost-optimizer/skills/optimize-dynamodb/scripts/cw_batch.py:83-84 | each list ends up in timestamp order, a permutation of what was accumulated, equal timestamps in arrival order |
| CwBatch.PagesFromStep | plugins/dynamodb-cost-optimizer/skills/optimize-dynamodb/scripts/cw_batch.py:61-81 | one page: a failed call stops the chunk with its error; a response is merged; a token continues the loop |
| CwBatch.MergePagesSnoc | plugins/dynamodb-cost-optimizer/skills/optimize-dynamodb/scripts/cw_batch.py:70-77 | merging one more page extends the merge of the pages before it |
| CwBatch.FetchPage | plugins/dynamodb-cost-optimizer/skills/optimize-dynamodb/scripts/cw_batch.py:62-81 | one pass of the page loop advances the running merge, requests and sleeps exactly as the page specification does, ending when no token comes back or a call fails |
| CwBatch.FetchChunk | plugins/dynamodb-cost-optimizer/skills/optimize-dynamodb/scripts/cw_batch.py:59-81 | one chunk's page loop ends with the merge, requests, sleeps and error of the specification |
| CwBatch.FailurePersists | plugins/dynamodb-cost-optimizer/skills/optimize-dynamodb/scripts/cw_batch.py:57-81 | an error raised in one chunk ends the run: later chunks change nothing |
| CwBatch.BatchGetMetrics | plugins/dynamodb-cost-optimizer/skills/optimize-dynamodb/scripts/cw_batch.py:14-86 | `batch_get_metrics` returns the sorted merge of every page of every chunk, or the first error, with the specified requests and sleeps |
| CwBatch.PagesFromRequests | plugins/dynamodb-cost-optimizer/skills/optimize-dynamodb/scripts/cw_batch.py:61-70 | each chunk makes at least one request, and all its requests send that chunk |
| CwBatch.FetchChunksRequests | plugins/dynamodb-cost-optimizer/skills/optimize-dynamodb/scripts/cw_batch.py:57-70 | every request sends one of the chunks; a chunk index maps the requests onto the chunks from the first, in order, each chunk the same as or next after the one before, and a run without error sends every chunk |
| CwBatch.RequestsSendChunks | plugins/dynamodb-cost-optimizer/skills/optimize-dynamodb/scripts/cw_batch.py:57-70 | the chunks concatenate to the queries and each request sends one chunk of 1 to 500 queries; the requests go through the chunks in order from the first, never returning to an earlier chunk or skipping one, and a run without error sends every chunk |
| CwBatch.BatchPoints | plugins/dynamodb-cost-optimizer/skills/optimize-dynamodb/scripts/cw_batch.py:55-86 | the result maps exactly the ids that came back to all their points, sorted by timestamp, none lost or added, ties in arrival order |
| StableSort.Pos | plugins/dynamodb-cost-optimizer/skills/optimize-dynamodb/scripts/analyze_all.py:98 | the insertion point lies after every key at most key(x) and before the larger keys |
| StableSort.InsertAscending | plugins/dynamodb-cost-optimizer/skills/optimize-dynamodb/scripts/analyze_all.py:98 | inserting into an ascending list keeps it ascending |
| StableSort.InsertMultiset | plugins/dynamodb-cost-optimizer/skills/optimize-dynamodb/scripts/analyze_all.py:98 | inserting adds exactly the element |
| StableSort.WithKeyInsert | plugins/dynamodb-cost-optimizer/skills/optimize-dynamodb/scripts/analyze_all.py:98 | an inserted element comes after every element of equal key |
| StableSort.SortedAscending | plugins/dynamodb-cost-optimizer/skills/optimize-dynamodb/scripts/analyze_all.py:98 | the sort output is in ascending key order |
| StableSort.SortedPermutation | plugins/dynamodb-cost-optimizer/skills/optimize-dynamodb/scripts/analyze_all.py:98 | the sort output is a permutation of its input |
| StableSort.SortedStable | plugins/dynamodb-cost-optimizer/skills/optimize-dynamodb/scripts/analyze_all.py:98 | the sort is stable: elements with equal keys keep their input order |
| StableSort.ShiftRight | plugins/dynamodb-cost-optimizer/skills/optimize-dynamodb/scripts/analyze_all.py:98 | the shifting loop moves each larger-keyed element one place right, opening a gap at the insertion point; nothing else changes |
| StableSort.InsertLast | plugins/dynamodb-cost-optimizer/skills/optimize-dynamodb/scripts/analyze_all.py:98 | one outer pass inserts a[i] into the sorted prefix, leaving the rest |
| StableSort.SortedStep | plugins/dynamodb-cost-optimizer/skills/optimize-dynamodb/scripts/analyze_all.py:98 | sorting one more element inserts it into the sorted prefix |
| StableSort.SortInPlace | plugins/dynamodb-cost-optimizer/skills/optimize-dynamodb/scripts/analyze_all.py:98 | the in-place sort leaves the array equal to the stable sort of its old contents |
| AnalyzeAll.WithSlot | plugins/dynamodb-cost-optimizer/skills/optimize-dynamodb/scripts/analyze_all.py:34-36 | writing slot k sets it and leaves the other slots, the name, region and errors unchanged |
| AnalyzeAll.Outcomes | plugins/dynamodb-cost-optimizer/skills/optimize-dynamodb/scripts/analyze_all.py:27-32 | the four analyzers' outcomes, one per key |
| AnalyzeAll.Run | plugins/dynamodb-cost-optimizer/skills/optimize-dynamodb/scripts/analyze_all.py:33-34 | one analyzer call through the imperative analyzers equals its specification |
| AnalyzeAll.AnalyzeTable | plugins/dynamodb-cost-optimizer/skills/optimize-dynamodb/scripts/analyze_all.py:25-38 | the try/except loop builds exactly the specified entry |
| AnalyzeAll.EntryIsolation | plugins/dynamodb-cost-optimizer/skills/optimize-dynamodb/scripts/analyze_all.py:33-36 | slot k holds analyzer k's result or its error, whatever the other analyzers did |
| AnalyzeAll.EntryErrors | plugins/dynamodb-cost-optimizer/skills/optimize-dynamodb/scripts/analyze_all.py:35-37 | the error list holds one `key: message` per failed analyzer, in key order |
| AnalyzeAll.NoErrorLinesIff | plugins/dynamodb-cost-optimizer/skills/optimize-dynamodb/scripts/analyze_all.py:37 | no error line iff every slot holds a result |
| AnalyzeAll.EntryNames | plugins/dynamodb-cost-optimizer/skills/optimize-dynamodb/scripts/analyze_all.py:26 | the entry carries the table name and region |
| AnalyzeAll.AnalyzeTableIsolates | plugins/dynamodb-cost-optimizer/skills/optimize-dynamodb/scripts/analyze_all.py:25-38 | all four keys are filled, each with its own analyzer's result or error; each failure adds exactly one line; no errors iff every analyzer succeeded |
| AnalyzeAll.EntryIsolates | plugins/dynamodb-cost-optimizer/skills/optimize-dynamodb/scripts/analyze_all.py:25-38 | the same for any four outcomes |
| AnalyzeAll.ItemsPer | plugins/dynamodb-cost-optimizer/skills/optimize-dynamodb/scripts/analyze_all.py:46-89 | the items of each table, in input order |
| AnalyzeAll.PartitionResults | plugins/dynamodb-cost-optimizer/skills/optimize-dynamodb/scripts/analyze_all.py:46-96 | the `for t in results` loop builds exactly the specified buckets |
| AnalyzeAll.FormatResults | plugins/dynamodb-cost-optimizer/skills/optimize-dynamodb/scripts/analyze_all.py:40-98 | `format_results` gives the buckets with recommendations stably sorted by total, descending |
| AnalyzeAll.PartitionShape | plugins/dynamodb-cost-optimizer/skills/optimize-dynamodb/scripts/analyze_all.py:51-96 | each table goes to exactly one of recommendations and optimised; error entries have errors; each table's total is the sum of its items |
| AnalyzeAll.PartitionTotal | plugins/dynamodb-cost-optimizer/skills/optimize-dynamodb/scripts/analyze_all.py:91-94 | the grand total is the sum of the tables' totals |
| AnalyzeAll.PartitionPlacesTable | plugins/dynamodb-cost-optimizer/skills/optimize-dynamodb/scripts/analyze_all.py:49-96 | a table is optimised iff it yields no item, goes to recommendations otherwise, and is listed among errors iff it has errors (possibly both) |
| AnalyzeAll.ItemsRule | plugins/dynamodb-cost-optimizer/skills/optimize-dynamodb/scripts/analyze_all.py:56-89 | every item except an unused index saves > 0; every unused index is an item, whatever it saves |
| AnalyzeAll.SavingEntriesSave | plugins/dynamodb-cost-optimizer/skills/optimize-dynamodb/scripts/analyze_all.py:72-81 | utilisation items are the entries with savings > 0 |
| AnalyzeAll.RecsSortedDescending | plugins/dynamodb-cost-optimizer/skills/optimize-dynamodb/scripts/analyze_all.py:98 | recommendations are largest total first, ties in input order, none lost or added |
| AnalyzeAll.LabelSuffixIff | plugins/dynamodb-cost-optimizer/skills/optimize-dynamodb/scripts/analyze_all.py:49 | a label carries the region iff the results span more than one region |
| AnalyzeAll.RegionPrices | plugins/dynamodb-cost-optimizer/skills/optimize-dynamodb/scripts/analyze_all.py:158-163 | one price table per region when every price lookup succeeds |
| AnalyzeAll.RegionTasks | plugins/dynamodb-cost-optimizer/skills/optimize-dynamodb/scripts/analyze_all.py:166-168 | one task per table of the region, in table order, with the region's prices |
| AnalyzeAll.Results | plugins/dynamodb-cost-optimizer/skills/optimize-dynamodb/scripts/analyze_all.py:170-174 | one entry per task |
| AnalyzeAll.FetchRegionPrices | plugins/dynamodb-cost-optimizer/skills/optimize-dynamodb/scripts/analyze_all.py:158-163 | the per-region price loop equals the specification |
| AnalyzeAll.BuildTasks | plugins/dynamodb-cost-optimizer/skills/optimize-dynamodb/scripts/analyze_all.py:165-168 | the nested task loop builds exactly the region-major task list |
| AnalyzeAll.RunTasks | plugins/dynamodb-cost-optimizer/skills/optimize-dynamodb/scripts/analyze_all.py:170-174 | whatever the completion order, results[i] is task i's entry |
| AnalyzeAll.Submit | plugins/dynamodb-cost-optimizer/skills/optimize-dynamodb/scripts/analyze_all.py:172 | the future of task i holds task i's entry |
| AnalyzeAll.Collect | plugins/dynamodb-cost-optimizer/skills/optimize-dynamodb/scripts/analyze_all.py:173-174 | writing each completed future to its own index, in any completion order, fills every slot with its own result |
| AnalyzeAll.Unwrap | plugins/dynamodb-cost-optimizer/skills/optimize-dynamodb/scripts/analyze_all.py:170-176 | the filled slot list is the list of results |
| AnalyzeAll.AnalyzeAll | plugins/dynamodb-cost-optimizer/skills/optimize-dynamodb/scripts/analyze_all.py:147-176 | `analyze_all` equals the specification for every completion order the pool may choose |
| AnalyzeAll.ResultsAt | plugins/dynamodb-cost-optimizer/skills/optimize-dynamodb/scripts/analyze_all.py:170-174 | entry i is the analysis of task i |
| AnalyzeAll.RegionPricesErrorPersists | plugins/dynamodb-cost-optimizer/skills/optimize-dynamodb/scripts/analyze_all.py:159-163 | a failed price fetch aborts: later regions change nothing |
| AnalyzeAll.SuppliedPricesEverywhere | plugins/dynamodb-cost-optimizer/skills/optimize-dynamodb/scripts/analyze_all.py:160-161 | supplied prices are used for every region and nothing is fetched |
| AnalyzeAll.FetchedPricesPerRegion | plugins/dynamodb-cost-optimizer/skills/optimize-dynamodb/scripts/analyze_all.py:162-163 | without supplied prices, prices succeed iff every region's fetch does, each region getting its own |
| AnalyzeAll.TasksRegionMajor | plugins/dynamodb-cost-optimizer/skills/optimize-dynamodb/scripts/analyze_all.py:165-168 | table j of region i is task `count(regions before i) + j`: tasks are ordered by region, then table |
| AnalyzeAll.TasksCount | plugins/dynamodb-cost-optimizer/skills/optimize-dynamodb/scripts/analyze_all.py:165-168 | there is one task per table |
| AnalyzeAll.AnalyzeAllFailsIff | plugins/dynamodb-cost-optimizer/skills/optimize-dynamodb/scripts/analyze_all.py:149-171 | `analyze_all` fails iff a price fetch fails, or the pool would have no worker (no table or concurrency below 1) |
| AnalyzeAll.EveryTableReported | plugins/dynamodb-cost-optimizer/skills/optimize-dynamodb/scripts/analyze_all.py:165-176 | every task appears once among recommendations or optimised tables, and the grand total sums the table totals |
| AnalyzeAll.TotalsPermutation | plugins/dynamodb-cost-optimizer/skills/optimize-dynamodb/scripts/analyze_all.py:91-98 | reordering the tables (the sort) does not change the sum of their totals |
| AnalyzeAll.FetchedPricesLackIaCapacity | plugins/dynamodb-cost-optimizer/skills/optimize-dynamodb/scripts/analyze_all.py:162-163 | with prices from `get_pricing`, the capacity analysis of a Standard-IA table always fails: `ia_rcu_hour` is never fetched; with the metrics fetched, the error is the KeyError on `ia_read`, then `ia_write`, when missing, else on `ia_rcu_hour` unless `days` is 0 |
| GetPricing.MergeMappings | plugins/dynamodb-cost-optimizer/skills/optimize-dynamodb/scripts/get_pricing.py:57-59 | the mappings loop equals the mapping fold |
| GetPricing.MergeItem | plugins/dynamodb-cost-optimizer/skills/optimize-dynamodb/scripts/get_pricing.py:50-66 | the price-dimension loop of one item equals the fold over its prices |
| GetPricing.MergeItems | plugins/dynamodb-cost-optimizer/skills/optimize-dynamodb/scripts/get_pricing.py:43-66 | the item loop equals the fold over the items |
| GetPricing.FetchFamily | plugins/dynamodb-cost-optimizer/skills/optimize-dynamodb/scripts/get_pricing.py:28-70 | one family's page loop equals its specification, or the first failed call |
| GetPricing.GetPricing | plugins/dynamodb-cost-optimizer/skills/optimize-dynamodb/scripts/get_pricing.py:10-84 | `get_pricing` equals the specification: fold, required-name check, aliases |
| GetPricing.FetchAll | plugins/dynamodb-cost-optimizer/skills/optimize-dynamodb/scripts/get_pricing.py:15-70 | the family loop merges every family in order, or stops at the first error |
| GetPricing.FetchFamiliesStep | plugins/dynamodb-cost-optimizer/skills/optimize-dynamodb/scripts/get_pricing.py:15-70 | one more family continues from the table of the families before it |
| GetPricing.AddAliases | plugins/dynamodb-cost-optimizer/skills/optimize-dynamodb/scripts/get_pricing.py:79-82 | the `setdefault` calls give exactly the alias specification |
| GetPricing.FamiliesErrorPersists | plugins/dynamodb-cost-optimizer/skills/optimize-dynamodb/scripts/get_pricing.py:41 | a failed `get_products` call ends the fetch: later families change nothing |
| GetPricing.ApplyMappingsSpec | plugins/dynamodb-cost-optimizer/skills/optimize-dynamodb/scripts/get_pricing.py:57-59 | one positive price sets exactly the matching names not yet present, to that price, and leaves present names alone (first write wins) |
| GetPricing.IaReadItemSetsReadRequest | plugins/dynamodb-cost-optimizer/skills/optimize-dynamodb/scripts/get_pricing.py:58 | the substring test lets an item matching DDB-ReadUnitsIA set `read_request` when it is still absent |
| GetPricing.ApplyPriceGrows | plugins/dynamodb-cost-optimizer/skills/optimize-dynamodb/scripts/get_pricing.py:52-66 | a non-positive price is ignored; a positive one only adds names settable for the item, in storage the IA or standard storage name by volume type |
| GetPricing.FamilyNames | plugins/dynamodb-cost-optimizer/skills/optimize-dynamodb/scripts/get_pricing.py:15-27 | every family sets only names among the fetched ones |
| GetPricing.ApplyPricesGrows | plugins/dynamodb-cost-optimizer/skills/optimize-dynamodb/scripts/get_pricing.py:50-66 | the dimensions of an item only add positive prices under fetched names |
| GetPricing.ApplyItemsGrows | plugins/dynamodb-cost-optimizer/skills/optimize-dynamodb/scripts/get_pricing.py:43-66 | the items of a page only add positive prices under fetched names |
| GetPricing.FamilyFromGrows | plugins/dynamodb-cost-optimizer/skills/optimize-dynamodb/scripts/get_pricing.py:28-70 | every page of a family only adds positive prices under fetched names, never overwriting |
| GetPricing.FetchedPricesPositive | plugins/dynamodb-cost-optimizer/skills/optimize-dynamodb/scripts/get_pricing.py:52-66 | the fetched table holds only positive prices under fetched names |
| GetPricing.FailsIffRequiredMissing | plugins/dynamodb-cost-optimizer/skills/optimize-dynamodb/scripts/get_pricing.py:72-76 | `get_pricing` fails iff a required name is missing; on success every required name is present |
| GetPricing.AliasesOfFetched | plugins/dynamodb-cost-optimizer/skills/optimize-dynamodb/scripts/get_pricing.py:79-82 | on a fetched table the aliases copy the read/write request prices and add exactly the four alias names |
| GetPricing.IaCapacityNamesUnset | plugins/dynamodb-cost-optimizer/skills/optimize-dynamodb/scripts/get_pricing.py:15-27 | `ia_rcu_hour` and `ia_wcu_hour` are neither fetched nor aliased |
| GetPricing.AliasesCopyRequestPrices | plugins/dynamodb-cost-optimizer/skills/optimize-dynamodb/scripts/get_pricing.py:72-84 | the result's aliases equal the request prices, only fetched and alias names appear, all prices are positive, and no IA capacity-hour price is present |

## Left out

- Network and process I/O are function parameters: boto3 clients, `describe_table`, `get_metric_data`, `get_products` and the Cost Explorer call in `_check_reserved_capacity`. The reserved-capacity flag is a tri-state input.
- `parse_input`, `get_client`, `fail` and the `__main__` blocks are not modelled. `fail` in `get_pricing` becomes an `Err` value.
- discover.py is not part of this model: it only copies fields of `describe_table`.
- The thread pool's concurrency is not modelled. `ThreadPoolExecutor`/`as_completed` become a sequential submission plus a completion order taken as a parameter, and the result is proved the same for every order. The pool's refusal of zero workers is an `Err`.
- `time.sleep` does not sleep. The requested durations are recorded and stated by `CwBatch.RetryPolicy`.
- Wall-clock time and the metric window's start and end are not modelled. A datapoint's timestamp is an integer.
- Floating point and `Decimal` are not modelled: costs are exact reals, so the `Decimal(str(x))` round trips, float rounding and `round(x, 2)` of the reported savings are absent. `int(x)` is truncation toward zero (`Numeric.Trunc`).
- JSON price-list items are records of group, usage type, volume type and the on-demand dimension prices. Other fields of an item are ignored, as the script ignores them.
- Text rendering is not modelled: the box-drawing report of `format_results` (analyze_all.py lines 100-145), the `MODE_LABELS`/`CLASS_LABELS` strings, the change descriptions and the `cleanup` hints. Each recommendation is an item kind with its savings. `days` appears only in that text.
- Pagination is bounded. A paged listing that would need more than the given number of pages (`Env.pageLimit`, the `fuel` of `GetPricing`) stops with a `PageLimitExceeded` error. The scripts loop until no token comes back, so the model says nothing about listings longer than the bound.
- A price table is a map, and an absent or empty one is the empty map. A JSON `null` for `prices` is not modelled; with it the capacity and utilization analyzers would raise a TypeError rather than a KeyError.
- A multi-region request is a list of (region, tables) pairs in dictionary order, so duplicate region keys, which a JSON object cannot carry, are not modelled.
- Unused-index savings on a provisioned table use `rcu_hour`/`wcu_hour` even for Standard-IA tables, as unused_gsi.py line 66 does. The repository's analyzer tests expect the IA rates here; the model follows the code.
- AutoscalingSim.Simulate: a zero target utilisation, on which `simulate` raises ZeroDivisionError at autoscaling_sim.py line 42, is excluded by the precondition `WellDefined`. Every caller in the scripts passes the 0.7 default.
- An index description without `IndexName` (a KeyError at unused_gsi.py line 36 and utilization.py line 47) is not modelled: `Ddb.Gsi` always carries a name.
- Config.IntOf: `int()` on text is modelled for ASCII digits and the six ASCII whitespace characters. Python also accepts other Unicode digits and whitespace. The ValueError message quotes the text without Python's `repr` escaping.
- Config.IntOf: the TypeError message follows Python 3.10 and later. A non-finite float (`int(inf)`, `int(nan)`) cannot occur, because numbers are exact reals.
- UnusedGsi.SavingsFor: a request price is taken to be a float. An integer-valued JSON `write_request` price with no write samples would make the dividend the int 0, and the message `division by zero` rather than `float division by zero`.
