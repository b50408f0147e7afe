/** The shared vocabulary of the analyzers: the part of a `describe_table`
    response they read, the price table they are given and the metric series
    CloudWatch returns for each query id. */
module Ddb {
  import opened Wrappers

  /** Price name (`read_request`, `rcu_hour`, `standard_storage`, ...) to USD per unit. */
  type PriceTable = map<string, real>

  /** Metric values per query id, in timestamp order. */
  type MetricMap = map<string, seq<real>>

  /** `ReadCapacityUnits` / `WriteCapacityUnits` of a `ProvisionedThroughput` block. */
  datatype Throughput = Throughput(read: nat, write: nat)

  /** One entry of `GlobalSecondaryIndexes`; its `ProvisionedThroughput` may be absent. */
  datatype Gsi = Gsi(name: string, provisioned: Option<Throughput>)

  /** The fields of `describe_table(...)['Table']` the analyzers look at.
      `sizeBytes` holds `TableSizeBytes`, which the analyzers default to 0. */
  datatype TableInfo = TableInfo(
    billingMode: Option<string>,
    provisioned: Option<Throughput>,
    tableClass: Option<string>,
    sizeBytes: nat,
    gsis: seq<Gsi>)

  const PayPerRequest: string := "PAY_PER_REQUEST"
  const Provisioned: string := "PROVISIONED"
  const OnDemand: string := "ON_DEMAND"
  const Standard: string := "STANDARD"
  const StandardIa: string := "STANDARD_INFREQUENT_ACCESS"

  /** `BillingModeSummary.BillingMode`, defaulting to PROVISIONED. */
  function BillingMode(info: TableInfo): string {
    info.billingMode.GetOr(Provisioned)
  }

  /** `TableClassSummary.TableClass`, defaulting to STANDARD. */
  function TableClass(info: TableInfo): string {
    info.tableClass.GetOr(Standard)
  }

  /** One query of a GetMetricData batch: `{id, table, gsi?, metric, period, stat}`. */
  datatype MetricQuery = MetricQuery(id: string, table: string, gsi: Option<string>, metric: string, period: nat, stat: string)

  /** `batch_get_metrics` as seen by an analyzer: the values per query id for
      a list of queries, or the exception the CloudWatch calls raised. */
  type CloudWatch = seq<MetricQuery> -> Result<MetricMap>

  const ConsumedRead: string := "ConsumedReadCapacityUnits"
  const ConsumedWrite: string := "ConsumedWriteCapacityUnits"

  /** The metrics are 5-minute sums; dividing by 300 gives units per second. */
  const PeriodSeconds: real := 300.0

  /** `[v / 300 for v in xs]`. */
  function PerSecond(xs: seq<real>): (r: seq<real>)
    ensures |r| == |xs|
    ensures forall i :: 0 <= i < |xs| ==> r[i] == xs[i] / PeriodSeconds
  {
    seq(|xs|, i requires 0 <= i < |xs| => xs[i] / PeriodSeconds)
  }

  /** `metrics.get(id, [])`. */
  function Series(m: MetricMap, id: string): seq<real> {
    if id in m then m[id] else []
  }

  /** The text of the KeyError raised by `prices[key]`. */
  function KeyError(key: string): string {
    "'" + key + "'"
  }

  /** `prices[key]`, which raises KeyError when the name is absent. */
  function Price(prices: PriceTable, key: string): (r: Result<real>)
    ensures r.Ok? <==> key in prices
    ensures r.Ok? ==> r.value == prices[key]
  {
    if key in prices then Ok(prices[key]) else Err(KeyError(key))
  }

  /** `prices.get(key, default)`. */
  function PriceOr(prices: PriceTable, key: string, default: real): real {
    if key in prices then prices[key] else default
  }

  /** Every price in the table is non-negative. */
  predicate NonNegativePrices(prices: PriceTable) {
    forall k :: k in prices ==> prices[k] >= 0.0
  }

  /** Every datapoint of every series is non-negative, as consumed and
      provisioned capacity are. */
  predicate NonNegativeMetrics(metrics: MetricMap) {
    forall id, j :: id in metrics && 0 <= j < |metrics[id]| ==> metrics[id][j] >= 0.0
  }

  /** Python truthiness of an optional string: present and non-empty. */
  predicate Truthy(s: Option<string>) {
    s.Some? && s.value != ""
  }

  /** The error a paged listing reports when it would need more pages than
      its bound allows. */
  const PageLimitExceeded: string := "page limit exceeded"
}
