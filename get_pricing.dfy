/** Regional DynamoDB prices from the price list: for each product family,
    every page of items is folded into one price table in which the first
    positive price that matches a name wins; the required names are checked
    and the on-demand and standard aliases filled in. */
module GetPricing {
  import opened Wrappers
  import opened Numeric
  import opened Ddb
  import Config

  /** A usage key looked for, as a substring, in an item's group or usage type. */
  datatype Mapping = Mapping(key: string, name: string)
  datatype Family = Family(name: string, mappings: seq<Mapping>)

  const PayPerRequestFamily: Family := Family("Amazon DynamoDB PayPerRequest Throughput", [
    Mapping("DDB-WriteUnits", "write_request"),
    Mapping("DDB-ReadUnits", "read_request"),
    Mapping("DDB-WriteUnitsIA", "ia_write"),
    Mapping("DDB-ReadUnitsIA", "ia_read")])
  const ProvisionedFamily: Family := Family("Provisioned IOPS", [
    Mapping("WriteCapacityUnit-Hrs", "wcu_hour"),
    Mapping("ReadCapacityUnit-Hrs", "rcu_hour")])
  const StorageFamily: Family := Family("Database Storage", [])
  const Families: seq<Family> := [PayPerRequestFamily, ProvisionedFamily, StorageFamily]

  const Required: seq<string> := ["read_request", "write_request", "rcu_hour", "wcu_hour", "standard_storage"]
  const IaMarker: string := "- IA"

  /** Every name the fold can set. */
  const FetchedNames: set<string> := {"write_request", "read_request", "ia_write", "ia_read",
                                      "wcu_hour", "rcu_hour", "ia_storage", "standard_storage"}
  /** Every name the aliases can set. */
  const AliasNames: set<string> := {"standard_read", "standard_write", "on_demand_read", "on_demand_write"}

  /** A price-list item: its group, usage type and volume type ('' when
      absent) and the USD price of each on-demand price dimension, in order. */
  datatype Item = Item(group: string, usage: string, volume: string, dimensionPrices: seq<real>)
  datatype PricePage = PricePage(items: seq<Item>, nextToken: Option<string>)

  /** `get_products` for (region, family, continuation token). */
  type PricingService = (string, string, Option<string>) -> Result<PricePage>

  // ---------------------------------------------------------------------------
  // The fold

  predicate Matches(item: Item, m: Mapping) {
    Contains(item.group, m.key) || Contains(item.usage, m.key)
  }

  /** The `for key, name in mappings.items()` loop over the first mappings. */
  function ApplyMappings(prices: PriceTable, ms: seq<Mapping>, item: Item, p: real): PriceTable
    decreases |ms|
  {
    if ms == [] then prices
    else
      var before := ApplyMappings(prices, ms[..|ms| - 1], item, p);
      var m := ms[|ms| - 1];
      if Matches(item, m) && m.name !in before then before[m.name := p] else before
  }

  /** In the storage family, the first IA and the first other volume price. */
  function ApplyStorage(prices: PriceTable, family: Family, item: Item, p: real): PriceTable {
    if family.name != StorageFamily.name then prices
    else if Contains(item.volume, IaMarker) then
      if "ia_storage" !in prices then prices["ia_storage" := p] else prices
    else if "standard_storage" !in prices then prices["standard_storage" := p] else prices
  }

  /** One price dimension; non-positive prices are skipped. */
  function ApplyPrice(prices: PriceTable, family: Family, item: Item, p: real): PriceTable {
    if p <= 0.0 then prices
    else ApplyStorage(ApplyMappings(prices, family.mappings, item, p), family, item, p)
  }

  function ApplyPrices(prices: PriceTable, family: Family, item: Item, ps: seq<real>): PriceTable
    decreases |ps|
  {
    if ps == [] then prices
    else ApplyPrice(ApplyPrices(prices, family, item, ps[..|ps| - 1]), family, item, ps[|ps| - 1])
  }

  function ApplyItems(prices: PriceTable, family: Family, items: seq<Item>): PriceTable
    decreases |items|
  {
    if items == [] then prices
    else
      var last := items[|items| - 1];
      ApplyPrices(ApplyItems(prices, family, items[..|items| - 1]), family, last, last.dimensionPrices)
  }

  /** One family's `while True` loop from `token` on; `fuel` more pages may follow. */
  function FamilyFrom(service: PricingService, region: string, family: Family, token: Option<string>,
                      fuel: nat, prices: PriceTable): Result<PriceTable>
    decreases fuel
  {
    var page :- service(region, family.name, token);
    var prices' := ApplyItems(prices, family, page.items);
    if !Truthy(page.nextToken) then Ok(prices')
    else if fuel == 0 then Err(PageLimitExceeded)
    else FamilyFrom(service, region, family, page.nextToken, fuel - 1, prices')
  }

  /** The first n families, in order, into one table. */
  function FetchFamilies(service: PricingService, region: string, fuel: nat, n: nat): Result<PriceTable>
    requires n <= |Families|
  {
    if n == 0 then Ok(map[])
    else
      var prices :- FetchFamilies(service, region, fuel, n - 1);
      FamilyFrom(service, region, Families[n - 1], None, fuel, prices)
  }

  /** The four `setdefault` aliases. */
  function WithAliases(prices: PriceTable): PriceTable
    requires "read_request" in prices && "write_request" in prices
  {
    var read, write := prices["read_request"], prices["write_request"];
    var p1 := if "standard_read" in prices then prices else prices["standard_read" := read];
    var p2 := if "standard_write" in p1 then p1 else p1["standard_write" := write];
    var p3 := if "on_demand_read" in p2 then p2 else p2["on_demand_read" := read];
    if "on_demand_write" in p3 then p3 else p3["on_demand_write" := write]
  }

  function MissingMessage(missing: seq<string>, region: string): string {
    "Could not fetch pricing for: " + Config.Join(missing, ", ") + " in " + region
  }

  /** What `get_pricing` returns, or the error it stops with. */
  function GetPricingSpec(service: PricingService, region: string, fuel: nat): Result<PriceTable> {
    var prices :- FetchFamilies(service, region, fuel, |Families|);
    var missing := Config.Missing(Required, prices.Keys);
    if missing != [] then Err(MissingMessage(missing, region))
    else Ok(WithAliases(prices))
  }

  /** `get_pricing` as the orchestrator sees it: region to price table or error. */
  function PriceSource(service: PricingService, fuel: nat): string -> Result<PriceTable> {
    region => GetPricingSpec(service, region, fuel)
  }

  // ---------------------------------------------------------------------------
  // The loops

  method MergeMappings(prices: PriceTable, ms: seq<Mapping>, item: Item, p: real) returns (out: PriceTable)
    ensures out == ApplyMappings(prices, ms, item, p)
  {
    out := prices;
    for j := 0 to |ms|
      invariant out == ApplyMappings(prices, ms[..j], item, p)
    {
      assert ms[..j + 1][..j] == ms[..j];
      var m := ms[j];
      if (Contains(item.group, m.key) || Contains(item.usage, m.key)) && m.name !in out {
        out := out[m.name := p];
      }
    }
    assert ms[..|ms|] == ms;
  }

  /** The price-dimension loop of one item. */
  method MergeItem(prices: PriceTable, family: Family, item: Item) returns (out: PriceTable)
    ensures out == ApplyPrices(prices, family, item, item.dimensionPrices)
  {
    out := prices;
    var ps := item.dimensionPrices;
    for k := 0 to |ps|
      invariant out == ApplyPrices(prices, family, item, ps[..k])
    {
      assert ps[..k + 1][..k] == ps[..k];
      var p := ps[k];
      if p > 0.0 {
        out := MergeMappings(out, family.mappings, item, p);
        if family.name == StorageFamily.name {
          if Contains(item.volume, IaMarker) && "ia_storage" !in out {
            out := out["ia_storage" := p];
          } else if !Contains(item.volume, IaMarker) && "standard_storage" !in out {
            out := out["standard_storage" := p];
          }
        }
      }
    }
    assert ps[..|ps|] == ps;
  }

  /** The `for item in resp['PriceList']` loop. */
  method MergeItems(prices: PriceTable, family: Family, items: seq<Item>) returns (out: PriceTable)
    ensures out == ApplyItems(prices, family, items)
  {
    out := prices;
    for i := 0 to |items|
      invariant out == ApplyItems(prices, family, items[..i])
    {
      assert items[..i + 1][..i] == items[..i];
      out := MergeItem(out, family, items[i]);
    }
    assert items[..|items|] == items;
  }

  method FetchFamily(service: PricingService, region: string, family: Family, fuel: nat, prices: PriceTable)
    returns (r: Result<PriceTable>)
    ensures r == FamilyFrom(service, region, family, None, fuel, prices)
  {
    var token: Option<string> := None;
    var left := fuel;
    var acc := prices;
    while true
      invariant FamilyFrom(service, region, family, token, left, acc) == FamilyFrom(service, region, family, None, fuel, prices)
      decreases left
    {
      var page := service(region, family.name, token);
      if page.Err? {
        return Err(page.error);
      }
      acc := MergeItems(acc, family, page.value.items);
      if !Truthy(page.value.nextToken) {
        return Ok(acc);
      }
      if left == 0 {
        return Err(PageLimitExceeded);
      }
      token := page.value.nextToken;
      left := left - 1;
    }
  }

  /** `get_pricing` over the price-list service. */
  method GetPricing(service: PricingService, region: string, fuel: nat) returns (r: Result<PriceTable>)
    ensures r == GetPricingSpec(service, region, fuel)
  {
    var fetched := FetchAll(service, region, fuel);
    if fetched.Err? {
      return Err(fetched.error);
    }
    var prices := fetched.value;
    var missing := Config.Missing(Required, prices.Keys);
    if missing != [] {
      return Err(MissingMessage(missing, region));
    }
    var out := AddAliases(prices);
    return Ok(out);
  }

  /** The family loop: every family's pages merged in order, or the first error. */
  method FetchAll(service: PricingService, region: string, fuel: nat) returns (r: Result<PriceTable>)
    ensures r == FetchFamilies(service, region, fuel, |Families|)
  {
    var prices: PriceTable := map[];
    for f := 0 to |Families|
      invariant FetchFamilies(service, region, fuel, f) == Ok(prices)
    {
      var next := FetchFamily(service, region, Families[f], fuel, prices);
      FetchFamiliesStep(service, region, fuel, f, prices);
      if next.Err? {
        FamiliesErrorPersists(service, region, fuel, f + 1, |Families|);
        return Err(next.error);
      }
      prices := next.value;
    }
    return Ok(prices);
  }

  /** One more family continues from the table of the families before it. */
  lemma FetchFamiliesStep(service: PricingService, region: string, fuel: nat, f: nat, prices: PriceTable)
    requires f < |Families|
    requires FetchFamilies(service, region, fuel, f) == Ok(prices)
    ensures FetchFamilies(service, region, fuel, f + 1) == FamilyFrom(service, region, Families[f], None, fuel, prices)
  {
  }

  /** The `setdefault` calls. */
  method AddAliases(prices: PriceTable) returns (out: PriceTable)
    requires "read_request" in prices && "write_request" in prices
    ensures out == WithAliases(prices)
  {
    out := prices;
    if "standard_read" !in out { out := out["standard_read" := prices["read_request"]]; }
    if "standard_write" !in out { out := out["standard_write" := prices["write_request"]]; }
    if "on_demand_read" !in out { out := out["on_demand_read" := prices["read_request"]]; }
    if "on_demand_write" !in out { out := out["on_demand_write" := prices["write_request"]]; }
  }

  lemma {:induction false} FamiliesErrorPersists(service: PricingService, region: string, fuel: nat, k: nat, n: nat)
    requires k <= n <= |Families|
    requires FetchFamilies(service, region, fuel, k).Err?
    ensures FetchFamilies(service, region, fuel, n) == FetchFamilies(service, region, fuel, k)
    decreases n
  {
    if n > k {
      FamiliesErrorPersists(service, region, fuel, k, n - 1);
    }
  }

  // ---------------------------------------------------------------------------
  // Properties

  /** Some mapping among `ms` names `k` and matches the item. */
  predicate NamedMatch(ms: seq<Mapping>, item: Item, k: string) {
    exists j :: 0 <= j < |ms| && ms[j].name == k && Matches(item, ms[j])
  }

  /** One positive price sets exactly the matching names not yet present, to
      that price, and leaves every present name alone. */
  lemma {:induction false} ApplyMappingsSpec(prices: PriceTable, ms: seq<Mapping>, item: Item, p: real)
    ensures var out := ApplyMappings(prices, ms, item, p);
      && (forall k :: k in out <==> k in prices || NamedMatch(ms, item, k))
      && (forall k :: k in prices ==> out[k] == prices[k])
      && (forall k :: k in out && k !in prices ==> out[k] == p)
    decreases |ms|
  {
    if ms != [] {
      var init := ms[..|ms| - 1];
      ApplyMappingsSpec(prices, init, item, p);
      forall k ensures NamedMatch(ms, item, k) <==> NamedMatch(init, item, k) || (ms[|ms| - 1].name == k && Matches(item, ms[|ms| - 1])) {
        if NamedMatch(init, item, k) {
          var j :| 0 <= j < |init| && init[j].name == k && Matches(item, init[j]);
          assert ms[j] == init[j];
        }
        if NamedMatch(ms, item, k) {
          var j :| 0 <= j < |ms| && ms[j].name == k && Matches(item, ms[j]);
          if j < |init| {
            assert init[j] == ms[j];
          }
        }
      }
    }
  }

  /** `'DDB-ReadUnits' in group` also holds for an IA read item, so such an
      item sets `read_request` when no standard read price came first. */
  lemma IaReadItemSetsReadRequest(prices: PriceTable, item: Item, p: real)
    requires p > 0.0
    requires Contains(item.group, "DDB-ReadUnitsIA")
    requires "read_request" !in prices
    ensures var out := ApplyPrice(prices, PayPerRequestFamily, item, p);
      "read_request" in out && out["read_request"] == p
  {
    var i :| OccursAt(item.group, "DDB-ReadUnitsIA", i);
    assert item.group[i..i + 13] == item.group[i..i + 15][..13];
    assert OccursAt(item.group, "DDB-ReadUnits", i);
    var ms := PayPerRequestFamily.mappings;
    assert ms[1].name == "read_request" && Matches(item, ms[1]);
    ApplyMappingsSpec(prices, ms, item, p);
  }

  function MappingNames(ms: seq<Mapping>): set<string> {
    set m | m in ms :: m.name
  }

  /** The names a price of this item can set in this family. */
  function SettableNames(family: Family, item: Item): set<string> {
    MappingNames(family.mappings)
      + if family.name != StorageFamily.name then {}
        else if Contains(item.volume, IaMarker) then {"ia_storage"} else {"standard_storage"}
  }

  /** `after` keeps every price of `before` and adds only positive prices
      under names in `names`. */
  predicate Grows(before: PriceTable, after: PriceTable, names: set<string>) {
    && (forall k :: k in before ==> k in after && after[k] == before[k])
    && (forall k :: k in after && k !in before ==> k in names && after[k] > 0.0)
  }

  lemma GrowsTrans(a: PriceTable, b: PriceTable, c: PriceTable, names: set<string>)
    requires Grows(a, b, names) && Grows(b, c, names)
    ensures Grows(a, c, names)
  {
  }

  /** One price dimension: skipped when not positive; otherwise it only adds
      names settable for the item, in the storage family the IA or the
      standard storage price as the volume type says. */
  lemma ApplyPriceGrows(prices: PriceTable, family: Family, item: Item, p: real)
    ensures p <= 0.0 ==> ApplyPrice(prices, family, item, p) == prices
    ensures Grows(prices, ApplyPrice(prices, family, item, p), SettableNames(family, item))
  {
    if p > 0.0 {
      ApplyMappingsSpec(prices, family.mappings, item, p);
      var mid := ApplyMappings(prices, family.mappings, item, p);
      forall k | k in mid && k !in prices ensures k in MappingNames(family.mappings) {
        var j :| 0 <= j < |family.mappings| && family.mappings[j].name == k && Matches(item, family.mappings[j]);
        assert family.mappings[j] in family.mappings;
      }
    }
  }

  lemma FamilyNames(family: Family, item: Item)
    requires family in Families
    ensures SettableNames(family, item) <= FetchedNames
  {
    forall k | k in MappingNames(family.mappings) ensures k in FetchedNames {
      var m :| m in family.mappings && m.name == k;
    }
  }

  lemma {:induction false} ApplyPricesGrows(prices: PriceTable, family: Family, item: Item, ps: seq<real>)
    requires family in Families
    ensures Grows(prices, ApplyPrices(prices, family, item, ps), FetchedNames)
    decreases |ps|
  {
    if ps != [] {
      var mid := ApplyPrices(prices, family, item, ps[..|ps| - 1]);
      ApplyPricesGrows(prices, family, item, ps[..|ps| - 1]);
      ApplyPriceGrows(mid, family, item, ps[|ps| - 1]);
      FamilyNames(family, item);
      GrowsTrans(prices, mid, ApplyPrices(prices, family, item, ps), FetchedNames);
    }
  }

  lemma {:induction false} ApplyItemsGrows(prices: PriceTable, family: Family, items: seq<Item>)
    requires family in Families
    ensures Grows(prices, ApplyItems(prices, family, items), FetchedNames)
    decreases |items|
  {
    if items != [] {
      var last := items[|items| - 1];
      var mid := ApplyItems(prices, family, items[..|items| - 1]);
      ApplyItemsGrows(prices, family, items[..|items| - 1]);
      ApplyPricesGrows(mid, family, last, last.dimensionPrices);
      GrowsTrans(prices, mid, ApplyItems(prices, family, items), FetchedNames);
    }
  }

  lemma {:induction false} FamilyFromGrows(service: PricingService, region: string, family: Family,
                                           token: Option<string>, fuel: nat, prices: PriceTable)
    requires family in Families
    requires FamilyFrom(service, region, family, token, fuel, prices).Ok?
    ensures Grows(prices, FamilyFrom(service, region, family, token, fuel, prices).value, FetchedNames)
    decreases fuel
  {
    var page := service(region, family.name, token).value;
    var mid := ApplyItems(prices, family, page.items);
    ApplyItemsGrows(prices, family, page.items);
    if Truthy(page.nextToken) {
      FamilyFromGrows(service, region, family, page.nextToken, fuel - 1, mid);
      GrowsTrans(prices, mid, FamilyFrom(service, region, family, token, fuel, prices).value, FetchedNames);
    }
  }

  /** First write wins across every family, page, item and dimension: the
      fetched table holds only positive prices under the fetched names. */
  lemma {:induction false} FetchedPricesPositive(service: PricingService, region: string, fuel: nat, n: nat)
    requires n <= |Families|
    requires FetchFamilies(service, region, fuel, n).Ok?
    ensures Grows(map[], FetchFamilies(service, region, fuel, n).value, FetchedNames)
  {
    if n > 0 {
      var prev := FetchFamilies(service, region, fuel, n - 1).value;
      var family := Families[n - 1];
      var next := FamilyFrom(service, region, family, None, fuel, prev);
      assert FetchFamilies(service, region, fuel, n) == next;
      FetchedPricesPositive(service, region, fuel, n - 1);
      assert family in Families;
      FamilyFromGrows(service, region, family, None, fuel, prev);
      GrowsTrans(map[], prev, next.value, FetchedNames);
    }
  }

  /** `get_pricing` fails, once every page has been read, exactly when a
      required price is missing; otherwise every required name is present. */
  lemma FailsIffRequiredMissing(service: PricingService, region: string, fuel: nat)
    requires FetchFamilies(service, region, fuel, |Families|).Ok?
    ensures var prices := FetchFamilies(service, region, fuel, |Families|).value;
      && (GetPricingSpec(service, region, fuel).Err? <==> exists k :: k in Required && k !in prices)
      && (GetPricingSpec(service, region, fuel).Ok? ==>
            forall k :: k in Required ==> k in GetPricingSpec(service, region, fuel).value)
  {
  }

  /** On a fetched table (only positive prices, no alias names) the aliases
      copy the request prices and add nothing else. */
  lemma AliasesOfFetched(prices: PriceTable)
    requires "read_request" in prices && "write_request" in prices
    requires Grows(map[], prices, FetchedNames)
    ensures var r := WithAliases(prices);
      && r["standard_read"] == r["on_demand_read"] == prices["read_request"]
      && r["standard_write"] == r["on_demand_write"] == prices["write_request"]
      && r.Keys == prices.Keys + AliasNames
      && (forall k :: k in prices ==> r[k] == prices[k])
      && (forall k :: k in r ==> r[k] > 0.0)
  {
    assert "standard_read" !in prices && "standard_write" !in prices;
    assert "on_demand_read" !in prices && "on_demand_write" !in prices;
  }

  /** The IA capacity-hour names are neither fetched nor aliased (every
      other name has a different length). */
  lemma IaCapacityNamesUnset()
    ensures Config.IaKeys.rcu !in FetchedNames + AliasNames
    ensures Config.IaKeys.wcu !in FetchedNames + AliasNames
  {
    assert |Config.IaKeys.rcu| == 11 && |Config.IaKeys.wcu| == 11;
    assert forall k :: k in FetchedNames + AliasNames ==> |k| != 11;
  }

  /** The fetched table is never given an alias name, so every alias copies
      the request price; the IA capacity-hour names are never set. */
  lemma AliasesCopyRequestPrices(service: PricingService, region: string, fuel: nat)
    requires GetPricingSpec(service, region, fuel).Ok?
    ensures var r := GetPricingSpec(service, region, fuel).value;
      && r["standard_read"] == r["on_demand_read"] == r["read_request"]
      && r["standard_write"] == r["on_demand_write"] == r["write_request"]
      && r.Keys <= FetchedNames + AliasNames
      && Config.IaKeys.rcu !in r && Config.IaKeys.wcu !in r
      && forall k :: k in r ==> r[k] > 0.0
  {
    IaCapacityNamesUnset();
    var prices := FetchFamilies(service, region, fuel, |Families|).value;
    FetchedPricesPositive(service, region, fuel, |Families|);
    assert Config.Missing(Required, prices.Keys) == [];
    assert Required[0] in prices && Required[1] in prices;
    assert GetPricingSpec(service, region, fuel) == Ok(WithAliases(prices));
    AliasesOfFetched(prices);
  }
}
