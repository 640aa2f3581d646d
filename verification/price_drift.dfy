/** The price-drift validator (scripts/validate_costs.py): it builds one price
    check per rate listed in a tier of the cost table, looks the rate up in the
    billing catalog's SKU list for the check's service (fetching each service's
    list at most once), classifies the comparison, and rolls the statuses up
    into a tier status and the process exit code. */
module PriceDrift {
  import opened Wrappers
  import opened Text
  import opened CostTables

  const HoursPerMonth: real := 730.0

  // ================================================================ catalog records

  /** `unitPrice`: a whole number of units plus nanos (billionths). An absent
      `units` or `nanos` is 0. */
  datatype Money = Money(units: int, nanos: int)

  /** `pricingInfo[k].pricingExpression`: its usage unit ("" when absent) and
      tiered rates (empty when absent). */
  datatype PricingInfo = PricingInfo(usageUnit: string, tieredRates: seq<Money>)

  /** A catalog SKU. Absent text fields are "" (every reader compares them
      with a non-empty constant or reads them through `.get(k, "")`). */
  datatype Sku = Sku(
    description: string,
    usageType: string,        // category.usageType
    resourceFamily: string,   // category.resourceFamily
    serviceRegions: seq<string>,
    pricingInfo: seq<PricingInfo>)

  function MoneyValue(m: Money): real {
    m.units as real + m.nanos as real / 1000000000.0
  }

  /** The rate and usage unit of a SKU's first pricing entry and first tier, or
      None when there is no pricing entry or the first one has no tiers. */
  function ExtractRate(sku: Sku): (r: Option<(real, string)>)
    ensures r.None? <==> |sku.pricingInfo| == 0 || |sku.pricingInfo[0].tieredRates| == 0
    ensures r.Some? ==> r.value.1 == sku.pricingInfo[0].usageUnit
    ensures r.Some? ==> r.value.0 == MoneyValue(sku.pricingInfo[0].tieredRates[0])
  {
    if |sku.pricingInfo| == 0 then None
    else
      var expr := sku.pricingInfo[0];
      if |expr.tieredRates| == 0 then None
      else Some((MoneyValue(expr.tieredRates[0]), expr.usageUnit))
  }

  /** The units + nanos encoding is read back exactly: for nanos in range the
      decoded rate has `units` as its whole part and `nanos` billionths above it. */
  lemma MoneyValueDecodes(m: Money)
    requires 0 <= m.nanos < 1000000000
    ensures MoneyValue(m).Floor == m.units
    ensures (MoneyValue(m) - m.units as real) * 1000000000.0 == m.nanos as real
  {
    var f := m.nanos as real / 1000000000.0;
    assert 0.0 <= f < 1.0;
    assert (m.units as real + f).Floor == m.units;
  }

  /** Rate per hour: hourly rates pass through, monthly ones are divided by 730,
      and any other unit passes through unchanged. */
  function ToHourly(rate: real, unit: string): (r: real)
    ensures unit == "mo" ==> r * HoursPerMonth == rate
    ensures unit != "mo" ==> r == rate
  {
    if unit == "h" then rate
    else if unit == "mo" then rate / HoursPerMonth
    else rate
  }

  // ================================================================ rounding and drift

  /** Python's `round(x)` on an exact value: the nearest integer, ties to even. */
  function RoundHalfEven(x: real): (n: int)
    ensures x - 0.5 <= n as real <= x + 0.5
    ensures (n as real == x - 0.5 || n as real == x + 0.5) ==> n % 2 == 0
  {
    var f := x.Floor;
    var frac := x - f as real;
    if frac < 0.5 then f
    else if frac > 0.5 then f + 1
    else if f % 2 == 0 then f
    else f + 1
  }

  /** `10 ** d` as an integer. */
  function TenTo(d: nat): (n: nat)
    ensures n >= 1
  {
    if d == 0 then 1 else 10 * TenTo(d - 1)
  }

  /** The scale of the `d`-th decimal place, `10 ** d` as a real. */
  function Pow10(d: nat): (p: real)
    ensures p >= 1.0
  {
    TenTo(d) as real
  }

  /** Python's `round(x, digits)` on an exact value: the scaled value rounded
      half-even, so within half a unit of the last kept digit. */
  function RoundTo(x: real, digits: nat): (r: real)
    ensures r * Pow10(digits) == RoundHalfEven(x * Pow10(digits)) as real
    ensures -0.5 <= (r - x) * Pow10(digits) <= 0.5
  {
    ScaledBack(RoundHalfEven(x * Pow10(digits)) as real, x, Pow10(digits));
    RoundHalfEven(x * Pow10(digits)) as real / Pow10(digits)
  }

  lemma ScaledBack(a: real, x: real, p: real)
    requires p >= 1.0
    ensures (a / p) * p == a
    ensures (a / p - x) * p == a - x * p
  {
    assert (a / p) * p == a;
  }

  function Abs(x: real): real {
    if x < 0.0 then -x else x
  }

  /** Drift of `actual` from `expected`, in percent. A zero expectation drifts
      0% from a zero price and 100% from any other. */
  function DriftPct(expected: real, actual: real): (d: real)
    ensures expected == 0.0 && actual == 0.0 ==> d == 0.0
    ensures expected == 0.0 && actual != 0.0 ==> d == 100.0
    ensures expected != 0.0 ==> d * expected == Abs(actual - expected) * 100.0
  {
    if expected == 0.0 then (if actual == 0.0 then 0.0 else 100.0)
    else Abs(actual - expected) / expected * 100.0
  }

  /** Expected 0.10 against a catalog price of 0.15 drifts 50%; against 0.101 it drifts 1%. */
  lemma DriftExamples()
    ensures DriftPct(0.10, 0.15) == 50.0
    ensures DriftPct(0.10, 0.101) == 1.0
  {
  }

  // ================================================================ matching

  /** The geographic label used in Compute Engine SKU descriptions; "Americas"
      for any region not in the table. */
  function Geo(region: string): string {
    if region in {"us-central1", "us-east1", "us-east4", "us-west1", "us-west2"} then "Americas"
    else if region in {"europe-west1", "europe-west2"} then "EMEA"
    else if region in {"asia-east1", "asia-southeast1"} then "Asia Pacific"
    else "Americas"
  }

  datatype MachineSpec = MachineSpec(vcpus: int, ramGb: int)

  function MachineSpecs(machineType: string): Option<MachineSpec> {
    if machineType == "e2-standard-2" then Some(MachineSpec(2, 8))
    else if machineType == "e2-standard-4" then Some(MachineSpec(4, 16))
    else if machineType == "e2-standard-8" then Some(MachineSpec(8, 32))
    else None
  }

  /** The billing-catalog service identifier of each service a check can name. */
  function ServiceId(service: string): Option<string> {
    if service == "compute" then Some("6F81-5844-456A")
    else if service == "cloud_sql" then Some("9662-B51E-5089")
    else if service == "spanner" then Some("C3BE-E88D-984E")
    else if service == "gke" then Some("6F2A-2C47-BC52")
    else None
  }

  /** The six SKU predicates a check can carry, with the values each captures. */
  datatype Matcher =
    | ClusterMgmtFee
    | E2Cpu(geo: string)
    | E2Ram(geo: string)
    | ForwardingRule(region: string, geo: string)
    | CloudSqlInstance(keywords: seq<string>, region: string)
    | SpannerUnits

  /** Python's `any(r in sr for sr in serviceRegions)`. */
  predicate InAnyRegion(region: string, serviceRegions: seq<string>) {
    exists i :: 0 <= i < |serviceRegions| && Contains(serviceRegions[i], region)
  }

  predicate Matches(m: Matcher, s: Sku) {
    var d := Lower(s.description);
    var onDemand := s.usageType == "OnDemand";
    match m
    case ClusterMgmtFee =>
      Contains(d, "cluster management fee") && onDemand
    case E2Cpu(g) =>
      Contains(d, "e2 instance core") && Contains(d, Lower(g)) && onDemand && s.resourceFamily == "Compute"
    case E2Ram(g) =>
      Contains(d, "e2 instance ram") && Contains(d, Lower(g)) && onDemand && s.resourceFamily == "Compute"
    case ForwardingRule(r, g) =>
      && Contains(d, "forwarding rule") && onDemand && s.resourceFamily == "Network"
      && !Contains(d, "additional")
      && (InAnyRegion(r, s.serviceRegions) || Contains(d, Lower(g)))
    case CloudSqlInstance(keywords, r) =>
      && (forall k :: k in keywords ==> Contains(d, Lower(k)))
      && Contains(d, "mysql") && onDemand && InAnyRegion(r, s.serviceRegions)
    case SpannerUnits =>
      Contains(d, "processing") && Contains(d, "unit") && Contains(d, "regional") && onDemand
  }

  /** `[s for s in skus if match_fn(s)]`. */
  function MatchingSkus(skus: seq<Sku>, m: Matcher): seq<Sku> {
    if |skus| == 0 then []
    else if Matches(m, skus[0]) then [skus[0]] + MatchingSkus(skus[1..], m)
    else MatchingSkus(skus[1..], m)
  }

  /** The first matching SKU, if any (`matches[0] if matches else None`). */
  function FindSku(skus: seq<Sku>, m: Matcher): Option<Sku> {
    var matches := MatchingSkus(skus, m);
    if |matches| > 0 then Some(matches[0]) else None
  }

  /** FindSku returns the earliest SKU in list order that satisfies the
      predicate, and None exactly when no SKU does. */
  lemma {:induction false} FindSkuIsFirstMatch(skus: seq<Sku>, m: Matcher)
    ensures FindSku(skus, m).None? <==> forall i :: 0 <= i < |skus| ==> !Matches(m, skus[i])
    ensures FindSku(skus, m).Some? ==>
      exists i :: 0 <= i < |skus| && skus[i] == FindSku(skus, m).value && Matches(m, skus[i])
                  && forall j :: 0 <= j < i ==> !Matches(m, skus[j])
  {
    if |skus| > 0 && !Matches(m, skus[0]) {
      FindSkuIsFirstMatch(skus[1..], m);
      assert FindSku(skus, m) == FindSku(skus[1..], m);
      if FindSku(skus, m).Some? {
        var i :| 0 <= i < |skus[1..]| && skus[1..][i] == FindSku(skus, m).value && Matches(m, skus[1..][i])
                 && forall j :: 0 <= j < i ==> !Matches(m, skus[1..][j]);
        NoMatchBeforeShifted(skus, m, i);
      } else {
        NoMatchBeforeShifted(skus, m, |skus| - 1);
      }
    }
  }

  /** No match in the first `n` SKUs of the tail and none at the head: no
      match in the first `n + 1` SKUs. */
  lemma NoMatchBeforeShifted(skus: seq<Sku>, m: Matcher, n: nat)
    requires n < |skus| && !Matches(m, skus[0])
    requires forall j :: 0 <= j < n ==> !Matches(m, skus[1..][j])
    ensures forall j :: 0 <= j < n + 1 ==> !Matches(m, skus[j])
    ensures n < |skus| - 1 ==> skus[n + 1] == skus[1..][n]
  {
    forall j | 0 <= j < n + 1 ensures !Matches(m, skus[j]) {
      if j > 0 { assert skus[j] == skus[1..][j - 1]; }
    }
  }

  // ================================================================ checks

  /** The six rates a tier can list, in the order their checks are built. */
  datatype Component = Mgmt | Cpu | Ram | Rule | Sql | Spanner

  function Rank(c: Component): nat {
    match c
    case Mgmt => 0
    case Cpu => 1
    case Ram => 2
    case Rule => 3
    case Sql => 4
    case Spanner => 5
  }

  /** A price check: the rate the table lists, the service whose SKUs hold the
      live price, the SKU predicate, and the factor applied to the live rate. */
  datatype Check = Check(
    component: string,
    kind: Component,
    expected: real,
    service: string,
    matcher: Matcher,
    scale: int)

  /** The rate of component `c` that the tier lists, if it lists one. */
  function ListedRate(tier: TierCosts, c: Component): Option<real> {
    match c
    case Mgmt => tier.shared.mgmtHourly
    case Cpu => tier.shared.perNodeCpu
    case Ram => tier.shared.perNodeRam
    case Rule => tier.shared.perRuleHourly
    case Sql => tier.trillian.sqlHourly
    case Spanner => tier.tesseract.spannerHourly
  }

  function MachineTypeOf(tier: TierCosts): string {
    tier.machineType.GetOr("e2-standard-2")
  }

  /** vCPUs and RAM of the tier's node type; an unknown type counts as 2 vCPU / 8 GB. */
  function NodeSpec(tier: TierCosts): MachineSpec {
    MachineSpecs(MachineTypeOf(tier)).GetOr(MachineSpec(2, 8))
  }

  function SpannerUnitsOf(tier: TierCosts): int {
    tier.tesseract.processingUnits.GetOr(100)
  }

  /** The description keywords a Cloud SQL tier name stands for. */
  function SqlKeywords(sqlTier: string): seq<string> {
    if Contains(sqlTier, "micro") then ["micro"]
    else if sqlTier == "db-n1-standard-1" then ["1 vCPU"]
    else if sqlTier == "db-n1-standard-2" then ["2 vCPU"]
    else [sqlTier]
  }

  function CheckFor(tier: TierCosts, region: string, c: Component, expected: real): (r: Check)
    ensures r.kind == c && r.expected == expected
  {
    var geo := Geo(region);
    var machineType := MachineTypeOf(tier);
    match c
    case Mgmt => Check("GKE Cluster Management", c, expected, "gke", ClusterMgmtFee, 1)
    case Cpu => Check(machineType + " CPU/node", c, expected, "compute", E2Cpu(geo), NodeSpec(tier).vcpus)
    case Ram => Check(machineType + " RAM/node", c, expected, "compute", E2Ram(geo), NodeSpec(tier).ramGb)
    case Rule => Check("Forwarding Rule", c, expected, "compute", ForwardingRule(region, geo), 1)
    case Sql =>
      var sqlTier := tier.trillian.sqlTier.GetOr("");
      Check("Cloud SQL " + sqlTier, c, expected, "cloud_sql", CloudSqlInstance(SqlKeywords(sqlTier), region), 1)
    case Spanner =>
      var pus := SpannerUnitsOf(tier);
      Check("Spanner " + IntToString(pus) + " PU", c, expected, "spanner", SpannerUnits, pus)
  }

  /** `ch` is the check built from the rate the tier lists for its component. */
  predicate BuiltFromListed(tier: TierCosts, region: string, ch: Check) {
    ListedRate(tier, ch.kind).Some? && ch == CheckFor(tier, region, ch.kind, ListedRate(tier, ch.kind).value)
  }

  function CheckIfListed(tier: TierCosts, region: string, c: Component): (r: seq<Check>)
    ensures |r| <= 1
    ensures |r| == 1 <==> ListedRate(tier, c).Some?
    ensures |r| == 1 ==> r[0].kind == c && BuiltFromListed(tier, region, r[0])
  {
    match ListedRate(tier, c)
    case Some(rate) => [CheckFor(tier, region, c, rate)]
    case None => []
  }

  /** The order in which the validator builds its checks. */
  const ComponentOrder: seq<Component> := [Mgmt, Cpu, Ram, Rule, Sql, Spanner]

  /** The checks for the listed rates among `cs`, in the order of `cs`. */
  function ChecksFor(tier: TierCosts, region: string, cs: seq<Component>): seq<Check>
    decreases |cs|
  {
    if |cs| == 0 then [] else CheckIfListed(tier, region, cs[0]) + ChecksFor(tier, region, cs[1..])
  }

  /** The checks for one tier: a check exactly for each rate the tier lists,
      at most six, in the fixed component order mgmt, CPU, RAM, forwarding
      rule, Cloud SQL, Spanner, each built from its listed rate. */
  function BuildChecks(tier: TierCosts, region: string): (checks: seq<Check>)
    ensures |checks| <= 6
    ensures StrictlyRanked(Kinds(checks))
    ensures forall c :: c in Kinds(checks) <==> ListedRate(tier, c).Some?
    ensures forall ch :: ch in checks ==> BuiltFromListed(tier, region, ch)
  {
    ComponentOrderComplete();
    ChecksForAll(tier, region, ComponentOrder);
    ChecksFor(tier, region, ComponentOrder)
  }

  predicate StrictlyRanked(cs: seq<Component>) {
    forall i, j :: 0 <= i < j < |cs| ==> Rank(cs[i]) < Rank(cs[j])
  }

  function Kinds(checks: seq<Check>): (ks: seq<Component>)
    ensures |ks| == |checks| && forall i :: 0 <= i < |checks| ==> ks[i] == checks[i].kind
  {
    seq(|checks|, i requires 0 <= i < |checks| => checks[i].kind)
  }

  lemma KindsAppend(a: seq<Check>, b: seq<Check>)
    ensures Kinds(a + b) == Kinds(a) + Kinds(b)
  {
  }

  /** Every check ChecksFor builds is the check of a listed rate. */
  lemma {:induction false} ChecksForEntries(tier: TierCosts, region: string, cs: seq<Component>)
    ensures forall ch :: ch in ChecksFor(tier, region, cs) ==> BuiltFromListed(tier, region, ch)
    decreases |cs|
  {
    if |cs| > 0 {
      ChecksForEntries(tier, region, cs[1..]);
      var head := CheckIfListed(tier, region, cs[0]);
      var rest := ChecksFor(tier, region, cs[1..]);
      assert ChecksFor(tier, region, cs) == head + rest;
      if |head| == 1 {
        assert BuiltFromListed(tier, region, head[0]);
      }
    }
  }

  /** A component has a check exactly when it is among `cs` and the tier lists its rate. */
  lemma {:induction false} ChecksForKinds(tier: TierCosts, region: string, cs: seq<Component>)
    ensures |ChecksFor(tier, region, cs)| <= |cs|
    ensures forall c :: c in Kinds(ChecksFor(tier, region, cs)) <==> c in cs && ListedRate(tier, c).Some?
    decreases |cs|
  {
    if |cs| > 0 {
      ChecksForKinds(tier, region, cs[1..]);
      var head := CheckIfListed(tier, region, cs[0]);
      var rest := ChecksFor(tier, region, cs[1..]);
      KindsAppend(head, rest);
      assert cs == [cs[0]] + cs[1..];
      assert Kinds(head) == if ListedRate(tier, cs[0]).Some? then [cs[0]] else [];
    }
  }

  lemma HeadRankIsLeast(cs: seq<Component>, c: Component)
    requires |cs| > 0 && StrictlyRanked(cs) && c in cs[1..]
    ensures Rank(cs[0]) < Rank(c)
  {
    var m :| 0 <= m < |cs[1..]| && cs[1..][m] == c;
    assert cs[m + 1] == c;
  }

  /** Prepending a component ranked below all others keeps a ranked sequence ranked. */
  lemma ConsRanked(k: Component, ks: seq<Component>)
    requires StrictlyRanked(ks) && forall x :: x in ks ==> Rank(k) < Rank(x)
    ensures StrictlyRanked([k] + ks)
  {
    var r := [k] + ks;
    forall a, b | 0 <= a < b < |r| ensures Rank(r[a]) < Rank(r[b]) {
      assert r[b] == ks[b - 1];
      if a > 0 {
        assert r[a] == ks[a - 1];
      } else {
        assert ks[b - 1] in ks;
      }
    }
  }

  /** The checks come in the order of `cs` when `cs` is strictly ordered by rank. */
  lemma {:induction false} ChecksForRanked(tier: TierCosts, region: string, cs: seq<Component>)
    requires StrictlyRanked(cs)
    ensures StrictlyRanked(Kinds(ChecksFor(tier, region, cs)))
    decreases |cs|
  {
    if |cs| > 0 {
      assert StrictlyRanked(cs[1..]);
      ChecksForRanked(tier, region, cs[1..]);
      ChecksForKinds(tier, region, cs[1..]);
      var head := CheckIfListed(tier, region, cs[0]);
      var rest := ChecksFor(tier, region, cs[1..]);
      KindsAppend(head, rest);
      var kr := Kinds(rest);
      if |head| == 1 {
        assert Kinds(head) == [cs[0]];
        forall x | x in kr ensures Rank(cs[0]) < Rank(x) {
          HeadRankIsLeast(cs, x);
        }
        ConsRanked(cs[0], kr);
      } else {
        assert Kinds(head) == [];
        assert Kinds(head) + kr == kr;
      }
    }
  }

  /** The fixed component order names every component once, by rank. */
  lemma ComponentOrderComplete()
    ensures |ComponentOrder| == 6 && StrictlyRanked(ComponentOrder)
    ensures forall c: Component :: c in ComponentOrder
  {
    forall c: Component ensures c in ComponentOrder {
      match c
      case Mgmt => assert ComponentOrder[0] == c;
      case Cpu => assert ComponentOrder[1] == c;
      case Ram => assert ComponentOrder[2] == c;
      case Rule => assert ComponentOrder[3] == c;
      case Sql => assert ComponentOrder[4] == c;
      case Spanner => assert ComponentOrder[5] == c;
    }
  }

  /** Over a ranked sequence naming every component, ChecksFor emits a check
      exactly for each listed rate, in rank order, each built from its rate. */
  lemma ChecksForAll(tier: TierCosts, region: string, cs: seq<Component>)
    requires |cs| == 6 && StrictlyRanked(cs)
    requires forall c: Component :: c in cs
    ensures |ChecksFor(tier, region, cs)| <= 6
    ensures StrictlyRanked(Kinds(ChecksFor(tier, region, cs)))
    ensures forall c :: c in Kinds(ChecksFor(tier, region, cs)) <==> ListedRate(tier, c).Some?
    ensures forall ch :: ch in ChecksFor(tier, region, cs) ==> BuiltFromListed(tier, region, ch)
  {
    ChecksForEntries(tier, region, cs);
    ChecksForKinds(tier, region, cs);
    ChecksForRanked(tier, region, cs);
  }

  /** The scale of each check: vCPUs for CPU, GB for RAM, processing units
      (100 when unlisted) for Spanner, and 1 for the rest; and the service whose
      SKUs it is matched against. */
  lemma CheckScalesAndServices(tier: TierCosts, region: string, c: Component, rate: real)
    ensures var ch := CheckFor(tier, region, c, rate);
      && ch.kind == c && ch.expected == rate
      && ch.scale == (match c
                      case Cpu => NodeSpec(tier).vcpus
                      case Ram => NodeSpec(tier).ramGb
                      case Spanner => SpannerUnitsOf(tier)
                      case _ => 1)
      && ch.service == (match c
                        case Mgmt => "gke"
                        case Sql => "cloud_sql"
                        case Spanner => "spanner"
                        case _ => "compute")
      && ServiceId(ch.service).Some?
  {
  }

  /** An unknown machine type is sized as 2 vCPU / 8 GB, and an unknown region
      matches "Americas" SKUs. */
  lemma DefaultsForUnknownNames(tier: TierCosts, region: string)
    ensures MachineSpecs(MachineTypeOf(tier)).None? ==> NodeSpec(tier) == MachineSpec(2, 8)
    ensures Geo(region) != "Americas" ==> region in {"europe-west1", "europe-west2", "asia-east1", "asia-southeast1"}
  {
  }

  // ================================================================ classification

  datatype Status = Ok | Drift | NotFound | ApiError | NoPrice | Error

  datatype PriceCheck = PriceCheck(
    component: string,
    expected: real,
    actual: Option<real>,
    driftPct: Option<real>,
    status: Status,
    detail: string)

  function Unverified(check: Check, status: Status, detail: string): PriceCheck {
    PriceCheck(check.component, check.expected, None, None, status, detail)
  }

  /** The result of a check whose SKU carries `rate` per `unit`: the live rate
      is made hourly, scaled and rounded to 4 places; the status is OK exactly
      when its drift from the listed rate is within the threshold. */
  function Compare(check: Check, sku: Sku, rate: real, unit: string, threshold: real): (r: PriceCheck)
    ensures r.component == check.component && r.expected == check.expected && r.detail == sku.description
    ensures r.actual == Some(RoundTo(ToHourly(rate, unit) * check.scale as real, 4))
    ensures r.status == Ok <==> DriftPct(check.expected, r.actual.value) <= threshold
    ensures r.status == Drift <==> DriftPct(check.expected, r.actual.value) > threshold
    ensures r.driftPct == Some(RoundTo(DriftPct(check.expected, r.actual.value), 2))
  {
    var actual := RoundTo(ToHourly(rate, unit) * check.scale as real, 4);
    var drift := DriftPct(check.expected, actual);
    PriceCheck(check.component, check.expected, Some(actual), Some(RoundTo(drift, 2)),
               if drift <= threshold then Ok else Drift, sku.description)
  }

  /** Classifies a check against the SKU list cached for its service: an empty
      list is API_ERROR, no matching SKU is NOT_FOUND, a SKU without a price is
      NO_PRICE, and otherwise the live price is compared. */
  function Classify(check: Check, skus: seq<Sku>, threshold: real): (r: PriceCheck)
    ensures r.component == check.component && r.expected == check.expected
    ensures r.status != Error
    ensures r.status == ApiError <==> |skus| == 0
    ensures |skus| > 0 ==>
      match FindSku(skus, check.matcher)
      case None => r.status == NotFound
      case Some(sku) =>
        match ExtractRate(sku)
        case None => r.status == NoPrice
        case Some(rate) => r == Compare(check, sku, rate.0, rate.1, threshold)
  {
    if |skus| == 0 then Unverified(check, ApiError, "Failed to fetch SKUs")
    else match FindSku(skus, check.matcher)
      case None => Unverified(check, NotFound, "No matching SKU found")
      case Some(sku) =>
        match ExtractRate(sku)
        case None => Unverified(check, NoPrice, "SKU has no pricing: " + sku.description)
        case Some((rate, unit)) => Compare(check, sku, rate, unit, threshold)
  }

  /** Expected 0.10 per hour against a catalog price of 0.15 per hour is DRIFT
      at a 5% threshold, with a recorded drift of 50%. */
  lemma DriftClassificationExample()
    ensures var sku := Sku("desc", "OnDemand", "", [], [PricingInfo("h", [Money(0, 150000000)])]);
      var check := Check("c", Mgmt, 0.10, "gke", ClusterMgmtFee, 1);
      var r := Compare(check, sku, 0.15, "h", 5.0);
      r.status == Drift && r.driftPct == Some(50.0) && r.actual == Some(0.15)
  {
    assert RoundHalfEven(0.15 * 10000.0) == 1500;
    assert RoundTo(0.15, 4) == 0.15;
    assert DriftPct(0.10, 0.15) == 50.0;
    assert RoundHalfEven(50.0 * 100.0) == 5000;
  }

  // ================================================================ the per-service cache

  /** What one check does to the cache: the result, the cache afterwards and the
      services fetched on the way (none, or the check's own service). */
  datatype StepResult = StepResult(result: PriceCheck, entries: map<string, seq<Sku>>, fetched: seq<string>)

  function Step(check: Check, entries: map<string, seq<Sku>>, fetch: string -> Option<seq<Sku>>,
                threshold: real): (st: StepResult)
    ensures KnownKeys(entries) ==> KnownKeys(st.entries)
    ensures forall s :: s in entries ==> s in st.entries && st.entries[s] == entries[s]
    ensures st.fetched == [] || (st.fetched == [check.service] && check.service !in entries
                                 && ServiceId(check.service).Some?)
    ensures forall s :: s in st.entries <==> s in entries || s in st.fetched
    ensures forall s :: s in st.fetched ==> st.entries[s] == fetch(ServiceId(s).value).GetOr([])
    ensures KnownKeys(entries) ==> ResultFits(check, st.result, st.entries, threshold)
  {
    if check.service in entries then
      StepResult(Classify(check, entries[check.service], threshold), entries, [])
    else match ServiceId(check.service)
      case None =>
        StepResult(Unverified(check, Error, "Unknown service: " + check.service), entries, [])
      case Some(id) =>
        var skus := fetch(id).GetOr([]);
        StepResult(Classify(check, skus, threshold), entries[check.service := skus], [check.service])
  }

  datatype Pass = Pass(results: seq<PriceCheck>, entries: map<string, seq<Sku>>, fetched: seq<string>)

  /** The checks run in order against a cache that starts as `entries`. */
  function RunChecks(checks: seq<Check>, entries: map<string, seq<Sku>>,
                     fetch: string -> Option<seq<Sku>>, threshold: real): (p: Pass)
    ensures |p.results| == |checks| && |p.fetched| <= |checks|
    ensures forall s :: s in entries ==> s in p.entries && p.entries[s] == entries[s]
    decreases |checks|
  {
    if |checks| == 0 then Pass([], entries, [])
    else
      var before := RunChecks(checks[..|checks| - 1], entries, fetch, threshold);
      var step := Step(checks[|checks| - 1], before.entries, fetch, threshold);
      Pass(before.results + [step.result], step.entries, before.fetched + step.fetched)
  }

  predicate NoDuplicates(s: seq<string>) {
    forall i, j :: 0 <= i < j < |s| ==> s[i] != s[j]
  }

  /** Only known services are ever cached. */
  predicate KnownKeys(entries: map<string, seq<Sku>>) {
    forall s :: s in entries ==> ServiceId(s).Some?
  }

  /** The cache after a run of checks: each service is fetched at most once, and
      only when it was not cached yet; what was cached stays; each fetched
      service holds its fetched list, or [] when the fetch failed. */
  lemma {:induction false} RunChecksCache(checks: seq<Check>, entries: map<string, seq<Sku>>,
                                          fetch: string -> Option<seq<Sku>>, threshold: real)
    requires KnownKeys(entries)
    ensures var p := RunChecks(checks, entries, fetch, threshold);
      && KnownKeys(p.entries)
      && NoDuplicates(p.fetched)
      && (forall k :: 0 <= k < |p.fetched| ==> p.fetched[k] !in entries)
      && (forall s :: s in p.entries <==> s in entries || s in p.fetched)
      && (forall s :: s in entries ==> p.entries[s] == entries[s])
      && (forall s :: s in p.fetched ==> p.entries[s] == fetch(ServiceId(s).value).GetOr([]))
    decreases |checks|
  {
    if |checks| > 0 {
      var init := checks[..|checks| - 1];
      RunChecksCache(init, entries, fetch, threshold);
      var before := RunChecks(init, entries, fetch, threshold);
    }
  }

  /** `r` is the result of `check` against the cache `entries`: it keeps the
      check's component and expectation, is an ERROR for an unknown service,
      and otherwise is the classification against the cached list. */
  predicate ResultFits(check: Check, r: PriceCheck, entries: map<string, seq<Sku>>, threshold: real) {
    && r.component == check.component
    && r.expected == check.expected
    && (ServiceId(check.service).None? ==> r.status == Error)
    && (ServiceId(check.service).Some? ==>
          check.service in entries && r == Classify(check, entries[check.service], threshold))
  }

  /** A result stays fitting when the cache only grows. */
  lemma ResultFitsGrown(check: Check, r: PriceCheck, e1: map<string, seq<Sku>>, e2: map<string, seq<Sku>>,
                        threshold: real)
    requires ResultFits(check, r, e1, threshold)
    requires forall s :: s in e1 ==> s in e2 && e2[s] == e1[s]
    ensures ResultFits(check, r, e2, threshold)
  {
  }

  /** Every check gets exactly one result, in check order. A check on an unknown
      service is an ERROR; a check on a known service is classified against the
      one SKU list the cache ends up holding for that service, so every check on
      a service whose fetch failed or came back empty is an API_ERROR. */
  lemma {:induction false} RunChecksResults(checks: seq<Check>, entries: map<string, seq<Sku>>,
                                            fetch: string -> Option<seq<Sku>>, threshold: real)
    requires KnownKeys(entries)
    ensures var p := RunChecks(checks, entries, fetch, threshold);
      && |p.results| == |checks|
      && forall i :: 0 <= i < |checks| ==> ResultFits(checks[i], p.results[i], p.entries, threshold)
    decreases |checks|
  {
    if |checks| > 0 {
      var n := |checks| - 1;
      var init := checks[..n];
      RunChecksResults(init, entries, fetch, threshold);
      RunChecksCache(init, entries, fetch, threshold);
      var before := RunChecks(init, entries, fetch, threshold);
      var st := Step(checks[n], before.entries, fetch, threshold);
      assert ResultFits(checks[n], st.result, st.entries, threshold);
      var p := RunChecks(checks, entries, fetch, threshold);
      assert p.results == before.results + [st.result] && p.entries == st.entries;
      assert checks == init + [checks[n]];
      AppendFits(init, checks[n], before.results, st.result, before.entries, st.entries, threshold);
    }
  }

  /** Appending a fitting result to fitting results, as the cache grows. */
  lemma AppendFits(init: seq<Check>, c: Check, rs: seq<PriceCheck>, r: PriceCheck,
                   e1: map<string, seq<Sku>>, e2: map<string, seq<Sku>>, threshold: real)
    requires |rs| == |init|
    requires forall i :: 0 <= i < |init| ==> ResultFits(init[i], rs[i], e1, threshold)
    requires ResultFits(c, r, e2, threshold)
    requires forall s :: s in e1 ==> s in e2 && e2[s] == e1[s]
    ensures forall i :: 0 <= i < |init| + 1 ==> ResultFits((init + [c])[i], (rs + [r])[i], e2, threshold)
  {
    forall i | 0 <= i < |init| + 1 ensures ResultFits((init + [c])[i], (rs + [r])[i], e2, threshold) {
      if i < |init| {
        assert (init + [c])[i] == init[i] && (rs + [r])[i] == rs[i];
        ResultFitsGrown(init[i], rs[i], e1, e2, threshold);
      }
    }
  }

  /** The SKU cache shared by every tier of one validation run. */
  class SkuCache {
    var entries: map<string, seq<Sku>>
    /** The services fetched so far, in order. */
    ghost var fetched: seq<string>

    ghost predicate Valid()
      reads this
    {
      && KnownKeys(entries)
      && NoDuplicates(fetched)
      && (forall s :: s in entries <==> s in fetched)
    }

    constructor ()
      ensures Valid() && entries == map[] && fetched == []
    {
      entries := map[];
      fetched := [];
    }

    /** Runs one check: fetches and caches its service's SKUs on first use
        (an unknown service is neither fetched nor cached), then classifies it. */
    method RunCheck(check: Check, threshold: real, fetch: string -> Option<seq<Sku>>)
      returns (result: PriceCheck)
      requires Valid()
      modifies this
      ensures Valid()
      ensures var step := Step(check, old(entries), fetch, threshold);
        result == step.result && entries == step.entries && fetched == old(fetched) + step.fetched
    {
      var service := check.service;
      if service in entries {
        result := Classify(check, entries[service], threshold);
        return;
      }
      var id := ServiceId(service);
      if id.None? {
        result := Unverified(check, Error, "Unknown service: " + service);
        return;
      }
      var skus := fetch(id.value);
      if skus.None? {
        entries := entries[service := []];
      } else {
        entries := entries[service := skus.value];
      }
      fetched := fetched + [service];
      result := Classify(check, entries[service], threshold);
    }

    /** Runs the checks in order, filling the cache as it goes. */
    method RunAll(checks: seq<Check>, threshold: real, fetch: string -> Option<seq<Sku>>)
      returns (results: seq<PriceCheck>)
      requires Valid()
      modifies this
      ensures Valid()
      ensures var p := RunChecks(checks, old(entries), fetch, threshold);
        results == p.results && entries == p.entries && fetched == old(fetched) + p.fetched
    {
      results := [];
      var i := 0;
      while i < |checks|
        invariant 0 <= i <= |checks|
        invariant Valid()
        invariant var p := RunChecks(checks[..i], old(entries), fetch, threshold);
          results == p.results && entries == p.entries && fetched == old(fetched) + p.fetched
      {
        assert checks[..i + 1][..i] == checks[..i];
        assert checks[..i + 1][i] == checks[i];
        var result := RunCheck(checks[i], threshold, fetch);
        results := results + [result];
        i := i + 1;
      }
      assert checks[..|checks|] == checks;
    }

    /** Runs every check of one tier (Python's `validate_tier`). */
    method ValidateTier(tier: TierCosts, threshold: real, region: string,
                        fetch: string -> Option<seq<Sku>>) returns (results: seq<PriceCheck>)
      requires Valid()
      modifies this
      ensures Valid()
      ensures var p := RunChecks(BuildChecks(tier, region), old(entries), fetch, threshold);
        results == p.results && entries == p.entries && fetched == old(fetched) + p.fetched
    {
      var checks := BuildChecks(tier, region);
      results := RunAll(checks, threshold, fetch);
    }
  }

  // ================================================================ roll-up and exit code

  predicate HasStatus(results: seq<PriceCheck>, st: Status) {
    exists i :: 0 <= i < |results| && results[i].status == st
  }

  /** A result that makes the run fail as "could not be verified". */
  predicate IsFetchError(st: Status) {
    st == ApiError || st == Error
  }

  predicate HasFetchError(results: seq<PriceCheck>) {
    exists i :: 0 <= i < |results| && IsFetchError(results[i].status)
  }

  datatype TierStatus = TierOk | TierDrift | TierError

  /** A tier's status: drift over error over ok. */
  function StatusOfTier(results: seq<PriceCheck>): (ts: TierStatus)
    ensures ts == TierDrift <==> exists i :: 0 <= i < |results| && results[i].status == Drift
    ensures ts == TierError <==>
      && (forall i :: 0 <= i < |results| ==> results[i].status != Drift)
      && exists i :: 0 <= i < |results| && results[i].status in {ApiError, Error}
    ensures ts == TierOk <==> forall i :: 0 <= i < |results| ==> results[i].status !in {Drift, ApiError, Error}
  {
    if HasStatus(results, Drift) then TierDrift
    else if HasFetchError(results) then TierError
    else TierOk
  }

  datatype TierResults = TierResults(name: string, checks: seq<PriceCheck>)

  predicate AnyTierHas(all: seq<TierResults>, st: Status) {
    exists t :: 0 <= t < |all| && HasStatus(all[t].checks, st)
  }

  predicate AnyTierFetchError(all: seq<TierResults>) {
    exists t :: 0 <= t < |all| && HasFetchError(all[t].checks)
  }

  /** The exit code of a completed run: 1 on any drift, else 2 on any fetch
      error, else 0. */
  function ExitCode(all: seq<TierResults>): (code: int)
    ensures code in {0, 1, 2}
  {
    if AnyTierHas(all, Drift) then 1
    else if AnyTierFetchError(all) then 2
    else 0
  }

  /** The exit code agrees with the tier statuses: 1 iff some tier drifted, 2 iff
      none drifted and some tier is in error, 0 iff every tier is ok. */
  lemma ExitCodeFromTierStatuses(all: seq<TierResults>)
    ensures ExitCode(all) == 1 <==> exists t :: 0 <= t < |all| && StatusOfTier(all[t].checks) == TierDrift
    ensures ExitCode(all) == 2 <==>
      (forall t :: 0 <= t < |all| ==> StatusOfTier(all[t].checks) != TierDrift)
      && exists t :: 0 <= t < |all| && StatusOfTier(all[t].checks) == TierError
    ensures ExitCode(all) == 0 <==> forall t :: 0 <= t < |all| ==> StatusOfTier(all[t].checks) == TierOk
  {
  }

  lemma AppendNeutral(cs: seq<PriceCheck>, r: PriceCheck)
    requires r.status in {NotFound, NoPrice, Ok}
    ensures HasStatus(cs + [r], Drift) <==> HasStatus(cs, Drift)
    ensures HasFetchError(cs + [r]) <==> HasFetchError(cs)
  {
    var cs' := cs + [r];
    if HasStatus(cs', Drift) {
      var i :| 0 <= i < |cs'| && cs'[i].status == Drift;
      assert i < |cs| && cs[i] == cs'[i];
    }
    if HasFetchError(cs') {
      var i :| 0 <= i < |cs'| && IsFetchError(cs'[i].status);
      assert i < |cs| && cs[i] == cs'[i];
    }
    if HasStatus(cs, Drift) {
      var i :| 0 <= i < |cs| && cs[i].status == Drift;
      assert cs'[i] == cs[i];
    }
    if HasFetchError(cs) {
      var i :| 0 <= i < |cs| && IsFetchError(cs[i].status);
      assert cs'[i] == cs[i];
    }
  }

  /** NOT_FOUND, NO_PRICE and OK results never change the exit code. */
  lemma ExitCodeIgnoresUnverifiable(all: seq<TierResults>, t: nat, r: PriceCheck)
    requires t < |all| && r.status in {NotFound, NoPrice, Ok}
    ensures var all' := all[t := TierResults(all[t].name, all[t].checks + [r])];
      ExitCode(all') == ExitCode(all)
  {
    var all' := all[t := TierResults(all[t].name, all[t].checks + [r])];
    AppendNeutral(all[t].checks, r);
    forall u | 0 <= u < |all|
      ensures HasStatus(all'[u].checks, Drift) <==> HasStatus(all[u].checks, Drift)
      ensures HasFetchError(all'[u].checks) <==> HasFetchError(all[u].checks)
    {
    }
    assert AnyTierHas(all', Drift) <==> AnyTierHas(all, Drift);
    assert AnyTierFetchError(all') <==> AnyTierFetchError(all);
  }

  // ================================================================ the whole run

  /** `costs.get("tiers", {})`, narrowed to one tier when one is named (an empty
      name counts as none); None when the named tier is not in the table. */
  function SelectTiers(doc: CostDocument, tierArg: Option<string>): (r: Option<seq<(string, TierCosts)>>)
    ensures r.None? <==> tierArg.Some? && tierArg.value != "" && !(doc.Tiered? && HasTier(doc.tiers, tierArg.value))
    ensures r.Some? && tierArg.Some? && tierArg.value != "" ==> |r.value| == 1 && r.value[0].0 == tierArg.value
    ensures r.Some? && tierArg.Some? && tierArg.value != "" ==>
      doc.Tiered? && LookupTier(doc.tiers, tierArg.value) == Some(r.value[0].1)
    ensures r.Some? && (tierArg.None? || tierArg == Some("")) ==> r.value == (if doc.Tiered? then doc.tiers else [])
  {
    var tiers := if doc.Tiered? then doc.tiers else [];
    match tierArg
    case Some(name) =>
      if name == "" then Some(tiers)
      else (match LookupTier(tiers, name)
            case None => None
            case Some(t) => Some([(name, t)]))
    case None => Some(tiers)
  }

  /** The tiers validated so far, with the cache and the fetch log they leave. */
  datatype Run = Run(tiers: seq<TierResults>, entries: map<string, seq<Sku>>, fetched: seq<string>)

  /** Each tier's name with the checks built for it. */
  function TierPlans(tiers: seq<(string, TierCosts)>, region: string): (plans: seq<(string, seq<Check>)>)
    ensures |plans| == |tiers|
    ensures forall t :: 0 <= t < |tiers| ==> plans[t] == (tiers[t].0, BuildChecks(tiers[t].1, region))
  {
    seq(|tiers|, t requires 0 <= t < |tiers| => (tiers[t].0, BuildChecks(tiers[t].1, region)))
  }

  /** The tiers' checks run in order against one shared cache. */
  function ValidateTiers(plans: seq<(string, seq<Check>)>, entries: map<string, seq<Sku>>,
                         fetch: string -> Option<seq<Sku>>, threshold: real): Run
    decreases |plans|
  {
    if |plans| == 0 then Run([], entries, [])
    else
      var before := ValidateTiers(plans[..|plans| - 1], entries, fetch, threshold);
      var last := plans[|plans| - 1];
      var p := RunChecks(last.1, before.entries, fetch, threshold);
      Run(before.tiers + [TierResults(last.0, p.results)], p.entries, before.fetched + p.fetched)
  }

  lemma AnyTierSnoc(all: seq<TierResults>, last: TierResults)
    ensures forall st :: AnyTierHas(all + [last], st) <==> AnyTierHas(all, st) || HasStatus(last.checks, st)
    ensures AnyTierFetchError(all + [last]) <==> AnyTierFetchError(all) || HasFetchError(last.checks)
  {
    var all' := all + [last];
    assert all'[|all|] == last;
    assert forall t :: 0 <= t < |all| ==> all'[t] == all[t];
  }

  lemma ValidateTiersSnoc(plans: seq<(string, seq<Check>)>, t: nat,
                          fetch: string -> Option<seq<Sku>>, threshold: real)
    requires t < |plans|
    ensures var prev := ValidateTiers(plans[..t], map[], fetch, threshold);
      var p := RunChecks(plans[t].1, prev.entries, fetch, threshold);
      ValidateTiers(plans[..t + 1], map[], fetch, threshold)
        == Run(prev.tiers + [TierResults(plans[t].0, p.results)], p.entries, prev.fetched + p.fetched)
  {
    assert plans[..t + 1][..t] == plans[..t];
    assert plans[..t + 1][t] == plans[t];
  }

  /** One entry per tier, named as the tier, in table order. */
  lemma {:induction false} ValidateTiersNames(plans: seq<(string, seq<Check>)>, entries: map<string, seq<Sku>>,
                                              fetch: string -> Option<seq<Sku>>, threshold: real)
    ensures var all := ValidateTiers(plans, entries, fetch, threshold).tiers;
      |all| == |plans| && forall u :: 0 <= u < |plans| ==> all[u].name == plans[u].0
    decreases |plans|
  {
    if |plans| > 0 {
      var init := plans[..|plans| - 1];
      ValidateTiersNames(init, entries, fetch, threshold);
      assert forall u :: 0 <= u < |init| ==> init[u] == plans[u];
    }
  }

  /** Folds one tier's statuses into the run's drift and error flags. */
  method ScanFlags(results: seq<PriceCheck>, drift0: bool, error0: bool) returns (hasDrift: bool, hasError: bool)
    ensures hasDrift <==> drift0 || HasStatus(results, Drift)
    ensures hasError <==> error0 || HasFetchError(results)
  {
    hasDrift, hasError := drift0, error0;
    var k := 0;
    while k < |results|
      invariant 0 <= k <= |results|
      invariant hasDrift <==> drift0 || HasStatus(results[..k], Drift)
      invariant hasError <==> error0 || HasFetchError(results[..k])
    {
      assert results[..k + 1][..k] == results[..k];
      assert results[..k + 1][k] == results[k];
      if results[k].status == Drift {
        hasDrift := true;
      } else if IsFetchError(results[k].status) {
        hasError := true;
      }
      k := k + 1;
    }
    assert results[..k] == results;
  }

  /** Validates the tiers in order against one fresh cache, raising the drift
      and error flags as results come in. */
  method ValidateAll(tiers: seq<(string, TierCosts)>, threshold: real, region: string,
                     fetch: string -> Option<seq<Sku>>)
    returns (all: seq<TierResults>, hasDrift: bool, hasError: bool)
    ensures all == ValidateTiers(TierPlans(tiers, region), map[], fetch, threshold).tiers
    ensures |all| == |tiers| && forall u :: 0 <= u < |tiers| ==> all[u].name == tiers[u].0
    ensures hasDrift <==> AnyTierHas(all, Drift)
    ensures hasError <==> AnyTierFetchError(all)
  {
    ghost var plans := TierPlans(tiers, region);
    var cache := new SkuCache();
    all := [];
    hasDrift, hasError := false, false;
    var t := 0;
    while t < |tiers|
      invariant 0 <= t <= |tiers| && cache.Valid()
      invariant Run(all, cache.entries, cache.fetched) == ValidateTiers(plans[..t], map[], fetch, threshold)
      invariant hasDrift <==> AnyTierHas(all, Drift)
      invariant hasError <==> AnyTierFetchError(all)
    {
      ValidateTiersSnoc(plans, t, fetch, threshold);
      var results := cache.ValidateTier(tiers[t].1, threshold, region, fetch);
      hasDrift, hasError := ScanFlags(results, hasDrift, hasError);
      var last := TierResults(tiers[t].0, results);
      AnyTierSnoc(all, last);
      all := all + [last];
      t := t + 1;
    }
    assert plans[..t] == plans;
    ValidateTiersNames(plans, map[], fetch, threshold);
  }

  /** How a run ends: refused before any check, or validated; either way
      with the process exit code. */
  datatype Outcome = Refused(reason: string, exitCode: int) | Validated(tiers: seq<TierResults>, exitCode: int)

  /** The validator's main: refuse with exit 2 without credentials, without a
      readable cost table, or for an unknown tier; otherwise validate the
      selected tiers with one fresh cache and roll the statuses up. */
  method ValidateCosts(haveAuth: bool, doc: Option<CostDocument>, tierArg: Option<string>,
                       threshold: real, region: string, fetch: string -> Option<seq<Sku>>)
    returns (outcome: Outcome)
    ensures outcome.Refused? <==> !haveAuth || doc.None? || SelectTiers(doc.value, tierArg).None?
    ensures outcome.Refused? ==> outcome.exitCode == 2
    ensures outcome.Validated? ==>
      var tiers := SelectTiers(doc.value, tierArg).value;
      && outcome.tiers == ValidateTiers(TierPlans(tiers, region), map[], fetch, threshold).tiers
      && |outcome.tiers| == |tiers|
      && (forall t :: 0 <= t < |tiers| ==> outcome.tiers[t].name == tiers[t].0)
      && outcome.exitCode == ExitCode(outcome.tiers)
  {
    if !haveAuth {
      return Refused("No authentication found", 2);
    }
    if doc.None? {
      return Refused("Error loading costs.json", 2);
    }
    var selected := SelectTiers(doc.value, tierArg);
    if selected.None? {
      return Refused("tier not found in costs.json", 2);
    }
    var tiers := selected.value;
    var all, hasDrift, hasError := ValidateAll(tiers, threshold, region, fetch);
    outcome := Validated(all, if hasDrift then 1 else if hasError then 2 else 0);
  }
}
