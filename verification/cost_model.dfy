/** The deterministic cost model of one benchmark run (`scripts/metrics.py`):
    the tier's fixed hourly rates, charged for the run's wall-clock duration.
    Half of the shared infrastructure is charged to the backend under test,
    plus that backend's own dedicated resources. */
module CostModel {
  import opened Wrappers
  import opened Text
  import opened CostTables

  datatype CostError =
    | UnknownTier(name: string)      // the tier is not in the table (the script exits 1)
    | MissingKey(key: string)        // a key the report needs is absent (a KeyError)

  /** `load_costs`: a tiered document yields the named tier, a legacy flat
      document is itself the cost table. */
  function LoadCosts(doc: CostDocument, tier: string): (r: Result<TierCosts, CostError>)
    ensures doc.Flat? ==> r == Success(doc.costs)
    ensures doc.Tiered? ==> (r.Failure? <==> !HasTier(doc.tiers, tier))
    ensures doc.Tiered? && r.Success? ==> exists i :: 0 <= i < |doc.tiers| && doc.tiers[i] == (tier, r.value)
    ensures r.Failure? ==> r.error == UnknownTier(tier)
  {
    match doc
    case Flat(costs) => Success(costs)
    case Tiered(tiers) =>
      match LookupTier(tiers, tier)
      case None => Failure(UnknownTier(tier))
      case Some(t) => Success(t)
  }

  /** One entry of `line_items`. */
  datatype LineItem = LineItem(description: string, hourlyRate: real, components: seq<(string, real)>)

  /** The report `analyze_benchmark` returns; `costs` keeps the dict's key order. */
  datatype CostReport = CostReport(
    logType: string,
    durationHours: real,
    costModel: string,
    sharedInfra: LineItem,
    dedicatedBackend: LineItem,
    costs: seq<(string, real)>,
    costPerHour: real,
    totalCost: real)

  /** `sum(d.values())` over an ordered dict. */
  function SumValues(entries: seq<(string, real)>): real
    decreases |entries|
  {
    if |entries| == 0 then 0.0 else SumValues(entries[..|entries| - 1]) + entries[|entries| - 1].1
  }

  /** `costs[log_type]` succeeds only for the two backend sections. */
  predicate IsBackend(logType: string) {
    logType == "trillian" || logType == "tesseract"
  }

  /** Every key the report reads is present, for the backend `logType`. */
  predicate HasAllKeys(costs: TierCosts, logType: string) {
    && IsBackend(logType)
    && costs.shared.totalHourly.Some?
    && costs.shared.mgmtHourly.Some?
    && costs.shared.nodesHourly.Some?
    && costs.shared.lbHourly.Some?
    && (if logType == "trillian" then costs.trillian.dedicatedHourly.Some? && costs.trillian.sqlTier.Some?
        else costs.tesseract.dedicatedHourly.Some? && costs.tesseract.processingUnits.Some?)
  }

  function DedicatedHourly(costs: TierCosts, logType: string): Option<real> {
    if logType == "trillian" then costs.trillian.dedicatedHourly else costs.tesseract.dedicatedHourly
  }

  /** The description of the dedicated line item: the Cloud SQL tier for
      "trillian", the Spanner processing units for the other backend. */
  function BackendDescription(costs: TierCosts, logType: string): string
    requires HasAllKeys(costs, logType)
  {
    if logType == "trillian" then "Cloud SQL " + costs.trillian.sqlTier.value
    else "Spanner " + IntToString(costs.tesseract.processingUnits.value) + " PU"
  }

  /** The report built from one cost table, in the order the script reads its
      keys: the backend section, the shared total, the three shared
      components, the dedicated rate, then the backend's description field. */
  function Report(costs: TierCosts, start: real, end: real, logType: string): (r: Result<CostReport, CostError>)
    ensures r.Success? <==> HasAllKeys(costs, logType)
    ensures r.Success? ==>
      && r.value.logType == logType
      && r.value.durationHours * 3600.0 == end - start
      && r.value.sharedInfra.hourlyRate * 2.0 == costs.shared.totalHourly.value
      && r.value.dedicatedBackend.hourlyRate == DedicatedHourly(costs, logType).value
      && r.value.dedicatedBackend.description == BackendDescription(costs, logType)
      && |r.value.costs| == 2
      && r.value.costs[0].0 == "shared_infra"
      && r.value.costs[0].1 == r.value.sharedInfra.hourlyRate * r.value.durationHours
      && r.value.costs[1].0 == "dedicated_backend"
      && r.value.costs[1].1 == r.value.dedicatedBackend.hourlyRate * r.value.durationHours
      && r.value.costPerHour == r.value.sharedInfra.hourlyRate + r.value.dedicatedBackend.hourlyRate
      && r.value.totalCost == SumValues(r.value.costs)
  {
    var duration := (end - start) / 3600.0;
    var shared := costs.shared;
    if !IsBackend(logType) then Failure(MissingKey(logType))
    else if shared.totalHourly.None? then Failure(MissingKey("total_hourly"))
    else if shared.mgmtHourly.None? then Failure(MissingKey("gke_cluster_mgmt"))
    else if shared.nodesHourly.None? then Failure(MissingKey("gke_nodes"))
    else if shared.lbHourly.None? then Failure(MissingKey("load_balancers"))
    else
      var sharedHourly := shared.totalHourly.value / 2.0;
      var sharedItem := LineItem("GKE cluster + nodes + LB (50% allocation)", sharedHourly,
                                 [("gke_mgmt", shared.mgmtHourly.value / 2.0),
                                  ("gke_nodes", shared.nodesHourly.value / 2.0),
                                  ("load_balancer", shared.lbHourly.value / 2.0)]);
      match DedicatedHourly(costs, logType)
      case None => Failure(MissingKey("dedicated_hourly"))
      case Some(dedicated) =>
        if logType == "trillian" && costs.trillian.sqlTier.None? then Failure(MissingKey("cloud_sql"))
        else if logType != "trillian" && costs.tesseract.processingUnits.None? then Failure(MissingKey("spanner"))
        else
          var item := LineItem(BackendDescription(costs, logType), dedicated, []);
          var sharedCost, dedicatedCost := sharedHourly * duration, dedicated * duration;
          var entries := [("shared_infra", sharedCost), ("dedicated_backend", dedicatedCost)];
          Success(CostReport(logType, duration, "deterministic", sharedItem, item, entries,
                             sharedHourly + dedicated, SumValues(entries)))
  }

  /** `analyze_benchmark`: loads the tier and prices the run. The project id
      the script takes is never read, so it is not a parameter. */
  function AnalyzeBenchmark(doc: CostDocument, start: real, end: real, logType: string, tier: string)
    : (r: Result<CostReport, CostError>)
    ensures r.Success? <==> LoadCosts(doc, tier).Success? && HasAllKeys(LoadCosts(doc, tier).value, logType)
    ensures LoadCosts(doc, tier).Failure? ==> r == Failure(UnknownTier(tier))
  {
    match LoadCosts(doc, tier)
    case Failure(e) => Failure(e)
    case Success(costs) => Report(costs, start, end, logType)
  }

  /** Each shared component is charged at half its own hourly rate. */
  lemma SharedComponentsHalved(costs: TierCosts, start: real, end: real, logType: string)
    requires Report(costs, start, end, logType).Success?
    ensures var cs := Report(costs, start, end, logType).value.sharedInfra.components;
      && |cs| == 3
      && cs[0].0 == "gke_mgmt" && cs[0].1 * 2.0 == costs.shared.mgmtHourly.value
      && cs[1].0 == "gke_nodes" && cs[1].1 * 2.0 == costs.shared.nodesHourly.value
      && cs[2].0 == "load_balancer" && cs[2].1 * 2.0 == costs.shared.lbHourly.value
  {
  }

  /** The total cost is the hourly cost times the duration, exactly. */
  lemma TotalIsHourlyTimesDuration(doc: CostDocument, start: real, end: real, logType: string, tier: string)
    requires AnalyzeBenchmark(doc, start, end, logType, tier).Success?
    ensures var rep := AnalyzeBenchmark(doc, start, end, logType, tier).value;
      rep.totalCost == rep.costPerHour * rep.durationHours
      && rep.totalCost * 3600.0 == rep.costPerHour * (end - start)
  {
    var costs := LoadCosts(doc, tier).value;
    assert AnalyzeBenchmark(doc, start, end, logType, tier) == Report(costs, start, end, logType);
    ReportTotal(costs, start, end, logType);
  }

  lemma ReportTotal(costs: TierCosts, start: real, end: real, logType: string)
    requires Report(costs, start, end, logType).Success?
    ensures var rep := Report(costs, start, end, logType).value;
      rep.totalCost == rep.costPerHour * rep.durationHours
      && rep.totalCost * 3600.0 == rep.costPerHour * (end - start)
  {
    var rep := Report(costs, start, end, logType).value;
    TotalOfTwoItems(rep);
    assert rep.durationHours * 3600.0 == end - start;
  }

  /** A report whose two entries are the line items' rates times the duration
      totals the combined rate times the duration. */
  lemma TotalOfTwoItems(rep: CostReport)
    requires |rep.costs| == 2
    requires rep.costs[0].1 == rep.sharedInfra.hourlyRate * rep.durationHours
    requires rep.costs[1].1 == rep.dedicatedBackend.hourlyRate * rep.durationHours
    requires rep.costPerHour == rep.sharedInfra.hourlyRate + rep.dedicatedBackend.hourlyRate
    requires rep.totalCost == SumValues(rep.costs)
    ensures rep.totalCost == rep.costPerHour * rep.durationHours
  {
    var e := rep.costs;
    assert SumValues(e) == SumValues(e[..1]) + e[1].1;
    assert e[..1][..0] == [];
    assert SumValues(e[..1]) == e[0].1;
    var s, d, h := rep.sharedInfra.hourlyRate, rep.dedicatedBackend.hourlyRate, rep.durationHours;
    calc {
      rep.totalCost;
      s * h + d * h;
      (s + d) * h;
    }
  }

  /** A legacy flat document is priced the same whatever tier is named. */
  lemma FlatIgnoresTier(costs: TierCosts, start: real, end: real, logType: string, t1: string, t2: string)
    ensures AnalyzeBenchmark(Flat(costs), start, end, logType, t1) == AnalyzeBenchmark(Flat(costs), start, end, logType, t2)
  {
  }
}
