/** The parsed cost document (`costs.json`) that the cost model, the price-drift
    validator and the README updater all read.

    JSON objects are flattened into records whose leaves are optional: a key
    that is absent is `None`, and a sub-object that is absent is a record whose
    leaves are all `None` (every reader treats the two alike, through
    `.get(k, {})` chains or a KeyError on the leaf). Object key order is kept
    by holding the tier table as a sequence of (name, tier) pairs. */
module CostTables {
  import opened Wrappers

  /** `tiers.<name>.shared`: the infrastructure both backends share. */
  datatype SharedCosts = SharedCosts(
    totalHourly: Option<real>,       // total_hourly
    mgmtHourly: Option<real>,        // gke_cluster_mgmt.hourly_rate
    nodesHourly: Option<real>,       // gke_nodes.hourly_rate
    perNodeCpu: Option<real>,        // gke_nodes.per_node_hourly.cpu
    perNodeRam: Option<real>,        // gke_nodes.per_node_hourly.ram
    lbHourly: Option<real>,          // load_balancers.hourly_rate
    perRuleHourly: Option<real>)     // load_balancers.per_rule_hourly

  /** `tiers.<name>.trillian`: the MySQL-backed log's dedicated resources. */
  datatype TrillianCosts = TrillianCosts(
    dedicatedHourly: Option<real>,   // dedicated_hourly
    sqlHourly: Option<real>,         // cloud_sql.hourly_rate
    sqlTier: Option<string>)         // cloud_sql.tier

  /** `tiers.<name>.tesseract`: the Spanner-backed log's dedicated resources. */
  datatype TesseractCosts = TesseractCosts(
    dedicatedHourly: Option<real>,   // dedicated_hourly
    spannerHourly: Option<real>,     // spanner.hourly_rate
    processingUnits: Option<int>)    // spanner.processing_units

  /** One tier of the table (or the whole of a legacy flat document). The four
      display fields are the values the README updater prints, as text. */
  datatype TierCosts = TierCosts(
    machineType: Option<string>,     // gke_machine_type
    nodeCount: Option<string>,       // gke_node_count
    cloudSqlTier: Option<string>,    // cloud_sql_tier
    spannerUnits: Option<string>,    // spanner_processing_units
    shared: SharedCosts,
    trillian: TrillianCosts,
    tesseract: TesseractCosts)
  {
    /** The tier object has no keys at all (Python's `not tier` on a dict). */
    predicate IsEmpty() {
      && machineType.None? && nodeCount.None? && cloudSqlTier.None? && spannerUnits.None?
      && shared == SharedCosts(None, None, None, None, None, None, None)
      && trillian == TrillianCosts(None, None, None)
      && tesseract == TesseractCosts(None, None, None)
    }
  }

  /** A document with a `tiers` key, or a legacy flat document that is itself one tier. */
  datatype CostDocument = Tiered(tiers: seq<(string, TierCosts)>) | Flat(costs: TierCosts)

  /** Python's `name in tiers` on the ordered tier table. */
  predicate HasTier(tiers: seq<(string, TierCosts)>, name: string) {
    exists i :: 0 <= i < |tiers| && tiers[i].0 == name
  }

  /** Python's `tiers.get(name)`: the tier stored under `name`, if any. */
  function LookupTier(tiers: seq<(string, TierCosts)>, name: string): (r: Option<TierCosts>)
    ensures r.Some? <==> HasTier(tiers, name)
    ensures r.Some? ==> exists i :: 0 <= i < |tiers| && tiers[i] == (name, r.value)
  {
    if |tiers| == 0 then None
    else if tiers[0].0 == name then Some(tiers[0].1)
    else
      var r := LookupTier(tiers[1..], name);
      assert HasTier(tiers, name) ==> HasTier(tiers[1..], name) by {
        if HasTier(tiers, name) {
          var i :| 0 <= i < |tiers| && tiers[i].0 == name;
          assert i > 0 && tiers[1..][i - 1].0 == name;
        }
      }
      if r.Some? then
        var i :| 0 <= i < |tiers[1..]| && tiers[1..][i] == (name, r.value);
        assert tiers[i + 1] == (name, r.value);
        r
      else r
  }
}
