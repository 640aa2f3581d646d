/** The benchmark report generator (`scripts/report.py`): reads the summary,
    tabulates achieved QPS and cost per million entries per target level, and
    states where each backend saturates and where the Spanner-backed log
    becomes the cheaper one. The markdown text itself, with its `:.1f` and
    `:.2f` number formatting, is not modelled: the report is the datatype the
    text is printed from. */
module Report {
  import opened Wrappers
  import opened RunRecords

  /** `load_summary`: the tier and the records of a summary file; an object
      without a tier is "unknown", a legacy bare list is "small", and any
      other shape is refused (the script exits 1). */
  function LoadSummary(s: Summary): (r: Option<(string, seq<RunRecord>)>)
    ensures r.None? <==> s.SummaryOther? || (s.SummaryObject? && s.results.None?)
    ensures s.SummaryList? ==> r == Some(("small", s.records))
    ensures s.SummaryObject? && s.results.Some? ==> r == Some((s.tier.GetOr("unknown"), s.results.value))
  {
    match s
    case SummaryObject(tier, _, results) =>
      if results.Some? then Some((tier.GetOr("unknown"), results.value)) else None
    case SummaryList(records) => Some(("small", records))
    case SummaryOther => None
  }

  // ================================================================ saturation

  /** The run fell below 90% of a positive target. */
  predicate Saturated(r: RunRecord) {
    r.targetQps > 0 && r.achievedQps < r.targetQps as real * 0.9
  }

  predicate SortedByTarget(rs: seq<RunRecord>) {
    forall i, j :: 0 <= i < j < |rs| ==> rs[i].targetQps <= rs[j].targetQps
  }

  /** Puts `x` in front of the first record whose target is not below its own. */
  function InsertByTarget(x: RunRecord, rs: seq<RunRecord>): (r: seq<RunRecord>)
    requires SortedByTarget(rs)
    ensures SortedByTarget(r)
    ensures multiset(r) == multiset(rs) + multiset{x}
    decreases |rs|
  {
    if |rs| == 0 || x.targetQps <= rs[0].targetQps then [x] + rs
    else
      var rest := InsertByTarget(x, rs[1..]);
      assert rs == [rs[0]] + rs[1..];
      BoundedByHead(rs[0], rs[1..], x, rest);
      ConsSorted(rs[0], rest);
      [rs[0]] + rest
  }

  /** What is left after the head of a sorted sequence, plus a record above
      the head, is all at or above the head. */
  lemma BoundedByHead(h: RunRecord, tail: seq<RunRecord>, x: RunRecord, rest: seq<RunRecord>)
    requires SortedByTarget([h] + tail) && h.targetQps < x.targetQps
    requires multiset(rest) == multiset(tail) + multiset{x}
    ensures forall k :: 0 <= k < |rest| ==> h.targetQps <= rest[k].targetQps
  {
    forall k | 0 <= k < |rest| ensures h.targetQps <= rest[k].targetQps {
      assert rest[k] in multiset(rest);
      if rest[k] != x {
        assert rest[k] in multiset(tail);
        var m :| 0 <= m < |tail| && tail[m] == rest[k];
        assert ([h] + tail)[0] == h && ([h] + tail)[m + 1] == rest[k];
      }
    }
  }

  lemma ConsSorted(h: RunRecord, rest: seq<RunRecord>)
    requires SortedByTarget(rest)
    requires forall k :: 0 <= k < |rest| ==> h.targetQps <= rest[k].targetQps
    ensures SortedByTarget([h] + rest)
  {
    forall i, j | 0 <= i < j < |[h] + rest| ensures ([h] + rest)[i].targetQps <= ([h] + rest)[j].targetQps {
      assert ([h] + rest)[j] == rest[j - 1];
      if i > 0 {
        assert ([h] + rest)[i] == rest[i - 1];
      }
    }
  }

  /** Python's `sorted(rs, key=lambda r: r["target_qps"])`, a stable sort:
      records with equal targets keep their order. */
  function SortByTarget(rs: seq<RunRecord>): (r: seq<RunRecord>)
    ensures SortedByTarget(r)
    ensures multiset(r) == multiset(rs)
    decreases |rs|
  {
    if |rs| == 0 then []
    else
      assert rs == [rs[0]] + rs[1..];
      InsertByTarget(rs[0], SortByTarget(rs[1..]))
  }

  /** The scan of `find_saturation`: the first saturated record. */
  function FirstSaturated(rs: seq<RunRecord>): (r: Option<RunRecord>)
    ensures r.None? <==> forall i :: 0 <= i < |rs| ==> !Saturated(rs[i])
    ensures r.Some? ==> r.value in rs && Saturated(r.value)
    decreases |rs|
  {
    if |rs| == 0 then None
    else if Saturated(rs[0]) then Some(rs[0])
    else
      assert forall i :: 1 <= i < |rs| ==> rs[i] == rs[1..][i - 1];
      FirstSaturated(rs[1..])
  }

  /** `x` when it is saturated and its target is not above that of `o`'s record, else `o`. */
  function Lower(x: RunRecord, o: Option<RunRecord>): Option<RunRecord> {
    if Saturated(x) && (o.None? || x.targetQps <= o.value.targetQps) then Some(x) else o
  }

  /** Reference definition, without sorting: the position of the saturated
      record of lowest target, and of those the earliest. None exactly when no
      record is saturated; otherwise a saturated record whose target is not
      above that of any saturated record, and every saturated record before it
      has a strictly higher target. */
  function LowestSaturatedIndex(rs: seq<RunRecord>): (k: Option<nat>)
    ensures k.None? <==> forall i :: 0 <= i < |rs| ==> !Saturated(rs[i])
    ensures k.Some? ==> k.value < |rs| && Saturated(rs[k.value])
    ensures k.Some? ==> forall i :: 0 <= i < |rs| && Saturated(rs[i]) ==> rs[k.value].targetQps <= rs[i].targetQps
    ensures k.Some? ==> forall i :: 0 <= i < k.value && Saturated(rs[i]) ==> rs[k.value].targetQps < rs[i].targetQps
    decreases |rs|
  {
    if |rs| == 0 then None
    else
      var tail := rs[1..];
      var o := LowestSaturatedIndex(tail);
      assert forall i :: 1 <= i < |rs| ==> rs[i] == tail[i - 1];
      if Saturated(rs[0]) && (o.None? || rs[0].targetQps <= tail[o.value].targetQps) then Some(0)
      else if o.None? then None
      else Some(o.value + 1)
  }

  function LowestSaturated(rs: seq<RunRecord>): Option<RunRecord> {
    var k := LowestSaturatedIndex(rs);
    if k.None? then None else Some(rs[k.value])
  }

  /** The reference definition, one record at a time. */
  lemma LowestSaturatedCons(rs: seq<RunRecord>)
    requires |rs| > 0
    ensures LowestSaturated(rs) == Lower(rs[0], LowestSaturated(rs[1..]))
  {
    var o := LowestSaturatedIndex(rs[1..]);
    if o.Some? {
      assert rs[o.value + 1] == rs[1..][o.value];
    }
  }

  lemma {:induction false} ScanAfterInsert(x: RunRecord, rs: seq<RunRecord>)
    requires SortedByTarget(rs)
    ensures FirstSaturated(InsertByTarget(x, rs)) == Lower(x, FirstSaturated(rs))
    decreases |rs|
  {
    if |rs| > 0 && x.targetQps > rs[0].targetQps {
      if !Saturated(rs[0]) {
        ScanAfterInsert(x, rs[1..]);
        assert FirstSaturated(rs) == FirstSaturated(rs[1..]);
        assert InsertByTarget(x, rs)[1..] == InsertByTarget(x, rs[1..]);
      }
    } else if |rs| > 0 && Saturated(x) && FirstSaturated(rs).Some? {
      var f := FirstSaturated(rs).value;
      var m :| 0 <= m < |rs| && rs[m] == f;
      assert rs[0].targetQps <= rs[m].targetQps;
    }
  }

  /** Sorting and taking the first saturated record is the reference definition. */
  lemma {:induction false} SortThenScan(rs: seq<RunRecord>)
    ensures FirstSaturated(SortByTarget(rs)) == LowestSaturated(rs)
    decreases |rs|
  {
    if |rs| > 0 {
      SortThenScan(rs[1..]);
      ScanAfterInsert(rs[0], SortByTarget(rs[1..]));
      LowestSaturatedCons(rs);
    }
  }

  /** The scan of `find_saturation` over one backend's runs: None exactly
      when no run is saturated; otherwise the achieved QPS (not the target) of
      a saturated run whose target is the lowest saturated target, every
      saturated run before it having a higher target. */
  function SaturationPoint(rs: seq<RunRecord>): (r: Option<real>)
    ensures r.None? <==> forall i :: 0 <= i < |rs| ==> !Saturated(rs[i])
    ensures r.Some? ==> exists k ::
      && 0 <= k < |rs| && Saturated(rs[k]) && r.value == rs[k].achievedQps
      && (forall i :: 0 <= i < |rs| && Saturated(rs[i]) ==> rs[k].targetQps <= rs[i].targetQps)
      && (forall i :: 0 <= i < k && Saturated(rs[i]) ==> rs[k].targetQps < rs[i].targetQps)
  {
    SortThenScan(rs);
    var first := FirstSaturated(SortByTarget(rs));
    if first.None? then None else Some(first.value.achievedQps)
  }

  /** `find_saturation`: over the runs of `logType` only, None exactly when
      none of them is saturated; otherwise the achieved QPS of one of its
      saturated runs with the lowest saturated target, the first such run
      in the input's order. */
  function FindSaturation(results: seq<RunRecord>, logType: string): (r: Option<real>)
    ensures r.None? <==>
      forall j :: 0 <= j < |results| && results[j].logType == logType ==> !Saturated(results[j])
    ensures r.Some? ==> exists i :: SaturatedAt(results, logType, i, r.value)
  {
    var rs := OfType(results, logType);
    SaturationOverFiltered(results, logType);
    var r := SaturationPoint(rs);
    assert r.Some? ==> exists i :: SaturatedAt(results, logType, i, r.value) by {
      SortThenScan(rs);
      var o := LowestSaturatedIndex(rs);
      if o.Some? {
        FilteredLowestIsLowest(results, logType, o.value);
        assert SaturatedAt(results, logType, SourceIndex(results, logType, o.value), r.value);
      }
    }
    r
  }

  /** None exactly when no run of `logType` is saturated. */
  lemma SaturationOverFiltered(results: seq<RunRecord>, logType: string)
    ensures SaturationPoint(OfType(results, logType)).None? <==>
      forall j :: 0 <= j < |results| && results[j].logType == logType ==> !Saturated(results[j])
  {
    var rs := OfType(results, logType);
    if forall j :: 0 <= j < |results| && results[j].logType == logType ==> !Saturated(results[j]) {
      forall m | 0 <= m < |rs| ensures !Saturated(rs[m]) {
        var j := SourceIndex(results, logType, m);
      }
    } else {
      var j :| 0 <= j < |results| && results[j].logType == logType && Saturated(results[j]);
      OfTypePosition(results, logType, j);
      assert Saturated(rs[|OfType(results[..j], logType)|]);
    }
  }

  /** The filtered run chosen by the scan is, in the input, a saturated run
      of `logType` with the lowest saturated target and no saturated run of
      the same target before it. */
  lemma FilteredLowestIsLowest(results: seq<RunRecord>, logType: string, k: nat)
    requires k < |OfType(results, logType)| && Saturated(OfType(results, logType)[k])
    requires forall i :: 0 <= i < |OfType(results, logType)| && Saturated(OfType(results, logType)[i]) ==>
      OfType(results, logType)[k].targetQps <= OfType(results, logType)[i].targetQps
    requires forall i :: 0 <= i < k && Saturated(OfType(results, logType)[i]) ==>
      OfType(results, logType)[k].targetQps < OfType(results, logType)[i].targetQps
    ensures SaturatedAt(results, logType, SourceIndex(results, logType, k), OfType(results, logType)[k].achievedQps)
  {
    var rs := OfType(results, logType);
    var i := SourceIndex(results, logType, k);
    forall j | 0 <= j < |results| && results[j].logType == logType && Saturated(results[j])
      ensures results[i].targetQps <= results[j].targetQps
      ensures j < i ==> results[i].targetQps < results[j].targetQps
    {
      OfTypePosition(results, logType, j);
      if j < i {
        EarlierOfType(results, logType, j, i);
      }
    }
  }

  /** Run `i` is a saturated run of `logType` achieving `v`, with the lowest
      saturated target, every saturated run before it having a higher one. */
  predicate SaturatedAt(results: seq<RunRecord>, logType: string, i: int, v: real) {
    && 0 <= i < |results| && results[i].logType == logType && Saturated(results[i])
    && v == results[i].achievedQps
    && (forall j :: 0 <= j < |results| && results[j].logType == logType && Saturated(results[j]) ==>
          results[i].targetQps <= results[j].targetQps)
    && (forall j :: 0 <= j < i && results[j].logType == logType && Saturated(results[j]) ==>
          results[i].targetQps < results[j].targetQps)
  }

  /** When `a` is the only saturated run, the saturation point is its
      achieved rate. */
  lemma OnlySaturatedRun(rs: seq<RunRecord>, a: RunRecord)
    requires a in rs && Saturated(a)
    requires forall i :: 0 <= i < |rs| && Saturated(rs[i]) ==> rs[i] == a
    ensures SaturationPoint(rs) == Some(a.achievedQps)
  {
    var i :| 0 <= i < |rs| && rs[i] == a;
    assert Saturated(rs[i]);
  }

  /** With runs at 250, 50 and 100 QPS achieving 180, 49 and 98, the
      saturation point reported is 180, the achieved rate of the 250 QPS run:
      the only run below 90% of its target. */
  lemma SaturationReportsAchieved()
    ensures FindSaturation([RunRecord("trillian", 250, 180.0, 0.0, 0.0),
                            RunRecord("trillian", 50, 49.0, 0.0, 0.0),
                            RunRecord("trillian", 100, 98.0, 0.0, 0.0)], "trillian") == Some(180.0)
  {
    var a := RunRecord("trillian", 250, 180.0, 0.0, 0.0);
    var rs := [a, RunRecord("trillian", 50, 49.0, 0.0, 0.0), RunRecord("trillian", 100, 98.0, 0.0, 0.0)];
    var ts := OfType(rs, "trillian");
    OnlySaturatedAmong(rs, ts, a);
    OnlySaturatedRun(ts, a);
  }

  lemma OnlySaturatedAmong(rs: seq<RunRecord>, ts: seq<RunRecord>, a: RunRecord)
    requires rs == [a, RunRecord("trillian", 50, 49.0, 0.0, 0.0), RunRecord("trillian", 100, 98.0, 0.0, 0.0)]
    requires a == RunRecord("trillian", 250, 180.0, 0.0, 0.0)
    requires forall r :: r in ts <==> r in rs && r.logType == "trillian"
    ensures a in ts && Saturated(a)
    ensures forall i :: 0 <= i < |ts| && Saturated(ts[i]) ==> ts[i] == a
  {
    forall i | 0 <= i < |ts| && Saturated(ts[i]) ensures ts[i] == a {
      assert ts[i] in ts;
    }
  }

  // ================================================================ crossover

  predicate IsTrillianRun(r: RunRecord) {
    r.logType == "trillian"
  }

  /** `find_crossover` files every run that is not Trillian's as TesseraCT's. */
  predicate IsNotTrillianRun(r: RunRecord) {
    r.logType != "trillian"
  }

  /** Both costs per million are positive and TesseraCT's is strictly lower. */
  predicate Favourable(tr: RunRecord, te: RunRecord) {
    te.costPer1m > 0.0 && tr.costPer1m > 0.0 && te.costPer1m < tr.costPer1m
  }

  /** The target levels in both tables, ascending. */
  function CommonLevels(levels: seq<int>, a: map<int, RunRecord>, b: map<int, RunRecord>): (r: seq<int>)
    requires StrictlyIncreasing(levels)
    ensures StrictlyIncreasing(r)
    ensures forall q :: q in r <==> q in levels && q in a && q in b
    decreases |levels|
  {
    if |levels| == 0 then []
    else
      var rest := CommonLevels(levels[1..], a, b);
      assert forall q :: q in levels <==> q == levels[0] || q in levels[1..] by {
        assert levels == [levels[0]] + levels[1..];
      }
      assert forall k :: 0 <= k < |rest| ==> levels[0] < rest[k] by {
        forall k | 0 <= k < |rest| ensures levels[0] < rest[k] {
          assert rest[k] in levels[1..];
          var m :| 0 <= m < |levels[1..]| && levels[1..][m] == rest[k];
          assert levels[m + 1] == rest[k];
        }
      }
      if levels[0] in a && levels[0] in b then [levels[0]] + rest else rest
  }

  /** `c` is the first favourable level both backends have, or None when there is none. */
  predicate IsCrossover(tr: map<int, RunRecord>, te: map<int, RunRecord>, c: Option<int>) {
    && (c.None? <==> forall q :: q in tr && q in te ==> !Favourable(tr[q], te[q]))
    && (c.Some? ==>
          && c.value in tr && c.value in te && Favourable(tr[c.value], te[c.value])
          && forall q :: q in tr && q in te && q < c.value ==> !Favourable(tr[q], te[q]))
  }

  /** The first loop of `find_crossover`: a table per backend, a later run
      at the same level overwriting an earlier one. */
  method TablesByQps(results: seq<RunRecord>) returns (trillianByQps: map<int, RunRecord>, tesseractByQps: map<int, RunRecord>)
    ensures trillianByQps == ByQps(results, IsTrillianRun)
    ensures tesseractByQps == ByQps(results, IsNotTrillianRun)
  {
    trillianByQps, tesseractByQps := map[], map[];
    var i := 0;
    while i < |results|
      invariant 0 <= i <= |results|
      invariant trillianByQps == ByQps(results[..i], IsTrillianRun)
      invariant tesseractByQps == ByQps(results[..i], IsNotTrillianRun)
    {
      assert results[..i + 1][..i] == results[..i];
      var r := results[i];
      if IsTrillianRun(r) {
        trillianByQps := trillianByQps[r.targetQps := r];
      } else {
        tesseractByQps := tesseractByQps[r.targetQps := r];
      }
      i := i + 1;
    }
    assert results[..i] == results;
  }

  /** The second loop of `find_crossover`: the first of `common` whose two
      runs are favourable. */
  method FirstFavourable(common: seq<int>, tr: map<int, RunRecord>, te: map<int, RunRecord>)
    returns (crossover: Option<int>)
    requires forall k :: 0 <= k < |common| ==> common[k] in tr && common[k] in te
    ensures crossover.None? <==> forall k :: 0 <= k < |common| ==> !Favourable(tr[common[k]], te[common[k]])
    ensures crossover.Some? ==> exists k ::
      && 0 <= k < |common| && common[k] == crossover.value && Favourable(tr[common[k]], te[common[k]])
      && forall j :: 0 <= j < k ==> !Favourable(tr[common[j]], te[common[j]])
  {
    var k := 0;
    while k < |common|
      invariant 0 <= k <= |common|
      invariant forall j :: 0 <= j < k ==> !Favourable(tr[common[j]], te[common[j]])
    {
      var qps := common[k];
      var trRun := tr[qps];
      var teRun := te[qps];
      if teRun.costPer1m > 0.0 && trRun.costPer1m > 0.0 {
        if teRun.costPer1m < trRun.costPer1m {
          assert Favourable(tr[common[k]], te[common[k]]);
          return Some(qps);
        }
      }
      k := k + 1;
    }
    return None;
  }

  /** The first favourable level of the ascending common levels is the crossover. */
  lemma FirstFavourableIsCrossover(common: seq<int>, tr: map<int, RunRecord>, te: map<int, RunRecord>, c: Option<int>)
    requires StrictlyIncreasing(common)
    requires forall k :: 0 <= k < |common| ==> common[k] in tr && common[k] in te
    requires forall q :: q in common <==> q in tr && q in te
    requires c.None? <==> forall k :: 0 <= k < |common| ==> !Favourable(tr[common[k]], te[common[k]])
    requires c.Some? ==> exists k ::
      && 0 <= k < |common| && common[k] == c.value && Favourable(tr[common[k]], te[common[k]])
      && forall j :: 0 <= j < k ==> !Favourable(tr[common[j]], te[common[j]])
    ensures IsCrossover(tr, te, c)
  {
    if c.None? {
      forall q | q in tr && q in te ensures !Favourable(tr[q], te[q]) {
        var m :| 0 <= m < |common| && common[m] == q;
      }
    } else {
      var k :| && 0 <= k < |common| && common[k] == c.value && Favourable(tr[common[k]], te[common[k]])
               && forall j :: 0 <= j < k ==> !Favourable(tr[common[j]], te[common[j]]);
      forall q | q in tr && q in te && q < c.value ensures !Favourable(tr[q], te[q]) {
        var m :| 0 <= m < |common| && common[m] == q;
        assert m < k;
      }
    }
  }

  /** `find_crossover`: fills a table per backend, then walks the levels both
      tables hold in ascending order and returns the first favourable one. */
  method FindCrossover(results: seq<RunRecord>) returns (crossover: Option<int>)
    ensures IsCrossover(ByQps(results, IsTrillianRun), ByQps(results, IsNotTrillianRun), crossover)
  {
    var trillianByQps, tesseractByQps := TablesByQps(results);
    forall q | q in trillianByQps && q in tesseractByQps ensures q in Levels(results) {
      ByQpsKeys(results, IsTrillianRun, q);
    }
    var levels := Levels(results);
    var common := CommonLevels(levels, trillianByQps, tesseractByQps);
    crossover := FirstFavourable(common, trillianByQps, tesseractByQps);
    FirstFavourableIsCrossover(common, trillianByQps, tesseractByQps, crossover);
  }

  // ================================================================ the report

  datatype InfraLabel = InfraLabel(sql: string, spanner: string)

  /** `get_infra_label`: the Cloud SQL tier and Spanner size of the three known tiers. */
  function GetInfraLabel(tier: string): (r: InfraLabel)
    ensures tier == "small" ==> r == InfraLabel("db-f1-micro", "100 PU")
    ensures tier == "medium" ==> r == InfraLabel("db-n1-standard-1", "300 PU")
    ensures tier == "large" ==> r == InfraLabel("db-n1-standard-2", "1000 PU")
    ensures tier !in {"small", "medium", "large"} ==> r == InfraLabel("unknown", "unknown")
  {
    if tier == "small" then InfraLabel("db-f1-micro", "100 PU")
    else if tier == "medium" then InfraLabel("db-n1-standard-1", "300 PU")
    else if tier == "large" then InfraLabel("db-n1-standard-2", "1000 PU")
    else InfraLabel("unknown", "unknown")
  }

  predicate IsTesseractRun(r: RunRecord) {
    r.logType == "tesseract"
  }

  /** One table row; None is printed as "—". */
  datatype ReportRow = ReportRow(
    qps: int,
    trillianQps: Option<real>,
    tesseractQps: Option<real>,
    trillianCost: Option<real>,
    tesseractCost: Option<real>)

  /** The achieved QPS and the cost cell of a backend at a level: blank when the
      backend has no run there, and the cost blank too unless it is positive. */
  predicate CellsAgree(qpsCell: Option<real>, costCell: Option<real>, byQps: map<int, RunRecord>, q: int) {
    && (qpsCell.Some? <==> q in byQps)
    && (qpsCell.Some? ==> qpsCell.value == byQps[q].achievedQps)
    && (costCell.Some? <==> q in byQps && byQps[q].costPer1m > 0.0)
    && (costCell.Some? ==> costCell.value == byQps[q].costPer1m)
  }

  /** The table of `generate_report`: one row per distinct target level, ascending. */
  method ReportRows(results: seq<RunRecord>) returns (rows: seq<ReportRow>)
    ensures var levels := Levels(results);
      && |rows| == |levels|
      && forall i :: 0 <= i < |rows| ==>
           && rows[i].qps == levels[i]
           && CellsAgree(rows[i].trillianQps, rows[i].trillianCost, ByQps(results, IsTrillianRun), levels[i])
           && CellsAgree(rows[i].tesseractQps, rows[i].tesseractCost, ByQps(results, IsTesseractRun), levels[i])
  {
    var levels := Levels(results);
    var trillianByQps := ByQps(results, IsTrillianRun);
    var tesseractByQps := ByQps(results, IsTesseractRun);
    rows := [];
    var k := 0;
    while k < |levels|
      invariant 0 <= k <= |levels| && |rows| == k
      invariant forall i :: 0 <= i < k ==>
        && rows[i].qps == levels[i]
        && CellsAgree(rows[i].trillianQps, rows[i].trillianCost, trillianByQps, levels[i])
        && CellsAgree(rows[i].tesseractQps, rows[i].tesseractCost, tesseractByQps, levels[i])
    {
      var qps := levels[k];
      var trQps, trCost, teQps, teCost := None, None, None, None;
      if qps in trillianByQps {
        var tr := trillianByQps[qps];
        trQps := Some(tr.achievedQps);
        if tr.costPer1m > 0.0 {
          trCost := Some(tr.costPer1m);
        }
      }
      if qps in tesseractByQps {
        var te := tesseractByQps[qps];
        teQps := Some(te.achievedQps);
        if te.costPer1m > 0.0 {
          teCost := Some(te.costPer1m);
        }
      }
      rows := rows + [ReportRow(qps, trQps, teQps, trCost, teCost)];
      k := k + 1;
    }
  }

  /** Python's `int(x)` on a float: truncation toward zero. */
  function TruncToInt(x: real): (n: int)
    ensures 0.0 <= x ==> n as real <= x < n as real + 1.0
    ensures x < 0.0 ==> n as real - 1.0 < x <= n as real
  {
    if x >= 0.0 then x.Floor else -((-x).Floor)
  }

  /** `max((r["target_qps"] for r in results if r["log_type"] == logType), default=0)`. */
  function MaxTarget(results: seq<RunRecord>, logType: string): (m: int)
    ensures (forall i :: 0 <= i < |results| ==> results[i].logType != logType) ==> m == 0
    ensures forall i :: 0 <= i < |results| && results[i].logType == logType ==> results[i].targetQps <= m
    ensures (exists i :: 0 <= i < |results| && results[i].logType == logType) ==>
      exists i :: 0 <= i < |results| && results[i].logType == logType && results[i].targetQps == m
    decreases |results|
  {
    if |results| == 0 then 0
    else
      var n := |results| - 1;
      var init := results[..n];
      var m := MaxTarget(init, logType);
      assert forall i :: 0 <= i < n ==> init[i] == results[i];
      var none := forall i :: 0 <= i < n ==> init[i].logType != logType;
      if results[n].logType != logType then m
      else if none || results[n].targetQps > m then results[n].targetQps
      else m
  }

  /** A backend's line of findings. */
  datatype SaturationFinding =
    | SaturatesAt(qps: int)          // "saturates at ~N QPS"
    | SustainsThrough(qps: int)      // "sustains target through N QPS"

  function SaturationFindingFor(results: seq<RunRecord>, logType: string): (f: SaturationFinding)
    ensures FindSaturation(results, logType).Some? ==> f == SaturatesAt(TruncToInt(FindSaturation(results, logType).value))
    ensures FindSaturation(results, logType).None? ==> f == SustainsThrough(MaxTarget(results, logType))
  {
    match FindSaturation(results, logType)
    case Some(v) => SaturatesAt(TruncToInt(v))
    case None => SustainsThrough(MaxTarget(results, logType))
  }

  datatype BenchmarkReport = BenchmarkReport(
    tier: string,
    rows: seq<ReportRow>,
    infra: InfraLabel,
    trillian: SaturationFinding,
    tesseract: SaturationFinding,
    crossover: Option<int>)   // None: "No cost-per-entry crossover detected"

  /** `generate_report`: the table, then the two saturation findings, then the crossover. */
  method GenerateReport(tier: string, results: seq<RunRecord>) returns (report: BenchmarkReport)
    ensures report.tier == tier && report.infra == GetInfraLabel(tier)
    ensures var levels := Levels(results);
      && |report.rows| == |levels|
      && forall i :: 0 <= i < |report.rows| ==>
           && report.rows[i].qps == levels[i]
           && CellsAgree(report.rows[i].trillianQps, report.rows[i].trillianCost, ByQps(results, IsTrillianRun), levels[i])
           && CellsAgree(report.rows[i].tesseractQps, report.rows[i].tesseractCost, ByQps(results, IsTesseractRun), levels[i])
    ensures report.trillian == SaturationFindingFor(results, "trillian")
    ensures report.tesseract == SaturationFindingFor(results, "tesseract")
    ensures IsCrossover(ByQps(results, IsTrillianRun), ByQps(results, IsNotTrillianRun), report.crossover)
  {
    var rows := ReportRows(results);
    var crossover := FindCrossover(results);
    report := BenchmarkReport(tier, rows, GetInfraLabel(tier),
                              SaturationFindingFor(results, "trillian"),
                              SaturationFindingFor(results, "tesseract"),
                              crossover);
  }
}
