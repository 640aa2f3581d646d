/** The README updater (`scripts/update_readme.py`): renders the latest
    results as a block, a table over the swept QPS levels or a single-level
    comparison, and splices it between the two result markers of README.md.
    The markdown text of a block, with its `:.2f`/`:.4f` number formatting,
    is a parameter (`render`); the block itself is the datatype it is printed
    from. */
module ReadmeUpdate {
  import opened Wrappers
  import opened Text
  import opened CostTables
  import opened RunRecords

  const MarkerStart: string := "<!-- BENCHMARK-RESULTS-START -->"
  const MarkerEnd: string := "<!-- BENCHMARK-RESULTS-END -->"

  // ================================================================ cells

  /** `tier_specs`: the tier's infrastructure as "<sql> / Spanner <pu> PU /
      <nodes>× <machine>", each missing field shown as "?"; the bare tier
      name when the table has no such tier or the tier is empty. */
  function TierSpecs(tierName: string, tiers: seq<(string, TierCosts)>): (r: string)
    ensures LookupTier(tiers, tierName).None? ==> r == tierName
    ensures LookupTier(tiers, tierName).Some? && LookupTier(tiers, tierName).value.IsEmpty() ==> r == tierName
    ensures LookupTier(tiers, tierName).Some? && !LookupTier(tiers, tierName).value.IsEmpty() ==>
      var t := LookupTier(tiers, tierName).value;
      r == t.cloudSqlTier.GetOr("?") + " / Spanner " + t.spannerUnits.GetOr("?") + " PU / "
           + t.nodeCount.GetOr("?") + "× " + t.machineType.GetOr("?")
  {
    match LookupTier(tiers, tierName)
    case None => tierName
    case Some(t) =>
      if t.IsEmpty() then tierName
      else t.cloudSqlTier.GetOr("?") + " / Spanner " + t.spannerUnits.GetOr("?") + " PU / "
           + t.nodeCount.GetOr("?") + "× " + t.machineType.GetOr("?")
  }

  /** `cost_per_1m`: the stored cost per million entries when it is positive,
      otherwise the hourly cost spread over an hour of achieved entries;
      None ("N/A") when nothing was achieved. */
  function CostPer1m(r: RunRecord): (c: Option<real>)
    ensures c.None? <==> r.costPer1m <= 0.0 && r.achievedQps <= 0.0
    ensures r.costPer1m > 0.0 ==> c == Some(r.costPer1m)
    ensures c.Some? && r.costPer1m <= 0.0 ==>
      r.achievedQps > 0.0 && c.value * r.achievedQps * 3600.0 == r.costPerHour * 1000000.0
  {
    if r.costPer1m > 0.0 then Some(r.costPer1m)
    else if r.achievedQps <= 0.0 then None
    else
      var v := r.costPerHour / (r.achievedQps * 3600.0) * 1000000.0;
      assert v * (r.achievedQps * 3600.0) == r.costPerHour * 1000000.0;
      Some(v)
  }

  /** A cost cell of the sweep table. */
  datatype CostCell = Dash | NotAvailable | Dollars(amount: real)

  function CostCellOf(r: Option<RunRecord>): (c: CostCell)
    ensures c == Dash <==> r.None?
    ensures c == NotAvailable <==> r.Some? && CostPer1m(r.value).None?
    ensures c.Dollars? ==> Some(c.amount) == CostPer1m(r.value)
  {
    match r
    case None => Dash
    case Some(x) =>
      match CostPer1m(x)
      case None => NotAvailable
      case Some(v) => Dollars(v)
  }

  // ================================================================ blocks

  /** The two lines above a table: the tier and its specs, and the update
      time, shown only when it is non-empty. */
  datatype Header = Header(tierName: string, specs: string, timestamp: Option<string>)

  function HeaderFor(tierName: string, timestamp: string, tiers: seq<(string, TierCosts)>): (h: Header)
    ensures h.tierName == tierName && h.specs == TierSpecs(tierName, tiers)
    ensures h.timestamp.Some? <==> timestamp != ""
    ensures h.timestamp.Some? ==> h.timestamp.value == timestamp
  {
    Header(tierName, TierSpecs(tierName, tiers), if timestamp != "" then Some(timestamp) else None)
  }

  /** One row of the sweep table; None is printed as "—". */
  datatype SweepRow = SweepRow(
    qps: int,
    trillianQps: Option<real>,
    tesseractQps: Option<real>,
    trillianCost: CostCell,
    tesseractCost: CostCell)

  datatype Block =
    | MissingResults                                   // "*Missing results for one or both systems.*"
    | SingleQps(header: Header, trillian: RunRecord, tesseract: RunRecord)
    | Sweep(header: Header, rows: seq<SweepRow>)

  /** A summary is a sweep when its runs target more than one QPS level. */
  predicate IsSweep(results: seq<RunRecord>) {
    |Levels(results)| > 1
  }

  /** `max(rs, key=lambda r: r.get("achieved_qps", 0))`: the first run with
      the highest achieved QPS. */
  function MaxAchieved(rs: seq<RunRecord>): (m: RunRecord)
    requires |rs| > 0
    ensures exists i ::
      && 0 <= i < |rs| && rs[i] == m
      && (forall j :: 0 <= j < |rs| ==> rs[j].achievedQps <= m.achievedQps)
      && (forall j :: 0 <= j < i ==> rs[j].achievedQps < m.achievedQps)
    decreases |rs|
  {
    if |rs| == 1 then rs[0]
    else
      var n := |rs| - 1;
      var init := rs[..n];
      var best := MaxAchieved(init);
      assert forall j :: 0 <= j < n ==> init[j] == rs[j];
      if rs[n].achievedQps > best.achievedQps then rs[n] else best
  }

  /** `generate_single_qps_block`: the fixed "missing" text unless both
      backends have runs; otherwise each backend's best run. */
  function SingleQpsBlock(results: seq<RunRecord>, header: Header): (b: Block)
    ensures b == MissingResults <==> |OfType(results, "trillian")| == 0 || |OfType(results, "tesseract")| == 0
    ensures b != MissingResults ==>
      b == SingleQps(header, MaxAchieved(OfType(results, "trillian")), MaxAchieved(OfType(results, "tesseract")))
  {
    var trillian := OfType(results, "trillian");
    var tesseract := OfType(results, "tesseract");
    if |trillian| == 0 || |tesseract| == 0 then MissingResults
    else SingleQps(header, MaxAchieved(trillian), MaxAchieved(tesseract))
  }

  /** The best run of a backend in the single-level block is one of its runs,
      and no run of that backend achieved more. */
  lemma SingleQpsPicksBest(results: seq<RunRecord>, header: Header)
    requires SingleQpsBlock(results, header).SingleQps?
    ensures var b := SingleQpsBlock(results, header);
      && b.trillian in results && b.trillian.logType == "trillian"
      && b.tesseract in results && b.tesseract.logType == "tesseract"
      && (forall r :: r in results && r.logType == "trillian" ==> r.achievedQps <= b.trillian.achievedQps)
      && (forall r :: r in results && r.logType == "tesseract" ==> r.achievedQps <= b.tesseract.achievedQps)
  {
    var b := SingleQpsBlock(results, header);
    var tr := OfType(results, "trillian");
    var te := OfType(results, "tesseract");
    assert b.trillian in tr && b.tesseract in te;
    forall r | r in results && r.logType == "trillian" ensures r.achievedQps <= b.trillian.achievedQps {
      var j :| 0 <= j < |tr| && tr[j] == r;
    }
    forall r | r in results && r.logType == "tesseract" ensures r.achievedQps <= b.tesseract.achievedQps {
      var j :| 0 <= j < |te| && te[j] == r;
    }
  }

  /** The row of level `q`: each backend's first run at that level. */
  function SweepRowFor(results: seq<RunRecord>, q: int): (row: SweepRow)
    ensures row.qps == q
    ensures row.trillianQps.Some? <==> FirstRecord(results, "trillian", q).Some?
    ensures row.tesseractQps.Some? <==> FirstRecord(results, "tesseract", q).Some?
    ensures row.trillianQps.Some? ==> row.trillianQps.value == FirstRecord(results, "trillian", q).value.achievedQps
    ensures row.tesseractQps.Some? ==> row.tesseractQps.value == FirstRecord(results, "tesseract", q).value.achievedQps
    ensures row.trillianCost == CostCellOf(FirstRecord(results, "trillian", q))
    ensures row.tesseractCost == CostCellOf(FirstRecord(results, "tesseract", q))
  {
    var tr := FirstRecord(results, "trillian", q);
    var te := FirstRecord(results, "tesseract", q);
    SweepRow(q,
             if tr.Some? then Some(tr.value.achievedQps) else None,
             if te.Some? then Some(te.value.achievedQps) else None,
             CostCellOf(tr), CostCellOf(te))
  }

  /** The rows of `generate_sweep_block`: one per distinct target level, ascending. */
  method SweepRows(results: seq<RunRecord>) returns (rows: seq<SweepRow>)
    ensures |rows| == |Levels(results)|
    ensures forall i :: 0 <= i < |rows| ==> rows[i] == SweepRowFor(results, Levels(results)[i])
  {
    var levels := Levels(results);
    rows := [];
    var k := 0;
    while k < |levels|
      invariant 0 <= k <= |levels| && |rows| == k
      invariant forall i :: 0 <= i < k ==> rows[i] == SweepRowFor(results, levels[i])
    {
      var qps := levels[k];
      var tr := FirstRecord(results, "trillian", qps);
      var te := FirstRecord(results, "tesseract", qps);
      var trQps := if tr.Some? then Some(tr.value.achievedQps) else None;
      var teQps := if te.Some? then Some(te.value.achievedQps) else None;
      rows := rows + [SweepRow(qps, trQps, teQps, CostCellOf(tr), CostCellOf(te))];
      k := k + 1;
    }
  }

  /** The sweep table covers every level exactly once, in ascending order. */
  lemma SweepRowsAscending(results: seq<RunRecord>, rows: seq<SweepRow>)
    requires |rows| == |Levels(results)|
    requires forall i :: 0 <= i < |rows| ==> rows[i] == SweepRowFor(results, Levels(results)[i])
    ensures forall i, j :: 0 <= i < j < |rows| ==> rows[i].qps < rows[j].qps
    ensures forall r :: r in results ==> exists i :: 0 <= i < |rows| && rows[i].qps == r.targetQps
  {
    var levels := Levels(results);
    forall r | r in results ensures exists i :: 0 <= i < |rows| && rows[i].qps == r.targetQps {
      var k :| 0 <= k < |results| && results[k] == r;
      assert r.targetQps in levels;
      var i :| 0 <= i < |levels| && levels[i] == r.targetQps;
      assert rows[i].qps == r.targetQps;
    }
  }

  /** The block the updater writes for a non-empty result list. */
  function BlockFor(results: seq<RunRecord>, header: Header): Block {
    if IsSweep(results) then
      Sweep(header, seq(|Levels(results)|, i requires 0 <= i < |Levels(results)| => SweepRowFor(results, Levels(results)[i])))
    else SingleQpsBlock(results, header)
  }

  // ================================================================ splice

  /** The README with the text between the first `start` marker and the
      first `end` marker replaced by the block on a line of its own; None
      (nothing is written) when either marker is missing. */
  function SpliceBetween(content: string, start: string, end: string, block: string): (r: Option<string>)
    ensures r.None? <==> !Contains(content, start) || !Contains(content, end)
  {
    var s := Find(content, start);
    var e := Find(content, end);
    if s == -1 || e == -1 then None
    else
      Some(content[..s + |start|] + "\n" + block + "\n" + content[e..])
  }

  /** The splice of the updater, between its two result markers. */
  function Splice(content: string, block: string): (r: Option<string>)
    ensures r.None? <==> !Contains(content, MarkerStart) || !Contains(content, MarkerEnd)
  {
    SpliceBetween(content, MarkerStart, MarkerEnd, block)
  }

  /** The three parts of a concatenation, sliced back out. */
  lemma ConcatParts(a: string, m: string, t: string)
    ensures var r := a + m + t;
      && |r| == |a| + |m| + |t|
      && r[..|a|] == a
      && r[|a|..|a| + |m|] == m
      && r[|a| + |m|..] == t
  {
    var r := a + m + t;
    assert r[..|a|] == a;
    assert r[|a|..|a| + |m|] == m;
    assert r[|a| + |m|..] == t;
  }

  /** The splice keeps everything up to and including the start marker and
      everything from the end marker on, and puts exactly "\n" + block + "\n"
      between them. */
  lemma SpliceReplacesBetweenMarkers(content: string, start: string, end: string, block: string)
    requires Contains(content, start) && Contains(content, end)
    ensures var s, e := Find(content, start), Find(content, end);
      var r := SpliceBetween(content, start, end, block).value;
      var head := s + |start|;
      && |r| == head + |block| + 2 + (|content| - e)
      && r[..head] == content[..head]
      && r[head..head + |block| + 2] == "\n" + block + "\n"
      && r[head + |block| + 2..] == content[e..]
  {
    var s, e := Find(content, start), Find(content, end);
    ConcatParts(content[..s + |start|], "\n" + block + "\n", content[e..]);
  }

  /** A match copied to another string is a match there. */
  lemma MatchCarried(c: string, r: string, pat: string, i: int, j: int)
    requires MatchAt(c, pat, i)
    requires 0 <= j && j + |pat| <= |r| && r[j..j + |pat|] == c[i..i + |pat|]
    ensures Contains(r, pat)
  {
    assert MatchAt(r, pat, j);
    ContainsIff(r, pat);
  }

  lemma EqualPrefixSlice(x: string, y: string, n: nat, a: nat)
    requires a <= n <= |x| && n <= |y| && x[..n] == y[..n]
    ensures x[a..n] == y[a..n]
  {
    assert x[a..n] == x[..n][a..];
    assert y[a..n] == y[..n][a..];
  }

  lemma EqualSuffixSlice(x: string, p: nat, y: string, q: nat, n: nat)
    requires p + n <= |x| && q <= |y| && x[p..] == y[q..]
    ensures q + n <= |y| && x[p..p + n] == y[q..q + n]
  {
    assert |x| - p == |y| - q;
    assert x[p..p + n] == x[p..][..n];
    assert y[q..q + n] == y[q..][..n];
  }

  /** The updated README still holds both markers, so the next update finds them. */
  lemma SpliceKeepsMarkers(content: string, start: string, end: string, block: string)
    requires Contains(content, start) && Contains(content, end)
    ensures Contains(SpliceBetween(content, start, end, block).value, start)
    ensures Contains(SpliceBetween(content, start, end, block).value, end)
  {
    var s, e := Find(content, start), Find(content, end);
    var r := SpliceBetween(content, start, end, block).value;
    var head := s + |start|;
    var tailAt := head + |block| + 2;
    SpliceReplacesBetweenMarkers(content, start, end, block);
    EqualPrefixSlice(r, content, head, s);
    MatchCarried(content, r, start, s, s);
    EqualSuffixSlice(r, tailAt, content, e, |end|);
    MatchCarried(content, r, end, e, tailAt);
  }

  /** After an update the README still holds both result markers. */
  lemma UpdateKeepsMarkers(content: string, block: string)
    requires Splice(content, block).Some?
    ensures Contains(Splice(content, block).value, MarkerStart)
    ensures Contains(Splice(content, block).value, MarkerEnd)
  {
    SpliceKeepsMarkers(content, MarkerStart, MarkerEnd, block);
  }

  // ================================================================ the update

  /** What `update_readme` reads from the summary: its results, tier name
      ("unknown" when absent or for a bare list) and timestamp ("" likewise). */
  function ReadSummary(s: Summary): (r: Option<(seq<RunRecord>, string, string)>)
    ensures r.None? <==> s.SummaryOther? || (s.SummaryObject? && s.results.None?)
    ensures s.SummaryList? ==> r == Some((s.records, "unknown", ""))
    ensures s.SummaryObject? && s.results.Some? ==>
      r == Some((s.results.value, s.tier.GetOr("unknown"), s.timestamp.GetOr("")))
  {
    match s
    case SummaryObject(tier, timestamp, results) =>
      if results.Some? then Some((results.value, tier.GetOr("unknown"), timestamp.GetOr(""))) else None
    case SummaryList(records) => Some((records, "unknown", ""))
    case SummaryOther => None
  }

  /** The block of `update_readme`: a sweep table when the results span more
      than one level, the single-level table otherwise. This is the
      statement-by-statement form of the script's branch, with the sweep rows
      built by the `SweepRows` loop; `BlockFor` is its value form, which the
      lemmas (and functions, which cannot call a method) use. */
  method BuildBlock(results: seq<RunRecord>, header: Header) returns (block: Block)
    ensures block == BlockFor(results, header)
  {
    if |Levels(results)| > 1 {
      var rows := SweepRows(results);
      assert rows == seq(|Levels(results)|, i requires 0 <= i < |Levels(results)| =>
                         SweepRowFor(results, Levels(results)[i]));
      block := Sweep(header, rows);
    } else {
      block := SingleQpsBlock(results, header);
    }
  }

  /** The splice as `update_readme` performs it: both markers are located
      with `find`, with an early return when one is missing, and the text
      between them replaced. `Splice` is the value form, defined through
      `SpliceBetween`, about which the marker lemmas are proved; this method
      ties the script's index arithmetic to it. */
  method SpliceText(content: string, text: string) returns (r: Option<string>)
    ensures r == Splice(content, text)
  {
    var startIdx := Find(content, MarkerStart);
    var endIdx := Find(content, MarkerEnd);
    if startIdx == -1 || endIdx == -1 {
      return None;
    }
    return Some(content[..startIdx + |MarkerStart|] + "\n" + text + "\n" + content[endIdx..]);
  }

  datatype UpdateOutcome = Written(content: string) | NotWritten(reason: string)

  /** `update_readme`: `summary` is None when the summary file does not exist,
      `tiers` is the cost table (empty without costs.json), `content` the
      README, and `render` prints a block. */
  method UpdateReadme(summary: Option<Summary>, tiers: seq<(string, TierCosts)>, content: string,
                      render: Block -> string)
    returns (outcome: UpdateOutcome)
    ensures outcome.Written? <==>
      && summary.Some? && ReadSummary(summary.value).Some?
      && |ReadSummary(summary.value).value.0| > 0
      && Contains(content, MarkerStart) && Contains(content, MarkerEnd)
    ensures outcome.Written? ==>
      var (results, tierName, timestamp) := ReadSummary(summary.value).value;
      Some(outcome.content) == Splice(content, render(BlockFor(results, HeaderFor(tierName, timestamp, tiers))))
  {
    if summary.None? {
      return NotWritten("benchmark_summary.json not found");
    }
    var data := ReadSummary(summary.value);
    if data.None? {
      return NotWritten("Unrecognized benchmark_summary.json format");
    }
    var (allResults, tierName, timestamp) := data.value;
    if |allResults| == 0 {
      return NotWritten("No results in benchmark_summary.json");
    }
    var header := HeaderFor(tierName, timestamp, tiers);
    var block := BuildBlock(allResults, header);
    var text := render(block);
    var newContent := SpliceText(content, text);
    if newContent.None? {
      return NotWritten("Could not find benchmark result markers in README.md");
    }
    return Written(newContent.value);
  }
}
