/** The per-run records of `benchmark_summary.json` that the report generator
    and the README updater read, and the grouping operations both share:
    the sorted set of target-QPS levels, the records of one backend, and the
    record kept for a level (the last one written, or the first one found). */
module RunRecords {
  import opened Wrappers

  /** One benchmark run. A numeric field the file leaves out reads as 0. */
  datatype RunRecord = RunRecord(
    logType: string,       // log_type: "trillian" or "tesseract"
    targetQps: int,        // target_qps
    achievedQps: real,     // achieved_qps
    costPerHour: real,     // cost_per_hour
    costPer1m: real)       // cost_per_1m_entries

  /** The top level of the summary file: an object (its "results" key may be
      missing), a bare list of records (the legacy format), or anything else. */
  datatype Summary =
    | SummaryObject(tier: Option<string>, timestamp: Option<string>, results: Option<seq<RunRecord>>)
    | SummaryList(records: seq<RunRecord>)
    | SummaryOther

  // ---------------------------------------------------------------- sorted levels

  predicate StrictlyIncreasing(s: seq<int>) {
    forall i, j :: 0 <= i < j < |s| ==> s[i] < s[j]
  }

  /** Inserts `q` into strictly increasing `levels`, unless it is already there. */
  function InsertLevel(levels: seq<int>, q: int): (r: seq<int>)
    requires StrictlyIncreasing(levels)
    ensures StrictlyIncreasing(r)
    ensures forall x :: x in r <==> x in levels || x == q
    decreases |levels|
  {
    if |levels| == 0 then [q]
    else if q < levels[0] then [q] + levels
    else if q == levels[0] then levels
    else
      var rest := InsertLevel(levels[1..], q);
      assert forall x :: x in levels[1..] ==> levels[0] < x by {
        forall x | x in levels[1..] ensures levels[0] < x {
          var k :| 0 <= k < |levels[1..]| && levels[1..][k] == x;
          assert levels[k + 1] == x;
        }
      }
      assert forall k :: 0 <= k < |rest| ==> rest[k] in rest;
      [levels[0]] + rest
  }

  /** `sorted(set(r["target_qps"] for r in results))`: every level that some
      record targets, once each, ascending. */
  function Levels(results: seq<RunRecord>): (levels: seq<int>)
    ensures StrictlyIncreasing(levels)
    ensures forall q :: q in levels <==> exists i :: 0 <= i < |results| && results[i].targetQps == q
    decreases |results|
  {
    if |results| == 0 then []
    else
      var n := |results| - 1;
      var levels := InsertLevel(Levels(results[..n]), results[n].targetQps);
      assert forall i :: 0 <= i < n ==> results[..n][i] == results[i];
      levels
  }

  // ---------------------------------------------------------------- one backend's records

  /** `[r for r in results if r["log_type"] == logType]`. */
  function OfType(results: seq<RunRecord>, logType: string): (rs: seq<RunRecord>)
    ensures |rs| <= |results|
    ensures forall r :: r in rs <==> r in results && r.logType == logType
    decreases |results|
  {
    if |results| == 0 then []
    else
      var rest := OfType(results[..|results| - 1], logType);
      var last := results[|results| - 1];
      assert forall r :: r in results <==> r in results[..|results| - 1] || r == last by {
        assert results == results[..|results| - 1] + [last];
      }
      if last.logType == logType then rest + [last] else rest
  }

  /** The filter keeps every copy of each record of the wanted type and no
      copy of any other record. */
  lemma {:induction false} OfTypeMultiset(results: seq<RunRecord>, logType: string)
    ensures forall r :: multiset(OfType(results, logType))[r] ==
                        (if r.logType == logType then multiset(results)[r] else 0)
    decreases |results|
  {
    if |results| > 0 {
      var init := results[..|results| - 1];
      var x := results[|results| - 1];
      assert results == init + [x];
      OfTypeMultiset(init, logType);
      OfTypeSnoc(init, x, logType);
      assert multiset(results) == multiset(init) + multiset{x};
    }
  }

  /** Filtering one more record appends it exactly when it has the wanted type. */
  lemma OfTypeSnoc(results: seq<RunRecord>, x: RunRecord, logType: string)
    ensures OfType(results + [x], logType) == OfType(results, logType) + (if x.logType == logType then [x] else [])
  {
    assert (results + [x])[..|results|] == results;
  }

  /** The filter keeps the input order: filtering a concatenation filters each part. */
  lemma {:induction false} OfTypeAppend(a: seq<RunRecord>, b: seq<RunRecord>, logType: string)
    ensures OfType(a + b, logType) == OfType(a, logType) + OfType(b, logType)
    decreases |b|
  {
    if |b| == 0 {
      assert a + b == a;
    } else {
      var init := b[..|b| - 1];
      var x := b[|b| - 1];
      var e := if x.logType == logType then [x] else [];
      assert b == init + [x];
      assert a + b == (a + init) + [x];
      calc {
        OfType(a + b, logType);
        { OfTypeSnoc(a + init, x, logType); }
        OfType(a + init, logType) + e;
        { OfTypeAppend(a, init, logType); }
        (OfType(a, logType) + OfType(init, logType)) + e;
        OfType(a, logType) + (OfType(init, logType) + e);
        { OfTypeSnoc(init, x, logType); }
        OfType(a, logType) + OfType(b, logType);
      }
    }
  }

  /** A record of the wanted type sits in the filtered list right after the
      records of that type before it. */
  lemma OfTypePosition(results: seq<RunRecord>, logType: string, j: nat)
    requires j < |results| && results[j].logType == logType
    ensures |OfType(results[..j], logType)| < |OfType(results, logType)|
    ensures OfType(results, logType)[|OfType(results[..j], logType)|] == results[j]
  {
    assert results == results[..j] + ([results[j]] + results[j + 1..]);
    OfTypeAppend(results[..j], [results[j]] + results[j + 1..], logType);
    OfTypeAppend([results[j]], results[j + 1..], logType);
    OfTypeSnoc([], results[j], logType);
    assert [] + [results[j]] == [results[j]];
  }

  /** Where the `k`-th filtered record sits in the input: a record of that
      type, preceded there by exactly `k` records of that type. */
  function SourceIndex(results: seq<RunRecord>, logType: string, k: nat): (i: nat)
    requires k < |OfType(results, logType)|
    ensures i < |results| && results[i].logType == logType
    ensures |OfType(results[..i], logType)| == k && results[i] == OfType(results, logType)[k]
    decreases |results|
  {
    var init := results[..|results| - 1];
    var x := results[|results| - 1];
    assert results == init + [x];
    OfTypeSnoc(init, x, logType);
    if k < |OfType(init, logType)| then
      var i := SourceIndex(init, logType, k);
      assert results[..i] == init[..i];
      i
    else
      assert results[..|init|] == init;
      |init|
  }

  /** A record of the wanted type before position `i` comes earlier in the
      filtered list than anything from position `i` on. */
  lemma EarlierOfType(results: seq<RunRecord>, logType: string, j: nat, i: nat)
    requires j < i <= |results| && results[j].logType == logType
    ensures |OfType(results[..j], logType)| < |OfType(results[..i], logType)|
  {
    var pre := results[..j];
    var upto := results[..j + 1];
    assert upto == pre + [results[j]];
    OfTypeSnoc(pre, results[j], logType);
    assert |OfType(upto, logType)| == |OfType(pre, logType)| + 1;
    OfTypePrefixGrows(results, logType, j + 1, i);
  }

  /** Filtering a longer prefix keeps at least as many records. */
  lemma OfTypePrefixGrows(results: seq<RunRecord>, logType: string, i: nat, j: nat)
    requires i <= j <= |results|
    ensures |OfType(results[..i], logType)| <= |OfType(results[..j], logType)|
  {
    assert results[..j] == results[..i] + results[i..j];
    OfTypeAppend(results[..i], results[i..j], logType);
  }

  /** `{r["target_qps"]: r for r in results if keep(r)}`: a later record at the
      same level overwrites an earlier one. */
  function ByQps(results: seq<RunRecord>, keep: RunRecord -> bool): map<int, RunRecord>
    decreases |results|
  {
    if |results| == 0 then map[]
    else
      var m := ByQps(results[..|results| - 1], keep);
      var r := results[|results| - 1];
      if keep(r) then m[r.targetQps := r] else m
  }

  /** `r` is kept, at level `q`. */
  predicate KeptAt(keep: RunRecord -> bool, r: RunRecord, q: int) {
    keep(r) && r.targetQps == q
  }

  /** A level is present exactly when some kept record has it. */
  lemma {:induction false} ByQpsKeys(results: seq<RunRecord>, keep: RunRecord -> bool, q: int)
    ensures q in ByQps(results, keep) <==> exists i :: 0 <= i < |results| && KeptAt(keep, results[i], q)
    decreases |results|
  {
    if |results| > 0 {
      var n := |results| - 1;
      var init := results[..n];
      ByQpsKeys(init, keep, q);
      assert forall i :: 0 <= i < n ==> init[i] == results[i];
      if exists i :: 0 <= i < |results| && KeptAt(keep, results[i], q) {
        var i :| 0 <= i < |results| && KeptAt(keep, results[i], q);
        if i < n {
          assert KeptAt(keep, init[i], q);
        }
      }
    }
  }

  /** The record of a level is the last kept record at that level. */
  lemma {:induction false} ByQpsIsLastWriter(results: seq<RunRecord>, keep: RunRecord -> bool, q: int)
    requires q in ByQps(results, keep)
    ensures exists i ::
      && 0 <= i < |results| && ByQps(results, keep)[q] == results[i]
      && KeptAt(keep, results[i], q)
      && forall j :: i < j < |results| ==> !KeptAt(keep, results[j], q)
    decreases |results|
  {
    var n := |results| - 1;
    var init := results[..n];
    var r := results[n];
    if KeptAt(keep, r, q) {
      assert ByQps(results, keep)[q] == results[n];
    } else {
      assert ByQps(results, keep)[q] == ByQps(init, keep)[q];
      ByQpsIsLastWriter(init, keep, q);
      var i :| 0 <= i < |init| && ByQps(init, keep)[q] == init[i]
        && KeptAt(keep, init[i], q)
        && forall j :: i < j < |init| ==> !KeptAt(keep, init[j], q);
      assert init[i] == results[i];
      forall j | i < j < |results| ensures !KeptAt(keep, results[j], q) {
        if j < n {
          assert init[j] == results[j];
        }
      }
    }
  }

  /** `next((r for r in results if r["log_type"] == logType and r["target_qps"] == q), None)`. */
  function FirstRecord(results: seq<RunRecord>, logType: string, q: int): (r: Option<RunRecord>)
    ensures r.None? <==> forall i :: 0 <= i < |results| ==> !(results[i].logType == logType && results[i].targetQps == q)
    ensures r.Some? ==>
      && r.value.logType == logType && r.value.targetQps == q
      && exists i :: 0 <= i < |results| && results[i] == r.value
           && forall j :: 0 <= j < i ==> !(results[j].logType == logType && results[j].targetQps == q)
    decreases |results|
  {
    if |results| == 0 then None
    else if results[0].logType == logType && results[0].targetQps == q then Some(results[0])
    else
      var r := FirstRecord(results[1..], logType, q);
      assert forall i :: 1 <= i < |results| ==> results[1..][i - 1] == results[i];
      if r.Some? then
        var i :| 0 <= i < |results[1..]| && results[1..][i] == r.value
          && forall j :: 0 <= j < i ==> !(results[1..][j].logType == logType && results[1..][j].targetQps == q);
        assert results[i + 1] == r.value;
        r
      else r
  }
}
