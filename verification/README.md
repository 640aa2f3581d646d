# ctlog-benchmarks scripts, modelled in Dafny

ctlog-benchmarks compares two Certificate Transparency log back-ends on
Google Cloud: Trillian (backed by Cloud SQL / MySQL) and TesseraCT (backed
by Spanner). A set of Python scripts does the work:

- run a load test against each log and gate its results (`benchmark.py`);
- price each run from a fixed hourly cost table (`metrics.py`);
- summarise a QPS sweep: saturation points and the cost crossover (`report.py`);
- splice the latest results into the project README between two markers
  (`update_readme.py`);
- check the cost table against the live Cloud Billing catalog and report
  price drift (`validate_costs.py`).

This project models the decision logic of those scripts and proves what
each one promises. Process runs, HTTP, files and clocks become parameters.

| Dafny file | module | models |
|---|---|---|
| `wrappers.dfy` | `Wrappers` | `Option` and `Result` |
| `text.dfy` | `Text` | Python's `str.find`, `split`, `join`, `strip`, `lower`, `int()`, `str()` on text |
| `cost_tables.dfy` | `CostTables` | the `costs.json` document: a flat legacy table or named tiers |
| `cost_model.dfy` | `CostModel` | `scripts/metrics.py` |
| `run_records.dfy` | `RunRecords` | `benchmark_summary.json` records, grouping by level and back-end |
| `report.dfy` | `Report` | `scripts/report.py` |
| `readme_update.dfy` | `ReadmeUpdate` | `scripts/update_readme.py` |
| `benchmark.dfy` | `Benchmark` | the pure parts of `scripts/benchmark.py` |
| `price_drift.dfy` | `PriceDrift` | `scripts/validate_costs.py` |

How the Python is modelled:

- Python's text operations are written out exactly. This covers `find`,
  `split` on a separator, `join`, whitespace `strip`, the `s[-3:]` slice,
  `int()` of an optional sign and digits, `//`, and `int(x / 10)` truncation.
- Prices and rates are `real`.
- `round(x, n)` is exact round-half-even, as Python rounds decimal values.
- The billing catalog fetch is a parameter `fetch: string -> Option<seq<Sku>>`.
  `None` stands for a failed request.
- The SKU cache of `validate_costs.py` is a class `PriceDrift.SkuCache`.
  Its `entries` map is updated in place, and one instance is shared by every
  tier of a run.
- The loops of the scripts are methods with loop invariants. Each is proved
  equal to a specification function, or characterised as a first match, and
  the properties are proved about those functions:
  - scanning a configuration for `log_id:`;
  - building the certificate chain;
  - collecting sweep rows;
  - the crossover search;
  - the per-tier validation and roll-up.

Differences within the code itself. In each case the model follows what the
code does:

- The docstring of `find_saturation` (`scripts/report.py:24`) speaks of the
  QPS *level* where achieved drops below 90% of target. Line 31 returns the
  *achieved* QPS of the first saturated run, not its target. The report then
  prints `int()` of that value.
- When the summary file holds a bare list, `report.py` names the tier
  `"small"` (`scripts/report.py:17`). `update_readme.py` names it
  `"unknown"` (`scripts/update_readme.py:107`). A summary object without a
  `tier` key gives `"unknown"` in both.
- The docstring of `validate_costs.py` (line 14) documents exit 0 as "All
  prices within threshold". The roll-up (`scripts/validate_costs.py:494-498`,
  `519-524`) looks only for DRIFT, API_ERROR and ERROR results, so a run whose
  every check is NOT_FOUND or NO_PRICE also exits 0, though no price was
  compared. `PriceDrift.ExitCodeIgnoresUnverifiable` proves that such
  results never change the exit code.
- `find_crossover` puts every record whose `log_type` is not `"trillian"`
  into the TesseraCT table (`scripts/report.py:45-46`).
  `generate_report` uses only the records whose `log_type` is exactly
  `"tesseract"` (`scripts/report.py:80`).

## Model

| member | source | states |
|---|---|---|
| Text.Find | scripts/update_readme.py:129-130 | `str.find`: -1 exactly when the pattern occurs nowhere, otherwise the first index where it occurs |
| Text.Split | scripts/benchmark.py:30-32 | `str.split(sep)`: at least one piece, and no piece contains the separator. Without a separator the text is the one piece; otherwise there are at least two, and the first is the text before the first separator |
| Text.JoinSplit | scripts/benchmark.py:86-88 | joining the pieces of a split with the same separator gives back the original text |
| Text.SplitJoin | scripts/benchmark.py:69-71 | splitting a join of separator-free pieces gives back the pieces |
| Text.Strip | scripts/benchmark.py:14 | `strip()` yields the slice that drops the leading and trailing whitespace, and nothing else; its ends are not whitespace |
| Text.ParseIntToString | scripts/benchmark.py:71 | `int(str(n)) == n` for every integer |
| Text.Remove | scripts/benchmark.py:88 | `replace(c, "")`: the result holds no `c`, every character of it comes from the input, and a text without `c` is unchanged |
| Text.RemoveAppend | scripts/benchmark.py:88 | removal works piece by piece and keeps the order of what is left: removing from `a + b` is removing from `a`, then from `b` |
| Text.RemoveOne | scripts/benchmark.py:88 | a single character is dropped when it is `c` and kept otherwise |
| Text.StripUnchanged | scripts/benchmark.py:32 | text with no whitespace at its ends is unchanged by `strip()` |
| CostTables.LookupTier | scripts/metrics.py:14-18 | a tier is found exactly when the table names it, and the entry found is that tier's |
| CostModel.LoadCosts | scripts/metrics.py:9-21 | a flat document is itself the table; a tiered one yields the named tier, or `UnknownTier` exactly when that tier is absent |
| CostModel.Report | scripts/metrics.py:24-73 | succeeds exactly when every key read is present. Duration is (end-start)/3600 h. Shared hourly is half the shared total. Dedicated is the back-end's rate. Two cost entries, each a rate times the duration. The hourly sum and the total are the sum of the entries |
| CostModel.AnalyzeBenchmark | scripts/metrics.py:24-38 | succeeds exactly when the tier loads and has every key; an unknown tier is reported as such |
| CostModel.SharedComponentsHalved | scripts/metrics.py:40-50 | each of the three shared components, named as in the report, is charged at half its listed hourly rate |
| CostModel.TotalIsHourlyTimesDuration | scripts/metrics.py:67-71 | the total cost equals the hourly cost times the duration, and times 3600 equals the hourly cost times the elapsed seconds |
| CostModel.ReportTotal | scripts/metrics.py:67-71 | the same identity, for a report built from a loaded table |
| CostModel.TotalOfTwoItems | scripts/metrics.py:67-71 | summing two line items, each a rate times the duration, gives the combined rate times the duration |
| CostModel.FlatIgnoresTier | scripts/metrics.py:19-21 | a legacy flat document gives the same report whatever tier is named |
| RunRecords.InsertLevel | scripts/report.py:76 | inserting a level into a strictly increasing list keeps it strictly increasing, and adds exactly that level |
| RunRecords.Levels | scripts/report.py:76 | `sorted(set(target_qps))`: strictly increasing, and holds exactly the levels some record targets |
| RunRecords.OfType | scripts/report.py:26 | the records of one back-end: exactly the records with that `log_type`, never more than the input |
| RunRecords.OfTypeMultiset | scripts/report.py:26 | every copy of a record of that type is kept, and no copy of any other record |
| RunRecords.OfTypeSnoc | scripts/report.py:26 | one more record is appended to the filtered list exactly when it has that type |
| RunRecords.OfTypeAppend | scripts/report.py:26 | the filter keeps input order: filtering a concatenation concatenates the filtered parts |
| RunRecords.OfTypePosition | scripts/report.py:26 | a record of that type sits in the filtered list right after the records of that type before it |
| RunRecords.SourceIndex | scripts/report.py:26 | the k-th filtered record is a record of the input of that type, preceded there by exactly k records of that type |
| RunRecords.EarlierOfType | scripts/report.py:26 | a record of that type before position i comes before everything the filter keeps from position i on |
| RunRecords.OfTypePrefixGrows | scripts/report.py:26 | filtering a longer prefix keeps at least as many records |
| RunRecords.ByQpsKeys | scripts/report.py:79-80 | a level is a key of the per-level table exactly when some kept record targets it |
| RunRecords.ByQpsIsLastWriter | scripts/report.py:40-46 | the record stored for a level is a kept record at that level, and no later record is kept at that level |
| RunRecords.FirstRecord | scripts/update_readme.py:81-82 | `next(...)`: None exactly when no record matches; otherwise a matching record with no match before it |
| Report.LoadSummary | scripts/report.py:9-20 | an object with `results` yields its tier (default "unknown"); a bare list yields tier "small"; anything else is refused |
| Report.InsertByTarget | scripts/report.py:25-28 | inserting into a list sorted by target keeps it sorted, and the result is a permutation of the list plus the new record |
| Report.SortByTarget | scripts/report.py:25-28 | the result is sorted by target QPS and is a permutation of the input |
| Report.FirstSaturated | scripts/report.py:29-31 | None exactly when no run is saturated; otherwise a saturated run of the list |
| Report.LowestSaturatedIndex | scripts/report.py:29-31 | the index of a saturated run whose target is the least among the saturated runs, and strictly less than that of every earlier saturated run |
| Report.SortThenScan | scripts/report.py:25-31 | scanning the stably sorted list finds the first of the lowest-target saturated runs in input order |
| Report.SaturationPoint | scripts/report.py:23-35 | None exactly when no run is below 90% of a positive target. Otherwise the achieved QPS of a saturated run whose target is the lowest saturated target, the first such run in input order |
| Report.FindSaturation | scripts/report.py:23-35 | only runs of the requested `log_type` count. None exactly when none of them is saturated. Otherwise the achieved QPS of a saturated run of that type whose target is the lowest saturated target of that type, with every saturated run of that type before it in the input having a higher target |
| Report.SaturationOverFiltered | scripts/report.py:25-31 | the scan over one back-end's runs finds nothing exactly when no run of that type in the input is saturated |
| Report.FilteredLowestIsLowest | scripts/report.py:25-31 | the run the scan picks from the filtered list is, in the input, the first saturated run of that type with the lowest saturated target |
| Report.OnlySaturatedRun | scripts/report.py:29-31 | when exactly one run is saturated, its achieved QPS is the saturation point |
| Report.SaturationReportsAchieved | scripts/report.py:31 | a sweep whose only saturated Trillian run targets 250 and achieves 180 reports 180.0 |
| Report.CommonLevels | scripts/report.py:48 | the sorted intersection of the two tables' levels: strictly increasing, exactly the levels in both |
| Report.TablesByQps | scripts/report.py:40-46 | the two per-level tables: the last Trillian record per level, and the last record of any other type per level |
| Report.FirstFavourable | scripts/report.py:49-55 | None exactly when no common level has both costs positive with TesseraCT's lower; otherwise the first such level |
| Report.FirstFavourableIsCrossover | scripts/report.py:48-55 | that scan's result is the least favourable level present in both tables, or None when there is none |
| Report.FindCrossover | scripts/report.py:38-55 | the crossover is the lowest level where both tables have a record, both costs are positive and TesseraCT is cheaper; None when no level qualifies |
| Report.GetInfraLabel | scripts/report.py:58-66 | the SQL and Spanner labels of the three known tiers, "unknown" for any other tier |
| Report.ReportRows | scripts/report.py:86-93 | one row per level, in ascending order. Each QPS cell is present exactly when that back-end has a record at the level. Each cost cell is present exactly when that record's cost is positive |
| Report.TruncToInt | scripts/report.py:105 | `int(x)` truncates toward zero |
| Report.MaxTarget | scripts/report.py:107 | `max(..., default=0)`: 0 with no run of that type, otherwise the largest target among them |
| Report.SaturationFindingFor | scripts/report.py:104-114 | a saturated back-end is reported at `int()` of its saturation point; otherwise as sustaining through its highest target |
| Report.GenerateReport | scripts/report.py:69-124 | the report carries the tier, its labels, the rows of every level, each back-end's finding, and the crossover as `FindCrossover` defines it |
| ReadmeUpdate.TierSpecs | scripts/update_readme.py:18-27 | an absent or empty tier is described by its name; any other is described by its SQL tier, Spanner units, node count and machine, with "?" for absent fields |
| ReadmeUpdate.CostPer1m | scripts/update_readme.py:30-38 | a positive recorded cost is used as is. Otherwise the cost is derived from the hourly cost and the achieved QPS. N/A exactly when neither is positive |
| ReadmeUpdate.CostCellOf | scripts/update_readme.py:83-86 | a dash exactly when the level has no record, N/A exactly when its cost cannot be computed, otherwise that cost |
| ReadmeUpdate.HeaderFor | scripts/update_readme.py:53-57 | the header names the tier and its specs, and shows a timestamp exactly when one is given |
| ReadmeUpdate.MaxAchieved | scripts/update_readme.py:49-50 | `max(key=achieved_qps)`: a record of the list whose achieved QPS is at least every other's, and strictly above every earlier one's |
| ReadmeUpdate.SingleQpsBlock | scripts/update_readme.py:41-64 | "missing results" exactly when one back-end has no runs; otherwise the single-QPS block with the given header and each back-end's best run |
| ReadmeUpdate.SingleQpsPicksBest | scripts/update_readme.py:43-50 | each side of a single-QPS block is a run of that back-end with the highest achieved QPS |
| ReadmeUpdate.SweepRowFor | scripts/update_readme.py:81-87 | a sweep row shows the level and each back-end's first record at it: achieved QPS and cost cell, or a dash |
| ReadmeUpdate.SweepRows | scripts/update_readme.py:79-87 | one row per distinct level, each built from the first matching records |
| ReadmeUpdate.SweepRowsAscending | scripts/update_readme.py:79 | the rows' levels strictly increase, and every record's level has a row |
| ReadmeUpdate.SpliceBetween | scripts/update_readme.py:129-141 | refused exactly when either marker is absent |
| ReadmeUpdate.Splice | scripts/update_readme.py:129-141 | the README splice is refused exactly when a results marker is missing |
| ReadmeUpdate.SpliceReplacesBetweenMarkers | scripts/update_readme.py:135-141 | the new text is everything up to and including the start marker, a newline, the block, a newline, then everything from the end marker on |
| ReadmeUpdate.SpliceKeepsMarkers | scripts/update_readme.py:135-141 | both markers are still present after a splice, so the update can be repeated |
| ReadmeUpdate.UpdateKeepsMarkers | scripts/update_readme.py:129-141 | the same for the README's own two markers |
| ReadmeUpdate.ReadSummary | scripts/update_readme.py:100-111 | an object with `results` yields its records, tier (default "unknown") and timestamp (default ""); a list yields "unknown" and ""; anything else is refused |
| ReadmeUpdate.BuildBlock | scripts/update_readme.py:119-124 | more than one distinct level gives the sweep block, otherwise the single-QPS block |
| ReadmeUpdate.SpliceText | scripts/update_readme.py:129-141 | the `find`-based splice agrees with `Splice` |
| ReadmeUpdate.UpdateReadme | scripts/update_readme.py:92-145 | the README is rewritten exactly when the summary exists, is recognised, has results and both markers are present. The new content splices the rendered block for that summary between the markers |
| Benchmark.Lines | scripts/benchmark.py:30 | `split("\n")` has at least two lines exactly when the text has a newline, and no line holds one |
| Benchmark.LinesOfJoin | scripts/benchmark.py:69 | splitting newline-joined lines gives back those lines |
| Benchmark.NumWriters | scripts/benchmark.py:143 | `max(4, qps // 50)`: at least 4, exactly 4 below 250 QPS, otherwise one writer per whole 50 QPS |
| Benchmark.NumWritersExamples | scripts/benchmark.py:142-143 | 100 and 249 QPS give 4 writers, 250 gives 5, 500 gives 10 |
| Benchmark.TenthTruncated | scripts/benchmark.py:144 | `int(qps/10)` truncates toward zero, for both signs |
| Benchmark.HammerArgsFor | scripts/benchmark.py:122-146 | Trillian gets `ct_hammer` at the target rate with qps×minutes×60 operations. The other back-end gets `hammer` with the same write goal, a tenth of the rate for reads, and the writer count above |
| Benchmark.SameWorkloadForBoth | scripts/benchmark.py:134-144 | both load generators are asked for the same number of writes; reads are at most a tenth of the rate; writers are bounded by the rate |
| Benchmark.TrillianLogSize | scripts/benchmark.py:55-61 | the STH's `tree_size`, or 0 when the request or the field fails |
| Benchmark.CheckpointSize | scripts/benchmark.py:62-74 | 0 without output or without a second line; otherwise the second line read as an integer, or 0 when it is not one |
| Benchmark.CheckpointSizeRoundTrip | scripts/benchmark.py:65-71 | a checkpoint whose second line is a size gives back that size |
| Benchmark.LastThree | scripts/benchmark.py:98 | `s[-3:]` is the last three characters (all of a shorter text) and a suffix of it |
| Benchmark.SmokeTest | scripts/benchmark.py:76-113 | fails exactly when no response came or its status is not "200"; otherwise it passes exactly when the tree grew, else it warns of lag |
| Benchmark.SmokeTestStatus | scripts/benchmark.py:98-102 | any body followed by "200" is accepted; a response shorter than three characters fails |
| Benchmark.ChainEntry | scripts/benchmark.py:88 | a chain entry holds no newline and has no whitespace at its ends. For a block holding the end marker it is the text before the first marker, newlines removed, stripped |
| Benchmark.ChainEntries | scripts/benchmark.py:85-89 | never more entries than blocks |
| Benchmark.EndPositions | scripts/benchmark.py:87 | the increasing indices of exactly the blocks that hold the end marker |
| Benchmark.ChainEntriesInOrder | scripts/benchmark.py:85-89 | the k-th entry comes from the k-th block holding the end marker: its text before the marker, newlines removed, stripped |
| Benchmark.ChainFromBlocks | scripts/benchmark.py:85-89 | the loop over the split blocks builds exactly `ChainEntries` |
| Benchmark.ChainFromPem | scripts/benchmark.py:85-89 | the same with the certificate BEGIN/END markers |
| Benchmark.LogIdHasColon | scripts/benchmark.py:31-32 | a line holding "log_id:" has a colon, so its second field exists |
| Benchmark.LogIdField | scripts/benchmark.py:32 | `split(":")[1].strip()`: the text after the first colon, up to the second colon or the end of the line, stripped; so no whitespace at its ends |
| Benchmark.SecondColonField | scripts/benchmark.py:32 | the second piece of a split on ":" is the text between the first colon and the next one, or the end |
| Benchmark.LogIdFieldRoundTrip | scripts/benchmark.py:31-32 | a configuration line `  log_id: <id>` (the shape line 127 writes) parses to `<id>`, for an unpadded id without colons |
| Benchmark.TreeIdFromConfig | scripts/benchmark.py:27-34 | None exactly when no line holds "log_id:"; otherwise the field of the first such line |
| Benchmark.ArmourFree | scripts/benchmark.py:51 | the kept lines are lines of the input holding no "---" |
| Benchmark.PubKeyB64 | scripts/benchmark.py:46-52 | the extracted key holds no newline |
| Benchmark.ArmourFreeKeepsBody | scripts/benchmark.py:51 | lines without armour are all kept, in order |
| Benchmark.ArmourFreeAppend | scripts/benchmark.py:51 | filtering distributes over concatenation |
| Benchmark.BodyOfPem | scripts/benchmark.py:50-51 | from a PEM block the filter keeps exactly its body lines |
| Benchmark.PubKeyOfPem | scripts/benchmark.py:46-52 | the extracted key of a PEM block is its body lines joined, stripped |
| Benchmark.RunGate | scripts/benchmark.py:157-182 | an accepted run needs exit code 0, then at least 30 s elapsed, then at least 10 entries, checked in that order with each rejection reported. Its rate times the elapsed time is the entries written |
| Benchmark.AcceptedRateBounds | scripts/benchmark.py:170-179 | an accepted run's rate is positive and at most a thirtieth of the entries written |
| PriceDrift.ExtractRate | scripts/validate_costs.py:132-152 | None exactly when there is no pricing entry or its first entry has no tier; otherwise units + nanos of the first tier, with its usage unit |
| PriceDrift.MoneyValueDecodes | scripts/validate_costs.py:148-150 | for nanos in range, the rate's whole part is `units` and its fraction is `nanos` billionths |
| PriceDrift.ToHourly | scripts/validate_costs.py:155-161 | monthly rates are divided by 730 hours; any other unit passes through |
| PriceDrift.RoundHalfEven | scripts/validate_costs.py:380 | `round()` picks a nearest integer, and the even one on a tie |
| PriceDrift.RoundTo | scripts/validate_costs.py:380 | `round(x, n)`: the result times 10^n is the round-half-even of x times 10^n, so it is within half a unit of the n-th decimal place |
| PriceDrift.DriftPct | scripts/validate_costs.py:383-386 | drift is \|actual−expected\|/expected×100; with nothing expected it is 0 when the actual is 0, else 100 |
| PriceDrift.DriftExamples | scripts/validate_costs.py:383-386 | 0.10 against 0.15 is 50% drift; 0.10 against 0.101 is 1% |
| PriceDrift.FindSkuIsFirstMatch | scripts/validate_costs.py:164-173 | the SKU found is the first one matching; None exactly when none matches |
| PriceDrift.CheckFor | scripts/validate_costs.py:195-300 | a check keeps its component and its listed rate |
| PriceDrift.CheckIfListed | scripts/validate_costs.py:195-300 | a component yields a check exactly when the tier lists its rate, built from that rate |
| PriceDrift.ChecksForEntries | scripts/validate_costs.py:176-302 | every check built is the one for a rate the tier lists |
| PriceDrift.ChecksForKinds | scripts/validate_costs.py:176-302 | the checks cover exactly the listed components among those asked for |
| PriceDrift.ChecksForRanked | scripts/validate_costs.py:176-302 | checks come out in the validator's component order |
| PriceDrift.BuildChecks | scripts/validate_costs.py:176-302 | at most six checks, in the fixed order management, CPU, RAM, rule, SQL, Spanner, one for exactly each listed rate and built from it |
| PriceDrift.CheckScalesAndServices | scripts/validate_costs.py:195-300 | each component's check uses its service. Scale is the node's vCPUs for CPU, its GiB for RAM, the processing units for Spanner, and 1 otherwise. Every service has a catalog id |
| PriceDrift.DefaultsForUnknownNames | scripts/validate_costs.py:39-56 | an unknown machine type defaults to 2 vCPU / 8 GiB; a region outside the listed ones maps to the Americas |
| PriceDrift.Compare | scripts/validate_costs.py:379-396 | the live rate is made hourly, scaled and rounded to 4 places. OK exactly when its drift is within the threshold, DRIFT exactly when above. Drift recorded to 2 places |
| PriceDrift.Classify | scripts/validate_costs.py:341-396 | an empty SKU list is API_ERROR, no match NOT_FOUND, no price NO_PRICE, otherwise the comparison; never ERROR |
| PriceDrift.DriftClassificationExample | scripts/validate_costs.py:379-396 | a listed 0.10/h against a catalog 0.15/h at a 5% threshold is DRIFT with 50% recorded |
| PriceDrift.Step | scripts/validate_costs.py:311-396 | one check fetches at most its own service, only when uncached and known. It caches an empty list for a failed fetch and keeps every earlier entry. With only known services cached before, the same holds after, and the result fits the cache |
| PriceDrift.RunChecks | scripts/validate_costs.py:311-396 | one result per check, at most one fetch per check, and every entry cached before is kept |
| PriceDrift.RunChecksCache | scripts/validate_costs.py:315-338 | over a run of checks: cached services are exactly the earlier ones plus those fetched, each fetched once, and earlier entries are kept |
| PriceDrift.RunChecksResults | scripts/validate_costs.py:305-398 | one result per check. Each keeps its component and rate. An unknown service gives ERROR, and a known one is classified against the list finally cached for it |
| PriceDrift.SkuCache.constructor | scripts/validate_costs.py:483 | a run starts with an empty cache |
| PriceDrift.SkuCache.RunCheck | scripts/validate_costs.py:315-398 | one check against the shared cache, as `Step` defines it, keeping the cache invariant |
| PriceDrift.SkuCache.RunAll | scripts/validate_costs.py:313-398 | the checks in order against the shared cache, as `RunChecks` defines it |
| PriceDrift.SkuCache.ValidateTier | scripts/validate_costs.py:305-398 | `validate_tier`: the tier's built checks run against the shared cache |
| PriceDrift.StatusOfTier | scripts/validate_costs.py:503-507 | "drift" exactly when some result is DRIFT; "error" exactly when none is DRIFT and some is API_ERROR or ERROR; "ok" exactly when no result is DRIFT, API_ERROR or ERROR |
| PriceDrift.ExitCode | scripts/validate_costs.py:519-524 | the exit code is 0, 1 or 2 |
| PriceDrift.ExitCodeFromTierStatuses | scripts/validate_costs.py:503-524 | exit 1 exactly when some tier drifted, 2 exactly when none drifted and one is in error, 0 exactly when every tier is ok |
| PriceDrift.ExitCodeIgnoresUnverifiable | scripts/validate_costs.py:494-498 | NOT_FOUND, NO_PRICE and OK results never change the exit code |
| PriceDrift.SelectTiers | scripts/validate_costs.py:475-481 | no tier named validates all tiers; a named tier is validated alone, paired with that tier's own entry in the table; an unknown name is refused |
| PriceDrift.TierPlans | scripts/validate_costs.py:488-491 | each tier is paired with the checks built for it, in table order |
| PriceDrift.ValidateTiersNames | scripts/validate_costs.py:488-492 | one result entry per tier, named as the tier, in table order |
| PriceDrift.ScanFlags | scripts/validate_costs.py:494-498 | the drift and error flags are raised exactly when a result has that status |
| PriceDrift.ValidateAll | scripts/validate_costs.py:483-498 | every selected tier is validated in order against one fresh cache. The flags hold exactly when some tier has a DRIFT, or an API_ERROR/ERROR, result |
| PriceDrift.ValidateCosts | scripts/validate_costs.py:434-524 | refused (exit 2) exactly without credentials, without a readable cost table, or for an unknown tier; otherwise the tiers are validated and the exit code is the roll-up of their results |

## Left out

- Process execution, HTTP and cloud CLIs are not modelled: `subprocess`, `curl`, `kubectl`, `gcloud`, `openssl`, `xxd`. Their outputs are parameters, and a failed command is `None`.
- `run_cmd`'s exit on a non-zero return code (scripts/benchmark.py:10-13) is not modelled; its output is taken as already obtained and stripped.
- `get_lb_ip` (scripts/benchmark.py:16-25) is not modelled: it is a retry loop around `kubectl` with sleeps.
- `get_trillian_pub_key_der_hex` (scripts/benchmark.py:36-44) is not modelled: it is file I/O plus an `openssl` pipeline.
- `run_hammer`'s process handling is not modelled: `Popen`, streaming output and the exception handler. A hammer that never started gives exit code `None`; the clock readings are parameters.
- The `time.sleep` waits are not modelled.
- `benchmark.py`'s `main` (argument parsing, orchestration, writing the summary) is not modelled: it is I/O.
- `get_auth`, `fetch_skus` and its pagination (scripts/validate_costs.py) are not modelled: they are network access. The catalog is the `fetch` parameter.
- `--verbose` diagnostics are not modelled.
- Printing is not modelled: `print_table`, the JSON output document and the progress messages.
- Markdown and number formatting (`:.2f`, `:.4f`, table layout) are not modelled: they are string rendering. `ReadmeUpdate.UpdateReadme` takes the rendering of a block as a `render` parameter. `Report.GenerateReport` returns the report's rows and findings as values, not as text.
- Float arithmetic is exact `real` arithmetic in the model. Binary rounding of IEEE doubles is not modelled.
- JSON parsing is not modelled; documents arrive as datatypes. A duplicate key, and any key of the wrong type, is not represented.
- A numeric field absent from a run record reads as 0. This matches the `.get(k, 0)` reads of `cost_per_1m` (scripts/update_readme.py:32-35). Every other read subscripts the record and raises `KeyError` on a missing key; the model does not:
  - `scripts/report.py`: `r["log_type"]` at lines 26, 43, 79, 80, 107 and 113; `r["target_qps"]` at lines 27, 30, 44, 46, 76, 79, 80, 107 and 113; `r["achieved_qps"]` at lines 30, 31, 89 and 90; `r["cost_per_1m_entries"]` at lines 52, 53, 91 and 92.
  - `scripts/update_readme.py`: `r["target_qps"]` at line 79, `r["log_type"]` and `r["target_qps"]` at lines 81 and 82, `['achieved_qps']` at lines 83 and 84.
  - The summary that `benchmark.py` itself writes (scripts/benchmark.py:218-251) holds the metrics report plus `achieved_qps`, with no `target_qps` and no `cost_per_1m_entries`. On such a file `report.py` stops with `KeyError` at line 76; the model reports every run at level 0.
- `int()` accepts only ASCII digits with an optional sign and surrounding whitespace. Underscores and other Unicode digits are not accepted.
- `str.lower()` is ASCII-only in the model.
- Reading `costs.json` is not modelled; the document is a parameter. A missing file differs between the two readers: `metrics.py`'s `load_costs` raises `FileNotFoundError` (scripts/metrics.py:10), while `update_readme.py`'s returns `{}` (scripts/update_readme.py:12-13), which the model gives as an empty tier list.
- `metrics.py`'s `sys.exit(1)` for an unknown tier is the `UnknownTier` error value.
- `CostTables.TierCosts.IsEmpty`: a tier is empty when none of the keys the model keeps is present. Python's `not tier` (scripts/update_readme.py:21) is false for a tier that holds only other keys, which the model drops; such a tier is described by its specs in Python (all "?") and by its name in the model.
- `CostModel.AnalyzeBenchmark`: the unused `project_id` argument is not a parameter.
- `PriceDrift.ExitCode`: states the range of codes; the mapping from statuses is proved in `PriceDrift.ExitCodeFromTierStatuses`.
- `Benchmark.ChainEntries`: states only the count; what each entry is is proved in `Benchmark.ChainEntriesInOrder`.
- `Benchmark.ArmourFree` and `Benchmark.PubKeyB64`: state only what every result satisfies; the exact result for a PEM block is proved in `Benchmark.BodyOfPem` and `Benchmark.PubKeyOfPem`.
- `Text.Split`: states the first piece exactly, and of the rest only that no piece holds the separator. `Text.JoinSplit` (any separator) proves that joining the pieces gives back the text. `Text.SplitJoin` and `Text.SplitAtFirst` give the exact pieces only for a one-character separator. For the multi-character certificate markers of `scripts/benchmark.py:86-88`, only the first piece (the one `ChainEntry` uses) and the round trip are stated.
- `testdata_test.go`, `scripts/pkcs8_encrypt.go`, `scripts/init_db.go`, `scripts/discover_metrics.py` and `tools.go` are not part of this model: they are test data generation, key handling and tooling, not the benchmark scripts' logic.
