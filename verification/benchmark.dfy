/** The deterministic pieces of the benchmark orchestrator
    (`scripts/benchmark.py`): the load-generator parameters derived from the
    target rate, reading a log's size, the smoke-test verdict, the text
    parsing of the certificate chain, the Trillian tree id and the TesseraCT
    public key, and the guard that rejects a bogus run. The commands, HTTP
    requests, sleeps and clocks are not modelled; their outputs are
    parameters. */
module Benchmark {
  import opened Wrappers
  import opened Text

  /** `text.split("\n")`. */
  function Lines(text: string): (lines: seq<string>)
    ensures |lines| >= 2 <==> '\n' in text
    ensures forall k :: 0 <= k < |lines| ==> '\n' !in lines[k]
  {
    SplitLines(text, '\n');
    forall k | 0 <= k < |Split(text, "\n")| ensures '\n' !in Split(text, "\n")[k] {
      SplitPieceAvoids(text, '\n', k);
    }
    Split(text, "\n")
  }

  /** `"\n".join(parts)`. */
  function JoinLines(parts: seq<string>): string {
    Join(parts, "\n")
  }

  /** Joining lines without a newline and splitting again gives the lines back. */
  lemma LinesOfJoin(parts: seq<string>)
    requires |parts| >= 1
    requires forall k :: 0 <= k < |parts| ==> '\n' !in parts[k]
    ensures Lines(JoinLines(parts)) == parts
  {
    SplitJoin(parts, '\n');
  }

  // ================================================================ load-generator parameters

  /** One TesseraCT writer per 50 QPS of target, never fewer than four. */
  function NumWriters(qps: int): (n: int)
    ensures n >= 4
    ensures qps < 250 ==> n == 4
    ensures qps >= 250 ==> n * 50 <= qps < n * 50 + 50
  {
    var perFifty := qps / 50;   // Python `//` floors, as Dafny's `/` does for a positive divisor
    if perFifty > 4 then perFifty else 4
  }

  lemma NumWritersExamples()
    ensures NumWriters(100) == 4 && NumWriters(249) == 4
    ensures NumWriters(250) == 5 && NumWriters(500) == 10
  {
  }

  /** `int(qps / 10)`: true division, then truncation toward zero. */
  function TenthTruncated(qps: int): (r: int)
    ensures qps >= 0 ==> 0 <= r && r * 10 <= qps < r * 10 + 10
    ensures qps < 0 ==> r <= 0 && qps <= r * 10 < qps + 10
  {
    if qps >= 0 then qps / 10 else -((-qps) / 10)
  }

  /** The load generator's command-line parameters. */
  datatype HammerArgs =
    | CtHammer(rateLimit: int, operations: int)             // ct_hammer, against Trillian
    | Hammer(maxWriteOps: int, maxReadOps: int, maxRuntimeMin: int,
             numWriters: int, leafWriteGoal: int)            // hammer, against TesseraCT

  function HammerArgsFor(targetType: string, qps: int, durationMin: int): (a: HammerArgs)
    ensures a.CtHammer? <==> targetType == "trillian"
    ensures a.CtHammer? ==> a.rateLimit == qps && a.operations == qps * durationMin * 60
    ensures a.Hammer? ==>
      && a.maxWriteOps == qps && a.maxRuntimeMin == durationMin
      && a.leafWriteGoal == qps * durationMin * 60
      && a.numWriters == NumWriters(qps) && a.maxReadOps == TenthTruncated(qps)
  {
    var totalOps := qps * durationMin * 60;
    if targetType == "trillian" then CtHammer(qps, totalOps)
    else Hammer(qps, TenthTruncated(qps), durationMin, NumWriters(qps), totalOps)
  }

  /** Both backends are asked for the same number of writes, the target rate
      sustained for the whole run, and TesseraCT reads at a tenth of that rate. */
  lemma SameWorkloadForBoth(qps: nat, durationMin: nat, other: string)
    requires other != "trillian"
    ensures HammerArgsFor("trillian", qps, durationMin).operations
         == HammerArgsFor(other, qps, durationMin).leafWriteGoal
    ensures HammerArgsFor(other, qps, durationMin).maxReadOps * 10 <= qps
    ensures HammerArgsFor(other, qps, durationMin).numWriters * 50 <= if qps < 250 then 200 else qps
  {
  }

  // ================================================================ log size

  /** The parsed get-sth answer: its `tree_size`, when present. */
  datatype Sth = Sth(treeSize: Option<int>)

  /** The Trillian log size: `tree_size`, 0 when it is absent, and 0 when the
      request, the JSON or the conversion fails (`sth` is then None). */
  function TrillianLogSize(sth: Option<Sth>): (n: int)
    ensures sth.None? || sth.value.treeSize.None? ==> n == 0
    ensures sth.Some? && sth.value.treeSize.Some? ==> n == sth.value.treeSize.value
  {
    match sth
    case None => 0
    case Some(s) => s.treeSize.GetOr(0)
  }

  /** The TesseraCT log size: the integer on the second line of the stripped
      checkpoint, and 0 when the read fails (`stdout` is None), the checkpoint
      has a single line, or that line is not an integer. */
  function CheckpointSize(stdout: Option<string>): (n: int)
    ensures stdout.None? ==> n == 0
    ensures stdout.Some? && '\n' !in Strip(stdout.value) ==> n == 0
    ensures stdout.Some? && '\n' in Strip(stdout.value) ==>
      n == ParseInt(Lines(Strip(stdout.value))[1]).GetOr(0)
  {
    match stdout
    case None => 0
    case Some(out) =>
      var lines := Lines(Strip(out));
      if |lines| >= 2 then ParseInt(lines[1]).GetOr(0) else 0
  }

  /** The second line of "origin / digits / rest" is `digits`. */
  lemma SecondLine(origin: string, digits: string, rest: string)
    requires '\n' !in origin && '\n' !in digits
    ensures |Lines(origin + "\n" + digits + "\n" + rest)| >= 2
    ensures Lines(origin + "\n" + digits + "\n" + rest)[1] == digits
  {
    var tail := digits + "\n" + rest;
    assert origin + "\n" + digits + "\n" + rest == origin + "\n" + tail;
    SplitAtFirst(digits, '\n', rest);
    SplitAtFirst(origin, '\n', tail);
  }

  /** A checkpoint "origin / size / rest" reads back as its size. */
  lemma CheckpointSizeRoundTrip(origin: string, size: nat, rest: string)
    requires |origin| > 0 && !IsSpace(origin[0]) && '\n' !in origin
    requires |rest| > 0 && !IsSpace(rest[|rest| - 1])
    ensures CheckpointSize(Some(origin + "\n" + NatToString(size) + "\n" + rest)) == size
  {
    var digits := NatToString(size);
    var s := origin + "\n" + digits + "\n" + rest;
    assert s[0] == origin[0] && s[|s| - 1] == rest[|rest| - 1];
    StripUnchanged(s);
    assert '\n' !in digits by {
      forall k | 0 <= k < |digits| ensures digits[k] != '\n' {
        assert IsDigit(digits[k]);
      }
    }
    SecondLine(origin, digits, rest);
    assert s[|origin|] == '\n';
    ParseIntToString(size);
  }

  // ================================================================ smoke test

  /** Python's `s[-3:]`. */
  function LastThree(s: string): (r: string)
    ensures |r| == if |s| < 3 then |s| else 3
    ensures s == s[..|s| - |r|] + r
  {
    if |s| <= 3 then s else s[|s| - 3..]
  }

  datatype SmokeOutcome =
    | SmokeFailed(httpStatus: Option<string>)   // the request failed, or its status was not 200 (exit 1)
    | SmokeLagging(initial: int, final: int)    // accepted, but the size did not grow: only a warning
    | SmokePassed(initial: int, final: int)

  /** `smoke_test`: `response` is curl's stdout, the body followed by the
      status code, or None when reading the chain or the request failed. */
  function SmokeTest(initialSize: int, response: Option<string>, finalSize: int): (o: SmokeOutcome)
    ensures o.SmokeFailed? <==> response.None? || LastThree(response.value) != "200"
    ensures o.SmokeFailed? && response.Some? ==> o.httpStatus == Some(LastThree(response.value))
    ensures !o.SmokeFailed? ==> o.initial == initialSize && o.final == finalSize
    ensures o.SmokePassed? <==> !o.SmokeFailed? && finalSize > initialSize
  {
    match response
    case None => SmokeFailed(None)
    case Some(out) =>
      var status := LastThree(out);
      if status != "200" then SmokeFailed(Some(status))
      else if finalSize <= initialSize then SmokeLagging(initialSize, finalSize)
      else SmokePassed(initialSize, finalSize)
  }

  /** Any body followed by status 200 passes, whether or not the log grew;
      a response too short to hold a status fails. */
  lemma SmokeTestStatus(initialSize: int, body: string, finalSize: int)
    ensures !SmokeTest(initialSize, Some(body + "200"), finalSize).SmokeFailed?
    ensures |body| < 3 ==> SmokeTest(initialSize, Some(body), finalSize).SmokeFailed?
  {
    var s := body + "200";
    assert s[|s| - 3..] == "200";
  }

  // ================================================================ certificate chain

  const CertBegin: string := "-----BEGIN CERTIFICATE-----"
  const CertEnd: string := "-----END CERTIFICATE-----"

  /** One certificate of the chain: the block's text before the end marker,
      with its newlines removed and stripped. */
  function ChainEntry(block: string, end: string): (entry: string)
    requires |end| > 0
    ensures '\n' !in entry
    ensures |entry| == 0 || (!IsSpace(entry[0]) && !IsSpace(entry[|entry| - 1]))
    ensures Contains(block, end) ==> entry == Strip(Remove(block[..Find(block, end)], '\n'))
  {
    var body := Remove(Split(block, end)[0], '\n');
    StripAvoids(body, '\n');
    Strip(body)
  }

  /** One entry per block that holds the end marker, in order. */
  function ChainEntries(blocks: seq<string>, end: string): (entries: seq<string>)
    requires |end| > 0
    ensures |entries| <= |blocks|
    decreases |blocks|
  {
    if |blocks| == 0 then []
    else
      var n := |blocks| - 1;
      var init := ChainEntries(blocks[..n], end);
      if Contains(blocks[n], end) then init + [ChainEntry(blocks[n], end)] else init
  }

  /** The positions of the blocks that hold the end marker, ascending. */
  function EndPositions(blocks: seq<string>, end: string): (ps: seq<int>)
    ensures forall i, j :: 0 <= i < j < |ps| ==> ps[i] < ps[j]
    ensures forall i :: i in ps <==> 0 <= i < |blocks| && Contains(blocks[i], end)
    decreases |blocks|
  {
    if |blocks| == 0 then []
    else
      var n := |blocks| - 1;
      var init := EndPositions(blocks[..n], end);
      assert forall i :: 0 <= i < n ==> blocks[..n][i] == blocks[i];
      assert forall k :: 0 <= k < |init| ==> init[k] in init;
      if Contains(blocks[n], end) then init + [n] else init
  }

  /** Entry `k` is the entry of block `ps[k]`, for every `k`. */
  predicate EntriesAt(es: seq<string>, ps: seq<int>, blocks: seq<string>, end: string)
    requires |end| > 0
  {
    && |es| == |ps|
    && forall k :: 0 <= k < |es| ==> 0 <= ps[k] < |blocks| && es[k] == ChainEntry(blocks[ps[k]], end)
  }

  /** The chain has, in block order, exactly the entries of the blocks that
      hold the end marker. */
  lemma {:induction false} ChainEntriesInOrder(blocks: seq<string>, end: string)
    requires |end| > 0
    ensures EntriesAt(ChainEntries(blocks, end), EndPositions(blocks, end), blocks, end)
    decreases |blocks|
  {
    if |blocks| > 0 {
      var n := |blocks| - 1;
      var init := blocks[..n];
      ChainEntriesInOrder(init, end);
      assert blocks[..n + 1] == blocks;
      ChainEntriesSnoc(blocks, n, end);
      EntriesAtSnoc(ChainEntries(init, end), EndPositions(init, end), blocks, end);
    }
  }

  /** Appending the last block's entry and position keeps entries and
      positions paired. */
  lemma EntriesAtSnoc(es: seq<string>, ps: seq<int>, blocks: seq<string>, end: string)
    requires |end| > 0 && |blocks| > 0
    requires EntriesAt(es, ps, blocks[..|blocks| - 1], end)
    ensures var n := |blocks| - 1;
      if Contains(blocks[n], end) then EntriesAt(es + [ChainEntry(blocks[n], end)], ps + [n], blocks, end)
      else EntriesAt(es, ps, blocks, end)
  {
    var n := |blocks| - 1;
    forall k | 0 <= k < |es| ensures 0 <= ps[k] < |blocks| && es[k] == ChainEntry(blocks[ps[k]], end) {
      assert blocks[..n][ps[k]] == blocks[ps[k]];
    }
    if Contains(blocks[n], end) {
      var es', ps' := es + [ChainEntry(blocks[n], end)], ps + [n];
      forall k | 0 <= k < |es'| ensures 0 <= ps'[k] < |blocks| && es'[k] == ChainEntry(blocks[ps'[k]], end) {
        if k < |es| {
          assert es'[k] == es[k] && ps'[k] == ps[k];
        }
      }
    }
  }

  /** One more block adds its entry exactly when it holds the end marker. */
  lemma ChainEntriesSnoc(blocks: seq<string>, i: nat, end: string)
    requires i < |blocks| && |end| > 0
    ensures ChainEntries(blocks[..i + 1], end)
         == ChainEntries(blocks[..i], end) + (if Contains(blocks[i], end) then [ChainEntry(blocks[i], end)] else [])
  {
    assert blocks[..i + 1][..i] == blocks[..i];
    assert blocks[..i + 1][i] == blocks[i];
  }

  /** The chain of certificates in a PEM text, built block by block. */
  method ChainFromBlocks(pem: string, begin: string, end: string) returns (chain: seq<string>)
    requires |begin| > 0 && |end| > 0
    ensures chain == ChainEntries(Split(pem, begin), end)
  {
    var blocks := Split(pem, begin);
    chain := [];
    var i := 0;
    while i < |blocks|
      invariant 0 <= i <= |blocks|
      invariant chain == ChainEntries(blocks[..i], end)
    {
      ChainEntriesSnoc(blocks, i, end);
      if Contains(blocks[i], end) {
        chain := chain + [ChainEntry(blocks[i], end)];
      }
      i := i + 1;
    }
    assert blocks[..i] == blocks;
  }

  /** The chain the smoke test submits, from the leaf certificate file. */
  method ChainFromPem(pem: string) returns (chain: seq<string>)
    ensures chain == ChainEntries(Split(pem, CertBegin), CertEnd)
  {
    chain := ChainFromBlocks(pem, CertBegin, CertEnd);
  }

  // ================================================================ Trillian tree id

  /** A line of the CT front end's configuration that names the log. */
  predicate IsLogIdLine(line: string) {
    Contains(line, "log_id:")
  }

  /** A line holding "log_id:" holds a ':'. */
  lemma LogIdHasColon(line: string)
    requires IsLogIdLine(line)
    ensures ':' in line
  {
    var i := Find(line, "log_id:");
    assert line[i..i + 7][6] == line[i + 6];
  }

  /** `line.split(":")[1].strip()`: the text between the first and the
      second ':' (or the end of the line), stripped. */
  function LogIdField(line: string): (id: string)
    requires IsLogIdLine(line)
    ensures |id| == 0 || (!IsSpace(id[0]) && !IsSpace(id[|id| - 1]))
    ensures Contains(line, ":")
    ensures var rest := line[Find(line, ":") + 1..];
      id == Strip(if Contains(rest, ":") then rest[..Find(rest, ":")] else rest)
  {
    LogIdHasColon(line);
    SecondColonField(line);
    Strip(Split(line, ":")[1])
  }

  /** The second piece of a split on ':' is the text after the first ':',
      up to the next one or the end. */
  lemma SecondColonField(line: string)
    requires ':' in line
    ensures Contains(line, ":") && |Split(line, ":")| >= 2
    ensures var rest := line[Find(line, ":") + 1..];
      Split(line, ":")[1] == if Contains(rest, ":") then rest[..Find(rest, ":")] else rest
  {
    var i :| 0 <= i < |line| && line[i] == ':';
    MatchAtChar(line, ':', i);
    ContainsIff(line, ":");
    var rest := line[Find(line, ":") + 1..];
    assert Split(line, ":") == [line[..Find(line, ":")]] + Split(rest, ":");
  }

  /** A configuration line of the shape `  log_id: <id>` (the shape the
      benchmark writes into the hammer's textproto) parses to `<id>`. */
  lemma LogIdFieldRoundTrip(id: string)
    requires |id| > 0 && !IsSpace(id[0]) && !IsSpace(id[|id| - 1]) && ':' !in id
    ensures IsLogIdLine("  log_id: " + id)
    ensures LogIdField("  log_id: " + id) == id
  {
    var line := "  log_id: " + id;
    assert line[2..9] == "log_id:";
    assert MatchAt(line, "log_id:", 2);
    ContainsIff(line, "log_id:");
    var tail := " " + id;
    assert line == "  log_id" + [':'] + tail;
    SecondField("  log_id", ':', tail);
    IdAfterSpace(id);
  }

  /** The field after the first `c` of "a c tail", when neither part holds `c`. */
  lemma SecondField(a: string, c: char, tail: string)
    requires c !in a && c !in tail
    ensures Split(a + [c] + tail, [c]) == [a, tail]
  {
    SplitAtFirst(a, c, tail);
    SplitWithout(tail, c);
  }

  /** A stripped id after one space strips back to itself. */
  lemma IdAfterSpace(id: string)
    requires |id| > 0 && !IsSpace(id[0]) && !IsSpace(id[|id| - 1])
    ensures Strip(" " + id) == id
  {
    assert StripLeft(" " + id) == StripLeft(id);
    StripUnchanged(id);
    assert StripLeft(id) == id;
  }

  /** `get_trillian_tree_id`: the id field of the first configuration line
      that holds "log_id:"; None (the script exits 1) when no line does. */
  method TreeIdFromConfig(config: string) returns (id: Option<string>)
    ensures var lines := Lines(config);
      id.None? <==> forall k :: 0 <= k < |lines| ==> !IsLogIdLine(lines[k])
    ensures var lines := Lines(config);
      id.Some? ==> exists k ::
        && 0 <= k < |lines| && IsLogIdLine(lines[k])
        && (forall j :: 0 <= j < k ==> !IsLogIdLine(lines[j]))
        && id.value == LogIdField(lines[k])
  {
    var lines := Lines(config);
    var k := 0;
    while k < |lines|
      invariant 0 <= k <= |lines|
      invariant forall j :: 0 <= j < k ==> !IsLogIdLine(lines[j])
    {
      if IsLogIdLine(lines[k]) {
        id := Some(LogIdField(lines[k]));
        assert id.Some? && IsLogIdLine(lines[k]);
        return;
      }
      k := k + 1;
    }
    return None;
  }

  // ================================================================ TesseraCT public key

  /** A line of PEM armour, such as "-----BEGIN PUBLIC KEY-----". */
  predicate IsArmour(line: string) {
    Contains(line, "---")
  }

  /** `[l for l in lines if "---" not in l]`. */
  function ArmourFree(lines: seq<string>): (kept: seq<string>)
    ensures |kept| <= |lines|
    ensures forall k :: 0 <= k < |kept| ==> !IsArmour(kept[k]) && kept[k] in lines
    decreases |lines|
  {
    if |lines| == 0 then []
    else
      var rest := ArmourFree(lines[1..]);
      assert forall k :: 0 <= k < |rest| ==> rest[k] in lines[1..] ==> rest[k] in lines;
      if IsArmour(lines[0]) then rest else [lines[0]] + rest
  }

  /** `get_tesseract_pub_key_b64`: the lines of the stripped key file that are
      not armour, concatenated and stripped. */
  function PubKeyB64(stdout: string): (b64: string)
    ensures '\n' !in b64
  {
    var lines := Lines(Strip(stdout));
    var kept := ArmourFree(lines);
    forall k | 0 <= k < |kept| ensures '\n' !in kept[k] {
      var j :| 0 <= j < |lines| && lines[j] == kept[k];
    }
    JoinAvoids(kept, "", '\n');
    StripAvoids(Join(kept, ""), '\n');
    Strip(Join(kept, ""))
  }

  /** Lines that are not armour pass the filter untouched. */
  lemma {:induction false} ArmourFreeKeepsBody(body: seq<string>)
    requires forall k :: 0 <= k < |body| ==> !IsArmour(body[k])
    ensures ArmourFree(body) == body
    decreases |body|
  {
    if |body| > 0 {
      assert forall k :: 0 <= k < |body[1..]| ==> body[1..][k] == body[k + 1];
      ArmourFreeKeepsBody(body[1..]);
      assert [body[0]] + body[1..] == body;
    }
  }

  /** Filtering distributes over concatenation. */
  lemma {:induction false} ArmourFreeAppend(a: seq<string>, b: seq<string>)
    ensures ArmourFree(a + b) == ArmourFree(a) + ArmourFree(b)
    decreases |a|
  {
    if |a| > 0 {
      assert (a + b)[1..] == a[1..] + b;
      assert (a + b)[0] == a[0];
      ArmourFreeAppend(a[1..], b);
    } else {
      assert a + b == b;
    }
  }

  /** An armour line on its own is dropped. */
  lemma ArmourFreeDropsArmour(line: string)
    requires IsArmour(line)
    ensures ArmourFree([line]) == []
  {
    assert [line][1..] == [];
  }

  /** The lines of a key file, with the armour dropped, are its body lines. */
  lemma BodyOfPem(header: string, body: seq<string>, footer: string)
    requires IsArmour(header) && IsArmour(footer)
    requires '\n' !in header && '\n' !in footer
    requires forall k :: 0 <= k < |body| ==> '\n' !in body[k] && !IsArmour(body[k])
    ensures ArmourFree(Lines(JoinLines([header] + body + [footer]))) == body
  {
    var parts := [header] + body + [footer];
    forall k | 0 <= k < |parts| ensures '\n' !in parts[k] {
      if 0 < k < |parts| - 1 {
        assert parts[k] == body[k - 1];
      }
    }
    LinesOfJoin(parts);
    ArmourFreeAppend([header] + body, [footer]);
    ArmourFreeAppend([header], body);
    ArmourFreeDropsArmour(header);
    ArmourFreeDropsArmour(footer);
    ArmourFreeKeepsBody(body);
  }

  /** For a key file of an armour line, body lines and an armour line, the key
      is the body lines run together. */
  lemma PubKeyOfPem(stdout: string, header: string, body: seq<string>, footer: string)
    requires IsArmour(header) && IsArmour(footer)
    requires '\n' !in header && '\n' !in footer
    requires forall k :: 0 <= k < |body| ==> '\n' !in body[k] && !IsArmour(body[k])
    requires Strip(stdout) == JoinLines([header] + body + [footer])
    ensures PubKeyB64(stdout) == Strip(Join(body, ""))
  {
    BodyOfPem(header, body, footer);
  }

  // ================================================================ run gate

  const MinElapsedSeconds: real := 30.0
  const MinEntries: int := 10

  datatype Rejection =
    | HammerFailed(exitCode: Option<int>)   // non-zero exit, or the process never finished
    | TooShort(elapsed: real)
    | TooFewEntries(entries: int)

  /** What `run_hammer` returns for an accepted run. */
  datatype HammerRun = HammerRun(startTime: real, endTime: real, achievedQps: real)

  /** The guard after the load test: the exit code, then the elapsed time,
      then the number of entries written, in that order; an accepted run's
      rate is the entries over the elapsed time. */
  function RunGate(exitCode: Option<int>, startTime: real, endTime: real, initialSize: int, finalSize: int)
    : (r: Result<HammerRun, Rejection>)
    ensures r.Success? <==>
      exitCode == Some(0) && endTime - startTime >= MinElapsedSeconds && finalSize - initialSize >= MinEntries
    ensures exitCode != Some(0) ==> r == Failure(HammerFailed(exitCode))
    ensures exitCode == Some(0) && endTime - startTime < MinElapsedSeconds ==>
      r == Failure(TooShort(endTime - startTime))
    ensures exitCode == Some(0) && endTime - startTime >= MinElapsedSeconds && finalSize - initialSize < MinEntries ==>
      r == Failure(TooFewEntries(finalSize - initialSize))
    ensures r.Success? ==>
      && r.value.startTime == startTime && r.value.endTime == endTime
      && r.value.achievedQps * (endTime - startTime) == (finalSize - initialSize) as real
  {
    var elapsed := endTime - startTime;
    var entries := finalSize - initialSize;
    if exitCode != Some(0) then Failure(HammerFailed(exitCode))
    else if elapsed < MinElapsedSeconds then Failure(TooShort(elapsed))
    else if entries < MinEntries then Failure(TooFewEntries(entries))
    else
      var achieved := entries as real / elapsed;
      assert achieved * elapsed == entries as real;
      Success(HammerRun(startTime, endTime, achieved))
  }

  /** An accepted run wrote at least ten entries in at least thirty seconds,
      so its rate is positive and at most a thirtieth of what it wrote. */
  lemma AcceptedRateBounds(exitCode: Option<int>, startTime: real, endTime: real, initialSize: int, finalSize: int)
    requires RunGate(exitCode, startTime, endTime, initialSize, finalSize).Success?
    ensures var q := RunGate(exitCode, startTime, endTime, initialSize, finalSize).value.achievedQps;
      q > 0.0 && q * MinElapsedSeconds <= (finalSize - initialSize) as real
  {
    var q := RunGate(exitCode, startTime, endTime, initialSize, finalSize).value.achievedQps;
    var elapsed := endTime - startTime;
    var entries := (finalSize - initialSize) as real;
    assert q == entries / elapsed;
    PositiveQuotient(entries, elapsed);
    assert q * MinElapsedSeconds <= q * elapsed;
  }

  lemma PositiveQuotient(a: real, b: real)
    requires a > 0.0 && b > 0.0
    ensures a / b > 0.0
  {
  }
}
