/** src/minitest/MinitestResultInterpreter.ts `updateFromMinitestOutput`: the header guards, the
    selector line, the finished guard, the three category loops and the pass inference, ending in
    the one-file `TestResults` handed to the presenter (or nothing). */
module MinitestInterpreter {
  import opened Strings
  import opened Types
  import opened Backtrace
  import opened MinitestResults
  import MinitestParser

  /** What `/^(?<lineNumber>\d+)\s?(?<fromCodeLens>true)?$/` captures from the selector line. */
  datatype Selector = Selector(lineNumber: nat, fromCodeLens: bool)

  /** The selector pattern applied to the second header line: digits, at most one whitespace
      character, an optional `true`, and nothing else. */
  function ParseSelector(line: string): (r: Option<Selector>)
    ensures r.Some? ==> |line| > 0 && IsDigit(line[0])
  {
    var k := DigitRun(line, 0);
    if k == 0 then None
    else
      assert AllDigits(line[..k]);
      var n := ParseDigits(line[..k]);
      var rest := line[k..];
      if rest == "" || (|rest| == 1 && IsJsWhitespace(rest[0])) then Some(Selector(n, false))
      else if rest == "true" || (|rest| == 5 && IsJsWhitespace(rest[0]) && rest[1..] == "true") then Some(Selector(n, true))
      else None
  }

  /** A bare line number reads back as itself, typed; with ` true` appended, as coming from a
      code lens; `ALL` is no selector. */
  lemma ParseSelectorOfNumber(n: nat)
    ensures ParseSelector(NatToString(n)) == Some(Selector(n, false))
    ensures ParseSelector(NatToString(n) + " true") == Some(Selector(n, true))
    ensures ParseSelector("ALL").None?
  {
    var d := NatToString(n);
    DigitRunOf(d, 0, |d|);
    ParseNatToString(n);
    assert d[..|d|] == d;
    var s := d + " true";
    assert forall i :: 0 <= i < |d| ==> s[i] == d[i];
    DigitRunOf(s, 0, |d|);
    assert s[..|d|] == d;
    assert s[|d|..] == " true";
  }

  /** `testRunLineNumber` after line 73: a code-lens selector is the test line itself; a typed
      one is replaced by the last region starting at or before it. */
  function SelectedLine(selector: Option<Selector>, regions: seq<TestRegion>): Option<nat> {
    if selector.None? then None
    else if selector.value.fromCodeLens then Some(selector.value.lineNumber)
    else LastAtMost(RegionLines(regions), selector.value.lineNumber)
  }

  /** What the blocks of a reportable run are resolved against. */
  function ContextFor(output: string, openDocuments: map<string, Document>, regions: seq<TestRegion>,
                      testRun: string, unknown: string): RunContext
    requires |OutputLines(output)| > 3 && OutputLines(output)[0] in openDocuments
  {
    var lines := OutputLines(output);
    RunContext(openDocuments[lines[0]], regions, testRun, unknown,
               BySelectorNameOrPosition(SelectedLine(ParseSelector(lines[1]), regions)))
  }

  /** Lines 102-122: with `ALL`, every unseen region line passes; with a selected test and no
      other result, that test passes, stored under the raw selector text. */
  function Inferred(results: map<string, LineResult>, header: string, seen: seq<nat>, ctx: RunContext)
    : map<string, LineResult>
    requires ctx.resolution.BySelectorNameOrPosition?
  {
    var selected := ctx.resolution.selected;
    if header == "ALL" then MarkedPassed(results, Reversed(RegionLines(ctx.regions)), seen, ctx)
    else if Truthy(selected) && |results| == 0 then results[header := PassedAt(ctx, selected.value)]
    else results
  }

  /** The results of a reportable run: the three categories, then the inference. */
  function ReportedResults(output: string, blocks: MinitestBlocks, openDocuments: map<string, Document>,
                           regions: seq<TestRegion>, testRun: string, unknown: string, projectPath: Option<string>)
    : map<string, LineResult>
    requires Reportable(output, blocks, openDocuments, projectPath)
  {
    var lines := OutputLines(output);
    var ctx := ContextFor(output, openDocuments, regions, testRun, unknown);
    var relativePath := RelativePath(lines[0], projectPath.value);
    Inferred(Categorised(blocks, ctx, relativePath), lines[1], AllSeen(blocks, ctx, relativePath), ctx)
  }

  /** Reference semantics of `updateFromMinitestOutput`: the `TestResults` passed to
      `setTestResults`, or `None` when the method returns (or raises) before that. */
  function Interpretation(output: string, blocks: MinitestBlocks, openDocuments: map<string, Document>,
                          regions: seq<TestRegion>, testRun: string, unknown: string, projectPath: Option<string>)
    : Option<TestResults>
  {
    if !Reportable(output, blocks, openDocuments, projectPath) then None
    else
      var results := ReportedResults(output, blocks, openDocuments, regions, testRun, unknown, projectPath);
      Some(map[OutputLines(output)[0] := FileResults(testRun, false, results)])
  }

  /** `updateFromMinitestOutput`, step by step. `openDocuments` are the editor's documents by
      file name, `regions` the test regions `MinitestParser` finds in the named one, `testRun`
      and `unknown` the two `Date.now()` readings, and `projectPath` the configured or workspace
      path (`None` when reading it raises `NoWorkspaceError`). */
  method UpdateFromMinitestOutput(output: string, blocks: MinitestBlocks, openDocuments: map<string, Document>,
                                  regions: seq<TestRegion>, testRun: string, unknown: string,
                                  projectPath: Option<string>)
    returns (testResults: Option<TestResults>)
    ensures testResults == Interpretation(output, blocks, openDocuments, regions, testRun, unknown, projectPath)
  {
    var outputLines := OutputLines(output);
    if |outputLines| - 2 <= 1 {
      return None;
    }
    var fileName := outputLines[0];
    var line := outputLines[1];
    if fileName !in openDocuments {
      return None;
    }
    var file := openDocuments[fileName];

    var found := ParseSelector(line);
    var testRunLineNumber := if found.Some? then Some(found.value.lineNumber) else None;
    if testRunLineNumber.Some? && !found.value.fromCodeLens {
      testRunLineNumber := LastAtMost(RegionLines(regions), testRunLineNumber.value);
    }
    assert testRunLineNumber == SelectedLine(found, regions);

    if !Finished(blocks.testCount) {
      return None;
    }
    if projectPath.None? {
      return None;
    }
    var ctx := RunContext(file, regions, testRun, unknown, BySelectorNameOrPosition(testRunLineNumber));
    var relativePath := RelativePath(fileName, projectPath.value);
    var results, seenLines := CategoriseAll(blocks, ctx, relativePath);

    if line == "ALL" {
      results := MarkUnseenPassed(results, ctx, seenLines);
    } else if Truthy(testRunLineNumber) && |results| == 0 {
      results := results[line := PassedAt(ctx, testRunLineNumber.value)];
    }
    testResults := Some(map[fileName := FileResults(testRun, false, results)]);
  }

  /** Nothing is reported exactly when one of the guards fails; otherwise the results concern
      the named file alone, carry the new run id, are not pending, and every entry comes from
      this run. */
  lemma InterpretationGuards(output: string, blocks: MinitestBlocks, openDocuments: map<string, Document>,
                             regions: seq<TestRegion>, testRun: string, unknown: string, projectPath: Option<string>)
    ensures var r := Interpretation(output, blocks, openDocuments, regions, testRun, unknown, projectPath);
            var lines := OutputLines(output);
            && (r.None? <==> (|lines| <= 3 || lines[0] !in openDocuments || !Finished(blocks.testCount)
                              || projectPath.None?))
            && (r.Some? ==> r.value.Keys == {lines[0]}
                            && r.value[lines[0]].testRun == testRun && !r.value[lines[0]].testRunPending
                            && FromRun(r.value[lines[0]].results, testRun))
  {
    if Reportable(output, blocks, openDocuments, projectPath) {
      var lines := OutputLines(output);
      var ctx := ContextFor(output, openDocuments, regions, testRun, unknown);
      var relativePath := RelativePath(lines[0], projectPath.value);
      CategorisedKeys(blocks, ctx, relativePath, "");
      MarkedPassedFromRun(Categorised(blocks, ctx, relativePath), Reversed(RegionLines(ctx.regions)),
                          AllSeen(blocks, ctx, relativePath), ctx);
    }
  }

  /** The `ALL` run: every region line that no block resolved to is stored as Passed under its
      decimal key. */
  lemma AllRunPassesUnseen(output: string, blocks: MinitestBlocks, openDocuments: map<string, Document>,
                           regions: seq<TestRegion>, testRun: string, unknown: string, projectPath: Option<string>,
                           i: nat)
    requires Reportable(output, blocks, openDocuments, projectPath) && OutputLines(output)[1] == "ALL"
    requires i < |regions|
    requires var lines := OutputLines(output);
             regions[i].line !in AllSeen(blocks, ContextFor(output, openDocuments, regions, testRun, unknown),
                                         RelativePath(lines[0], projectPath.value))
    ensures var results := ReportedResults(output, blocks, openDocuments, regions, testRun, unknown, projectPath);
            var k := NatToString(regions[i].line);
            && k in results
            && results[k] == PassedAt(ContextFor(output, openDocuments, regions, testRun, unknown), regions[i].line)
  {
    var lines := OutputLines(output);
    var ctx := ContextFor(output, openDocuments, regions, testRun, unknown);
    var relativePath := RelativePath(lines[0], projectPath.value);
    UnseenRegionPasses(Categorised(blocks, ctx, relativePath), AllSeen(blocks, ctx, relativePath), ctx, i);
  }

  /** The `ALL` run leaves every key a block wrote with what the last category wrote there. */
  lemma AllRunKeepsSeen(output: string, blocks: MinitestBlocks, openDocuments: map<string, Document>,
                        regions: seq<TestRegion>, testRun: string, unknown: string, projectPath: Option<string>,
                        k: string)
    requires Reportable(output, blocks, openDocuments, projectPath) && OutputLines(output)[1] == "ALL"
    requires k in Categorised(blocks, ContextFor(output, openDocuments, regions, testRun, unknown),
                              RelativePath(OutputLines(output)[0], projectPath.value))
    ensures var categorised := Categorised(blocks, ContextFor(output, openDocuments, regions, testRun, unknown),
                                           RelativePath(OutputLines(output)[0], projectPath.value));
            var results := ReportedResults(output, blocks, openDocuments, regions, testRun, unknown, projectPath);
            k in results && results[k] == categorised[k]
  {
    var lines := OutputLines(output);
    var ctx := ContextFor(output, openDocuments, regions, testRun, unknown);
    var relativePath := RelativePath(lines[0], projectPath.value);
    CategorisedKeys(blocks, ctx, relativePath, k);
    SeenKeyKept(Categorised(blocks, ctx, relativePath), AllSeen(blocks, ctx, relativePath), ctx, k);
  }

  /** A single test was run and nothing failed, errored or skipped: exactly one Passed entry is
      stored, keyed by the raw selector text, for the selected test line. A typed selector is
      moved to the test above it, so the key need not be the decimal form of the line. */
  lemma SingleRunPasses(output: string, blocks: MinitestBlocks, openDocuments: map<string, Document>,
                        regions: seq<TestRegion>, testRun: string, unknown: string, projectPath: Option<string>)
    requires Reportable(output, blocks, openDocuments, projectPath)
    requires OutputLines(output)[1] != "ALL"
    requires var lines := OutputLines(output);
             Truthy(SelectedLine(ParseSelector(lines[1]), regions))
             && AllSeen(blocks, ContextFor(output, openDocuments, regions, testRun, unknown),
                        RelativePath(lines[0], projectPath.value)) == []
    ensures var lines := OutputLines(output);
            var ctx := ContextFor(output, openDocuments, regions, testRun, unknown);
            var line := SelectedLine(ParseSelector(lines[1]), regions).value;
            ReportedResults(output, blocks, openDocuments, regions, testRun, unknown, projectPath)
              == map[lines[1] := PassedAt(ctx, line)]
  {
    var lines := OutputLines(output);
    var ctx := ContextFor(output, openDocuments, regions, testRun, unknown);
    var relativePath := RelativePath(lines[0], projectPath.value);
    var categorised := Categorised(blocks, ctx, relativePath);
    forall k | k in categorised ensures false {
      CategorisedKeys(blocks, ctx, relativePath, k);
    }
    assert categorised == map[];
  }

  /** What the runner writes for a single-line run, a JSON array such as `[12]`, is not a
      selector: such a run is resolved by name and position alone. */
  lemma ArraySelectorIgnored(line: string, regions: seq<TestRegion>)
    requires |line| > 0 && line[0] == '['
    ensures ParseSelector(line).None? && SelectedLine(ParseSelector(line), regions).None?
  {
  }

  /** The parser's test regions as the interpreter reads them: each region's 1-based first line
      (`r.range.start.line + 1`; editor positions are never negative) and its name. */
  function ParsedRegions(parsed: seq<MinitestParser.MinitestRegion>): (r: seq<TestRegion>)
    ensures |r| == |parsed|
    ensures forall i :: 0 <= i < |parsed| && parsed[i].range.startLine >= 0 ==>
              r[i] == TestRegion(parsed[i].range.startLine + 1, parsed[i].name)
  {
    seq(|parsed|, i requires 0 <= i < |parsed| =>
      TestRegion(if parsed[i].range.startLine < 0 then 0 else parsed[i].range.startLine + 1, parsed[i].name))
  }

  /** The 1-based test lines the interpreter reads off the parser's regions, in region order. */
  function ParsedTestLines(lines: seq<string>, matchTest: string -> MinitestParser.TestLine): seq<nat> {
    RegionLines(ParsedRegions(MinitestParser.TestRegions(lines, matchTest)))
  }

  /** Those lines are test lines of the file, strictly ascending, and none is missing. */
  lemma ParsedTestLinesSpec(lines: seq<string>, matchTest: string -> MinitestParser.TestLine)
    ensures var ls := ParsedTestLines(lines, matchTest);
            && (forall j :: 0 <= j < |ls| ==> 1 <= ls[j] <= |lines| && matchTest(lines[ls[j] - 1]).ATest?)
            && (forall j, j' :: 0 <= j < j' < |ls| ==> ls[j] < ls[j'])
            && (forall i :: 0 <= i < |lines| && matchTest(lines[i]).ATest? ==> i + 1 in ls)
  {
    var parsed := MinitestParser.TestRegions(lines, matchTest);
    var ls := ParsedTestLines(lines, matchTest);
    MinitestParser.TestRegionsSpec(lines, matchTest);
    assert forall j :: 0 <= j < |ls| ==> ls[j] == parsed[j].range.startLine + 1;
    forall i | 0 <= i < |lines| && matchTest(lines[i]).ATest? ensures i + 1 in ls {
      var j :| 0 <= j < |parsed| && parsed[j].range.startLine == i;
      assert ls[j] == i + 1;
    }
  }

  /** Over the regions `getTestRegions` reports, resolution by position finds the greatest test
      line at or before the reported line, and finds nothing exactly when every test line comes
      later. */
  lemma PositionOfParsedRegions(lines: seq<string>, matchTest: string -> MinitestParser.TestLine, n: nat)
    ensures var r := LastAtMost(ParsedTestLines(lines, matchTest), n);
            && (r.Some? ==> && 1 <= r.value <= n && r.value <= |lines|
                            && matchTest(lines[r.value - 1]).ATest?
                            && forall i :: 0 <= i < |lines| && matchTest(lines[i]).ATest? && i + 1 <= n ==> i + 1 <= r.value)
            && (r.None? <==> forall i :: 0 <= i < |lines| && matchTest(lines[i]).ATest? ==> n < i + 1)
  {
    var ls := ParsedTestLines(lines, matchTest);
    var r := LastAtMost(ls, n);
    ParsedTestLinesSpec(lines, matchTest);
    if r.Some? {
      LastAtMostIsLast(ls, n);
      forall i | 0 <= i < |lines| && matchTest(lines[i]).ATest? && i + 1 <= n ensures i + 1 <= r.value {
        var j :| 0 <= j < |ls| && ls[j] == i + 1;
      }
    } else {
      forall i | 0 <= i < |lines| && matchTest(lines[i]).ATest? ensures n < i + 1 {
        var j :| 0 <= j < |ls| && ls[j] == i + 1;
      }
    }
  }
}
