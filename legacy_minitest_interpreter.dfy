/** src/MinitestResultInterpreter.ts, the predecessor of the minitest interpreter: the same
    guards and category loops, but every block is resolved by position alone and a single-test
    run is recognised by an all-digit selector line. */
module LegacyMinitestInterpreter {
  import opened Strings
  import opened Types
  import opened MinitestResults

  /** Every block of a reportable run is resolved by position alone. */
  function ContextFor(output: string, openDocuments: map<string, Document>, regions: seq<TestRegion>,
                      testRun: string, unknown: string): RunContext
    requires |OutputLines(output)| > 3 && OutputLines(output)[0] in openDocuments
  {
    RunContext(openDocuments[OutputLines(output)[0]], regions, testRun, unknown, ByPosition)
  }

  /** `line.match(/^\d+$/)` */
  predicate IsLineNumber(line: string) {
    |line| > 0 && AllDigits(line)
  }

  /** Lines 112-134: with `ALL`, every unseen region line passes; with an all-digit selector and
      no other result, that line passes, stored under the selector text. */
  function Inferred(results: map<string, LineResult>, header: string, seen: seq<nat>, ctx: RunContext)
    : map<string, LineResult>
  {
    if header == "ALL" then MarkedPassed(results, Reversed(RegionLines(ctx.regions)), seen, ctx)
    else if IsLineNumber(header) && |results| == 0 then results[header := PassedAt(ctx, ParseDigits(header))]
    else results
  }

  /** The results of a reportable run: the three categories, then the inference. */
  function ReportedResults(output: string, blocks: MinitestBlocks, openDocuments: map<string, Document>,
                           regions: seq<TestRegion>, testRun: string, unknown: string, projectPath: Option<string>)
    : map<string, LineResult>
    requires Reportable(output, blocks, openDocuments, projectPath)
  {
    var lines := OutputLines(output);
    var ctx := ContextFor(output, openDocuments, regions, testRun, unknown);
    var relativePath := RelativePath(lines[0], projectPath.value);
    Inferred(Categorised(blocks, ctx, relativePath), lines[1], AllSeen(blocks, ctx, relativePath), ctx)
  }

  /** Reference semantics of the older `updateFromMinitestOutput`. */
  function Interpretation(output: string, blocks: MinitestBlocks, openDocuments: map<string, Document>,
                          regions: seq<TestRegion>, testRun: string, unknown: string, projectPath: Option<string>)
    : Option<TestResults>
  {
    if !Reportable(output, blocks, openDocuments, projectPath) then None
    else
      var results := ReportedResults(output, blocks, openDocuments, regions, testRun, unknown, projectPath);
      Some(map[OutputLines(output)[0] := FileResults(testRun, false, results)])
  }

  /** The older `updateFromMinitestOutput`, step by step; the parameters are those of the newer
      one. The regions come from `src/MinitestParser.ts`, which is not part of this model. */
  method UpdateFromMinitestOutput(output: string, blocks: MinitestBlocks, openDocuments: map<string, Document>,
                                  regions: seq<TestRegion>, testRun: string, unknown: string,
                                  projectPath: Option<string>)
    returns (testResults: Option<TestResults>)
    ensures testResults == Interpretation(output, blocks, openDocuments, regions, testRun, unknown, projectPath)
  {
    var outputLines := OutputLines(output);
    if |outputLines| - 2 <= 1 {
      return None;
    }
    var fileName := outputLines[0];
    var line := outputLines[1];
    if fileName !in openDocuments {
      return None;
    }
    var file := openDocuments[fileName];
    if !Finished(blocks.testCount) {
      return None;
    }
    if projectPath.None? {
      return None;
    }
    var ctx := RunContext(file, regions, testRun, unknown, ByPosition);
    var relativePath := RelativePath(fileName, projectPath.value);
    var results, seenLines := CategoriseAll(blocks, ctx, relativePath);

    if line == "ALL" {
      results := MarkUnseenPassed(results, ctx, seenLines);
    } else if IsLineNumber(line) && |results| == 0 {
      var lineNumber := ParseDigits(line);
      results := results[line := PassedAt(ctx, lineNumber)];
    }
    testResults := Some(map[fileName := FileResults(testRun, false, results)]);
  }

  /** Nothing is reported exactly when one of the guards fails; otherwise the results concern
      the named file alone, carry the new run id, are not pending, and every entry comes from
      this run. */
  lemma InterpretationGuards(output: string, blocks: MinitestBlocks, openDocuments: map<string, Document>,
                             regions: seq<TestRegion>, testRun: string, unknown: string, projectPath: Option<string>)
    ensures var r := Interpretation(output, blocks, openDocuments, regions, testRun, unknown, projectPath);
            var lines := OutputLines(output);
            && (r.None? <==> (|lines| <= 3 || lines[0] !in openDocuments || !Finished(blocks.testCount)
                              || projectPath.None?))
            && (r.Some? ==> r.value.Keys == {lines[0]}
                            && r.value[lines[0]].testRun == testRun && !r.value[lines[0]].testRunPending
                            && FromRun(r.value[lines[0]].results, testRun))
  {
    if Reportable(output, blocks, openDocuments, projectPath) {
      var lines := OutputLines(output);
      var ctx := ContextFor(output, openDocuments, regions, testRun, unknown);
      var relativePath := RelativePath(lines[0], projectPath.value);
      CategorisedKeys(blocks, ctx, relativePath, "");
      MarkedPassedFromRun(Categorised(blocks, ctx, relativePath), Reversed(RegionLines(ctx.regions)),
                          AllSeen(blocks, ctx, relativePath), ctx);
    }
  }

  /** Every block resolves to the last region starting at or before its line, whatever its
      test name; with no such region it is dropped. */
  lemma ResolvedByPosition(ctx: RunContext, relativePath: string, f: FailureBlock, e: ErrorBlock, s: SkipBlock)
    requires ctx.resolution.ByPosition?
    ensures var line := LastAtMost(RegionLines(ctx.regions), f.lineNumber);
            (ResolveFailure(ctx, f).Some? <==> Truthy(line))
            && (ResolveFailure(ctx, f).Some? ==> ResolveFailure(ctx, f).value.line == line.value)
    ensures var frame := ErrorFrameLine(e.stackTrace, relativePath);
            frame.Some? ==>
              var line := LastAtMost(RegionLines(ctx.regions), frame.value);
              (ResolveError(ctx, relativePath, e).Some? <==> Truthy(line))
              && (ResolveError(ctx, relativePath, e).Some? ==> ResolveError(ctx, relativePath, e).value.line == line.value)
    ensures var line := LastAtMost(RegionLines(ctx.regions), s.lineNumber);
            (ResolveSkip(ctx, s).Some? <==> Truthy(line))
            && (ResolveSkip(ctx, s).Some? ==> ResolveSkip(ctx, s).value.line == line.value)
  {
    TestLineForSpec(ctx, Some(f.testName), f.lineNumber);
    TestLineForSpec(ctx, None, s.lineNumber);
    var frame := ErrorFrameLine(e.stackTrace, relativePath);
    if frame.Some? {
      TestLineForSpec(ctx, Some(e.testName), frame.value);
    }
  }

  /** The `ALL` run: every region line that no block resolved to is stored as Passed. */
  lemma AllRunPassesUnseen(output: string, blocks: MinitestBlocks, openDocuments: map<string, Document>,
                           regions: seq<TestRegion>, testRun: string, unknown: string, projectPath: Option<string>,
                           i: nat)
    requires Reportable(output, blocks, openDocuments, projectPath) && OutputLines(output)[1] == "ALL"
    requires i < |regions|
    requires regions[i].line !in AllSeen(blocks, ContextFor(output, openDocuments, regions, testRun, unknown),
                                         RelativePath(OutputLines(output)[0], projectPath.value))
    ensures var results := ReportedResults(output, blocks, openDocuments, regions, testRun, unknown, projectPath);
            var k := NatToString(regions[i].line);
            && k in results
            && results[k] == PassedAt(ContextFor(output, openDocuments, regions, testRun, unknown), regions[i].line)
  {
    var lines := OutputLines(output);
    var ctx := ContextFor(output, openDocuments, regions, testRun, unknown);
    var relativePath := RelativePath(lines[0], projectPath.value);
    UnseenRegionPasses(Categorised(blocks, ctx, relativePath), AllSeen(blocks, ctx, relativePath), ctx, i);
  }

  /** The `ALL` run leaves every key a block wrote with what the last category wrote there. */
  lemma AllRunKeepsSeen(output: string, blocks: MinitestBlocks, openDocuments: map<string, Document>,
                        regions: seq<TestRegion>, testRun: string, unknown: string, projectPath: Option<string>,
                        k: string)
    requires Reportable(output, blocks, openDocuments, projectPath) && OutputLines(output)[1] == "ALL"
    requires k in Categorised(blocks, ContextFor(output, openDocuments, regions, testRun, unknown),
                              RelativePath(OutputLines(output)[0], projectPath.value))
    ensures var categorised := Categorised(blocks, ContextFor(output, openDocuments, regions, testRun, unknown),
                                           RelativePath(OutputLines(output)[0], projectPath.value));
            var results := ReportedResults(output, blocks, openDocuments, regions, testRun, unknown, projectPath);
            k in results && results[k] == categorised[k]
  {
    var lines := OutputLines(output);
    var ctx := ContextFor(output, openDocuments, regions, testRun, unknown);
    var relativePath := RelativePath(lines[0], projectPath.value);
    CategorisedKeys(blocks, ctx, relativePath, k);
    SeenKeyKept(Categorised(blocks, ctx, relativePath), AllSeen(blocks, ctx, relativePath), ctx, k);
  }

  /** A single test was run and nothing failed, errored or skipped: exactly one Passed entry is
      stored, under the selector text, at the line it names. For a line written without leading
      zeros the key is that line's decimal form. */
  lemma SingleRunPasses(output: string, blocks: MinitestBlocks, openDocuments: map<string, Document>,
                        regions: seq<TestRegion>, testRun: string, unknown: string, projectPath: Option<string>,
                        n: nat)
    requires Reportable(output, blocks, openDocuments, projectPath)
    requires OutputLines(output)[1] == NatToString(n)
    requires AllSeen(blocks, ContextFor(output, openDocuments, regions, testRun, unknown),
                     RelativePath(OutputLines(output)[0], projectPath.value)) == []
    ensures ReportedResults(output, blocks, openDocuments, regions, testRun, unknown, projectPath)
              == map[NatToString(n) := PassedAt(ContextFor(output, openDocuments, regions, testRun, unknown), n)]
  {
    var lines := OutputLines(output);
    var ctx := ContextFor(output, openDocuments, regions, testRun, unknown);
    var relativePath := RelativePath(lines[0], projectPath.value);
    var categorised := Categorised(blocks, ctx, relativePath);
    forall k | k in categorised ensures false {
      CategorisedKeys(blocks, ctx, relativePath, k);
    }
    assert categorised == map[];
    ParseNatToString(n);
    assert NatToString(n) != "ALL";
  }
}
