/** What both minitest interpreters (src/minitest/MinitestResultInterpreter.ts and its
    predecessor src/MinitestResultInterpreter.ts) do with the blocks their patterns extract from
    minitest's console output: resolve each `Failure:`, `Error:` and `Skipped:` block to the test
    it belongs to, store a result under that test's line, and infer passes for a whole-file run.
    The two versions differ only in how a block is resolved, which `Resolution` captures. */
module MinitestResults {
  import opened Strings
  import opened Types
  import opened Backtrace

  /** `'¯\\_(ツ)_/¯'`: the id every minitest result carries. */
  const Shrug: string := "\U{00AF}\\_(\U{30C4})_/\U{00AF}"

  /** A test region as the interpreters use it: its 1-based first line
      (`range.start.line + 1`) and its name. */
  datatype TestRegion = TestRegion(line: nat, name: Option<string>)

  /** A `Failure:` block: the test name before `[`, the reported line and the message. The older
      pattern captures no test name; it is not used there. */
  datatype FailureBlock = FailureBlock(testName: string, lineNumber: nat, message: string)

  /** An `Error:` block: the test name, the error line and the stack trace text. */
  datatype ErrorBlock = ErrorBlock(testName: string, errorName: string, stackTrace: string)

  /** A `Skipped:` block: the reported line. */
  datatype SkipBlock = SkipBlock(lineNumber: nat)

  /** How a block finds its test: the older interpreter by position only; the newer one by the
      run's selected line, then by test name, then by position. */
  datatype Resolution = ByPosition | BySelectorNameOrPosition(selected: Option<nat>)

  /** What every block of one run is resolved against. `unknown` is the content fallback. */
  datatype RunContext = RunContext(
    doc: Document,
    regions: seq<TestRegion>,
    testRun: string,
    unknown: string,
    resolution: Resolution)

  /** `minitestOutput.split(/\r?\n/)`: pieces between line feeds, each losing the one carriage
      return that precedes its line feed. */
  function OutputLines(text: string): (r: seq<string>)
    ensures |r| == |Split(text, '\n')|
  {
    var pieces := Split(text, '\n');
    seq(|pieces|, i requires 0 <= i < |pieces| =>
      if i < |pieces| - 1 && |pieces[i]| > 0 && pieces[i][|pieces[i]| - 1] == '\r'
      then pieces[i][..|pieces[i]| - 1] else pieces[i])
  }

  /** The regions' first lines in region order (`regions.map(r => r.range.start.line + 1)`). */
  function RegionLines(regions: seq<TestRegion>): (r: seq<nat>)
    ensures |r| == |regions| && forall i :: 0 <= i < |regions| ==> r[i] == regions[i].line
  {
    seq(|regions|, i requires 0 <= i < |regions| => regions[i].line)
  }

  function Reversed(s: seq<nat>): (r: seq<nat>)
    ensures |r| == |s| && forall i :: 0 <= i < |s| ==> r[i] == s[|s| - 1 - i]
  {
    seq(|s|, i requires 0 <= i < |s| => s[|s| - 1 - i])
  }

  /** `reversedTestLines.find(r => r <= n)`: the last line in region order that is at most `n`. */
  function LastAtMost(lines: seq<nat>, n: nat): (r: Option<nat>)
    ensures r.Some? ==> r.value in lines && r.value <= n
    ensures r.None? <==> forall i :: 0 <= i < |lines| ==> lines[i] > n
  {
    if lines == [] then None
    else if lines[|lines| - 1] <= n then Some(lines[|lines| - 1])
    else LastAtMost(lines[..|lines| - 1], n)
  }

  /** The line found is the last one at most `n`, and when the lines ascend (as the parser
      reports them) no line at most `n` is greater. */
  lemma {:induction false} LastAtMostIsLast(lines: seq<nat>, n: nat)
    requires LastAtMost(lines, n).Some?
    ensures exists i :: 0 <= i < |lines| && lines[i] == LastAtMost(lines, n).value
                        && forall j :: i < j < |lines| ==> lines[j] > n
    ensures (forall i, j :: 0 <= i < j < |lines| ==> lines[i] <= lines[j]) ==>
              forall j :: 0 <= j < |lines| && lines[j] <= n ==> lines[j] <= LastAtMost(lines, n).value
  {
    var last := |lines| - 1;
    if lines[last] > n {
      var init := lines[..last];
      LastAtMostIsLast(init, n);
      var i :| 0 <= i < |init| && init[i] == LastAtMost(init, n).value && forall j :: i < j < |init| ==> init[j] > n;
      assert lines[i] == init[i];
      assert forall j :: i < j < |lines| ==> lines[j] > n by {
        forall j | i < j < |lines| ensures lines[j] > n {
          if j < last {
            assert lines[j] == init[j];
          }
        }
      }
      if forall i, j :: 0 <= i < j < |lines| ==> lines[i] <= lines[j] {
        forall j | 0 <= j < |lines| && lines[j] <= n ensures lines[j] <= LastAtMost(lines, n).value {
          if j < last {
            assert lines[j] == init[j];
          }
        }
      }
    }
  }

  predicate IsQuote(c: char) {
    c == '"' || c == '\''
  }

  /** `name.replace(/^["']|["']$/g, '')`: one quote character dropped from each end. */
  function StripQuotes(s: string): (r: string)
    ensures |s| - 2 <= |r| <= |s|
  {
    var t := if |s| > 0 && IsQuote(s[0]) then s[1..] else s;
    if |t| > 0 && IsQuote(t[|t| - 1]) then t[..|t| - 1] else t
  }

  /** A quoted title loses exactly its quotes; a title with no quote at either end is kept. */
  lemma StripQuotesSpec(x: string, q: char, q': char)
    requires IsQuote(q) && IsQuote(q')
    ensures StripQuotes([q] + x + [q']) == x
    ensures (x == [] || (!IsQuote(x[0]) && !IsQuote(x[|x| - 1]))) ==> StripQuotes(x) == x
  {
    var s := [q] + x + [q'];
    assert s[1..] == x + [q'];
    assert (x + [q'])[..|x|] == x;
  }

  /** `r.name && testName.includes(r.name.replace(/^["']|["']$/g, ''))` */
  predicate NameMatches(region: TestRegion, testName: string) {
    region.name.Some? && region.name.value != "" && Includes(testName, StripQuotes(region.name.value))
  }

  /** `regions.filter(...)` with `NameMatches`, in region order. */
  function NameMatching(regions: seq<TestRegion>, testName: string): (r: seq<TestRegion>)
    ensures |r| <= |regions|
    ensures forall j :: 0 <= j < |r| ==> r[j] in regions && NameMatches(r[j], testName)
  {
    if regions == [] then []
    else (if NameMatches(regions[0], testName) then [regions[0]] else []) + NameMatching(regions[1..], testName)
  }

  /** `testNameMatchedLine`: the line of the one region whose name matches, if exactly one does. */
  function UniqueNameMatch(regions: seq<TestRegion>, testName: string): Option<nat> {
    var found := NameMatching(regions, testName);
    if |found| == 1 then Some(found[0].line) else None
  }

  lemma {:induction false} NameMatchingNone(regions: seq<TestRegion>, testName: string)
    requires forall i :: 0 <= i < |regions| ==> !NameMatches(regions[i], testName)
    ensures NameMatching(regions, testName) == []
  {
    if regions != [] {
      NameMatchingNone(regions[1..], testName);
    }
  }

  /** Two matching regions make at least two matches. */
  lemma {:induction false} NameMatchingTwo(regions: seq<TestRegion>, testName: string, i: nat, j: nat)
    requires i < j < |regions| && NameMatches(regions[i], testName) && NameMatches(regions[j], testName)
    ensures |NameMatching(regions, testName)| >= 2
  {
    var rest := regions[1..];
    assert regions[j] == rest[j - 1];
    if i > 0 {
      assert regions[i] == rest[i - 1];
      NameMatchingTwo(rest, testName, i - 1, j - 1);
      var head := if NameMatches(regions[0], testName) then [regions[0]] else [];
      assert NameMatching(regions, testName) == head + NameMatching(rest, testName);
    } else {
      NameMatchingHas(rest, testName, j - 1);
      assert NameMatching(regions, testName) == [regions[0]] + NameMatching(rest, testName);
    }
  }

  lemma {:induction false} NameMatchingHas(regions: seq<TestRegion>, testName: string, i: nat)
    requires i < |regions| && NameMatches(regions[i], testName)
    ensures |NameMatching(regions, testName)| >= 1
  {
    if i > 0 {
      NameMatchingHas(regions[1..], testName, i - 1);
    }
  }

  lemma {:induction false} NameMatchingOnly(regions: seq<TestRegion>, testName: string, i: nat)
    requires i < |regions| && NameMatches(regions[i], testName)
    requires forall j :: 0 <= j < |regions| && j != i ==> !NameMatches(regions[j], testName)
    ensures NameMatching(regions, testName) == [regions[i]]
  {
    var rest := regions[1..];
    if i == 0 {
      NameMatchingNone(rest, testName);
    } else {
      NameMatchingOnly(rest, testName, i - 1);
    }
  }

  /** A test name picks a region exactly when one region, and no other, has a name it
      contains; the line reported is that region's. */
  lemma UniqueNameMatchSpec(regions: seq<TestRegion>, testName: string, i: nat)
    requires i < |regions|
    ensures (NameMatches(regions[i], testName)
             && forall j :: 0 <= j < |regions| && j != i ==> !NameMatches(regions[j], testName))
            ==> UniqueNameMatch(regions, testName) == Some(regions[i].line)
    ensures UniqueNameMatch(regions, testName).Some? ==>
              exists k :: 0 <= k < |regions| && NameMatches(regions[k], testName)
                          && regions[k].line == UniqueNameMatch(regions, testName).value
                          && forall j :: 0 <= j < |regions| && j != k ==> !NameMatches(regions[j], testName)
  {
    if NameMatches(regions[i], testName) && forall j :: 0 <= j < |regions| && j != i ==> !NameMatches(regions[j], testName) {
      NameMatchingOnly(regions, testName, i);
    }
    if UniqueNameMatch(regions, testName).Some? {
      var found := NameMatching(regions, testName);
      assert found[0] in regions;
      var k :| 0 <= k < |regions| && regions[k] == found[0];
      forall j | 0 <= j < |regions| && j != k ensures !NameMatches(regions[j], testName) {
        if NameMatches(regions[j], testName) {
          if j < k {
            NameMatchingTwo(regions, testName, j, k);
          } else {
            NameMatchingTwo(regions, testName, k, j);
          }
        }
      }
    }
  }

  /** JavaScript `a || b` on optional line numbers. */
  function OrLine(a: Option<nat>, b: Option<nat>): Option<nat> {
    if Truthy(a) then a else b
  }

  /** The test line a block reported at `line` resolves to; `testName` is absent for skips,
      which are never matched by name. */
  function TestLineFor(ctx: RunContext, testName: Option<string>, line: nat): Option<nat> {
    var byPosition := LastAtMost(RegionLines(ctx.regions), line);
    match ctx.resolution
    case ByPosition => byPosition
    case BySelectorNameOrPosition(selected) =>
      var byName := if testName.Some? then UniqueNameMatch(ctx.regions, testName.value) else None;
      OrLine(OrLine(selected, byName), byPosition)
  }

  /** Resolution priority: the selected line when there is one, else the uniquely named
      region, else the last region starting at or before the reported line; the older
      interpreter goes by position alone. Whatever is found is the selected line or the first
      line of a region. */
  lemma TestLineForSpec(ctx: RunContext, testName: Option<string>, line: nat)
    ensures var r := TestLineFor(ctx, testName, line);
            var byPosition := LastAtMost(RegionLines(ctx.regions), line);
            && (ctx.resolution.ByPosition? ==> r == byPosition)
            && (ctx.resolution.BySelectorNameOrPosition? ==>
                  var byName := if testName.Some? then UniqueNameMatch(ctx.regions, testName.value) else None;
                  && (Truthy(ctx.resolution.selected) ==> r == ctx.resolution.selected)
                  && (!Truthy(ctx.resolution.selected) && Truthy(byName) ==> r == byName)
                  && (!Truthy(ctx.resolution.selected) && !Truthy(byName) ==> r == byPosition))
            && (r.Some? ==> (ctx.resolution.BySelectorNameOrPosition? && r == ctx.resolution.selected)
                            || exists i :: 0 <= i < |ctx.regions| && ctx.regions[i].line == r.value)
  {
    var r := TestLineFor(ctx, testName, line);
    var lines := RegionLines(ctx.regions);
    if r.Some? && !(ctx.resolution.BySelectorNameOrPosition? && r == ctx.resolution.selected) {
      if ctx.resolution.BySelectorNameOrPosition? && testName.Some? && r == UniqueNameMatch(ctx.regions, testName.value) {
        assert NameMatching(ctx.regions, testName.value)[0] in ctx.regions;
      } else {
        assert r.value in lines;
        var i :| 0 <= i < |lines| && lines[i] == r.value;
        assert ctx.regions[i].line == r.value;
      }
    }
  }

  /** `contentAtLine(file, line)` on the run's document. */
  function Content(ctx: RunContext, line: nat): string {
    ContentAtLine(Some(ctx.doc), line, ctx.unknown)
  }

  /** The result stored for a test line. */
  function ResultAt(ctx: RunContext, line: nat, status: Status, exception: Option<TestException>): LineResult {
    LineResult(Shrug, ctx.testRun, line, Content(ctx, line), status, exception, None, None, None)
  }

  /** `failureMatches`, one block: a Failed result for its test, with an exception of type `''`
      anchored at the reported line; nothing when no test line is found. */
  function ResolveFailure(ctx: RunContext, b: FailureBlock): (r: Option<LineResult>)
    ensures var line := TestLineFor(ctx, Some(b.testName), b.lineNumber);
            && (r.Some? <==> Truthy(line))
            && (r.Some? ==> r.value == ResultAt(ctx, line.value, Failed,
                  Some(TestException(b.message, Some(""), Some(b.lineNumber), Some(Content(ctx, b.lineNumber))))))
  {
    var line := TestLineFor(ctx, Some(b.testName), b.lineNumber);
    if !Truthy(line) then None
    else
      var exception := TestException(b.message, Some(""), Some(b.lineNumber), Some(Content(ctx, b.lineNumber)));
      Some(ResultAt(ctx, line.value, Failed, Some(exception)))
  }

  /** The stack trace's entries, trimmed (`split(/\r?\n/).map(l => l.trim())`; the carriage
      returns the pattern strips are whitespace that `trim` removes anyway). */
  function TraceEntries(stackTrace: string): (r: seq<string>)
    ensures |r| == |Split(stackTrace, '\n')|
  {
    var pieces := Split(stackTrace, '\n');
    seq(|pieces|, i requires 0 <= i < |pieces| => Trim(pieces[i]))
  }

  /** The line of the first trace entry that names the file at `relativePath`. */
  function ErrorFrameLine(stackTrace: string, relativePath: string): Option<nat> {
    FrameLine(TraceEntries(stackTrace), Mentions(relativePath))
  }

  /** `file.fileName.replace(projectPath, '').substring(1)`: the first occurrence of the project
      path removed, then the first character. */
  function RelativePath(fileName: string, projectPath: string): string {
    var cut := FirstOccurrence(fileName, projectPath, 0);
    var rest := if cut.Some? then fileName[..cut.value] + fileName[cut.value + |projectPath|..] else fileName;
    if rest == "" then "" else rest[1..]
  }

  function FirstOccurrence(s: string, sub: string, from: nat): (r: Option<nat>)
    requires from <= |s| + 1
    ensures r.Some? ==> from <= r.value <= |s| - |sub| && OccursAt(s, sub, r.value)
    decreases |s| + 1 - from
  {
    if from + |sub| > |s| then None
    else if OccursAt(s, sub, from) then Some(from)
    else FirstOccurrence(s, sub, from + 1)
  }

  /** A file under the project directory is named relative to it, without the separator. */
  lemma RelativePathUnder(projectPath: string, sep: char, rel: string)
    ensures RelativePath(projectPath + [sep] + rel, projectPath) == rel
  {
    var f := projectPath + [sep] + rel;
    assert OccursAt(f, projectPath, 0) by {
      assert f[..|projectPath|] == projectPath;
    }
    assert FirstOccurrence(f, projectPath, 0) == Some(0);
    assert f[|projectPath|..] == [sep] + rel;
  }

  /** `errorMatches`, one block: when a trace entry names the file, a Failed result for its test
      whose exception carries the error name and the frame's line (and no type); nothing when
      there is no such entry or no test line. */
  function ResolveError(ctx: RunContext, relativePath: string, b: ErrorBlock): (r: Option<LineResult>)
    ensures var frame := ErrorFrameLine(b.stackTrace, relativePath);
            && (frame.None? ==> r.None?)
            && (frame.Some? ==>
                  var line := TestLineFor(ctx, Some(b.testName), frame.value);
                  && (r.Some? <==> Truthy(line))
                  && (r.Some? ==> r.value == ResultAt(ctx, line.value, Failed,
                        Some(TestException(b.errorName, None, Some(frame.value), Some(Content(ctx, frame.value)))))))
  {
    var frame := ErrorFrameLine(b.stackTrace, relativePath);
    if frame.None? then None
    else
      var line := TestLineFor(ctx, Some(b.testName), frame.value);
      if !Truthy(line) then None
      else
        var exception := TestException(b.errorName, None, Some(frame.value), Some(Content(ctx, frame.value)));
        Some(ResultAt(ctx, line.value, Failed, Some(exception)))
  }

  /** `skippedMatches`, one block: a Pending result with no exception for the test found by
      selector or position; nothing when there is none. */
  function ResolveSkip(ctx: RunContext, b: SkipBlock): (r: Option<LineResult>)
    ensures var line := TestLineFor(ctx, None, b.lineNumber);
            && (r.Some? <==> Truthy(line))
            && (r.Some? ==> r.value == ResultAt(ctx, line.value, Pending, None))
  {
    var line := TestLineFor(ctx, None, b.lineNumber);
    if !Truthy(line) then None else Some(ResultAt(ctx, line.value, Pending, None))
  }

  function FailureResolver(ctx: RunContext): FailureBlock -> Option<LineResult> {
    b => ResolveFailure(ctx, b)
  }

  function ErrorResolver(ctx: RunContext, relativePath: string): ErrorBlock -> Option<LineResult> {
    b => ResolveError(ctx, relativePath, b)
  }

  function SkipResolver(ctx: RunContext): SkipBlock -> Option<LineResult> {
    b => ResolveSkip(ctx, b)
  }

  /** `testLine.toString()`: the key a result is stored under. */
  function Key(r: LineResult): string {
    NatToString(r.line)
  }

  /** Block `b` produces a result under key `k`. */
  predicate StoresAt<B>(resolve: B -> Option<LineResult>, b: B, k: string) {
    resolve(b).Some? && Key(resolve(b).value) == k
  }

  /** The results after one category's loop: each resolved block's result written under its key,
      in block order. */
  function Recorded<B>(results: map<string, LineResult>, blocks: seq<B>, resolve: B -> Option<LineResult>)
    : map<string, LineResult>
  {
    if blocks == [] then results
    else
      var m := Recorded(results, blocks[..|blocks| - 1], resolve);
      var r := resolve(blocks[|blocks| - 1]);
      if r.Some? then m[Key(r.value) := r.value] else m
  }

  /** The `seenLines` one category's loop returns: the resolved test lines, in block order. */
  function SeenLines<B>(blocks: seq<B>, resolve: B -> Option<LineResult>): seq<nat> {
    if blocks == [] then []
    else
      var r := resolve(blocks[|blocks| - 1]);
      SeenLines(blocks[..|blocks| - 1], resolve) + (if r.Some? then [r.value.line] else [])
  }

  /** The keys after a category's loop: those before it and the keys of its resolved blocks. */
  lemma {:induction false} RecordedKeys<B>(results: map<string, LineResult>, blocks: seq<B>,
                                           resolve: B -> Option<LineResult>, k: string)
    ensures k in Recorded(results, blocks, resolve) <==>
              (k in results || exists i :: 0 <= i < |blocks| && StoresAt(resolve, blocks[i], k))
  {
    if blocks != [] {
      var init := blocks[..|blocks| - 1];
      RecordedKeys(results, init, resolve, k);
      assert forall i :: 0 <= i < |init| ==> init[i] == blocks[i];
      if !StoresAt(resolve, blocks[|blocks| - 1], k) {
        assert forall i :: 0 <= i < |blocks| && StoresAt(resolve, blocks[i], k) ==> StoresAt(resolve, init[i], k);
      }
    }
  }

  /** A key no block of the category stores at keeps its earlier entry. */
  lemma {:induction false} RecordedUntouched<B>(results: map<string, LineResult>, blocks: seq<B>,
                                                resolve: B -> Option<LineResult>, k: string)
    requires k in results
    requires forall i :: 0 <= i < |blocks| ==> !StoresAt(resolve, blocks[i], k)
    ensures k in Recorded(results, blocks, resolve) && Recorded(results, blocks, resolve)[k] == results[k]
  {
    if blocks != [] {
      var init := blocks[..|blocks| - 1];
      assert forall i :: 0 <= i < |init| ==> init[i] == blocks[i];
      RecordedUntouched(results, init, resolve, k);
    }
  }

  /** A key several blocks store at holds the result of the LAST of them. */
  lemma {:induction false} RecordedLastWins<B>(results: map<string, LineResult>, blocks: seq<B>,
                                               resolve: B -> Option<LineResult>, i: nat)
    requires i < |blocks| && resolve(blocks[i]).Some?
    requires forall j :: i < j < |blocks| ==> !StoresAt(resolve, blocks[j], Key(resolve(blocks[i]).value))
    ensures Key(resolve(blocks[i]).value) in Recorded(results, blocks, resolve)
    ensures Recorded(results, blocks, resolve)[Key(resolve(blocks[i]).value)] == resolve(blocks[i]).value
  {
    if i < |blocks| - 1 {
      var init := blocks[..|blocks| - 1];
      assert forall j :: 0 <= j < |init| ==> init[j] == blocks[j];
      RecordedLastWins(results, init, resolve, i);
    }
  }

  /** A line is seen exactly when some block of the category resolves to it. */
  lemma {:induction false} SeenLinesSpec<B>(blocks: seq<B>, resolve: B -> Option<LineResult>, x: nat)
    ensures x in SeenLines(blocks, resolve) <==>
              exists i :: 0 <= i < |blocks| && resolve(blocks[i]).Some? && resolve(blocks[i]).value.line == x
  {
    if blocks != [] {
      var init := blocks[..|blocks| - 1];
      SeenLinesSpec(init, resolve, x);
      assert forall i :: 0 <= i < |init| ==> init[i] == blocks[i];
      var r := resolve(blocks[|blocks| - 1]);
      if !(r.Some? && r.value.line == x) {
        assert forall i :: 0 <= i < |blocks| && resolve(blocks[i]).Some? && resolve(blocks[i]).value.line == x
                 ==> resolve(init[i]).Some? && resolve(init[i]).value.line == x;
      }
    }
  }

  /** The loop of `failureMatches`, `errorMatches` and `skippedMatches`: each block that
      resolves writes its result and its test line is pushed onto the seen lines; a block that
      does not resolve is skipped and the loop goes on. */
  method RecordMatches<B>(blocks: seq<B>, resolve: B -> Option<LineResult>, results: map<string, LineResult>)
    returns (updated: map<string, LineResult>, seen: seq<nat>)
    ensures updated == Recorded(results, blocks, resolve)
    ensures seen == SeenLines(blocks, resolve)
  {
    updated := results;
    seen := [];
    var i := 0;
    while i < |blocks|
      invariant 0 <= i <= |blocks|
      invariant updated == Recorded(results, blocks[..i], resolve)
      invariant seen == SeenLines(blocks[..i], resolve)
    {
      assert blocks[..i + 1][..i] == blocks[..i];
      var testLine := resolve(blocks[i]);
      if testLine.Some? {
        updated := updated[Key(testLine.value) := testLine.value];
        seen := seen + [testLine.value.line];
      }
      i := i + 1;
    }
    assert blocks[..|blocks|] == blocks;
  }

  /** The result inferred for a test that did not fail, error or skip. */
  function PassedAt(ctx: RunContext, line: nat): LineResult {
    ResultAt(ctx, line, Passed, None)
  }

  /** The `ALL` inference: each listed line not among the seen ones stored as Passed. */
  function MarkedPassed(results: map<string, LineResult>, lines: seq<nat>, seen: seq<nat>, ctx: RunContext)
    : map<string, LineResult>
  {
    if lines == [] then results
    else
      var m := MarkedPassed(results, lines[..|lines| - 1], seen, ctx);
      var line := lines[|lines| - 1];
      if line in seen then m else m[NatToString(line) := PassedAt(ctx, line)]
  }

  /** Some listed line that was not seen has decimal key `k`. */
  predicate MarksKey(lines: seq<nat>, seen: seq<nat>, k: string) {
    exists x :: x in lines && x !in seen && NatToString(x) == k
  }

  lemma MarksKeySnoc(lines: seq<nat>, seen: seq<nat>, k: string)
    requires lines != []
    ensures var last := lines[|lines| - 1];
            MarksKey(lines, seen, k) <==> MarksKey(lines[..|lines| - 1], seen, k) || (last !in seen && NatToString(last) == k)
  {
    var init := lines[..|lines| - 1];
    assert lines == init + [lines[|lines| - 1]];
    if MarksKey(lines, seen, k) {
      var x :| x in lines && x !in seen && NatToString(x) == k;
      assert x in init || x == lines[|lines| - 1];
    }
  }

  /** Every listed line that was not seen is Passed; every other key, the seen lines' keys
      among them, keeps its entry. */
  lemma {:induction false} MarkedPassedSpec(results: map<string, LineResult>, lines: seq<nat>, seen: seq<nat>,
                                            ctx: RunContext, k: string)
    ensures var m := MarkedPassed(results, lines, seen, ctx);
            && (MarksKey(lines, seen, k) ==>
                  exists x :: x in lines && x !in seen && NatToString(x) == k && k in m && m[k] == PassedAt(ctx, x))
            && (!MarksKey(lines, seen, k) ==> (k in m <==> k in results) && (k in results ==> m[k] == results[k]))
  {
    if lines != [] {
      var init := lines[..|lines| - 1];
      var last := lines[|lines| - 1];
      MarkedPassedSpec(results, init, seen, ctx, k);
      MarksKeySnoc(lines, seen, k);
      if last !in seen && NatToString(last) == k {
        assert last in lines;
      } else if MarksKey(init, seen, k) {
        var x :| x in init && x !in seen && NatToString(x) == k && k in MarkedPassed(results, init, seen, ctx)
                 && MarkedPassed(results, init, seen, ctx)[k] == PassedAt(ctx, x);
        assert x in lines;
      }
    }
  }

  /** The `ALL` loop, over the region lines in reverse order. */
  method MarkUnseenPassed(results: map<string, LineResult>, ctx: RunContext, seen: seq<nat>)
    returns (updated: map<string, LineResult>)
    ensures updated == MarkedPassed(results, Reversed(RegionLines(ctx.regions)), seen, ctx)
  {
    var reversedTestLines := Reversed(RegionLines(ctx.regions));
    updated := results;
    var i := 0;
    while i < |reversedTestLines|
      invariant 0 <= i <= |reversedTestLines|
      invariant updated == MarkedPassed(results, reversedTestLines[..i], seen, ctx)
    {
      assert reversedTestLines[..i + 1][..i] == reversedTestLines[..i];
      var line := reversedTestLines[i];
      if line !in seen {
        updated := updated[NatToString(line) := PassedAt(ctx, line)];
      }
      i := i + 1;
    }
    assert reversedTestLines[..|reversedTestLines|] == reversedTestLines;
  }

  /** In the `ALL` inference over the regions, a region line no block resolved to is stored as
      Passed under its decimal key. */
  lemma UnseenRegionPasses(results: map<string, LineResult>, seen: seq<nat>, ctx: RunContext, i: nat)
    requires i < |ctx.regions| && ctx.regions[i].line !in seen
    ensures var m := MarkedPassed(results, Reversed(RegionLines(ctx.regions)), seen, ctx);
            var k := NatToString(ctx.regions[i].line);
            k in m && m[k] == PassedAt(ctx, ctx.regions[i].line)
  {
    var reversed := Reversed(RegionLines(ctx.regions));
    var m := MarkedPassed(results, reversed, seen, ctx);
    var k := NatToString(ctx.regions[i].line);
    assert reversed[|ctx.regions| - 1 - i] == ctx.regions[i].line;
    MarkedPassedSpec(results, reversed, seen, ctx, k);
    var x :| x in reversed && x !in seen && NatToString(x) == k && k in m && m[k] == PassedAt(ctx, x);
    NatToStringInjective(x, ctx.regions[i].line);
  }

  /** In the `ALL` inference, the key of a seen line keeps its entry. */
  lemma SeenKeyKept(results: map<string, LineResult>, seen: seq<nat>, ctx: RunContext, k: string)
    requires k in results && exists y :: y in seen && NatToString(y) == k
    ensures var m := MarkedPassed(results, Reversed(RegionLines(ctx.regions)), seen, ctx);
            k in m && m[k] == results[k]
  {
    var reversed := Reversed(RegionLines(ctx.regions));
    var y :| y in seen && NatToString(y) == k;
    forall x | x in reversed && x !in seen ensures NatToString(x) != k {
      NatToStringInjective(x, y);
    }
    MarkedPassedSpec(results, reversed, seen, ctx, k);
  }

  /** The guards that decide whether anything is reported: more than one line after the two
      header lines, the named file open, a summary counting at least one test, and (read by
      `errorMatches`) a project path that does not raise. */
  predicate Reportable(output: string, blocks: MinitestBlocks, openDocuments: map<string, Document>,
                       projectPath: Option<string>)
  {
    var lines := OutputLines(output);
    |lines| > 3 && lines[0] in openDocuments && Finished(blocks.testCount) && projectPath.Some?
  }

  /** Every stored result comes from this run and carries the minitest id. */
  predicate FromRun(results: map<string, LineResult>, testRun: string) {
    forall k :: k in results ==> results[k].testRun == testRun && results[k].id == Shrug
  }

  /** Each category's loop keeps every result within the run. */
  lemma {:induction false} RecordedFromRun<B>(results: map<string, LineResult>, blocks: seq<B>,
                                              resolve: B -> Option<LineResult>, testRun: string)
    requires FromRun(results, testRun)
    requires forall i :: 0 <= i < |blocks| && resolve(blocks[i]).Some? ==>
               resolve(blocks[i]).value.testRun == testRun && resolve(blocks[i]).value.id == Shrug
    ensures FromRun(Recorded(results, blocks, resolve), testRun)
  {
    if blocks != [] {
      var init := blocks[..|blocks| - 1];
      assert forall i :: 0 <= i < |init| ==> init[i] == blocks[i];
      RecordedFromRun(results, init, resolve, testRun);
    }
  }

  lemma {:induction false} MarkedPassedFromRun(results: map<string, LineResult>, lines: seq<nat>, seen: seq<nat>,
                                               ctx: RunContext)
    requires FromRun(results, ctx.testRun)
    ensures FromRun(MarkedPassed(results, lines, seen, ctx), ctx.testRun)
  {
    if lines != [] {
      MarkedPassedFromRun(results, lines[..|lines| - 1], seen, ctx);
    }
  }

  /** The line count in a summary such as `3 tests, 5 assertions, 0 failures, 0 errors, 0 skips`,
      when the output has one. */
  predicate Finished(testCount: Option<nat>) {
    testCount.Some? && testCount.value > 0
  }

  /** What the block patterns extract from the colour-stripped output. */
  datatype MinitestBlocks = MinitestBlocks(
    testCount: Option<nat>,
    failures: seq<FailureBlock>,
    errors: seq<ErrorBlock>,
    skips: seq<SkipBlock>)

  /** The three categories, failures then errors then skips, written into an empty result set;
      with the lines they saw, in the same order. */
  function Categorised(blocks: MinitestBlocks, ctx: RunContext, relativePath: string): map<string, LineResult> {
    var afterFailures := Recorded(map[], blocks.failures, FailureResolver(ctx));
    var afterErrors := Recorded(afterFailures, blocks.errors, ErrorResolver(ctx, relativePath));
    Recorded(afterErrors, blocks.skips, SkipResolver(ctx))
  }

  function AllSeen(blocks: MinitestBlocks, ctx: RunContext, relativePath: string): seq<nat> {
    SeenLines(blocks.failures, FailureResolver(ctx))
    + SeenLines(blocks.errors, ErrorResolver(ctx, relativePath))
    + SeenLines(blocks.skips, SkipResolver(ctx))
  }

  /** The shared body of both `updateFromMinitestOutput` versions after their guards: the three
      category loops, in order. */
  method CategoriseAll(blocks: MinitestBlocks, ctx: RunContext, relativePath: string)
    returns (results: map<string, LineResult>, seen: seq<nat>)
    ensures results == Categorised(blocks, ctx, relativePath)
    ensures seen == AllSeen(blocks, ctx, relativePath)
  {
    var seenFailures, seenErrors, seenSkips;
    results, seenFailures := RecordMatches(blocks.failures, FailureResolver(ctx), map[]);
    results, seenErrors := RecordMatches(blocks.errors, ErrorResolver(ctx, relativePath), results);
    results, seenSkips := RecordMatches(blocks.skips, SkipResolver(ctx), results);
    seen := seenFailures + seenErrors + seenSkips;
  }

  /** Skips are written last: a key some skip stores at holds the last such skip's Pending
      result, whatever the failures and errors wrote there. */
  lemma SkipWins(blocks: MinitestBlocks, ctx: RunContext, relativePath: string, i: nat)
    requires i < |blocks.skips| && ResolveSkip(ctx, blocks.skips[i]).Some?
    requires forall j :: i < j < |blocks.skips| ==>
               !StoresAt(SkipResolver(ctx), blocks.skips[j], Key(ResolveSkip(ctx, blocks.skips[i]).value))
    ensures var k := Key(ResolveSkip(ctx, blocks.skips[i]).value);
            && k in Categorised(blocks, ctx, relativePath)
            && Categorised(blocks, ctx, relativePath)[k] == ResolveSkip(ctx, blocks.skips[i]).value
            && Categorised(blocks, ctx, relativePath)[k].status == Pending
  {
    var afterFailures := Recorded(map[], blocks.failures, FailureResolver(ctx));
    var afterErrors := Recorded(afterFailures, blocks.errors, ErrorResolver(ctx, relativePath));
    RecordedLastWins(afterErrors, blocks.skips, SkipResolver(ctx), i);
  }

  /** Errors are written after failures: a key some error stores at, and no skip does, holds the
      last such error's Failed result. */
  lemma ErrorWins(blocks: MinitestBlocks, ctx: RunContext, relativePath: string, i: nat)
    requires i < |blocks.errors| && ResolveError(ctx, relativePath, blocks.errors[i]).Some?
    requires var k := Key(ResolveError(ctx, relativePath, blocks.errors[i]).value);
             && (forall j :: i < j < |blocks.errors| ==> !StoresAt(ErrorResolver(ctx, relativePath), blocks.errors[j], k))
             && (forall j :: 0 <= j < |blocks.skips| ==> !StoresAt(SkipResolver(ctx), blocks.skips[j], k))
    ensures var k := Key(ResolveError(ctx, relativePath, blocks.errors[i]).value);
            && k in Categorised(blocks, ctx, relativePath)
            && Categorised(blocks, ctx, relativePath)[k] == ResolveError(ctx, relativePath, blocks.errors[i]).value
            && Categorised(blocks, ctx, relativePath)[k].status == Failed
  {
    var k := Key(ResolveError(ctx, relativePath, blocks.errors[i]).value);
    var afterFailures := Recorded(map[], blocks.failures, FailureResolver(ctx));
    var afterErrors := Recorded(afterFailures, blocks.errors, ErrorResolver(ctx, relativePath));
    RecordedLastWins(afterFailures, blocks.errors, ErrorResolver(ctx, relativePath), i);
    RecordedUntouched(afterErrors, blocks.skips, SkipResolver(ctx), k);
  }

  /** A key one category's loop adds is the decimal form of a line that category saw. */
  lemma RecordedKeySeen<B>(results: map<string, LineResult>, blocks: seq<B>, resolve: B -> Option<LineResult>,
                           k: string)
    requires k in Recorded(results, blocks, resolve) && k !in results
    ensures exists x :: x in SeenLines(blocks, resolve) && NatToString(x) == k
  {
    RecordedKeys(results, blocks, resolve, k);
    var i :| 0 <= i < |blocks| && StoresAt(resolve, blocks[i], k);
    SeenLinesSpec(blocks, resolve, resolve(blocks[i]).value.line);
  }

  /** A key holds a result only when it is the decimal form of a seen line. */
  lemma CategorisedKeySeen(blocks: MinitestBlocks, ctx: RunContext, relativePath: string, k: string)
    requires k in Categorised(blocks, ctx, relativePath)
    ensures exists x :: x in AllSeen(blocks, ctx, relativePath) && NatToString(x) == k
  {
    var fr := FailureResolver(ctx);
    var er := ErrorResolver(ctx, relativePath);
    var sr := SkipResolver(ctx);
    var afterFailures := Recorded(map[], blocks.failures, fr);
    var afterErrors := Recorded(afterFailures, blocks.errors, er);
    var seen := AllSeen(blocks, ctx, relativePath);
    if k !in afterErrors {
      RecordedKeySeen(afterErrors, blocks.skips, sr, k);
      var x :| x in SeenLines(blocks.skips, sr) && NatToString(x) == k;
      assert x in seen;
    } else if k !in afterFailures {
      RecordedKeySeen(afterFailures, blocks.errors, er, k);
      var x :| x in SeenLines(blocks.errors, er) && NatToString(x) == k;
      assert x in seen;
    } else {
      RecordedKeySeen(map[], blocks.failures, fr, k);
      var x :| x in SeenLines(blocks.failures, fr) && NatToString(x) == k;
      assert x in seen;
    }
  }

  /** The decimal form of every seen line holds a result. */
  lemma SeenKeyCategorised(blocks: MinitestBlocks, ctx: RunContext, relativePath: string, x: nat)
    requires x in AllSeen(blocks, ctx, relativePath)
    ensures NatToString(x) in Categorised(blocks, ctx, relativePath)
  {
    var k := NatToString(x);
    var fr := FailureResolver(ctx);
    var er := ErrorResolver(ctx, relativePath);
    var sr := SkipResolver(ctx);
    var afterFailures := Recorded(map[], blocks.failures, fr);
    var afterErrors := Recorded(afterFailures, blocks.errors, er);
    RecordedKeys(map[], blocks.failures, fr, k);
    RecordedKeys(afterFailures, blocks.errors, er, k);
    RecordedKeys(afterErrors, blocks.skips, sr, k);
    if x in SeenLines(blocks.failures, fr) {
      SeenLinesSpec(blocks.failures, fr, x);
    } else if x in SeenLines(blocks.errors, er) {
      SeenLinesSpec(blocks.errors, er, x);
    } else {
      SeenLinesSpec(blocks.skips, sr, x);
    }
  }

  /** Every result the three categories write is from the run. */
  lemma CategorisedFromRun(blocks: MinitestBlocks, ctx: RunContext, relativePath: string)
    ensures FromRun(Categorised(blocks, ctx, relativePath), ctx.testRun)
  {
    var fr := FailureResolver(ctx);
    var er := ErrorResolver(ctx, relativePath);
    var sr := SkipResolver(ctx);
    var afterFailures := Recorded(map[], blocks.failures, fr);
    var afterErrors := Recorded(afterFailures, blocks.errors, er);
    RecordedFromRun(map[], blocks.failures, fr, ctx.testRun);
    RecordedFromRun(afterFailures, blocks.errors, er, ctx.testRun);
    RecordedFromRun(afterErrors, blocks.skips, sr, ctx.testRun);
  }

  /** A key holds a result exactly when it is the decimal form of a seen line; every result is
      from the run. */
  lemma CategorisedKeys(blocks: MinitestBlocks, ctx: RunContext, relativePath: string, k: string)
    ensures var m := Categorised(blocks, ctx, relativePath);
            && (k in m <==> exists x :: x in AllSeen(blocks, ctx, relativePath) && NatToString(x) == k)
            && FromRun(m, ctx.testRun)
  {
    if k in Categorised(blocks, ctx, relativePath) {
      CategorisedKeySeen(blocks, ctx, relativePath, k);
    }
    if exists x :: x in AllSeen(blocks, ctx, relativePath) && NatToString(x) == k {
      var x :| x in AllSeen(blocks, ctx, relativePath) && NatToString(x) == k;
      SeenKeyCategorised(blocks, ctx, relativePath, x);
    }
    CategorisedFromRun(blocks, ctx, relativePath);
  }
}
