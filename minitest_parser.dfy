/** src/minitest/MinitestParser.ts: the code-lens regions of a minitest file. The two patterns
    (test line, context line) are parameters: each is a classifier of one line that reports
    whether the pattern matched and what its named groups captured. */
module MinitestParser {
  import opened Strings
  import opened Types
  import opened LineScan

  /** What the test pattern reports for one line: no match, or a match whose `title` group
      (the quoted `it`/`should` title, quotes included) may be absent, as on a `def test_…`
      line. */
  datatype TestLine = NotATest | ATest(title: Option<string>)

  /** What the context pattern reports for one line: no match, or a match with its
      `className` and `contextName` groups. */
  datatype ContextLine = NotAContext | AContext(className: Option<string>, contextName: Option<string>)

  /** `MinitestRegion` */
  datatype MinitestRegion = MinitestRegion(range: Range, name: Option<string>, forTestLines: Option<seq<nat>>)

  /** The test pattern as a line predicate. */
  function IsTestLine(matchTest: string -> TestLine): string -> bool {
    line => matchTest(line).ATest?
  }

  /** The context pattern as a line predicate. */
  function IsContextLine(matchContext: string -> ContextLine): string -> bool {
    line => matchContext(line).AContext?
  }

  /** `match.groups?.title || match.groups?.unitDef`: the pattern's group is called `unit_def`,
      so `unitDef` is never set and only a non-empty title names a test. */
  function TestName(m: TestLine): (r: Option<string>)
    ensures r.Some? <==> m.ATest? && m.title.Some? && m.title.value != ""
    ensures r.Some? ==> r == m.title
  {
    if m.ATest? then FirstTruthy(m.title, None) else None
  }

  /** `match.groups?.className || match.groups?.contextName`: a non-empty class name, else the
      context name as captured, which may be the empty string of `describe "" do`. */
  function ContextName(m: ContextLine): (r: Option<string>)
    ensures m.AContext? && m.className.Some? && m.className.value != "" ==> r == m.className
    ensures m.AContext? && !(m.className.Some? && m.className.value != "") ==> r == m.contextName
    ensures r.Some? ==> m.AContext? && (r == m.className || r == m.contextName)
  {
    if m.AContext? then FirstTruthy(m.className, m.contextName) else None
  }

  /** The region pushed for a test line. */
  function TestRegionAt(lines: seq<string>, i: nat, matchTest: string -> TestLine): MinitestRegion
    requires i < |lines|
  {
    MinitestRegion(FullLine(i, lines[i]), TestName(matchTest(lines[i])), None)
  }

  /** The regions for the listed line numbers, in that order. */
  function TestRegionsAt(lines: seq<string>, idx: seq<nat>, matchTest: string -> TestLine): (r: seq<MinitestRegion>)
    requires forall j :: 0 <= j < |idx| ==> idx[j] < |lines|
    ensures |r| == |idx|
    ensures forall j :: 0 <= j < |idx| ==> r[j] == TestRegionAt(lines, idx[j], matchTest)
  {
    seq(|idx|, j requires 0 <= j < |idx| => TestRegionAt(lines, idx[j], matchTest))
  }

  /** Reference semantics of `getTestRegions` on the document's lines. */
  function TestRegions(lines: seq<string>, matchTest: string -> TestLine): seq<MinitestRegion> {
    TestRegionsAt(lines, MatchingFrom(lines, IsTestLine(matchTest), 0), matchTest)
  }

  /** `getTestRegions`: one region per line the test pattern matches. */
  method GetTestRegions(text: string, matchTest: string -> TestLine) returns (regions: seq<MinitestRegion>)
    ensures regions == TestRegions(Split(text, '\n'), matchTest)
  {
    var lines := Split(text, '\n');
    var p := IsTestLine(matchTest);
    regions := [];
    ghost var seen: seq<nat> := [];
    var lineNo := 0;
    while lineNo < |lines|
      invariant 0 <= lineNo <= |lines|
      invariant seen == MatchingBefore(lines, p, lineNo)
      invariant regions == TestRegionsAt(lines, seen, matchTest)
    {
      var lineContent := lines[lineNo];
      var found := matchTest(lineContent);
      assert p(lineContent) == found.ATest?;
      if found.ATest? {
        TestRegionsAtSnoc(lines, seen, lineNo, matchTest);
        assert MinitestRegion(FullLine(lineNo, lineContent), TestName(found), None) == TestRegionAt(lines, lineNo, matchTest);
        regions := regions + [MinitestRegion(FullLine(lineNo, lineContent), TestName(found), None)];
        seen := seen + [lineNo];
      }
      lineNo := lineNo + 1;
    }
    MatchingBeforeAll(lines, p);
  }

  lemma TestRegionsAtSnoc(lines: seq<string>, idx: seq<nat>, i: nat, matchTest: string -> TestLine)
    requires forall j :: 0 <= j < |idx| ==> idx[j] < |lines|
    requires i < |lines|
    ensures TestRegionsAt(lines, idx + [i], matchTest) == TestRegionsAt(lines, idx, matchTest) + [TestRegionAt(lines, i, matchTest)]
  {
    var a := TestRegionsAt(lines, idx + [i], matchTest);
    var b := TestRegionsAt(lines, idx, matchTest) + [TestRegionAt(lines, i, matchTest)];
    assert |a| == |b|;
    forall j | 0 <= j < |a| ensures a[j] == b[j] {
      if j < |idx| {
        assert (idx + [i])[j] == idx[j];
      }
    }
  }

  /** What `getTestRegions` promises: region `j` sits on a line the pattern matches, covers that
      whole line and is named by its title; the regions come in strictly increasing line order;
      and no matching line is missed. */
  lemma TestRegionsSpec(lines: seq<string>, matchTest: string -> TestLine)
    ensures var r := TestRegions(lines, matchTest);
            && (forall j :: 0 <= j < |r| ==>
                  && 0 <= r[j].range.startLine < |lines|
                  && matchTest(lines[r[j].range.startLine]).ATest?
                  && r[j].range == Range(r[j].range.startLine, 0, r[j].range.startLine, Utf16Length(lines[r[j].range.startLine]))
                  && r[j].name == TestName(matchTest(lines[r[j].range.startLine]))
                  && r[j].forTestLines.None?)
            && (forall j, j' :: 0 <= j < j' < |r| ==> r[j].range.startLine < r[j'].range.startLine)
            && (forall i :: 0 <= i < |lines| && matchTest(lines[i]).ATest? ==>
                  exists j :: 0 <= j < |r| && r[j].range.startLine == i)
  {
    var p := IsTestLine(matchTest);
    var idx := MatchingFrom(lines, p, 0);
    var r := TestRegions(lines, matchTest);
    forall j | 0 <= j < |r| ensures matchTest(lines[r[j].range.startLine]).ATest? {
      MatchingFromSound(lines, p, 0, j);
    }
    forall j, j' | 0 <= j < j' < |r| ensures r[j].range.startLine < r[j'].range.startLine {
      MatchingFromIncreasing(lines, p, 0, j, j');
    }
    forall i | 0 <= i < |lines| && matchTest(lines[i]).ATest?
      ensures exists j :: 0 <= j < |r| && r[j].range.startLine == i
    {
      MatchingFromComplete(lines, p, 0, i);
      var j :| 0 <= j < |idx| && idx[j] == i;
      assert r[j].range.startLine == i;
    }
  }

  // ---------------------------------------------------------------------------------------
  // Context regions and their child tests

  /** `/^(?<indent>\s*)/`: the longest prefix of whitespace. The pattern always matches, so the
      `indent == null` guard never fires. */
  function LeadingWhitespace(s: string): (r: string)
    ensures |r| <= |s|
  {
    if s != [] && IsJsWhitespace(s[0]) then [s[0]] + LeadingWhitespace(s[1..]) else []
  }

  lemma {:induction false} LeadingWhitespaceSpec(s: string)
    ensures var r := LeadingWhitespace(s);
            && StartsWith(s, r) && AllWhitespace(r)
            && (|r| == |s| || !IsJsWhitespace(s[|r|]))
  {
    if s != [] && IsJsWhitespace(s[0]) {
      LeadingWhitespaceSpec(s[1..]);
      var r := LeadingWhitespace(s[1..]);
      assert s == [s[0]] + s[1..];
      assert ([s[0]] + r)[1..] == r;
    }
  }

  /** The indentation check as written. The pattern is assembled in a template literal, where
      `\s` is not an escape and turns into a plain `s`; so it reads `^<indent>\s+[^s]` or
      `^s*$`. A line passes when it starts with the context's indent followed by a whitespace
      character and then any character other than 's', or when it consists of 's' characters
      only (the empty line included). */
  predicate IndentIsLarger(indent: string, line: string) {
    || (&& StartsWith(line, indent)
        && |line| >= |indent| + 2
        && IsJsWhitespace(line[|indent|])
        && line[|indent| + 1] != 's')
    || (forall k :: 0 <= k < |line| ==> line[k] == 's')
  }

  /** An empty line never ends the scan. */
  lemma EmptyLineContinues(indent: string)
    ensures IndentIsLarger(indent, "")
  {
  }

  /** A non-empty whitespace-only line at most one character deeper than the context ends the
      scan. */
  lemma {:induction false} ShallowBlankLineStops(indent: string, line: string)
    requires line != [] && AllWhitespace(line) && |line| <= |indent| + 1
    ensures !IndentIsLarger(indent, line)
  {
    assert IsJsWhitespace(line[0]);
    assert line[0] != 's';
  }

  /** A line with the context's own indentation, such as its `end`, ends the scan. */
  lemma {:induction false} SameIndentStops(indent: string, rest: string)
    requires AllWhitespace(indent)
    requires rest != [] && !IsJsWhitespace(rest[0]) && rest[0] != 's'
    ensures !IndentIsLarger(indent, indent + rest)
  {
    var line := indent + rest;
    assert line[|indent|] == rest[0];
    if indent == [] {
      assert line[0] == rest[0];
    } else {
      assert line[0] == indent[0];
      assert IsJsWhitespace(indent[0]);
    }
  }

  /** The index of the first line from `from` on that fails the indentation check, or the line
      count. */
  function ScanEnd(lines: seq<string>, indent: string, from: nat): (e: nat)
    requires from <= |lines|
    ensures from <= e <= |lines|
    decreases |lines| - from
  {
    if from == |lines| || !IndentIsLarger(indent, lines[from]) then from else ScanEnd(lines, indent, from + 1)
  }

  lemma {:induction false} ScanEndSpec(lines: seq<string>, indent: string, from: nat)
    requires from <= |lines|
    ensures var e := ScanEnd(lines, indent, from);
            && (forall i :: from <= i < e ==> IndentIsLarger(indent, lines[i]))
            && (e == |lines| || !IndentIsLarger(indent, lines[e]))
    decreases |lines| - from
  {
    if from < |lines| && IndentIsLarger(indent, lines[from]) {
      ScanEndSpec(lines, indent, from + 1);
    }
  }

  /** The child test lines from `from` on, up to the first line failing the indentation check. */
  function SubTestsFrom(lines: seq<string>, indent: string, from: nat, matchTest: string -> TestLine): (r: seq<nat>)
    requires from <= |lines|
    ensures forall j :: 0 <= j < |r| ==> from <= r[j] < ScanEnd(lines, indent, from)
    decreases |lines| - from
  {
    if from == |lines| || !IndentIsLarger(indent, lines[from]) then []
    else (if matchTest(lines[from]).ATest? then [from] else []) + SubTestsFrom(lines, indent, from + 1, matchTest)
  }

  /** Reference semantics of `getSubTests`. */
  function SubTests(lines: seq<string>, contextLineNo: nat, matchTest: string -> TestLine): seq<nat>
    requires contextLineNo < |lines|
  {
    SubTestsFrom(lines, LeadingWhitespace(lines[contextLineNo]), contextLineNo + 1, matchTest)
  }

  /** `getSubTests`: walks the lines after the context line while they pass the indentation
      check and collects those the test pattern matches. */
  method GetSubTests(contextLineNo: nat, textLines: seq<string>, matchTest: string -> TestLine)
    returns (regions: seq<nat>)
    requires contextLineNo < |textLines|
    ensures regions == SubTests(textLines, contextLineNo, matchTest)
  {
    var indent := LeadingWhitespace(textLines[contextLineNo]);
    regions := [];
    var i := contextLineNo + 1;
    while i < |textLines|
      invariant contextLineNo + 1 <= i <= |textLines|
      invariant regions + SubTestsFrom(textLines, indent, i, matchTest)
                == SubTestsFrom(textLines, indent, contextLineNo + 1, matchTest)
    {
      var line := textLines[i];
      if !IndentIsLarger(indent, line) {
        break;
      }
      if matchTest(line).ATest? {
        regions := regions + [i];
      }
      i := i + 1;
    }
  }

  /** Every reported child line is a test line strictly after `from` and before the end of the
      indented block. */
  lemma {:induction false} SubTestsFromSound(lines: seq<string>, indent: string, from: nat,
                                             matchTest: string -> TestLine, j: nat)
    requires from <= |lines| && j < |SubTestsFrom(lines, indent, from, matchTest)|
    ensures matchTest(lines[SubTestsFrom(lines, indent, from, matchTest)[j]]).ATest?
    decreases |lines| - from
  {
    if !matchTest(lines[from]).ATest? {
      SubTestsFromSound(lines, indent, from + 1, matchTest, j);
    } else if j > 0 {
      SubTestsFromSound(lines, indent, from + 1, matchTest, j - 1);
    }
  }

  lemma {:induction false} SubTestsFromIncreasing(lines: seq<string>, indent: string, from: nat,
                                                  matchTest: string -> TestLine, j: nat, j': nat)
    requires from <= |lines| && j < j' < |SubTestsFrom(lines, indent, from, matchTest)|
    ensures SubTestsFrom(lines, indent, from, matchTest)[j] < SubTestsFrom(lines, indent, from, matchTest)[j']
    decreases |lines| - from
  {
    var rest := SubTestsFrom(lines, indent, from + 1, matchTest);
    if !matchTest(lines[from]).ATest? {
      assert SubTestsFrom(lines, indent, from, matchTest) == rest;
      SubTestsFromIncreasing(lines, indent, from + 1, matchTest, j, j');
    } else {
      assert SubTestsFrom(lines, indent, from, matchTest) == [from] + rest;
      if j > 0 {
        SubTestsFromIncreasing(lines, indent, from + 1, matchTest, j - 1, j' - 1);
      } else {
        assert from + 1 <= rest[j' - 1];
      }
    }
  }

  lemma {:induction false} SubTestsFromComplete(lines: seq<string>, indent: string, from: nat,
                                                matchTest: string -> TestLine, i: nat)
    requires from <= |lines| && from <= i < ScanEnd(lines, indent, from) && matchTest(lines[i]).ATest?
    ensures i in SubTestsFrom(lines, indent, from, matchTest)
    decreases |lines| - from
  {
    if i > from {
      SubTestsFromComplete(lines, indent, from + 1, matchTest, i);
    }
  }

  /** What `getSubTests` promises: ascending indices, all after the context line and inside the
      block of lines passing the indentation check, exactly the test lines of that block; and
      the block ends at the first line failing the check. */
  lemma SubTestsSpec(lines: seq<string>, contextLineNo: nat, matchTest: string -> TestLine)
    requires contextLineNo < |lines|
    ensures var indent := LeadingWhitespace(lines[contextLineNo]);
            var e := ScanEnd(lines, indent, contextLineNo + 1);
            var r := SubTests(lines, contextLineNo, matchTest);
            && (forall j :: 0 <= j < |r| ==> contextLineNo < r[j] < e && matchTest(lines[r[j]]).ATest?)
            && (forall j, j' :: 0 <= j < j' < |r| ==> r[j] < r[j'])
            && (forall i :: contextLineNo < i < e && matchTest(lines[i]).ATest? ==> i in r)
            && (forall i :: contextLineNo < i < e ==> IndentIsLarger(indent, lines[i]))
            && (e == |lines| || !IndentIsLarger(indent, lines[e]))
  {
    var indent := LeadingWhitespace(lines[contextLineNo]);
    var from := contextLineNo + 1;
    var r := SubTests(lines, contextLineNo, matchTest);
    ScanEndSpec(lines, indent, from);
    forall j | 0 <= j < |r| ensures matchTest(lines[r[j]]).ATest? {
      SubTestsFromSound(lines, indent, from, matchTest, j);
    }
    forall j, j' | 0 <= j < j' < |r| ensures r[j] < r[j'] {
      SubTestsFromIncreasing(lines, indent, from, matchTest, j, j');
    }
    forall i | contextLineNo < i < ScanEnd(lines, indent, from) && matchTest(lines[i]).ATest? ensures i in r {
      SubTestsFromComplete(lines, indent, from, matchTest, i);
    }
  }

  /** The region pushed for a context line, once `forTestLines` has been filled in. */
  function ContextRegionAt(lines: seq<string>, i: nat, matchContext: string -> ContextLine,
                           matchTest: string -> TestLine): MinitestRegion
    requires i < |lines|
  {
    MinitestRegion(FullLine(i, lines[i]), ContextName(matchContext(lines[i])), Some(SubTests(lines, i, matchTest)))
  }

  /** Reference semantics of `getContextRegions` on the document's lines. */
  function ContextRegions(lines: seq<string>, matchContext: string -> ContextLine, matchTest: string -> TestLine)
    : (r: seq<MinitestRegion>)
    ensures var idx := MatchingFrom(lines, IsContextLine(matchContext), 0);
            && |r| == |idx|
            && forall j :: 0 <= j < |r| ==> r[j] == ContextRegionAt(lines, idx[j], matchContext, matchTest)
  {
    var idx := MatchingFrom(lines, IsContextLine(matchContext), 0);
    seq(|idx|, j requires 0 <= j < |idx| => ContextRegionAt(lines, idx[j], matchContext, matchTest))
  }

  /** What `getContextRegions` promises: region `j` sits on a line the context pattern matches,
      covers it, is named by its class or context name, and lists that context's child tests;
      the regions are in strictly increasing line order and no context line is missed. */
  lemma ContextRegionsSpec(lines: seq<string>, matchContext: string -> ContextLine, matchTest: string -> TestLine)
    ensures var r := ContextRegions(lines, matchContext, matchTest);
            && (forall j :: 0 <= j < |r| ==>
                  && 0 <= r[j].range.startLine < |lines|
                  && matchContext(lines[r[j].range.startLine]).AContext?
                  && r[j].range == FullLine(r[j].range.startLine, lines[r[j].range.startLine])
                  && r[j].name == ContextName(matchContext(lines[r[j].range.startLine]))
                  && r[j].forTestLines == Some(SubTests(lines, r[j].range.startLine, matchTest)))
            && (forall j, j' :: 0 <= j < j' < |r| ==> r[j].range.startLine < r[j'].range.startLine)
            && (forall i :: 0 <= i < |lines| && matchContext(lines[i]).AContext? ==>
                  exists j :: 0 <= j < |r| && r[j].range.startLine == i)
  {
    var p := IsContextLine(matchContext);
    var idx := MatchingFrom(lines, p, 0);
    var r := ContextRegions(lines, matchContext, matchTest);
    forall j | 0 <= j < |r| ensures matchContext(lines[r[j].range.startLine]).AContext? {
      MatchingFromSound(lines, p, 0, j);
    }
    forall j, j' | 0 <= j < j' < |r| ensures r[j].range.startLine < r[j'].range.startLine {
      MatchingFromIncreasing(lines, p, 0, j, j');
    }
    forall i | 0 <= i < |lines| && matchContext(lines[i]).AContext?
      ensures exists j :: 0 <= j < |r| && r[j].range.startLine == i
    {
      MatchingFromComplete(lines, p, 0, i);
      var j :| 0 <= j < |idx| && idx[j] == i;
      assert r[j].range.startLine == i;
    }
  }

  /** The first pass of `getContextRegions`: one region per context line, `forTestLines` not
      yet set. */
  method PushContextRegions(lines: seq<string>, matchContext: string -> ContextLine, ghost matchTest: string -> TestLine)
    returns (regions: seq<MinitestRegion>)
    ensures var idx := MatchingFrom(lines, IsContextLine(matchContext), 0);
            && |regions| == |idx|
            && forall j :: 0 <= j < |idx| ==>
                 regions[j] == ContextRegionAt(lines, idx[j], matchContext, matchTest).(forTestLines := None)
  {
    var p := IsContextLine(matchContext);
    regions := [];
    ghost var seen: seq<nat> := [];
    var lineNo := 0;
    while lineNo < |lines|
      invariant 0 <= lineNo <= |lines|
      invariant seen == MatchingBefore(lines, p, lineNo)
      invariant |regions| == |seen|
      invariant forall j :: 0 <= j < |seen| ==>
                  && seen[j] < |lines|
                  && regions[j] == ContextRegionAt(lines, seen[j], matchContext, matchTest).(forTestLines := None)
    {
      var lineContent := lines[lineNo];
      var found := matchContext(lineContent);
      assert p(lineContent) == found.AContext?;
      if found.AContext? {
        regions := regions + [MinitestRegion(FullLine(lineNo, lineContent), ContextName(found), None)];
        seen := seen + [lineNo];
      }
      lineNo := lineNo + 1;
    }
    MatchingBeforeAll(lines, p);
  }

  /** `getContextRegions`: one region per context line, then a second pass giving each region
      its child test lines. */
  method GetContextRegions(text: string, matchContext: string -> ContextLine, matchTest: string -> TestLine)
    returns (regions: seq<MinitestRegion>)
    ensures regions == ContextRegions(Split(text, '\n'), matchContext, matchTest)
    ensures forall j :: 0 <= j < |regions| ==> regions[j].forTestLines.Some?
  {
    var lines := Split(text, '\n');
    ghost var idx := MatchingFrom(lines, IsContextLine(matchContext), 0);
    regions := PushContextRegions(lines, matchContext, matchTest);
    var k := 0;
    while k < |regions|
      invariant 0 <= k <= |regions| == |idx|
      invariant forall j :: 0 <= j < k ==> regions[j] == ContextRegionAt(lines, idx[j], matchContext, matchTest)
      invariant forall j :: k <= j < |regions| ==>
                  regions[j] == ContextRegionAt(lines, idx[j], matchContext, matchTest).(forTestLines := None)
    {
      var forTestLines := GetSubTests(regions[k].range.startLine, lines, matchTest);
      regions := regions[k := regions[k].(forTestLines := Some(forTestLines))];
      k := k + 1;
    }
  }
}
