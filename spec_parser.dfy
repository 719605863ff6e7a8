/** src/rspec/SpecParser.ts and its predecessor src/SpecParser.ts: the code-lens regions of a
    spec file. The two files differ only in their pattern, which is a parameter here: a
    classifier of one line reporting whether the pattern matched and what its `title` group
    captured. */
module SpecParser {
  import opened Strings
  import opened Types
  import opened LineScan

  /** What the spec pattern reports for one line: no match, or a match whose `title` group (the
      text between the quotes of `it '…'`, `context "…"` and the like) is absent for forms such
      as `describe Const` or a one-line `it { … }`. */
  datatype SpecLine = NotASpec | ASpec(title: Option<string>)

  /** `SpecRegion` */
  datatype SpecRegion = SpecRegion(range: Range, name: Option<string>)

  function IsSpecLine(matchSpec: string -> SpecLine): string -> bool {
    line => matchSpec(line).ASpec?
  }

  /** `name: match.groups?.title`: the group as captured, the empty title included. */
  function SpecName(m: SpecLine): (r: Option<string>)
    ensures m.ASpec? ==> r == m.title
    ensures m.NotASpec? ==> r.None?
  {
    if m.ASpec? then m.title else None
  }

  /** The region pushed for a matching line. */
  function SpecRegionAt(lines: seq<string>, i: nat, matchSpec: string -> SpecLine): SpecRegion
    requires i < |lines|
  {
    SpecRegion(FullLine(i, lines[i]), SpecName(matchSpec(lines[i])))
  }

  /** The regions for the listed line numbers, in that order. */
  function SpecRegionsAt(lines: seq<string>, idx: seq<nat>, matchSpec: string -> SpecLine): (r: seq<SpecRegion>)
    requires forall j :: 0 <= j < |idx| ==> idx[j] < |lines|
    ensures |r| == |idx|
    ensures forall j :: 0 <= j < |idx| ==> r[j] == SpecRegionAt(lines, idx[j], matchSpec)
  {
    seq(|idx|, j requires 0 <= j < |idx| => SpecRegionAt(lines, idx[j], matchSpec))
  }

  /** Reference semantics of `getSpecRegions` on the document's lines. */
  function SpecRegions(lines: seq<string>, matchSpec: string -> SpecLine): seq<SpecRegion> {
    SpecRegionsAt(lines, MatchingFrom(lines, IsSpecLine(matchSpec), 0), matchSpec)
  }

  lemma SpecRegionsAtSnoc(lines: seq<string>, idx: seq<nat>, i: nat, matchSpec: string -> SpecLine)
    requires forall j :: 0 <= j < |idx| ==> idx[j] < |lines|
    requires i < |lines|
    ensures SpecRegionsAt(lines, idx + [i], matchSpec) == SpecRegionsAt(lines, idx, matchSpec) + [SpecRegionAt(lines, i, matchSpec)]
  {
    var a := SpecRegionsAt(lines, idx + [i], matchSpec);
    var b := SpecRegionsAt(lines, idx, matchSpec) + [SpecRegionAt(lines, i, matchSpec)];
    assert |a| == |b|;
    forall j | 0 <= j < |a| ensures a[j] == b[j] {
      if j < |idx| {
        assert (idx + [i])[j] == idx[j];
      }
    }
  }

  /** `getSpecRegions`: one region per line the pattern matches; other lines are skipped. */
  method GetSpecRegions(text: string, matchSpec: string -> SpecLine) returns (regions: seq<SpecRegion>)
    ensures regions == SpecRegions(Split(text, '\n'), matchSpec)
  {
    var lines := Split(text, '\n');
    var p := IsSpecLine(matchSpec);
    regions := [];
    ghost var seen: seq<nat> := [];
    var lineNo := 0;
    while lineNo < |lines|
      invariant 0 <= lineNo <= |lines|
      invariant seen == MatchingBefore(lines, p, lineNo)
      invariant regions == SpecRegionsAt(lines, seen, matchSpec)
    {
      var lineContent := lines[lineNo];
      var found := matchSpec(lineContent);
      assert p(lineContent) == found.ASpec?;
      if found.ASpec? {
        SpecRegionsAtSnoc(lines, seen, lineNo, matchSpec);
        regions := regions + [SpecRegion(FullLine(lineNo, lineContent), found.title)];
        seen := seen + [lineNo];
      }
      lineNo := lineNo + 1;
    }
    MatchingBeforeAll(lines, p);
  }

  /** What `getSpecRegions` promises: region `j` sits on a matching line, covers it from column
      0 to its length in UTF-16 code units and carries the captured title; regions are in strictly increasing line
      order; every matching line has one. */
  lemma SpecRegionsSpec(lines: seq<string>, matchSpec: string -> SpecLine)
    ensures var r := SpecRegions(lines, matchSpec);
            && (forall j :: 0 <= j < |r| ==>
                  && 0 <= r[j].range.startLine < |lines|
                  && matchSpec(lines[r[j].range.startLine]).ASpec?
                  && r[j].range == Range(r[j].range.startLine, 0, r[j].range.startLine, Utf16Length(lines[r[j].range.startLine]))
                  && r[j].name == matchSpec(lines[r[j].range.startLine]).title)
            && (forall j, j' :: 0 <= j < j' < |r| ==> r[j].range.startLine < r[j'].range.startLine)
            && (forall i :: 0 <= i < |lines| && matchSpec(lines[i]).ASpec? ==>
                  exists j :: 0 <= j < |r| && r[j].range.startLine == i)
  {
    var p := IsSpecLine(matchSpec);
    var idx := MatchingFrom(lines, p, 0);
    var r := SpecRegions(lines, matchSpec);
    forall j | 0 <= j < |r| ensures matchSpec(lines[r[j].range.startLine]).ASpec? {
      MatchingFromSound(lines, p, 0, j);
    }
    forall j, j' | 0 <= j < j' < |r| ensures r[j].range.startLine < r[j'].range.startLine {
      MatchingFromIncreasing(lines, p, 0, j, j');
    }
    forall i | 0 <= i < |lines| && matchSpec(lines[i]).ASpec?
      ensures exists j :: 0 <= j < |r| && r[j].range.startLine == i
    {
      MatchingFromComplete(lines, p, 0, i);
      var j :| 0 <= j < |idx| && idx[j] == i;
      assert r[j].range.startLine == i;
    }
  }
}
