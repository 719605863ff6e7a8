/** The line scan every region parser performs: split the document text on '\n', test each line
    with the parser's pattern, and keep the matching line numbers in order. */
module LineScan {
  import opened Strings
  import opened Types

  /** The 0-based numbers of the lines from `from` on that satisfy `p`, in document order. */
  function MatchingFrom(lines: seq<string>, p: string -> bool, from: nat): (r: seq<nat>)
    requires from <= |lines|
    ensures forall j :: 0 <= j < |r| ==> from <= r[j] < |lines|
    decreases |lines| - from
  {
    if from == |lines| then []
    else (if p(lines[from]) then [from] else []) + MatchingFrom(lines, p, from + 1)
  }

  /** Every line the scan reports satisfies `p`. */
  lemma {:induction false} MatchingFromSound(lines: seq<string>, p: string -> bool, from: nat, j: nat)
    requires from <= |lines| && j < |MatchingFrom(lines, p, from)|
    ensures p(lines[MatchingFrom(lines, p, from)[j]])
    decreases |lines| - from
  {
    if !p(lines[from]) {
      MatchingFromSound(lines, p, from + 1, j);
    } else if j > 0 {
      MatchingFromSound(lines, p, from + 1, j - 1);
    }
  }

  /** The scan reports line numbers in strictly increasing order. */
  lemma {:induction false} MatchingFromIncreasing(lines: seq<string>, p: string -> bool, from: nat, j: nat, j': nat)
    requires from <= |lines| && j < j' < |MatchingFrom(lines, p, from)|
    ensures MatchingFrom(lines, p, from)[j] < MatchingFrom(lines, p, from)[j']
    decreases |lines| - from
  {
    if !p(lines[from]) {
      MatchingFromIncreasing(lines, p, from + 1, j, j');
    } else if j > 0 {
      MatchingFromIncreasing(lines, p, from + 1, j - 1, j' - 1);
    }
  }

  /** Every line from `from` on that satisfies `p` is reported. */
  lemma {:induction false} MatchingFromComplete(lines: seq<string>, p: string -> bool, from: nat, i: nat)
    requires from <= i < |lines| && p(lines[i])
    ensures i in MatchingFrom(lines, p, from)
    decreases |lines| - from
  {
    if i > from {
      MatchingFromComplete(lines, p, from + 1, i);
    }
  }

  /** The numbers of the lines before `n` that satisfy `p`, in document order: what a scan has
      reported once it has looked at `n` lines. */
  function MatchingBefore(lines: seq<string>, p: string -> bool, n: nat): (r: seq<nat>)
    requires n <= |lines|
    ensures forall j :: 0 <= j < |r| ==> r[j] < n
  {
    if n == 0 then []
    else MatchingBefore(lines, p, n - 1) + (if p(lines[n - 1]) then [n - 1] else [])
  }

  /** What the scan has reported before `n` and what it reports from `n` on make up the whole
      scan; so a finished scan has reported `MatchingFrom(lines, p, 0)`. */
  lemma {:induction false} MatchingSplit(lines: seq<string>, p: string -> bool, n: nat)
    requires n <= |lines|
    ensures MatchingBefore(lines, p, n) + MatchingFrom(lines, p, n) == MatchingFrom(lines, p, 0)
  {
    if n > 0 {
      MatchingSplit(lines, p, n - 1);
      var head := if p(lines[n - 1]) then [n - 1] else [];
      assert MatchingFrom(lines, p, n - 1) == head + MatchingFrom(lines, p, n);
      assert MatchingBefore(lines, p, n) + MatchingFrom(lines, p, n)
          == MatchingBefore(lines, p, n - 1) + (head + MatchingFrom(lines, p, n));
    }
  }

  /** A finished scan has reported every matching line. */
  lemma MatchingBeforeAll(lines: seq<string>, p: string -> bool)
    ensures MatchingBefore(lines, p, |lines|) == MatchingFrom(lines, p, 0)
  {
    MatchingSplit(lines, p, |lines|);
    assert MatchingFrom(lines, p, |lines|) == [];
  }

  /** A region covering a whole line: column 0 to `lineContent.length`, the line's length in
      UTF-16 code units. */
  function FullLine(lineNo: nat, text: string): (r: Range)
    ensures r.startLine == r.endLine == lineNo && r.startCol == 0 && r.endCol == Utf16Length(text)
  {
    Range(lineNo, 0, lineNo, Utf16Length(text))
  }

  /** `a || b` on two optional strings: `a` when it is present and non-empty, otherwise `b`
      as it is, the empty string and `undefined` included. */
  function FirstTruthy(a: Option<string>, b: Option<string>): (r: Option<string>)
    ensures a.Some? && a.value != "" ==> r == a
    ensures !(a.Some? && a.value != "") ==> r == b
  {
    if a.Some? && a.value != "" then a else b
  }
}
