/** Reading the line number out of a Ruby backtrace entry such as
    `test/models/user_test.rb:12:in 'block in <class:UserTest>'`, the way both interpreters do:
    find the first entry that names the file, then apply `/:(\d+):in/` to it. */
module Backtrace {
  import opened Strings
  import opened Types

  /** The length of the run of decimal digits that starts at `from`. */
  function DigitRun(s: string, from: nat): (k: nat)
    requires from <= |s|
    ensures from + k <= |s|
    ensures forall i :: from <= i < from + k ==> IsDigit(s[i])
    ensures from + k == |s| || !IsDigit(s[from + k])
    decreases |s| - from
  {
    if from < |s| && IsDigit(s[from]) then 1 + DigitRun(s, from + 1) else 0
  }

  /** A run of digits that is followed by a non-digit (or the end) is measured exactly. */
  lemma {:induction false} DigitRunOf(s: string, from: nat, k: nat)
    requires from + k <= |s|
    requires forall i :: from <= i < from + k ==> IsDigit(s[i])
    requires from + k == |s| || !IsDigit(s[from + k])
    ensures DigitRun(s, from) == k
    decreases k
  {
    if k > 0 {
      DigitRunOf(s, from + 1, k - 1);
    }
  }

  /** `/:(\d+):in/` matches at position `q`: a colon, digits, then `:in`. Because `:` is not a
      digit, the digits are the whole run that follows the colon. */
  predicate LineRefAt(s: string, q: nat) {
    q < |s| && s[q] == ':' && DigitRun(s, q + 1) >= 1 && StartsWith(s[q + 1 + DigitRun(s, q + 1)..], ":in")
  }

  /** `parseInt` of the digits captured at a match position. */
  function RefValue(s: string, q: nat): nat
    requires LineRefAt(s, q)
  {
    var k := DigitRun(s, q + 1);
    assert AllDigits(s[q + 1..q + 1 + k]);
    ParseDigits(s[q + 1..q + 1 + k])
  }

  /** The leftmost match position at or after `from`. */
  function FirstLineRef(s: string, from: nat): (r: Option<nat>)
    requires from <= |s|
    ensures r.Some? ==> from <= r.value < |s| && LineRefAt(s, r.value)
    decreases |s| - from
  {
    if from == |s| then None else if LineRefAt(s, from) then Some(from) else FirstLineRef(s, from + 1)
  }

  /** `FirstLineRef` finds the leftmost match: every match position at or after `from` is at
      or after what it reports, so it reports none only when there is none. */
  lemma {:induction false} FirstLineRefLeftmost(s: string, from: nat, q: nat)
    requires from <= q < |s| && LineRefAt(s, q)
    ensures FirstLineRef(s, from).Some? && FirstLineRef(s, from).value <= q
    decreases q - from
  {
    if from < q && !LineRefAt(s, from) {
      FirstLineRefLeftmost(s, from + 1, q);
    }
  }

  /** `entry.match(/:(\d+):in/)` followed by `parseInt` of the group. */
  function LineNumberIn(entry: string): Option<nat> {
    var q := FirstLineRef(entry, 0);
    if q.Some? then Some(RefValue(entry, q.value)) else None
  }

  /** The characters the regular-expression `.` does not match. */
  predicate IsLineTerminator(c: char) {
    c == '\n' || c == '\r' || c == '\U{2028}' || c == '\U{2029}'
  }

  predicate NoTerminatorBefore(s: string, p: nat)
    requires p <= |s|
  {
    forall i :: 0 <= i < p ==> !IsLineTerminator(s[i])
  }

  /** `new RegExp('^.*' + path + ':\\d+:in').test(entry)`, with `path` read literally. */
  predicate MentionsFileLine(entry: string, path: string) {
    exists p :: 0 <= p <= |entry| - |path| && OccursAt(entry, path, p) && NoTerminatorBefore(entry, p)
                && LineRefAt(entry, p + |path|)
  }

  /** `new RegExp('^' + path + ':\\d+:in').test(entry)`, with `path` read literally. */
  predicate StartsWithFileLine(entry: string, path: string) {
    StartsWith(entry, path) && LineRefAt(entry, |path|)
  }

  /** An entry that names the file always yields a line number, so the source's non-null
      assertion on the match holds. */
  lemma MentionedEntryHasLine(entry: string, path: string)
    requires MentionsFileLine(entry, path) || StartsWithFileLine(entry, path)
    ensures LineNumberIn(entry).Some?
  {
    if StartsWithFileLine(entry, path) {
      FirstLineRefLeftmost(entry, 0, |path|);
    } else {
      var p :| 0 <= p <= |entry| - |path| && OccursAt(entry, path, p) && NoTerminatorBefore(entry, p)
               && LineRefAt(entry, p + |path|);
      FirstLineRefLeftmost(entry, 0, p + |path|);
    }
  }

  /** When the path itself holds no colon, the number read from an entry that starts with the
      path is the one right after it. */
  lemma AnchoredLineNumber(entry: string, path: string)
    requires StartsWithFileLine(entry, path)
    requires ':' !in path
    ensures LineNumberIn(entry) == Some(RefValue(entry, |path|))
  {
    FirstLineRefLeftmost(entry, 0, |path|);
    forall q | 0 <= q < |path| ensures entry[q] != ':' {
      assert entry[q] == path[q];
    }
  }

  /** `entries.findIndex(p)` from position `from` on. */
  function FindFrom(entries: seq<string>, p: string -> bool, from: nat): (r: Option<nat>)
    requires from <= |entries|
    ensures r.Some? ==> from <= r.value < |entries| && p(entries[r.value])
    decreases |entries| - from
  {
    if from == |entries| then None else if p(entries[from]) then Some(from) else FindFrom(entries, p, from + 1)
  }

  /** `FindFrom` stops at the first entry satisfying `p`, and fails only when none does. */
  lemma {:induction false} FindFromSpec(entries: seq<string>, p: string -> bool, from: nat)
    requires from <= |entries|
    ensures FindFrom(entries, p, from).Some? ==>
              forall i :: from <= i < FindFrom(entries, p, from).value ==> !p(entries[i])
    ensures FindFrom(entries, p, from).None? <==> forall i :: from <= i < |entries| ==> !p(entries[i])
    decreases |entries| - from
  {
    if from < |entries| && !p(entries[from]) {
      FindFromSpec(entries, p, from + 1);
    }
  }

  /** The line number of the first entry satisfying `p`, when there is one. */
  function FrameLine(entries: seq<string>, p: string -> bool): Option<nat> {
    var i := FindFrom(entries, p, 0);
    if i.Some? then LineNumberIn(entries[i.value]) else None
  }

  function Mentions(path: string): string -> bool {
    entry => MentionsFileLine(entry, path)
  }

  function StartsWithFile(path: string): string -> bool {
    entry => StartsWithFileLine(entry, path)
  }

  /** A frame line is found exactly when some entry names the file, and then it is read from
      the first such entry. */
  lemma FrameLineSpec(entries: seq<string>, path: string, anchored: bool)
    ensures var p := if anchored then StartsWithFile(path) else Mentions(path);
            && (FrameLine(entries, p).Some? <==> exists i :: 0 <= i < |entries| && p(entries[i]))
            && (FrameLine(entries, p).Some? ==>
                  exists i :: 0 <= i < |entries| && p(entries[i]) && LineNumberIn(entries[i]) == FrameLine(entries, p)
                              && forall i' :: 0 <= i' < i ==> !p(entries[i']))
  {
    var p := if anchored then StartsWithFile(path) else Mentions(path);
    FindFromSpec(entries, p, 0);
    var i := FindFrom(entries, p, 0);
    if i.Some? {
      MentionedEntryHasLine(entries[i.value], path);
    }
  }
}
