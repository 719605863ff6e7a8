/** src/SpecResultPresenter.ts: the result store, its content-anchored reconciliation against
    the active document, and the choice of which result lands in which decoration category.
    The editor is reduced to the active document's file name and lines; decoration handles,
    hover texts and `setDecorations` calls are left to the host. */
module Presenter {
  import opened Strings
  import opened Types

  // ---------------------------------------------------------------------------------------
  // Anchors

  /** `line.trim().startsWith(content.trim())` */
  predicate LineMatches(line: string, anchor: string) {
    StartsWith(Trim(line), Trim(anchor))
  }

  /** Line `i` (0-based) of the document matches the anchor. */
  predicate MatchesAt(doc: Document, anchor: string, i: nat)
    requires i < |doc|
  {
    LineMatches(doc[i], anchor)
  }

  /** `lines.findIndex(line => line.trim().startsWith(anchor.trim()))`, searching from `from`
      (`FirstMatchFromSpec` says it finds the smallest matching index). */
  function FirstMatchFrom(doc: Document, anchor: string, from: nat): (r: Option<nat>)
    requires from <= |doc|
    ensures r.Some? ==> from <= r.value < |doc|
    decreases |doc| - from
  {
    if from == |doc| then None
    else if MatchesAt(doc, anchor, from) then Some(from)
    else FirstMatchFrom(doc, anchor, from + 1)
  }

  lemma {:induction false} FirstMatchFromSpec(doc: Document, anchor: string, from: nat)
    requires from <= |doc|
    ensures var r := FirstMatchFrom(doc, anchor, from);
            && (r.Some? ==> MatchesAt(doc, anchor, r.value)
                            && forall i :: from <= i < r.value ==> !MatchesAt(doc, anchor, i))
            && (r.None? ==> forall i :: from <= i < |doc| ==> !MatchesAt(doc, anchor, i))
    decreases |doc| - from
  {
    if from < |doc| && !MatchesAt(doc, anchor, from) {
      FirstMatchFromSpec(doc, anchor, from + 1);
    }
  }

  /** The 0-based index of the first line matching the anchor, if any. */
  function FirstMatchingLine(doc: Document, anchor: string): (r: Option<nat>)
    ensures r.Some? ==> r.value < |doc|
  {
    FirstMatchFrom(doc, anchor, 0)
  }

  /** `findIndex` finds the first matching line, and finds nothing only when no line matches. */
  lemma FirstMatchingLineSpec(doc: Document, anchor: string)
    ensures var r := FirstMatchingLine(doc, anchor);
            && (r.Some? ==> MatchesAt(doc, anchor, r.value)
                            && forall i :: 0 <= i < r.value ==> !MatchesAt(doc, anchor, i))
            && (r.None? ==> forall i :: 0 <= i < |doc| ==> !MatchesAt(doc, anchor, i))
  {
    FirstMatchFromSpec(doc, anchor, 0);
  }

  /** A stored result has drifted when the text now at its line no longer starts with its
      anchor. */
  predicate Drifted(r: LineResult, doc: Document, unknown: string) {
    !StartsWith(ContentAtLine(Some(doc), r.line, unknown), r.content)
  }

  /** The key a drifted result is re-inserted under: one past the first matching line. */
  function TargetKey(r: LineResult, doc: Document): Option<string> {
    match FirstMatchingLine(doc, r.content)
    case Some(i) => Some(NatToString(i + 1))
    case None => None
  }

  /** A relocated result: every field kept except `line`, which becomes the first matching
      line's 1-based number. The anchor `content` is not rewritten. */
  function Moved(r: LineResult, doc: Document): LineResult
    requires FirstMatchingLine(doc, r.content).Some?
  {
    r.(line := FirstMatchingLine(doc, r.content).value + 1)
  }

  // ---------------------------------------------------------------------------------------
  // Reference semantics of syncTestResults

  /** `keys` lists each key of `m` exactly once: the host's property enumeration order. */
  ghost predicate IsEnumeration(keys: seq<string>, m: map<string, LineResult>) {
    && (forall i, j :: 0 <= i < j < |keys| ==> keys[i] != keys[j])
    && (forall k :: k in m <==> k in keys)
  }

  /** Phase one: the drifted results, in enumeration order. */
  function DriftedIn(results: map<string, LineResult>, order: seq<string>, doc: Document, unknown: string)
    : seq<LineResult>
  {
    if order == [] then []
    else
      var k := order[|order| - 1];
      DriftedIn(results, order[..|order| - 1], doc, unknown)
        + (if k in results && Drifted(results[k], doc, unknown) then [results[k]] else [])
  }

  /** The results that are still anchored. */
  function Kept(results: map<string, LineResult>, doc: Document, unknown: string): map<string, LineResult> {
    map k | k in results && !Drifted(results[k], doc, unknown) :: results[k]
  }

  /** `syncTestResult` on a map: re-insert under the target key, or drop. */
  function Place(m: map<string, LineResult>, r: LineResult, doc: Document): map<string, LineResult> {
    if TargetKey(r, doc).Some? then m[TargetKey(r, doc).value := Moved(r, doc)] else m
  }

  /** Phase two: the drifted results placed one after the other. */
  function Reinsert(m: map<string, LineResult>, s: seq<LineResult>, doc: Document): map<string, LineResult> {
    if s == [] then m else Place(Reinsert(m, s[..|s| - 1], doc), s[|s| - 1], doc)
  }

  /** The active file's results after `syncTestResults`. */
  function Synced(results: map<string, LineResult>, order: seq<string>, doc: Document, unknown: string)
    : map<string, LineResult>
  {
    Reinsert(Kept(results, doc, unknown), DriftedIn(results, order, doc, unknown), doc)
  }

  /** Every drifted result listed by the enumeration is among the staged ones. */
  lemma {:induction false} DriftedInComplete(results: map<string, LineResult>, order: seq<string>, doc: Document,
                                             unknown: string, k: string)
    requires k in order && k in results && Drifted(results[k], doc, unknown)
    ensures results[k] in DriftedIn(results, order, doc, unknown)
  {
    var last := order[|order| - 1];
    if last != k {
      assert k in order[..|order| - 1] by {
        var i :| 0 <= i < |order| && order[i] == k;
        assert i < |order| - 1;
        assert order[..|order| - 1][i] == k;
      }
      DriftedInComplete(results, order[..|order| - 1], doc, unknown, k);
    }
  }

  /** Every staged result is a drifted result of the file. */
  lemma {:induction false} DriftedInSound(results: map<string, LineResult>, order: seq<string>, doc: Document,
                                          unknown: string, r: LineResult)
    requires r in DriftedIn(results, order, doc, unknown)
    ensures exists k :: k in order && k in results && results[k] == r && Drifted(r, doc, unknown)
  {
    var init := order[..|order| - 1];
    var k := order[|order| - 1];
    if r in DriftedIn(results, init, doc, unknown) {
      DriftedInSound(results, init, doc, unknown, r);
      var k' :| k' in init && k' in results && results[k'] == r && Drifted(r, doc, unknown);
      assert k' in order;
    } else {
      assert k in order;
    }
  }

  /** The keys after re-insertion: the kept ones and every staged result's target. */
  lemma {:induction false} ReinsertKeys(m: map<string, LineResult>, s: seq<LineResult>, doc: Document, k: string)
    ensures k in Reinsert(m, s, doc) <==> (k in m || exists j :: 0 <= j < |s| && TargetKey(s[j], doc) == Some(k))
  {
    if s != [] {
      var init := s[..|s| - 1];
      ReinsertKeys(m, init, doc, k);
      assert forall j :: 0 <= j < |init| ==> init[j] == s[j];
      if TargetKey(s[|s| - 1], doc) != Some(k) {
        assert forall j :: 0 <= j < |s| && TargetKey(s[j], doc) == Some(k) ==> TargetKey(init[j], doc) == Some(k);
      }
    }
  }

  /** A key no staged result moves to keeps its entry. */
  lemma {:induction false} ReinsertUntargeted(m: map<string, LineResult>, s: seq<LineResult>, doc: Document,
                                              k: string)
    requires k in m
    requires forall j :: 0 <= j < |s| ==> TargetKey(s[j], doc) != Some(k)
    ensures k in Reinsert(m, s, doc) && Reinsert(m, s, doc)[k] == m[k]
  {
    if s != [] {
      var init := s[..|s| - 1];
      assert forall j :: 0 <= j < |init| ==> init[j] == s[j];
      ReinsertUntargeted(m, init, doc, k);
    }
  }

  /** A key some staged results move to holds the LAST of them, with its line rewritten. */
  lemma {:induction false} ReinsertLastWins(m: map<string, LineResult>, s: seq<LineResult>, doc: Document, j: nat)
    requires j < |s| && TargetKey(s[j], doc).Some?
    requires forall j' :: j < j' < |s| ==> TargetKey(s[j'], doc) != TargetKey(s[j], doc)
    ensures TargetKey(s[j], doc).value in Reinsert(m, s, doc)
    ensures Reinsert(m, s, doc)[TargetKey(s[j], doc).value] == Moved(s[j], doc)
  {
    if j < |s| - 1 {
      var init := s[..|s| - 1];
      assert forall i :: 0 <= i < |init| ==> init[i] == s[i];
      ReinsertLastWins(m, init, doc, j);
    }
  }

  /** A result that is still anchored keeps its key and every field, unless a drifted result
      is moved onto that same key. */
  lemma SyncKeepsAnchored(results: map<string, LineResult>, order: seq<string>, doc: Document, unknown: string,
                          k: string)
    requires k in results && !Drifted(results[k], doc, unknown)
    requires forall r :: r in DriftedIn(results, order, doc, unknown) ==> TargetKey(r, doc) != Some(k)
    ensures k in Synced(results, order, doc, unknown) && Synced(results, order, doc, unknown)[k] == results[k]
  {
    var s := DriftedIn(results, order, doc, unknown);
    forall j | 0 <= j < |s| ensures TargetKey(s[j], doc) != Some(k) {
      assert s[j] in s;
    }
    ReinsertUntargeted(Kept(results, doc, unknown), s, doc, k);
  }

  /** A drifted result with no matching line leaves no entry under its old key, unless some
      other drifted result is moved there; and an anchored result never appears under a key
      it was not stored under. */
  lemma SyncKeys(results: map<string, LineResult>, order: seq<string>, doc: Document, unknown: string, k: string)
    requires IsEnumeration(order, results)
    ensures k in Synced(results, order, doc, unknown)
            <==> (k in results && !Drifted(results[k], doc, unknown))
                 || exists k' :: k' in results && Drifted(results[k'], doc, unknown) && TargetKey(results[k'], doc) == Some(k)
  {
    var s := DriftedIn(results, order, doc, unknown);
    var kept := Kept(results, doc, unknown);
    ReinsertKeys(kept, s, doc, k);
    if k in Synced(results, order, doc, unknown) && k !in kept {
      var j :| 0 <= j < |s| && TargetKey(s[j], doc) == Some(k);
      DriftedInSound(results, order, doc, unknown, s[j]);
    }
    if exists k' :: k' in results && Drifted(results[k'], doc, unknown) && TargetKey(results[k'], doc) == Some(k) {
      var k' :| k' in results && Drifted(results[k'], doc, unknown) && TargetKey(results[k'], doc) == Some(k);
      assert k' in order;
      DriftedInComplete(results, order, doc, unknown, k');
      var j :| 0 <= j < |s| && s[j] == results[k'];
      assert TargetKey(s[j], doc) == Some(k);
    }
  }

  /** A drifted result that matches some line is found under one past the FIRST matching line,
      with that line number, unless a later drifted result is moved onto the same key. */
  lemma SyncMovesToFirstMatch(results: map<string, LineResult>, order: seq<string>, doc: Document, unknown: string,
                              j: nat)
    requires j < |DriftedIn(results, order, doc, unknown)|
    requires FirstMatchingLine(doc, DriftedIn(results, order, doc, unknown)[j].content).Some?
    requires var s := DriftedIn(results, order, doc, unknown);
             forall j' :: j < j' < |s| ==> TargetKey(s[j'], doc) != TargetKey(s[j], doc)
    ensures var s := DriftedIn(results, order, doc, unknown);
            var i := FirstMatchingLine(doc, s[j].content).value;
            && NatToString(i + 1) in Synced(results, order, doc, unknown)
            && Synced(results, order, doc, unknown)[NatToString(i + 1)] == s[j].(line := i + 1)
            && MatchesAt(doc, s[j].content, i)
            && (forall i' :: 0 <= i' < i ==> !MatchesAt(doc, s[j].content, i'))
  {
    var s := DriftedIn(results, order, doc, unknown);
    ReinsertLastWins(Kept(results, doc, unknown), s, doc, j);
    FirstMatchingLineSpec(doc, s[j].content);
  }

  /** A result stored under `k` is settled when a sync leaves it where it is: it is still
      anchored, or it already sits under one past the first line matching its anchor, with that
      line number. A result that was re-indented is of the second kind: the drift check compares
      untrimmed text, so it is found to have drifted again on every pass, and is moved onto
      itself. */
  predicate Settled(k: string, r: LineResult, doc: Document, unknown: string) {
    || !Drifted(r, doc, unknown)
    || (&& FirstMatchingLine(doc, r.content).Some?
        && k == NatToString(FirstMatchingLine(doc, r.content).value + 1)
        && r.line == FirstMatchingLine(doc, r.content).value + 1)
  }

  /** A moved result is settled under its target key. */
  lemma MovedSettles(r: LineResult, doc: Document, unknown: string)
    requires TargetKey(r, doc).Some?
    ensures Settled(TargetKey(r, doc).value, Moved(r, doc), doc, unknown)
  {
    assert Moved(r, doc).content == r.content;
  }

  /** Every result of the map is settled under its key. */
  predicate AllSettled(m: map<string, LineResult>, doc: Document, unknown: string) {
    forall k :: k in m ==> Settled(k, m[k], doc, unknown)
  }

  /** Re-insertion leaves only settled results behind. */
  lemma {:induction false} ReinsertSettles(m: map<string, LineResult>, s: seq<LineResult>, doc: Document,
                                           unknown: string)
    requires AllSettled(m, doc, unknown)
    ensures AllSettled(Reinsert(m, s, doc), doc, unknown)
  {
    if s != [] {
      var last := s[|s| - 1];
      ReinsertSettles(m, s[..|s| - 1], doc, unknown);
      if TargetKey(last, doc).Some? {
        MovedSettles(last, doc, unknown);
      }
    }
  }

  /** Every result a sync leaves is settled. */
  lemma SyncedSettles(results: map<string, LineResult>, order: seq<string>, doc: Document, unknown: string)
    ensures AllSettled(Synced(results, order, doc, unknown), doc, unknown)
  {
    var kept := Kept(results, doc, unknown);
    assert AllSettled(kept, doc, unknown);
    ReinsertSettles(kept, DriftedIn(results, order, doc, unknown), doc, unknown);
  }

  /** Re-inserting results that each already sit under their own target key, in a map `all`,
      only writes entries of `all`. */
  lemma {:induction false} ReinsertWithin(m: map<string, LineResult>, s: seq<LineResult>, doc: Document,
                                          all: map<string, LineResult>)
    requires forall k :: k in m ==> k in all && m[k] == all[k]
    requires forall j :: 0 <= j < |s| ==>
               && TargetKey(s[j], doc).Some? && TargetKey(s[j], doc).value in all
               && all[TargetKey(s[j], doc).value] == s[j] && Moved(s[j], doc) == s[j]
    ensures var m' := Reinsert(m, s, doc);
            forall k :: k in m' ==> k in all && m'[k] == all[k]
  {
    if s != [] {
      var init := s[..|s| - 1];
      assert forall j :: 0 <= j < |init| ==> init[j] == s[j];
      ReinsertWithin(m, init, doc, all);
    }
  }

  /** In a map of settled results, every staged result already sits under its own target key
      with its target line. */
  lemma StagedSitAtTarget(results: map<string, LineResult>, order: seq<string>, doc: Document, unknown: string,
                          r: LineResult)
    requires AllSettled(results, doc, unknown)
    requires r in DriftedIn(results, order, doc, unknown)
    ensures && TargetKey(r, doc).Some? && TargetKey(r, doc).value in results
            && results[TargetKey(r, doc).value] == r && Moved(r, doc) == r
  {
    DriftedInSound(results, order, doc, unknown, r);
    var k :| k in order && k in results && results[k] == r && Drifted(r, doc, unknown);
    assert Settled(k, results[k], doc, unknown);
  }

  /** A sync leaves a map of settled results as it is. */
  lemma SyncedOfSettled(results: map<string, LineResult>, order: seq<string>, doc: Document, unknown: string)
    requires IsEnumeration(order, results)
    requires AllSettled(results, doc, unknown)
    ensures Synced(results, order, doc, unknown) == results
  {
    var kept := Kept(results, doc, unknown);
    var s := DriftedIn(results, order, doc, unknown);
    var m := Synced(results, order, doc, unknown);
    forall j | 0 <= j < |s|
      ensures && TargetKey(s[j], doc).Some? && TargetKey(s[j], doc).value in results
              && results[TargetKey(s[j], doc).value] == s[j] && Moved(s[j], doc) == s[j]
    {
      assert s[j] in s;
      StagedSitAtTarget(results, order, doc, unknown, s[j]);
    }
    assert forall k :: k in kept ==> k in results && kept[k] == results[k];
    ReinsertWithin(kept, s, doc, results);
    assert m == Reinsert(kept, s, doc);
    forall k | k in results ensures k in m {
      SyncedKeepsKey(results, order, doc, unknown, k);
    }
    assert m.Keys == results.Keys;
  }

  /** In a map of settled results, every key survives a sync. */
  lemma SyncedKeepsKey(results: map<string, LineResult>, order: seq<string>, doc: Document, unknown: string,
                       k: string)
    requires IsEnumeration(order, results)
    requires k in results && Settled(k, results[k], doc, unknown)
    ensures k in Synced(results, order, doc, unknown)
  {
    SyncKeys(results, order, doc, unknown, k);
  }

  /** Syncing an unchanged document a second time changes nothing, whatever order the second
      pass enumerates the results in. */
  lemma SyncedIdempotent(results: map<string, LineResult>, order: seq<string>, order': seq<string>,
                         doc: Document, unknown: string)
    requires IsEnumeration(order', Synced(results, order, doc, unknown))
    ensures Synced(Synced(results, order, doc, unknown), order', doc, unknown) == Synced(results, order, doc, unknown)
  {
    SyncedSettles(results, order, doc, unknown);
    SyncedOfSettled(Synced(results, order, doc, unknown), order', doc, unknown);
  }

  // ---------------------------------------------------------------------------------------
  // Reference semantics of syncTestResultExceptions

  /** The filter in front of the exception sync: a failed result whose exception has a
      (non-zero) line and a non-empty anchor. */
  predicate ExceptionSyncable(r: LineResult) {
    && r.status == Failed
    && r.exception.Some?
    && Truthy(r.exception.value.line)
    && r.exception.value.content.Some?
    && r.exception.value.content.value != ""
  }

  /** One result after `syncTestResultException`. */
  function SyncException(r: LineResult, doc: Document, unknown: string): (r': LineResult)
    ensures r'.(exception := r.exception) == r
    ensures r'.exception.Some? == r.exception.Some?
    ensures r.exception.Some? ==> r'.exception.value.message == r.exception.value.message
                                  && r'.exception.value.exType == r.exception.value.exType
    ensures !ExceptionSyncable(r) ==> r' == r
    ensures ExceptionSyncable(r) ==>
              var e := r.exception.value;
              if StartsWith(ContentAtLine(Some(doc), e.line.value, unknown), e.content.value) then r' == r
              else match FirstMatchingLine(doc, e.content.value)
                   case Some(i) => r'.exception.value == e.(line := Some(i + 1))
                   case None => r'.exception.value.line.None? && r'.exception.value.content.None?
  {
    if !ExceptionSyncable(r) then r
    else
      var e := r.exception.value;
      if StartsWith(ContentAtLine(Some(doc), e.line.value, unknown), e.content.value) then r
      else match FirstMatchingLine(doc, e.content.value)
        case Some(i) => r.(exception := Some(e.(line := Some(i + 1))))
        case None => r.(exception := Some(e.(line := None, content := None)))
  }

  function SyncedExceptions(results: map<string, LineResult>, doc: Document, unknown: string)
    : (m: map<string, LineResult>)
    ensures m.Keys == results.Keys
  {
    map k | k in results :: SyncException(results[k], doc, unknown)
  }

  /** Syncing one exception a second time changes nothing: a moved exception sits on the first
      matching line already, and one that lost its line is no longer synced. */
  lemma SyncExceptionIdempotent(r: LineResult, doc: Document, unknown: string)
    ensures SyncException(SyncException(r, doc, unknown), doc, unknown) == SyncException(r, doc, unknown)
  {
    var r' := SyncException(r, doc, unknown);
    if ExceptionSyncable(r) && ExceptionSyncable(r') && r' != r {
      var e := r.exception.value;
      var i := FirstMatchingLine(doc, e.content.value).value;
      assert r'.exception.value == e.(line := Some(i + 1));
    }
  }

  /** Syncing the exceptions of an unchanged document a second time changes nothing. */
  lemma SyncedExceptionsIdempotent(results: map<string, LineResult>, doc: Document, unknown: string)
    ensures SyncedExceptions(SyncedExceptions(results, doc, unknown), doc, unknown)
            == SyncedExceptions(results, doc, unknown)
  {
    var once := SyncedExceptions(results, doc, unknown);
    forall k | k in once ensures SyncedExceptions(once, doc, unknown)[k] == once[k] {
      SyncExceptionIdempotent(results[k], doc, unknown);
    }
  }

  /** The exception sync touches neither a result's line nor its anchor, so it keeps results
      settled. */
  lemma SyncedExceptionsSettled(results: map<string, LineResult>, doc: Document, unknown: string)
    requires AllSettled(results, doc, unknown)
    ensures AllSettled(SyncedExceptions(results, doc, unknown), doc, unknown)
  {
    var m := SyncedExceptions(results, doc, unknown);
    forall k | k in m ensures Settled(k, m[k], doc, unknown) {
      assert m[k].line == results[k].line && m[k].content == results[k].content;
      assert Settled(k, results[k], doc, unknown);
    }
  }

  // ---------------------------------------------------------------------------------------
  // Decorations

  /** The nine decoration categories `update` sets, each keyed by result key. */
  datatype Decorations = Decorations(
    passed: map<string, Range>,
    pending: map<string, Range>,
    runPending: map<string, Range>,
    failed: map<string, Range>,
    failedLine: map<string, Range>,
    stalePassed: map<string, Range>,
    stalePending: map<string, Range>,
    staleFailed: map<string, Range>,
    staleFailedLine: map<string, Range>)

  /** The filter of `getDecorations`. */
  predicate GutterSelected(fr: FileResults, r: LineResult, forPendingTestRun: bool, state: Option<Status>,
                           forCurrentTestRun: Option<bool>) {
    && forPendingTestRun == fr.testRunPending
    && (state.Some? ==> r.status == state.value)
    && (forCurrentTestRun.Some? ==>
          if forCurrentTestRun.value then r.testRun == fr.testRun else r.testRun != fr.testRun)
  }

  /** `getDecorations`: one range per selected result, on its (0-based) line, as wide as its
      anchor in UTF-16 code units. */
  function GutterDecorations(fr: FileResults, forPendingTestRun: bool, state: Option<Status>,
                             forCurrentTestRun: Option<bool>): map<string, Range> {
    map k | k in fr.results && GutterSelected(fr, fr.results[k], forPendingTestRun, state, forCurrentTestRun)
      :: Range(fr.results[k].line - 1, 0, fr.results[k].line - 1, Utf16Length(fr.results[k].content))
  }

  /** The filter of `getFailedLineDecorations`. */
  predicate FailedLineSelected(fr: FileResults, r: LineResult, stale: bool) {
    && !fr.testRunPending
    && r.status == Failed
    && r.exception.Some?
    && Truthy(r.exception.value.line)
    && (if stale then r.testRun != fr.testRun else r.testRun == fr.testRun)
  }

  /** The width of a failed-line highlight: the exception anchor's length in UTF-16 code units,
      or 1000 without one (`content?.length || 1000`). */
  function HighlightWidth(e: TestException): nat {
    if e.content.Some? && e.content.value != "" then Utf16Length(e.content.value) else 1000
  }

  /** `getFailedLineDecorations`: one range per selected result, on its exception's line. */
  function FailedLineDecorations(fr: FileResults, stale: bool): map<string, Range> {
    map k | k in fr.results && FailedLineSelected(fr, fr.results[k], stale)
      :: Range(fr.results[k].exception.value.line.value - 1, 0, fr.results[k].exception.value.line.value - 1,
               HighlightWidth(fr.results[k].exception.value))
  }

  /** What `update` shows for one file. Stale categories are computed only when the stale
      option is on; otherwise they are cleared. */
  function DecorationsFor(fr: FileResults, showStale: bool): (d: Decorations)
    // A pending run suppresses every status marker and marks every stored result.
    ensures fr.testRunPending ==>
              && d.passed == map[] && d.pending == map[] && d.failed == map[] && d.failedLine == map[]
              && d.stalePassed == map[] && d.stalePending == map[] && d.staleFailed == map[]
              && d.staleFailedLine == map[]
              && d.runPending.Keys == fr.results.Keys
    ensures !fr.testRunPending ==> d.runPending == map[]
    ensures !showStale ==> d.stalePassed == map[] && d.stalePending == map[] && d.staleFailed == map[]
                           && d.staleFailedLine == map[]
    // Otherwise a result lands in its status's current category iff it belongs to the file's
    // current run, and in the stale one iff it does not.
    ensures !fr.testRunPending ==> forall k :: k in fr.results ==>
              var r := fr.results[k];
              && (k in d.passed <==> r.status == Passed && r.testRun == fr.testRun)
              && (k in d.pending <==> r.status == Pending && r.testRun == fr.testRun)
              && (k in d.failed <==> r.status == Failed && r.testRun == fr.testRun)
              && (k in d.stalePassed <==> showStale && r.status == Passed && r.testRun != fr.testRun)
              && (k in d.stalePending <==> showStale && r.status == Pending && r.testRun != fr.testRun)
              && (k in d.staleFailed <==> showStale && r.status == Failed && r.testRun != fr.testRun)
    ensures d.passed.Keys + d.pending.Keys + d.failed.Keys + d.runPending.Keys <= fr.results.Keys
    // Gutter marks sit on the result's own line, converted to 0-based.
    ensures forall k :: k in d.passed ==> d.passed[k].startLine == fr.results[k].line - 1
    ensures forall k :: k in d.failed ==> d.failed[k].startLine == fr.results[k].line - 1
    ensures forall k :: k in d.failedLine ==>
              && k in fr.results && FailedLineSelected(fr, fr.results[k], false)
              && d.failedLine[k].startLine == fr.results[k].exception.value.line.value - 1
  {
    Decorations(
      GutterDecorations(fr, false, Some(Passed), Some(true)),
      GutterDecorations(fr, false, Some(Pending), Some(true)),
      GutterDecorations(fr, true, None, None),
      GutterDecorations(fr, false, Some(Failed), Some(true)),
      FailedLineDecorations(fr, false),
      if showStale then GutterDecorations(fr, false, Some(Passed), Some(false)) else map[],
      if showStale then GutterDecorations(fr, false, Some(Pending), Some(false)) else map[],
      if showStale then GutterDecorations(fr, false, Some(Failed), Some(false)) else map[],
      if showStale then FailedLineDecorations(fr, true) else map[])
  }

  /** The failed-line highlights: every failed current-run result with an exception line gets
      one, and only those; with stale display on, every failed older-run one gets a stale
      highlight, and only those. Each sits on the exception's (0-based) line. */
  lemma FailedLineCategories(fr: FileResults, showStale: bool)
    ensures var d := DecorationsFor(fr, showStale);
            && (forall k :: k in d.failedLine <==> k in fr.results && FailedLineSelected(fr, fr.results[k], false))
            && (showStale ==>
                  forall k :: k in d.staleFailedLine <==> k in fr.results && FailedLineSelected(fr, fr.results[k], true))
            && (forall k :: k in d.staleFailedLine ==>
                  && k in fr.results && FailedLineSelected(fr, fr.results[k], true)
                  && d.staleFailedLine[k].startLine == fr.results[k].exception.value.line.value - 1)
  {
  }

  /** Every gutter mark, current, pending or stale, sits on its result's own line, converted to
      0-based. */
  lemma GutterLines(fr: FileResults, showStale: bool)
    ensures var d := DecorationsFor(fr, showStale);
            && (forall k :: k in d.pending ==> k in fr.results && d.pending[k].startLine == fr.results[k].line - 1)
            && (forall k :: k in d.runPending ==> k in fr.results && d.runPending[k].startLine == fr.results[k].line - 1)
            && (forall k :: k in d.stalePassed ==> k in fr.results && d.stalePassed[k].startLine == fr.results[k].line - 1)
            && (forall k :: k in d.stalePending ==> k in fr.results && d.stalePending[k].startLine == fr.results[k].line - 1)
            && (forall k :: k in d.staleFailed ==> k in fr.results && d.staleFailed[k].startLine == fr.results[k].line - 1)
  {
  }

  /** A gutter mark spans its result's anchor, measured in UTF-16 code units as vscode columns
      are; a failed-line highlight spans the exception's anchor, or 1000 columns without one. */
  lemma DecorationWidths(fr: FileResults, showStale: bool)
    ensures var d := DecorationsFor(fr, showStale);
            && (forall k :: k in d.passed ==> k in fr.results && d.passed[k].endCol == Utf16Length(fr.results[k].content))
            && (forall k :: k in d.failed ==> k in fr.results && d.failed[k].endCol == Utf16Length(fr.results[k].content))
            && (forall k :: k in d.runPending ==>
                  k in fr.results && d.runPending[k].endCol == Utf16Length(fr.results[k].content))
            && (forall k :: k in d.failedLine ==>
                  && k in fr.results && fr.results[k].exception.Some?
                  && var e := fr.results[k].exception.value;
                     d.failedLine[k].endCol == if e.content.Some? && e.content.value != "" then Utf16Length(e.content.value)
                                               else ContentWidth)
  {
  }

  /** The two configuration switches per framework that `update` consults. */
  datatype PresenterConfig = PresenterConfig(
    rspecDecorate: bool,
    rspecDecorateStale: bool,
    minitestDecorate: bool,
    minitestDecorateStale: bool)

  /** The active editor: the document's file name and lines. */
  datatype Editor = Editor(fileName: string, doc: Document)

  predicate IsSpecFile(fileName: string) {
    EndsWith(fileName, "_spec.rb")
  }

  predicate IsMinitestFile(fileName: string) {
    EndsWith(fileName, "_test.rb")
  }

  /** The guard of `update`: decorations are drawn only for a stored spec or test file whose
      framework has decoration switched on. */
  predicate Decorates(store: TestResults, editor: Option<Editor>, cfg: PresenterConfig) {
    && editor.Some?
    && editor.value.fileName in store
    && (IsSpecFile(editor.value.fileName) || IsMinitestFile(editor.value.fileName))
    && (IsSpecFile(editor.value.fileName) ==> cfg.rspecDecorate)
    && (IsMinitestFile(editor.value.fileName) ==> cfg.minitestDecorate)
  }

  predicate ShowsStale(fileName: string, cfg: PresenterConfig) {
    (IsSpecFile(fileName) && cfg.rspecDecorateStale) || (IsMinitestFile(fileName) && cfg.minitestDecorateStale)
  }

  // ---------------------------------------------------------------------------------------
  // The store

  /** The run record of an existing file after a new partial result set for it arrives:
      run id and pending flag overwritten, line results upserted. */
  function MergeRun(stored: FileResults, incoming: FileResults): (m: FileResults)
    ensures m.testRun == incoming.testRun && m.testRunPending == incoming.testRunPending
    ensures m.results.Keys == stored.results.Keys + incoming.results.Keys
    ensures forall k :: k in incoming.results ==> m.results[k] == incoming.results[k]
    ensures forall k :: k in stored.results && k !in incoming.results ==> m.results[k] == stored.results[k]
  {
    FileResults(incoming.testRun, incoming.testRunPending, stored.results + incoming.results)
  }

  /** The entry `setTestResults` leaves for an incoming file: the incoming one when the file is
      new, else the merge of the incoming run into the stored entry. */
  function Placed(stored: TestResults, incoming: TestResults, f: string): FileResults
    requires f in incoming
  {
    if f in stored then MergeRun(stored[f], incoming[f]) else incoming[f]
  }

  /** `Object.entries(entries).forEach(([k, v]) => into[k] = v)` */
  method Upsert(into: map<string, LineResult>, entries: map<string, LineResult>) returns (r: map<string, LineResult>)
    ensures r.Keys == into.Keys + entries.Keys
    ensures forall k :: k in entries ==> r[k] == entries[k]
    ensures forall k :: k in into && k !in entries ==> r[k] == into[k]
  {
    r := into;
    var todo := entries.Keys;
    while todo != {}
      invariant todo <= entries.Keys
      invariant r.Keys == into.Keys + (entries.Keys - todo)
      invariant forall k :: k in entries && k !in todo ==> r[k] == entries[k]
      invariant forall k :: k in into && k in todo ==> r[k] == into[k]
      invariant forall k :: k in into && k !in entries ==> r[k] == into[k]
      decreases todo
    {
      var k :| k in todo;
      r := r[k := entries[k]];
      todo := todo - {k};
    }
  }

  /** The results left after phase one has looked at the keys `seen`. */
  function KeptAmong(snapshot: map<string, LineResult>, seen: seq<string>, doc: Document, unknown: string)
    : map<string, LineResult>
  {
    map k | k in snapshot && !(k in seen && Drifted(snapshot[k], doc, unknown)) :: snapshot[k]
  }

  lemma KeptAmongStep(snapshot: map<string, LineResult>, seen: seq<string>, id: string, doc: Document,
                      unknown: string)
    requires id in snapshot
    ensures KeptAmong(snapshot, seen + [id], doc, unknown)
            == if Drifted(snapshot[id], doc, unknown) then KeptAmong(snapshot, seen, doc, unknown) - {id}
               else KeptAmong(snapshot, seen, doc, unknown)
  {
    assert forall k :: k in seen + [id] <==> k in seen || k == id;
  }

  lemma KeptAmongAll(snapshot: map<string, LineResult>, order: seq<string>, doc: Document, unknown: string)
    requires IsEnumeration(order, snapshot)
    ensures KeptAmong(snapshot, order, doc, unknown) == Kept(snapshot, doc, unknown)
  {
  }

  /** One step of phase one: visiting the next key stages its result and deletes it exactly
      when it drifted. */
  lemma StageStep(snapshot: map<string, LineResult>, order: seq<string>, i: nat, doc: Document, unknown: string)
    requires IsEnumeration(order, snapshot) && i < |order|
    ensures order[i] in snapshot
    ensures var id := order[i];
            && DriftedIn(snapshot, order[..i + 1], doc, unknown)
               == DriftedIn(snapshot, order[..i], doc, unknown)
                  + (if Drifted(snapshot[id], doc, unknown) then [snapshot[id]] else [])
            && KeptAmong(snapshot, order[..i + 1], doc, unknown)
               == if Drifted(snapshot[id], doc, unknown) then KeptAmong(snapshot, order[..i], doc, unknown) - {id}
                  else KeptAmong(snapshot, order[..i], doc, unknown)
  {
    var id := order[i];
    assert order[..i + 1] == order[..i] + [id];
    assert order[..i + 1][..i] == order[..i];
    KeptAmongStep(snapshot, order[..i], id, doc, unknown);
  }

  /** Phase one of `syncTestResults`: walks the results in enumeration order, deleting each
      drifted one and staging it for re-insertion. */
  method StageDrifted(snapshot: map<string, LineResult>, order: seq<string>, doc: Document, unknown: string)
    returns (results: map<string, LineResult>, linesToSync: seq<LineResult>)
    requires IsEnumeration(order, snapshot)
    ensures results == Kept(snapshot, doc, unknown)
    ensures linesToSync == DriftedIn(snapshot, order, doc, unknown)
  {
    results := snapshot;
    linesToSync := [];
    var i := 0;
    assert KeptAmong(snapshot, order[..0], doc, unknown) == snapshot;
    while i < |order|
      invariant 0 <= i <= |order|
      invariant linesToSync == DriftedIn(snapshot, order[..i], doc, unknown)
      invariant results == KeptAmong(snapshot, order[..i], doc, unknown)
    {
      var id := order[i];
      StageStep(snapshot, order, i, doc, unknown);
      var result := snapshot[id];
      if Drifted(result, doc, unknown) {
        linesToSync := linesToSync + [result];
        results := results - {id};
      }
      i := i + 1;
    }
    assert order[..|order|] == order;
    KeptAmongAll(snapshot, order, doc, unknown);
  }

  /** Phase two of `syncTestResults`: each staged result in turn is written under the key of the
      first line matching its anchor, with that line number; one with no match is dropped. */
  method ReinsertStaged(kept: map<string, LineResult>, linesToSync: seq<LineResult>, doc: Document)
    returns (results: map<string, LineResult>)
    ensures results == Reinsert(kept, linesToSync, doc)
  {
    results := kept;
    var j := 0;
    while j < |linesToSync|
      invariant 0 <= j <= |linesToSync|
      invariant results == Reinsert(kept, linesToSync[..j], doc)
    {
      assert linesToSync[..j + 1][..j] == linesToSync[..j];
      var result := linesToSync[j];
      var foundAtLine := FirstMatchingLine(doc, result.content);
      if foundAtLine.Some? {
        results := results[NatToString(foundAtLine.value + 1) := result.(line := foundAtLine.value + 1)];
      }
      j := j + 1;
    }
    assert linesToSync[..|linesToSync|] == linesToSync;
  }

  /** Both phases of `syncTestResults` over one file's results. */
  method SyncResultsIn(snapshot: map<string, LineResult>, order: seq<string>, doc: Document, unknown: string)
    returns (results: map<string, LineResult>)
    requires IsEnumeration(order, snapshot)
    ensures results == Synced(snapshot, order, doc, unknown)
  {
    var kept, linesToSync := StageDrifted(snapshot, order, doc, unknown);
    results := ReinsertStaged(kept, linesToSync, doc);
  }

  /** The loop of `syncTestResultExceptions` over one file's results. */
  method SyncExceptionsIn(snapshot: map<string, LineResult>, doc: Document, unknown: string)
    returns (results: map<string, LineResult>)
    ensures results == SyncedExceptions(snapshot, doc, unknown)
  {
    results := snapshot;
    var todo := snapshot.Keys;
    while todo != {}
      invariant todo <= snapshot.Keys
      invariant results.Keys == snapshot.Keys
      invariant forall k :: k in todo ==> results[k] == snapshot[k]
      invariant forall k :: k in snapshot && k !in todo ==> results[k] == SyncException(snapshot[k], doc, unknown)
      decreases todo
    {
      var id :| id in todo;
      var result := snapshot[id];
      if ExceptionSyncable(result) {
        var e := result.exception.value;
        if !StartsWith(ContentAtLine(Some(doc), e.line.value, unknown), e.content.value) {
          var foundAtLine := FirstMatchingLine(doc, e.content.value);
          if foundAtLine.Some? {
            results := results[id := result.(exception := Some(e.(line := Some(foundAtLine.value + 1))))];
          } else {
            results := results[id := result.(exception := Some(e.(line := None, content := None)))];
          }
        }
      }
      todo := todo - {id};
    }
    assert forall k :: k in results ==> results[k] == SyncedExceptions(snapshot, doc, unknown)[k];
  }

  class ResultStore {
    /** `_testResults`: file path to that file's results. */
    var testResults: TestResults

    constructor ()
      ensures testResults == map[]
    {
      testResults := map[];
    }

    /** `setTestResults`: a file not yet stored is inserted wholesale; a stored one gets the
        new run id and pending flag, and the incoming line results upserted into its own,
        so lines the new run did not report stay (now stale). Other files are untouched. */
    method SetTestResults(incoming: TestResults)
      modifies this
      ensures testResults.Keys == old(testResults).Keys + incoming.Keys
      ensures forall f :: f in incoming ==> testResults[f] == Placed(old(testResults), incoming, f)
      ensures forall f :: f in old(testResults) && f !in incoming ==> testResults[f] == old(testResults)[f]
    {
      var stored := testResults;
      var m := testResults;
      var todo := incoming.Keys;
      while todo != {}
        invariant todo <= incoming.Keys
        invariant m.Keys == stored.Keys + (incoming.Keys - todo)
        invariant forall f :: f in incoming && f !in todo ==> m[f] == Placed(stored, incoming, f)
        invariant forall f :: f in stored && (f !in incoming || f in todo) ==> m[f] == stored[f]
        decreases todo
      {
        var f :| f in todo;
        if f !in m {
          m := m[f := incoming[f]];
        } else {
          var merged := Upsert(m[f].results, incoming[f].results);
          assert merged == MergeRun(stored[f], incoming[f]).results;
          m := m[f := FileResults(incoming[f].testRun, incoming[f].testRunPending, merged)];
        }
        todo := todo - {f};
      }
      testResults := m;
    }

    /** `clearTestResults`: deletes exactly the active file's entry; without an active
        document nothing changes. */
    method ClearTestResults(activeFile: Option<string>)
      modifies this
      ensures activeFile.None? ==> testResults == old(testResults)
      ensures activeFile.Some? ==> testResults == old(testResults) - {activeFile.value}
    {
      if activeFile.Some? {
        testResults := testResults - {activeFile.value};
      }
    }

    /** `setPending`: marks a run as awaited for a file that already has results; leaves an
        unknown file alone and never touches line results. */
    method SetPending(testFile: string)
      modifies this
      ensures testFile in old(testResults) ==>
                testResults == old(testResults)[testFile := old(testResults)[testFile].(testRunPending := true)]
      ensures testFile !in old(testResults) ==> testResults == old(testResults)
    {
      if testFile in testResults {
        testResults := testResults[testFile := testResults[testFile].(testRunPending := true)];
      }
    }

    /** `syncTestResults`: phase one removes every drifted result of the active file and stages
        it, in enumeration order `order`; phase two moves each staged result to the first line
        matching its anchor, or drops it. Only the active file's entry changes. */
    method SyncTestResults(fileName: string, doc: Document, unknown: string, order: seq<string>)
      requires fileName in testResults ==> IsEnumeration(order, testResults[fileName].results)
      modifies this
      ensures fileName !in old(testResults) ==> testResults == old(testResults)
      ensures fileName in old(testResults) ==>
                testResults == old(testResults)[fileName := old(testResults)[fileName].(
                  results := Synced(old(testResults)[fileName].results, order, doc, unknown))]
    {
      if fileName !in testResults {
        return;
      }
      var fr := testResults[fileName];
      var results := SyncResultsIn(fr.results, order, doc, unknown);
      testResults := testResults[fileName := fr.(results := results)];
    }

    /** `syncTestResultExceptions`: for every failed result of the active file whose exception
        anchor drifted, move the exception line to the first matching line, or drop the
        exception's line and anchor while keeping the result. */
    method SyncTestResultExceptions(fileName: string, doc: Document, unknown: string)
      modifies this
      ensures fileName !in old(testResults) ==> testResults == old(testResults)
      ensures fileName in old(testResults) ==>
                testResults == old(testResults)[fileName := old(testResults)[fileName].(
                  results := SyncedExceptions(old(testResults)[fileName].results, doc, unknown))]
    {
      if fileName !in testResults {
        return;
      }
      var fr := testResults[fileName];
      var results := SyncExceptionsIn(fr.results, doc, unknown);
      testResults := testResults[fileName := fr.(results := results)];
    }

    /** `update`: when the guard holds, reconciles the active file's results and then the
        exception anchors, and returns the decorations drawn from the reconciled entry; when it
        fails nothing changes and nothing is drawn. */
    method Update(editor: Option<Editor>, cfg: PresenterConfig, unknown: string, order: seq<string>)
      returns (d: Option<Decorations>)
      requires editor.Some? && editor.value.fileName in testResults ==>
                 IsEnumeration(order, testResults[editor.value.fileName].results)
      modifies this
      ensures !Decorates(old(testResults), editor, cfg) ==> testResults == old(testResults) && d.None?
      ensures Decorates(old(testResults), editor, cfg) ==>
                var f := editor.value.fileName;
                var synced := Reconciled(old(testResults)[f], order, editor.value.doc, unknown);
                && testResults == old(testResults)[f := synced]
                && d == Some(DecorationsFor(synced, ShowsStale(f, cfg)))
    {
      if !Decorates(testResults, editor, cfg) {
        return None;
      }
      var f := editor.value.fileName;
      var doc := editor.value.doc;
      // `syncTestResults` and then `syncTestResultExceptions` on the active file's entry.
      var fr := testResults[f];
      var results := SyncResultsIn(fr.results, order, doc, unknown);
      results := SyncExceptionsIn(results, doc, unknown);
      var synced := fr.(results := results);
      testResults := testResults[f := synced];
      d := Some(DecorationsFor(synced, ShowsStale(f, cfg)));
    }
  }

  /** The active file's entry after `update` has reconciled its results and then the
      exception anchors of the reconciled results. */
  function Reconciled(fr: FileResults, order: seq<string>, doc: Document, unknown: string): FileResults
  {
    fr.(results := SyncedExceptions(Synced(fr.results, order, doc, unknown), doc, unknown))
  }

  /** Reconciling the active file against an unchanged document a second time changes nothing:
      `update` may run on every edit event without moving results further. */
  lemma ReconciledIdempotent(fr: FileResults, order: seq<string>, order': seq<string>, doc: Document,
                             unknown: string)
    requires IsEnumeration(order', Reconciled(fr, order, doc, unknown).results)
    ensures Reconciled(Reconciled(fr, order, doc, unknown), order', doc, unknown) == Reconciled(fr, order, doc, unknown)
  {
    var synced := Synced(fr.results, order, doc, unknown);
    var once := SyncedExceptions(synced, doc, unknown);
    SyncedSettles(fr.results, order, doc, unknown);
    SyncedExceptionsSettled(synced, doc, unknown);
    SyncedOfSettled(once, order', doc, unknown);
    SyncedExceptionsIdempotent(synced, doc, unknown);
  }

  /** Merging a new partial result set for a file that is awaiting a run clears the pending
      flag and shows the new statuses as current, while untouched lines become stale. */
  lemma PendingThenResolved(stored: FileResults, incoming: FileResults, k: string)
    requires stored.testRunPending && !incoming.testRunPending
    requires incoming.testRun != stored.testRun
    requires forall k' :: k' in stored.results ==> stored.results[k'].testRun == stored.testRun
    requires forall k' :: k' in incoming.results ==> incoming.results[k'].testRun == incoming.testRun
    requires k in stored.results && k !in incoming.results && stored.results[k].status == Passed
    ensures var d := DecorationsFor(MergeRun(stored, incoming), true);
            && d.runPending == map[]
            && k !in d.passed && k in d.stalePassed
            && forall k' :: k' in incoming.results && incoming.results[k'].status == Passed ==> k' in d.passed
  {
  }
}
