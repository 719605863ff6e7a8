/** src/rspec/SpecResultInterpreter.ts and its predecessor src/SpecResultInterpreter.ts: turning
    the examples of an RSpec JSON report into per-file, per-line results. The two versions
    differ only in how a relative file path is resolved when no workspace root is known: the
    newer one searches the workspace for the file, the older one gives up. */
module RspecInterpreter {
  import opened Strings
  import opened Types
  import opened Backtrace

  /** `RspecException`: `exClass` is the `class` field. */
  datatype RspecException = RspecException(exClass: string, message: string, backtrace: seq<string>)

  /** The fields of an RSpec example the interpreters read. */
  datatype RspecExample = RspecExample(
    filePath: string,
    lineNumber: nat,
    id: string,
    status: Status,
    exception: Option<RspecException>)

  /** What `JSON.parse` and `isRspecOutput` make of the report file. */
  datatype Payload = Unparsable | NotRspecOutput | RspecPayload(examples: seq<RspecExample>)

  /** Everything one run of the interpreter reads besides the examples:
      - `openDocuments`: the open text documents by file name;
      - `projectPath`: the configured or workspace root, `None` when reading it throws
        `NoWorkspaceError`;
      - `findFiles`: the workspace search of the newer version, returning the first hit's path,
        or `None` for the older version, which has no such fallback;
      - `testRun`: `Date.now().toString()` at the start of the run;
      - `unknown`: the value `contentAtLine` falls back to. */
  datatype RspecRun = RspecRun(
    openDocuments: map<string, Document>,
    projectPath: Option<string>,
    findFiles: Option<string -> Option<string>>,
    testRun: string,
    unknown: string)

  /** `replace(/^\.[\/\\]/, '')`: the glob the newer version searches for. */
  function SearchPattern(path: string): (r: string)
    ensures r == path || ("./" + r == path) || (".\\" + r == path)
    ensures StartsWith(path, "./") || StartsWith(path, ".\\") ==> |r| == |path| - 2
  {
    if |path| >= 2 && path[0] == '.' && (path[1] == '/' || path[1] == '\\') then
      assert path == path[..2] + path[2..];
      path[2..]
    else path
  }

  /** `testFilePath`. `None` stands for the error it lets escape. */
  function TestFilePath(path: string, projectPath: Option<string>, findFiles: Option<string -> Option<string>>)
    : Option<string>
  {
    if !StartsWith(path, ".") then Some(path)
    else if projectPath.Some? then Some(projectPath.value + path[1..])
    else if findFiles.Some? then findFiles.value(SearchPattern(path))
    else None
  }

  /** A path not starting with `.` is already absolute; a relative one gets the project root
      in place of its leading dot; failing that, the newer version takes the search's answer
      and the older one fails. */
  lemma TestFilePathSpec(path: string, projectPath: Option<string>, findFiles: Option<string -> Option<string>>)
    ensures var r := TestFilePath(path, projectPath, findFiles);
            && (!StartsWith(path, ".") ==> r == Some(path))
            && (StartsWith(path, ".") && projectPath.Some? ==>
                  r.Some? && StartsWith(r.value, projectPath.value) && |r.value| == |projectPath.value| + |path| - 1
                  && r.value[|projectPath.value|..] == path[1..])
            && (r.None? <==> StartsWith(path, ".") && projectPath.None?
                             && (findFiles.None? || findFiles.value(SearchPattern(path)).None?))
  {
    if StartsWith(path, ".") && projectPath.Some? {
      var r := projectPath.value + path[1..];
      assert r[..|projectPath.value|] == projectPath.value;
      assert r[|projectPath.value|..] == path[1..];
    }
  }

  /** `exceptionContent`: the exception's class and message; when the document is open and a
      backtrace entry starts with its file name followed by `:<line>:in`, also the line read from
      the first such entry and that line's text. */
  function ExceptionContent(exception: Option<RspecException>, fileName: string, file: Option<Document>,
                            unknown: string): (r: Option<TestException>)
    ensures r.None? <==> exception.None?
    ensures r.Some? ==> r.value.message == exception.value.message && r.value.exType == Some(exception.value.exClass)
    ensures r.Some? ==> (r.value.content.Some? <==> r.value.line.Some?)
    ensures r.Some? && r.value.line.Some? ==> r.value.content == Some(ContentAtLine(file, r.value.line.value, unknown))
  {
    if exception.None? then None
    else
      var e := exception.value;
      var base := TestException(e.message, Some(e.exClass), None, None);
      if file.None? then Some(base)
      else
        var line := FrameLine(e.backtrace, StartsWithFile(fileName));
        if line.None? then Some(base)
        else Some(base.(line := line, content := Some(ContentAtLine(file, line.value, unknown))))
  }

  /** The exception has a line exactly when the document is open and some backtrace entry is
      anchored at the file. */
  lemma ExceptionLineSpec(exception: Option<RspecException>, fileName: string, file: Option<Document>,
                          unknown: string)
    requires exception.Some?
    ensures ExceptionContent(exception, fileName, file, unknown).value.line.Some? <==>
              file.Some? && exists i :: 0 <= i < |exception.value.backtrace|
                                        && StartsWithFileLine(exception.value.backtrace[i], fileName)
  {
    var entries := exception.value.backtrace;
    FrameLineSpec(entries, fileName, true);
    if exists i :: 0 <= i < |entries| && StartsWithFileLine(entries[i], fileName) {
      var i :| 0 <= i < |entries| && StartsWithFileLine(entries[i], fileName);
      assert StartsWithFile(fileName)(entries[i]);
    }
  }

  /** With the document open, the exception line is read from the first backtrace entry
      anchored at the file; for a file name without a colon it is the number right after the
      file name. */
  lemma ExceptionLineFromFirstEntry(exception: Option<RspecException>, fileName: string, file: Option<Document>,
                                    unknown: string, i: nat)
    requires exception.Some? && file.Some?
    requires i < |exception.value.backtrace| && StartsWithFileLine(exception.value.backtrace[i], fileName)
    requires forall i' :: 0 <= i' < i ==> !StartsWithFileLine(exception.value.backtrace[i'], fileName)
    ensures var r := ExceptionContent(exception, fileName, file, unknown);
            && r.value.line == LineNumberIn(exception.value.backtrace[i])
            && (':' !in fileName ==> r.value.line == Some(RefValue(exception.value.backtrace[i], |fileName|)))
  {
    var entries := exception.value.backtrace;
    var p := StartsWithFile(fileName);
    FindFromSpec(entries, p, 0);
    assert p(entries[i]);
    var found := FindFrom(entries, p, 0);
    assert found == Some(i);
    MentionedEntryHasLine(entries[i], fileName);
    if ':' !in fileName {
      AnchoredLineNumber(entries[i], fileName);
    }
  }

  /** The open document with that file name, if any. */
  function DocumentFor(run: RspecRun, path: string): Option<Document> {
    if path in run.openDocuments then Some(run.openDocuments[path]) else None
  }

  /** The result stored for one example once its absolute path is known. */
  function ExampleResult(ex: RspecExample, path: string, run: RspecRun): LineResult {
    var file := DocumentFor(run, path);
    LineResult(ex.id, run.testRun, ex.lineNumber, ContentAtLine(file, ex.lineNumber, run.unknown), ex.status,
               ExceptionContent(ex.exception, path, file, run.unknown), None, None, None)
  }

  function PathOf(ex: RspecExample, run: RspecRun): Option<string> {
    TestFilePath(ex.filePath, run.projectPath, run.findFiles)
  }

  /** Example `ex` writes the entry for line key `k` of file `f`. */
  predicate Writes(ex: RspecExample, run: RspecRun, f: string, k: string) {
    PathOf(ex, run) == Some(f) && NatToString(ex.lineNumber) == k
  }

  /** One example's step: create the file's entry for this run if it is missing, then store the
      example's result under its line number. */
  function Record(acc: TestResults, ex: RspecExample, run: RspecRun): Option<TestResults> {
    var path := PathOf(ex, run);
    if path.None? then None
    else
      var p := path.value;
      var fr := if p in acc then acc[p] else FileResults(run.testRun, false, map[]);
      Some(acc[p := fr.(results := fr.results[NatToString(ex.lineNumber) := ExampleResult(ex, p, run)])])
  }

  /** Reference semantics of `updateFromRspecOutput`: the examples recorded in report order;
      `None` when resolving some example's path throws, in which case nothing is handed on. */
  function Collected(examples: seq<RspecExample>, run: RspecRun): Option<TestResults>
    decreases |examples|
  {
    if examples == [] then Some(map[])
    else
      var prev := Collected(examples[..|examples| - 1], run);
      if prev.None? then None else Record(prev.value, examples[|examples| - 1], run)
  }

  /** `updateFromRspecOutput`, step by step; the result is what is handed to `setTestResults`,
      `None` when the run is abandoned. */
  method UpdateFromRspecOutput(examples: seq<RspecExample>, run: RspecRun) returns (testResults: Option<TestResults>)
    ensures testResults == Collected(examples, run)
  {
    var results: TestResults := map[];
    var i := 0;
    while i < |examples|
      invariant 0 <= i <= |examples|
      invariant Collected(examples[..i], run) == Some(results)
    {
      assert examples[..i + 1][..i] == examples[..i];
      var ex := examples[i];
      var absoluteFilePath := TestFilePath(ex.filePath, run.projectPath, run.findFiles);
      if absoluteFilePath.None? {
        assert Collected(examples[..i + 1], run).None?;
        CollectedAbandoned(examples, run, i + 1);
        return None;
      }
      var path := absoluteFilePath.value;
      var fileResults := if path in results then results[path] else FileResults(run.testRun, false, map[]);
      var file := DocumentFor(run, path);
      var lineResult := LineResult(ex.id, run.testRun, ex.lineNumber,
                                   ContentAtLine(file, ex.lineNumber, run.unknown), ex.status,
                                   ExceptionContent(ex.exception, path, file, run.unknown), None, None, None);
      results := results[path := fileResults.(results := fileResults.results[NatToString(ex.lineNumber) := lineResult])];
      i := i + 1;
    }
    assert examples[..|examples|] == examples;
    testResults := Some(results);
  }

  /** Once a prefix fails, every longer prefix fails. */
  lemma {:induction false} CollectedAbandoned(examples: seq<RspecExample>, run: RspecRun, n: nat)
    requires n <= |examples| && Collected(examples[..n], run).None?
    ensures Collected(examples, run).None?
    decreases |examples| - n
  {
    if n < |examples| {
      assert examples[..n + 1][..n] == examples[..n];
      CollectedAbandoned(examples, run, n + 1);
    } else {
      assert examples[..n] == examples;
    }
  }

  /** `updateFromOutputJson`: only a parsed RSpec report reaches `updateFromRspecOutput`; an
      unreadable payload hands nothing to the presenter. */
  method UpdateFromOutputJson(payload: Payload, run: RspecRun) returns (testResults: Option<TestResults>)
    ensures payload.RspecPayload? ==> testResults == Collected(payload.examples, run)
    ensures !payload.RspecPayload? ==> testResults.None?
  {
    if payload.RspecPayload? {
      testResults := UpdateFromRspecOutput(payload.examples, run);
    } else {
      testResults := None;
    }
  }

  /** The run is abandoned exactly when some example's path cannot be resolved. */
  lemma {:induction false} CollectedFails(examples: seq<RspecExample>, run: RspecRun)
    ensures Collected(examples, run).None? <==> exists i :: 0 <= i < |examples| && PathOf(examples[i], run).None?
    decreases |examples|
  {
    if examples != [] {
      var init := examples[..|examples| - 1];
      CollectedFails(init, run);
      if Collected(init, run).None? {
        var i :| 0 <= i < |init| && PathOf(init[i], run).None?;
        assert examples[i] == init[i];
      } else if PathOf(examples[|examples| - 1], run).Some? {
        forall i | 0 <= i < |examples| ensures PathOf(examples[i], run).Some? {
          if i < |init| {
            assert examples[i] == init[i];
          }
        }
      }
    }
  }

  /** A completed run has an entry for exactly the files some example resolved to; each
      carries the run's id, is not pending and holds only results of this run. */
  lemma {:induction false} CollectedFiles(examples: seq<RspecExample>, run: RspecRun, f: string)
    requires Collected(examples, run).Some?
    ensures var r := Collected(examples, run).value;
            && (f in r <==> exists i :: 0 <= i < |examples| && PathOf(examples[i], run) == Some(f))
            && (f in r ==> r[f].testRun == run.testRun && !r[f].testRunPending
                           && forall k :: k in r[f].results ==> r[f].results[k].testRun == run.testRun)
    decreases |examples|
  {
    if examples != [] {
      var init := examples[..|examples| - 1];
      var last := examples[|examples| - 1];
      CollectedFiles(init, run, f);
      var r := Collected(examples, run).value;
      if f in r && PathOf(last, run) != Some(f) {
        var i :| 0 <= i < |init| && PathOf(init[i], run) == Some(f);
        assert examples[i] == init[i];
      }
      if exists i :: 0 <= i < |examples| && PathOf(examples[i], run) == Some(f) {
        var i :| 0 <= i < |examples| && PathOf(examples[i], run) == Some(f);
        if i < |init| {
          assert init[i] == examples[i];
        }
      }
    }
  }

  /** One example's step adds exactly the line key it writes. */
  lemma RecordKeys(acc: TestResults, ex: RspecExample, run: RspecRun, f: string, k: string)
    requires Record(acc, ex, run).Some?
    ensures var r := Record(acc, ex, run).value;
            (f in r && k in r[f].results) <==> (f in acc && k in acc[f].results) || Writes(ex, run, f, k)
  {
  }

  /** Some example of the list writes line key `k` of file `f`. */
  predicate SomeWrites(examples: seq<RspecExample>, run: RspecRun, f: string, k: string) {
    exists i :: 0 <= i < |examples| && Writes(examples[i], run, f, k)
  }

  lemma SomeWritesSnoc(examples: seq<RspecExample>, run: RspecRun, f: string, k: string)
    requires examples != []
    ensures SomeWrites(examples, run, f, k) <==>
              SomeWrites(examples[..|examples| - 1], run, f, k) || Writes(examples[|examples| - 1], run, f, k)
  {
    var init := examples[..|examples| - 1];
    if SomeWrites(examples, run, f, k) && !Writes(examples[|examples| - 1], run, f, k) {
      var i :| 0 <= i < |examples| && Writes(examples[i], run, f, k);
      assert init[i] == examples[i];
    }
    if SomeWrites(init, run, f, k) {
      var i :| 0 <= i < |init| && Writes(init[i], run, f, k);
      assert init[i] == examples[i];
    }
  }

  /** A completed run holds the line key `k` of file `f` exactly when some example writes it. */
  lemma {:induction false} CollectedLines(examples: seq<RspecExample>, run: RspecRun, f: string, k: string)
    requires Collected(examples, run).Some?
    ensures var r := Collected(examples, run).value;
            (f in r && k in r[f].results) <==> exists i :: 0 <= i < |examples| && Writes(examples[i], run, f, k)
    decreases |examples|
  {
    if examples != [] {
      var init := examples[..|examples| - 1];
      CollectedLines(init, run, f, k);
      RecordKeys(Collected(init, run).value, examples[|examples| - 1], run, f, k);
      SomeWritesSnoc(examples, run, f, k);
      assert SomeWrites(init, run, f, k) <==> exists i :: 0 <= i < |init| && Writes(init[i], run, f, k);
    }
  }

  /** When several examples write the same line of the same file, the last one in report order
      is the one stored: its id, status and line, the run's id, the content of that line and
      the example's exception. */
  lemma {:induction false} CollectedLastWins(examples: seq<RspecExample>, run: RspecRun, i: nat)
    requires Collected(examples, run).Some?
    requires i < |examples| && PathOf(examples[i], run).Some?
    requires forall j :: i < j < |examples| ==>
               !Writes(examples[j], run, PathOf(examples[i], run).value, NatToString(examples[i].lineNumber))
    ensures var r := Collected(examples, run).value;
            var f := PathOf(examples[i], run).value;
            var k := NatToString(examples[i].lineNumber);
            && f in r && k in r[f].results
            && r[f].results[k].id == examples[i].id
            && r[f].results[k].status == examples[i].status
            && r[f].results[k].line == examples[i].lineNumber
            && r[f].results[k].testRun == run.testRun
            && r[f].results[k].content == ContentAtLine(DocumentFor(run, f), examples[i].lineNumber, run.unknown)
            && r[f].results[k].exception == ExceptionContent(examples[i].exception, f, DocumentFor(run, f), run.unknown)
    decreases |examples|
  {
    var init := examples[..|examples| - 1];
    if i < |init| {
      assert init[i] == examples[i];
      forall j | i < j < |init|
        ensures !Writes(init[j], run, PathOf(init[i], run).value, NatToString(init[i].lineNumber))
      {
        assert init[j] == examples[j];
      }
      CollectedLastWins(init, run, i);
    }
  }

  /** The older version has no search: a relative path without a project root abandons the
      run, whatever the workspace holds. */
  lemma LegacyNeedsRoot(examples: seq<RspecExample>, run: RspecRun, i: nat)
    requires run.findFiles.None? && run.projectPath.None?
    requires i < |examples| && StartsWith(examples[i].filePath, ".")
    ensures Collected(examples, run).None?
  {
    CollectedFails(examples, run);
  }

  /** With a project root the workspace search is never consulted, so both versions report
      the same results. */
  lemma {:induction false} VersionsAgree(examples: seq<RspecExample>, run: RspecRun)
    requires run.projectPath.Some?
    ensures Collected(examples, run) == Collected(examples, run.(findFiles := None))
    decreases |examples|
  {
    if examples != [] {
      VersionsAgree(examples[..|examples| - 1], run);
    }
  }
}
