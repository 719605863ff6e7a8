# ruby-spec-runner core in Dafny

This project models the bookkeeping core of ruby-spec-runner, a VS Code extension that runs
RSpec and minitest tests from the editor and decorates the test file with the results. The
model covers five parts:

- **The command builders.** These produce the shell command or the debug launch record that
  runs a spec file, a test line or a minitest context. They cover both the current and the
  older RSpec and minitest runners, and the `quote`/`cmdJoin` helpers of `src/util.ts`.
- **The region parsers.** These find the test, spec and context lines of a file; they also
  supply the code-lens positions.
- **The RSpec JSON interpreter.** It turns a decoded RSpec report into per-file line results.
- **The two minitest output interpreters.** Each resolves the failure, error and skip blocks of
  a minitest run to test lines and infers the passes.
- **The result presenter.** It stores the results and re-anchors them when the document is
  edited. It also decides which result is drawn in which gutter or line decoration.

Modules follow the source files:

| module | file | source |
|---|---|---|
| `Strings` | strings.dfy | the JavaScript string operations the code relies on (`trim`, `startsWith`, `split`, `join`, `filter(Boolean)`, number/decimal conversion, `length` in UTF-16 code units) |
| `Types` | types.dfy | src/types.ts and `contentAtLine` |
| `Util` | util.dfy | src/util.ts, plus the shared `cd` handling and run outcomes of the runners |
| `Presenter` | presenter.dfy | src/SpecResultPresenter.ts (class `ResultStore`) |
| `LineScan`, `SpecParser`, `MinitestParser` | line_scan.dfy, spec_parser.dfy, minitest_parser.dfy | src/rspec/SpecParser.ts, src/SpecParser.ts, src/minitest/MinitestParser.ts |
| `Backtrace` | backtrace.dfy | the backtrace-frame searches `^<file>:\d+:in` and `^.*<file>:\d+:in` and the `:(\d+):in` line read |
| `MinitestResults`, `MinitestInterpreter`, `LegacyMinitestInterpreter` | minitest_results.dfy, minitest_interpreter.dfy, legacy_minitest_interpreter.dfy | src/minitest/MinitestResultInterpreter.ts, src/MinitestResultInterpreter.ts |
| `RspecInterpreter` | rspec_interpreter.dfy | src/rspec/SpecResultInterpreter.ts and src/SpecResultInterpreter.ts |
| `RspecRunner`, `LegacySpecRunner` | rspec_runner.dfy, legacy_spec_runner.dfy | src/rspec/SpecRunner.ts, src/SpecRunner.ts |
| `MinitestRunner`, `LegacyMinitestRunner` | minitest_runner.dfy, legacy_minitest_runner.dfy | src/minitest/MinitestRunner.ts, src/MinitestRunner.ts |

### How the source was mapped

Code that mutates state is modelled as imperative code:

- the presenter's dictionary is the `map` field of class `ResultStore`;
- each interpreter and parser loop is a `method` with a `while` loop;
- each such method is proved equal to a reference function, and the properties are lemmas about
  that function.

The pure string assembly of the runners is modelled as functions.

Some JavaScript semantics are written out explicitly:

- String lengths and editor columns count UTF-16 code units (`Utf16Length`): a character
  outside the Basic Multilingual Plane counts twice. Prefix tests and the whitespace classes
  read the same on characters as on code units, so they work on characters.
- `x || y` and `line ? … : …` treat 0 as false (`Truthy`).
- The regular-expression `.` does not match line terminators.
- `JSON.stringify` of a line list is `[a,b]`.

A thrown `NoWorkspaceError` is the outcome `NoWorkspace`, or `None` in the interpreters, and
each caller models it as the branch it takes. Both `Date.now()` readings are parameters: the run
id and the content fallback.

### Where the model follows the code rather than the design

- **First match, not nearest.** A drifted result moves to the first matching line of the
  document, not the one nearest to where it was. Its anchor `content` is not rewritten, and
  neither is that of a moved exception.
- **JSON selectors are lost.** The newer minitest runner writes the run's lines as a JSON
  array (`[12]`). The newer interpreter accepts only a bare number there. A single-test run is
  therefore resolved without a selected line (`MinitestRunner.HeaderNotReadAsSelector`).
- **Line 0.** The minitest debug configuration appends `:0` for line 0, while the command runs
  the whole file (`MinitestRunner.DebugTargetAgrees`).
- **Single-test keys.** A single passing test is stored under the raw selector text, while its
  `line` is the resolved test line.
- **No line adjustment by description.** The RSpec interpreter stores results at the reported
  line.
- **Blank lines in `getSubTests`.** The template literal turns the `\s` of `[^\s]` and of
  `^\s*$` into a plain `s`. A line therefore continues the scan when it is empty or made of `s`
  characters only, or when it starts with the context's indent followed by a whitespace
  character and then any character other than `s`. So a whitespace-only line at most one
  character deeper than the context ends the scan (`MinitestParser.ShallowBlankLineStops`),
  and so does the lone `\r` a CRLF blank line leaves. A whitespace-only line that starts with
  the indent and is at least two characters longer continues it.
- **Re-indented results drift on every pass.** The drift check compares the untrimmed line with
  the anchor, while the search for a new line trims both. A re-indented result is therefore
  found to have drifted again on every reconciliation and is moved onto its own key. A second
  reconciliation of an unchanged document still changes nothing
  (`Presenter.ReconciledIdempotent`).

## Model

| member | source | states |
|---|---|---|
| Util.Quote | src/util.ts:5-8 | the result is the string between two quote characters (`"` on Windows, `'` elsewhere), unescaped, two characters longer |
| Util.CmdJoinNothing | src/util.ts:11-13 | with no non-empty command the chain is empty |
| Util.CmdJoinSingle | src/util.ts:11-13 | with exactly one non-empty command the chain is that command unchanged |
| Util.CmdJoinPair | src/util.ts:11-13 | two non-empty commands are chained with `; ` on Windows and ` && ` elsewhere |
| Util.CmdJoinIgnoresEmpty | src/util.ts:11-13 | an empty command anywhere in the list changes nothing |
| Util.FileAtLineSpec | src/rspec/SpecRunner.ts:115 | the target starts with the file name; it is the file name alone iff the line is absent or 0, else a colon and digits that read back as the line |
| Util.WorkspaceRootCd | src/rspec/SpecRunner.ts:131-137 | the run fails for want of a workspace iff changing to the root is on and there is no root; with it off the pair is an empty `cd` and an empty return |
| Util.LegacyRootCd | src/SpecRunner.ts:57-59 | fails iff changing to the root is on and no root exists; otherwise `cd '<root>'` or nothing |
| Types.ContentAtLineSpec | src/SpecResultPresenter.ts:288-292 | an existing non-empty line reads as its longest prefix of at most 1000 UTF-16 code units, the whole line when it fits; anything else reads as the fallback |
| Types.ContentAtLineOfBmp | src/SpecResultPresenter.ts:288-292 | on a line without characters outside the Basic Multilingual Plane the cut is at 1000 characters |
| Presenter.FirstMatchingLineSpec | src/SpecResultPresenter.ts:209-213 | the index found is the smallest whose trimmed line starts with the trimmed anchor; none is found only when no line matches |
| Presenter.FirstMatchFromSpec | src/SpecResultPresenter.ts:212 | the search from an index finds the first matching line at or after it |
| Presenter.SyncException | src/SpecResultPresenter.ts:197-207 | only a failed result with an exception line and anchor is touched; an anchored exception stays, a drifted one moves to the first matching line or loses line and anchor; message, type and every other field are kept |
| Presenter.SyncedExceptions | src/SpecResultPresenter.ts:197-206 | exception sync never adds or removes results |
| Presenter.SyncExceptionIdempotent | src/SpecResultPresenter.ts:197-207 | syncing one exception twice against the same document gives what syncing it once gives |
| Presenter.SyncedExceptionsIdempotent | src/SpecResultPresenter.ts:197-206 | syncing a file's exceptions twice against the same document gives what syncing them once gives |
| Presenter.SyncedExceptionsSettled | src/SpecResultPresenter.ts:197-206 | exception sync keeps every result settled, since it touches neither line nor anchor |
| Presenter.SyncKeepsAnchored | src/SpecResultPresenter.ts:178-189 | a result whose line still starts with its anchor keeps its key and every field (unless a drifted one moves onto that key) |
| Presenter.SyncedSettles | src/SpecResultPresenter.ts:176-219 | after a sync every result is settled: still anchored, or stored under one past the first line matching its anchor with that line |
| Presenter.SyncedOfSettled | src/SpecResultPresenter.ts:176-219 | a sync leaves a map of settled results unchanged, in any enumeration order |
| Presenter.SyncedIdempotent | src/SpecResultPresenter.ts:176-219 | a second sync against the same document, in any enumeration order, gives the result of the first |
| Presenter.SyncKeys | src/SpecResultPresenter.ts:176-195 | after sync a key is present iff it held an anchored result or is the target of some drifted result; so an unmatched drifted result disappears |
| Presenter.SyncMovesToFirstMatch | src/SpecResultPresenter.ts:209-219 | a drifted result with a match is stored under one past the FIRST matching line, with that line number and all other fields unchanged |
| Presenter.DriftedInComplete | src/SpecResultPresenter.ts:182-189 | every drifted result is staged for re-insertion |
| Presenter.DriftedInSound | src/SpecResultPresenter.ts:182-189 | only drifted results of the file are staged |
| Presenter.ReinsertKeys | src/SpecResultPresenter.ts:192-194 | the keys after re-insertion are the kept ones plus each staged result's target |
| Presenter.ReinsertUntargeted | src/SpecResultPresenter.ts:192-194 | a key no staged result moves to keeps its entry |
| Presenter.ReinsertLastWins | src/SpecResultPresenter.ts:214-218 | a key several staged results move to holds the last of them |
| Presenter.KeptAmongAll | src/SpecResultPresenter.ts:182-189 | once every key is visited, the deletion loop leaves exactly the anchored results, whatever the enumeration order |
| Presenter.KeptAmongStep | src/SpecResultPresenter.ts:185-188 | visiting one key deletes it iff its result drifted |
| Presenter.DecorationsFor | src/SpecResultPresenter.ts:98-166 | a pending run shows only the run-pending marks, one per stored result; otherwise a result lands in its status's current category iff it is from the file's run and in the stale one iff not (stale only when enabled); ranges sit on `line - 1` |
| Presenter.MergeRun | src/SpecResultPresenter.ts:47-53 | a stored file gets the new run id and pending flag; incoming lines overwrite, unmentioned stored lines are kept |
| Presenter.Upsert | src/SpecResultPresenter.ts:51-53 | the entries are written over the map; other keys keep their values |
| Presenter.StageDrifted | src/SpecResultPresenter.ts:182-189 | the loop leaves the anchored results and stages the drifted ones in enumeration order |
| Presenter.ReinsertStaged | src/SpecResultPresenter.ts:192-194 | the loop re-inserts the staged results as the reference definition does |
| Presenter.SyncResultsIn | src/SpecResultPresenter.ts:176-195 | staging then re-insertion yields the reference reconciliation of a file's results |
| Presenter.SyncExceptionsIn | src/SpecResultPresenter.ts:197-206 | the loop syncs every result's exception as the reference definition does |
| Presenter.ResultStore.constructor | src/SpecResultPresenter.ts:313-315 | the store starts empty |
| Presenter.ResultStore.SetTestResults | src/SpecResultPresenter.ts:42-58 | new files are inserted wholesale, stored ones merged; files not mentioned are unchanged |
| Presenter.ResultStore.ClearTestResults | src/SpecResultPresenter.ts:60-71 | exactly the active file's entry is deleted; without an active document nothing changes |
| Presenter.ResultStore.SetPending | src/SpecResultPresenter.ts:169-174 | only a stored file gets `testRunPending := true`; unknown files and line results are untouched |
| Presenter.ResultStore.SyncTestResults | src/SpecResultPresenter.ts:176-195 | only the active file's results change, to the reconciled map |
| Presenter.ResultStore.SyncTestResultExceptions | src/SpecResultPresenter.ts:197-207 | only the active file's results change, to the exception-synced map |
| Presenter.ResultStore.Update | src/SpecResultPresenter.ts:73-167 | when the guard fails (no stored spec/test file, or decoration off) nothing changes; otherwise results then exceptions are reconciled and the decorations of the reconciled entry returned |
| Presenter.FailedLineCategories | src/SpecResultPresenter.ts:98-166 | a failed current-run result with an exception line gets a highlight iff selected; with stale display on, a failed older-run one gets a stale highlight iff selected; both sit on the exception's line - 1 |
| Presenter.GutterLines | src/SpecResultPresenter.ts:98-166 | the pending, run-pending and stale gutter marks sit on their result's line - 1 |
| Presenter.DecorationWidths | src/SpecResultPresenter.ts:247-284 | gutter marks span the result's anchor in UTF-16 code units; a failed-line highlight spans the exception's anchor, or 1000 columns without one |
| Presenter.ReconciledIdempotent | src/SpecResultPresenter.ts:94-95 | reconciling results and then exceptions a second time against the same document changes nothing |
| Presenter.PendingThenResolved | src/SpecResultPresenter.ts:42-55 | merging a finished run into a pending file clears the run-pending marks, shows new passes as current and untouched passes as stale |
| LineScan.MatchingFromSound | src/rspec/SpecParser.ts:20-28 | every reported line satisfies the pattern |
| LineScan.MatchingFromIncreasing | src/rspec/SpecParser.ts:20-28 | reported lines strictly increase |
| LineScan.MatchingFromComplete | src/rspec/SpecParser.ts:20-28 | no matching line is missed |
| LineScan.FullLine | src/rspec/SpecParser.ts:24 | a region spans its line from column 0 to the line's length in UTF-16 code units |
| LineScan.FirstTruthy | src/minitest/MinitestParser.ts:47 | `a \|\| b` on optional strings: `a` when it is present and non-empty, otherwise `b` as it is, even an empty string |
| SpecParser.GetSpecRegions | src/rspec/SpecParser.ts:16-31 | the loop yields exactly the reference regions of the text's lines |
| SpecParser.SpecRegionsSpec | src/rspec/SpecParser.ts:16-31 | one region per matching line, covering it, named by its title group, in increasing line order, none missed |
| SpecParser.SpecName | src/SpecParser.ts:25 | the name is the captured title group, absent without a match |
| MinitestParser.GetTestRegions | src/minitest/MinitestParser.ts:21-36 | the loop yields exactly the reference regions |
| MinitestParser.TestRegionsSpec | src/minitest/MinitestParser.ts:21-36 | one region per test line, covering it, named by its non-empty title, in increasing order, none missed |
| MinitestParser.TestName | src/minitest/MinitestParser.ts:10-30 | only a non-empty `title` names a test; `def test_…` lines stay unnamed (the group is `unit_def`, the code reads `unitDef`) |
| MinitestParser.ContextName | src/minitest/MinitestParser.ts:47 | a non-empty class name, else the context name as captured, so `describe "" do` is named by the empty string |
| MinitestParser.LeadingWhitespaceSpec | src/minitest/MinitestParser.ts:63-65 | the indent is the longest all-whitespace prefix of the context line |
| MinitestParser.EmptyLineContinues | src/minitest/MinitestParser.ts:14 | an empty line passes the indentation check |
| MinitestParser.ShallowBlankLineStops | src/minitest/MinitestParser.ts:14 | a whitespace-only line at most one character deeper than the context fails the check |
| MinitestParser.SameIndentStops | src/minitest/MinitestParser.ts:14 | a line at the context's own indent (its `end`) fails the check |
| MinitestParser.ScanEndSpec | src/minitest/MinitestParser.ts:70-80 | the scan runs over lines that pass the check and ends at the first that fails |
| MinitestParser.GetSubTests | src/minitest/MinitestParser.ts:63-83 | the early-exit loop yields exactly the reference child lines |
| MinitestParser.SubTestsSpec | src/minitest/MinitestParser.ts:63-83 | child lines ascend, lie after the context line and before the first failing line, and are exactly the test lines there |
| MinitestParser.ContextRegionsSpec | src/minitest/MinitestParser.ts:38-57 | one region per context line, covering it, named, with its child test lines, in increasing order, none missed |
| MinitestParser.GetContextRegions | src/minitest/MinitestParser.ts:38-57 | the two passes yield the reference regions, each with `forTestLines` set |
| MinitestParser.PushContextRegions | src/minitest/MinitestParser.ts:42-50 | the first pass yields one region per context line without child lines |
| Backtrace.DigitRunOf | src/rspec/SpecResultInterpreter.ts:92-93 | the digit run measured at a position is the maximal run of digits there |
| Backtrace.FirstLineRefLeftmost | src/rspec/SpecResultInterpreter.ts:92-93 | `:(\d+):in` matches at the leftmost position where it can |
| Backtrace.MentionedEntryHasLine | src/minitest/MinitestResultInterpreter.ts:197-205 | an entry that names the file always yields a line number, so the non-null assertion holds |
| Backtrace.AnchoredLineNumber | src/rspec/SpecResultInterpreter.ts:89-93 | for a file name without `:`, the line read is the number right after the file name |
| Backtrace.FindFromSpec | src/rspec/SpecResultInterpreter.ts:89 | `find` returns the first entry satisfying the predicate, or nothing when none does |
| Backtrace.FrameLineSpec | src/rspec/SpecResultInterpreter.ts:89-93 | a frame line exists iff some entry names the file, and is read from the first such entry |
| MinitestResults.LastAtMost | src/minitest/MinitestResultInterpreter.ts:151 | the line found is a region line at most the reported line; none iff every region starts later |
| MinitestResults.LastAtMostIsLast | src/minitest/MinitestResultInterpreter.ts:151 | it is the last such line in region order, hence the greatest when regions ascend |
| MinitestResults.StripQuotesSpec | src/minitest/MinitestResultInterpreter.ts:144 | a quoted title loses exactly its quotes; an unquoted one is unchanged |
| MinitestResults.UniqueNameMatchSpec | src/minitest/MinitestResultInterpreter.ts:144-148 | a name picks a region iff exactly one region's stripped name occurs in it, and gives that region's line |
| MinitestResults.TestLineForSpec | src/minitest/MinitestResultInterpreter.ts:151 | resolution priority: selected line, else unique name, else last region at or before the line; the older version by position only |
| MinitestResults.ResolveFailure | src/minitest/MinitestResultInterpreter.ts:139-174 | a failure becomes Failed at its test line with exception type `''` at the reported line; nothing without a test line |
| MinitestResults.ResolveError | src/minitest/MinitestResultInterpreter.ts:193-236 | an error becomes Failed with the error name and the first in-file frame's line; nothing without such a frame or a test line |
| MinitestResults.ResolveSkip | src/minitest/MinitestResultInterpreter.ts:254-272 | a skip becomes Pending at its test line, with no exception |
| MinitestResults.RelativePathUnder | src/minitest/MinitestResultInterpreter.ts:191 | a file under the project directory is named relative to it |
| MinitestResults.RecordMatches | src/minitest/MinitestResultInterpreter.ts:139-177 | the category loop writes and records exactly as the reference definition |
| MinitestResults.RecordedKeys | src/minitest/MinitestResultInterpreter.ts:165 | a key is present after the loop iff it was before or some block resolves to it |
| MinitestResults.RecordedUntouched | src/minitest/MinitestResultInterpreter.ts:153-156 | unresolved blocks are skipped: keys no block resolves to keep their entry |
| MinitestResults.RecordedLastWins | src/minitest/MinitestResultInterpreter.ts:165-172 | a later block overwrites an earlier one at the same key |
| MinitestResults.SeenLinesSpec | src/minitest/MinitestResultInterpreter.ts:174 | a line is seen iff some block resolves to it |
| MinitestResults.CategoriseAll | src/minitest/MinitestResultInterpreter.ts:97-100 | failures, then errors, then skips, matching the reference definition |
| MinitestResults.SkipWins | src/minitest/MinitestResultInterpreter.ts:98-100 | a skip overwrites whatever failures and errors wrote at its key |
| MinitestResults.ErrorWins | src/minitest/MinitestResultInterpreter.ts:98-100 | an error overwrites a failure at its key unless a skip follows |
| MinitestResults.CategorisedKeys | src/minitest/MinitestResultInterpreter.ts:97-100 | a key is stored iff it is a seen line's decimal form; every result is from this run |
| MinitestResults.MarkedPassedSpec | src/minitest/MinitestResultInterpreter.ts:102-112 | every unseen listed line becomes Passed; other keys, seen ones included, keep their entry |
| MinitestResults.MarkUnseenPassed | src/minitest/MinitestResultInterpreter.ts:104-112 | the loop over the reversed region lines yields the reference map |
| MinitestResults.UnseenRegionPasses | src/minitest/MinitestResultInterpreter.ts:104-111 | each region line not seen is stored as Passed under its decimal key |
| MinitestResults.SeenKeyKept | src/minitest/MinitestResultInterpreter.ts:104 | the key of a seen line keeps its entry |
| MinitestResults.RecordedFromRun | src/minitest/MinitestResultInterpreter.ts:165-167 | each loop keeps every result within the run |
| MinitestResults.MarkedPassedFromRun | src/minitest/MinitestResultInterpreter.ts:105-107 | the inference keeps every result within the run |
| MinitestInterpreter.ParseSelector | src/minitest/MinitestResultInterpreter.ts:59-61 | a selector is read only from a line starting with a digit |
| MinitestInterpreter.ParseSelectorOfNumber | src/minitest/MinitestResultInterpreter.ts:59-61 | a bare number reads back as itself, typed; with ` true`, as from a code lens; `ALL` is no selector |
| MinitestInterpreter.ParsedTestLinesSpec | src/minitest/MinitestResultInterpreter.ts:64-65 | the lines read off the parser's regions are test lines of the file, strictly ascending, none missing |
| MinitestInterpreter.PositionOfParsedRegions | src/minitest/MinitestResultInterpreter.ts:135-151 | over the parser's regions, resolution by position gives the greatest test line at or before the reported line, and nothing iff every test line comes later |
| MinitestInterpreter.ArraySelectorIgnored | src/minitest/MinitestResultInterpreter.ts:59-73 | a line starting with `[` gives no selector and no selected line |
| MinitestInterpreter.UpdateFromMinitestOutput | src/minitest/MinitestResultInterpreter.ts:46-125 | the step-by-step method yields exactly the reference interpretation |
| MinitestInterpreter.InterpretationGuards | src/minitest/MinitestResultInterpreter.ts:47-95 | nothing is reported iff too few lines, the file not open, no tests counted, or no project path; otherwise one file, this run, not pending |
| MinitestInterpreter.AllRunPassesUnseen | src/minitest/MinitestResultInterpreter.ts:102-112 | with `ALL`, every region not seen is stored as Passed |
| MinitestInterpreter.AllRunKeepsSeen | src/minitest/MinitestResultInterpreter.ts:102-112 | with `ALL`, what the categories wrote stays |
| MinitestInterpreter.SingleRunPasses | src/minitest/MinitestResultInterpreter.ts:113-121 | a selected test with no other result is the one Passed entry, keyed by the raw selector text, at the resolved line |
| LegacyMinitestInterpreter.UpdateFromMinitestOutput | src/MinitestResultInterpreter.ts:68-137 | the step-by-step method yields exactly the reference interpretation |
| LegacyMinitestInterpreter.InterpretationGuards | src/MinitestResultInterpreter.ts:69-105 | nothing is reported iff too few lines, the file not open, no tests counted, or no project path; otherwise one file, this run, not pending |
| LegacyMinitestInterpreter.ResolvedByPosition | src/MinitestResultInterpreter.ts:151-157 | every block resolves to the last region at or before its line, ignoring names; none is dropped only then |
| LegacyMinitestInterpreter.AllRunPassesUnseen | src/MinitestResultInterpreter.ts:112-122 | with `ALL`, every region not seen is Passed |
| LegacyMinitestInterpreter.AllRunKeepsSeen | src/MinitestResultInterpreter.ts:112-122 | with `ALL`, what the categories wrote stays |
| LegacyMinitestInterpreter.SingleRunPasses | src/MinitestResultInterpreter.ts:123-134 | an all-digit selector with no result gives exactly one Passed entry at that line under that key |
| RspecInterpreter.SearchPattern | src/rspec/SpecResultInterpreter.ts:113 | the search pattern is the path without a leading `./` or `.\` |
| RspecInterpreter.TestFilePathSpec | src/rspec/SpecResultInterpreter.ts:105-125 | a path not starting with `.` is unchanged; otherwise the `.` is replaced by the root; without a root, the first file found or a failure |
| RspecInterpreter.ExceptionContent | src/rspec/SpecResultInterpreter.ts:79-97 | no exception gives none; otherwise its class and message, and content exactly when there is a line, that line's text |
| RspecInterpreter.ExceptionLineSpec | src/rspec/SpecResultInterpreter.ts:87-90 | the exception has a line exactly when the document is open and some backtrace entry starts with the file name and `:<n>:in` |
| RspecInterpreter.ExceptionLineFromFirstEntry | src/rspec/SpecResultInterpreter.ts:89-93 | the line is read from the first such entry; for a file name without a colon it is the number right after the name |
| RspecInterpreter.UpdateFromRspecOutput | src/rspec/SpecResultInterpreter.ts:50-77 | the loop over the examples yields the reference results |
| RspecInterpreter.UpdateFromOutputJson | src/rspec/SpecResultInterpreter.ts:36-48 | a recognised report is interpreted; anything else gives no update |
| RspecInterpreter.CollectedAbandoned | src/rspec/SpecResultInterpreter.ts:56-57 | once resolving a path throws, nothing is handed on |
| RspecInterpreter.CollectedFails | src/rspec/SpecResultInterpreter.ts:56-58 | nothing is handed on iff some example's path cannot be resolved |
| RspecInterpreter.CollectedFiles | src/rspec/SpecResultInterpreter.ts:58-62 | exactly the resolved paths get entries, all with this run's id, not pending |
| RspecInterpreter.CollectedLines | src/rspec/SpecResultInterpreter.ts:66 | a file's line key exists iff some example of that file has that line number |
| RspecInterpreter.CollectedLastWins | src/rspec/SpecResultInterpreter.ts:66-73 | the entry is the last example's id, status, line, run, content and exception |
| RspecInterpreter.LegacyNeedsRoot | src/SpecResultInterpreter.ts:131-137 | without a root and without the file search, a relative path aborts the update |
| RspecInterpreter.VersionsAgree | src/SpecResultInterpreter.ts:77-103 | with a root, the older interpreter produces the same results as the newer |
| RspecRunner.RspecInvocationEnds | src/rspec/SpecRunner.ts:121 | the rspec invocation ends with the quoted target |
| RspecRunner.PlainRspecInvocation | src/rspec/SpecRunner.ts:114-121 | without env, failed-only and JSON output it is `<command> -f <fmt> '<target>'` |
| RspecRunner.ChainedInRootSpec | src/rspec/SpecRunner.ts:123-124 | no `cd` gives the command alone; a `false` return wraps `cd` and command in parentheses; otherwise `cd`, command and the return are chained |
| RspecRunner.BuildRspecCommandSpec | src/rspec/SpecRunner.ts:114-125 | fails iff changing to the root is on without a root; without it the invocation alone; with it, chained in the root |
| RspecRunner.DebugConfigOutcome | src/rspec/SpecRunner.ts:73-112 | fails only for a known debugger without a root; an unknown debugger gets no configuration; `cwd` is the root iff changing to it is on |
| RspecRunner.RdbgConfigSpec | src/rspec/SpecRunner.ts:75-90 | rdbg: the command, the quoted target as script, format and optional JSON arguments, env merged with the debug env winning |
| RspecRunner.RubyLspConfigSpec | src/rspec/SpecRunner.ts:92-105 | Ruby LSP: the invocation without env prefix or failed-only flag as the program, the run env |
| RspecRunner.RunSpecForFile | src/rspec/SpecRunner.ts:39-60 | builds for the remapped path; without a workspace reports it and changes nothing; otherwise sends or launches and marks the ORIGINAL file pending |
| LegacySpecRunner.RunSpecForFile | src/SpecRunner.ts:22-34 | sends exactly the built command; shows the no-workspace message iff changing to the root is on and there is no root |
| LegacySpecRunner.BuildRspecCommandSpec | src/SpecRunner.ts:47-59 | fails iff changing to the root is on without a root; `<command> -f <fmt> '<target>'`, prefixed by `cd '<root>'` and the separator when changing directory |
| LegacySpecRunner.SameCommandAsNewerRunner | src/rspec/SpecRunner.ts:114-125 | with what the older runner lacks switched off, the newer runner builds the very same command |
| MinitestRunner.EscapeQuotesEscapes | src/minitest/MinitestRunner.ts:176-178 | every double quote of the escaped name has a backslash before it |
| MinitestRunner.EscapeQuotesFixed | src/minitest/MinitestRunner.ts:176-178 | a name is unchanged iff its quotes are already escaped; escaping is idempotent |
| MinitestRunner.MinitestArgsSpec | src/minitest/MinitestRunner.ts:111-123 | a context run gives the quoted file, ` -- ` and the `-n "/…/"` filter; otherwise the quoted file-at-line alone |
| MinitestRunner.LineStrings | src/minitest/MinitestRunner.ts:128 | each line in the header is its decimal form |
| MinitestRunner.LineNumberHeaderSpec | src/minitest/MinitestRunner.ts:111-128 | the header is `ALL` iff neither a context nor a non-zero line is run; a single line gives `[n]`; a context gives its lines as JSON |
| MinitestRunner.HeaderNotReadAsSelector | src/minitest/MinitestRunner.ts:128 | for a line or context run the header is not `ALL` and the newer interpreter reads no selector from it |
| MinitestRunner.RunInvocationEnds | src/minitest/MinitestRunner.ts:126 | the invocation ends with the non-empty arguments |
| MinitestRunner.PlainRunInvocation | src/minitest/MinitestRunner.ts:123-126 | without env prefix, for a line or file run, it is `<command> '<target>'` |
| MinitestRunner.SaveRunOptionsSpec | src/minitest/MinitestRunner.ts:129 | the run options are `echo <file> > <out>` then `echo '<header>' >> <out>`, chained |
| MinitestRunner.FullCommandSpec | src/minitest/MinitestRunner.ts:133-137 | with decoration the run options then the invocation piped through `tee`; without it the invocation alone; after the `cd` when there is one |
| MinitestRunner.BuildMinitestCommandSpec | src/minitest/MinitestRunner.ts:110-152 | fails iff changing to the root is on without a root; without a `cd` the plain or decorated command; with one, wrapped or followed by the return |
| MinitestRunner.DebugConfigOutcome | src/minitest/MinitestRunner.ts:64-107 | fails only for a known debugger without a root; an unknown debugger gets nothing; `cwd` is the root iff changing to it is on |
| MinitestRunner.DebugTargetAgrees | src/minitest/MinitestRunner.ts:69-76 | the debugger target equals the command's except for line 0, where the command runs the file and the debugger gets `<file>:0` |
| MinitestRunner.DebugArgsSpec | src/minitest/MinitestRunner.ts:80-102 | away from line 0, rdbg runs the command with the command's arguments as script; Ruby LSP's program is the invocation without env |
| MinitestRunner.RunTestForFile | src/minitest/MinitestRunner.ts:31-51 | builds for the remapped path; without a workspace reports it and changes nothing; otherwise sends or launches and marks the original file pending |
| LegacyMinitestRunner.BuildMinitestCommandSpec | src/MinitestRunner.ts:55-65 | fails iff changing to the root is on without a root; `<command> '<target>'`, after `cd '<root>'` when changing directory; ends with the quoted target |
| LegacyMinitestRunner.RunTestForFile | src/MinitestRunner.ts:29-42 | without a workspace reports it and changes nothing; otherwise sends the command and marks the file pending |
| LegacyMinitestRunner.SameCommandAsNewerRunner | src/minitest/MinitestRunner.ts:110-144 | for a line or file run with decoration and env off, the newer runner builds the older runner's command |

## Left out

- I/O and host plumbing are not modelled: the terminal (`sendText`, clearing, the lazy
  `terminal` getter), `startDebugging`, `fs.readFile`, temporary files, `chokidar` watches,
  console logging and `showErrorMessage`. A run's effect on the editor is the returned
  `RunAction` value.
- Decoration handles, hover texts, gutter icons, code-lens providers and buttons are UI. The
  model returns the ranges each category would get.
- Regular-expression engines are replaced by their results:
  - ANSI colour stripping;
  - the minitest summary and failure/error/skip block patterns, which are input records
    (`MinitestBlocks`);
  - the spec, test and context line patterns, which are line classifiers passed in.
- Path patterns are read literally: regex metacharacters in a file name or project path
  (`.`, `+`, …) are not interpreted as the source's `new RegExp` would.
- `JSON.parse` and `isRspecOutput` are not modelled. The payload arrives decoded, or as
  "unparsable" or "not RSpec output".
- `remapPath`, `cdCommands`, `stringifyEnvs` and `teeCommand` are not defined in
  src/util.ts. They are function parameters (`ShellHelpers`).
- `vscode.workspace.findFiles` is a function parameter, and `Date.now()` is two string
  parameters.
- The configuration wrapper src/SpecRunnerConfig.ts is not part of this model; its values are
  plain fields.
- src/MinitestParser.ts, used by the older minitest interpreter, is not part of this model. Its
  test regions are an input.
- RspecInterpreter.UpdateFromRspecOutput: the newer interpreter resolves paths concurrently
  under `Promise.all`. The model records examples in report order, and a failing resolution
  abandons the whole update, as the rejected promise does.
- String replacement patterns: `String.replace` of the project path is modelled as a
  literal first-occurrence replacement. `$` patterns in the replacement string are not
  interpreted.
- The exact strings pinned by the test suites (for instance the full default RSpec command)
  are not restated; the command shapes are stated for arbitrary settings instead.
- Shell behaviour is not modelled: what `echo` does to the quoted header, and how the shell
  runs the chained commands.
- ContentAtLineSpec: when column 1000 falls between the two halves of a surrogate pair, the
  source's text ends in the lone high surrogate; a Dafny string cannot hold one, so the model
  stops before the pair.
- The line patterns are parameters, so the regions of particular files are not stated: the
  regions of the example test file, the spec-file line the parser must skip, and the older
  src/SpecParser.ts pattern's `do`/`{` line end and literal `Rspec.` prefix. Soundness,
  completeness and order are proved for any pattern instead.
- `contentAtLine` for line 0 (where `vscode.Range` would throw) reads as the fallback.
- `update()` is a separate method. `setTestResults`, `setPending` and `clearTestResults` call
  it in the source; here the host calls `Update` after them.
