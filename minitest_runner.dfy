/** src/minitest/MinitestRunner.ts: the shell command or debug configuration that runs
    minitest for a file, a test line or a context, and the pending mark that follows. When
    results decorate the editor, the command first writes the file name and the run's line
    selector to the output file and then appends the test output to it. */
module MinitestRunner {
  import opened Strings
  import opened Types
  import opened Util
  import opened Presenter
  import MinitestInterpreter

  /** The settings the runner reads: `minitestCommand`, `minitestEnv`,
      `minitestDecorateEditorWithResults`, `changeDirectoryToWorkspaceRoot`, the project root
      (`None` when reading it throws), `usingBashInWindows`, `rubyDebugger`, and whether the
      host is Windows. */
  datatype MinitestConfig = MinitestConfig(
    minitestCommand: string,
    minitestEnv: map<string, string>,
    decorate: bool,
    changeDir: bool,
    projectPath: Option<string>,
    usingBashInWindows: bool,
    rubyDebugger: RubyDebugger,
    windows: bool)

  /** The debug configurations `buildMinitestDebugConfig` returns, without their constant
      fields. */
  datatype MinitestDebugConfig =
    | MinitestRdbg(command: string, script: string, env: map<string, string>, cwd: Option<string>)
    | MinitestRubyLsp(program: string, env: map<string, string>, cwd: Option<string>)

  /** `testName && forLines?.length`: a context is run, by name, for the lines it covers. */
  predicate IsContextRun(testName: Option<string>, forLines: Option<seq<nat>>) {
    testName.Some? && testName.value != "" && forLines.Some? && |forLines.value| > 0
  }

  /** The `lines` of a command: the context's lines, else the line when it is not 0. */
  function RunLines(line: Option<nat>, testName: Option<string>, forLines: Option<seq<nat>>): seq<nat> {
    if IsContextRun(testName, forLines) then forLines.value
    else if Truthy(line) then [line.value]
    else []
  }

  /** The backslash-escaping of `s.replace(/(?<!\\)"/g, '\\"')` from position `from` on: a
      double quote gets a backslash in front unless the character before it already is one. */
  function EscapeQuotesFrom(s: string, from: nat): string
    requires from <= |s|
    decreases |s| - from
  {
    if from == |s| then ""
    else
      (if s[from] == '"' && (from == 0 || s[from - 1] != '\\') then "\\\"" else [s[from]])
      + EscapeQuotesFrom(s, from + 1)
  }

  function EscapeQuotes(s: string): string {
    EscapeQuotesFrom(s, 0)
  }

  /** `testNameFilterRegex`: the escaped name as a `/…/` pattern between double quotes. */
  function TestNameFilterRegex(s: string): string {
    "\"/" + EscapeQuotes(s) + "/\""
  }

  /** Every double quote in `s` has a backslash right before it. */
  predicate QuotesEscaped(s: string) {
    forall j :: 0 <= j < |s| && s[j] == '"' ==> j > 0 && s[j - 1] == '\\'
  }

  /** Every double quote of `r` has a backslash right before it, except possibly a leading one
      when `lead` holds. */
  predicate EscapedAfter(r: string, lead: bool) {
    forall j :: 0 <= j < |r| && r[j] == '"' ==> (j > 0 && r[j - 1] == '\\') || (j == 0 && lead)
  }

  /** A double quote at the front of an escaped suffix is preceded by a backslash in the input;
      every other one has a backslash right before it in the output. */
  lemma {:induction false} EscapeQuotesFromEscapes(s: string, from: nat)
    requires from <= |s|
    ensures EscapedAfter(EscapeQuotesFrom(s, from), from > 0 && s[from - 1] == '\\')
    decreases |s| - from
  {
    if from < |s| {
      EscapeQuotesFromEscapes(s, from + 1);
      var head := if s[from] == '"' && (from == 0 || s[from - 1] != '\\') then "\\\"" else [s[from]];
      var tail := EscapeQuotesFrom(s, from + 1);
      assert EscapedAfter(tail, s[from] == '\\');
      var r := head + tail;
      var lead := from > 0 && s[from - 1] == '\\';
      assert r == EscapeQuotesFrom(s, from);
      forall j | 0 <= j < |r| && r[j] == '"'
        ensures (j > 0 && r[j - 1] == '\\') || (j == 0 && lead)
      {
        if j < |head| {
          assert r[j] == head[j];
          if s[from] == '"' && (from == 0 || s[from - 1] != '\\') {
            assert head == ['\\', '"'];
            assert j == 1 && r[0] == '\\';
          } else {
            assert head == [s[from]] && j == 0;
          }
        } else {
          var t := j - |head|;
          assert r[j] == tail[t];
          if t == 0 {
            assert head == [s[from]];
            assert r[j - 1] == head[0];
          } else {
            assert r[j - 1] == tail[t - 1];
          }
        }
      }
    }
  }

  /** The name pattern has every double quote of the name escaped. */
  lemma EscapeQuotesEscapes(s: string)
    ensures QuotesEscaped(EscapeQuotes(s))
  {
    EscapeQuotesFromEscapes(s, 0);
    assert EscapedAfter(EscapeQuotes(s), false);
  }

  /** Escaping inserts characters exactly when some double quote lacks a backslash before it. */
  lemma {:induction false} EscapeQuotesFromLength(s: string, from: nat)
    requires from <= |s|
    ensures |EscapeQuotesFrom(s, from)| >= |s| - from
    ensures (|EscapeQuotesFrom(s, from)| == |s| - from) ==> EscapeQuotesFrom(s, from) == s[from..]
    ensures (exists i :: from <= i < |s| && s[i] == '"' && (i == 0 || s[i - 1] != '\\'))
              <==> |EscapeQuotesFrom(s, from)| > |s| - from
    decreases |s| - from
  {
    if from < |s| {
      EscapeQuotesFromLength(s, from + 1);
      assert s[from..] == [s[from]] + s[from + 1..];
      if exists i :: from <= i < |s| && s[i] == '"' && (i == 0 || s[i - 1] != '\\') {
        var i :| from <= i < |s| && s[i] == '"' && (i == 0 || s[i - 1] != '\\');
        if i > from {
          assert from + 1 <= i;
        }
      }
    }
  }

  /** A name is left unchanged exactly when its double quotes are already escaped, so escaping
      twice is escaping once. */
  lemma EscapeQuotesFixed(s: string)
    ensures EscapeQuotes(s) == s <==> QuotesEscaped(s)
    ensures EscapeQuotes(EscapeQuotes(s)) == EscapeQuotes(s)
  {
    EscapeQuotesFromLength(s, 0);
    assert s[0..] == s;
    if QuotesEscaped(s) {
      assert !exists i :: 0 <= i < |s| && s[i] == '"' && (i == 0 || s[i - 1] != '\\');
    } else {
      var j :| 0 <= j < |s| && s[j] == '"' && !(j > 0 && s[j - 1] == '\\');
      assert s[j] == '"' && (j == 0 || s[j - 1] != '\\');
    }
    EscapeQuotesEscapes(s);
    var e := EscapeQuotes(s);
    EscapeQuotesFromLength(e, 0);
    assert e[0..] == e;
    assert !exists i :: 0 <= i < |e| && e[i] == '"' && (i == 0 || e[i - 1] != '\\');
  }

  /** `fileName` is run whole for a context (the name filter selects its tests), at the line
      for one test. */
  function TestTarget(fileName: string, line: Option<nat>, testName: Option<string>, forLines: Option<seq<nat>>)
    : string
  {
    if IsContextRun(testName, forLines) then fileName else FileAtLine(fileName, line)
  }

  /** `-n "/<name>/"` for a context, otherwise nothing. */
  function NameFilter(testName: Option<string>, forLines: Option<seq<nat>>): string {
    if IsContextRun(testName, forLines) then "-n " + TestNameFilterRegex(testName.value) else ""
  }

  /** `minitestArgs`: the quoted target and the name filter, joined by ` -- `. */
  function MinitestArgs(target: string, filter: string, windows: bool): string {
    JoinNonEmpty([Quote(target, windows), filter], " -- ")
  }

  /** The test line, a context's lines, or neither: what the arguments hold in each case. */
  lemma MinitestArgsSpec(fileName: string, line: Option<nat>, testName: Option<string>, forLines: Option<seq<nat>>,
                         windows: bool)
    ensures var args := MinitestArgs(TestTarget(fileName, line, testName, forLines), NameFilter(testName, forLines), windows);
            && (IsContextRun(testName, forLines) ==>
                  args == Quote(fileName, windows) + " -- " + "-n " + TestNameFilterRegex(testName.value))
            && (!IsContextRun(testName, forLines) ==> args == Quote(FileAtLine(fileName, line), windows))
  {
    JoinNonEmpty2(Quote(TestTarget(fileName, line, testName, forLines), windows), NameFilter(testName, forLines), " -- ");
  }

  /** The decimal forms of the lines. */
  function LineStrings(lines: seq<nat>): (r: seq<string>)
    ensures |r| == |lines|
    ensures forall i :: 0 <= i < |lines| ==> r[i] == NatToString(lines[i])
  {
    if lines == [] then [] else [NatToString(lines[0])] + LineStrings(lines[1..])
  }

  /** `JSON.stringify(lines)` of an array of non-negative integers. */
  function JsonLines(lines: seq<nat>): string {
    "[" + Join(LineStrings(lines), ",") + "]"
  }

  /** `lineNumber`: the JSON array of the run's lines, or `ALL` when there are none. */
  function LineNumberHeader(lines: seq<nat>): string {
    if |lines| > 0 then JsonLines(lines) else "ALL"
  }

  /** `saveRunOptions`: writes the file name, then appends the quoted line header. */
  function SaveRunOptions(fileName: string, header: string, outputFilePath: string, windows: bool): string {
    CmdJoin(["echo " + fileName + " > " + outputFilePath, "echo " + Quote(header, windows) + " >> " + outputFilePath], windows)
  }

  /** The minitest invocation: env prefix, command and arguments, the empty ones left out. */
  function MinitestInvocation(envs: string, cfg: MinitestConfig, args: string): string {
    JoinNonEmpty([envs, cfg.minitestCommand, args], " ")
  }

  /** The invocation of one run: the configured env prefix and the run's arguments. */
  function RunInvocation(cfg: MinitestConfig, helpers: ShellHelpers, fileName: string, line: Option<nat>,
                         testName: Option<string>, forLines: Option<seq<nat>>): string
  {
    MinitestInvocation(helpers.stringifyEnvs(cfg.minitestEnv), cfg,
                       MinitestArgs(TestTarget(fileName, line, testName, forLines), NameFilter(testName, forLines), cfg.windows))
  }

  /** The commands that save the run's file name and line header. */
  function RunOptions(fileName: string, line: Option<nat>, testName: Option<string>, forLines: Option<seq<nat>>,
                      outputFilePath: string, windows: bool): string
  {
    SaveRunOptions(fileName, LineNumberHeader(RunLines(line, testName, forLines)), outputFilePath, windows)
  }

  /** `fullCommand`: after the `cd`, the invocation alone, or with decoration the saved run
      options followed by the invocation piped to the output file. */
  function FullCommand(cdCommand: string, minitest: string, saveRunOptions: string, outputRedirect: string,
                       decorate: bool, windows: bool): string
  {
    if decorate then CmdJoin([cdCommand, saveRunOptions, JoinNonEmpty([minitest, outputRedirect], " ")], windows)
    else CmdJoin([cdCommand, minitest], windows)
  }

  /** The full command in a subshell, or followed by the return command. */
  function WithReturn(returnCommand: ReturnCommand, fullCommand: string, windows: bool): string {
    if returnCommand.InSubshell? then "(" + fullCommand + ")"
    else CmdJoin([fullCommand, returnCommand.command], windows)
  }

  /** `buildMinitestCommand`. */
  function BuildMinitestCommand(cfg: MinitestConfig, helpers: ShellHelpers, outputFilePath: string, fileName: string,
                                line: Option<nat>, testName: Option<string>, forLines: Option<seq<nat>>)
    : Outcome<string>
  {
    var cd := WorkspaceRootCd(cfg.changeDir, cfg.projectPath, cfg.usingBashInWindows, helpers);
    if cd.NoWorkspace? then NoWorkspace
    else
      var minitest := RunInvocation(cfg, helpers, fileName, line, testName, forLines);
      var saveRunOptions := RunOptions(fileName, line, testName, forLines, outputFilePath, cfg.windows);
      var outputRedirect := "| " + helpers.teeCommand(outputFilePath, true, cfg.usingBashInWindows);
      Built(WithReturn(cd.value.returnCommand,
                       FullCommand(cd.value.cdCommand, minitest, saveRunOptions, outputRedirect, cfg.decorate, cfg.windows),
                       cfg.windows))
  }

  /** The run's lines reach the output file as its second line: `ALL` for the whole file, a
      one-element JSON array for a test line, the context's lines for a context. */
  lemma LineNumberHeaderSpec(line: Option<nat>, testName: Option<string>, forLines: Option<seq<nat>>)
    ensures var header := LineNumberHeader(RunLines(line, testName, forLines));
            && (header == "ALL" <==> !IsContextRun(testName, forLines) && !Truthy(line))
            && (!IsContextRun(testName, forLines) && Truthy(line) ==> header == "[" + NatToString(line.value) + "]")
            && (IsContextRun(testName, forLines) ==> header == JsonLines(forLines.value))
  {
    var lines := RunLines(line, testName, forLines);
    if |lines| > 0 {
      assert JsonLines(lines)[0] == '[';
    }
    if !IsContextRun(testName, forLines) && Truthy(line) {
      assert LineStrings(lines) == [NatToString(line.value)];
    }
  }

  /** The newer minitest interpreter does not read a line header written as a JSON array: for
      a test-line or context run it infers no selected test, so a single passing test is not
      recorded, while `ALL` still marks every unreported test passed. */
  lemma HeaderNotReadAsSelector(line: Option<nat>, testName: Option<string>, forLines: Option<seq<nat>>,
                                regions: seq<MinitestInterpreter.MinitestResults.TestRegion>)
    requires IsContextRun(testName, forLines) || Truthy(line)
    ensures var header := LineNumberHeader(RunLines(line, testName, forLines));
            && header != "ALL"
            && MinitestInterpreter.ParseSelector(header).None?
            && MinitestInterpreter.SelectedLine(MinitestInterpreter.ParseSelector(header), regions).None?
  {
    var header := LineNumberHeader(RunLines(line, testName, forLines));
    assert header[0] == '[';
    MinitestInterpreter.ArraySelectorIgnored(header, regions);
  }

  /** The invocation always ends with the run's arguments, which are never empty. */
  lemma RunInvocationEnds(cfg: MinitestConfig, helpers: ShellHelpers, fileName: string, line: Option<nat>,
                          testName: Option<string>, forLines: Option<seq<nat>>)
    ensures var args := MinitestArgs(TestTarget(fileName, line, testName, forLines), NameFilter(testName, forLines), cfg.windows);
            args != "" && EndsWith(RunInvocation(cfg, helpers, fileName, line, testName, forLines), args)
  {
    var envs := helpers.stringifyEnvs(cfg.minitestEnv);
    var args := MinitestArgs(TestTarget(fileName, line, testName, forLines), NameFilter(testName, forLines), cfg.windows);
    MinitestArgsSpec(fileName, line, testName, forLines, cfg.windows);
    JoinNonEmpty3(envs, cfg.minitestCommand, args, " ");
    assert EndsWith(args, args);
    GlueKeepsEnd(cfg.minitestCommand, args, " ", args);
    GlueKeepsEnd(envs, Glue(cfg.minitestCommand, args, " "), " ", args);
  }

  /** For a single test or a whole file, with no env prefix, the invocation is exactly
      `<command> '<target>'`. */
  lemma PlainRunInvocation(cfg: MinitestConfig, helpers: ShellHelpers, fileName: string, line: Option<nat>,
                           testName: Option<string>, forLines: Option<seq<nat>>)
    requires cfg.minitestCommand != "" && helpers.stringifyEnvs(cfg.minitestEnv) == ""
    requires !IsContextRun(testName, forLines)
    ensures RunInvocation(cfg, helpers, fileName, line, testName, forLines)
              == cfg.minitestCommand + " " + Quote(FileAtLine(fileName, line), cfg.windows)
  {
    var q := Quote(FileAtLine(fileName, line), cfg.windows);
    MinitestArgsSpec(fileName, line, testName, forLines, cfg.windows);
    JoinNonEmpty3("", cfg.minitestCommand, q, " ");
  }

  /** The saved run options are two `echo` commands: the file name overwrites the output file,
      then the quoted line header is appended to it. */
  lemma SaveRunOptionsSpec(fileName: string, header: string, outputFilePath: string, windows: bool)
    ensures SaveRunOptions(fileName, header, outputFilePath, windows)
              == "echo " + fileName + " > " + outputFilePath + CmdSeparator(windows)
                 + "echo " + Quote(header, windows) + " >> " + outputFilePath
  {
    var first := "echo " + fileName + " > " + outputFilePath;
    var second := "echo " + Quote(header, windows) + " >> " + outputFilePath;
    assert first[0] == 'e' && second[0] == 'e';
    CmdJoinPair(first, second, windows);
  }

  /** Without a `cd` the command is the invocation alone, or with decoration the saved run
      options and then the invocation piped through the redirect. */
  lemma FullCommandSpec(cdCommand: string, minitest: string, saveRunOptions: string, outputRedirect: string,
                        decorate: bool, windows: bool)
    requires minitest != "" && saveRunOptions != "" && outputRedirect != ""
    ensures var r := FullCommand(cdCommand, minitest, saveRunOptions, outputRedirect, decorate, windows);
            var sep := CmdSeparator(windows);
            && (cdCommand == "" && !decorate ==> r == minitest)
            && (cdCommand == "" && decorate ==> r == saveRunOptions + sep + (minitest + " " + outputRedirect))
            && (cdCommand != "" && !decorate ==> r == cdCommand + sep + minitest)
            && (cdCommand != "" && decorate ==>
                  r == cdCommand + sep + (saveRunOptions + sep + (minitest + " " + outputRedirect)))
  {
    JoinNonEmpty2(minitest, outputRedirect, " ");
    var piped := JoinNonEmpty([minitest, outputRedirect], " ");
    JoinNonEmpty3(cdCommand, saveRunOptions, piped, CmdSeparator(windows));
    JoinNonEmpty2(cdCommand, minitest, CmdSeparator(windows));
  }

  /** The command fails only for want of a workspace when changing to the root is on. Without
      a `cd` it is the invocation alone, or with decoration the saved run options followed by
      the invocation piped to the output file; with a root it runs between the `cd` and the
      return command. */
  lemma BuildMinitestCommandSpec(cfg: MinitestConfig, helpers: ShellHelpers, outputFilePath: string, fileName: string,
                                 line: Option<nat>, testName: Option<string>, forLines: Option<seq<nat>>)
    ensures var r := BuildMinitestCommand(cfg, helpers, outputFilePath, fileName, line, testName, forLines);
            var minitest := RunInvocation(cfg, helpers, fileName, line, testName, forLines);
            var save := RunOptions(fileName, line, testName, forLines, outputFilePath, cfg.windows);
            var redirect := "| " + helpers.teeCommand(outputFilePath, true, cfg.usingBashInWindows);
            var sep := CmdSeparator(cfg.windows);
            && (r.NoWorkspace? <==> cfg.changeDir && cfg.projectPath.None?)
            && (!cfg.changeDir && !cfg.decorate ==> r == Built(minitest))
            && (!cfg.changeDir && cfg.decorate ==> r == Built(save + sep + (minitest + " " + redirect)))
            && (cfg.changeDir && cfg.projectPath.Some? ==>
                  var pair := helpers.cdCommands(cfg.projectPath.value, cfg.usingBashInWindows);
                  r == Built(WithReturn(pair.returnCommand, FullCommand(pair.cdCommand, minitest, save, redirect, cfg.decorate, cfg.windows),
                                        cfg.windows)))
  {
    var minitest := RunInvocation(cfg, helpers, fileName, line, testName, forLines);
    var save := RunOptions(fileName, line, testName, forLines, outputFilePath, cfg.windows);
    var redirect := "| " + helpers.teeCommand(outputFilePath, true, cfg.usingBashInWindows);
    RunInvocationEnds(cfg, helpers, fileName, line, testName, forLines);
    SaveRunOptionsSpec(fileName, LineNumberHeader(RunLines(line, testName, forLines)), outputFilePath, cfg.windows);
    if !cfg.changeDir {
      FullCommandSpec("", minitest, save, redirect, cfg.decorate, cfg.windows);
      var full := FullCommand("", minitest, save, redirect, cfg.decorate, cfg.windows);
      JoinNonEmpty2(full, "", CmdSeparator(cfg.windows));
    }
  }

  /** `buildMinitestDebugConfig`. Unlike the command, it appends any given line, 0 included. */
  function DebugTarget(fileName: string, line: Option<nat>, testName: Option<string>, forLines: Option<seq<nat>>)
    : string
  {
    if IsContextRun(testName, forLines) then fileName
    else if line.Some? then fileName + ":" + NatToString(line.value)
    else fileName
  }

  /** The arguments the debugger runs. */
  function DebugArgs(cfg: MinitestConfig, fileName: string, line: Option<nat>, testName: Option<string>,
                     forLines: Option<seq<nat>>): string
  {
    MinitestArgs(DebugTarget(fileName, line, testName, forLines), NameFilter(testName, forLines), cfg.windows)
  }

  /** The debugger's working directory: none unless changing to the root is on. */
  function DebugCwd(cfg: MinitestConfig): Outcome<Option<string>> {
    if !cfg.changeDir then Built(None) else if cfg.projectPath.None? then NoWorkspace else Built(cfg.projectPath)
  }

  function BuildMinitestDebugConfig(cfg: MinitestConfig, fileName: string, line: Option<nat>, testName: Option<string>,
                                    forLines: Option<seq<nat>>): Outcome<Option<MinitestDebugConfig>>
  {
    var args := DebugArgs(cfg, fileName, line, testName, forLines);
    var cwd := DebugCwd(cfg);
    match cfg.rubyDebugger
    case Rdbg =>
      if cwd.NoWorkspace? then NoWorkspace
      else Built(Some(MinitestRdbg(cfg.minitestCommand, args, cfg.minitestEnv, cwd.value)))
    case RubyLsp =>
      if cwd.NoWorkspace? then NoWorkspace
      else Built(Some(MinitestRubyLsp(JoinNonEmpty([cfg.minitestCommand, args], " "), cfg.minitestEnv, cwd.value)))
    case OtherDebugger(_) => Built(None)
  }

  /** Reading the root fails without a workspace only for a debugger that is configured; any
      other debugger gets no configuration; the working directory is the root exactly when
      changing to it is on. */
  lemma DebugConfigOutcome(cfg: MinitestConfig, fileName: string, line: Option<nat>, testName: Option<string>,
                           forLines: Option<seq<nat>>)
    ensures var r := BuildMinitestDebugConfig(cfg, fileName, line, testName, forLines);
            && (r.NoWorkspace? <==> !cfg.rubyDebugger.OtherDebugger? && cfg.changeDir && cfg.projectPath.None?)
            && (r.Built? ==> (r.value.None? <==> cfg.rubyDebugger.OtherDebugger?))
            && (r.Built? && r.value.Some? ==>
                  (r.value.value.cwd.Some? <==> cfg.changeDir) && (cfg.changeDir ==> r.value.value.cwd == cfg.projectPath))
  {
  }

  /** The debugger is given the target the command runs, except for line 0: the command then
      runs the whole file while the debugger is given `<file>:0`. */
  lemma {:induction false} DebugTargetAgrees(fileName: string, line: Option<nat>, testName: Option<string>,
                                             forLines: Option<seq<nat>>)
    ensures line != Some(0) ==> DebugTarget(fileName, line, testName, forLines) == TestTarget(fileName, line, testName, forLines)
    ensures !IsContextRun(testName, forLines) && line == Some(0) ==>
              TestTarget(fileName, line, testName, forLines) == fileName
              && DebugTarget(fileName, line, testName, forLines) == fileName + ":0"
  {
    if line == Some(0) {
      assert DigitChar(0) == '0';
      assert NatToString(0) == "0";
    }
  }

  /** Away from line 0, rdbg runs the command's arguments as its script and Ruby LSP runs the
      invocation without env prefix. */
  lemma DebugArgsSpec(cfg: MinitestConfig, fileName: string, line: Option<nat>, testName: Option<string>,
                      forLines: Option<seq<nat>>)
    requires line != Some(0)
    ensures var r := BuildMinitestDebugConfig(cfg, fileName, line, testName, forLines);
            var commandArgs := MinitestArgs(TestTarget(fileName, line, testName, forLines), NameFilter(testName, forLines), cfg.windows);
            r.Built? && r.value.Some? ==>
              if r.value.value.MinitestRdbg? then r.value.value.script == commandArgs && r.value.value.command == cfg.minitestCommand
              else r.value.value.program == MinitestInvocation("", cfg, commandArgs)
  {
    DebugTargetAgrees(fileName, line, testName, forLines);
    var args := DebugArgs(cfg, fileName, line, testName, forLines);
    JoinNonEmpty3("", cfg.minitestCommand, args, " ");
    JoinNonEmpty2(cfg.minitestCommand, args, " ");
  }

  /** `runTestForFile`: builds a debug configuration or a command for the remapped path, then
      marks the original file as awaiting a run; when that fails for want of a workspace it
      reports so and leaves the stored results alone. */
  method RunTestForFile(store: ResultStore, cfg: MinitestConfig, helpers: ShellHelpers, outputFilePath: string,
                        fileName: string, line: Option<nat>, testName: Option<string>, debugging: bool,
                        forLines: Option<seq<nat>>)
    returns (action: RunAction<MinitestDebugConfig>)
    modifies store
    ensures debugging && BuildMinitestDebugConfig(cfg, helpers.remapPath(fileName), line, testName, forLines).NoWorkspace? ==>
              action == NoWorkspaceMessage && store.testResults == old(store.testResults)
    ensures !debugging && BuildMinitestCommand(cfg, helpers, outputFilePath, helpers.remapPath(fileName), line, testName, forLines).NoWorkspace? ==>
              action == NoWorkspaceMessage && store.testResults == old(store.testResults)
    ensures !debugging && BuildMinitestCommand(cfg, helpers, outputFilePath, helpers.remapPath(fileName), line, testName, forLines).Built? ==>
              action == SendCommand(BuildMinitestCommand(cfg, helpers, outputFilePath, helpers.remapPath(fileName), line, testName, forLines).value)
    ensures debugging && BuildMinitestDebugConfig(cfg, helpers.remapPath(fileName), line, testName, forLines).Built? ==>
              var d := BuildMinitestDebugConfig(cfg, helpers.remapPath(fileName), line, testName, forLines).value;
              action == (if d.Some? then StartDebugging(d.value) else NoDebugConfig)
    ensures action != NoWorkspaceMessage ==>
              if fileName in old(store.testResults) then
                store.testResults == old(store.testResults)[fileName := old(store.testResults)[fileName].(testRunPending := true)]
              else store.testResults == old(store.testResults)
  {
    var path := helpers.remapPath(fileName);
    if debugging {
      var debugConfig := BuildMinitestDebugConfig(cfg, path, line, testName, forLines);
      if debugConfig.NoWorkspace? {
        return NoWorkspaceMessage;
      }
      action := if debugConfig.value.Some? then StartDebugging(debugConfig.value.value) else NoDebugConfig;
    } else {
      var command := BuildMinitestCommand(cfg, helpers, outputFilePath, path, line, testName, forLines);
      if command.NoWorkspace? {
        return NoWorkspaceMessage;
      }
      action := SendCommand(command.value);
    }
    store.SetPending(fileName);
  }
}
