/** src/rspec/SpecRunner.ts: the shell command or debug configuration that runs RSpec for a
    file or one of its lines, and the pending mark that follows. The terminal, the debugger
    launch and the error notification are outside the model; what the runner hands to them is
    its result. */
module RspecRunner {
  import opened Strings
  import opened Types
  import opened Util
  import opened Presenter

  /** The settings the runner reads: `rspecCommand`, the `-f` letter, `rspecEnv`,
      `rspecDebugEnv`, `rspecDecorateEditorWithResults`, `changeDirectoryToWorkspaceRoot`, the
      project root (`None` when reading it throws), `usingBashInWindows`, `rubyDebugger`, and
      whether the host is Windows. */
  datatype RspecConfig = RspecConfig(
    rspecCommand: string,
    rspecFormat: string,
    rspecEnv: map<string, string>,
    rspecDebugEnv: map<string, string>,
    decorate: bool,
    changeDir: bool,
    projectPath: Option<string>,
    usingBashInWindows: bool,
    rubyDebugger: RubyDebugger,
    windows: bool)

  /** The debug configurations `buildRspecDebugConfig` returns, without their constant fields
      (`type`, `name`, `request`, `askParameters`, `useTerminal`). */
  datatype RspecDebugConfig =
    | RspecRdbg(command: string, script: string, env: map<string, string>, args: seq<string>, cwd: Option<string>)
    | RspecRubyLsp(program: string, env: map<string, string>, cwd: Option<string>)

  /** `-f j --out '<file>'` when results decorate the editor, otherwise nothing. */
  function JsonOutput(cfg: RspecConfig, outputFilePath: string): string {
    if cfg.decorate then "-f j --out " + Quote(outputFilePath, cfg.windows) else ""
  }

  /** The rspec invocation itself: env prefix, command, `--only-failures`, format, JSON output
      and the quoted target, the empty ones left out, separated by single spaces. */
  function RspecInvocation(envs: string, cfg: RspecConfig, outputFilePath: string, fileName: string,
                           failedOnly: bool, line: Option<nat>): string
  {
    JoinNonEmpty([envs, cfg.rspecCommand, if failedOnly then "--only-failures" else "", "-f " + cfg.rspecFormat,
                  JsonOutput(cfg, outputFilePath), Quote(FileAtLine(fileName, line), cfg.windows)], " ")
  }

  /** The `cd`, a command and the return command chained; a `false` return command runs the
      `cd` and the command in a subshell instead. */
  function ChainedInRoot(pair: CdPair, command: string, windows: bool): string {
    var returnCommand := if pair.returnCommand.ReturnWith? then pair.returnCommand.command else "";
    var fullCommand := CmdJoin([pair.cdCommand, command, returnCommand], windows);
    if pair.returnCommand.InSubshell? then "(" + fullCommand + ")" else fullCommand
  }

  /** Without a `cd` the command runs alone; with a `cd` and a return command the three are
      chained; with a `false` return command the `cd` and the command run in a subshell. */
  lemma ChainedInRootSpec(pair: CdPair, command: string, windows: bool)
    requires command != ""
    ensures var r := ChainedInRoot(pair, command, windows);
            var sep := CmdSeparator(windows);
            && (pair == CdPair("", ReturnWith("")) ==> r == command)
            && (pair.cdCommand != "" && pair.returnCommand == InSubshell ==> r == "(" + pair.cdCommand + sep + command + ")")
            && (pair.cdCommand != "" && pair.returnCommand == ReturnWith("") ==> r == pair.cdCommand + sep + command)
            && (pair.cdCommand != "" && pair.returnCommand.ReturnWith? && pair.returnCommand.command != "" ==>
                  r == pair.cdCommand + sep + command + sep + pair.returnCommand.command)
  {
    var c := pair.cdCommand;
    var sep := CmdSeparator(windows);
    var ret := if pair.returnCommand.ReturnWith? then pair.returnCommand.command else "";
    JoinNonEmpty3(c, command, ret, sep);
    if c != "" && ret == "" {
      assert CmdJoin([c, command, ret], windows) == c + sep + command;
      assert "(" + (c + sep + command) + ")" == "(" + c + sep + command + ")";
    }
    if c != "" && ret != "" {
      assert CmdJoin([c, command, ret], windows) == c + sep + (command + sep + ret);
      assert c + sep + (command + sep + ret) == c + sep + command + sep + ret;
    }
  }

  /** `buildRspecCommand`: the invocation chained between the `cd` to the workspace root and
      the return command. */
  function BuildRspecCommand(cfg: RspecConfig, helpers: ShellHelpers, outputFilePath: string, fileName: string,
                             failedOnly: bool, line: Option<nat>): Outcome<string>
  {
    var cd := WorkspaceRootCd(cfg.changeDir, cfg.projectPath, cfg.usingBashInWindows, helpers);
    if cd.NoWorkspace? then NoWorkspace
    else
      var rspec := RspecInvocation(helpers.stringifyEnvs(cfg.rspecEnv), cfg, outputFilePath, fileName, failedOnly, line);
      Built(ChainedInRoot(cd.value, rspec, cfg.windows))
  }

  /** The invocation always ends with the quoted target. */
  lemma RspecInvocationEnds(envs: string, cfg: RspecConfig, outputFilePath: string, fileName: string,
                            failedOnly: bool, line: Option<nat>)
    ensures EndsWith(RspecInvocation(envs, cfg, outputFilePath, fileName, failedOnly, line),
                     Quote(FileAtLine(fileName, line), cfg.windows))
  {
    JoinNonEmptyEndsWithLast([envs, cfg.rspecCommand, if failedOnly then "--only-failures" else "", "-f " + cfg.rspecFormat,
                              JsonOutput(cfg, outputFilePath), Quote(FileAtLine(fileName, line), cfg.windows)], " ");
  }

  /** Without an env prefix, the failed-only flag and JSON output the invocation is exactly
      `<command> -f <letter> '<target>'`, the command the older runner builds. */
  lemma PlainRspecInvocation(cfg: RspecConfig, outputFilePath: string, fileName: string, line: Option<nat>)
    requires !cfg.decorate && cfg.rspecCommand != ""
    ensures RspecInvocation("", cfg, outputFilePath, fileName, false, line)
              == cfg.rspecCommand + " " + ("-f " + cfg.rspecFormat) + " " + Quote(FileAtLine(fileName, line), cfg.windows)
  {
    JoinNonEmpty6("", cfg.rspecCommand, "", "-f " + cfg.rspecFormat, "", Quote(FileAtLine(fileName, line), cfg.windows), " ");
  }

  /** The command fails only for want of a workspace, when changing to the root is enabled;
      without a `cd` it is the invocation alone, otherwise the invocation chained around the
      `cdCommands` of the root. */
  lemma BuildRspecCommandSpec(cfg: RspecConfig, helpers: ShellHelpers, outputFilePath: string, fileName: string,
                              failedOnly: bool, line: Option<nat>)
    ensures var r := BuildRspecCommand(cfg, helpers, outputFilePath, fileName, failedOnly, line);
            var rspec := RspecInvocation(helpers.stringifyEnvs(cfg.rspecEnv), cfg, outputFilePath, fileName, failedOnly, line);
            && (r.NoWorkspace? <==> cfg.changeDir && cfg.projectPath.None?)
            && (!cfg.changeDir ==> r == Built(rspec))
            && (cfg.changeDir && cfg.projectPath.Some? ==>
                  r == Built(ChainedInRoot(helpers.cdCommands(cfg.projectPath.value, cfg.usingBashInWindows), rspec, cfg.windows)))
            && (r.Built? ==> EndsWith(rspec, Quote(FileAtLine(fileName, line), cfg.windows)))
  {
    var rspec := RspecInvocation(helpers.stringifyEnvs(cfg.rspecEnv), cfg, outputFilePath, fileName, failedOnly, line);
    RspecInvocationEnds(helpers.stringifyEnvs(cfg.rspecEnv), cfg, outputFilePath, fileName, failedOnly, line);
    if !cfg.changeDir {
      ChainedInRootSpec(CdPair("", ReturnWith("")), rspec, cfg.windows);
    }
  }

  /** `buildRspecDebugConfig`: rdbg gets the command, the quoted target as script, the debug
      env over the run env, the format and JSON arguments and the root as working directory
      when enabled; Ruby LSP gets the whole invocation as one program string with the run env;
      any other debugger gets nothing. Reading the root fails without a workspace. */
  function BuildRspecDebugConfig(cfg: RspecConfig, outputFilePath: string, fileName: string, line: Option<nat>)
    : Outcome<Option<RspecDebugConfig>>
  {
    var cwd: Outcome<Option<string>> :=
      if !cfg.changeDir then Built(None) else if cfg.projectPath.None? then NoWorkspace else Built(cfg.projectPath);
    match cfg.rubyDebugger
    case Rdbg =>
      if cwd.NoWorkspace? then NoWorkspace
      else
        var json := JsonOutput(cfg, outputFilePath);
        Built(Some(RspecRdbg(cfg.rspecCommand, Quote(FileAtLine(fileName, line), cfg.windows),
                             cfg.rspecEnv + cfg.rspecDebugEnv,
                             NonEmpty(["-f " + cfg.rspecFormat, json]), cwd.value)))
    case RubyLsp =>
      if cwd.NoWorkspace? then NoWorkspace
      else
        var program := JoinNonEmpty([cfg.rspecCommand, "-f " + cfg.rspecFormat, JsonOutput(cfg, outputFilePath),
                                     Quote(FileAtLine(fileName, line), cfg.windows)], " ");
        Built(Some(RspecRubyLsp(program, cfg.rspecEnv, cwd.value)))
    case OtherDebugger(_) => Built(None)
  }

  /** A configuration is built for rdbg and Ruby LSP alone, and fails only for want of a
      workspace when changing to the root is enabled; its working directory is then the root. */
  lemma DebugConfigOutcome(cfg: RspecConfig, outputFilePath: string, fileName: string, line: Option<nat>)
    ensures var r := BuildRspecDebugConfig(cfg, outputFilePath, fileName, line);
            && (r.NoWorkspace? <==> !cfg.rubyDebugger.OtherDebugger? && cfg.changeDir && cfg.projectPath.None?)
            && (r.Built? ==> (r.value.None? <==> cfg.rubyDebugger.OtherDebugger?))
            && (r.Built? && r.value.Some? ==>
                  (r.value.value.cwd.Some? <==> cfg.changeDir) && (cfg.changeDir ==> r.value.value.cwd == cfg.projectPath))
  {
  }

  /** rdbg's arguments are the format and, when decorating, the JSON output; its script is the
      quoted target; its env holds every run and debug variable, the debug value winning. */
  lemma RdbgConfigSpec(cfg: RspecConfig, outputFilePath: string, fileName: string, line: Option<nat>)
    requires cfg.rubyDebugger == Rdbg && BuildRspecDebugConfig(cfg, outputFilePath, fileName, line).Built?
    ensures var c := BuildRspecDebugConfig(cfg, outputFilePath, fileName, line).value.value;
            && c.RspecRdbg?
            && c.command == cfg.rspecCommand
            && c.script == Quote(FileAtLine(fileName, line), cfg.windows)
            && c.args == ["-f " + cfg.rspecFormat] + (if cfg.decorate then [JsonOutput(cfg, outputFilePath)] else [])
            && c.env.Keys == cfg.rspecEnv.Keys + cfg.rspecDebugEnv.Keys
            && (forall k :: k in cfg.rspecDebugEnv ==> c.env[k] == cfg.rspecDebugEnv[k])
            && (forall k :: k in cfg.rspecEnv && k !in cfg.rspecDebugEnv ==> c.env[k] == cfg.rspecEnv[k])
  {
    var json := JsonOutput(cfg, outputFilePath);
    var f := "-f " + cfg.rspecFormat;
    assert [f, json] == [f] + [json];
    NonEmptyConcat([f], [json]);
    assert NonEmpty([f]) == [f];
    assert [json][1..] == [];
  }

  /** Ruby LSP's program is the terminal invocation without env prefix and without
      `--only-failures`, and it runs with the run env. */
  lemma RubyLspConfigSpec(cfg: RspecConfig, outputFilePath: string, fileName: string, line: Option<nat>)
    requires cfg.rubyDebugger == RubyLsp && BuildRspecDebugConfig(cfg, outputFilePath, fileName, line).Built?
    ensures var c := BuildRspecDebugConfig(cfg, outputFilePath, fileName, line).value.value;
            && c.RspecRubyLsp?
            && c.program == RspecInvocation("", cfg, outputFilePath, fileName, false, line)
            && c.env == cfg.rspecEnv
  {
    var json := JsonOutput(cfg, outputFilePath);
    var f := "-f " + cfg.rspecFormat;
    var q := Quote(FileAtLine(fileName, line), cfg.windows);
    JoinNonEmpty6("", cfg.rspecCommand, "", f, json, q, " ");
    JoinNonEmpty4(cfg.rspecCommand, f, json, q, " ");
  }

  /** `runSpecForFile`: builds a debug configuration or a command for the remapped path, then
      marks the original file as awaiting a run; when that fails for want of a workspace it
      reports so and leaves the stored results alone. */
  method RunSpecForFile(store: ResultStore, cfg: RspecConfig, helpers: ShellHelpers, outputFilePath: string,
                        fileName: string, failedOnly: bool, line: Option<nat>, debugging: bool)
    returns (action: RunAction<RspecDebugConfig>)
    modifies store
    ensures debugging && BuildRspecDebugConfig(cfg, outputFilePath, helpers.remapPath(fileName), line).NoWorkspace? ==>
              action == NoWorkspaceMessage && store.testResults == old(store.testResults)
    ensures !debugging && BuildRspecCommand(cfg, helpers, outputFilePath, helpers.remapPath(fileName), failedOnly, line).NoWorkspace? ==>
              action == NoWorkspaceMessage && store.testResults == old(store.testResults)
    ensures !debugging && BuildRspecCommand(cfg, helpers, outputFilePath, helpers.remapPath(fileName), failedOnly, line).Built? ==>
              action == SendCommand(BuildRspecCommand(cfg, helpers, outputFilePath, helpers.remapPath(fileName), failedOnly, line).value)
    ensures debugging && BuildRspecDebugConfig(cfg, outputFilePath, helpers.remapPath(fileName), line).Built? ==>
              var d := BuildRspecDebugConfig(cfg, outputFilePath, helpers.remapPath(fileName), line).value;
              action == (if d.Some? then StartDebugging(d.value) else NoDebugConfig)
    ensures action != NoWorkspaceMessage ==>
              if fileName in old(store.testResults) then
                store.testResults == old(store.testResults)[fileName := old(store.testResults)[fileName].(testRunPending := true)]
              else store.testResults == old(store.testResults)
  {
    var path := helpers.remapPath(fileName);
    if debugging {
      var debugConfig := BuildRspecDebugConfig(cfg, outputFilePath, path, line);
      if debugConfig.NoWorkspace? {
        return NoWorkspaceMessage;
      }
      action := if debugConfig.value.Some? then StartDebugging(debugConfig.value.value) else NoDebugConfig;
    } else {
      var command := BuildRspecCommand(cfg, helpers, outputFilePath, path, failedOnly, line);
      if command.NoWorkspace? {
        return NoWorkspaceMessage;
      }
      action := SendCommand(command.value);
    }
    store.SetPending(fileName);
  }
}
