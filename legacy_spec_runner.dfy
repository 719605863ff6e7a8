/** src/SpecRunner.ts, the predecessor of the RSpec runner: a plain command, optionally after
    a `cd` to the workspace root, with neither JSON output, env prefix, debugging nor a
    pending mark. */
module LegacySpecRunner {
  import opened Strings
  import opened Types
  import opened Util
  import opened RspecRunner

  /** `buildRspecCommand`: `<command> -f <letter> '<target>'`, after the `cd` when there is
      one. Only the command, format, root and host family of the settings are read. */
  function BuildRspecCommand(cfg: RspecConfig, fileName: string, line: Option<nat>): Outcome<string> {
    var cd := LegacyRootCd(cfg.changeDir, cfg.projectPath, cfg.windows);
    if cd.NoWorkspace? then NoWorkspace
    else
      var rspec := cfg.rspecCommand + " " + ("-f " + cfg.rspecFormat) + " " + Quote(FileAtLine(fileName, line), cfg.windows);
      Built(CmdJoin([cd.value, rspec], cfg.windows))
  }

  /** `runSpecForFile`: the built command for the terminal, or the no-workspace message exactly
      when building it throws `NoWorkspaceError`. */
  function RunSpecForFile(cfg: RspecConfig, fileName: string, line: Option<nat>): (a: RunAction<RspecDebugConfig>)
    ensures a.SendCommand? || a == NoWorkspaceMessage
    ensures a == NoWorkspaceMessage <==> cfg.changeDir && cfg.projectPath.None?
    ensures a.SendCommand? ==> BuildRspecCommand(cfg, fileName, line).Built?
                               && a.command == BuildRspecCommand(cfg, fileName, line).value
  {
    var command := BuildRspecCommand(cfg, fileName, line);
    if command.NoWorkspace? then NoWorkspaceMessage else SendCommand(command.value)
  }

  /** The command fails only for want of a workspace when changing to the root is on; it is
      the plain invocation, prefixed by `cd '<root>'` and the separator when changing to the
      root, and it always ends with the quoted target. */
  lemma BuildRspecCommandSpec(cfg: RspecConfig, fileName: string, line: Option<nat>)
    ensures var r := BuildRspecCommand(cfg, fileName, line);
            var rspec := cfg.rspecCommand + " " + ("-f " + cfg.rspecFormat) + " " + Quote(FileAtLine(fileName, line), cfg.windows);
            && (r.NoWorkspace? <==> cfg.changeDir && cfg.projectPath.None?)
            && (!cfg.changeDir ==> r == Built(rspec))
            && (cfg.changeDir && cfg.projectPath.Some? ==>
                  r == Built("cd " + Quote(cfg.projectPath.value, cfg.windows) + CmdSeparator(cfg.windows) + rspec))
            && (r.Built? ==> EndsWith(r.value, Quote(FileAtLine(fileName, line), cfg.windows)))
  {
    var q := Quote(FileAtLine(fileName, line), cfg.windows);
    var rspec := cfg.rspecCommand + " " + ("-f " + cfg.rspecFormat) + " " + q;
    assert EndsWith(rspec, q) by {
      assert rspec[|rspec| - |q|..] == q;
    }
    var cd := LegacyRootCd(cfg.changeDir, cfg.projectPath, cfg.windows);
    if cd.Built? {
      JoinNonEmpty2(cd.value, rspec, CmdSeparator(cfg.windows));
      GlueKeepsEnd(cd.value, rspec, CmdSeparator(cfg.windows), q);
    }
  }

  /** The newer runner, with JSON output off, no env prefix, not failed-only, and `cdCommands`
      giving the same `cd` with an empty return, builds the very command of the older one. */
  lemma SameCommandAsNewerRunner(cfg: RspecConfig, helpers: ShellHelpers, outputFilePath: string, fileName: string,
                                 line: Option<nat>)
    requires !cfg.decorate && cfg.rspecCommand != "" && helpers.stringifyEnvs(cfg.rspecEnv) == ""
    requires cfg.projectPath.Some? ==>
               helpers.cdCommands(cfg.projectPath.value, cfg.usingBashInWindows)
                 == CdPair("cd " + Quote(cfg.projectPath.value, cfg.windows), ReturnWith(""))
    ensures RspecRunner.BuildRspecCommand(cfg, helpers, outputFilePath, fileName, false, line)
              == BuildRspecCommand(cfg, fileName, line)
  {
    RspecRunner.BuildRspecCommandSpec(cfg, helpers, outputFilePath, fileName, false, line);
    BuildRspecCommandSpec(cfg, fileName, line);
    PlainRspecInvocation(cfg, outputFilePath, fileName, line);
    var rspec := RspecInvocation("", cfg, outputFilePath, fileName, false, line);
    if cfg.changeDir && cfg.projectPath.Some? {
      ChainedInRootSpec(helpers.cdCommands(cfg.projectPath.value, cfg.usingBashInWindows), rspec, cfg.windows);
    }
  }
}
