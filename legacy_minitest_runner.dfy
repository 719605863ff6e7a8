/** src/MinitestRunner.ts, the predecessor of the minitest runner: a plain command for a file
    or a test line, optionally after a `cd` to the workspace root, followed by the pending
    mark. It has neither a name filter, an env prefix, saved run options nor debugging. */
module LegacyMinitestRunner {
  import opened Strings
  import opened Types
  import opened Util
  import opened Presenter
  import MinitestRunner

  /** `buildMinitestCommand`: `<command> '<target>'`, after the `cd` when there is one. Only the
      command, the root and the host family of the settings are read. */
  function BuildMinitestCommand(cfg: MinitestRunner.MinitestConfig, fileName: string, line: Option<nat>)
    : Outcome<string>
  {
    var cd := LegacyRootCd(cfg.changeDir, cfg.projectPath, cfg.windows);
    if cd.NoWorkspace? then NoWorkspace
    else Built(CmdJoin([cd.value, cfg.minitestCommand + " " + Quote(FileAtLine(fileName, line), cfg.windows)], cfg.windows))
  }

  /** The command fails only for want of a workspace when changing to the root is on; it is the
      plain invocation, prefixed by `cd '<root>'` and the separator when changing to the root,
      and it always ends with the quoted target. */
  lemma BuildMinitestCommandSpec(cfg: MinitestRunner.MinitestConfig, fileName: string, line: Option<nat>)
    ensures var r := BuildMinitestCommand(cfg, fileName, line);
            var minitest := cfg.minitestCommand + " " + Quote(FileAtLine(fileName, line), cfg.windows);
            && (r.NoWorkspace? <==> cfg.changeDir && cfg.projectPath.None?)
            && (!cfg.changeDir ==> r == Built(minitest))
            && (cfg.changeDir && cfg.projectPath.Some? ==>
                  r == Built("cd " + Quote(cfg.projectPath.value, cfg.windows) + CmdSeparator(cfg.windows) + minitest))
            && (r.Built? ==> EndsWith(r.value, Quote(FileAtLine(fileName, line), cfg.windows)))
  {
    var q := Quote(FileAtLine(fileName, line), cfg.windows);
    var minitest := cfg.minitestCommand + " " + q;
    assert EndsWith(minitest, q) by {
      assert minitest[|minitest| - |q|..] == q;
    }
    var cd := LegacyRootCd(cfg.changeDir, cfg.projectPath, cfg.windows);
    if cd.Built? {
      JoinNonEmpty2(cd.value, minitest, CmdSeparator(cfg.windows));
      GlueKeepsEnd(cd.value, minitest, CmdSeparator(cfg.windows), q);
    }
  }

  /** `runTestForFile`: the command for the terminal, after which the file is marked as
      awaiting a run; without a workspace it reports so and leaves the stored results alone. */
  method RunTestForFile(store: ResultStore, cfg: MinitestRunner.MinitestConfig, fileName: string, line: Option<nat>)
    returns (action: RunAction<MinitestRunner.MinitestDebugConfig>)
    modifies store
    ensures BuildMinitestCommand(cfg, fileName, line).NoWorkspace? ==>
              action == NoWorkspaceMessage && store.testResults == old(store.testResults)
    ensures BuildMinitestCommand(cfg, fileName, line).Built? ==>
              action == SendCommand(BuildMinitestCommand(cfg, fileName, line).value)
              && if fileName in old(store.testResults) then
                   store.testResults == old(store.testResults)[fileName := old(store.testResults)[fileName].(testRunPending := true)]
                 else store.testResults == old(store.testResults)
  {
    var command := BuildMinitestCommand(cfg, fileName, line);
    if command.NoWorkspace? {
      return NoWorkspaceMessage;
    }
    action := SendCommand(command.value);
    store.SetPending(fileName);
  }

  /** The newer runner, for a single test or a whole file, with decoration off, no env prefix,
      no path remapping and `cdCommands` giving the same `cd` with an empty return, builds the
      very command of the older one. */
  lemma SameCommandAsNewerRunner(cfg: MinitestRunner.MinitestConfig, helpers: ShellHelpers, outputFilePath: string,
                                 fileName: string, line: Option<nat>, testName: Option<string>,
                                 forLines: Option<seq<nat>>)
    requires !cfg.decorate && cfg.minitestCommand != "" && helpers.stringifyEnvs(cfg.minitestEnv) == ""
    requires !MinitestRunner.IsContextRun(testName, forLines)
    requires cfg.projectPath.Some? ==>
               helpers.cdCommands(cfg.projectPath.value, cfg.usingBashInWindows)
                 == CdPair("cd " + Quote(cfg.projectPath.value, cfg.windows), ReturnWith(""))
    ensures MinitestRunner.BuildMinitestCommand(cfg, helpers, outputFilePath, fileName, line, testName, forLines)
              == BuildMinitestCommand(cfg, fileName, line)
  {
    MinitestRunner.PlainRunInvocation(cfg, helpers, fileName, line, testName, forLines);
    var minitest := MinitestRunner.RunInvocation(cfg, helpers, fileName, line, testName, forLines);
    var save := MinitestRunner.RunOptions(fileName, line, testName, forLines, outputFilePath, cfg.windows);
    var redirect := "| " + helpers.teeCommand(outputFilePath, true, cfg.usingBashInWindows);
    var sep := CmdSeparator(cfg.windows);
    var cd := LegacyRootCd(cfg.changeDir, cfg.projectPath, cfg.windows);
    if cd.Built? {
      assert save != "" by {
        MinitestRunner.SaveRunOptionsSpec(fileName, MinitestRunner.LineNumberHeader(MinitestRunner.RunLines(line, testName, forLines)),
                                          outputFilePath, cfg.windows);
      }
      MinitestRunner.FullCommandSpec(cd.value, minitest, save, redirect, false, cfg.windows);
      var full := MinitestRunner.FullCommand(cd.value, minitest, save, redirect, false, cfg.windows);
      JoinNonEmpty2(full, "", sep);
      JoinNonEmpty2(cd.value, minitest, sep);
      assert MinitestRunner.WithReturn(ReturnWith(""), full, cfg.windows) == CmdJoin([cd.value, minitest], cfg.windows);
    }
  }
}
