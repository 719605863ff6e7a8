/** src/util.ts: shell quoting and command chaining. Whether the host is Windows is a
    parameter instead of a look at `process.platform`. */
module Util {
  import opened Strings
  import opened Types

  /** The quote character of the host shell family. */
  function QuoteChar(windows: bool): char {
    if windows then '"' else '\''
  }

  /** `quote(s)`: `s` between two quote characters, with nothing inside escaped. */
  function Quote(s: string, windows: bool): (r: string)
    ensures |r| == |s| + 2
    ensures r[0] == QuoteChar(windows) && r[|r| - 1] == QuoteChar(windows)
    ensures r[1..|r| - 1] == s
  {
    [QuoteChar(windows)] + s + [QuoteChar(windows)]
  }

  /** The separator `cmdJoin` puts between commands. */
  function CmdSeparator(windows: bool): string {
    if windows then "; " else " && "
  }

  /** `cmdJoin(...args)`: the non-empty commands, in order, chained by the separator. */
  function CmdJoin(args: seq<string>, windows: bool): string {
    JoinNonEmpty(args, CmdSeparator(windows))
  }

  /** With no non-empty command the chain is empty. */
  lemma CmdJoinNothing(args: seq<string>, windows: bool)
    requires forall i :: 0 <= i < |args| ==> args[i] == ""
    ensures CmdJoin(args, windows) == ""
  {
    NonEmptyDropsAll(args);
  }

  /** With exactly one non-empty command the chain is that command, unchanged. */
  lemma CmdJoinSingle(args: seq<string>, windows: bool, k: nat)
    requires k < |args| && args[k] != ""
    requires forall i :: 0 <= i < |args| && i != k ==> args[i] == ""
    ensures CmdJoin(args, windows) == args[k]
  {
    assert args == args[..k] + [args[k]] + args[k + 1..];
    NonEmptyConcat(args[..k] + [args[k]], args[k + 1..]);
    NonEmptyConcat(args[..k], [args[k]]);
    NonEmptyDropsAll(args[..k]);
    NonEmptyDropsAll(args[k + 1..]);
  }

  /** Two non-empty commands are chained with one separator between them. */
  lemma CmdJoinPair(a: string, b: string, windows: bool)
    requires a != "" && b != ""
    ensures CmdJoin([a, b], windows) == a + CmdSeparator(windows) + b
  {
    NonEmptyKeepsAll([a, b]);
    assert [a, b][1..] == [b];
    assert Join([a, b], CmdSeparator(windows)) == a + CmdSeparator(windows) + Join([b], CmdSeparator(windows));
  }

  /** Empty commands anywhere in the argument list make no difference. */
  lemma {:induction false} CmdJoinIgnoresEmpty(pre: seq<string>, post: seq<string>, windows: bool)
    ensures CmdJoin(pre + [""] + post, windows) == CmdJoin(pre + post, windows)
  {
    NonEmptyConcat(pre + [""], post);
    NonEmptyConcat(pre, [""]);
    NonEmptyConcat(pre, post);
    assert [""][1..] == [];
    assert NonEmpty([""]) == [];
    assert NonEmpty(pre + [""] + post) == NonEmpty(pre + post);
  }

  /** `line ? [fileName, ':', line].join('') : fileName`: the file, with the line appended when
      there is one and it is not 0. */
  function FileAtLine(fileName: string, line: Option<nat>): string {
    if Truthy(line) then fileName + ":" + NatToString(line.value) else fileName
  }

  /** The target always starts with the file name; what follows is empty without a line, and
      otherwise a colon and digits that read back as the line. */
  lemma FileAtLineSpec(fileName: string, line: Option<nat>)
    ensures var r := FileAtLine(fileName, line);
            && StartsWith(r, fileName)
            && (!Truthy(line) <==> r == fileName)
            && (Truthy(line) ==> |r| > |fileName| + 1 && r[|fileName|] == ':' && AllDigits(r[|fileName| + 1..])
                                 && ParseDigits(r[|fileName| + 1..]) == line.value)
  {
    if Truthy(line) {
      var r := FileAtLine(fileName, line);
      assert r[..|fileName|] == fileName;
      assert r[|fileName| + 1..] == NatToString(line.value);
      ParseNatToString(line.value);
    }
  }

  /** The second value of `cdCommands`: `false` when the chain must run as a subshell, otherwise
      the command that returns to the previous directory (possibly empty). */
  datatype ReturnCommand = InSubshell | ReturnWith(command: string)

  /** What `cdCommands(projectPath, usingBashInWindows)` returns. */
  datatype CdPair = CdPair(cdCommand: string, returnCommand: ReturnCommand)

  /** A value a runner builds, or the `NoWorkspaceError` that reading the project root threw. */
  datatype Outcome<T> = Built(value: T) | NoWorkspace

  /** The helpers of the newer `util.ts` the runners call, whose bodies are not part of this
      model: `cdCommands`, `stringifyEnvs`, `teeCommand` and `remapPath` (already applied to
      the test path settings). */
  datatype ShellHelpers = ShellHelpers(
    cdCommands: (string, bool) -> CdPair,
    stringifyEnvs: map<string, string> -> string,
    teeCommand: (string, bool, bool) -> string,
    remapPath: string -> string)

  /** `buildChangeDirectoryToWorkspaceRootCommand` of both newer runners: no `cd` and an empty
      return when the setting is off; otherwise `cdCommands` of the project root, which throws
      when there is no workspace. */
  function WorkspaceRootCd(changeDir: bool, projectPath: Option<string>, usingBashInWindows: bool,
                           helpers: ShellHelpers): (r: Outcome<CdPair>)
    ensures r.NoWorkspace? <==> changeDir && projectPath.None?
    ensures !changeDir ==> r == Built(CdPair("", ReturnWith("")))
  {
    if !changeDir then Built(CdPair("", ReturnWith("")))
    else if projectPath.None? then NoWorkspace
    else Built(helpers.cdCommands(projectPath.value, usingBashInWindows))
  }

  /** `buildChangeDirectoryToWorkspaceRootCommand` of both older runners: `cd` to the quoted
      project root when the setting is on, which throws when there is no workspace, and
      nothing otherwise. */
  function LegacyRootCd(changeDir: bool, projectPath: Option<string>, windows: bool): (r: Outcome<string>)
    ensures r.NoWorkspace? <==> changeDir && projectPath.None?
  {
    if !changeDir then Built("")
    else if projectPath.None? then NoWorkspace
    else Built("cd " + Quote(projectPath.value, windows))
  }

  /** What a runner hands to the editor: a command for the terminal, a debug configuration to
      launch, nothing (an unknown debugger was configured), or the no-workspace message. */
  datatype RunAction<C> = SendCommand(command: string) | StartDebugging(config: C) | NoDebugConfig | NoWorkspaceMessage
}
