/** The result records of src/types.ts and the one document query everything shares:
    the text a result is anchored to. */
module Types {
  import opened Strings

  datatype Option<+T> = None | Some(value: T)

  /** `RspecExampleStatus` */
  datatype Status = Passed | Failed | Pending

  /** `RubyDebugger`, the configured debugger; any other configured value is kept by name. */
  datatype RubyDebugger = Rdbg | RubyLsp | OtherDebugger(name: string)

  /** `TestResultException`: `exType` is the optional `type` field. */
  datatype TestException = TestException(
    message: string,
    exType: Option<string>,
    line: Option<nat>,
    content: Option<string>)

  /** `TestResultLineResult`: `content` is the text of `line` when the result was recorded. */
  datatype LineResult = LineResult(
    id: string,
    testRun: string,
    line: nat,
    content: string,
    status: Status,
    exception: Option<TestException>,
    testName: Option<string>,
    runTime: Option<string>,
    pendingMessage: Option<string>)

  /** One file's entry of `TestResults`: the current run, whether a run is awaited, and the
      results keyed by (the decimal form of) their line. */
  datatype FileResults = FileResults(
    testRun: string,
    testRunPending: bool,
    results: map<string, LineResult>)

  /** `TestResults`: file path to that file's results. */
  type TestResults = map<string, FileResults>

  /** `vscode.Range(startLine, startCharacter, endLine, endCharacter)`, lines 0-based. */
  datatype Range = Range(startLine: int, startCol: nat, endLine: int, endCol: nat)

  /** An open document: its lines, without line terminators. */
  type Document = seq<string>

  /** How many UTF-16 code units of a line `contentAtLine` reads. */
  const ContentWidth: nat := 1000

  /** A JavaScript truthiness test on an optional line number: present and not 0. */
  predicate Truthy(n: Option<nat>) {
    n.Some? && n.value != 0
  }

  function Min(a: nat, b: nat): nat {
    if a < b then a else b
  }

  /** `contentAtLine(file, line)`: the text of columns 0 to 1000 of 1-based line `line` of the
      document, columns counting UTF-16 code units. When there is no document, the line is not
      in it, or its text is empty, the source falls back to `Date.now().toString()`; that
      value is the parameter `unknown`. */
  function ContentAtLine(file: Option<Document>, line: nat, unknown: string): string {
    if file.Some? && 1 <= line <= |file.value| then
      var shown := Utf16Prefix(file.value[line - 1], ContentWidth);
      if shown != "" then shown else unknown
    else
      unknown
  }

  /** A line that exists and is not empty reads as its longest prefix of at most 1000 code
      units (the whole line when it is that short); anything else reads as the fallback. */
  lemma ContentAtLineSpec(file: Option<Document>, line: nat, unknown: string)
    ensures var r := ContentAtLine(file, line, unknown);
            && (r == unknown || (r != "" && Utf16Length(r) <= ContentWidth))
            && ((file.Some? && 1 <= line <= |file.value| && file.value[line - 1] != "")
                ==> var text := file.value[line - 1];
                    && StartsWith(text, r) && Utf16Length(r) <= ContentWidth
                    && (|r| == |text| || ContentWidth < Utf16Length(r) + Utf16Units(text[|r|]))
                    && (Utf16Length(text) <= ContentWidth ==> r == text))
            && (!(file.Some? && 1 <= line <= |file.value| && file.value[line - 1] != "") ==> r == unknown)
  {
    if file.Some? && 1 <= line <= |file.value| {
      Utf16PrefixSpec(file.value[line - 1], ContentWidth);
    }
  }

  /** On a Basic Multilingual Plane line the cut is at 1000 characters. */
  lemma ContentAtLineOfBmp(text: string, doc: Document, line: nat, unknown: string)
    requires 1 <= line <= |doc| && doc[line - 1] == text && text != "" && InBmp(text)
    ensures ContentAtLine(Some(doc), line, unknown) == text[..Min(|text|, ContentWidth)]
  {
    var r := Utf16Prefix(text, ContentWidth);
    Utf16PrefixSpec(text, ContentWidth);
    assert r == text[..|r|];
    assert InBmp(r) by {
      forall i | 0 <= i < |r| ensures r[i] as int < 0x1_0000 {
        assert r[i] == text[i];
      }
    }
    Utf16LengthOfBmp(r);
    assert |r| == Min(|text|, ContentWidth) by {
      if |r| < |text| {
        assert Utf16Units(text[|r|]) == 1;
      }
    }
  }
}
