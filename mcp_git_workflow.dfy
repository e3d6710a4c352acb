/**
 * mcp-git-workflow.js: the `MCPGitWorkflow` class, which reads the state of
 * the repository, commits with a message listing the changed paths and the
 * kinds of files changed, and pushes, through plain git commands that stand
 * in for the MCP GitHub tools.
 *
 * The class keeps no state its methods change (`repository` and `branch`
 * are constants, `mcpServer` stays null), so its methods are methods of
 * this module. The outputs of the queries are parameters (`None` when
 * `execSync` raised); the outcome of each command that changes the
 * repository is indexed by its position in the sequence issued;
 * `toLocaleString('zh-TW')` is the `timestamp` parameter.
 */
module McpGitWorkflow {
  import opened Base
  import opened Text
  import opened GitText

  const Repository := "HenryLin0914/demo1023"
  const Branch := "main"

  // ---------------------------------------------------------------------------
  // readGitStatus

  /** The outputs of the queries `readGitStatus` runs. */
  datatype Queries = Queries(
    branch: Option<string>,  // git branch --show-current
    status: Option<string>,  // git status --porcelain
    diff: Option<string>,    // git diff --name-only
    head: Option<string>,    // git rev-parse HEAD
    log: Option<string>,     // git log -1 --pretty=%B
    remote: Option<string>,  // git remote -v
    ahead: Option<string>,   // git rev-list --count origin/main..HEAD
    behind: Option<string>)  // git rev-list --count HEAD..origin/main

  /** `getCurrentBranch()`: the trimmed output, or "unknown" when the query raised. */
  function GetCurrentBranch(out: Option<string>): string
  {
    match out
    case None => "unknown"
    case Some(s) => Trim(s)
  }

  /** The branch name git prints on a line of its own is read back as it is; a failed query reads as "unknown". */
  lemma CurrentBranchOfLine(name: string)
    requires name == [] || (!IsSpace(name[0]) && !IsSpace(name[|name| - 1]))
    ensures GetCurrentBranch(Some(name + "\n")) == name
    ensures GetCurrentBranch(None) == "unknown"
  {
    TrimFinalBreak(name);
  }

  /** The head commit and its message; both null when either query raised. */
  datatype LastCommit = LastCommit(hash: Option<string>, message: Option<string>)

  /** `getLastCommit()`: both outputs trimmed, inside one `try`. */
  function GetLastCommit(head: Option<string>, log: Option<string>): (c: LastCommit)
    ensures c.hash.Some? <==> head.Some? && log.Some?
    ensures c.message.Some? <==> c.hash.Some?
  {
    if head.None? || log.None? then LastCommit(None, None)
    else LastCommit(Some(Trim(head.value)), Some(Trim(log.value)))
  }

  /** The hash and the message git prints, each followed by a line break, are read back as they are. */
  lemma LastCommitOfLines(hash: string, message: string)
    requires hash == [] || (!IsSpace(hash[0]) && !IsSpace(hash[|hash| - 1]))
    requires message == [] || (!IsSpace(message[0]) && !IsSpace(message[|message| - 1]))
    ensures GetLastCommit(Some(hash + "\n"), Some(message + "\n")) == LastCommit(Some(hash), Some(message))
  {
    TrimFinalBreak(hash);
    TrimFinalBreak(message);
  }

  /** `parseInt(out.trim()) || 0`: NaN (and minus zero) become 0. */
  function CountOf(out: string): (n: int)
    ensures Trim(out) == [] ==> n == 0
    ensures Trim(out) != [] && !IsDigit(Trim(out)[0]) && Trim(out)[0] != '+' && Trim(out)[0] != '-' ==> n == 0
  {
    JsParseInt(Trim(out)).GetOr(0)
  }

  /** A count git prints on a line of its own is read back as it is. */
  lemma CountOfLine(n: nat)
    ensures CountOf(ShowNat(n) + "\n") == n
  {
    var ds := ShowNat(n);
    assert !IsSpace(ds[0]) && !IsSpace(ds[|ds| - 1]) by {
      assert IsDigit(ds[0]) && IsDigit(ds[|ds| - 1]);
    }
    TrimFinalBreak(ds);
    JsParseIntPrefix("", ds, "");
    assert "" + (ds + "") == ds;
  }

  /** The remote line and the two counts; `remote` is null when a query raised. */
  datatype RemoteStatus = RemoteStatus(remote: Option<string>, ahead: int, behind: int)

  /**
   * `getRemoteStatus()`: the first line of the remote listing and the two
   * counts, or null and zeros when any of the three queries raised.
   */
  function GetRemoteStatus(remote: Option<string>, ahead: Option<string>, behind: Option<string>): (r: RemoteStatus)
    ensures remote.None? || ahead.None? || behind.None? ==> r.remote.None? && r.ahead == 0 && r.behind == 0
    ensures r.remote.Some? ==> '\n' !in r.remote.value
  {
    if remote.None? || ahead.None? || behind.None? then RemoteStatus(None, 0, 0)
    else RemoteStatus(Some(Split(remote.value, '\n')[0]), CountOf(ahead.value), CountOf(behind.value))
  }

  /** The first line of a listing is the text before its first line break. */
  lemma FirstLine(line: string, rest: string)
    requires '\n' !in line
    ensures Split(line + "\n" + rest, '\n')[0] == line
  {
    var s := line + "\n" + rest;
    assert s[..|line|] == line;
    IndexOfAt(s, '\n', |line|);
  }

  /**
   * What git prints for a remote listing and two counts is read back as the
   * first remote line and the two counts.
   */
  lemma RemoteStatusOfOutput(line: string, rest: string, ahead: nat, behind: nat)
    requires '\n' !in line
    ensures GetRemoteStatus(Some(line + "\n" + rest), Some(ShowNat(ahead) + "\n"), Some(ShowNat(behind) + "\n")).remote == Some(line)
    ensures GetRemoteStatus(Some(line + "\n" + rest), Some(ShowNat(ahead) + "\n"), Some(ShowNat(behind) + "\n")).ahead == ahead
    ensures GetRemoteStatus(Some(line + "\n" + rest), Some(ShowNat(ahead) + "\n"), Some(ShowNat(behind) + "\n")).behind == behind
  {
    FirstLine(line, rest);
    CountOfLine(ahead);
    CountOfLine(behind);
  }

  /** The object `readGitStatus` builds. */
  datatype GitStatus = GitStatus(
    branch: string, hasChanges: bool, changedFiles: seq<string>, lastCommit: LastCommit, remoteStatus: RemoteStatus)

  /**
   * `readGitStatus()`. Every getter catches its own failure, so the status
   * is always an object; there are changes only when `git status` printed
   * something other than whitespace.
   */
  function ReadGitStatus(q: Queries): (st: GitStatus)
    ensures st.hasChanges ==> q.status.Some? && !AllSpace(q.status.value)
    ensures q.status.Some? && !AllSpace(q.status.value) ==> st.hasChanges
  {
    HasChangesCorrect(q.status);
    GitStatus(GetCurrentBranch(q.branch), HasChanges(q.status), OutputLines(q.diff),
              GetLastCommit(q.head, q.log), GetRemoteStatus(q.remote, q.ahead, q.behind))
  }

  // ---------------------------------------------------------------------------
  // generateCommitMessage

  /** `files.some(f => f.endsWith(suffix))`, which tries the paths in order and stops at the first match. */
  predicate AnyEndsWith(files: seq<string>, suffix: string)
  {
    files != [] && (EndsWith(files[0], suffix) || AnyEndsWith(files[1..], suffix))
  }

  /** `some` holds exactly when some path has the suffix. */
  lemma {:induction false} AnyEndsWithCorrect(files: seq<string>, suffix: string)
    ensures AnyEndsWith(files, suffix) <==> exists i :: 0 <= i < |files| && EndsWith(files[i], suffix)
  {
    if files != [] {
      AnyEndsWithCorrect(files[1..], suffix);
      if i :| 0 <= i < |files| && EndsWith(files[i], suffix) {
        if i > 0 {
          assert files[1..][i - 1] == files[i];
        }
      }
      if AnyEndsWith(files[1..], suffix) {
        var i :| 0 <= i < |files[1..]| && EndsWith(files[1..][i], suffix);
        assert files[i + 1] == files[1..][i];
      }
    }
  }

  /** The line for one kind of file, present when some path has its suffix. */
  function SuffixLine(files: seq<string>, suffix: string, line: string): seq<string>
  {
    if AnyEndsWith(files, suffix) then [line] else []
  }

  /** The HTML, JavaScript and CSS lines, in that order. */
  function TypeLines(files: seq<string>): seq<string>
  {
    SuffixLine(files, ".html", HtmlLine) + SuffixLine(files, ".js", JsLine) + SuffixLine(files, ".css", CssLine)
  }

  /** The heading, one bullet per path and a blank line, when there are paths. */
  function FileSection(files: seq<string>): seq<string>
  {
    if files != [] then [FilesHeading] + Bullets(files) + [""] else []
  }

  /** The lines of the message: the header, a blank line, the file section and the type lines. */
  function MessageLines(timestamp: string, files: seq<string>): seq<string>
  {
    ["Auto commit via MCP: " + timestamp, ""] + FileSection(files) + TypeLines(files)
  }

  /** The message of mcp-git-workflow.js: every line followed by a line break. */
  function CommitMessage(timestamp: string, files: seq<string>): string
  {
    Unlines(MessageLines(timestamp, files))
  }

  /** The file section as `generateCommitMessage` appends it, when there are paths. */
  function SectionText(files: seq<string>): string
  {
    if files != [] then FilesHeading + "\n" + Join(Bullets(files), "\n") + "\n\n" else ""
  }

  /** The file section is written as the heading, the bullets joined by line breaks, and a blank line. */
  lemma FileSectionText(files: seq<string>)
    ensures Unlines(FileSection(files)) == SectionText(files)
  {
    if files != [] {
      var lines := [FilesHeading] + Bullets(files);
      UnlinesBlock(lines + [""]);
      JoinAppendOne(lines, "", "\n");
      JoinConcat([FilesHeading], Bullets(files), "\n");
    }
  }

  /** The line for one kind of file, appended when some path has its suffix. */
  method WriteSuffixLine(message: string, files: seq<string>, suffix: string, line: string) returns (m: string)
    ensures m == message + Unlines(SuffixLine(files, suffix, line))
  {
    m := message;
    if AnyEndsWith(files, suffix) {
      m := m + line + "\n";
      UnlinesSnoc([], line);
      assert [] + [line] == [line];
    }
  }

  lemma AppendThree(m: string, a: seq<string>, b: seq<string>, c: seq<string>)
    ensures m + Unlines(a) + Unlines(b) + Unlines(c) == m + Unlines(a + b + c)
  {
    UnlinesAppend(a, b);
    UnlinesAppend(a + b, c);
  }

  /** The three `if`s of `generateCommitMessage`: a line for each kind some path has. */
  method WriteTypeLines(message: string, files: seq<string>) returns (m: string)
    ensures m == message + Unlines(TypeLines(files))
  {
    m := WriteSuffixLine(message, files, ".html", HtmlLine);
    m := WriteSuffixLine(m, files, ".js", JsLine);
    m := WriteSuffixLine(m, files, ".css", CssLine);
    AppendThree(message, SuffixLine(files, ".html", HtmlLine), SuffixLine(files, ".js", JsLine), SuffixLine(files, ".css", CssLine));
  }

  /** The pieces `generateCommitMessage` writes, one after another, make up the message. */
  lemma MessageAssembled(timestamp: string, files: seq<string>)
    ensures "Auto commit via MCP: " + timestamp + "\n\n" + SectionText(files) + Unlines(TypeLines(files)) ==
            CommitMessage(timestamp, files)
  {
    var header := ["Auto commit via MCP: " + timestamp, ""];
    HeaderText("Auto commit via MCP: " + timestamp);
    FileSectionText(files);
    UnlinesAppend(header, FileSection(files));
    UnlinesAppend(header + FileSection(files), TypeLines(files));
  }

  lemma SectionAppended(message: string, heading: string, bullets: string)
    ensures message + heading + "\n" + bullets + "\n\n" == message + (heading + "\n" + bullets + "\n\n")
  {
  }

  /** `generateCommitMessage()` for the listing of changed paths read when it runs. */
  method GenerateCommitMessage(timestamp: string, diff: Option<string>) returns (message: string)
    ensures message == CommitMessage(timestamp, OutputLines(diff))
  {
    var changedFiles := OutputLines(diff);
    message := "Auto commit via MCP: " + timestamp + "\n\n";
    ghost var header := message;
    if |changedFiles| > 0 {
      SectionAppended(message, FilesHeading, Join(Bullets(changedFiles), "\n"));
      message := message + FilesHeading + "\n" + Join(Bullets(changedFiles), "\n") + "\n\n";
    }
    assert message == header + SectionText(changedFiles);
    message := WriteTypeLines(message, changedFiles);
    MessageAssembled(timestamp, changedFiles);
  }

  /** No line holds a line break. */
  predicate NoBreaks(lines: seq<string>)
  {
    forall i :: 0 <= i < |lines| ==> '\n' !in lines[i]
  }

  lemma NoBreaksAppend(a: seq<string>, b: seq<string>)
    requires NoBreaks(a) && NoBreaks(b)
    ensures NoBreaks(a + b)
  {
    assert forall i :: |a| <= i < |a + b| ==> (a + b)[i] == b[i - |a|];
  }

  lemma FileSectionNoBreaks(files: seq<string>)
    requires forall i :: 0 <= i < |files| ==> '\n' !in files[i]
    ensures NoBreaks(FileSection(files))
  {
    if files != [] {
      var bullets := Bullets(files);
      forall i | 0 <= i < |bullets| ensures '\n' !in bullets[i] {
        assert bullets[i] == "- " + files[i];
      }
      NoBreaksAppend([FilesHeading], bullets);
      NoBreaksAppend([FilesHeading] + bullets, [""]);
    }
  }

  lemma TypeLinesNoBreaks(files: seq<string>)
    ensures NoBreaks(TypeLines(files))
  {
    assert NoBreaks([HtmlLine]) && NoBreaks([JsLine]) && NoBreaks([CssLine]) && NoBreaks([]);
    NoBreaksAppend(SuffixLine(files, ".html", HtmlLine), SuffixLine(files, ".js", JsLine));
    NoBreaksAppend(SuffixLine(files, ".html", HtmlLine) + SuffixLine(files, ".js", JsLine), SuffixLine(files, ".css", CssLine));
  }

  /** The message splits back, at its line breaks, into its lines and an empty tail. */
  lemma CommitMessageParses(timestamp: string, files: seq<string>)
    requires '\n' !in timestamp
    requires forall i :: 0 <= i < |files| ==> '\n' !in files[i]
    ensures Split(CommitMessage(timestamp, files), '\n') == MessageLines(timestamp, files) + [""]
  {
    var header := ["Auto commit via MCP: " + timestamp, ""];
    assert NoBreaks(header) by {
      assert header[0] == "Auto commit via MCP: " + timestamp;
    }
    FileSectionNoBreaks(files);
    TypeLinesNoBreaks(files);
    NoBreaksAppend(header, FileSection(files));
    NoBreaksAppend(header + FileSection(files), TypeLines(files));
    UnlinesSplit(MessageLines(timestamp, files));
  }

  /**
   * The file section is there exactly when some path changed: the heading
   * comes right after the header and the blank line, then one bullet per
   * path in order, then a blank line.
   */
  lemma FilesListed(timestamp: string, files: seq<string>)
    ensures FilesHeading in MessageLines(timestamp, files) <==> files != []
    ensures files != [] ==>
              MessageLines(timestamp, files)[2] == FilesHeading &&
              MessageLines(timestamp, files)[3..3 + |files|] == Bullets(files) &&
              MessageLines(timestamp, files)[3 + |files|] == ""
  {
    var header := ["Auto commit via MCP: " + timestamp, ""];
    var lines := header + FileSection(files) + TypeLines(files);
    assert lines == MessageLines(timestamp, files);
    assert FilesHeading[0] == '變' && HtmlLine[0] == '🌐' && JsLine[0] == '⚡' && CssLine[0] == '🎨';
    assert FilesHeading !in header by {
      assert header[0][0] == 'A';
    }
    assert FilesHeading !in TypeLines(files);
    if files != [] {
      var section := [FilesHeading] + Bullets(files) + [""];
      assert lines == header + section + TypeLines(files);
      assert lines[2] == FilesHeading;
      assert lines[3..3 + |files|] == Bullets(files);
      assert lines[3 + |files|] == "";
    }
  }

  /** Orders the three type lines: HTML, then JavaScript, then CSS. */
  function TypeRank(line: string): nat
  {
    if line == HtmlLine then 0 else if line == JsLine then 1 else 2
  }

  /** Each type line is present exactly when some path has its suffix. */
  lemma TypeLinesPresent(files: seq<string>)
    ensures HtmlLine in TypeLines(files) <==> AnyEndsWith(files, ".html")
    ensures JsLine in TypeLines(files) <==> AnyEndsWith(files, ".js")
    ensures CssLine in TypeLines(files) <==> AnyEndsWith(files, ".css")
  {
    assert HtmlLine[0] == '🌐' && JsLine[0] == '⚡' && CssLine[0] == '🎨';
    var h := SuffixLine(files, ".html", HtmlLine);
    var j := SuffixLine(files, ".js", JsLine);
    var c := SuffixLine(files, ".css", CssLine);
    assert TypeLines(files) == h + j + c;
  }

  /** The type lines come in the order HTML, JavaScript, CSS, each at most once. */
  lemma TypeLinesOrdered(files: seq<string>)
    ensures |TypeLines(files)| <= 3
    ensures forall i, j :: 0 <= i < j < |TypeLines(files)| ==> TypeRank(TypeLines(files)[i]) < TypeRank(TypeLines(files)[j])
  {
    assert HtmlLine[0] == '🌐' && JsLine[0] == '⚡' && CssLine[0] == '🎨';
    assert TypeRank(HtmlLine) == 0 && TypeRank(JsLine) == 1 && TypeRank(CssLine) == 2;
  }

  /** The type lines end the message. */
  lemma TypeLinesLast(timestamp: string, files: seq<string>)
    ensures MessageLines(timestamp, files)[|MessageLines(timestamp, files)| - |TypeLines(files)|..] == TypeLines(files)
  {
    var head := ["Auto commit via MCP: " + timestamp, ""] + FileSection(files);
    assert MessageLines(timestamp, files) == head + TypeLines(files);
    assert (head + TypeLines(files))[|head|..] == TypeLines(files);
  }

  // ---------------------------------------------------------------------------
  // Committing and pushing

  /** What `executeGitCommands` returns: the new head commit and whether it pushed. */
  datatype GitResult = GitResult(commitHash: string, pushed: bool)

  /** The prefix of the error `executeGitCommands` rethrows. */
  const FailurePrefix := "Git 操作失敗: "

  /** The commands issued and what came of them. */
  datatype Executed = Executed(issued: seq<Command>, result: Result<GitResult>)

  /**
   * `executeGitCommands(message, options)`: add, commit, read the new head
   * (`head`, a query whose failure carries a message), then push unless
   * `options.push === false` (`push`). The first failure ends the sequence
   * and is rethrown with `FailurePrefix` in front of its message.
   */
  function Execute(message: string, push: bool, head: Result<string>, outcome: nat -> Exec): (e: Executed)
    ensures e.issued <= Plan(message, push) && |e.issued| >= 1
    ensures e.result.Success? <==>
              e.issued == Plan(message, push) && head.Success? &&
              forall k :: 0 <= k < |e.issued| ==> outcome(k).Ok?
    ensures e.result.Success? ==> e.result.value.pushed == push && (push <==> Push in e.issued)
    ensures e.result.Failure? ==> StartsWith(e.result.error, FailurePrefix)
  {
    var plan := Plan(message, push);
    assert plan[..1] == [Add] && plan[..2] == [Add, Commit(message)];
    if outcome(0).Raised? then Executed([Add], Failure(FailurePrefix + outcome(0).message))
    else if outcome(1).Raised? then Executed([Add, Commit(message)], Failure(FailurePrefix + outcome(1).message))
    else if head.Failure? then Executed([Add, Commit(message)], Failure(FailurePrefix + head.error))
    else if push && outcome(2).Raised? then Executed(plan, Failure(FailurePrefix + outcome(2).message))
    else Executed(plan, Success(GitResult(Trim(head.value), push)))
  }

  /**
   * Once the new head is read, the commands issued are those of the shared
   * add-commit-push sequence, up to the first that raises.
   */
  lemma ExecuteRuns(message: string, push: bool, head: Result<string>, outcome: nat -> Exec)
    requires head.Success?
    ensures Execute(message, push, head, outcome).issued == Run(Plan(message, push), outcome).issued
  {
    RunPlan(message, push, outcome);
  }

  /** `executeGitCommands(message, options)` as the script runs it, one command after another. */
  method ExecuteGitCommands(message: string, push: bool, head: Result<string>, outcome: nat -> Exec)
    returns (issued: seq<Command>, result: Result<GitResult>)
    ensures Executed(issued, result) == Execute(message, push, head, outcome)
  {
    issued := [Add];
    if outcome(0).Raised? {
      return issued, Failure(FailurePrefix + outcome(0).message);
    }
    issued := issued + [Commit(message)];
    if outcome(1).Raised? {
      return issued, Failure(FailurePrefix + outcome(1).message);
    }
    if head.Failure? {
      return issued, Failure(FailurePrefix + head.error);
    }
    var commitHash := Trim(head.value);
    var pushed := false;
    if push {
      issued := issued + [Push];
      if outcome(2).Raised? {
        return issued, Failure(FailurePrefix + outcome(2).message);
      }
      pushed := true;
    }
    result := Success(GitResult(commitHash, pushed));
  }

  /** The object `simulateMCPCommit` resolves to. */
  datatype McpResult = McpResult(success: bool, commitHash: string, pushed: bool, message: string)

  const SimulatedNote := "MCP 模擬成功"

  /**
   * `commitAndPushWithMCP(message, options)`, which rethrows whatever
   * `simulateMCPCommit` throws, and `simulateMCPCommit`, which wraps what
   * `executeGitCommands` returns.
   */
  method CommitAndPush(message: string, push: bool, head: Result<string>, outcome: nat -> Exec)
    returns (issued: seq<Command>, result: Result<McpResult>)
    ensures issued == Execute(message, push, head, outcome).issued
    ensures result.Success? <==> Execute(message, push, head, outcome).result.Success?
    ensures result.Success? ==>
              var r := Execute(message, push, head, outcome).result.value;
              result.value == McpResult(true, r.commitHash, r.pushed, SimulatedNote)
    ensures result.Failure? ==> result.error == Execute(message, push, head, outcome).result.error
  {
    var gitResult;
    issued, gitResult := ExecuteGitCommands(message, push, head, outcome);
    match gitResult
    case Failure(e) =>
      result := Failure(e);
    case Success(r) =>
      result := Success(McpResult(true, r.commitHash, r.pushed, SimulatedNote));
  }

  // ---------------------------------------------------------------------------
  // The commit rounds

  /** The commands `performAutoCommit` issues: none without changes, else the sequence with the generated message. */
  function RoundIssued(q: Queries, timestamp: string, head: Result<string>, outcome: nat -> Exec): seq<Command>
  {
    if !HasChanges(q.status) then []
    else Execute(CommitMessage(timestamp, OutputLines(q.diff)), true, head, outcome).issued
  }

  /**
   * Without changes nothing is issued; otherwise add, the commit with the
   * generated message and the push, each only if what came before it
   * succeeded; the push is issued exactly when add and commit returned and
   * the new head was read.
   */
  lemma RoundOrder(q: Queries, timestamp: string, head: Result<string>, outcome: nat -> Exec)
    ensures RoundIssued(q, timestamp, head, outcome) == [] <==> !HasChanges(q.status)
    ensures RoundIssued(q, timestamp, head, outcome) <= [Add, Commit(CommitMessage(timestamp, OutputLines(q.diff))), Push]
    ensures Push in RoundIssued(q, timestamp, head, outcome) <==>
              HasChanges(q.status) && outcome(0).Ok? && outcome(1).Ok? && head.Success?
  {
    var message := CommitMessage(timestamp, OutputLines(q.diff));
    assert Plan(message, true) == [Add, Commit(message), Push];
    assert Push !in [Add] && Push !in [Add, Commit(message)];
  }

  /**
   * `performAutoCommit()`: reads the status, and with changes commits and
   * pushes with the generated message; a failure is caught and logged.
   */
  method PerformAutoCommit(q: Queries, timestamp: string, head: Result<string>, outcome: nat -> Exec)
    returns (issued: seq<Command>)
    ensures issued == RoundIssued(q, timestamp, head, outcome)
  {
    var status := ReadGitStatus(q);
    if !status.hasChanges {
      return [];
    }
    var message := GenerateCommitMessage(timestamp, q.diff);
    var result;
    issued, result := CommitAndPush(message, true, head, outcome);
  }

  /** `startAutoWorkflow()`: one round at once, before the periodic rounds are scheduled. */
  method StartAutoWorkflow(q: Queries, timestamp: string, head: Result<string>, outcome: nat -> Exec)
    returns (issued: seq<Command>)
    ensures issued == RoundIssued(q, timestamp, head, outcome)
  {
    issued := PerformAutoCommit(q, timestamp, head, outcome);
  }

  /** The message `manualCommit` commits with: the custom one when it is a non-empty string, else a generated one. */
  function ManualMessage(customMessage: Option<string>, timestamp: string, diff: Option<string>): string
  {
    if customMessage.Some? && customMessage.value != "" then customMessage.value
    else CommitMessage(timestamp, OutputLines(diff))
  }

  /**
   * `manualCommit(customMessage)`: commits and pushes whether or not there
   * are changes; nothing here catches, so a failure reaches the caller.
   */
  method ManualCommit(customMessage: Option<string>, q: Queries, timestamp: string, head: Result<string>, outcome: nat -> Exec)
    returns (issued: seq<Command>, result: Result<McpResult>)
    ensures issued == Execute(ManualMessage(customMessage, timestamp, q.diff), true, head, outcome).issued
    ensures result.Success? <==> Execute(ManualMessage(customMessage, timestamp, q.diff), true, head, outcome).result.Success?
    ensures issued[0] == Add
    ensures outcome(0).Ok? && customMessage.Some? && customMessage.value != "" ==> issued[1] == Commit(customMessage.value)
    ensures outcome(0).Ok? && !(customMessage.Some? && customMessage.value != "") ==>
              issued[1] == Commit(CommitMessage(timestamp, OutputLines(q.diff)))
  {
    var message;
    if customMessage.Some? && customMessage.value != "" {
      message := customMessage.value;
    } else {
      message := GenerateCommitMessage(timestamp, q.diff);
    }
    issued, result := CommitAndPush(message, true, head, outcome);
  }
}
