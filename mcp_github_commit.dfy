/**
 * mcp-github-commit.js: the `MCPGitHubCommit` class, which, when the
 * repository has changes, commits everything with a message listing the
 * changed paths and pushes, through plain git commands that stand in for
 * the MCP GitHub tools.
 *
 * The class keeps no state its methods change (`repository` and `branch`
 * are constants), so its methods are methods of this module. The outputs of
 * `git status --porcelain` and `git diff --name-only` are parameters
 * (`None` when `execSync` raised); the outcome of each command that changes
 * the repository is indexed by its position in the sequence issued;
 * `toLocaleString('zh-TW')` is the `timestamp` parameter.
 */
module McpGitHubCommit {
  import opened Base
  import opened Text
  import opened GitText

  const Repository := "HenryLin0914/demo1023"
  const Branch := "main"

  // ---------------------------------------------------------------------------
  // generateCommitMessage

  /** `generateCommitMessage(files)`: the header, a blank line, the heading, and the bullets joined by line breaks. */
  function GenerateCommitMessage(timestamp: string, files: seq<string>): string
  {
    "Auto commit via MCP: " + timestamp + "\n\n" + FilesHeading + "\n" + Join(Bullets(files), "\n")
  }

  /**
   * The lines of the message: the header, a blank line and the heading are
   * always there; then one bullet per path, or an empty last line when
   * there is no path (the heading's line break is still written).
   */
  function MessageLines(timestamp: string, files: seq<string>): seq<string>
  {
    ["Auto commit via MCP: " + timestamp, "", FilesHeading] + (if files == [] then [""] else Bullets(files))
  }

  lemma HeadText(timestamp: string)
    ensures Join(["Auto commit via MCP: " + timestamp, "", FilesHeading], "\n") ==
              "Auto commit via MCP: " + timestamp + "\n\n" + FilesHeading
  {
    var h := "Auto commit via MCP: " + timestamp;
    JoinAppendOne([h], "", "\n");
    JoinAppendOne([h, ""], FilesHeading, "\n");
    assert [h] + [""] == [h, ""] && [h, ""] + [FilesHeading] == [h, "", FilesHeading];
  }

  /** The message is its lines joined by line breaks. */
  lemma MessageJoinsLines(timestamp: string, files: seq<string>)
    ensures GenerateCommitMessage(timestamp, files) == Join(MessageLines(timestamp, files), "\n")
  {
    var head := ["Auto commit via MCP: " + timestamp, "", FilesHeading];
    var tail := if files == [] then [""] else Bullets(files);
    HeadText(timestamp);
    JoinConcat(head, tail, "\n");
    if files == [] {
      assert Bullets(files) == [];
    }
  }

  /**
   * The message splits back, at its line breaks, into its lines: the header
   * is always there, and the bullets list the paths in order with no line
   * break after the last one.
   */
  lemma CommitMessageParses(timestamp: string, files: seq<string>)
    requires '\n' !in timestamp
    requires forall i :: 0 <= i < |files| ==> '\n' !in files[i]
    ensures Split(GenerateCommitMessage(timestamp, files), '\n') == MessageLines(timestamp, files)
  {
    var lines := MessageLines(timestamp, files);
    forall i | 0 <= i < |lines| ensures '\n' !in lines[i] {
      if i == 0 {
        assert lines[0] == "Auto commit via MCP: " + timestamp;
      } else if files != [] && i >= 3 {
        assert lines[i] == "- " + files[i - 3];
      }
    }
    MessageJoinsLines(timestamp, files);
    SplitJoin(lines, '\n');
  }

  /** The header and the heading start every message, even one with no path to list. */
  lemma MessageHeader(timestamp: string, files: seq<string>)
    ensures StartsWith(GenerateCommitMessage(timestamp, files), "Auto commit via MCP: " + timestamp + "\n\n" + FilesHeading + "\n")
    ensures files == [] ==> GenerateCommitMessage(timestamp, files) == "Auto commit via MCP: " + timestamp + "\n\n" + FilesHeading + "\n"
  {
    var p := "Auto commit via MCP: " + timestamp + "\n\n" + FilesHeading + "\n";
    var m := GenerateCommitMessage(timestamp, files);
    assert m == p + Join(Bullets(files), "\n");
    assert m[..|p|] == p;
  }

  // ---------------------------------------------------------------------------
  // Committing and pushing

  /** The three commands `simulateMCPCommit` runs: add, commit, and a push that is always part of it. */
  function CommitPlan(message: string): seq<Command>
  {
    Plan(message, true)
  }

  /**
   * `simulateMCPCommit(message, files)`: add, commit and push, one after
   * another; the first command that raises ends it and its error is thrown
   * on, as `raised`.
   */
  method SimulateMCPCommit(message: string, outcome: nat -> Exec) returns (issued: seq<Command>, raised: Option<string>)
    ensures Ran(issued, raised) == Run(CommitPlan(message), outcome)
  {
    RunCorrect(CommitPlan(message), outcome);
    RunPlan(message, true, outcome);
    issued := [Add];
    if outcome(0).Raised? {
      return issued, Some(outcome(0).message);
    }
    issued := issued + [Commit(message)];
    if outcome(1).Raised? {
      return issued, Some(outcome(1).message);
    }
    issued := issued + [Push];
    if outcome(2).Raised? {
      return issued, Some(outcome(2).message);
    }
    raised := None;
  }

  /** The commands `createCommitWithMCP` issues: none without changes, else the three commands up to the first that raises. */
  function CreateIssued(status: Option<string>, diff: Option<string>, timestamp: string, outcome: nat -> Exec): seq<Command>
  {
    if !HasChanges(status) then []
    else Run(CommitPlan(GenerateCommitMessage(timestamp, OutputLines(diff))), outcome).issued
  }

  /**
   * Without changes no command is issued; otherwise add, then the commit
   * with the generated message, then the push, each only if the one before
   * it returned: the push depends on nothing else.
   */
  lemma CreateOrder(status: Option<string>, diff: Option<string>, timestamp: string, outcome: nat -> Exec)
    ensures CreateIssued(status, diff, timestamp, outcome) == [] <==> !HasChanges(status)
    ensures CreateIssued(status, diff, timestamp, outcome) <=
              [Add, Commit(GenerateCommitMessage(timestamp, OutputLines(diff))), Push]
    ensures Push in CreateIssued(status, diff, timestamp, outcome) <==>
              HasChanges(status) && outcome(0).Ok? && outcome(1).Ok?
  {
    var message := GenerateCommitMessage(timestamp, OutputLines(diff));
    RunPlan(message, true, outcome);
    assert Plan(message, true) == [Add, Commit(message), Push];
    assert Push !in [Add] && Push !in [Add, Commit(message)];
  }

  /**
   * `createCommitWithMCP()`: with changes, commits and pushes with the
   * generated message; whatever `simulateMCPCommit` throws is caught and
   * logged, so nothing reaches the caller.
   */
  method CreateCommitWithMCP(status: Option<string>, diff: Option<string>, timestamp: string, outcome: nat -> Exec)
    returns (issued: seq<Command>)
    ensures issued == CreateIssued(status, diff, timestamp, outcome)
  {
    if !HasChanges(status) {
      return [];
    }
    var changedFiles := OutputLines(diff);
    var commitMessage := GenerateCommitMessage(timestamp, changedFiles);
    var raised;
    issued, raised := SimulateMCPCommit(commitMessage, outcome);
  }

  /** `start()`: one round at once, before the periodic rounds are scheduled. */
  method Start(status: Option<string>, diff: Option<string>, timestamp: string, outcome: nat -> Exec)
    returns (issued: seq<Command>)
    ensures issued == CreateIssued(status, diff, timestamp, outcome)
  {
    issued := CreateCommitWithMCP(status, diff, timestamp, outcome);
  }
}
