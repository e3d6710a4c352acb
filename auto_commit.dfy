/**
 * auto-commit.js: the `AutoCommit` class, which checks for changes, stages
 * everything, commits with a message listing the staged and the unstaged
 * paths, remembers the new head commit, pushes (`CONFIG.autoPush` is set),
 * and starts and stops a periodic check.
 *
 * The query outputs are parameters (`None` when `execSync` raised): the
 * `Snapshot` of status and listings, and the output of `git rev-parse HEAD`
 * before and after the commit. `toLocaleString('zh-TW')` is the
 * `timestamp` parameter; the handle `setInterval` returns is `timer`.
 */
module AutoCommitScript {
  import opened Base
  import opened Text
  import opened GitText

  /** The settings of `CONFIG` that the class reads. */
  const Repository := "HenryLin0914/demo1023"
  const Branch := "main"
  const AutoPush := true
  const CheckInterval := 30000

  // ---------------------------------------------------------------------------
  // Queries

  /** `getLastCommitHash()`: the trimmed output of `git rev-parse HEAD`, or null when it raised. */
  function LastCommitHash(head: Option<string>): (hash: Option<string>)
    ensures hash.None? <==> head.None?
  {
    match head
    case None => None
    case Some(out) => Some(Trim(out))
  }

  /** The hash git prints, followed by its line break, is read back as it is. */
  lemma LastCommitHashOfLine(hash: string)
    requires hash == [] || (!IsSpace(hash[0]) && !IsSpace(hash[|hash| - 1]))
    ensures LastCommitHash(Some(hash + "\n")) == Some(hash)
  {
    TrimFinalBreak(hash);
  }

  /** The two lists of `getChangedFiles()`. */
  datatype ChangedFiles = ChangedFiles(unstaged: seq<string>, staged: seq<string>)

  /** `getChangedFiles()`: both listings parsed, or both lists empty when either query raised. */
  function GetChangedFiles(diff: Option<string>, cached: Option<string>): ChangedFiles
  {
    if diff.None? || cached.None? then ChangedFiles([], [])
    else ChangedFiles(OutputLines(diff), OutputLines(cached))
  }

  /**
   * A failed query empties both lists; otherwise each list is read from its
   * own listing, and reading back what git prints for two lists of paths
   * gives the two lists.
   */
  lemma GetChangedFilesCorrect(unstaged: seq<string>, staged: seq<string>, diff: Option<string>, cached: Option<string>)
    requires forall i :: 0 <= i < |unstaged| ==> PlainPath(unstaged[i])
    requires forall i :: 0 <= i < |staged| ==> PlainPath(staged[i])
    ensures diff.None? || cached.None? ==> GetChangedFiles(diff, cached) == ChangedFiles([], [])
    ensures diff.Some? && cached.Some? ==>
              GetChangedFiles(diff, cached).unstaged == OutputLines(diff) &&
              GetChangedFiles(diff, cached).staged == OutputLines(cached)
    ensures GetChangedFiles(Some(Join(unstaged, "\n") + "\n"), Some(Join(staged, "\n") + "\n")) ==
              ChangedFiles(unstaged, staged)
  {
    OutputLinesOfListing(unstaged);
    OutputLinesOfListing(staged);
  }

  // ---------------------------------------------------------------------------
  // generateCommitMessage

  const StagedHeading := "已暫存檔案:"
  const UnstagedHeading := "未暫存檔案:"

  /** The staged section: its heading and bullets, then a blank line. */
  function StagedSection(staged: seq<string>): string
  {
    StagedHeading + "\n" + Join(Bullets(staged), "\n") + "\n\n"
  }

  /** The unstaged section: its heading and bullets, with no final line break. */
  function UnstagedSection(unstaged: seq<string>): string
  {
    UnstagedHeading + "\n" + Join(Bullets(unstaged), "\n")
  }

  /**
   * The lines of the message: the header and a blank line; the staged
   * heading, bullets and a blank line when there are staged paths; the
   * unstaged heading and bullets when there are unstaged paths, and
   * otherwise an empty last line.
   */
  function MessageLines(timestamp: string, files: ChangedFiles): seq<string>
  {
    ["Auto commit: " + timestamp, ""] +
    (if files.staged != [] then [StagedHeading] + Bullets(files.staged) + [""] else []) +
    (if files.unstaged != [] then [UnstagedHeading] + Bullets(files.unstaged) else [""])
  }

  /** The message of auto-commit.js: its lines joined by line breaks. */
  function CommitMessage(timestamp: string, files: ChangedFiles): string
  {
    Join(MessageLines(timestamp, files), "\n")
  }

  /** A heading followed by its bullets, joined by line breaks. */
  lemma JoinSection(heading: string, files: seq<string>)
    requires files != []
    ensures Join([heading] + Bullets(files), "\n") == heading + "\n" + Join(Bullets(files), "\n")
  {
    JoinConcat([heading], Bullets(files), "\n");
  }

  /** The lines of the staged section, joined. */
  lemma StagedLinesText(staged: seq<string>)
    requires staged != []
    ensures Join([StagedHeading] + Bullets(staged) + [""], "\n") == StagedHeading + "\n" + Join(Bullets(staged), "\n") + "\n"
  {
    JoinSection(StagedHeading, staged);
    JoinAppendOne([StagedHeading] + Bullets(staged), "", "\n");
  }

  /** The lines after the staged section, joined. */
  lemma TailLinesText(unstaged: seq<string>)
    ensures Join(if unstaged != [] then [UnstagedHeading] + Bullets(unstaged) else [""], "\n") ==
              if unstaged != [] then UnstagedSection(unstaged) else ""
  {
    if unstaged != [] {
      JoinSection(UnstagedHeading, unstaged);
    }
  }

  lemma RegroupStaged(h: string, section: string, tail: string)
    ensures h + "\n" + "\n" + (section + "\n") + "\n" + tail == h + "\n\n" + (section + "\n\n") + tail
  {
  }

  lemma RegroupPlain(h: string, tail: string)
    ensures h + "\n" + "\n" + tail == h + "\n\n" + "" + tail
  {
  }

  /** The lines of a message, joined, when no path is staged. */
  lemma MessageTextPlain(timestamp: string, files: ChangedFiles)
    requires files.staged == []
    ensures CommitMessage(timestamp, files) ==
              "Auto commit: " + timestamp + "\n\n" + "" +
              (if files.unstaged != [] then UnstagedSection(files.unstaged) else "")
  {
    var h := "Auto commit: " + timestamp;
    var head := [h, ""];
    var tail := if files.unstaged != [] then [UnstagedHeading] + Bullets(files.unstaged) else [""];
    var tailText := if files.unstaged != [] then UnstagedSection(files.unstaged) else "";
    assert Join(head, "\n") == h + "\n" + "" == h + "\n";
    TailLinesText(files.unstaged);
    assert MessageLines(timestamp, files) == head + tail;
    JoinConcat(head, tail, "\n");
    RegroupPlain(h, tailText);
  }

  /** The lines of a message, joined, when some path is staged. */
  lemma MessageTextStaged(timestamp: string, files: ChangedFiles)
    requires files.staged != []
    ensures CommitMessage(timestamp, files) ==
              "Auto commit: " + timestamp + "\n\n" + StagedSection(files.staged) +
              (if files.unstaged != [] then UnstagedSection(files.unstaged) else "")
  {
    var h := "Auto commit: " + timestamp;
    var head := [h, ""];
    var tail := if files.unstaged != [] then [UnstagedHeading] + Bullets(files.unstaged) else [""];
    var tailText := if files.unstaged != [] then UnstagedSection(files.unstaged) else "";
    assert Join(head, "\n") == h + "\n" + "" == h + "\n";
    TailLinesText(files.unstaged);
    var staged := [StagedHeading] + Bullets(files.staged) + [""];
    var section := StagedHeading + "\n" + Join(Bullets(files.staged), "\n");
    StagedLinesText(files.staged);
    JoinConcat(head, staged, "\n");
    JoinConcat(head + staged, tail, "\n");
    assert MessageLines(timestamp, files) == head + staged + tail;
    RegroupStaged(h, section, tailText);
  }

  /** The message is the header followed by the sections present, as the script appends them. */
  lemma MessageText(timestamp: string, files: ChangedFiles)
    ensures CommitMessage(timestamp, files) ==
              "Auto commit: " + timestamp + "\n\n" +
              (if files.staged != [] then StagedSection(files.staged) else "") +
              (if files.unstaged != [] then UnstagedSection(files.unstaged) else "")
  {
    if files.staged == [] {
      MessageTextPlain(timestamp, files);
    } else {
      MessageTextStaged(timestamp, files);
    }
  }

  /** `generateCommitMessage()` for the two listings read when it runs. */
  method GenerateCommitMessage(timestamp: string, diff: Option<string>, cached: Option<string>)
    returns (message: string)
    ensures message == CommitMessage(timestamp, GetChangedFiles(diff, cached))
  {
    var changedFiles := GetChangedFiles(diff, cached);
    message := "Auto commit: " + timestamp + "\n\n";
    if |changedFiles.staged| > 0 {
      message := message + StagedSection(changedFiles.staged);
    }
    if |changedFiles.unstaged| > 0 {
      message := message + UnstagedSection(changedFiles.unstaged);
    }
    MessageText(timestamp, changedFiles);
  }

  /** The message splits back, at its line breaks, into its lines. */
  lemma CommitMessageParses(timestamp: string, files: ChangedFiles)
    requires '\n' !in timestamp
    requires forall i :: 0 <= i < |files.unstaged| ==> '\n' !in files.unstaged[i]
    requires forall i :: 0 <= i < |files.staged| ==> '\n' !in files.staged[i]
    ensures Split(CommitMessage(timestamp, files), '\n') == MessageLines(timestamp, files)
  {
    var lines := MessageLines(timestamp, files);
    var s := |files.staged|;
    var n := if files.staged != [] then 2 + 1 + s + 1 else 2;
    forall i | 0 <= i < |lines| ensures '\n' !in lines[i] {
      if i == 0 {
        assert lines[0] == "Auto commit: " + timestamp;
      } else if files.staged != [] && 3 <= i < 3 + s {
        assert lines[i] == "- " + files.staged[i - 3];
      } else if files.unstaged != [] && n + 1 <= i {
        assert lines[i] == "- " + files.unstaged[i - n - 1];
      }
    }
    SplitJoin(lines, '\n');
  }

  /**
   * Each section is present exactly when its list is non-empty, the staged
   * section comes first, and the message ends with the last unstaged path
   * (no final line break) or, without unstaged paths, with a line break.
   */
  lemma SectionsCorrect(timestamp: string, files: ChangedFiles)
    ensures StagedHeading in MessageLines(timestamp, files) <==> files.staged != []
    ensures UnstagedHeading in MessageLines(timestamp, files) <==> files.unstaged != []
    ensures files.staged != [] ==> MessageLines(timestamp, files)[2] == StagedHeading
    ensures files.unstaged != [] ==>
              MessageLines(timestamp, files)[|MessageLines(timestamp, files)| - 1] ==
                "- " + files.unstaged[|files.unstaged| - 1]
    ensures files.unstaged == [] ==> MessageLines(timestamp, files)[|MessageLines(timestamp, files)| - 1] == ""
  {
    var lines := MessageLines(timestamp, files);
    var s := |files.staged|;
    var n := if files.staged != [] then 2 + 1 + s + 1 else 2;
    assert StagedHeading[0] == '已' && UnstagedHeading[0] == '未';
    forall i | 0 <= i < |lines|
      ensures lines[i] == "" || lines[i][0] == 'A' || lines[i][0] == '-' ||
              (files.staged != [] && i == 2 && lines[i] == StagedHeading) ||
              (files.unstaged != [] && i == n && lines[i] == UnstagedHeading)
    {
      if i == 0 {
        assert lines[0] == "Auto commit: " + timestamp;
      } else if files.staged != [] && 3 <= i < 3 + s {
        assert lines[i] == "- " + files.staged[i - 3];
      } else if files.unstaged != [] && n + 1 <= i {
        assert lines[i] == "- " + files.unstaged[i - n - 1];
      }
    }
    if files.staged != [] {
      assert lines[2] == StagedHeading;
    }
    if files.unstaged != [] {
      assert lines[n] == UnstagedHeading;
    }
  }

  // ---------------------------------------------------------------------------
  // The automation object

  /** Whether a round reaches its commit: there are changes, and add and commit returned. */
  predicate Committed(view: Snapshot, outcome: nat -> Exec)
  {
    HasChanges(view.status) && outcome(0).Ok? && outcome(1).Ok?
  }

  /** The commands `performAutoCommit` issues: none without changes, else the plan up to the first that raises. */
  function RoundIssued(view: Snapshot, timestamp: string, outcome: nat -> Exec): seq<Command>
  {
    if !HasChanges(view.status) then []
    else Run(Plan(CommitMessage(timestamp, GetChangedFiles(view.diff, view.cached)), AutoPush), outcome).issued
  }

  /**
   * Without changes nothing is issued; otherwise add, then the commit with
   * the generated message, then the push, each only if the one before it
   * returned; the push is issued exactly when the round committed.
   */
  lemma RoundOrder(view: Snapshot, timestamp: string, outcome: nat -> Exec)
    ensures RoundIssued(view, timestamp, outcome) == [] <==> !HasChanges(view.status)
    ensures HasChanges(view.status) ==>
              RoundIssued(view, timestamp, outcome) <=
                [Add, Commit(CommitMessage(timestamp, GetChangedFiles(view.diff, view.cached))), Push]
    ensures Push in RoundIssued(view, timestamp, outcome) <==> Committed(view, outcome)
  {
    var message := CommitMessage(timestamp, GetChangedFiles(view.diff, view.cached));
    RunPlan(message, AutoPush, outcome);
    assert Plan(message, AutoPush) == [Add, Commit(message), Push];
    assert Push !in [Add] && Push !in [Add, Commit(message)];
  }

  class AutoCommit {
    var isRunning: bool
    /** The handle of the periodic check, `None` before the first start and after a stop. */
    var intervalId: Option<nat>
    var lastCommitHash: Option<string>

    /** The periodic check is scheduled exactly while the automation runs. */
    ghost predicate Valid()
      reads this
    {
      isRunning <==> intervalId.Some?
    }

    /** `new AutoCommit()`, reading the head commit through `head`. */
    constructor(head: Option<string>)
      ensures !isRunning && intervalId.None? && lastCommitHash == LastCommitHash(head)
      ensures Valid()
    {
      isRunning := false;
      intervalId := None;
      lastCommitHash := LastCommitHash(head);
    }

    /**
     * `performAutoCommit()`: the commands issued, up to the first that
     * raises (the exception is caught). After a commit that returned the
     * head commit is read again, through `headAfter`.
     */
    method PerformAutoCommit(view: Snapshot, timestamp: string, headAfter: Option<string>, outcome: nat -> Exec)
      returns (issued: seq<Command>)
      modifies this
      ensures issued == RoundIssued(view, timestamp, outcome)
      ensures lastCommitHash == if Committed(view, outcome) then LastCommitHash(headAfter) else old(lastCommitHash)
      ensures isRunning == old(isRunning) && intervalId == old(intervalId)
    {
      if !HasChanges(view.status) {
        return [];
      }
      issued := [Add];
      if outcome(0).Raised? {
        RunPlan(CommitMessage(timestamp, GetChangedFiles(view.diff, view.cached)), AutoPush, outcome);
        return;
      }
      var commitMessage := GenerateCommitMessage(timestamp, view.diff, view.cached);
      RunPlan(commitMessage, AutoPush, outcome);
      issued := issued + [Commit(commitMessage)];
      if outcome(1).Raised? {
        return;
      }
      lastCommitHash := LastCommitHash(headAfter);
      if AutoPush {
        issued := issued + [Push];
      }
    }

    /** `start()`: does nothing while running; otherwise runs one round at once and schedules the check. */
    method Start(view: Snapshot, timestamp: string, headAfter: Option<string>, outcome: nat -> Exec, timer: nat)
      returns (issued: seq<Command>)
      requires Valid()
      modifies this
      ensures Valid()
      ensures old(isRunning) ==>
                isRunning && intervalId == old(intervalId) && lastCommitHash == old(lastCommitHash) && issued == []
      ensures !old(isRunning) ==>
                isRunning && intervalId == Some(timer) && issued == RoundIssued(view, timestamp, outcome) &&
                lastCommitHash == if Committed(view, outcome) then LastCommitHash(headAfter) else old(lastCommitHash)
    {
      if isRunning {
        return [];
      }
      isRunning := true;
      issued := PerformAutoCommit(view, timestamp, headAfter, outcome);
      intervalId := Some(timer);
    }

    /** `stop()`: does nothing while stopped; otherwise clears the flag and the schedule. */
    method Stop()
      requires Valid()
      modifies this
      ensures Valid()
      ensures !isRunning && lastCommitHash == old(lastCommitHash)
      ensures old(isRunning) ==> intervalId.None?
      ensures !old(isRunning) ==> intervalId == old(intervalId)
    {
      if !isRunning {
        return;
      }
      isRunning := false;
      if intervalId.Some? {
        intervalId := None;
      }
    }

    /** `manualCommit()`: one round, exactly as `performAutoCommit`. */
    method ManualCommit(view: Snapshot, timestamp: string, headAfter: Option<string>, outcome: nat -> Exec)
      returns (issued: seq<Command>)
      modifies this
      ensures issued == RoundIssued(view, timestamp, outcome)
      ensures lastCommitHash == if Committed(view, outcome) then LastCommitHash(headAfter) else old(lastCommitHash)
      ensures isRunning == old(isRunning) && intervalId == old(intervalId)
    {
      issued := PerformAutoCommit(view, timestamp, headAfter, outcome);
    }
  }
}
