/**
 * git-automation.js: the `GitAutomation` class, which checks for changes,
 * stages everything, commits with a message listing the kinds of files
 * changed and the changed paths, pushes when `autoPush` is set, and
 * starts and stops a periodic check.
 *
 * The outputs of `git status --porcelain`, `git diff --name-only` and
 * `git diff --cached --name-only` at the time they are read form a
 * `Snapshot`; `toLocaleString('zh-TW')` is the `timestamp` parameter; the
 * timer handle `setInterval` returns is the `timer` parameter.
 */
module GitAutomation {
  import opened Base
  import opened Text
  import opened Tally
  import opened GitText

  // ---------------------------------------------------------------------------
  // analyzeFileTypes

  datatype Kind = Html | Js | Css | Json | Md | Other

  /** The one bucket a path falls in: the first of the five suffixes it ends with, else `other`. */
  function KindOf(file: string): Kind
  {
    if EndsWith(file, ".html") then Html
    else if EndsWith(file, ".js") then Js
    else if EndsWith(file, ".css") then Css
    else if EndsWith(file, ".json") then Json
    else if EndsWith(file, ".md") then Md
    else Other
  }

  /** The six counters of `analyzeFileTypes`. */
  datatype FileTypes = FileTypes(html: nat, js: nat, css: nat, json: nat, md: nat, other: nat)
  {
    function Get(k: Kind): nat
    {
      match k
      case Html => html
      case Js => js
      case Css => css
      case Json => json
      case Md => md
      case Other => other
    }

    /** The counter of `k` increased by one. */
    function Bump(k: Kind): (t: FileTypes)
      ensures t.Get(k) == Get(k) + 1
      ensures forall j :: j != k ==> t.Get(j) == Get(j)
    {
      match k
      case Html => this.(html := html + 1)
      case Js => this.(js := js + 1)
      case Css => this.(css := css + 1)
      case Json => this.(json := json + 1)
      case Md => this.(md := md + 1)
      case Other => this.(other := other + 1)
    }

    function Total(): nat
    {
      html + js + css + json + md + other
    }
  }

  const NoFiles := FileTypes(0, 0, 0, 0, 0, 0)

  /** The counters after visiting `files` in order. */
  function Tallied(files: seq<string>): FileTypes
  {
    if files == [] then NoFiles
    else Tallied(files[..|files| - 1]).Bump(KindOf(files[|files| - 1]))
  }

  /** Whether a path falls in bucket `k`. */
  function InKind(k: Kind): string -> bool
  {
    (f: string) => KindOf(f) == k
  }

  /** The paths that fall in bucket `k`. */
  function OfKind(files: seq<string>, k: Kind): seq<string>
  {
    Filter(files, InKind(k))
  }

  /** Each counter is the number of paths in its bucket. */
  lemma {:induction false} TalliedCount(files: seq<string>, k: Kind)
    ensures Tallied(files).Get(k) == |OfKind(files, k)|
  {
    if files != [] {
      var p := files[..|files| - 1];
      var f := files[|files| - 1];
      TalliedCount(p, k);
      assert files == p + [f];
      FilterAppend(p, [f], InKind(k));
      assert Filter([f], InKind(k)) == if KindOf(f) == k then [f] else [];
      assert Tallied(files) == Tallied(p).Bump(KindOf(f));
    }
  }

  /** Every path is counted in exactly one bucket, so the six counters add up to the number of paths. */
  lemma {:induction false} TalliedTotal(files: seq<string>)
    ensures Tallied(files).Total() == |files|
  {
    if files != [] {
      TalliedTotal(files[..|files| - 1]);
    }
  }

  /** Counting the concatenation of two lists counts a path in both twice. */
  lemma TalliedAppend(a: seq<string>, b: seq<string>, k: Kind)
    ensures Tallied(a + b).Get(k) == Tallied(a).Get(k) + Tallied(b).Get(k)
  {
    TalliedCount(a + b, k);
    TalliedCount(a, k);
    TalliedCount(b, k);
    FilterAppend(a, b, InKind(k));
  }

  /** `analyzeFileTypes(files)`. */
  method AnalyzeFileTypes(files: seq<string>) returns (types: FileTypes)
    ensures types == Tallied(files)
  {
    types := NoFiles;
    for i := 0 to |files|
      invariant types == Tallied(files[..i])
    {
      var file := files[i];
      assert files[..i + 1][..i] == files[..i];
      if EndsWith(file, ".html") {
        types := types.(html := types.html + 1);
      } else if EndsWith(file, ".js") {
        types := types.(js := types.js + 1);
      } else if EndsWith(file, ".css") {
        types := types.(css := types.css + 1);
      } else if EndsWith(file, ".json") {
        types := types.(json := types.json + 1);
      } else if EndsWith(file, ".md") {
        types := types.(md := types.md + 1);
      } else {
        types := types.(other := types.other + 1);
      }
    }
    assert files[..|files|] == files;
  }

  // ---------------------------------------------------------------------------
  // generateCommitMessage

  const JsonLine := "📋 更新配置檔案"
  const MdLine := "📝 更新文檔檔案"

  /** The line for one bucket, present when its counter is positive. */
  function TypeLine(count: nat, line: string): seq<string>
  {
    if count > 0 then [line] else []
  }

  /** One line per non-empty bucket, in the order html, js, css, json, md. */
  function TypeLines(t: FileTypes): seq<string>
  {
    TypeLine(t.html, HtmlLine) + TypeLine(t.js, JsLine) + TypeLine(t.css, CssLine) +
    TypeLine(t.json, JsonLine) + TypeLine(t.md, MdLine)
  }

  /**
   * The lines of the message: the header and a blank line, the type lines
   * of the concatenated lists, a blank line, the heading, and one bullet
   * per distinct path in order of first appearance.
   */
  function MessageLines(timestamp: string, changed: seq<string>, staged: seq<string>): seq<string>
  {
    ["Auto commit: " + timestamp, ""] + TypeLines(Tallied(changed + staged)) + ["", FilesHeading] +
    Bullets(FirstOccurrences(changed + staged))
  }

  /** The message of git-automation.js: every line followed by a line break. */
  function CommitMessage(timestamp: string, changed: seq<string>, staged: seq<string>): string
  {
    Unlines(MessageLines(timestamp, changed, staged))
  }

  lemma TypeLineStep(lines: seq<string>, count: nat, line: string)
    ensures Unlines(lines + TypeLine(count, line)) ==
              if count > 0 then Unlines(lines) + line + "\n" else Unlines(lines)
  {
    if count > 0 {
      UnlinesSnoc(lines, line);
    } else {
      assert lines + TypeLine(count, line) == lines;
    }
  }

  lemma AppendTypeLines(lines: seq<string>, t: FileTypes)
    ensures lines + TypeLines(t) ==
              lines + TypeLine(t.html, HtmlLine) + TypeLine(t.js, JsLine) + TypeLine(t.css, CssLine) +
              TypeLine(t.json, JsonLine) + TypeLine(t.md, MdLine)
  {
  }

  lemma HeadingStep(lines: seq<string>)
    ensures Unlines(lines + ["", FilesHeading]) == Unlines(lines) + "\n" + FilesHeading + "\n"
  {
    UnlinesPush(lines, [], "");
    UnlinesPush(lines, [""], FilesHeading);
    assert [] + [""] == [""] && [""] + [FilesHeading] == ["", FilesHeading];
    assert lines + [] == lines;
  }

  /** The five `if`s of `generateCommitMessage`: a line for each non-empty bucket. */
  method WriteTypeLines(message: string, fileTypes: FileTypes) returns (m: string)
    ensures m == message + Unlines(TypeLines(fileTypes))
  {
    m := message;
    ghost var lines: seq<string> := [];
    assert m == message + Unlines(lines);
    TypeLineStep(lines, fileTypes.html, HtmlLine);
    AppendAssociates(message, Unlines(lines), HtmlLine, "\n");
    if fileTypes.html > 0 {
      m := m + HtmlLine + "\n";
    }
    lines := lines + TypeLine(fileTypes.html, HtmlLine);
    assert m == message + Unlines(lines);
    TypeLineStep(lines, fileTypes.js, JsLine);
    AppendAssociates(message, Unlines(lines), JsLine, "\n");
    if fileTypes.js > 0 {
      m := m + JsLine + "\n";
    }
    lines := lines + TypeLine(fileTypes.js, JsLine);
    assert m == message + Unlines(lines);
    TypeLineStep(lines, fileTypes.css, CssLine);
    AppendAssociates(message, Unlines(lines), CssLine, "\n");
    if fileTypes.css > 0 {
      m := m + CssLine + "\n";
    }
    lines := lines + TypeLine(fileTypes.css, CssLine);
    assert m == message + Unlines(lines);
    TypeLineStep(lines, fileTypes.json, JsonLine);
    AppendAssociates(message, Unlines(lines), JsonLine, "\n");
    if fileTypes.json > 0 {
      m := m + JsonLine + "\n";
    }
    lines := lines + TypeLine(fileTypes.json, JsonLine);
    assert m == message + Unlines(lines);
    TypeLineStep(lines, fileTypes.md, MdLine);
    AppendAssociates(message, Unlines(lines), MdLine, "\n");
    if fileTypes.md > 0 {
      m := m + MdLine + "\n";
    }
    lines := lines + TypeLine(fileTypes.md, MdLine);
    assert m == message + Unlines(lines);
    AppendTypeLines([], fileTypes);
    assert [] + TypeLines(fileTypes) == TypeLines(fileTypes);
  }

  /** The `forEach` of `generateCommitMessage`: a "- path" line for each path. */
  method WriteBullets(message: string, files: seq<string>) returns (m: string)
    ensures m == message + Unlines(Bullets(files))
  {
    m := message;
    for i := 0 to |files|
      invariant m == message + Unlines(Bullets(files[..i]))
    {
      var bullet := "- " + files[i];
      UnlinesBulletStep(files, i);
      AppendAssociates(message, Unlines(Bullets(files[..i])), bullet, "\n");
      m := m + bullet + "\n";
    }
    assert files[..|files|] == files;
  }

  /** The pieces `generateCommitMessage` writes, one after another, make up the message. */
  lemma MessageAssembled(timestamp: string, changed: seq<string>, staged: seq<string>)
    ensures "Auto commit: " + timestamp + "\n\n" + Unlines(TypeLines(Tallied(changed + staged))) + "\n" + FilesHeading +
            "\n" + Unlines(Bullets(FirstOccurrences(changed + staged))) == CommitMessage(timestamp, changed, staged)
  {
    var header := ["Auto commit: " + timestamp, ""];
    var types := TypeLines(Tallied(changed + staged));
    var bullets := Bullets(FirstOccurrences(changed + staged));
    HeaderText("Auto commit: " + timestamp);
    UnlinesAppend(header, types);
    HeadingStep(header + types);
    UnlinesAppend(header + types + ["", FilesHeading], bullets);
  }

  /** `generateCommitMessage()` for the two listings read when it runs. */
  method GenerateCommitMessage(timestamp: string, diff: Option<string>, cached: Option<string>)
    returns (message: string)
    ensures message == CommitMessage(timestamp, OutputLines(diff), OutputLines(cached))
  {
    var changedFiles := OutputLines(diff);
    var stagedFiles := OutputLines(cached);
    message := "Auto commit: " + timestamp + "\n\n";
    var fileTypes := AnalyzeFileTypes(changedFiles + stagedFiles);
    message := WriteTypeLines(message, fileTypes);
    message := message + "\n" + FilesHeading + "\n";
    message := WriteBullets(message, FirstOccurrences(changedFiles + stagedFiles));
    MessageAssembled(timestamp, changedFiles, stagedFiles);
  }

  /**
   * The message splits back into its lines: the header, the type lines, the
   * heading and the bullets, with an empty tail after the final line break.
   */
  lemma CommitMessageParses(timestamp: string, changed: seq<string>, staged: seq<string>)
    requires '\n' !in timestamp
    requires forall i :: 0 <= i < |changed| ==> '\n' !in changed[i]
    requires forall i :: 0 <= i < |staged| ==> '\n' !in staged[i]
    ensures Split(CommitMessage(timestamp, changed, staged), '\n') == MessageLines(timestamp, changed, staged) + [""]
  {
    var lines := MessageLines(timestamp, changed, staged);
    var all := changed + staged;
    var listed := FirstOccurrences(all);
    forall i | 0 <= i < |lines| ensures '\n' !in lines[i] {
      var n := |lines| - |listed|;
      if i >= n {
        var f := listed[i - n];
        FirstOccurrencesMember(all, f);
        var j :| 0 <= j < |all| && all[j] == f;
        assert lines[i] == "- " + f;
        assert j < |changed| ==> changed[j] == f;
        assert j >= |changed| ==> staged[j - |changed|] == f;
      } else if i == 0 {
        assert lines[0] == "Auto commit: " + timestamp;
      }
    }
    UnlinesSplit(lines);
  }

  /** The bullets list each path of either list, and nothing else; `FirstOccurrences` lists each once. */
  lemma ListedFilesCorrect(changed: seq<string>, staged: seq<string>, f: string)
    ensures "- " + f in Bullets(FirstOccurrences(changed + staged)) <==> f in changed || f in staged
  {
    var listed := FirstOccurrences(changed + staged);
    FirstOccurrencesMember(changed + staged, f);
    if "- " + f in Bullets(listed) {
      var i :| 0 <= i < |listed| && Bullets(listed)[i] == "- " + f;
      assert ("- " + f)[2..] == f && ("- " + listed[i])[2..] == listed[i];
    }
    if f in listed {
      var i :| 0 <= i < |listed| && listed[i] == f;
      assert Bullets(listed)[i] == "- " + f;
    }
  }

  /** A counter is positive exactly when some path falls in its bucket. */
  lemma TalliedPositive(files: seq<string>, k: Kind)
    ensures Tallied(files).Get(k) > 0 <==> exists i :: 0 <= i < |files| && KindOf(files[i]) == k
  {
    TalliedCount(files, k);
    if Tallied(files).Get(k) > 0 {
      var f := OfKind(files, k)[0];
      FilterMember(files, InKind(k), f);
    }
    if i :| 0 <= i < |files| && KindOf(files[i]) == k {
      FilterMember(files, InKind(k), files[i]);
    }
  }

  /** The five type lines are told apart by their first character. */
  lemma TypeLinesDistinct()
    ensures HtmlLine[0] == '🌐' && JsLine[0] == '⚡' && CssLine[0] == '🎨'
    ensures JsonLine[0] == '📋' && MdLine[0] == '📝'
  {
  }

  /** Each type line is in the message exactly when its counter is positive. */
  lemma TypeLinesCorrect(t: FileTypes)
    ensures HtmlLine in TypeLines(t) <==> t.html > 0
    ensures JsLine in TypeLines(t) <==> t.js > 0
    ensures CssLine in TypeLines(t) <==> t.css > 0
    ensures JsonLine in TypeLines(t) <==> t.json > 0
    ensures MdLine in TypeLines(t) <==> t.md > 0
    ensures |TypeLines(t)| <= 5
  {
    TypeLinesDistinct();
  }

  // ---------------------------------------------------------------------------
  // The automation object

  /** A custom message is committed, then pushed when `autoPush` is set, up to the first command that raises. */
  lemma RunCustom(message: string, autoPush: bool, outcome: nat -> Exec)
    ensures Run([Commit(message)] + (if autoPush then [Push] else []), outcome) ==
              if outcome(0).Raised? then Ran([Commit(message)], Some(outcome(0).message))
              else if !autoPush then Ran([Commit(message)], None)
              else if outcome(1).Raised? then Ran([Commit(message), Push], Some(outcome(1).message))
              else Ran([Commit(message), Push], None)
  {
    var plan := [Commit(message)] + (if autoPush then [Push] else []);
    if outcome(0).Raised? {
      assert plan[..1] == [Commit(message)];
    } else if !autoPush {
      assert RunFrom(plan, outcome, 0) == RunFrom(plan, outcome, 1);
      assert plan == [Commit(message)];
    } else {
      assert RunFrom(plan, outcome, 0) == RunFrom(plan, outcome, 1);
      assert plan[..2] == plan == [Commit(message), Push];
      assert RunFrom(plan, outcome, 1).issued == plan;
    }
  }

  /** The commands `performAutoCommit` issues: none without changes, else the plan up to the first that raises. */
  function AutoCommitIssued(view: Snapshot, timestamp: string, autoPush: bool, outcome: nat -> Exec): seq<Command>
  {
    if !HasChanges(view.status) then []
    else Run(Plan(CommitMessage(timestamp, OutputLines(view.diff), OutputLines(view.cached)), autoPush), outcome).issued
  }

  /**
   * Without changes no command is issued; otherwise add comes first, then the
   * commit with the generated message, then a push only when `autoPush` is
   * set, each only if the one before it returned.
   */
  lemma AutoCommitOrder(view: Snapshot, timestamp: string, autoPush: bool, outcome: nat -> Exec)
    ensures AutoCommitIssued(view, timestamp, autoPush, outcome) == [] <==> !HasChanges(view.status)
    ensures AutoCommitIssued(view, timestamp, autoPush, outcome) <=
              Plan(CommitMessage(timestamp, OutputLines(view.diff), OutputLines(view.cached)), autoPush)
    ensures Push in AutoCommitIssued(view, timestamp, autoPush, outcome) <==>
              HasChanges(view.status) && autoPush && outcome(0).Ok? && outcome(1).Ok?
  {
    var plan := Plan(CommitMessage(timestamp, OutputLines(view.diff), OutputLines(view.cached)), autoPush);
    RunCorrect(plan, outcome);
    var issued := Run(plan, outcome).issued;
    if HasChanges(view.status) {
      assert RunFrom(plan, outcome, 0).issued != [];
      if Push in issued {
        var i :| 0 <= i < |issued| && issued[i] == Push;
        assert plan[i] == Push;
        assert i == 2;
      }
      if autoPush && outcome(0).Ok? && outcome(1).Ok? {
        assert RunFrom(plan, outcome, 2).issued[2] == Push;
      }
    }
  }

  class Automation {
    const repository: string
    const branch: string
    const checkInterval: nat
    var autoPush: bool
    var isRunning: bool
    /** The handle of the periodic check, `None` before the first start and after a stop. */
    var intervalId: Option<nat>

    /** The periodic check is scheduled exactly while the automation runs. */
    ghost predicate Valid()
      reads this
    {
      isRunning <==> intervalId.Some?
    }

    constructor()
      ensures repository == "HenryLin0914/demo1023" && branch == "main" && checkInterval == 30000
      ensures autoPush && !isRunning && intervalId.None?
      ensures Valid()
    {
      repository := "HenryLin0914/demo1023";
      branch := "main";
      autoPush := true;
      checkInterval := 30000;
      isRunning := false;
      intervalId := None;
    }

    /** `performAutoCommit()`: the commands it issues; a command that raises ends the round and is caught. */
    method PerformAutoCommit(view: Snapshot, timestamp: string, outcome: nat -> Exec) returns (issued: seq<Command>)
      ensures issued == AutoCommitIssued(view, timestamp, autoPush, outcome)
    {
      if !HasChanges(view.status) {
        return [];
      }
      issued := [Add];
      if outcome(0).Raised? {
        RunPlan(CommitMessage(timestamp, OutputLines(view.diff), OutputLines(view.cached)), autoPush, outcome);
        return;
      }
      var commitMessage := GenerateCommitMessage(timestamp, view.diff, view.cached);
      RunPlan(commitMessage, autoPush, outcome);
      issued := issued + [Commit(commitMessage)];
      if outcome(1).Raised? {
        return;
      }
      if autoPush {
        issued := issued + [Push];
      }
    }

    /**
     * `manualCommit(customMessage)`: a non-empty custom message is committed
     * directly, otherwise a full commit round runs; either way a push
     * follows when `autoPush` is set. Nothing here catches: the message of a
     * command that raises is returned in `raised`.
     */
    method ManualCommit(customMessage: Option<string>, view: Snapshot, timestamp: string, outcome: nat -> Exec)
      returns (issued: seq<Command>, raised: Option<string>)
      ensures customMessage.Some? && customMessage.value != "" ==>
                issued == Run([Commit(customMessage.value)] + (if autoPush then [Push] else []), outcome).issued &&
                raised == Run([Commit(customMessage.value)] + (if autoPush then [Push] else []), outcome).error
      ensures !(customMessage.Some? && customMessage.value != "") ==>
                var auto := AutoCommitIssued(view, timestamp, autoPush, outcome);
                issued == auto + (if autoPush then [Push] else []) &&
                raised == (if autoPush && outcome(|auto|).Raised? then Some(outcome(|auto|).message) else None)
    {
      if customMessage.Some? && customMessage.value != "" {
        RunCustom(customMessage.value, autoPush, outcome);
        issued := [Commit(customMessage.value)];
        if outcome(0).Raised? {
          return issued, Some(outcome(0).message);
        }
        if autoPush {
          issued := issued + [Push];
          if outcome(1).Raised? {
            return issued, Some(outcome(1).message);
          }
        }
        return issued, None;
      }
      issued := PerformAutoCommit(view, timestamp, outcome);
      raised := None;
      if autoPush {
        if outcome(|issued|).Raised? {
          raised := Some(outcome(|issued|).message);
        }
        issued := issued + [Push];
      }
    }

    /** `start()`: does nothing while running; otherwise runs one round at once and schedules the check. */
    method Start(view: Snapshot, timestamp: string, outcome: nat -> Exec, timer: nat) returns (issued: seq<Command>)
      requires Valid()
      modifies this
      ensures Valid()
      ensures autoPush == old(autoPush)
      ensures old(isRunning) ==> isRunning && intervalId == old(intervalId) && issued == []
      ensures !old(isRunning) ==>
                isRunning && intervalId == Some(timer) && issued == AutoCommitIssued(view, timestamp, autoPush, outcome)
    {
      if isRunning {
        return [];
      }
      isRunning := true;
      issued := PerformAutoCommit(view, timestamp, outcome);
      intervalId := Some(timer);
    }

    /** `stop()`: does nothing while stopped; otherwise clears the flag and the schedule. */
    method Stop()
      requires Valid()
      modifies this
      ensures Valid()
      ensures autoPush == old(autoPush)
      ensures !isRunning
      ensures old(isRunning) ==> intervalId.None?
      ensures !old(isRunning) ==> intervalId == old(intervalId)
    {
      if !isRunning {
        return;
      }
      isRunning := false;
      if intervalId.Some? {
        intervalId := None;
      }
    }
  }

  /**
   * A manual commit without a custom message pushes twice when every command
   * returns: once at the end of the commit round and once more after it.
   */
  lemma ManualCommitPushesTwice(view: Snapshot, timestamp: string, outcome: nat -> Exec)
    requires HasChanges(view.status)
    requires forall k :: 0 <= k < 4 ==> outcome(k) == Ok
    ensures AutoCommitIssued(view, timestamp, true, outcome) + [Push] ==
              [Add, Commit(CommitMessage(timestamp, OutputLines(view.diff), OutputLines(view.cached))), Push, Push]
  {
    var plan := Plan(CommitMessage(timestamp, OutputLines(view.diff), OutputLines(view.cached)), true);
    RunCorrect(plan, outcome);
  }
}
