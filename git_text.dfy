/**
 * What the four git scripts share: reading the output of a git query as a
 * list of paths, deciding whether `git status --porcelain` reports changes,
 * the "- path" bullet lines of commit messages, and the commands that change
 * the repository (add, commit, push) run one after another until one raises.
 *
 * Git itself is not modelled. The output of a query is a parameter
 * (`None` when `execSync` raised), and so is the outcome of each command
 * that changes the repository, indexed by its position in the sequence a
 * method issues.
 */
module GitText {
  import opened Base
  import opened Text

  /** A git command that changes the repository: `git add .`, `git commit -m …`, `git push origin main`. */
  datatype Command = Add | Commit(message: string) | Push

  /** What `execSync` did with a command: returned, or raised with a message. */
  datatype Exec = Ok | Raised(message: string)

  /** The commands issued, and the message of the one that raised, if any. */
  datatype Ran = Ran(issued: seq<Command>, error: Option<string>)

  /** The commands of `plan` from position `i` on, stopping after the first that raises. */
  function RunFrom(plan: seq<Command>, outcome: nat -> Exec, i: nat): Ran
    requires i <= |plan|
    decreases |plan| - i
  {
    if i == |plan| then Ran(plan, None)
    else if outcome(i).Raised? then Ran(plan[..i + 1], Some(outcome(i).message))
    else RunFrom(plan, outcome, i + 1)
  }

  /** A sequence of `execSync` calls: each command is issued only if every earlier one returned. */
  function Run(plan: seq<Command>, outcome: nat -> Exec): Ran
  {
    RunFrom(plan, outcome, 0)
  }

  lemma {:induction false} RunFromCorrect(plan: seq<Command>, outcome: nat -> Exec, i: nat)
    requires i <= |plan|
    requires forall k :: 0 <= k < i ==> outcome(k) == Ok
    ensures RunFrom(plan, outcome, i).issued <= plan
    ensures RunFrom(plan, outcome, i).error.None? <==> forall k :: 0 <= k < |plan| ==> outcome(k) == Ok
    ensures RunFrom(plan, outcome, i).error.None? ==> RunFrom(plan, outcome, i).issued == plan
    ensures RunFrom(plan, outcome, i).error.Some? ==>
              var n := |RunFrom(plan, outcome, i).issued|;
              n > 0 && outcome(n - 1) == Raised(RunFrom(plan, outcome, i).error.value) &&
              forall k :: 0 <= k < n - 1 ==> outcome(k) == Ok
    decreases |plan| - i
  {
    if i < |plan| && outcome(i).Ok? {
      RunFromCorrect(plan, outcome, i + 1);
    }
  }

  /**
   * The commands issued are a prefix of the plan; all of it exactly when
   * every command returned; otherwise they end with the one that raised,
   * and every command before it returned.
   */
  lemma RunCorrect(plan: seq<Command>, outcome: nat -> Exec)
    ensures Run(plan, outcome).issued <= plan
    ensures Run(plan, outcome).error.None? <==> forall k :: 0 <= k < |plan| ==> outcome(k) == Ok
    ensures Run(plan, outcome).error.None? ==> Run(plan, outcome).issued == plan
    ensures Run(plan, outcome).error.Some? ==>
              var n := |Run(plan, outcome).issued|;
              n > 0 && outcome(n - 1) == Raised(Run(plan, outcome).error.value) &&
              forall k :: 0 <= k < n - 1 ==> outcome(k) == Ok
  {
    RunFromCorrect(plan, outcome, 0);
  }

  /** The commands of one commit round once the message is known. */
  function Plan(message: string, autoPush: bool): seq<Command>
  {
    [Add, Commit(message)] + (if autoPush then [Push] else [])
  }

  /** The plan runs up to the first command that raises. */
  lemma RunPlan(message: string, autoPush: bool, outcome: nat -> Exec)
    ensures Run(Plan(message, autoPush), outcome).issued ==
              if outcome(0).Raised? then [Add]
              else if outcome(1).Raised? then [Add, Commit(message)]
              else Plan(message, autoPush)
  {
    var plan := Plan(message, autoPush);
    if outcome(0).Raised? {
      assert plan[..1] == [Add];
    } else if outcome(1).Raised? {
      assert RunFrom(plan, outcome, 0) == RunFrom(plan, outcome, 1);
      assert plan[..2] == [Add, Commit(message)];
    } else if autoPush {
      assert RunFrom(plan, outcome, 0) == RunFrom(plan, outcome, 1) == RunFrom(plan, outcome, 2);
      assert plan[..3] == plan;
      assert RunFrom(plan, outcome, 2).issued == plan;
    } else {
      assert RunFrom(plan, outcome, 0) == RunFrom(plan, outcome, 1) == RunFrom(plan, outcome, 2);
    }
  }

  // ---------------------------------------------------------------------------
  // Query outputs

  /** The outputs of `git status --porcelain`, `git diff --name-only` and `git diff --cached --name-only` a round reads. */
  datatype Snapshot = Snapshot(status: Option<string>, diff: Option<string>, cached: Option<string>)

  /** `out.trim().split('\n').filter(f => f)`, or `[]` when the command raised. */
  function OutputLines(out: Option<string>): (files: seq<string>)
    ensures forall i :: 0 <= i < |files| ==> files[i] != ""
  {
    match out
    case None => []
    case Some(s) => NonEmpty(Split(Trim(s), '\n'))
  }

  /** Every path read from an output is non-empty and holds no line break. */
  lemma OutputLinesShape(out: Option<string>, i: nat)
    requires i < |OutputLines(out)|
    ensures OutputLines(out)[i] != "" && '\n' !in OutputLines(out)[i]
  {
    if out.Some? {
      var parts := Split(Trim(out.value), '\n');
      FilterMember(parts, (p: string) => p != "", OutputLines(out)[i]);
    }
  }

  /** A path as git prints it on a line of its own: non-empty, no line break, no blank at either end. */
  predicate PlainPath(f: string)
  {
    f != "" && '\n' !in f && !IsSpace(f[0]) && !IsSpace(f[|f| - 1])
  }

  lemma {:induction false} JoinEnds(files: seq<string>)
    requires |files| >= 1 && forall i :: 0 <= i < |files| ==> PlainPath(files[i])
    ensures Join(files, "\n") != [] && !IsSpace(Join(files, "\n")[0])
    ensures Join(files, "\n") != [] && !IsSpace(Join(files, "\n")[|Join(files, "\n")| - 1])
  {
    assert PlainPath(files[0]);
    if |files| > 1 {
      JoinEnds(files[1..]);
      var rest := Join(files[1..], "\n");
      assert Join(files, "\n") == files[0] + "\n" + rest;
    }
  }

  lemma TrimFinalBreak(s: string)
    requires s == [] || (!IsSpace(s[0]) && !IsSpace(s[|s| - 1]))
    ensures Trim(s + "\n") == s
  {
    assert AllSpace("") && AllSpace("\n");
    TrimPadded("", s, "\n");
    assert "" + s + "\n" == s + "\n";
  }

  /** The listing git prints, trimmed, is the paths joined by line breaks. */
  lemma TrimListing(files: seq<string>)
    requires forall i :: 0 <= i < |files| ==> PlainPath(files[i])
    ensures Trim(Join(files, "\n") + "\n") == Join(files, "\n")
  {
    if files != [] {
      JoinEnds(files);
    }
    TrimFinalBreak(Join(files, "\n"));
  }

  /**
   * Reading back the output git prints for a list of paths (each followed
   * by a line break) gives the list: the parsing loses nothing.
   */
  lemma OutputLinesOfListing(files: seq<string>)
    requires forall i :: 0 <= i < |files| ==> PlainPath(files[i])
    ensures OutputLines(Some(Join(files, "\n") + "\n")) == files
  {
    TrimListing(files);
    if files == [] {
      assert Split("", '\n') == [""];
    } else {
      SplitJoin(files, '\n');
      FilterAll(files, (p: string) => p != "");
    }
  }

  /** `status.trim().length > 0`, and `false` when `git status` raised. */
  function HasChanges(status: Option<string>): bool
  {
    status.Some? && |Trim(status.value)| > 0
  }

  /** There are changes exactly when the status output has a character other than whitespace. */
  lemma HasChangesCorrect(status: Option<string>)
    ensures HasChanges(status) <==> status.Some? && !AllSpace(status.value)
  {
    if status.Some? {
      TrimEmpty(status.value);
    }
  }

  // ---------------------------------------------------------------------------
  // Commit messages as lines

  /** The heading of the list of changed paths, and the lines for changed HTML, JavaScript and CSS files. */
  const FilesHeading := "變更檔案:"
  const HtmlLine := "🌐 更新 HTML 檔案"
  const JsLine := "⚡ 更新 JavaScript 檔案"
  const CssLine := "🎨 更新樣式檔案"

  /** `files.map(f => `- ${f}`)`. */
  function Bullets(files: seq<string>): (lines: seq<string>)
    ensures |lines| == |files|
    ensures forall i :: 0 <= i < |files| ==> lines[i] == "- " + files[i]
  {
    Map(files, (f: string) => "- " + f)
  }

  lemma BulletsSnoc(files: seq<string>, f: string)
    ensures Bullets(files + [f]) == Bullets(files) + ["- " + f]
  {
  }

  /** The bullets of one more path of `files`, written after those of the paths before it. */
  lemma UnlinesBulletStep(files: seq<string>, i: nat)
    requires i < |files|
    ensures Unlines(Bullets(files[..i + 1])) == Unlines(Bullets(files[..i])) + ("- " + files[i]) + "\n"
  {
    assert files[..i + 1] == files[..i] + [files[i]];
    BulletsSnoc(files[..i], files[i]);
    UnlinesSnoc(Bullets(files[..i]), "- " + files[i]);
  }

  lemma AppendAssociates(a: string, b: string, c: string, d: string)
    ensures a + b + c + d == a + (b + c + d)
  {
  }

  /** Lines each followed by a line break, as a message built with `message += line + '\n'`. */
  function Unlines(lines: seq<string>): string
  {
    if lines == [] then "" else Unlines(lines[..|lines| - 1]) + lines[|lines| - 1] + "\n"
  }

  lemma UnlinesSnoc(lines: seq<string>, x: string)
    ensures Unlines(lines + [x]) == Unlines(lines) + x + "\n"
  {
    assert (lines + [x])[..|lines|] == lines;
  }

  /** A header line followed by an empty line: the header and two line breaks. */
  lemma HeaderText(header: string)
    ensures Unlines([header, ""]) == header + "\n\n"
  {
    assert [header, ""] == [] + [header] + [""];
    UnlinesSnoc([], header);
    UnlinesSnoc([header], "");
  }

  /** One more line written after a message made of a head and a body. */
  lemma UnlinesPush(head: seq<string>, body: seq<string>, x: string)
    ensures Unlines(head + (body + [x])) == Unlines(head + body) + x + "\n"
  {
    assert head + (body + [x]) == (head + body) + [x];
    UnlinesSnoc(head + body, x);
  }

  lemma {:induction false} UnlinesAppend(a: seq<string>, b: seq<string>)
    ensures Unlines(a + b) == Unlines(a) + Unlines(b)
    decreases |b|
  {
    if b == [] {
      assert a + b == a;
    } else {
      var c := b[..|b| - 1];
      var x := b[|b| - 1];
      assert a + b == (a + c) + [x];
      assert b == c + [x];
      UnlinesAppend(a, c);
      UnlinesSnoc(a + c, x);
      UnlinesSnoc(c, x);
    }
  }

  /** Lines each followed by a break are the lines joined by breaks, plus a final break. */
  lemma {:induction false} UnlinesJoin(lines: seq<string>)
    ensures Unlines(lines) == Join(lines + [""], "\n")
  {
    if lines == [] {
    } else {
      var p := lines[..|lines| - 1];
      var x := lines[|lines| - 1];
      UnlinesJoin(p);
      assert lines == p + [x];
      assert p + [""] != [];
      JoinAppendOne(p + [""], x, "\n");
      JoinAppendOne(p + [x], "", "\n");
      if p == [] {
        assert p + [x] == [x];
      } else {
        JoinAppendOne(p, x, "\n");
        JoinAppendOne(p, "", "\n");
      }
      assert lines + [""] == p + [x] + [""];
    }
  }

  /** A block of lines written as `lines.join('\n') + '\n'`. */
  lemma UnlinesBlock(lines: seq<string>)
    requires lines != []
    ensures Unlines(lines) == Join(lines, "\n") + "\n"
  {
    UnlinesJoin(lines);
    JoinAppendOne(lines, "", "\n");
  }

  /** A message written line by line splits back, at its line breaks, into its lines and an empty tail. */
  lemma UnlinesSplit(lines: seq<string>)
    requires forall i :: 0 <= i < |lines| ==> '\n' !in lines[i]
    ensures Split(Unlines(lines), '\n') == lines + [""]
  {
    UnlinesJoin(lines);
    SplitJoin(lines + [""], '\n');
  }
}
