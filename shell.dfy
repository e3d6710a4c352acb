/**
 * How a POSIX shell reads a double-quoted word, the form in which the git
 * scripts hand their commit messages to `git commit -m "${message}"`
 * through `execSync`. Inside double quotes the shell still expands `$...`
 * and backquotes, and a backslash escapes `$`, a backquote, `"`, `\` and a
 * line break; every other character is taken as it is.
 */
module Shell {
  /**
   * The shell's reading of the text after an opening double quote: the
   * literal text up to the closing quote and what follows it, an expansion
   * (the word is no longer the text written), or no closing quote.
   */
  datatype Reading = Literal(text: string, rest: string) | Expansion | Unterminated

  /** A character after `$` that starts a parameter expansion, a command substitution or arithmetic. */
  predicate StartsExpansion(c: char)
  {
    c == '(' || c == '{' || c == '_' || 'a' <= c <= 'z' || 'A' <= c <= 'Z' || '0' <= c <= '9' ||
    c == '@' || c == '*' || c == '#' || c == '?' || c == '-' || c == '$' || c == '!'
  }

  /** The characters a backslash escapes inside double quotes. */
  predicate Escapable(c: char)
  {
    c == '$' || c == '`' || c == '"' || c == '\\' || c == '\n'
  }

  function Prepend(c: char, r: Reading): Reading
  {
    if r.Literal? then Literal([c] + r.text, r.rest) else r
  }

  /** The shell's reading of `s`, the text that follows an opening double quote. */
  function ReadQuoted(s: string): Reading
    decreases |s|
  {
    if s == [] then Unterminated
    else if s[0] == '"' then Literal([], s[1..])
    else if s[0] == '`' then Expansion
    else if s[0] == '$' && |s| > 1 && StartsExpansion(s[1]) then Expansion
    else if s[0] == '\\' && |s| > 1 && Escapable(s[1]) then
      if s[1] == '\n' then ReadQuoted(s[2..]) else Prepend(s[1], ReadQuoted(s[2..]))
    else Prepend(s[0], ReadQuoted(s[1..]))
  }

  /** Text with none of the four characters that are special inside double quotes. */
  predicate Plain(s: string)
  {
    forall i :: 0 <= i < |s| ==> s[i] != '"' && s[i] != '$' && s[i] != '`' && s[i] != '\\'
  }

  /**
   * As written, `"${message}"` is read back as the message exactly when
   * the message is plain: it passes intact, and the rest of the command
   * line after the closing quote is untouched.
   */
  lemma {:induction false} PlainPassesIntact(m: string, rest: string)
    requires Plain(m)
    ensures ReadQuoted(m + "\"" + rest) == Literal(m, rest)
  {
    var s := m + "\"" + rest;
    if m == [] {
      assert s[0] == '"' && s[1..] == rest;
    } else {
      assert s[0] == m[0];
      assert s[1..] == m[1..] + "\"" + rest;
      PlainPassesIntact(m[1..], rest);
      assert [m[0]] + m[1..] == m;
    }
  }

  /**
   * As written, a message that reaches `$(` before any special character
   * (a changed file named "$(touch x).js" in the file list) makes the shell
   * run a command substitution, and git records something else.
   */
  lemma {:induction false} CommandSubstitutionRuns(a: string, b: string)
    requires Plain(a)
    ensures ReadQuoted(a + "$(" + b + "\"") == Expansion
  {
    var s := a + "$(" + b + "\"";
    if a == [] {
      assert s[0] == '$' && s[1] == '(';
    } else {
      assert s[0] == a[0];
      assert s[1..] == a[1..] + "$(" + b + "\"";
      CommandSubstitutionRuns(a[1..], b);
    }
  }

  /** A file-list line of the commit message that the shell turns into a command. */
  lemma FileNameInjection()
    ensures ReadQuoted("- $(touch x).js\"") == Expansion
  {
    assert "- $(touch x).js\"" == "- " + "$(" + "touch x).js" + "\"";
    CommandSubstitutionRuns("- ", "touch x).js");
  }

  /** One character as it must be written inside double quotes to be taken literally. */
  function EscapeChar(c: char): string
  {
    if c == '$' || c == '`' || c == '"' || c == '\\' then ['\\', c] else [c]
  }

  /** A message with a backslash before each character that is special inside double quotes. */
  function Escape(m: string): string
  {
    if m == [] then [] else EscapeChar(m[0]) + Escape(m[1..])
  }

  /** The corrected commit command line: the message quoted so that the shell reads it back unchanged. */
  function CommitLine(message: string): string
  {
    "git commit -m \"" + Escape(message) + "\""
  }

  /**
   * Every message, whatever file names it lists, is read back by the shell
   * exactly from its escaped form, with the rest of the line untouched.
   */
  lemma {:induction false} EscapeRoundTrip(m: string, rest: string)
    ensures ReadQuoted(Escape(m) + "\"" + rest) == Literal(m, rest)
  {
    var s := Escape(m) + "\"" + rest;
    if m == [] {
      assert s == "\"" + rest;
      assert s[0] == '"' && s[1..] == rest;
    } else {
      var c := m[0];
      EscapeRoundTrip(m[1..], rest);
      var tail := Escape(m[1..]) + "\"" + rest;
      assert s == EscapeChar(c) + tail;
      if c == '$' || c == '`' || c == '"' || c == '\\' {
        assert s[0] == '\\' && s[1] == c && s[2..] == tail;
      } else {
        assert s[0] == c && s[1..] == tail;
      }
      assert [c] + m[1..] == m;
    }
  }

  /** The corrected command line ends with the closing quote of the message word. */
  lemma CommitLineReadsMessage(message: string)
    ensures var line := CommitLine(message);
            |line| > 15 && line[..15] == "git commit -m \"" && ReadQuoted(line[15..]) == Literal(message, [])
  {
    var line := CommitLine(message);
    assert line[15..] == Escape(message) + "\"" + [];
    EscapeRoundTrip(message, []);
  }
}
