/**
 * The interactive front end of input_interface.py. Each line the user enters
 * becomes one outcome: the loop ends, the line is rejected for one of three
 * reasons, or the evens and the sum are shown. The mode prompt and the demo
 * cases are modelled too. Entered lines are a parameter; console output is
 * modelled by the outcome that decides it.
 */
module InputInterface {
  import opened Base
  import opened Text
  import opened EvenSquares

  /** What one pass of the `while True` loop does with an entered line. */
  datatype Outcome =
    | Quit                 // 'quit', 'exit' or 'q': the loop ends
    | EmptyInput           // nothing but whitespace: rejected, the loop goes on
    | InvalidNumber        // int() raised ValueError on a piece: rejected
    | NoNumbers            // only commas and blanks: rejected
    | Computed(numbers: seq<int>, evens: seq<int>, squares: Option<seq<int>>, result: int)

  /** `s.lower() in ['quit', 'exit', 'q']`. */
  predicate IsQuitWord(s: string) {
    LowerIs(s, "quit") || LowerIs(s, "exit") || LowerIs(s, "q")
  }

  /** The quit test is Python's: lower-case the stripped line and compare with the three words. */
  lemma IsQuitWordLowered(s: string)
    ensures IsQuitWord(s) <==> ToLower(s) in ["quit", "exit", "q"]
  {
    LowerIsToLower(s, "quit");
    LowerIsToLower(s, "exit");
    LowerIsToLower(s, "q");
  }

  /**
   * The numbers read from the comma-separated pieces: each piece is trimmed,
   * empty ones are skipped and the rest go through `int()`. `None` is the
   * ValueError of the first piece that is not an integer.
   */
  function ParseNumbers(pieces: seq<string>): Option<seq<int>>
  {
    if pieces == [] then Some([])
    else
      match ParseNumbers(pieces[..|pieces| - 1])
      case None => None
      case Some(ns) =>
        var p := Trim(pieces[|pieces| - 1]);
        if p == "" then Some(ns)
        else
          match ParseInt(p)
          case None => None
          case Some(n) => Some(ns + [n])
  }

  /** The outcome of one entered line, decided in the loop's order. */
  function LineOutcome(line: string): Outcome
  {
    var input := Trim(line);
    if IsQuitWord(input) then Quit
    else if input == "" then EmptyInput
    else
      match ParseNumbers(Split(input, ','))
      case None => InvalidNumber
      case Some(numbers) =>
        if numbers == [] then NoNumbers
        else
          var evens := Evens(numbers);
          Computed(numbers, evens, if evens != [] then Some(Squares(evens)) else None, EvenSquaresSum(numbers))
  }

  /**
   * The piece loop: each piece is trimmed, skipped when empty and otherwise
   * appended to `numbers` through `int()`; `None` is the ValueError.
   */
  method ReadNumbers(pieces: seq<string>) returns (numbers: Option<seq<int>>)
    ensures numbers == ParseNumbers(pieces)
  {
    var read: seq<int> := [];
    for i := 0 to |pieces|
      invariant ParseNumbers(pieces[..i]) == Some(read)
    {
      assert pieces[..i + 1][..i] == pieces[..i];
      var piece := Trim(pieces[i]);
      if piece != "" {
        var n := ParseInt(piece);
        if n.None? {
          ParseNumbersStopsAtError(pieces, i + 1);
          return None;
        }
        read := read + [n.value];
      }
    }
    assert pieces[..|pieces|] == pieces;
    return Some(read);
  }

  /** One pass of the loop. */
  method HandleLine(line: string) returns (outcome: Outcome)
    ensures outcome == LineOutcome(line)
  {
    var input := Trim(line);
    if IsQuitWord(input) {
      return Quit;
    }
    if input == "" {
      return EmptyInput;
    }
    var numbers := ReadNumbers(Split(input, ','));
    if numbers.None? {
      return InvalidNumber;
    }
    if numbers.value == [] {
      return NoNumbers;
    }
    var result := EvenSquaresSum(numbers.value);
    var evens := Evens(numbers.value);
    outcome := Computed(numbers.value, evens, if evens != [] then Some(Squares(evens)) else None, result);
  }

  /** Once a piece is rejected, no later piece can make the line acceptable. */
  lemma {:induction false} ParseNumbersStopsAtError(pieces: seq<string>, k: nat)
    requires k <= |pieces| && ParseNumbers(pieces[..k]).None?
    ensures ParseNumbers(pieces).None?
    decreases |pieces| - k
  {
    if k < |pieces| {
      assert pieces[..k + 1][..k] == pieces[..k];
      ParseNumbersStopsAtError(pieces, k + 1);
    } else {
      assert pieces[..k] == pieces;
    }
  }

  /** The trimmed, non-empty pieces, in order: the ones handed to `int()`. */
  function Candidates(pieces: seq<string>): seq<string>
  {
    if pieces == [] then []
    else
      var t := Trim(pieces[|pieces| - 1]);
      Candidates(pieces[..|pieces| - 1]) + (if t == "" then [] else [t])
  }

  /** The candidates are the pieces trimmed, with the empty results dropped. */
  lemma {:induction false} CandidatesAreTrimmedNonEmpty(pieces: seq<string>)
    ensures Candidates(pieces) == NonEmpty(Map(pieces, Trim))
  {
    if pieces != [] {
      var init := pieces[..|pieces| - 1];
      var last := pieces[|pieces| - 1];
      assert pieces == init + [last];
      CandidatesAreTrimmedNonEmpty(init);
      MapAppend(init, [last], Trim);
      assert Map([last], Trim) == [Trim(last)];
      FilterAppend(Map(init, Trim), [Trim(last)], (p: string) => p != "");
    }
  }

  /** `int()` applied to every candidate, in order; `None` when any of them is not an integer. */
  function ParseAll(candidates: seq<string>): Option<seq<int>>
  {
    if candidates == [] then Some([])
    else
      match ParseAll(candidates[..|candidates| - 1])
      case None => None
      case Some(ns) =>
        match ParseInt(candidates[|candidates| - 1])
        case None => None
        case Some(n) => Some(ns + [n])
  }

  lemma ParseAllSnoc(cs: seq<string>, t: string)
    ensures ParseAll(cs + [t]) ==
      match ParseAll(cs)
      case None => None
      case Some(ns) => match ParseInt(t) case None => None case Some(n) => Some(ns + [n])
  {
    assert (cs + [t])[..|cs|] == cs;
  }

  /** The piece loop reads exactly the candidates. */
  lemma {:induction false} ParseNumbersReadsCandidates(pieces: seq<string>)
    ensures ParseNumbers(pieces) == ParseAll(Candidates(pieces))
  {
    if pieces != [] {
      var init := pieces[..|pieces| - 1];
      var t := Trim(pieces[|pieces| - 1]);
      ParseNumbersReadsCandidates(init);
      if t == "" {
        assert Candidates(pieces) == Candidates(init);
      } else {
        assert Candidates(pieces) == Candidates(init) + [t];
        ParseAllSnoc(Candidates(init), t);
      }
    }
  }

  /**
   * Reading succeeds exactly when every candidate is an integer, and then
   * yields one number per candidate, in order.
   */
  lemma {:induction false} ParseAllCorrect(cs: seq<string>)
    ensures ParseAll(cs).Some? <==> forall i :: 0 <= i < |cs| ==> ParseInt(cs[i]).Some?
    ensures ParseAll(cs).Some? ==>
              |ParseAll(cs).value| == |cs| &&
              forall i :: 0 <= i < |cs| ==> ParseInt(cs[i]) == Some(ParseAll(cs).value[i])
  {
    if cs != [] {
      var init := cs[..|cs| - 1];
      ParseAllCorrect(init);
      assert forall i :: 0 <= i < |init| ==> init[i] == cs[i];
    }
  }

  /** A piece that trims to nothing is skipped. */
  lemma ParseNumbersSkips(pieces: seq<string>, piece: string)
    requires Trim(piece) == ""
    ensures ParseNumbers(pieces + [piece]) == ParseNumbers(pieces)
  {
    assert (pieces + [piece])[..|pieces|] == pieces;
  }

  /** A piece that trims to an integer is appended to the numbers read so far. */
  lemma ParseNumbersAppends(pieces: seq<string>, piece: string, n: int)
    requires ParseNumbers(pieces).Some?
    requires Trim(piece) != "" && ParseInt(Trim(piece)) == Some(n)
    ensures ParseNumbers(pieces + [piece]) == Some(ParseNumbers(pieces).value + [n])
  {
    assert (pieces + [piece])[..|pieces|] == pieces;
  }

  /** The characters of Python's `str(n)`: an optional leading '-', then digits. */
  lemma ShowIntShape(n: int)
    ensures IsDigit(ShowInt(n)[|ShowInt(n)| - 1])
    ensures ShowInt(n)[0] == '-' || IsDigit(ShowInt(n)[0])
    ensures forall i :: 1 <= i < |ShowInt(n)| ==> IsDigit(ShowInt(n)[i])
  {
    var d := ShowNat(if n < 0 then -n else n);
    if n < 0 {
      assert ShowInt(n) == "-" + d;
      assert forall i :: 1 <= i < |ShowInt(n)| ==> ShowInt(n)[i] == d[i - 1];
    }
  }

  /** Python's `str(n)` has no whitespace to strip and no comma to split at. */
  lemma TrimShowInt(n: int)
    ensures Trim(ShowInt(n)) == ShowInt(n)
    ensures ',' !in ShowInt(n)
  {
    var s := ShowInt(n);
    ShowIntShape(n);
    assert !IsSpace(s[0]) && !IsSpace(s[|s| - 1]);
    TrimNoSpaceEnds(s);
    assert forall i :: 0 <= i < |s| ==> s[i] != ',';
  }

  /** `piece` needs no stripping and `int()` reads `n` from it. */
  predicate ReadsAs(piece: string, n: int) {
    piece != "" && Trim(piece) == piece && ParseInt(piece) == Some(n)
  }

  /** Pieces that each read as one number are read as those numbers, in order. */
  lemma {:induction false} ParseNumbersReadsEach(pieces: seq<string>, numbers: seq<int>)
    requires |pieces| == |numbers|
    requires forall i :: 0 <= i < |pieces| ==> ReadsAs(pieces[i], numbers[i])
    ensures ParseNumbers(pieces) == Some(numbers)
  {
    if pieces != [] {
      var k := |pieces| - 1;
      var init, piece := pieces[..k], pieces[k];
      assert pieces == init + [piece];
      assert numbers == numbers[..k] + [numbers[k]];
      ParseNumbersReadsEach(init, numbers[..k]);
      assert ReadsAs(piece, numbers[k]);
      ParseNumbersAppends(init, piece, numbers[k]);
    }
  }

  /** Python's `str(n)` is read back by `int()` as `n`. */
  lemma ShowIntReadsAs(n: int)
    ensures ReadsAs(ShowInt(n), n)
  {
    TrimShowInt(n);
    ParseShowInt(n);
  }

  /** Reading the renderings back gives the numbers. */
  lemma ParseShown(numbers: seq<int>)
    ensures ParseNumbers(Map(numbers, ShowInt)) == Some(numbers)
  {
    var shown := Map(numbers, ShowInt);
    forall i | 0 <= i < |shown| ensures ReadsAs(shown[i], numbers[i]) {
      ShowIntReadsAs(numbers[i]);
    }
    ParseNumbersReadsEach(shown, numbers);
  }

  /** The first character of a join is that of the first part. */
  lemma JoinStart(parts: seq<string>, sep: string)
    requires parts != [] && parts[0] != ""
    ensures Join(parts, sep) != "" && Join(parts, sep)[0] == parts[0][0]
  {
  }

  /** A line starting with a digit or '-' is no quit word. */
  lemma NotQuitWord(s: string)
    requires s != [] && (s[0] == '-' || IsDigit(s[0]))
    ensures !IsQuitWord(s)
  {
  }

  /** A trimmed line that is no quit word and whose pieces read as numbers is computed on them. */
  lemma LineOutcomeComputes(line: string, numbers: seq<int>)
    requires Trim(line) == line && line != "" && !IsQuitWord(line)
    requires ParseNumbers(Split(line, ',')) == Some(numbers) && numbers != []
    ensures LineOutcome(line).Computed? && LineOutcome(line).numbers == numbers
  {
  }

  /**
   * Entering a non-empty list rendered the way Python prints integers,
   * separated by commas, computes on exactly that list.
   */
  lemma RenderedListRoundTrip(numbers: seq<int>)
    requires numbers != []
    ensures LineOutcome(Join(Map(numbers, ShowInt), ",")).Computed?
    ensures LineOutcome(Join(Map(numbers, ShowInt), ",")).numbers == numbers
  {
    var shown := Map(numbers, ShowInt);
    var line := Join(shown, ",");
    assert Split(line, ',') == shown by {
      forall i | 0 <= i < |shown| ensures ',' !in shown[i] {
        TrimShowInt(numbers[i]);
      }
      SplitJoin(shown, ',');
    }
    assert line != "" && (line[0] == '-' || IsDigit(line[0])) by {
      ShowIntShape(numbers[0]);
      JoinStart(shown, ",");
    }
    NotQuitWord(line);
    TrimOfJoin(numbers);
    ParseShown(numbers);
    LineOutcomeComputes(line, numbers);
  }

  /** A comma-joined list of renderings has no whitespace at its ends. */
  lemma {:induction false} TrimOfJoin(numbers: seq<int>)
    requires numbers != []
    ensures Trim(Join(Map(numbers, ShowInt), ",")) == Join(Map(numbers, ShowInt), ",")
  {
    var shown := Map(numbers, ShowInt);
    var line := Join(shown, ",");
    ShowIntShape(numbers[0]);
    JoinStart(shown, ",");
    JoinEnd(numbers);
    TrimUnique(line, 0, |line|);
  }

  /** The last character of the join is the last digit of the last rendering. */
  lemma {:induction false} JoinEnd(numbers: seq<int>)
    requires numbers != []
    ensures Join(Map(numbers, ShowInt), ",") != ""
    ensures IsDigit(Join(Map(numbers, ShowInt), ",")[|Join(Map(numbers, ShowInt), ",")| - 1])
  {
    var n := numbers[|numbers| - 1];
    ShowIntShape(n);
    if |numbers| == 1 {
      assert Map(numbers, ShowInt) == [ShowInt(n)];
    } else {
      var init := numbers[..|numbers| - 1];
      assert numbers == init + [n];
      MapAppend(init, [n], ShowInt);
      assert Map([n], ShowInt) == [ShowInt(n)];
      JoinAppendOne(Map(init, ShowInt), ShowInt(n), ",");
    }
  }

  datatype Mode = Interactive | Demo

  /** The mode a line selects at the prompt, if any: "1" or "2" after trimming. */
  function ModeOf(line: string): Option<Mode>
  {
    var choice := Trim(line);
    if choice == "1" then Some(Interactive) else if choice == "2" then Some(Demo) else None
  }

  /** None of the first `n` lines selects a mode. */
  predicate NoChoiceBefore(lines: seq<string>, n: nat)
    requires n <= |lines|
  {
    forall i :: 0 <= i < n ==> ModeOf(lines[i]).None?
  }

  lemma NoChoiceStep(lines: seq<string>, n: nat)
    requires n < |lines| && NoChoiceBefore(lines, n) && ModeOf(lines[n]).None?
    ensures NoChoiceBefore(lines, n + 1)
  {
  }

  /**
   * The mode prompt of the `__main__` block: it re-prompts until a line
   * selects a mode. `used` is the number of lines read; `None` means the
   * lines ran out first (the uncaught EOFError of `input()`).
   */
  method ChooseMode(lines: seq<string>) returns (mode: Option<Mode>, used: nat)
    ensures used <= |lines|
    ensures mode.Some? ==> 1 <= used && ModeOf(lines[used - 1]) == mode && NoChoiceBefore(lines, used - 1)
    ensures mode.None? ==> used == |lines| && NoChoiceBefore(lines, used)
  {
    used := 0;
    mode := None;
    while used < |lines| && mode.None?
      invariant used <= |lines|
      invariant mode.None? ==> NoChoiceBefore(lines, used)
      invariant mode.Some? ==> 1 <= used && ModeOf(lines[used - 1]) == mode && NoChoiceBefore(lines, used - 1)
    {
      mode := ModeOf(lines[used]);
      if mode.None? {
        NoChoiceStep(lines, used);
      }
      used := used + 1;
    }
  }

  /** Only "1" and "2", with surrounding whitespace, select a mode. */
  lemma ModeOfChoices(line: string)
    ensures ModeOf(line) == Some(Interactive) <==> Trim(line) == "1"
    ensures ModeOf(line) == Some(Demo) <==> Trim(line) == "2"
  {
  }

  lemma ModeOfPaddedOne()
    ensures ModeOf(" 1\n") == Some(Interactive)
  {
    TrimPadded(" ", "1", "\n");
  }

  lemma ModeOfPaddedTwo()
    ensures ModeOf(" 2 ") == Some(Demo)
  {
    TrimPadded(" ", "2", " ");
  }

  lemma ModeOfTwelve()
    ensures ModeOf("12").None?
  {
    TrimPadded("", "12", "");
    assert "" + "12" + "" == "12";
  }

  /** The five lists of `demo_mode`. */
  const DemoCases: seq<seq<int>> := [[1, 2, 3, 4, 5, 6, 7, 8, 9, 10], [2, 4, 6, 8], [1, 3, 5, 7, 9], [0, 1, 2, 3, 4], [10, 20, 30, 40, 50]]

  /** What `demo_mode` shows per case: the input, its evens and its sum. */
  function DemoMode(cases: seq<seq<int>>): (shown: seq<(seq<int>, seq<int>, int)>)
    ensures |shown| == |cases|
    ensures forall i :: 0 <= i < |cases| ==>
              shown[i].0 == cases[i] && shown[i].1 == Evens(cases[i]) && shown[i].2 == Sum(Squares(shown[i].1))
  {
    if cases == [] then []
    else
      EvenSquaresSumIsSumOfSquaredEvens(cases[0]);
      [(cases[0], Evens(cases[0]), EvenSquaresSum(cases[0]))] + DemoMode(cases[1..])
  }

  lemma DemoResults()
    ensures |DemoMode(DemoCases)| == 5
    ensures DemoMode(DemoCases)[0].2 == 220 && DemoMode(DemoCases)[1].2 == 120
    ensures DemoMode(DemoCases)[2].2 == 0 && DemoMode(DemoCases)[3].2 == 20
    ensures DemoMode(DemoCases)[4].2 == 5500
  {
    var d := DemoMode(DemoCases);
    EvenSquaresSumIsSumOfSquaredEvens(DemoCases[0]);
    ExampleOneToTen();
    EvenSquaresSumIsSumOfSquaredEvens(DemoCases[1]);
    ExampleAllEven();
    EvenSquaresSumIsSumOfSquaredEvens(DemoCases[2]);
    ExampleAllOdd();
    EvenSquaresSumIsSumOfSquaredEvens(DemoCases[3]);
    ExampleWithZero();
    EvenSquaresSumIsSumOfSquaredEvens(DemoCases[4]);
    ExampleTens();
  }
}
