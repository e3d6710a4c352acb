/**
 * The verbose wrapper of simple_interface.py: `calculate_even_squares_sum`
 * reports the even elements, their squares, their sum and the "x²" trace, and
 * returns the plain reduction. The console lines are modelled by the values
 * they show.
 */
module SimpleInterface {
  import opened Base
  import opened Text
  import opened EvenSquares

  /** What is shown when the input has at least one even element. */
  datatype Shown = Shown(squares: seq<int>, sum: int, calculation: string)

  /** Everything `calculate_even_squares_sum` shows and returns for one list. */
  datatype Report = Report(numbers: seq<int>, evens: seq<int>, shown: Option<Shown>, returned: int)

  /** One term of the trace: `f"{x}²"`. */
  function Term(x: int): (t: string)
    ensures |t| >= 2 && t[|t| - 1] == '²'
  {
    ShowInt(x) + "²"
  }

  /** `" + ".join(f"{x}²" for x in evens)`. */
  function Calculation(evens: seq<int>): string
  {
    Join(Map(evens, Term), " + ")
  }

  /**
   * `calculate_even_squares_sum(numbers)`: the squares, their sum and the
   * trace are shown only when there is an even element; the return value is
   * `even_squares_sum(numbers)` in every case.
   */
  function CalculateEvenSquaresSum(numbers: seq<int>): (r: Report)
    ensures r.numbers == numbers && r.evens == Evens(numbers)
    ensures r.returned == EvenSquaresSum(numbers)
    ensures r.shown.Some? <==> r.evens != []
    ensures r.shown.Some? ==>
              r.shown.value.squares == Squares(r.evens) &&
              r.shown.value.sum == r.returned &&
              r.shown.value.calculation == Calculation(r.evens)
    ensures r.evens == [] ==> r.returned == 0
  {
    var evens := Evens(numbers);
    EvenSquaresSumIsSumOfSquaredEvens(numbers);
    if evens != [] then
      var squares := Squares(evens);
      Report(numbers, evens, Some(Shown(squares, Sum(squares), Calculation(evens))), EvenSquaresSum(numbers))
    else
      Report(numbers, evens, None, EvenSquaresSum(numbers))
  }

  /** Dropping the "²" from a term and reading the number back gives the even element. */
  lemma TermRoundTrip(x: int)
    ensures Term(x)[..|Term(x)| - 1] == ShowInt(x)
    ensures ParseInt(Term(x)[..|Term(x)| - 1]) == Some(x)
  {
    assert Term(x)[..|Term(x)| - 1] == ShowInt(x);
    ParseShowInt(x);
  }

  /** The trace has one term per even element, each followed by the separator except the last. */
  lemma {:induction false} CalculationAppend(evens: seq<int>, x: int)
    requires evens != []
    ensures Calculation(evens + [x]) == Calculation(evens) + " + " + Term(x)
  {
    MapAppend(evens, [x], Term);
    assert Map([x], Term) == [Term(x)];
    JoinAppendOne(Map(evens, Term), Term(x), " + ");
  }

  /** Case 1 of `main` and the custom case. */
  lemma MainExamples()
    ensures CalculateEvenSquaresSum([1, 2, 3, 4, 5, 6, 7, 8, 9, 10]).returned == 220
    ensures CalculateEvenSquaresSum([12, 15, 18, 21, 24, 27, 30]).returned == 1944
    ensures CalculateEvenSquaresSum([]).shown == None
    ensures CalculateEvenSquaresSum([1, 3, 5, 7, 9]).returned == 0
  {
    ExampleOneToTen();
    ExampleCustom();
    ExampleAllOdd();
  }
}
