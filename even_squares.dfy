/**
 * The even-squares reduction of even_squares_sum.py: the sum of `x * x` over
 * the elements `x` of a list of integers with `x % 2 == 0`.
 *
 * Python's `%` floors and Dafny's `%` is Euclidean; for the divisor 2 both
 * give 0 or 1, so `x % 2 == 0` selects the same elements, negative evens and
 * 0 included.
 */
module EvenSquares {
  import opened Base

  predicate IsEven(x: int) {
    x % 2 == 0
  }

  function Square(x: int): int {
    x * x
  }

  /** `sum(x**2 for x in numbers if x % 2 == 0)`, summed left to right. */
  function EvenSquaresSum(numbers: seq<int>): (r: int)
    ensures r >= 0
    ensures (forall i :: 0 <= i < |numbers| ==> !IsEven(numbers[i])) ==> r == 0
  {
    if numbers == [] then 0
    else (if IsEven(numbers[0]) then numbers[0] * numbers[0] else 0) + EvenSquaresSum(numbers[1..])
  }

  /** The even elements, in input order: `[x for x in numbers if x % 2 == 0]`. */
  function Evens(numbers: seq<int>): (r: seq<int>)
    ensures |r| <= |numbers|
    ensures forall i :: 0 <= i < |r| ==> IsEven(r[i])
  {
    Filter(numbers, IsEven)
  }

  /** The evens are exactly the input's even elements. */
  lemma EvensMember(numbers: seq<int>, x: int)
    ensures x in Evens(numbers) <==> x in numbers && IsEven(x)
  {
    FilterMember(numbers, IsEven, x);
  }

  /** The elementwise squares: `[x**2 for x in evens]`. */
  function Squares(xs: seq<int>): (r: seq<int>)
    ensures |r| == |xs|
    ensures forall i :: 0 <= i < |xs| ==> r[i] == xs[i] * xs[i] && r[i] >= 0
  {
    Map(xs, Square)
  }

  /** The reduction is the sum of the squares of the even elements. */
  lemma {:induction false} EvenSquaresSumIsSumOfSquaredEvens(numbers: seq<int>)
    ensures EvenSquaresSum(numbers) == Sum(Squares(Evens(numbers)))
  {
    if numbers != [] {
      EvenSquaresSumIsSumOfSquaredEvens(numbers[1..]);
      assert numbers == [numbers[0]] + numbers[1..];
      FilterAppend([numbers[0]], numbers[1..], IsEven);
      MapAppend(Filter([numbers[0]], IsEven), Filter(numbers[1..], IsEven), Square);
      SumAppend(Map(Filter([numbers[0]], IsEven), Square), Map(Filter(numbers[1..], IsEven), Square));
    }
  }

  /** The reduction is additive over list concatenation. */
  lemma {:induction false} EvenSquaresSumAppend(a: seq<int>, b: seq<int>)
    ensures EvenSquaresSum(a + b) == EvenSquaresSum(a) + EvenSquaresSum(b)
  {
    if a == [] {
      assert a + b == b;
    } else {
      assert (a + b)[1..] == a[1..] + b;
      EvenSquaresSumAppend(a[1..], b);
    }
  }

  /** Inserting an odd number anywhere leaves the result unchanged. */
  lemma InsertOddUnchanged(a: seq<int>, x: int, b: seq<int>)
    requires !IsEven(x)
    ensures EvenSquaresSum(a + [x] + b) == EvenSquaresSum(a + b)
  {
    EvenSquaresSumAppend(a + [x], b);
    EvenSquaresSumAppend(a, [x]);
    EvenSquaresSumAppend(a, b);
  }

  /** The sample lists of the scripts and their sums (even_squares_sum.py, simple_interface.py). */
  lemma ExampleOneToTen()
    ensures EvenSquaresSum([1, 2, 3, 4, 5, 6, 7, 8, 9, 10]) == 220
  {
    assert EvenSquaresSum([1, 2, 3, 4, 5]) == 20 by {
      assert [1, 2, 3, 4, 5][1..] == [2, 3, 4, 5];
      assert [2, 3, 4, 5][1..] == [3, 4, 5];
      assert [3, 4, 5][1..] == [4, 5];
      assert [4, 5][1..] == [5];
      assert [5][1..] == [];
    }
    assert EvenSquaresSum([6, 7, 8, 9, 10]) == 200 by {
      assert [6, 7, 8, 9, 10][1..] == [7, 8, 9, 10];
      assert [7, 8, 9, 10][1..] == [8, 9, 10];
      assert [8, 9, 10][1..] == [9, 10];
      assert [9, 10][1..] == [10];
      assert [10][1..] == [];
    }
    EvenSquaresSumAppend([1, 2, 3, 4, 5], [6, 7, 8, 9, 10]);
    assert [1, 2, 3, 4, 5] + [6, 7, 8, 9, 10] == [1, 2, 3, 4, 5, 6, 7, 8, 9, 10];
  }

  lemma ExampleAllEven()
    ensures EvenSquaresSum([2, 4, 6, 8]) == 120
  {
    assert [2, 4, 6, 8][1..] == [4, 6, 8];
    assert [4, 6, 8][1..] == [6, 8];
    assert [6, 8][1..] == [8];
    assert [8][1..] == [];
  }

  lemma ExampleAllOdd()
    ensures EvenSquaresSum([1, 3, 5, 7, 9]) == 0
  {
    assert [1, 3, 5, 7, 9][1..] == [3, 5, 7, 9];
    assert [3, 5, 7, 9][1..] == [5, 7, 9];
    assert [5, 7, 9][1..] == [7, 9];
    assert [7, 9][1..] == [9];
    assert [9][1..] == [];
  }

  lemma ExampleWithZero()
    ensures EvenSquaresSum([0, 1, 2, 3, 4]) == 20
  {
    assert [0, 1, 2, 3, 4][1..] == [1, 2, 3, 4];
    assert [1, 2, 3, 4][1..] == [2, 3, 4];
    assert [2, 3, 4][1..] == [3, 4];
    assert [3, 4][1..] == [4];
    assert [4][1..] == [];
  }

  lemma ExampleTens()
    ensures EvenSquaresSum([10, 20, 30, 40, 50]) == 5500
  {
    assert [10, 20, 30, 40, 50][1..] == [20, 30, 40, 50];
    assert [20, 30, 40, 50][1..] == [30, 40, 50];
    assert [30, 40, 50][1..] == [40, 50];
    assert [40, 50][1..] == [50];
    assert [50][1..] == [];
  }

  lemma ExampleCustom()
    ensures EvenSquaresSum([12, 15, 18, 21, 24, 27, 30]) == 1944
  {
    assert [12, 15, 18, 21, 24, 27, 30][1..] == [15, 18, 21, 24, 27, 30];
    assert [15, 18, 21, 24, 27, 30][1..] == [18, 21, 24, 27, 30];
    assert [18, 21, 24, 27, 30][1..] == [21, 24, 27, 30];
    assert [21, 24, 27, 30][1..] == [24, 27, 30];
    assert [24, 27, 30][1..] == [27, 30];
    assert [27, 30][1..] == [30];
    assert [30][1..] == [];
  }

  lemma ExampleNegative()
    ensures EvenSquaresSum([-2, -3]) == 4
  {
    assert [-2, -3][1..] == [-3];
    assert [-3][1..] == [];
  }
}
