/** The integer and string helpers of function.go: rune-level reversal and the palindrome
    test, factorial, the variadic sum, grading, rectangle dimensions, `calculate`, `isEven`,
    the `multiplier` factory and the `counter` closure. */
module Functions {
  import opened Spec
  import GoInt

  // ---------- reverseString / isPalindrome ----------

  /** The runes of `s` from last to first. */
  function Reversed(s: string): (r: string)
    ensures |r| == |s|
  {
    if s == [] then [] else [s[|s| - 1]] + Reversed(s[..|s| - 1])
  }

  /** Position `k` of the reversal holds the rune at the mirrored position. */
  lemma {:induction false} ReversedAt(s: string, k: nat)
    requires k < |s|
    ensures Reversed(s)[k] == s[|s| - 1 - k]
  {
    if k > 0 {
      ReversedAt(s[..|s| - 1], k - 1);
    }
  }

  /** Reversal is an involution: reversing twice gives back the string. */
  lemma ReversedTwice(s: string)
    ensures Reversed(Reversed(s)) == s
  {
    forall k | 0 <= k < |s|
      ensures Reversed(Reversed(s))[k] == s[k]
    {
      ReversedAt(Reversed(s), k);
      ReversedAt(s, |s| - 1 - k);
    }
  }

  /** `reverseString`: converts to runes, swaps the outermost pair and moves inwards while
      `i < j`, then converts back. */
  method ReverseString(s: string) returns (r: string)
    ensures |r| == |s|
    ensures forall k :: 0 <= k < |s| ==> r[k] == s[|s| - 1 - k]
    ensures r == Reversed(s)
  {
    var runes := new char[|s|](k requires 0 <= k < |s| => s[k]);
    var n := |s|;
    var i, j := 0, n - 1;
    while i < j
      invariant 0 <= i <= j + 1 && j == n - 1 - i
      invariant forall k :: 0 <= k < i ==> runes[k] == s[n - 1 - k] && runes[n - 1 - k] == s[k]
      invariant forall k :: i <= k <= j ==> runes[k] == s[k]
    {
      runes[i], runes[j] := runes[j], runes[i];
      i, j := i + 1, j - 1;
    }
    r := runes[..];
    forall k | 0 <= k < n
      ensures r[k] == Reversed(s)[k]
    {
      ReversedAt(s, k);
    }
  }

  /** `isPalindrome`: a string is a palindrome when it equals its own reversal. */
  method IsPalindrome(s: string) returns (b: bool)
    ensures b <==> s == Reversed(s)
    ensures b <==> forall k :: 0 <= k < |s| ==> s[k] == s[|s| - 1 - k]
  {
    var rev := ReverseString(s);
    b := s == rev;
  }

  /** function.go prints "olleH" for `reverseString("Hello")`. */
  method ReverseDemo() returns (reversed: string)
    ensures reversed == "olleH"
  {
    reversed := ReverseString("Hello");
    assert reversed[0] == 'o' && reversed[1] == 'l' && reversed[2] == 'l';
    assert reversed[3] == 'e' && reversed[4] == 'H';
  }

  /** function.go prints that "racecar" is a palindrome and "hello" is not. */
  method PalindromeDemo() returns (racecar: bool, hello: bool)
    ensures racecar && !hello
  {
    racecar := IsPalindrome("racecar");
    hello := IsPalindrome("hello");
    assert "hello"[0] != "hello"[4];
  }

  // ---------- factorial ----------

  /** `factorial`: 1 for every `n <= 1`, otherwise `n * factorial(n - 1)`. */
  function Factorial(n: int): (r: int)
    ensures 1 <= r && n <= r
  {
    if n <= 1 then 1 else n * Factorial(n - 1)
  }

  /** Factorial never decreases as its argument grows. */
  lemma {:induction false} FactorialMonotone(m: int, n: int)
    requires m <= n
    ensures Factorial(m) <= Factorial(n)
    decreases n - m
  {
    if m < n {
      FactorialMonotone(m, n - 1);
      FactorialStep(n);
    }
  }

  /** One more factor never makes the product smaller. */
  lemma FactorialStep(n: int)
    ensures Factorial(n - 1) <= Factorial(n)
  {
    if n > 1 {
      var f := Factorial(n - 1);
      assert Factorial(n) == n * f;
      MulGrows(n, f);
    }
  }

  lemma MulGrows(a: int, b: int)
    requires a >= 1 && b >= 0
    ensures b <= a * b
  {
    assert a * b == b + (a - 1) * b;
  }

  /** The values printed by function.go. */
  lemma FactorialExamples()
    ensures Factorial(5) == 120 && Factorial(7) == 5040
  {
  }

  /** 20 is the largest argument whose factorial fits a Go `int`; from 21 on the Go
      function wraps around, which the unbounded model does not. */
  lemma FactorialFitsInt64(n: int)
    requires n <= 20
    ensures GoInt.IsInt64(Factorial(n))
    ensures !GoInt.IsInt64(Factorial(21))
  {
    FactorialMonotone(n, 20);
    assert Factorial(5) == 120;
    assert Factorial(10) == 3628800;
    assert Factorial(15) == 1307674368000;
    assert Factorial(20) == 2432902008176640000;
    assert Factorial(21) == 21 * 2432902008176640000;
  }

  // ---------- sumNumbers ----------

  /** `sumNumbers(numbers...)`: adds the arguments in a range loop, starting from 0. */
  method SumNumbers(numbers: seq<int>) returns (total: int)
    ensures total == Sum(numbers)
    ensures numbers == [] ==> total == 0
  {
    total := 0;
    for i := 0 to |numbers|
      invariant total == Sum(numbers[..i])
    {
      assert numbers[..i + 1][..i] == numbers[..i];
      total := total + numbers[i];
    }
    assert numbers[..|numbers|] == numbers;
  }

  /** function.go prints 6 for `sumNumbers(1, 2, 3)`, 150 for `sumNumbers(10, 20, 30, 40, 50)`
      and 15 for `sumNumbers(numbers...)` over the slice [1 2 3 4 5]. */
  method SumNumbersDemo() returns (six: int, hundredFifty: int, fifteen: int)
    ensures six == 6 && hundredFifty == 150 && fifteen == 15
  {
    six := SumNumbers([1, 2, 3]);
    assert [1, 2, 3][..2] == [1, 2] && [1, 2][..1] == [1];
    hundredFifty := SumNumbers([10, 20, 30, 40, 50]);
    assert [10, 20, 30, 40, 50][..4] == [10, 20, 30, 40] && [10, 20, 30, 40][..3] == [10, 20, 30];
    assert [10, 20, 30][..2] == [10, 20] && [10, 20][..1] == [10];
    var numbers := [1, 2, 3, 4, 5];
    fifteen := SumNumbers(numbers);
    assert numbers[..4] == [1, 2, 3, 4] && [1, 2, 3, 4][..3] == [1, 2, 3];
  }

  // ---------- getGrade ----------

  /** `getGrade`: the first threshold the score reaches, from 90 down to 60. */
  function Grade(score: int): string {
    if score >= 90 then "A"
    else if score >= 80 then "B"
    else if score >= 70 then "C"
    else if score >= 60 then "D"
    else "F"
  }

  /** How good a grade is: 4 for "A" down to 0 for "F". */
  function GradeRank(g: string): int {
    if g == "A" then 4
    else if g == "B" then 3
    else if g == "C" then 2
    else if g == "D" then 1
    else 0
  }

  /** Each grade is given to exactly one band of ten scores, "F" to everything below 60. */
  lemma GradeBands(score: int)
    ensures Grade(score) == "A" <==> 90 <= score
    ensures Grade(score) == "B" <==> 80 <= score < 90
    ensures Grade(score) == "C" <==> 70 <= score < 80
    ensures Grade(score) == "D" <==> 60 <= score < 70
    ensures Grade(score) == "F" <==> score < 60
  {
  }

  /** A higher score never receives a worse grade. */
  lemma GradeMonotone(lo: int, hi: int)
    requires lo <= hi
    ensures GradeRank(Grade(lo)) <= GradeRank(Grade(hi))
  {
  }

  /** function.go prints "B" for 85 and "F" for 45. */
  lemma GradeExamples()
    ensures Grade(85) == "B" && Grade(45) == "F"
  {
  }

  // ---------- calculate / getDimensions / isEven ----------

  /** `calculate(a, b)`: the pair (sum, product). */
  function Calculate(a: int, b: int): (int, int) {
    (a + b, a * b)
  }

  /** `getDimensions(length, width)`: the pair (area, perimeter) of a rectangle. */
  function Dimensions(length: int, width: int): (int, int) {
    (length * width, 2 * (length + width))
  }

  /** The area is the product `calculate` returns and the perimeter twice its sum; both
      results are symmetric in their two arguments. */
  lemma DimensionsFromCalculate(length: int, width: int)
    ensures Dimensions(length, width).0 == Calculate(length, width).1
    ensures Dimensions(length, width).1 == 2 * Calculate(length, width).0
    ensures Dimensions(length, width) == Dimensions(width, length)
    ensures Calculate(length, width) == Calculate(width, length)
  {
  }

  /** function.go prints 14 and 48 for `calculate(6, 8)` and area 50, perimeter 30 for
      `getDimensions(10, 5)`. */
  lemma DimensionsExamples()
    ensures Calculate(6, 8) == (14, 48)
    ensures Dimensions(10, 5) == (50, 30)
  {
  }

  /** `isEven`: Go's `number%2 == 0`, with Go's truncating remainder. */
  predicate IsEven(number: int) {
    GoInt.Rem(number, 2) == 0
  }

  /** Go's remainder and Dafny's agree on evenness, for negative numbers too. */
  lemma IsEvenIff(number: int)
    ensures IsEven(number) <==> number % 2 == 0
    ensures IsEven(number) <==> IsEven(-number)
  {
    GoInt.RemTwoZeroIff(number);
    GoInt.RemTwoZeroIff(-number);
  }

  /** function.go prints false for 7 and true for 8. */
  lemma IsEvenExamples()
    ensures !IsEven(7) && IsEven(8)
  {
  }

  // ---------- multiplier ----------

  /** `multiplier(factor)`: the closure that multiplies its argument by `factor`. */
  function Multiplier(factor: int): int -> int {
    x => x * factor
  }

  /** Applying two multipliers in turn is applying one by the product of their factors,
      and the factor 1 gives the identity. */
  lemma MultiplierCompose(a: int, b: int, x: int)
    ensures Multiplier(a)(Multiplier(b)(x)) == Multiplier(a * b)(x)
    ensures Multiplier(1)(x) == x
  {
    assert x * b * a == x * (a * b);
  }

  /** `double := multiplier(2)` and `triple := multiplier(3)` give 10 and 15 for 5. */
  lemma MultiplierExamples()
    ensures Multiplier(2)(5) == 10 && Multiplier(3)(5) == 15
  {
  }

  // ---------- counter ----------

  /** The closure returned by `counter()`: it owns the captured `count`, and each call
      increments it and returns the new value. */
  class Counter {
    var count: int

    /** `counter()`: a fresh closure whose captured `count` starts at 0. */
    constructor ()
      ensures count == 0
    {
      count := 0;
    }

    /** One call of the closure. */
    method Next() returns (v: int)
      modifies this
      ensures count == old(count) + 1
      ensures v == count
    {
      count := count + 1;
      v := count;
    }
  }

  /** `myCounter` yields 1, 2, 3, and `anotherCounter`, made afterwards, starts again at 1
      without disturbing the first. */
  method CounterDemo() returns (first: int, second: int, third: int, another: int, firstAfter: int)
    ensures first == 1 && second == 2 && third == 3
    ensures another == 1 && firstAfter == 4
  {
    var myCounter := new Counter();
    first := myCounter.Next();
    second := myCounter.Next();
    third := myCounter.Next();
    var anotherCounter := new Counter();
    another := anotherCounter.Next();
    firstAfter := myCounter.Next();
  }
}
