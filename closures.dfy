/** The closures of closure.go: the negating `test`, the `increment` closure over `count`,
    the `multiplier` factory, the predicate `filter` with `isEven` and `isOdd`, and the
    closures built in a loop, each capturing its own copy of the loop value. The closed
    forms of the `isEven` and `isOdd` filters over 1..n live here too; loop.go's even filter
    and `continue` loop use them. */
module Closures {
  import opened Spec
  import GoInt
  import Functions

  /** `test := func(x int) int { return x * -1 }`. */
  function Negate(x: int): int {
    x * -1
  }

  /** `test` is `multiplier(-1)` and undoes itself; closure.go prints -8 for `test(8)` and
      `test2(test)` prints -7. */
  lemma NegateProperties(x: int)
    ensures Negate(x) == Functions.Multiplier(-1)(x)
    ensures Negate(Negate(x)) == x
    ensures Negate(8) == -8 && Negate(7) == -7
  {
  }

  /** `isOdd := func(x int) bool { return x%2 != 0 }`, with Go's truncating remainder. */
  predicate IsOdd(x: int) {
    GoInt.Rem(x, 2) != 0
  }

  /** Every integer is exactly one of even and odd, negative ones included. */
  lemma OddIsNotEven(x: int)
    ensures IsOdd(x) == !Functions.IsEven(x)
  {
  }

  /** `filter(numbers, predicate)`: appends, in order, each number the predicate `keep` accepts. */
  method Filter(numbers: seq<int>, keep: int -> bool) returns (result: seq<int>)
    ensures result == Filtered(numbers, keep)
    ensures |result| <= |numbers|
    ensures forall x :: x in result <==> x in numbers && keep(x)
    ensures forall x :: Count(result, x) == if keep(x) then Count(numbers, x) else 0
  {
    result := [];
    for i := 0 to |numbers|
      invariant result == Filtered(numbers[..i], keep)
    {
      assert numbers[..i + 1][..i] == numbers[..i];
      if keep(numbers[i]) {
        result := result + [numbers[i]];
      }
    }
    assert numbers[..|numbers|] == numbers;
    FilteredMembers(numbers, keep);
    forall x ensures Count(result, x) == if keep(x) then Count(numbers, x) else 0 {
      FilteredCount(numbers, keep, x);
    }
  }

  /** Filtering with `isEven` and with `isOdd` splits the numbers into two parts that
      together hold each number exactly as often as the input does. */
  lemma EvenOddPartition(numbers: seq<int>)
    ensures multiset(Filtered(numbers, Functions.IsEven)) + multiset(Filtered(numbers, IsOdd)) == multiset(numbers)
    ensures |Filtered(numbers, Functions.IsEven)| + |Filtered(numbers, IsOdd)| == |numbers|
  {
    FilteredPartition(numbers, Functions.IsEven, IsOdd);
  }

  /** closure.go filters 1..6 into the even numbers [2 4 6] and the odd numbers [1 3 5]. */
  method FilterDemo() returns (evens: seq<int>, odds: seq<int>)
    ensures evens == [2, 4, 6] && odds == [1, 3, 5]
  {
    var numbers := [1, 2, 3, 4, 5, 6];
    evens := Filter(numbers, Functions.IsEven);
    odds := Filter(numbers, IsOdd);
    OneToSix();
    EvensOfOneToSix();
    OddsOfOneToSix();
  }

  /** The slice literal 1..6 of closure.go, as `OneTo`. */
  lemma OneToSix()
    ensures OneTo(6) == [1, 2, 3, 4, 5, 6]
  {
    assert OneTo(3) == [1, 2, 3];
  }

  /** The even filter of closure.go applied to 1..6 keeps [2 4 6]. */
  lemma EvensOfOneToSix()
    ensures Filtered(OneTo(6), Functions.IsEven) == [2, 4, 6]
  {
    EvensOneTo(6);
    assert FirstEvens(3) == [2, 4, 6];
  }

  /** The odd filter of closure.go applied to 1..6 keeps [1 3 5]. */
  lemma OddsOfOneToSix()
    ensures Filtered(OneTo(6), IsOdd) == [1, 3, 5]
  {
    OddsOneTo(6);
    assert FirstOdds(3) == [1, 3, 5];
  }

  // ---------- the filters over 1..n, in closed form ----------

  /** Going from 1..i-1 to 1..i adds `i` to the odd numbers exactly when `i` is odd. */
  lemma OddsStep(i: int)
    requires i >= 1
    ensures Filtered(OneTo(i), IsOdd)
         == Filtered(OneTo(i - 1), IsOdd) + (if Functions.IsEven(i) then [] else [i])
  {
    FilteredOneToStep(i, IsOdd);
    OddIsNotEven(i);
  }

  /** The first `m` odd numbers, 1, 3, 5, .... */
  function FirstOdds(m: nat): (r: seq<int>)
    ensures |r| == m
  {
    seq(m, k => 2 * k + 1)
  }

  /** The first `m` even numbers, 2, 4, 6, .... */
  function FirstEvens(m: nat): (r: seq<int>)
    ensures |r| == m
  {
    seq(m, k => 2 * k + 2)
  }

  /** One more odd number extends the list by `2m + 1`. */
  lemma FirstOddsSnoc(m: nat)
    ensures FirstOdds(m + 1) == FirstOdds(m) + [2 * m + 1]
  {
  }

  /** One more even number extends the list by `2m + 2`. */
  lemma FirstEvensSnoc(m: nat)
    ensures FirstEvens(m + 1) == FirstEvens(m) + [2 * m + 2]
  {
  }

  /** The odd numbers from 1 to `n` are 1, 3, 5, ..., up to the largest odd number not
      above `n`. */
  lemma {:induction false} OddsOneTo(n: nat)
    ensures Filtered(OneTo(n), IsOdd) == FirstOdds((n + 1) / 2)
  {
    if n > 0 {
      OddsOneTo(n - 1);
      OddsOneToStep(n);
    } else {
      assert FirstOdds(0) == [];
    }
  }

  /** The closed form for 1..n-1 carries over to 1..n. */
  lemma OddsOneToStep(n: nat)
    requires n >= 1 && Filtered(OneTo(n - 1), IsOdd) == FirstOdds(n / 2)
    ensures Filtered(OneTo(n), IsOdd) == FirstOdds((n + 1) / 2)
  {
    var h := n / 2;
    Halves(n);
    OddsStep(n);
    Functions.IsEvenIff(n);
    if n % 2 != 0 {
      FirstOddsSnoc(h);
    }
  }

  /** Going from 1..n-1 to 1..n adds `n` to the even numbers exactly when `n` is even. */
  lemma EvensStep(n: int)
    requires n >= 1
    ensures Filtered(OneTo(n), Functions.IsEven)
         == Filtered(OneTo(n - 1), Functions.IsEven) + (if n % 2 == 0 then [n] else [])
  {
    FilteredOneToStep(n, Functions.IsEven);
    Functions.IsEvenIff(n);
  }

  /** How halving rounds down: the halves of `n` and `n - 1` differ exactly when `n` is even. */
  lemma Halves(n: nat)
    requires n >= 1
    ensures n % 2 == 0 ==> n / 2 == (n - 1) / 2 + 1 && n == 2 * ((n - 1) / 2) + 2 && (n + 1) / 2 == n / 2
    ensures n % 2 != 0 ==> n / 2 == (n - 1) / 2 && (n + 1) / 2 == n / 2 + 1 && n == 2 * (n / 2) + 1
  {
  }

  /** The even numbers from 1 to `n` are 2, 4, 6, ..., up to the largest even number not
      above `n`. */
  lemma {:induction false} EvensOneTo(n: nat)
    ensures Filtered(OneTo(n), Functions.IsEven) == FirstEvens(n / 2)
  {
    if n > 0 {
      EvensOneTo(n - 1);
      EvensOneToStep(n);
    } else {
      assert FirstEvens(0) == [];
    }
  }

  /** The closed form for 1..n-1 carries over to 1..n. */
  lemma EvensOneToStep(n: nat)
    requires n >= 1 && Filtered(OneTo(n - 1), Functions.IsEven) == FirstEvens((n - 1) / 2)
    ensures Filtered(OneTo(n), Functions.IsEven) == FirstEvens(n / 2)
  {
    var h := (n - 1) / 2;
    EvensStep(n);
    if n % 2 == 0 {
      assert n / 2 == h + 1 && n == 2 * h + 2;
      FirstEvensSnoc(h);
    } else {
      assert n / 2 == h;
    }
  }


  /** `increment` captures `count := 0` of main: three calls return 1, 2 and 3 and leave the
      captured variable at 3. The closure is a `Functions.Counter`. */
  method IncrementDemo() returns (a: int, b: int, c: int, count: int)
    ensures a == 1 && b == 2 && c == 3 && count == 3
  {
    var increment := new Functions.Counter();
    a := increment.Next();
    b := increment.Next();
    c := increment.Next();
    count := increment.count;
  }

  /** The `funcs` loop: for `i` from 1 to `n` it copies `i` into a fresh `val` and appends a
      closure over that copy. The k-th closure therefore yields the value captured in the
      k-th iteration, not the final loop value. (closure.go prints the value; the model's
      closure returns it.) */
  method CapturedClosures(n: int) returns (fns: seq<() -> int>)
    ensures |fns| == if n < 0 then 0 else n
    ensures forall k :: 0 <= k < |fns| ==> fns[k]() == k + 1
  {
    fns := [];
    var i := 1;
    while i <= n
      invariant 1 <= i <= (if n < 0 then 0 else n) + 1
      invariant |fns| == i - 1
      invariant forall k :: 0 <= k < |fns| ==> fns[k]() == k + 1
    {
      var val := i;
      fns := fns + [() => val];
      i := i + 1;
    }
  }

  /** closure.go builds three closures, which yield 1, 2 and 3. */
  method CapturedClosuresDemo() returns (values: seq<int>)
    ensures values == [1, 2, 3]
  {
    var fns := CapturedClosures(3);
    values := [fns[0](), fns[1](), fns[2]()];
  }
}
