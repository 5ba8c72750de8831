/** The accumulator loops of loop.go's main: sum, maximum, the even filter, the character
    frequency count, the filter that drops 3, and the `break` and `continue` loops. Each loop
    runs over whatever slice it is given; the demos restate the values loop.go uses. */
module Loops {
  import opened Spec
  import Functions
  import Closures

  /** The sum loop over `numbers := []int{10, 20, 30, 40, 50}` is the accumulation that
      `Functions.SumNumbers` performs; it yields 150. */
  method SumDemo() returns (sum: int)
    ensures sum == 150
  {
    sum := Functions.SumNumbers([10, 20, 30, 40, 50]);
    assert [10, 20, 30, 40, 50][..4] == [10, 20, 30, 40] && [10, 20, 30, 40][..3] == [10, 20, 30];
    assert [10, 20, 30][..2] == [10, 20] && [10, 20][..1] == [10];
  }

  /** The maximum loop: seeded with `values[0]`, it keeps every larger value it meets. The
      result is one of the values and no value exceeds it. `values[0]` panics on an empty
      slice, hence the precondition. */
  method Max(values: seq<int>) returns (max: int)
    requires |values| > 0
    ensures max in values
    ensures forall k :: 0 <= k < |values| ==> values[k] <= max
  {
    max := values[0];
    for i := 0 to |values|
      invariant max in values
      invariant forall k :: 0 <= k < i ==> values[k] <= max
    {
      if values[i] > max {
        max := values[i];
      }
    }
  }

  /** loop.go finds 89 in [45 12 78 34 89 23]. */
  method MaxDemo() returns (max: int)
    ensures max == 89
  {
    var values := [45, 12, 78, 34, 89, 23];
    max := Max(values);
    assert values[4] == 89;
  }

  /** The even filter: appends, in order, each number with `num % 2 == 0`. */
  method EvenNumbers(allNumbers: seq<int>) returns (evenNumbers: seq<int>)
    ensures evenNumbers == Filtered(allNumbers, Functions.IsEven)
    ensures forall x :: x in evenNumbers <==> x in allNumbers && Functions.IsEven(x)
  {
    evenNumbers := [];
    for i := 0 to |allNumbers|
      invariant evenNumbers == Filtered(allNumbers[..i], Functions.IsEven)
    {
      assert allNumbers[..i + 1][..i] == allNumbers[..i];
      if Functions.IsEven(allNumbers[i]) {
        evenNumbers := evenNumbers + [allNumbers[i]];
      }
    }
    assert allNumbers[..|allNumbers|] == allNumbers;
    FilteredMembers(allNumbers, Functions.IsEven);
  }

  /** `num != 3`, the test of the filter-out-3 loop. */
  predicate NotThree(num: int) {
    num != 3
  }

  /** The filter-out-3 loop: appends, in order, each number other than 3. No 3 is left and
      every other number keeps its number of occurrences. */
  method WithoutThrees(numbersSlice: seq<int>) returns (filtered: seq<int>)
    ensures filtered == Filtered(numbersSlice, NotThree)
    ensures 3 !in filtered
    ensures forall x :: x != 3 ==> Count(filtered, x) == Count(numbersSlice, x)
  {
    filtered := [];
    for i := 0 to |numbersSlice|
      invariant filtered == Filtered(numbersSlice[..i], NotThree)
    {
      assert numbersSlice[..i + 1][..i] == numbersSlice[..i];
      if numbersSlice[i] != 3 {
        filtered := filtered + [numbersSlice[i]];
      }
    }
    assert numbersSlice[..|numbersSlice|] == numbersSlice;
    FilteredMembers(numbersSlice, NotThree);
    forall x | x != 3 ensures Count(filtered, x) == Count(numbersSlice, x) {
      FilteredCount(numbersSlice, NotThree, x);
    }
  }

  /** The character-frequency loop: `frequency[ch]++` for every rune of the text. Afterwards
      the map holds exactly the runes that occur, each with its number of occurrences, and
      the counts add up to the number of runes. */
  method CharFrequency(text: string) returns (frequency: map<char, int>)
    ensures forall c :: c in frequency <==> c in text
    ensures forall c :: Lookup(frequency, c) == Count(text, c)
    ensures MapSum(frequency) == |text|
  {
    frequency := map[];
    for i := 0 to |text|
      invariant Tallies(frequency, text[..i])
    {
      var ch := text[i];
      assert text[..i + 1] == text[..i] + [ch];
      TallyStep(frequency, text[..i], ch);
      frequency := frequency[ch := Lookup(frequency, ch) + 1];
    }
    assert text[..|text|] == text;
  }

  /** The `break` loop: `for i := 1; i <= n; i++`, leaving as soon as `i == stop`. It
      processes 1, 2, ... in order and stops just before `stop` when `stop` is reached. */
  method BreakLoop(n: int, stop: int) returns (processed: seq<int>)
    ensures |processed| == if 1 <= stop <= n then stop - 1 else if n < 0 then 0 else n
    ensures forall k :: 0 <= k < |processed| ==> processed[k] == k + 1
  {
    processed := [];
    var i := 1;
    while i <= n
      invariant 1 <= i <= (if n < 0 then 0 else n) + 1
      invariant 1 <= stop < i ==> false
      invariant processed == OneTo(i - 1)
    {
      if i == stop {
        break;
      }
      processed := processed + [i];
      i := i + 1;
    }
  }

  /** loop.go's break loop runs to 10 and breaks at 5, processing 1 to 4. */
  method BreakDemo() returns (processed: seq<int>)
    ensures processed == [1, 2, 3, 4]
  {
    processed := BreakLoop(10, 5);
  }

  /** The `continue` loop: `for i := 1; i <= n; i++`, skipping each `i` with `i % 2 == 0`.
      It processes exactly the odd numbers from 1 to `n`, in increasing order. */
  method ContinueLoop(n: int) returns (processed: seq<int>)
    ensures processed == Filtered(OneTo(n), Closures.IsOdd)
    ensures forall x :: x in processed <==> 1 <= x <= n && Closures.IsOdd(x)
    ensures Increasing(processed)
  {
    processed := [];
    var i := 1;
    while i <= n
      invariant 1 <= i <= (if n < 0 then 0 else n) + 1
      invariant processed == Filtered(OneTo(i - 1), Closures.IsOdd)
    {
      Closures.OddsStep(i);
      if Functions.IsEven(i) {
        assert processed == Filtered(OneTo(i), Closures.IsOdd);
        i := i + 1;
        continue;
      }
      processed := processed + [i];
      assert processed == Filtered(OneTo(i), Closures.IsOdd);
      i := i + 1;
    }
    assert OneTo(i - 1) == OneTo(n);
    OddMembers(n);
    FilteredOneToIncreasing(n, Closures.IsOdd);
  }

  /** Each element is smaller than the next: the numbers come out in increasing order. */
  ghost predicate Increasing(s: seq<int>) {
    forall a, b :: 0 <= a < b < |s| ==> s[a] < s[b]
  }

  /** The odd numbers kept from 1..n are exactly the odd integers between 1 and `n`. */
  lemma OddMembers(n: int)
    ensures forall x :: x in Filtered(OneTo(n), Closures.IsOdd) <==> 1 <= x <= n && Closures.IsOdd(x)
  {
    FilteredMembers(OneTo(n), Closures.IsOdd);
    OneToMembers(n);
  }

  /** Whatever is kept from 1..n, it is kept in increasing order. */
  lemma {:induction false} FilteredOneToIncreasing(n: int, p: int -> bool)
    ensures Increasing(Filtered(OneTo(n), p))
  {
    if n >= 1 {
      var prev := Filtered(OneTo(n - 1), p);
      FilteredOneToIncreasing(n - 1, p);
      FilteredOneToStep(n, p);
      FilteredMembers(OneTo(n - 1), p);
      OneToMembers(n - 1);
      forall a | 0 <= a < |prev| ensures prev[a] < n {
        assert prev[a] in prev;
      }
    }
  }

  /** The members of `OneTo(n)` are the integers from 1 to `n`. */
  lemma OneToMembers(n: int)
    ensures forall x :: x in OneTo(n) <==> 1 <= x <= n
  {
    forall x | 1 <= x <= n ensures x in OneTo(n) {
      assert OneTo(n)[x - 1] == x;
    }
  }

  /** The odd numbers up to 5 are [1 3 5]. */
  lemma OddsUpToFive()
    ensures Filtered(OneTo(5), Closures.IsOdd) == [1, 3, 5]
  {
    Closures.OddsOneTo(5);
    assert Closures.FirstOdds(3) == [1, 3, 5];
  }

  /** loop.go's continue loop over 1..5 processes 1, 3 and 5. */
  method ContinueDemo() returns (processed: seq<int>)
    ensures processed == [1, 3, 5]
  {
    processed := ContinueLoop(5);
    OddsUpToFive();
  }

  /** loop.go's even filter over 1..10 keeps 2, 4, 6, 8 and 10. */
  method EvenDemo() returns (evenNumbers: seq<int>)
    ensures evenNumbers == [2, 4, 6, 8, 10]
  {
    var allNumbers := [1, 2, 3, 4, 5, 6, 7, 8, 9, 10];
    OneToExamples();
    EvensUpToTen();
    evenNumbers := EvenNumbers(allNumbers);
  }

  /** The slices 1..5 and 1..10 of loop.go, as `OneTo`. */
  lemma OneToExamples()
    ensures OneTo(5) == [1, 2, 3, 4, 5]
    ensures OneTo(10) == [1, 2, 3, 4, 5, 6, 7, 8, 9, 10]
  {
    assert OneTo(1) == [1];
    assert OneTo(2) == [1, 2];
    assert OneTo(3) == [1, 2, 3];
    assert OneTo(4) == [1, 2, 3, 4];
    assert OneTo(5) == [1, 2, 3, 4, 5];
    assert OneTo(6) == [1, 2, 3, 4, 5, 6];
    assert OneTo(7) == [1, 2, 3, 4, 5, 6, 7];
    assert OneTo(8) == [1, 2, 3, 4, 5, 6, 7, 8];
    assert OneTo(9) == [1, 2, 3, 4, 5, 6, 7, 8, 9];
  }

  /** The even numbers up to 10 are [2 4 6 8 10]. */
  lemma EvensUpToTen()
    ensures Filtered(OneTo(10), Functions.IsEven) == [2, 4, 6, 8, 10]
  {
    Closures.EvensOneTo(10);
    assert Closures.FirstEvens(5) == [2, 4, 6, 8, 10];
  }

  /** loop.go's filter over [1 2 3 4 5] leaves [1 2 4 5]. */
  method WithoutThreesDemo() returns (filtered: seq<int>)
    ensures filtered == [1, 2, 4, 5]
  {
    var numbersSlice := [1, 2, 3, 4, 5];
    NoThreesUpToFive();
    filtered := WithoutThrees(numbersSlice);
  }

  /** The numbers other than 3 in [1 2 3 4 5], one element at a time. */
  lemma NoThreesUpToFive()
    ensures Filtered([1, 2, 3, 4, 5], NotThree) == [1, 2, 4, 5]
  {
    FilteredSnoc([], 1, NotThree);
    assert [] + [1] == [1];
    FilteredSnoc([1], 2, NotThree);
    assert [1] + [2] == [1, 2];
    FilteredSnoc([1, 2], 3, NotThree);
    assert [1, 2] + [3] == [1, 2, 3] && [1, 2] + [] == [1, 2];
    FilteredSnoc([1, 2, 3], 4, NotThree);
    assert [1, 2, 3] + [4] == [1, 2, 3, 4];
    FilteredSnoc([1, 2, 3, 4], 5, NotThree);
    assert [1, 2, 3, 4] + [5] == [1, 2, 3, 4, 5];
  }

  /** The frequencies of the runes of "programming". */
  method CharFrequencyDemo() returns (frequency: map<char, int>)
    ensures frequency == map['p' := 1, 'r' := 2, 'o' := 1, 'g' := 2, 'a' := 1, 'm' := 2, 'i' := 1, 'n' := 1]
  {
    var text := "programming";
    frequency := CharFrequency(text);
    ProgrammingTally(frequency);
  }

  /** A map whose keys are the runes of "programming", each mapped to its number of
      occurrences, is the table loop.go prints. */
  lemma ProgrammingTally(m: map<char, int>)
    requires forall c :: c in m <==> c in "programming"
    requires forall c :: Lookup(m, c) == Count("programming", c)
    ensures m == map['p' := 1, 'r' := 2, 'o' := 1, 'g' := 2, 'a' := 1, 'm' := 2, 'i' := 1, 'n' := 1]
  {
    var text := "programming";
    var want := map['p' := 1, 'r' := 2, 'o' := 1, 'g' := 2, 'a' := 1, 'm' := 2, 'i' := 1, 'n' := 1];
    forall c | c in m ensures c in want {
      assert c in text;
    }
    forall c | c in want ensures c in m {
      assert text[0] == 'p' && text[1] == 'r' && text[2] == 'o' && text[3] == 'g';
      assert text[5] == 'a' && text[6] == 'm' && text[8] == 'i' && text[9] == 'n';
      assert c in text;
    }
    assert m.Keys == want.Keys;
    forall c | c in want ensures m[c] == want[c] {
      CountProgramming(c);
      assert Lookup(m, c) == Count(text, c);
    }
  }

  /** The occurrences of each rune of "programming". */
  lemma CountProgramming(c: char)
    ensures Count("programming", c) ==
      if c == 'r' || c == 'g' || c == 'm' then 2
      else if c == 'p' || c == 'o' || c == 'a' || c == 'i' || c == 'n' then 1
      else 0
  {
    ProgrammingRepeats();
    ProgrammingSingles();
    if c !in "programming" {
      CountMultiset("programming", c);
    }
  }

  /** The runes that occur twice in "programming". */
  lemma ProgrammingRepeats()
    ensures Count("programming", 'r') == 2 && Count("programming", 'g') == 2 && Count("programming", 'm') == 2
  {
    CountMultiset("programming", 'r');
    CountMultiset("programming", 'g');
    CountMultiset("programming", 'm');
  }

  /** The runes that occur once in "programming". */
  lemma ProgrammingSingles()
    ensures Count("programming", 'p') == 1 && Count("programming", 'o') == 1 && Count("programming", 'a') == 1
    ensures Count("programming", 'i') == 1 && Count("programming", 'n') == 1
  {
    CountMultiset("programming", 'p');
    CountMultiset("programming", 'o');
    CountMultiset("programming", 'a');
    CountMultiset("programming", 'i');
    CountMultiset("programming", 'n');
  }

  /** The `for { ... }` loops that stop with `break` once `counter >= limit`: the body runs
      at least once, so the loop ends with `counter` at `limit`, or at 1 when `limit < 1`;
      `seen` is the value of `counter` at the top of each pass. */
  method CountUntil(limit: int) returns (counter: int, seen: seq<int>)
    ensures counter == if limit < 1 then 1 else limit
    ensures |seen| == counter
    ensures forall k :: 0 <= k < |seen| ==> seen[k] == k
  {
    counter := 0;
    seen := [];
    var bound := if limit < 1 then 1 else limit;
    while true
      invariant 0 <= counter < bound
      invariant |seen| == counter
      invariant forall k :: 0 <= k < |seen| ==> seen[k] == k
      decreases bound - counter
    {
      seen := seen + [counter];
      counter := counter + 1;
      if counter >= limit {
        break;
      }
    }
  }

  /** Both break-terminated infinite loops of loop.go stop at 3 after three passes. */
  method CountUntilDemo() returns (counter: int, seen: seq<int>)
    ensures counter == 3 && seen == [0, 1, 2]
  {
    counter, seen := CountUntil(3);
  }

  /** The condition-check loop: `for i := 0; i < 6; i++` skips `i == 0` with `continue`
      and leaves at `i == 4` with `break`, so it processes 1, 2 and 3. */
  method ConditionCheckLoop() returns (processed: seq<int>)
    ensures processed == [1, 2, 3]
  {
    processed := [];
    var i := 0;
    while i < 6
      invariant 0 <= i <= 4
      invariant processed == OneTo(i - 1)
    {
      if i == 0 {
        i := i + 1;
        continue;
      }
      if i == 4 {
        break;
      }
      processed := processed + [i];
      i := i + 1;
    }
    assert processed == OneTo(3);
  }

  /** The two-variable loop: `i, j := 0, 10` stepped by `i+1, j-2` while `i < 3 && j > 5`
      runs with (0, 10), (1, 8) and (2, 6). */
  method TwoVariableLoop() returns (visited: seq<(int, int)>)
    ensures visited == [(0, 10), (1, 8), (2, 6)]
  {
    visited := [];
    var i, j := 0, 10;
    while i < 3 && j > 5
      invariant 0 <= i <= 3 && j == 10 - 2 * i
      invariant |visited| == i
      invariant forall k :: 0 <= k < i ==> visited[k] == (k, 10 - 2 * k)
    {
      visited := visited + [(i, j)];
      i, j := i + 1, j - 2;
    }
  }

  /** The labeled break: two nested loops over `rows` by `cols`, leaving both at the
      pair `(bi, bj)`. The visited pairs are the grid in row-major order, cut off just
      before `(bi, bj)` when that pair is on the grid. */
  method LabeledBreak(rows: nat, cols: nat, bi: int, bj: int) returns (visited: seq<(int, int)>)
    ensures |visited| == if 0 <= bi < rows && 0 <= bj < cols then bi * cols + bj else rows * cols
    ensures forall k :: 0 <= k < |visited| ==> visited[k] == (k / cols, k % cols)
  {
    visited := [];
    var i := 0;
    while i < rows
      invariant 0 <= i <= rows
      invariant !(0 <= bi < i && 0 <= bj < cols)
      invariant |visited| == i * cols
      invariant forall k :: 0 <= k < |visited| ==> visited[k] == (k / cols, k % cols)
    {
      var j := 0;
      while j < cols
        invariant 0 <= j <= cols
        invariant !(bi == i && 0 <= bj < j)
        invariant |visited| == i * cols + j
        invariant forall k :: 0 <= k < |visited| ==> visited[k] == (k / cols, k % cols)
      {
        if i == bi && j == bj {
          return;
        }
        RowMajor(i, j, cols);
        visited := visited + [(i, j)];
        j := j + 1;
      }
      i := i + 1;
    }
  }

  /** Position `i * cols + j` of a row-major grid is row `i`, column `j`. */
  lemma {:induction false} RowMajor(i: nat, j: nat, cols: nat)
    requires j < cols
    ensures (i * cols + j) / cols == i && (i * cols + j) % cols == j
  {
    if i > 0 {
      RowMajor(i - 1, j, cols);
      var k := (i - 1) * cols + j;
      assert i * cols + j == k + cols;
      ShiftByDivisor(k, cols);
    }
  }

  /** Adding the divisor adds one to the quotient and keeps the remainder. */
  lemma ShiftByDivisor(k: nat, d: nat)
    requires d > 0
    ensures (k + d) / d == k / d + 1 && (k + d) % d == k % d
  {
    var q, r := k / d, k % d;
    assert k + d == (q + 1) * d + r;
    DivUnique(k + d, d, q + 1, r);
  }

  /** Euclidean division has one quotient and remainder. */
  lemma DivUnique(n: int, d: int, q: int, r: int)
    requires d > 0 && 0 <= r < d && n == q * d + r
    ensures n / d == q && n % d == r
  {
    var q', r' := n / d, n % d;
    assert q * d + r == q' * d + r';
    if q > q' {
      AtLeastOnce(q - q', d);
      assert false;
    } else if q < q' {
      AtLeastOnce(q' - q, d);
      assert false;
    }
  }

  /** A positive multiple of a non-negative number is at least that number. */
  lemma AtLeastOnce(a: int, d: int)
    requires a >= 1 && d >= 0
    ensures a * d >= d
  {
    assert a * d == (a - 1) * d + d;
  }

  /** loop.go breaks out of its 3 by 3 loops at (1, 1), after (0, 0), (0, 1), (0, 2), (1, 0). */
  method LabeledBreakDemo() returns (visited: seq<(int, int)>)
    ensures visited == [(0, 0), (0, 1), (0, 2), (1, 0)]
  {
    visited := LabeledBreak(3, 3, 1, 1);
    assert visited[0] == (0, 0) && visited[1] == (0, 1) && visited[2] == (0, 2) && visited[3] == (1, 0);
  }
}
