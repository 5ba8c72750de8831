# go-basics, the sequential core, in Dafny

go-basics is a collection of Go teaching programs. Each file is a stand-alone `package main`
that demonstrates one language feature and prints what it computes. This project models the
computing part of those programs and proves what their comments and output promise:

- the helpers of `function.go`: rune reversal, palindrome test, factorial, variadic sum,
  grading, area and perimeter, `multiplier` and the `counter` closure;
- the map utilities of `maps.go` (`mergeMaps`, `getKeys`, `getValues`) and its word count;
- the slice mechanics of `slice.go`: slicing, writes through shared backing arrays, `copy`,
  `append`, and remove and insert at an index built from `append`;
- the accumulator and control-flow loops of `loop.go`, and the `range` loops of `range.go`;
- the closures of `closure.go`;
- the pointer mutators of `pointer.go` and `deref.go`;
- the switch statements of `switch.go`, including `fallthrough`.

One Dafny module stands for each Go file: `Functions`, `Maps`, `Slices`, `Loops`, `Closures`,
`Pointers`, `Switches` and `Ranges`. Two shared modules sit beside them. `GoInt` holds Go's
truncating `/` and `%` and the 64-bit bounds. `Spec` holds the reference functions the
contracts are written in: `Sum`, `Count`, `Filtered`, `OneTo`, `MapSum` and `ValueBag`.

How the Go constructs are represented:

- **Slices.** A slice is a header `Slice(arr, off, len, cap)` over a shared `array<int>`.
  Re-slicing builds a new header over the same array. Element writes, `copy` and `append`
  are methods that modify the array. So aliasing between sub-slices is modelled, not
  assumed away.
- **Pointers and mutable closure state.** `*int` targets, structs behind pointers and the
  captured `count` of `counter`/`increment` are objects of small classes: `IntVar`,
  `Rectangle`, `Person`, `User` and `Counter`.
- **Loops.** They stay loops, with invariants. Each is proved against a reference function,
  such as `total == Sum(numbers)`, `evenNumbers == Filtered(allNumbers, IsEven)` or a map
  whose lookups equal `Count`.
- **Switches.** Clauses are evaluated in the source order by a generic evaluator (`Clause`,
  `FirstMatch`, `RunFrom`, `Switch`). It runs a clause and then, through `fallthrough`, the
  clauses after it. A switch that prints becomes the list of lines it prints. A switch that
  returns becomes the returned value.
- **Runtime panics.** Go panics on an out-of-range index or slice bound, and on `values[0]`
  of an empty slice. These panics are preconditions here, because the programs never
  handle them.
- **Demos.** The concrete runs of the modelled operations, whose results the source prints
  or states in a comment, are methods (or lemmas) with the stated result as their
  postcondition. For example, `[10 20 40 50]` after removing index 2, or 89 as the maximum.

## Model

| member | source | states |
|---|---|---|
| Functions.Reversed | function.go:127-133 | the reversal of a rune sequence keeps its length |
| Functions.ReversedAt | function.go:127-133 | position k of the reversal holds position n-1-k of the input |
| Functions.ReversedTwice | function.go:127-137 | reversing twice gives back the original string |
| Functions.ReverseString | function.go:127-133 | the two-index swap loop over the rune array returns a result of the same length with result[k] = s[n-1-k], i.e. the reversal |
| Functions.ReverseDemo | function.go:121 | reverseString("Hello") is "olleH" |
| Functions.IsPalindrome | function.go:135-137 | true exactly when the string equals its reversal, equivalently when s[k] = s[n-1-k] for every k |
| Functions.PalindromeDemo | function.go:123-124 | "racecar" is a palindrome and "hello" is not |
| Functions.Factorial | function.go:220-225 | the factorial is at least 1 and at least n |
| Functions.FactorialMonotone | function.go:220-225 | factorial never decreases as n grows |
| Functions.FactorialExamples | function.go:254-255 | factorial(5) = 120 and factorial(7) = 5040 |
| Functions.FactorialFitsInt64 | function.go:220-225 | the factorial of n <= 20 fits in a 64-bit int and that of 21 does not |
| Functions.SumNumbers | function.go:177-183 | the accumulation loop returns the sum of its arguments, 0 for none |
| Functions.SumNumbersDemo | function.go:148-153 | sumNumbers(1, 2, 3) = 6, sumNumbers(10, 20, 30, 40, 50) = 150, and sumNumbers(numbers...) over the slice [1 2 3 4 5] = 15 |
| Functions.Grade | function.go:74-87 | getGrade as an if-chain from 90 down to 60; its bands are stated by Functions.GradeBands |
| Functions.GradeBands | function.go:74-87 | A for scores >= 90, B for 80-89, C for 70-79, D for 60-69, F below 60, each an if-and-only-if |
| Functions.GradeMonotone | function.go:74-87 | a higher score never gets a worse grade |
| Functions.GradeExamples | function.go:383-384 | 85 is graded B and 45 is graded F |
| Functions.Calculate | function.go:41-45 | calculate returns the pair (sum, product); related to getDimensions by Functions.DimensionsFromCalculate |
| Functions.Dimensions | function.go:61-65 | getDimensions returns the pair (area, perimeter); related to calculate by Functions.DimensionsFromCalculate |
| Functions.DimensionsFromCalculate | function.go:41-66 | the area is calculate's product and the perimeter twice its sum; both are symmetric in the two sides |
| Functions.DimensionsExamples | function.go:355-377 | calculate(6, 8) = (14, 48) and getDimensions(10, 5) = (50, 30) |
| Functions.IsEven | function.go:69-71 | isEven tests Go's truncating remainder by 2; Functions.IsEvenIff relates it to evenness |
| Functions.IsEvenIff | function.go:69-71 | Go's truncating n % 2 == 0 agrees with Euclidean evenness, negative numbers included, and parity ignores sign |
| Functions.IsEvenExamples | function.go:380-381 | 7 is odd and 8 is even |
| Functions.Multiplier | function.go:213-217 | multiplier(factor) is the closure x => x * factor; the `multiplier` literal at closure.go:53-58 is the same factory, so Functions.MultiplierExamples also gives its double(5) and triple(5); Functions.MultiplierCompose states how multipliers compose |
| Functions.MultiplierCompose | function.go:213-217 | multiplier(a) after multiplier(b) is multiplier(a*b), and multiplier(1) is the identity |
| Functions.MultiplierExamples | function.go:247-251 | double(5) = 10 and triple(5) = 15 |
| Functions.Counter.constructor | function.go:228-229 | a new counter starts its captured count at 0 |
| Functions.Counter.Next | function.go:230-233 | each call raises the captured count by one and returns the new count |
| Functions.CounterDemo | function.go:257-263 | one counter returns 1, 2, 3; a second counter starts again at 1 and does not disturb the first |
| GoInt.DivisionIdentity | switch.go:179 | Go's truncated quotient and remainder satisfy a = q*b + r with abs(r) < abs(b) and r taking the sign of a |
| GoInt.RemTwoZeroIff | function.go:69-71 | Go's remainder by 2 is zero exactly when the Euclidean one is |
| Maps.MergeMaps | maps.go:294-308 | two copy loops into a fresh map; the keys are the union, keys of map2 take map2's value, keys only in map1 keep map1's value |
| Maps.MergeMapsDemo | maps.go:228-231 | {a:1, b:2} merged with {b:3, c:4} is {a:1, b:3, c:4} |
| Maps.GetKeys | maps.go:276-282 | one entry per key of the map, each key exactly once |
| Maps.GetValues | maps.go:285-291 | as many values as keys, and the multiset of values is the map's value multiset |
| Maps.WordCount | maps.go:190-193 | a word is a key exactly when it occurs, its count is its number of occurrences, and the counts add up to the number of words |
| Maps.WordCountDemo | maps.go:187-193 | "hello world hello go world go hello" counts hello 3, world 2, go 2 |
| Maps.HelloTally | maps.go:187-193 | a map that tallies the seven words of that text is exactly {hello:3, world:2, go:2} |
| Maps.CountHello | maps.go:187 | the occurrences of hello, world and go in that text |
| Slices.Removed | slice.go:113 | removing index i shortens the sequence by one and shifts the later elements left by one |
| Slices.Inserted | slice.go:119 | inserting at i lengthens the sequence by one, puts the value at i and shifts the later elements right |
| Slices.RemoveInsertRoundTrip | slice.go:113-120 | removing what was inserted, and re-inserting what was removed, give back the original |
| Slices.FromSeq | slice.go:16 | a slice literal is a fresh array of exactly its elements, with len = cap |
| Slices.Make | slice.go:20-21 | `make([]int, len, cap)` gives len zeros over a fresh array of cap elements |
| Slices.Reslice | slice.go:33-38 | s[lo:hi] shares the array, has length hi-lo and capacity cap-lo, and shows s's elements lo to hi-1 (or the array beyond the length, up to cap) |
| Slices.Set | slice.go:58-61 | writing element i writes array cell off+i and nothing else |
| Slices.Copy | slice.go:67-72 | copies min(len(dst), len(src)) elements from a snapshot of src, leaves the rest of dst's array alone and returns the count |
| Slices.Append | slice.go:130-131 | the result shows the old elements followed by the items; in place with the same array and capacity when they fit, otherwise into a fresh array with twice the old capacity (or the needed length if that is more), the old array untouched |
| Slices.RemoveAt | slice.go:113 | `append(s[:i], s[i+1:]...)` gives Removed(s, i) in the same backing array, which changes only the cells from i on |
| Slices.InsertAt | slice.go:119 | `append(s[:i], append([]int{v}, s[i:]...)...)` gives Inserted(s, i, v); with spare capacity it works in place and changes only the array cells from off+i to off+len, otherwise it fills a fresh array and leaves the old one untouched |
| Slices.GrowthCap | slice.go:86-90 | the capacity after n one-element appends to a nil slice is at least n and below 2n |
| Slices.GrowthCapsUpToTen | slice.go:90 | the capacities after the first ten appends are 1, 2, 4, 4, 8, 8, 8, 8, 16, 16 |
| Slices.GrowthDemo | slice.go:83-90 | appending 0..9 to a nil slice gives those ten values; the capacity after each append is 1, 2, 4, 4, 8, 8, 8, 8, 16, 16, doubling from 1 through 2, 4 and 8 to 16 |
| Slices.GrowthLoop | slice.go:86-89 | the growth loop over n appends leaves 0..n-1 in the slice with capacity GrowthCap(n), and the capacities it records are GrowthCaps(n) |
| Slices.ArraySliceDemo | slice.go:10-13 | x[1:3] shows [2 3] and, re-sliced to its capacity 5, [2 3 4 5 6] |
| Slices.SlicingDemo | slice.go:33-38 | numbers[2:5], [:4], [6:] and [:] are [3 4 5], [1 2 3 4], [7 8 9 10] and all ten |
| Slices.CapacityDemo | slice.go:43-52 | arr[2:5] has len 3 and cap 8, and shows [2 ... 9] at full capacity |
| Slices.AliasingDemo | slice.go:58-61 | writing reference[0] = 999 through original[1:] makes original [100 999 300] |
| Slices.CopyDemo | slice.go:67-72 | copy moves 5 elements, and dest[0] = 99 leaves src [1 2 3 4 5] |
| Slices.AppendCopyDemo | slice.go:75-78 | `append([]int{}, src...)` is an independent copy: copy2[1] = 88 leaves src alone |
| Slices.RemoveDemo | slice.go:109-114 | [10 20 30 40 50] becomes [10 20 40 50], and the backing array keeps a stale 50 at the end |
| Slices.InsertDemo | slice.go:116-120 | inserting 99 at index 2 of [1 2 3 4 5] gives [1 2 99 3 4 5] |
| Slices.SharedBackingDemo | slice.go:135-142 | part1[1] = 999 changes base[2] and part2[0]: base [1 2 999 4 5], part1 [2 999], part2 [999 4] |
| Loops.SumDemo | loop.go:187-192 | the sum loop over [10 20 30 40 50] gives 150 |
| Loops.Max | loop.go:195-202 | seeded with values[0], the result is an element and no element exceeds it |
| Loops.MaxDemo | loop.go:195-202 | the maximum of [45 12 78 34 89 23] is 89 |
| Loops.EvenNumbers | loop.go:205-213 | the filter keeps exactly the even elements, in their original order |
| Loops.EvenDemo | loop.go:205-213 | from 1..10 it keeps [2 4 6 8 10] |
| Closures.EvensStep | loop.go:208-212 | one more iteration adds i to the evens exactly when i % 2 == 0 |
| Closures.EvensOneTo | loop.go:205-213 | the even numbers from 1 to n are exactly the first n/2 even numbers 2, 4, 6, ... in increasing order |
| Loops.EvensUpToTen | loop.go:205 | the even numbers of 1..10 are [2 4 6 8 10] |
| Loops.CharFrequency | loop.go:216-221 | a rune is a key exactly when it occurs, its count is its number of occurrences, and the counts add up to the rune count |
| Loops.CharFrequencyDemo | loop.go:216-221 | "programming" gives p 1, r 2, o 1, g 2, a 1, m 2, i 1, n 1 |
| Loops.ProgrammingTally | loop.go:216-226 | a map whose keys are the runes of "programming", each mapped to its number of occurrences, is p 1, r 2, o 1, g 2, a 1, m 2, i 1, n 1 |
| Loops.CountProgramming | loop.go:216 | in "programming" r, g and m occur twice, p, o, a, i and n once, and every other rune never |
| Loops.NotThree | loop.go:278 | the `num != 3` test of the filter loop; Loops.WithoutThrees states what filtering with it keeps |
| Loops.WithoutThrees | loop.go:272-282 | no 3 is left, the order is kept, and every other value keeps its number of occurrences |
| Loops.WithoutThreesDemo | loop.go:272-282 | [1 2 3 4 5] becomes [1 2 4 5] |
| Loops.NoThreesUpToFive | loop.go:272 | the values of [1 2 3 4 5] other than 3 are [1 2 4 5] |
| Loops.BreakLoop | loop.go:163-169 | the loop from 1 to n leaving at `stop` processes 1, 2, ... in order, stop-1 of them when 1 <= stop <= n and all n otherwise |
| Loops.BreakDemo | loop.go:163-169 | breaking at 5 processes [1 2 3 4] |
| Loops.ContinueLoop | loop.go:173-178 | skipping even i with `continue` processes exactly the odd numbers from 1 to n, in increasing order |
| Loops.OddMembers | loop.go:173-178 | the odd numbers kept from 1..n are exactly the odd integers between 1 and n |
| Loops.FilteredOneToIncreasing | loop.go:173-178 | whatever a filter keeps from the counting loop 1..n comes out in strictly increasing order |
| Closures.OddsOneTo | loop.go:173-178 | the odd numbers from 1 to n are exactly the first (n+1)/2 odd numbers 1, 3, 5, ... |
| Closures.OddsStep | loop.go:173-178 | one more iteration adds i exactly when i is odd |
| Loops.OneToMembers | loop.go:173 | the loop range 1..n holds exactly the integers from 1 to n |
| Loops.OddsUpToFive | loop.go:173-178 | the odd numbers of 1..5 are [1 3 5] |
| Loops.ContinueDemo | loop.go:173-178 | the continue loop over 1..5 processes [1 3 5] |
| Loops.CountUntil | loop.go:60-70 | a `for {}` loop incrementing a counter and leaving at counter >= limit stops at limit (at 1 if limit < 1), having passed with counter = 0, 1, ... |
| Loops.CountUntilDemo | loop.go:60-70 | both such loops stop at 3 after passes with counter 0, 1, 2 |
| Loops.ConditionCheckLoop | loop.go:255-263 | skipping i = 0 and breaking at i = 4 processes [1 2 3] |
| Loops.TwoVariableLoop | loop.go:236-238 | the loop stepping i up by 1 and j down by 2 runs with (0,10), (1,8), (2,6) |
| Loops.LabeledBreak | loop.go:242-251 | the nested loops visit the grid in row-major order, cut off just before the break pair when it is on the grid |
| Loops.LabeledBreakDemo | loop.go:242-251 | breaking at (1,1) of the 3 by 3 loops visits (0,0), (0,1), (0,2), (1,0) |
| Closures.Negate | closure.go:28-30 | `test` multiplies by -1; Closures.NegateProperties states what it does |
| Closures.NegateProperties | closure.go:28-33 | `test` is multiplier(-1) and undoes itself; test(8) = -8 and test2 prints test(7) = -7 |
| Closures.IsOdd | closure.go:82 | isOdd tests whether Go's truncating remainder by 2 is non-zero; Closures.OddIsNotEven relates it to isEven |
| Closures.OddIsNotEven | closure.go:81-82 | isOdd is the negation of isEven for every integer, negative ones included |
| Closures.Filter | closure.go:68-76 | the result is the elements satisfying the predicate, in order, no longer than the input, with each kept value's occurrences preserved |
| Closures.EvenOddPartition | closure.go:78-85 | the isEven and isOdd filters together hold every element exactly once |
| Closures.FilterDemo | closure.go:78-85 | filtering 1..6 gives [2 4 6] and [1 3 5] |
| Closures.EvensOfOneToSix | closure.go:84 | the even numbers of 1..6 are [2 4 6] |
| Closures.OddsOfOneToSix | closure.go:85 | the odd numbers of 1..6 are [1 3 5] |
| Closures.IncrementDemo | closure.go:38-47 | three increment() calls return 1, 2, 3 and leave the captured count at 3 |
| Closures.CapturedClosures | closure.go:90-99 | the k-th closure built in the loop yields the k+1 it captured, not the final loop value |
| Closures.CapturedClosuresDemo | closure.go:90-103 | the three closures yield 1, 2, 3 |
| Pointers.IntVar.constructor | pointer.go:166 | a new int cell holds its initial value |
| Pointers.Swap | pointer.go:132-137 | *a gets the old *b and *b the old *a; swapping a cell with itself leaves it unchanged |
| Pointers.Increment | pointer.go:147-149 | *count rises by exactly one |
| Pointers.Rectangle.constructor | pointer.go:180-182 | a rectangle holds the given width and height |
| Pointers.Rectangle.Scale | pointer.go:185-188 | width and height are both multiplied by the factor |
| Pointers.Person.constructor | pointer.go:191-193 | createPerson returns a pointer to a person with the given name and age |
| Pointers.User.constructor | deref.go:16 | a user holds the given name and age |
| Pointers.User.Birthday | deref.go:11-13 | the age rises by one and the name stays |
| Pointers.ProcessLargeData | pointer.go:140-144 | element 0 of the caller's slice becomes 999, and the length and every other element are unchanged |
| Pointers.SwapDemo | pointer.go:92-96 | swap(&a, &b) on 10 and 20 gives 20 and 10 |
| Pointers.IncrementDemo | pointer.go:117-120 | two increments of 0 give 2 |
| Pointers.DereferenceDemo | pointer.go:31-54 | *y = 42 changes x to 42, and z := &x equals y in address and value |
| Pointers.PersonDemo | pointer.go:78-87 | ptrToAlice.Age = 26 changes alice itself |
| Pointers.ScaleDemo | pointer.go:171-173 | Rectangle{10, 5}.Scale(2) is {20, 10} |
| Pointers.BirthdayDemo | deref.go:16-35 | Birthday takes 24 to 25, and *p = 50 through p := &x makes x 50 |
| Pointers.ProcessLargeDataDemo | pointer.go:113-114 | on a million zeros the first element becomes 999, the second stays 0 and the length stays a million |
| Switches.Switch | switch.go:23-32 | a tagged switch runs from the first clause whose labels hold the tag, else the default; Switches.FirstMatch and Switches.RunFromChain state which bodies run |
| Switches.RunFrom | switch.go:82-94 | the bodies run once a clause is entered, continuing while clauses end in `fallthrough`; Switches.RunFromChain states where it stops |
| Switches.FirstMatch | switch.go:23-32 | the chosen clause is the first whose labels hold the tag; no clause is chosen exactly when none holds it |
| Switches.ChainEnd | switch.go:82-94 | the clause where a fallthrough chain ends is the first one that does not fall through |
| Switches.RunFromChain | switch.go:82-94 | entering a clause runs exactly the bodies from it to the end of its fallthrough chain; without fallthrough it runs alone |
| Switches.NumberSwitch | switch.go:82-94 | the lines `switch number` prints; stated case by case by Switches.NumberFallthrough |
| Switches.NumberFallthrough | switch.go:82-94 | 1 prints the lines for 1, 2 and 3; 2 prints "Number is 2" and "Number is 3"; 3 and 4 print only their own line; any other number prints nothing |
| Switches.NumberFourOnly | switch.go:82-94 | "Number is 4" is printed for 4 and for no other number, since no case falls into case 4 |
| Switches.FallthroughTip | switch.go:285-292 | case 1 falls into case 2 and prints both lines |
| Switches.AnswerSwitch | switch.go:23-32 | the line `switch ans` prints; Switches.AnswerSwitchOneLine states it |
| Switches.AnswerSwitchOneLine | switch.go:20-32 | every value prints one line, "not a case" exactly for values other than 1, 2, 10; 10 prints "ten" |
| Switches.RolePrivileges | switch.go:204-215 | the privileges `switch userRole` grants through its fallthrough chain; Switches.RoleTable lists them |
| Switches.RoleTable | switch.go:204-215 | admin gets full access, moderation and basic access; moderator moderation and basic; user basic; guest read-only; other roles nothing |
| Switches.RolesNest | switch.go:204-215 | the user's privileges are within the moderator's, the moderator's within the admin's, and a guest has only read-only access |
| Switches.RoleExclusive | switch.go:204-215 | full access only for admin, moderation only for admin and moderator, read-only only for guest |
| Switches.OddEvenSwitch | switch.go:146-158 | the lines `switch value` prints, with the `break` in the odd clause; Switches.OddEvenBreak states them |
| Switches.OddEvenBreak | switch.go:146-158 | the break skips the rest of the odd clause exactly for 5; values outside 1..10 print nothing |
| Switches.ScoreSwitch | switch.go:57-71 | the line the tagless grade switch prints; Switches.ScoreSwitchIsGetGrade relates it to getGrade |
| Switches.ScoreSwitchIsGetGrade | switch.go:57-71 | the tagless grade switch picks the same band as getGrade; 85 prints "Grade: B" |
| Switches.DayOf | switch.go:40-49 | the outcome of `switch day`; Switches.DayOfIff states each outcome as an if-and-only-if |
| Switches.DayOfIff | switch.go:40-49 | Saturday and Sunday are the weekend, Monday to Friday weekdays, anything else invalid; Monday is a weekday |
| Switches.Calculator | switch.go:170-185 | division by zero is reported exactly for "/" with b = 0, and unknown operator exactly for an operator other than + - * / |
| Switches.CalculatorDivision | switch.go:167-182 | a division that goes through returns Go's truncated quotient (q*b + r = a with a small remainder of a's sign); 15 / 3 = 5 and -7 / 2 = -3 |
| Switches.Season | switch.go:247-260 | getSeason as a switch over months; Switches.SeasonByQuarter states it |
| Switches.SeasonByQuarter | switch.go:247-263 | a month is valid exactly when it is 1..12, then its season is quarter (month mod 12) / 3 of the year from December; 3 is spring and 8 summer |
| Ranges.RangeVisit | range.go:29-31 | range over a slice visits (index, value) pairs with indices 0 to len-1 in increasing order |
| Ranges.Cells | range.go:137-146 | the (row, column, value) triples of the nested range, row by row; Ranges.CellsAt and Ranges.CellsMembers state what it holds |
| Ranges.RowCells | range.go:143-145 | the inner range visits (row, column, value) for each column in order |
| Ranges.MatrixVisit | range.go:137-146 | the nested ranges visit the cells of the 2D slice in row-major order |
| Ranges.CellsAt | range.go:142-146 | cell (i, j) is visited after all earlier rows' cells, at offset j in its row |
| Ranges.CellsMembers | range.go:142-146 | the visited triples are exactly the cells of the matrix with their values |
| Ranges.MatrixDemo | range.go:137-146 | the 3 by 3 matrix is visited as (0,0,1), (0,1,2), ..., (2,2,9) |
| Ranges.ThreeRows | range.go:137-141 | the row-major cells of the 3 by 3 matrix |
| Ranges.FindFirst | range.go:117-124 | a reported index holds the target and no earlier one does; nothing is reported exactly when the target is absent |
| Ranges.FindDemo | range.go:117-124 | 30 is found at position 2 of [10 20 30 40 50] |
| Ranges.RecipeSteps | range.go:63-67 | step k is shown with number k+1 |

## Left out

- Goroutines, channels, `select`, `time.After` and sleeps (`channel.go`, parts of `make.go`): concurrency and timing have no place in a sequential model.
- Floating-point code (`divide`, `getCircleArea`, `averageGrades`, `calculateTotalPrice`, `applyTax`, the `float64` `Account`, the price sum of `range.go`): Dafny has no IEEE doubles.
- `defer.go`, `type.go` (stdin and `strconv`), `operator.go`, `conditions.go`, `var.go`, `mutable.go`, `immutable.go`, `array.go`, `interface.go`: print-only demos, I/O, or floating point, with no logic beyond a constant.
- `struct.go` is not part of this model. It does not type-check, because `Greet` and `UpdateEmail` are called on a type that lacks them.
- All printing is left out. Effects are modelled as returned values or printed-line lists, never as text formatting (`%v`, `%p`, `%U`). Memory addresses are not modelled.
- The print-only switches of `switch.go` are left out: the type switch (`interface{}` and dynamic types), the traffic light, the hour switch, the temperature switch and the colour switch. Each prints one constant line. The traffic-light and colour switches use the same first-matching-label rule that `Switches.FirstMatch` models. The hour and temperature switches test boolean conditions in order, as `Switches.ScoreSwitch` does. The type switch dispatches on a dynamic type, which the model does not have.
- The string-slice demos of `slice.go` (line 27-30), `range.go` (candies, names, seats, colours, fruits, the map of ages, the string "Hello") and the print-only loops at the start of `loop.go`: they only print. `Ranges.RangeVisit` covers their visit order for any element type.
- `strings.Fields` is left out; the word list of `maps.go` is given already split.
- Map iteration order is random by design in Go. `Maps.GetKeys`, `Maps.GetValues` and `Maps.MergeMaps` pick keys in an arbitrary order (`:|`), so their contracts hold for every order.
- Maps.MergeMaps: a Go map is a reference, but here maps are values. That the inputs are left unchanged therefore holds by construction rather than being proved about a heap.
- Functions.Factorial: computed over unbounded integers. Go's 64-bit `int` wraps for n >= 21; `Functions.FactorialFitsInt64` states the bound instead of modelling the wrap.
- Functions.SumNumbers, Functions.Counter.Next, Pointers.Increment, Pointers.Rectangle.Scale, Switches.Calculator: 64-bit wrap-around is not modelled; the demos stay far from the bounds.
- Slices.InsertAt: the inner `append([]int{v}, s[i:]...)` always copies into an array that nothing else refers to, so it is modelled by the sequence it holds rather than by a second array.
- Slices.Append: a reallocating append gets twice the old capacity, or the needed length when that is more. This is Go's rule for slices below 256 elements. Two things are not modelled: the rounding up to the allocator's size classes (for instance 5 ints get room for 6), and the slower growth of larger slices. For one element at a time from a nil slice, as in slice.go:86-90, the rule gives Go's capacities.
- Slices: only `[]int` slices are modelled; the `[]string` append demo at slice.go:27-30 behaves the same way.
- `reverseString` works on runes. Strings are modelled as sequences of characters (code points), so converting invalid UTF-8 into runes is not modelled.
- The model follows the evident intent in six places where the source does not compile:
  - the call at slice.go:78 is missing its parenthesis;
  - slice.go:127 discards an `append` result, which Go rejects;
  - pointer.go:31 and pointer.go:59 redeclare `x` and `ptr` in the same scope;
  - closure.go:90 writes `[]func() { var fns []func() ... }()`, a composite literal holding a statement, where a function literal `func() []func() { ... }()` is meant; `Closures.CapturedClosures` models the function literal;
  - pointer.go:191-193 declares `createPerson` returning `*Person` at package level, but `Person` is declared only inside `main` (pointer.go:73-76); `Pointers.Person.constructor` models a package-level `Person` with `Name` and `Age`.
- Go's `fallthrough` may not appear in a switch's last clause. `Switches.RunFrom` simply stops there; the switches modelled never do it.
- `printMessage` (nil check on `*string`) is print-only.
- Closures.CapturedClosures: Dafny lambdas capture values, not variables. So the model cannot show what the `val := i` copy at closure.go:93 guards against, which is every closure seeing the loop variable's final value. It only shows that each closure yields the value it captured.
