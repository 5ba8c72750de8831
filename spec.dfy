/** Reference definitions shared by the models of the demo programs: what a Go accumulator,
    filter or counting loop computes, stated once as functions over sequences and maps. */
module Spec {

  datatype Option<T> = None | Some(value: T)

  // ---------- sums ----------

  /** The sum of the elements, accumulated left to right as a `for _, x := range s` loop does. */
  function Sum(s: seq<int>): int {
    if s == [] then 0 else Sum(s[..|s| - 1]) + s[|s| - 1]
  }

  // ---------- occurrences ----------

  /** How often `x` occurs in `s`. */
  function Count<T(==)>(s: seq<T>, x: T): nat {
    if s == [] then 0 else Count(s[..|s| - 1], x) + (if s[|s| - 1] == x then 1 else 0)
  }

  /** Appending one element adds one to its own count and nothing to any other. */
  lemma CountSnoc<T>(s: seq<T>, y: T, x: T)
    ensures Count(s + [y], x) == Count(s, x) + (if y == x then 1 else 0)
  {
    assert (s + [y])[..|s + [y]| - 1] == s;
  }

  /** The count of `x` is its multiplicity in the multiset of `s`. */
  lemma {:induction false} CountMultiset<T>(s: seq<T>, x: T)
    ensures Count(s, x) == multiset(s)[x]
  {
    if s != [] {
      CountMultiset(s[..|s| - 1], x);
      assert s == s[..|s| - 1] + [s[|s| - 1]];
    }
  }

  // ---------- filtering ----------

  /** The elements of `s` that satisfy `p`, in their original order. */
  function Filtered(s: seq<int>, p: int -> bool): (r: seq<int>)
    ensures |r| <= |s|
  {
    if s == [] then [] else Filtered(s[..|s| - 1], p) + (if p(s[|s| - 1]) then [s[|s| - 1]] else [])
  }

  /** The filtered sequence holds exactly the elements of `s` that satisfy `p`. */
  lemma {:induction false} FilteredMembers(s: seq<int>, p: int -> bool)
    ensures forall x :: x in Filtered(s, p) <==> x in s && p(x)
  {
    if s != [] {
      var init := s[..|s| - 1];
      FilteredMembers(init, p);
      assert s == init + [s[|s| - 1]];
    }
  }

  /** Appending one element to the input appends it to the output when `p` accepts it. */
  lemma FilteredSnoc(s: seq<int>, x: int, p: int -> bool)
    ensures Filtered(s + [x], p) == Filtered(s, p) + (if p(x) then [x] else [])
  {
    assert (s + [x])[..|s + [x]| - 1] == s;
  }

  /** Filtering keeps every element satisfying `p` as often as it occurs, and no other. */
  lemma {:induction false} FilteredCount(s: seq<int>, p: int -> bool, x: int)
    ensures Count(Filtered(s, p), x) == if p(x) then Count(s, x) else 0
  {
    if s != [] {
      var init, last := s[..|s| - 1], s[|s| - 1];
      FilteredCount(init, p, x);
      if p(last) {
        CountSnoc(Filtered(init, p), last, x);
      } else {
        assert Filtered(s, p) == Filtered(init, p);
      }
    }
  }

  /** Filtering with a predicate and with its negation splits `s` into two parts that
      together hold every element exactly as often as `s` does. */
  lemma {:induction false} FilteredPartition(s: seq<int>, p: int -> bool, q: int -> bool)
    requires forall x :: q(x) == !p(x)
    ensures multiset(Filtered(s, p)) + multiset(Filtered(s, q)) == multiset(s)
    ensures |Filtered(s, p)| + |Filtered(s, q)| == |s|
  {
    if s != [] {
      var init, last := s[..|s| - 1], s[|s| - 1];
      FilteredPartition(init, p, q);
      assert s == init + [last];
      FilteredSnoc(init, last, p);
      FilteredSnoc(init, last, q);
      PartitionStep(Filtered(init, p), Filtered(init, q), init, last, p(last), q(last));
    }
  }

  /** One more element goes to exactly one side of a partition of `s`. */
  lemma PartitionStep(a: seq<int>, b: seq<int>, s: seq<int>, x: int, inA: bool, inB: bool)
    requires inB == !inA
    requires multiset(a) + multiset(b) == multiset(s) && |a| + |b| == |s|
    ensures multiset(a + (if inA then [x] else [])) + multiset(b + (if inB then [x] else [])) == multiset(s + [x])
    ensures |a + (if inA then [x] else [])| + |b + (if inB then [x] else [])| == |s + [x]|
  {
    assert multiset(s + [x]) == multiset(s) + multiset{x};
    if inA {
      assert multiset(a + [x]) == multiset(a) + multiset{x};
      assert b + [] == b;
    } else {
      assert multiset(b + [x]) == multiset(b) + multiset{x};
      assert a + [] == a;
    }
  }

  /** The integers 1, 2, ..., n, the values visited by `for i := 1; i <= n; i++`. */
  function OneTo(n: int): (r: seq<int>)
    ensures |r| == if n < 0 then 0 else n
    ensures forall k :: 0 <= k < |r| ==> r[k] == k + 1
  {
    if n <= 0 then [] else OneTo(n - 1) + [n]
  }

  /** Filtering 1..i adds `i` to the filtered 1..i-1 exactly when `p` accepts it. */
  lemma FilteredOneToStep(i: int, p: int -> bool)
    requires i >= 1
    ensures Filtered(OneTo(i), p) == Filtered(OneTo(i - 1), p) + (if p(i) then [i] else [])
  {
    assert OneTo(i) == OneTo(i - 1) + [i];
    FilteredSnoc(OneTo(i - 1), i, p);
  }

  /** Filtering 1..1 keeps 1 exactly when `p` accepts it. */
  lemma FilteredOneToOne(p: int -> bool)
    ensures Filtered(OneTo(1), p) == if p(1) then [1] else []
  {
    assert OneTo(1) == [1];
    assert Filtered(OneTo(1), p) == Filtered([], p) + (if p(1) then [1] else []);
  }

  // ---------- maps ----------

  /** Some key of a non-empty map; which one is left unspecified. */
  ghost function PickKey<K, V>(m: map<K, V>): K
    requires |m| != 0
  {
    var k :| k in m; k
  }

  /** The sum of the values of a map, independent of any iteration order. */
  ghost function MapSum<K>(m: map<K, int>): int
    decreases |m|
  {
    if |m| == 0 then 0
    else
      var k := PickKey(m);
      m[k] + MapSum(m - {k})
  }

  /** The sum of a map's values can be taken with any key first. */
  lemma {:induction false} MapSumRemove<K>(m: map<K, int>, k: K)
    requires k in m
    ensures MapSum(m) == m[k] + MapSum(m - {k})
    decreases |m|
  {
    var j := PickKey(m);
    if j != k {
      var rest := (m - {j}) - {k};
      assert rest == (m - {k}) - {j};
      MapSumRemove(m - {j}, k);
      assert MapSum(m - {j}) == m[k] + MapSum(rest);
      MapSumRemove(m - {k}, j);
      assert MapSum(m - {k}) == m[j] + MapSum(rest);
    }
  }

  /** Storing `v` under `k` changes the sum of the values by the difference from the old entry. */
  lemma MapSumUpdate<K>(m: map<K, int>, k: K, v: int)
    ensures MapSum(m[k := v]) == MapSum(m) - (if k in m then m[k] else 0) + v
  {
    MapSumRemove(m[k := v], k);
    assert m[k := v] - {k} == m - {k};
    if k in m {
      MapSumRemove(m, k);
    } else {
      assert m - {k} == m;
    }
  }

  /** Reading a Go map: a missing key reads as the zero value 0. */
  function Lookup<K>(m: map<K, int>, k: K): int {
    if k in m then m[k] else 0
  }

  /** `m` is the tally of `s`: its keys are the elements of `s`, each key maps to its number
      of occurrences, and the counts add up to the length of `s`. */
  ghost predicate Tallies<T(!new)>(m: map<T, int>, s: seq<T>) {
    && (forall x :: x in m <==> x in s)
    && (forall x :: Lookup(m, x) == Count(s, x))
    && MapSum(m) == |s|
  }

  /** `m[x]++` turns the tally of `s` into the tally of `s + [x]`. */
  lemma TallyStep<T(!new)>(m: map<T, int>, s: seq<T>, x: T)
    requires Tallies(m, s)
    ensures Tallies(m[x := Lookup(m, x) + 1], s + [x])
  {
    forall y ensures Count(s + [x], y) == Count(s, y) + (if x == y then 1 else 0) {
      CountSnoc(s, x, y);
    }
    MapSumUpdate(m, x, Lookup(m, x) + 1);
  }

  /** The map a counting loop builds over `s`: each element in turn bumps its own entry. */
  ghost function TallyMap<T>(s: seq<T>): map<T, int> {
    if s == [] then map[]
    else
      var m := TallyMap(s[..|s| - 1]);
      m[s[|s| - 1] := Lookup(m, s[|s| - 1]) + 1]
  }

  /** The counting loop's map is the tally of what it counted. */
  lemma {:induction false} TallyMapTallies<T(!new)>(s: seq<T>)
    ensures Tallies(TallyMap(s), s)
  {
    if s != [] {
      var init := s[..|s| - 1];
      TallyMapTallies(init);
      TallyStep(TallyMap(init), init, s[|s| - 1]);
      assert init + [s[|s| - 1]] == s;
    }
  }

  /** The values of a map, with multiplicity. */
  ghost function ValueBag<K, V>(m: map<K, V>): multiset<V>
    decreases |m|
  {
    if |m| == 0 then multiset{}
    else
      var k := PickKey(m);
      multiset{m[k]} + ValueBag(m - {k})
  }

  /** The bag of a map's values can be taken with any key first. */
  lemma {:induction false} ValueBagRemove<K, V>(m: map<K, V>, k: K)
    requires k in m
    ensures ValueBag(m) == multiset{m[k]} + ValueBag(m - {k})
    decreases |m|
  {
    var j := PickKey(m);
    if j != k {
      var rest := (m - {j}) - {k};
      assert rest == (m - {k}) - {j};
      ValueBagRemove(m - {j}, k);
      assert ValueBag(m - {j}) == multiset{m[k]} + ValueBag(rest);
      ValueBagRemove(m - {k}, j);
      assert ValueBag(m - {k}) == multiset{m[j]} + ValueBag(rest);
    }
  }
}
