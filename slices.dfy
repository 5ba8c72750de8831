/** The slice mechanics of slice.go. A Go slice is a header, a window of `len` elements
    starting at `off` in a backing array that the window may grow into up to `cap` elements;
    re-slicing copies only the header, so every slice taken from another one writes into the
    same array. Element writes, `copy` and `append` are therefore methods that modify the
    backing array, and slicing is a function that builds a new header over it. Bounds that
    Go checks at run time (an index or slice bound out of range panics) are preconditions:
    the demos never violate them. */
module Slices {

  /** A slice header over the backing array `arr`. */
  datatype Slice = Slice(arr: array<int>, off: nat, len: nat, cap: nat) {

    /** The window and its spare capacity lie inside the backing array. */
    predicate Valid() {
      len <= cap && off + cap <= arr.Length
    }

    /** The elements the slice shows. */
    function Elems(): seq<int>
      reads arr
      requires Valid()
    {
      arr[off .. off + len]
    }
  }

  // ---------- the sequence operations remove-at and insert-at stand for ----------

  /** `s` without its element at index `i`. */
  function Removed(s: seq<int>, i: nat): (r: seq<int>)
    requires i < |s|
    ensures |r| == |s| - 1
    ensures forall k :: 0 <= k < i ==> r[k] == s[k]
    ensures forall k :: i <= k < |r| ==> r[k] == s[k + 1]
  {
    s[..i] + s[i + 1..]
  }

  /** `s` with `v` placed at index `i` and everything from `i` on moved one place right. */
  function Inserted(s: seq<int>, i: nat, v: int): (r: seq<int>)
    requires i <= |s|
    ensures |r| == |s| + 1 && r[i] == v
    ensures forall k :: 0 <= k < i ==> r[k] == s[k]
    ensures forall k :: i < k < |r| ==> r[k] == s[k - 1]
  {
    s[..i] + [v] + s[i..]
  }

  /** Removing what was just inserted restores the sequence, and re-inserting a removed
      element at its index restores it too. */
  lemma RemoveInsertRoundTrip(s: seq<int>, i: nat, v: int)
    requires i < |s|
    ensures Removed(Inserted(s, i, v), i) == s
    ensures Inserted(Removed(s, i), i, s[i]) == s
  {
    assert Removed(Inserted(s, i, v), i) == s;
    assert Inserted(Removed(s, i), i, s[i]) == s;
  }

  // ---------- creation ----------

  /** A slice literal `[]int{...}`: a new backing array holding exactly the elements. */
  method FromSeq(xs: seq<int>) returns (s: Slice)
    ensures s.Valid() && fresh(s.arr)
    ensures s.off == 0 && s.len == |xs| && s.cap == |xs| && s.arr.Length == |xs|
    ensures s.Elems() == xs
  {
    var a := new int[|xs|](k requires 0 <= k < |xs| => xs[k]);
    s := Slice(a, 0, |xs|, |xs|);
    assert s.Elems() == xs;
  }

  /** `make([]int, len, cap)`: `len` zeros with room for `cap` elements. */
  method Make(len: nat, cap: nat) returns (s: Slice)
    requires len <= cap
    ensures s.Valid() && fresh(s.arr)
    ensures s.off == 0 && s.len == len && s.cap == cap && s.arr.Length == cap
    ensures s.Elems() == seq(len, _ => 0)
  {
    var a := new int[cap](_ => 0);
    s := Slice(a, 0, len, cap);
  }

  // ---------- slicing and element access ----------

  /** `s[lo:hi]`: a header over the same array, which may reach past `len(s)` up to `cap(s)`.
      It shows elements `lo` to `hi - 1` of the window, has length `hi - lo`, and its
      capacity ends where that of `s` ends. */
  function Reslice(s: Slice, lo: nat, hi: nat): (r: Slice)
    reads s.arr
    requires s.Valid() && lo <= hi <= s.cap
    ensures r.Valid() && r.arr == s.arr
    ensures r.len == hi - lo && r.cap == s.cap - lo
    ensures r.Elems() == s.arr[s.off + lo .. s.off + hi]
    ensures hi <= s.len ==> r.Elems() == s.Elems()[lo..hi]
  {
    var r := Slice(s.arr, s.off + lo, hi - lo, s.cap - lo);
    assert r.off + r.len == s.off + hi;
    if hi <= s.len then ElemsSlice(s, lo, hi); r else r
  }

  /** Elements `lo` to `hi - 1` of a slice are the array elements `off + lo` to `off + hi - 1`. */
  lemma ElemsSlice(s: Slice, lo: nat, hi: nat)
    requires s.Valid() && lo <= hi <= s.len
    ensures s.Elems()[lo..hi] == s.arr[s.off + lo .. s.off + hi]
  {
    forall k | 0 <= k < hi - lo
      ensures s.Elems()[lo..hi][k] == s.arr[s.off + lo .. s.off + hi][k]
    {
      assert s.Elems()[lo + k] == s.arr[s.off + lo + k];
    }
  }

  /** `s[i] = v`: one write into the backing array, seen by every slice sharing it. */
  method Set(s: Slice, i: nat, v: int)
    requires s.Valid() && i < s.len
    modifies s.arr
    ensures s.arr[..] == old(s.arr[..])[s.off + i := v]
    ensures s.Elems() == old(s.Elems())[i := v]
  {
    s.arr[s.off + i] := v;
  }

  // ---------- copy ----------

  /** `copy(dst, src)`: copies `min(len(dst), len(src))` elements and returns that count.
      Like Go's built-in, it reads the source before writing, so overlapping slices are
      handled as if through a temporary buffer. Nothing outside the copied part of `dst`
      changes. */
  method Copy(dst: Slice, src: Slice) returns (n: nat)
    requires dst.Valid() && src.Valid()
    modifies dst.arr
    ensures n == if dst.len < src.len then dst.len else src.len
    ensures dst.Elems() == old(src.Elems())[..n] + old(dst.Elems())[n..]
    ensures forall k :: 0 <= k < dst.arr.Length && !(dst.off <= k < dst.off + n) ==> dst.arr[k] == old(dst.arr[k])
  {
    n := if dst.len < src.len then dst.len else src.len;
    var from := src.Elems()[..n];
    for i := 0 to n
      invariant forall k :: 0 <= k < dst.arr.Length ==>
        dst.arr[k] == if dst.off <= k < dst.off + i then from[k - dst.off] else old(dst.arr[k])
    {
      dst.arr[dst.off + i] := from[i];
    }
    ghost var want := old(src.Elems())[..n] + old(dst.Elems())[n..];
    forall k | 0 <= k < dst.len ensures dst.Elems()[k] == want[k] {
      assert dst.Elems()[k] == dst.arr[dst.off + k];
      if k < n {
        assert dst.arr[dst.off + k] == from[k];
        assert want[k] == from[k];
      } else {
        assert dst.arr[dst.off + k] == old(dst.arr[dst.off + k]);
        assert want[k] == old(dst.Elems())[k] == old(dst.arr[dst.off + k]);
      }
    }
    assert dst.Elems() == want;
  }

  // ---------- append ----------

  /** `append(s, items...)`. When the items fit in the spare capacity they are written into
      the backing array just past the window, in place, and the result shares that array;
      otherwise a new array of at least the needed capacity receives the old elements and
      the items, and the old array is untouched. The items are a value read before any
      write, as Go's memmove-based copy behaves for overlapping arguments. */
  method Append(s: Slice, items: seq<int>) returns (r: Slice)
    requires s.Valid()
    modifies s.arr
    ensures r.Valid() && r.len == s.len + |items|
    ensures r.Elems() == old(s.Elems()) + items
    ensures s.len + |items| <= s.cap ==>
      r.arr == s.arr && r.off == s.off && r.cap == s.cap &&
      forall k :: 0 <= k < s.arr.Length && !(s.off + s.len <= k < s.off + s.len + |items|) ==>
        s.arr[k] == old(s.arr[k])
    ensures s.len + |items| > s.cap ==>
      fresh(r.arr) && r.off == 0 && s.arr[..] == old(s.arr[..]) &&
      r.cap == (if 2 * s.cap >= s.len + |items| then 2 * s.cap else s.len + |items|)
  {
    var need := s.len + |items|;
    if need <= s.cap {
      var base := s.off + s.len;
      for i := 0 to |items|
        invariant forall k :: 0 <= k < s.arr.Length ==>
          s.arr[k] == if base <= k < base + i then items[k - base] else old(s.arr[k])
      {
        s.arr[base + i] := items[i];
      }
      r := Slice(s.arr, s.off, need, s.cap);
      assert r.Elems() == old(s.Elems()) + items;
    } else {
      // Go's rule for a small slice: double the capacity, or take the needed length if
      // that is more.
      var newCap := if 2 * s.cap >= need then 2 * s.cap else need;
      var was := s.Elems();
      var a := new int[newCap](k requires 0 <= k < newCap reads s.arr =>
        if k < s.len then was[k] else if k < need then items[k - s.len] else 0);
      r := Slice(a, 0, need, newCap);
      assert r.Elems() == old(s.Elems()) + items;
    }
  }

  // ---------- remove-at-index and insert-at-index ----------

  /** slice.go's `s = append(s[:i], s[i+1:]...)`: the elements after `i` are copied one place
      left inside the same backing array (the prefix `s[:i]` keeps the whole capacity), so
      the result shares the array and is one shorter. The last old element stays behind in
      the array, past the new length. */
  method RemoveAt(s: Slice, i: nat) returns (r: Slice)
    requires s.Valid() && i < s.len
    modifies s.arr
    ensures r.Valid() && r.arr == s.arr && r.off == s.off && r.cap == s.cap
    ensures r.Elems() == Removed(old(s.Elems()), i)
    ensures forall k :: 0 <= k < s.arr.Length && !(s.off + i <= k < s.off + s.len - 1) ==> s.arr[k] == old(s.arr[k])
  {
    var tail := Reslice(s, i + 1, s.len).Elems();
    r := Append(Reslice(s, 0, i), tail);
  }

  /** slice.go's `s = append(s[:i], append([]int{v}, s[i:]...)...)`: the inner append builds a
      new slice `[v] + s[i:]`, and the outer one writes it after `s[:i]`, in place when `s`
      has spare capacity and into a new array otherwise. */
  method InsertAt(s: Slice, i: nat, v: int) returns (r: Slice)
    requires s.Valid() && i <= s.len
    modifies s.arr
    ensures r.Valid() && r.Elems() == Inserted(old(s.Elems()), i, v)
    ensures s.len < s.cap ==> r.arr == s.arr && r.off == s.off
    ensures s.len < s.cap ==> forall k :: 0 <= k < s.arr.Length && !(s.off + i <= k < s.off + s.len + 1) ==>
      s.arr[k] == old(s.arr[k])
    ensures s.len == s.cap ==> fresh(r.arr) && s.arr[..] == old(s.arr[..])
  {
    ghost var before := s.Elems();
    // The inner append copies `[v]` and `s[i:]` into an array of its own that nothing else
    // refers to, so only its elements matter.
    var items := [v] + Reslice(s, i, s.len).Elems();
    assert items == [v] + before[i..];
    var head := Reslice(s, 0, i);
    assert head.Elems() == before[..i] && head.len + |items| == s.len + 1 && head.cap == s.cap;
    r := Append(head, items);
    assert r.Elems() == before[..i] + ([v] + before[i..]);
    assert before[..i] + ([v] + before[i..]) == Inserted(before, i, v);
  }

  // ---------- the demonstrations of slice.go's main ----------

  /** The capacity after `n` one-element appends to a nil slice: each append keeps the
      capacity while the element fits, and otherwise doubles it, or takes the needed
      length when doubling is not enough (only from the empty slice). The capacity stays
      below twice the length. */
  function GrowthCap(n: nat): (c: nat)
    ensures n <= c
    ensures n >= 1 ==> c < 2 * n
  {
    if n == 0 then 0
    else
      var c := GrowthCap(n - 1);
      if n <= c then c else if 2 * c >= n then 2 * c else n
  }

  /** The capacities seen after each of the first `n` one-element appends. */
  function GrowthCaps(n: nat): (r: seq<nat>)
    ensures |r| == n
  {
    if n == 0 then [] else GrowthCaps(n - 1) + [GrowthCap(n)]
  }

  /** The values 0 to n-1, in the order the growth loop appends them. */
  function Below(n: nat): (r: seq<int>)
    ensures |r| == n
  {
    if n == 0 then [] else Below(n - 1) + [n - 1]
  }

  /** The capacities after the first ten appends: 1, 2, 4, 4, 8, 8, 8, 8, 16, 16. */
  lemma GrowthCapsUpToTen()
    ensures GrowthCaps(10) == [1, 2, 4, 4, 8, 8, 8, 8, 16, 16] && GrowthCap(10) == 16
    ensures Below(10) == [0, 1, 2, 3, 4, 5, 6, 7, 8, 9]
  {
    assert GrowthCaps(4) == [1, 2, 4, 4];
    assert GrowthCaps(8) == [1, 2, 4, 4, 8, 8, 8, 8];
  }

  /** slice.go's growth loop, `for i := 0; i < n; i++ { growth = append(growth, i) }` from a
      nil slice: it leaves 0 to n-1 in order, and `caps` records the capacity after each
      append, which stays while the slice has room and doubles when it is full. */
  method GrowthLoop(n: nat) returns (growth: Slice, caps: seq<nat>)
    ensures growth.Valid() && growth.len == n && growth.cap == GrowthCap(n)
    ensures growth.Elems() == Below(n)
    ensures caps == GrowthCaps(n)
  {
    growth := FromSeq([]);
    caps := [];
    for i := 0 to n
      invariant growth.Valid() && fresh(growth.arr) && growth.len == i
      invariant growth.Elems() == Below(i)
      invariant growth.cap == GrowthCap(i)
      invariant caps == GrowthCaps(i)
    {
      growth := Append(growth, [i]);
      caps := caps + [growth.cap];
    }
  }

  /** slice.go appends 0 to 9: the slice holds the ten values, and the capacity after each
      append is 1, 2, 4, 4, 8, 8, 8, 8, 16, 16, doubling whenever the slice is full, as the
      comment at slice.go:90 says. */
  method GrowthDemo() returns (growth: Slice, caps: seq<nat>)
    ensures growth.Valid() && growth.len == 10 && growth.cap == 16
    ensures growth.Elems() == [0, 1, 2, 3, 4, 5, 6, 7, 8, 9]
    ensures caps == [1, 2, 4, 4, 8, 8, 8, 8, 16, 16]
  {
    growth, caps := GrowthLoop(10);
    GrowthCapsUpToTen();
  }

  /** `x[1:3]` of the array {1..6} shows [2 3]; re-sliced to its capacity it shows [2 3 4 5 6]. */
  method ArraySliceDemo() returns (shown: seq<int>, full: seq<int>, capacity: nat)
    ensures shown == [2, 3] && full == [2, 3, 4, 5, 6] && capacity == 5
  {
    var x := FromSeq([1, 2, 3, 4, 5, 6]);
    var s := Reslice(x, 1, 3);
    shown := s.Elems();
    full := Reslice(s, 0, s.cap).Elems();
    capacity := s.cap;
  }

  /** `numbers[2:5]`, `numbers[:4]`, `numbers[6:]` and `numbers[:]` of 1..10. */
  method SlicingDemo() returns (mid: seq<int>, head: seq<int>, tail: seq<int>, all: seq<int>)
    ensures mid == [3, 4, 5] && head == [1, 2, 3, 4] && tail == [7, 8, 9, 10]
    ensures all == [1, 2, 3, 4, 5, 6, 7, 8, 9, 10]
  {
    var numbers := FromSeq([1, 2, 3, 4, 5, 6, 7, 8, 9, 10]);
    mid := Reslice(numbers, 2, 5).Elems();
    head := Reslice(numbers, 0, 4).Elems();
    tail := Reslice(numbers, 6, numbers.len).Elems();
    all := Reslice(numbers, 0, numbers.len).Elems();
  }

  /** `arr[2:5]` of 0..9 has length 3 and capacity 8, and shows [2 3 4 5 6 7 8 9] when
      re-sliced to its capacity. */
  method CapacityDemo() returns (len: nat, cap: nat, full: seq<int>)
    ensures len == 3 && cap == 8 && full == [2, 3, 4, 5, 6, 7, 8, 9]
  {
    var arr := FromSeq([0, 1, 2, 3, 4, 5, 6, 7, 8, 9]);
    var window := Reslice(arr, 2, 5);
    len, cap := window.len, window.cap;
    full := Reslice(window, 0, window.cap).Elems();
  }

  /** `reference := original[1:]; reference[0] = 999` changes `original` to [100 999 300]. */
  method AliasingDemo() returns (original: seq<int>, reference: seq<int>)
    ensures original == [100, 999, 300] && reference == [999, 300]
  {
    var o := FromSeq([100, 200, 300]);
    var r := Reslice(o, 1, o.len);
    Set(r, 0, 999);
    original, reference := o.Elems(), r.Elems();
  }

  /** `copy(dest, src)` into `make([]int, len(src))`, then `dest[0] = 99`: the copy is
      independent, so `src` stays [1 2 3 4 5]. */
  method CopyDemo() returns (copied: nat, src: seq<int>, dest: seq<int>)
    ensures copied == 5 && src == [1, 2, 3, 4, 5] && dest == [99, 2, 3, 4, 5]
  {
    var s := FromSeq([1, 2, 3, 4, 5]);
    var d := Make(s.len, s.len);
    copied := Copy(d, s);
    Set(d, 0, 99);
    src, dest := s.Elems(), d.Elems();
  }

  /** `copy2 := append([]int{}, src...)`, then `copy2[1] = 88`: appending to an empty slice
      allocates a new array, so `src` stays [1 2 3 4 5]. */
  method AppendCopyDemo() returns (src: seq<int>, copy2: seq<int>)
    ensures src == [1, 2, 3, 4, 5] && copy2 == [1, 88, 3, 4, 5]
  {
    var s := FromSeq([1, 2, 3, 4, 5]);
    var empty := FromSeq([]);
    var c := Append(empty, s.Elems());
    Set(c, 1, 88);
    src, copy2 := s.Elems(), c.Elems();
  }

  /** Removing index 2 of [10 20 30 40 50] gives [10 20 40 50]; the shared array is left as
      [10 20 40 50 50]. */
  method RemoveDemo() returns (slice: seq<int>, backing: seq<int>)
    ensures slice == [10, 20, 40, 50] && backing == [10, 20, 40, 50, 50]
  {
    var s := FromSeq([10, 20, 30, 40, 50]);
    var r := RemoveAt(s, 2);
    assert s.arr[..] == r.Elems() + [s.arr[4]];
    slice, backing := r.Elems(), s.arr[..];
  }

  /** Inserting 99 at index 2 of [1 2 3 4 5] gives [1 2 99 3 4 5]. */
  method InsertDemo() returns (slice: seq<int>)
    ensures slice == [1, 2, 99, 3, 4, 5]
  {
    var s := FromSeq([1, 2, 3, 4, 5]);
    var r := InsertAt(s, 2, 99);
    slice := r.Elems();
  }

  /** `part1 := base[1:3]` and `part2 := base[2:4]` overlap in `base[2]`, so
      `part1[1] = 999` shows up in all three. */
  method SharedBackingDemo() returns (base: seq<int>, part1: seq<int>, part2: seq<int>)
    ensures base == [1, 2, 999, 4, 5] && part1 == [2, 999] && part2 == [999, 4]
  {
    var b := FromSeq([1, 2, 3, 4, 5]);
    var p1 := Reslice(b, 1, 3);
    var p2 := Reslice(b, 2, 4);
    Set(p1, 1, 999);
    base, part1, part2 := b.Elems(), p1.Elems(), p2.Elems();
  }
}
