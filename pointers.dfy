/** The pointer mutators of pointer.go and deref.go. A Go `*int` is a reference to an
    `IntVar` cell; a pointer to a struct is a reference to an object of that struct's class.
    Two pointers are equal exactly when they are the same reference. */
module Pointers {
  import Slices

  /** A heap cell holding one `int`, the target of a Go `*int`. */
  class IntVar {
    var value: int

    /** `new(int)` and `&x` for a fresh `x := v`. */
    constructor (v: int)
      ensures value == v
    {
      value := v;
    }
  }

  /** `swap(a, b)`: exchanges the two pointed-to values through a temporary. When both
      pointers name the same cell, the cell keeps its value. */
  method Swap(a: IntVar, b: IntVar)
    modifies a, b
    ensures a.value == old(b.value) && b.value == old(a.value)
  {
    var temp := a.value;
    a.value := b.value;
    b.value := temp;
  }

  /** `increment(count)`: `*count += 1`. */
  method Increment(count: IntVar)
    modifies count
    ensures count.value == old(count.value) + 1
  {
    count.value := count.value + 1;
  }

  /** The struct `Rectangle{width, height}`, changed in place by its pointer receiver. */
  class Rectangle {
    var width: int
    var height: int

    constructor (width: int, height: int)
      ensures this.width == width && this.height == height
    {
      this.width := width;
      this.height := height;
    }

    /** `(r *Rectangle) Scale(factor)`: multiplies both sides by the factor. */
    method Scale(factor: int)
      modifies this
      ensures width == old(width) * factor && height == old(height) * factor
    {
      width := width * factor;
      height := height * factor;
    }
  }

  /** The struct `Person{Name, Age}` of pointer.go, and `createPerson`, which returns a
      pointer to a new one. */
  class Person {
    var name: string
    var age: int

    constructor (name: string, age: int)
      ensures this.name == name && this.age == age
    {
      this.name := name;
      this.age := age;
    }
  }

  /** The struct `User{Name, Age}` of deref.go. */
  class User {
    var name: string
    var age: int

    constructor (name: string, age: int)
      ensures this.name == name && this.age == age
    {
      this.name := name;
      this.age := age;
    }

    /** `(u *User) Birthday()`: `u.Age++`; the name stays. */
    method Birthday()
      modifies this
      ensures age == old(age) + 1 && name == old(name)
    {
      age := age + 1;
    }
  }

  /** `processLargeData(&data)`: `(*data)[0] = 999` writes through the slice header into the
      shared backing array, so the caller's slice sees the write. Indexing an empty slice
      panics, hence the precondition. */
  method ProcessLargeData(data: Slices.Slice)
    requires data.Valid() && data.len > 0
    modifies data.arr
    ensures data.Elems() == old(data.Elems())[0 := 999]
    ensures data.arr[..] == old(data.arr[..])[data.off := 999]
  {
    Slices.Set(data, 0, 999);
  }

  /** pointer.go's `swap(&a, &b)` with `a, b := 10, 20`. */
  method SwapDemo() returns (a: int, b: int)
    ensures a == 20 && b == 10
  {
    var pa := new IntVar(10);
    var pb := new IntVar(20);
    Swap(pa, pb);
    a, b := pa.value, pb.value;
  }

  /** Two `increment(&counter)` calls from 0 leave 2. */
  method IncrementDemo() returns (counter: int)
    ensures counter == 2
  {
    var c := new IntVar(0);
    Increment(c);
    Increment(c);
    counter := c.value;
  }

  /** `y := &x; *y = 42` changes `x`; `z := &x` is the same pointer as `y` and reads 42. */
  method DereferenceDemo() returns (x: int, sameAddress: bool, sameValue: bool)
    ensures x == 42 && sameAddress && sameValue
  {
    var px := new IntVar(7);
    var y := px;
    y.value := 42;
    var z := px;
    x := px.value;
    sameAddress := y == z;
    sameValue := y.value == z.value;
  }

  /** `ptrToAlice.Age = 26` changes `alice` itself. */
  method PersonDemo() returns (name: string, age: int)
    ensures name == "Alice" && age == 26
  {
    var alice := new Person("Alice", 25);
    var ptrToAlice := alice;
    ptrToAlice.age := 26;
    name, age := alice.name, alice.age;
  }

  /** `Rectangle{10, 5}.Scale(2)` becomes `{20, 10}`. */
  method ScaleDemo() returns (width: int, height: int)
    ensures width == 20 && height == 10
  {
    var rect := new Rectangle(10, 5);
    rect.Scale(2);
    width, height := rect.width, rect.height;
  }

  /** deref.go: `u.Birthday()` takes Olujimi from 24 to 25; `*p = 50` through `p := &x`
      changes `x` from 20 to 50. */
  method BirthdayDemo() returns (age: int, x: int)
    ensures age == 25 && x == 50
  {
    var u := new User("Olujimi", 24);
    u.Birthday();
    age := u.age;
    var px := new IntVar(20);
    var p := px;
    p.value := 50;
    x := px.value;
  }

  /** `processLargeData` on `make([]int, 1000000)`: the first element becomes 999 and the
      rest stay 0. */
  method ProcessLargeDataDemo() returns (first: int, second: int, len: nat)
    ensures first == 999 && second == 0 && len == 1000000
  {
    var largeData := Slices.Make(1000000, 1000000);
    ProcessLargeData(largeData);
    first, second, len := largeData.Elems()[0], largeData.Elems()[1], largeData.len;
  }
}
