/** Go's 64-bit `int` and its integer division, written out over Dafny's unbounded `int`.
    Go's `/` truncates toward zero and `%` takes the sign of the dividend, whereas Dafny's
    are Euclidean. */
module GoInt {

  const MinInt64: int := -0x8000_0000_0000_0000
  const MaxInt64: int := 0x7FFF_FFFF_FFFF_FFFF

  /** True when `x` is representable as a Go `int` (64 bits, two's complement). */
  predicate IsInt64(x: int) {
    MinInt64 <= x <= MaxInt64
  }

  function Abs(x: int): nat {
    if x < 0 then -x else x
  }

  /** Go's `a / b` on integers: the quotient rounded toward zero. */
  function Quot(a: int, b: int): int
    requires b != 0
  {
    var q := Abs(a) / Abs(b);
    if (a < 0) != (b < 0) then -q else q
  }

  /** Go's `a % b` on integers: the remainder of truncated division, with the sign of `a`. */
  function Rem(a: int, b: int): int
    requires b != 0
  {
    var r := Abs(a) % Abs(b);
    if a < 0 then -r else r
  }

  /** `Quot` and `Rem` satisfy Go's division identity `a == (a/b)*b + a%b`, the remainder is
      smaller than the divisor in magnitude, and it is never of the opposite sign to `a`. */
  lemma DivisionIdentity(a: int, b: int)
    requires b != 0
    ensures a == Quot(a, b) * b + Rem(a, b)
    ensures Abs(Rem(a, b)) < Abs(b)
    ensures a >= 0 ==> Rem(a, b) >= 0
    ensures a <= 0 ==> Rem(a, b) <= 0
  {
    var q, r, aa, bb := Abs(a) / Abs(b), Abs(a) % Abs(b), Abs(a), Abs(b);
    assert aa == q * bb + r && 0 <= r < bb;
    assert Rem(a, b) == if a < 0 then -r else r;
    var p := q * bb;
    MulNegation(q, bb);
    if a < 0 && b < 0 {
      assert Quot(a, b) == q && b == -bb;
      assert Quot(a, b) * b == -p;
    } else if a < 0 {
      assert Quot(a, b) == -q && b == bb;
      assert Quot(a, b) * b == -p;
    } else if b < 0 {
      assert Quot(a, b) == -q && b == -bb;
      assert Quot(a, b) * b == p;
    } else {
      assert Quot(a, b) * b == p;
    }
  }

  lemma MulNegation(x: int, y: int)
    ensures (-x) * y == -(x * y) && x * (-y) == -(x * y) && (-x) * (-y) == x * y
  {
  }

  /** A number leaves no remainder under Go's `% 2` exactly when it does under Dafny's:
      comparing the remainder with zero is unaffected by the choice of rounding. */
  lemma RemTwoZeroIff(a: int)
    ensures Rem(a, 2) == 0 <==> a % 2 == 0
  {
    if a < 0 {
      assert Abs(a) == -a;
      assert (-a) % 2 == 0 <==> a % 2 == 0 by {
        assert a == -1 * (-a);
      }
    }
  }
}
