/** Go's fixed-width integers and its float-to-int conversion, written out over unbounded numbers. */
module GoNum {

  const MinInt64: int := -0x8000_0000_0000_0000
  const MaxInt64: int := 0x7fff_ffff_ffff_ffff

  /** Go's `int64`. */
  type int64 = x: int | MinInt64 <= x <= MaxInt64

  /** Two's-complement wrap-around of an exact result into `int64`, as Go's `-` and `+` do. */
  function Wrap64(x: int): (r: int64)
    ensures MinInt64 <= x <= MaxInt64 ==> r == x
    ensures (r - x) % 0x1_0000_0000_0000_0000 == 0
  {
    (x - MinInt64) % 0x1_0000_0000_0000_0000 + MinInt64
  }

  /** Go's `int(f)` for a float `f`: the fraction is dropped, rounding toward zero. */
  function TruncToInt(x: real): (r: int)
    ensures 0.0 <= x ==> r as real <= x < r as real + 1.0
    ensures x < 0.0 ==> r as real - 1.0 < x <= r as real
  {
    if x >= 0.0 then x.Floor else -((-x).Floor)
  }

  /** Go's `a % b` on integers, whose sign follows the dividend (Dafny's `%` is Euclidean). */
  function GoRem(a: int, b: int): (r: int)
    requires b > 0
    ensures a >= 0 ==> 0 <= r < b && r <= a
    ensures a < 0 ==> -b < r <= 0 && a <= r
    ensures (a - r) % b == 0
  {
    RemAtMost(if a >= 0 then a else -a, b);
    RemCongruent(a, b);
    if a >= 0 then a % b else -((-a) % b)
  }

  /** The truncated remainder differs from the dividend by a multiple of the divisor. */
  lemma RemCongruent(a: int, b: int)
    requires b > 0
    ensures (a - (if a >= 0 then a % b else -((-a) % b))) % b == 0
  {
    if a >= 0 {
      var q := a / b;
      assert a - a % b == q * b;
      RemOfMultiple(q, b);
    } else {
      var q := (-a) / b;
      assert a + (-a) % b == (-q) * b;
      RemOfMultiple(-q, b);
    }
  }

  /** A multiple of `b` leaves no remainder. */
  lemma RemOfMultiple(q: int, b: int)
    requires b > 0
    ensures (q * b) % b == 0
  {
    var x := q * b;
    var e := q - x / b;
    assert e * b == x % b;
    ProductAwayFromZero(e, b);
  }

  /** A non-zero multiple of `b` is at least `b` away from zero. */
  lemma ProductAwayFromZero(e: int, b: int)
    requires b > 0
    ensures e >= 1 ==> e * b >= b
    ensures e <= -1 ==> e * b <= -b
  {
    if e >= 1 {
      assert e * b == (e - 1) * b + b;
    } else if e <= -1 {
      assert e * b == -((-e - 1) * b) - b;
    }
  }

  lemma RemAtMost(a: int, b: int)
    requires b > 0
    ensures a >= 0 ==> a % b <= a
  {
    if a >= 0 {
      var q := a / b;
      assert a == q * b + a % b;
      assert q >= 0;
      assert q * b >= 0;
    }
  }
}
