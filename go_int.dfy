/**
  Go's 64-bit `int` as the two frontends use it: every integer they hold
  (amounts, interest rates, totals) lies in the signed 64-bit range, `*`
  wraps around in two's complement, and `/` truncates toward zero (where
  Dafny's `/` on `int` is Euclidean).
 */
module GoInt {

  const MinInt64: int := -0x8000_0000_0000_0000
  const MaxInt64: int := 0x7fff_ffff_ffff_ffff
  const MaxUint64: int := 0xffff_ffff_ffff_ffff
  const TwoTo64: int := 0x1_0000_0000_0000_0000

  /** The values of a Go `int` on a 64-bit platform. */
  type Int64 = x: int | MinInt64 <= x <= MaxInt64

  function Abs(x: int): nat {
    if x < 0 then -x else x
  }

  /**
    The `int` that Go's arithmetic yields for the mathematical result `x`:
    the unique value of the 64-bit range congruent to `x` modulo 2^64.
   */
  function Wrap(x: int): (r: Int64)
    ensures (x - r) % TwoTo64 == 0
    ensures MinInt64 <= x <= MaxInt64 ==> r == x
  {
    (x - MinInt64) % TwoTo64 + MinInt64
  }

  /**
    Go's integer quotient `a / b`: truncated toward zero. The remainder
    `a - b*q` is smaller than the divisor in magnitude and is either zero or
    has the sign of the dividend (section "Arithmetic operators" of the Go
    language specification).
   */
  function TruncDiv(a: int, b: int): (q: int)
    requires b != 0
    ensures Abs(a - b * q) < Abs(b)
    ensures a - b * q == 0 || (a - b * q < 0 <==> a < 0)
  {
    var m := Abs(a) / Abs(b);
    TruncDivMagnitude(a, b, m);
    if (a < 0) == (b < 0) then m else -m
  }

  /** The magnitude of the truncated quotient is the Euclidean quotient of the magnitudes. */
  lemma TruncDivMagnitude(a: int, b: int, m: int)
    requires b != 0 && m == Abs(a) / Abs(b)
    ensures 0 <= Abs(a) - Abs(b) * m < Abs(b)
    ensures (a < 0) == (b < 0) ==> a - b * m == (if a < 0 then -(Abs(a) - Abs(b) * m) else Abs(a) - Abs(b) * m)
    ensures (a < 0) != (b < 0) ==> a - b * (-m) == (if a < 0 then -(Abs(a) - Abs(b) * m) else Abs(a) - Abs(b) * m)
  {
  }

  /**
    The relation above determines the quotient: any `q` that leaves a
    remainder smaller than the divisor and signed like the dividend is
    Go's `a / b`.
   */
  lemma {:induction false} TruncDivUnique(a: int, b: int, q: int)
    requires b != 0
    requires Abs(a - b * q) < Abs(b)
    requires a - b * q == 0 || (a - b * q < 0 <==> a < 0)
    ensures q == TruncDiv(a, b)
  {
    var t := TruncDiv(a, b);
    var r, s := a - b * q, a - b * t;
    // both remainders lie strictly within |b| of zero, on the same side of it
    assert Abs(r - s) < Abs(b);
    if t != q {
      MultipleBound(b, t - q);
      Distribute(b, t, q);
    }
  }

  lemma Distribute(b: int, t: int, q: int)
    ensures b * (t - q) == b * t - b * q
  {
  }

  /** A nonzero multiple of `b` is at least `|b|` in magnitude. */
  lemma MultipleBound(b: int, k: int)
    requires k != 0
    ensures Abs(b * k) >= Abs(b)
    decreases Abs(k) + (if k < 0 then 1 else 0)
  {
    if k < 0 {
      assert b * k == -(b * -k);
      MultipleBound(b, -k);
    } else if k > 1 {
      assert b * k == b * (k - 1) + b;
      MultipleBound(b, k - 1);
    }
  }
}
