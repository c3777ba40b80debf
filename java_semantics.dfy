/** The pieces of Java's arithmetic and runtime that the landmarker sources rely on,
    written out because Dafny's own integers and reals behave differently:
    `int` and `long` division truncates toward zero, a cast to `int` truncates and
    saturates, `%` on doubles keeps the sign of the dividend, and failures are
    exceptions. Floating point is modelled by `real` (no rounding, no NaN). */
module JavaSemantics {

  const INT_MIN: int := -0x8000_0000
  const INT_MAX: int := 0x7FFF_FFFF

  /** A Java reference that may be `null`. */
  datatype Option<T> = None | Some(value: T)

  /** The Java exceptions the modelled methods can end in, or normal completion. */
  datatype Status = Ok | IllegalArgument | IndexOutOfBounds

  /** `Math.PI`, `Math.sqrt`, `Math.asin`, `Math.atan2`, `Math.sin` and
      `Math.toDegrees`: floating-point library values this model does not compute;
      callers supply them. */
  datatype MathLibrary = MathLibrary(
    pi: real,
    sqrt: real -> real,
    asin: real -> real,
    atan2: (real, real) -> real,
    sin: real -> real,
    toDegrees: real -> real)

  /** A square root that is positive on [1, oo), as every square root is. */
  ghost predicate SqrtPositiveFromOne(math: MathLibrary)
  {
    forall x: real :: x >= 1.0 ==> math.sqrt(x) > 0.0
  }

  /** A square root that is exact on [0, oo): non-negative, and its square gives back
      its argument. */
  ghost predicate SqrtExact(math: MathLibrary)
  {
    forall x: real :: x >= 0.0 ==> math.sqrt(x) >= 0.0 && math.sqrt(x) * math.sqrt(x) == x
  }

  /** A sine that is 0 at 0, 1 at a quarter turn, and never leaves [-1, 1]. */
  ghost predicate SineFacts(math: MathLibrary)
  {
    && math.sin(0.0) == 0.0 && math.sin(math.pi / 2.0) == 1.0
    && forall x: real :: -1.0 <= math.sin(x) <= 1.0
  }

  function Abs(a: int): (r: nat)
    ensures r == a || r == -a
  {
    if a < 0 then -a else a
  }

  /** `Math.abs` on a float. */
  function AbsReal(x: real): (r: real)
    ensures r >= 0.0 && (r == x || r == -x)
  {
    if x < 0.0 then -x else x
  }

  /** Java's `/` on `int` and `long` with a positive divisor: truncation toward zero. */
  function TruncDiv(a: int, b: int): (q: int)
    requires b > 0
    ensures Abs(q) == Abs(a) / b
    ensures a >= 0 ==> q >= 0
    ensures a <= 0 ==> q <= 0
  {
    QuotientOfNatural(Abs(a), b);
    if a >= 0 then a / b else -((-a) / b)
  }

  /** Truncating division is odd in its dividend. */
  lemma TruncDivNegates(a: int, negated: int, b: int)
    requires b > 0 && negated == -a
    ensures TruncDiv(negated, b) == -TruncDiv(a, b)
  {
  }

  lemma QuotientOfNatural(n: nat, b: int)
    requires b > 0
    ensures n / b >= 0
  {
  }

  /** Java's narrowing of an integral value held in a `double` to `int`: values beyond
      the `int` range saturate at its ends. */
  function SaturateToInt(x: int): (r: int)
    ensures INT_MIN <= r <= INT_MAX
    ensures INT_MIN <= x <= INT_MAX ==> r == x
    ensures x > INT_MAX ==> r == INT_MAX
    ensures x < INT_MIN ==> r == INT_MIN
  {
    if x < INT_MIN then INT_MIN else if x > INT_MAX then INT_MAX else x
  }

  /** Rounding a real toward zero, as a Java cast of a float to an integral type does. */
  function TruncReal(x: real): (r: int)
    ensures x >= 0.0 ==> r as real <= x < r as real + 1.0
    ensures x <= 0.0 ==> r as real - 1.0 < x <= r as real
  {
    if x >= 0.0 then x.Floor else -((-x).Floor)
  }

  /** Java's `(int) f` for a float `f`: truncation toward zero, saturating. */
  function FloatToInt(x: real): (r: int)
    ensures INT_MIN <= r <= INT_MAX
  {
    SaturateToInt(TruncReal(x))
  }

  /** Java's `%` on doubles: the remainder of a truncating division, which has the
      sign of the dividend. */
  function FloatRem(a: real, b: real): (r: real)
    requires b > 0.0
    ensures a >= 0.0 ==> 0.0 <= r < b
    ensures a <= 0.0 ==> -b < r <= 0.0
  {
    RemainderBounds(a, b);
    a - b * TruncReal(a / b) as real
  }

  lemma RemainderBounds(a: real, b: real)
    requires b > 0.0
    ensures a >= 0.0 ==> 0.0 <= a - b * TruncReal(a / b) as real < b
    ensures a <= 0.0 ==> -b < a - b * TruncReal(a / b) as real <= 0.0
  {
    var q := a / b;
    var t := TruncReal(q) as real;
    assert b * q == a;
    if a >= 0.0 {
      assert q >= 0.0 by {
        if q < 0.0 { ScaleHalfOpen(b, q, q, 0.0); }
      }
      assert t <= q < t + 1.0;
      ScaleHalfOpen(b, t, q, t + 1.0);
      assert b * q < b * (t + 1.0);
      assert b * (t + 1.0) == b * t + b;
      calc {
        a;
        == b * q;
        < b * (t + 1.0);
        == b * t + b;
      }
    }
    if a <= 0.0 {
      assert q <= 0.0 by {
        if q > 0.0 { ScaleHalfOpen(b, 0.0, q, q); }
      }
      assert t - 1.0 < q <= t;
      ScaleHalfOpen(b, t - 1.0, q, t);
      assert b * (t - 1.0) == b * t - b;
      calc {
        b * t - b;
        == b * (t - 1.0);
        < b * q;
        == a;
      }
    }
  }

  /** A dividend already in [0, b) is its own remainder, and b leaves none. */
  lemma FloatRemOfSmall(a: real, b: real)
    requires 0.0 <= a <= b
    requires b > 0.0
    ensures a < b ==> FloatRem(a, b) == a
    ensures FloatRem(b, b) == 0.0
  {
    if a < b {
      var q := a / b;
      assert b * q == a;
      assert q < 1.0 by {
        if q >= 1.0 {
          ScaleHalfOpen(b, 1.0, q, q);
        }
      }
      assert q >= 0.0 by {
        if q < 0.0 {
          ScaleHalfOpen(b, q, q, 0.0);
        }
      }
      assert TruncReal(q) == 0;
    }
    var one := b / b;
    assert b * one == b;
    assert one == 1.0 by {
      if one < 1.0 {
        ScaleHalfOpen(b, one, one, 1.0);
      } else if one > 1.0 {
        ScaleHalfOpen(b, 1.0, one, one);
      }
    }
  }

  lemma ScaleHalfOpen(b: real, lo: real, q: real, hi: real)
    requires b > 0.0 && lo <= q <= hi
    ensures b * lo <= b * q <= b * hi
    ensures q < hi ==> b * q < b * hi
    ensures lo < q ==> b * lo < b * q
  {
  }
}
