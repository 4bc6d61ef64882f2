/** Numeric helpers shared by the game model: Python's `int()` on a float, the
    square-root-free distance comparisons, and the math library functions the game
    calls (`math.hypot`, `math.atan2`, `math.cos`, `math.sin`, `math.pi`), which the
    model takes as parameters rather than computing. */
module Numbers {

  /** A value that may be absent (Python's `None`). */
  datatype Option<T> = None | Some(value: T)

  /** Python's `int(x)` for a float: truncation toward zero. */
  function Trunc(x: real): (r: int)
    ensures x >= 0.0 ==> r >= 0 && r as real <= x < r as real + 1.0
    ensures x < 0.0 ==> r <= 0 && r as real - 1.0 < x <= r as real
  {
    if x >= 0.0 then x.Floor else -((-x).Floor)
  }

  /** `math.radians(deg)` given the value of `math.pi`. */
  function Radians(deg: real, pi: real): real {
    deg * pi / 180.0
  }

  /** The functions of Python's `math` module the game calls. Trigonometry is left
      abstract; only the defining law of `hypot` is assumed. */
  datatype MathLib = MathLib(
    hypot: (real, real) -> real,
    atan2: (real, real) -> real,
    cos: real -> real,
    sin: real -> real,
    pi: real)
  {
    /** `hypot(dx, dy)` is the non-negative square root of dx*dx + dy*dy. */
    ghost predicate Valid() {
      forall dx: real, dy: real ::
        hypot(dx, dy) >= 0.0 && hypot(dx, dy) * hypot(dx, dy) == Norm2(dx, dy)
    }
  }

  /** dx*dx + dy*dy: the square of the length of the vector (dx, dy). */
  function Norm2(dx: real, dy: real): real {
    dx * dx + dy * dy
  }

  /** `d < r` for a distance d, restated without the square root: a distance is below a
      bound iff its square is below the square of a positive bound. */
  predicate SqBelow(sq: real, r: real) {
    r > 0.0 && sq < r * r
  }

  /** `d > r` for a distance d and a bound r >= 0, restated on squares. */
  predicate SqAbove(sq: real, r: real)
    requires r >= 0.0
  {
    sq > r * r
  }

  lemma PositiveProduct(p: real, q: real)
    requires p > 0.0 && q > 0.0
    ensures p * q > 0.0
  {}

  lemma NonNegativeProduct(p: real, q: real)
    requires p >= 0.0 && q >= 0.0
    ensures p * q >= 0.0
  {}

  /** A quotient by a positive number times that number is the dividend; for a
      non-negative dividend it is non-negative, and below 1 exactly when the dividend is
      below the divisor. */
  lemma FractionBounds(c: real, e: real)
    requires e > 0.0
    ensures (c / e) * e == c
    ensures c >= 0.0 ==> c / e >= 0.0 && (c / e < 1.0 <==> c < e)
  {
    var p := c / e;
    if c >= 0.0 {
      if p < 0.0 {
        PositiveProduct(-p, e);
      }
      if p >= 1.0 {
        NonNegativeProduct(p - 1.0, e);
        assert (p - 1.0) * e == c - e;
      } else {
        PositiveProduct(1.0 - p, e);
        assert (1.0 - p) * e == e - c;
      }
    }
  }

  /** Squaring is strictly monotone on the non-negative reals. */
  lemma SquareMonotone(a: real, b: real)
    requires 0.0 <= a && 0.0 <= b
    ensures a < b <==> a * a < b * b
  {
    if a < b {
      PositiveProduct(b - a, b + a);
      assert (b - a) * (b + a) == b * b - a * a;
    } else {
      NonNegativeProduct(a - b, a + b);
      assert (a - b) * (a + b) == a * a - b * b;
    }
  }

  /** A non-negative d with d*d == sq is below r iff `SqBelow(sq, r)`. */
  lemma {:induction false} BelowIffSquare(d: real, sq: real, r: real)
    requires d >= 0.0 && d * d == sq
    ensures d < r <==> SqBelow(sq, r)
  {
    if r > 0.0 {
      SquareMonotone(d, r);
    }
  }

  /** A non-negative d with d*d == sq exceeds r >= 0 iff `SqAbove(sq, r)`. */
  lemma {:induction false} AboveIffSquare(d: real, sq: real, r: real)
    requires d >= 0.0 && d * d == sq && r >= 0.0
    ensures d > r <==> SqAbove(sq, r)
  {
    SquareMonotone(r, d);
  }

  /** Under a lawful `hypot`, `hypot(dx, dy) < r` is the same as comparing
      dx*dx + dy*dy with the square of r. */
  lemma HypotBelow(m: MathLib, dx: real, dy: real, r: real)
    requires m.Valid()
    ensures m.hypot(dx, dy) < r <==> SqBelow(Norm2(dx, dy), r)
  {
    BelowIffSquare(m.hypot(dx, dy), Norm2(dx, dy), r);
  }

  /** Under a lawful `hypot`, `hypot(dx, dy) > r` for r >= 0 is the same as comparing
      dx*dx + dy*dy with the square of r. */
  lemma HypotAbove(m: MathLib, dx: real, dy: real, r: real)
    requires m.Valid() && r >= 0.0
    ensures m.hypot(dx, dy) > r <==> SqAbove(Norm2(dx, dy), r)
  {
    AboveIffSquare(m.hypot(dx, dy), Norm2(dx, dy), r);
  }

  /** Under a lawful `hypot`, the distance is positive iff the points differ. */
  lemma HypotPositive(m: MathLib, dx: real, dy: real)
    requires m.Valid()
    ensures m.hypot(dx, dy) > 0.0 <==> Norm2(dx, dy) > 0.0
  {
    PositiveIffSquare(m.hypot(dx, dy), Norm2(dx, dy));
  }

  /** A non-negative d with d*d == sq is positive iff sq is. */
  lemma {:induction false} PositiveIffSquare(d: real, sq: real)
    requires d >= 0.0 && d * d == sq
    ensures d > 0.0 <==> sq > 0.0
  {
    SquareMonotone(0.0, d);
  }

  /** Python's `int(n * g)`: a whole number scaled by a factor, truncated. */
  function Scaled(n: int, g: real): int {
    Trunc(n as real * g)
  }

  /** Scaling a non-negative whole number by a factor of at least 1 and truncating never
      gives less than the number. */
  lemma TruncGrows(n: int, g: real)
    requires n >= 0 && g >= 1.0
    ensures Scaled(n, g) >= n
  {
    NonNegativeProduct(n as real, g - 1.0);
    assert n as real * g - n as real == n as real * (g - 1.0);
  }

  lemma AtLeastOnce(d: int, n: int)
    requires d >= 1 && n >= 1
    ensures d * n >= n
  {
    assert d * n - n == (d - 1) * n;
  }

  /** A remainder is the only one below the modulus: any y == q * n + r with 0 <= r < n
      has y % n == r. */
  lemma ModUnique(y: int, n: int, q: int, r: int)
    requires n >= 1 && y == q * n + r && 0 <= r < n
    ensures y % n == r
  {
    var q2, r2 := y / n, y % n;
    assert y == q2 * n + r2;
    assert (q - q2) * n == r2 - r;
    if q - q2 >= 1 {
      AtLeastOnce(q - q2, n);
    } else if q2 - q >= 1 {
      AtLeastOnce(q2 - q, n);
    }
  }

  /** Stepping a cyclic counter by one: `(x % n + 1) % n` is `(x + 1) % n`. */
  lemma ModSucc(x: nat, n: int)
    requires n >= 1
    ensures (x % n + 1) % n == (x + 1) % n
  {
    var q, r := x / n, x % n;
    assert x == q * n + r;
    if r + 1 < n {
      ModUnique(x + 1, n, q, r + 1);
      ModUnique(r + 1, n, 0, r + 1);
    } else {
      assert x + 1 == (q + 1) * n;
      ModUnique(x + 1, n, q + 1, 0);
      ModUnique(r + 1, n, 1, 0);
    }
  }

  /** The sum of a sequence of amounts, adding from the front. */
  function Sum(amounts: seq<real>): real {
    if |amounts| == 0 then 0.0 else Sum(amounts[..|amounts| - 1]) + amounts[|amounts| - 1]
  }

  lemma {:induction false} SumNonNegative(amounts: seq<real>)
    requires forall i :: 0 <= i < |amounts| ==> amounts[i] >= 0.0
    ensures Sum(amounts) >= 0.0
  {
    if |amounts| > 0 {
      SumNonNegative(amounts[..|amounts| - 1]);
    }
  }

  /** The elements of a sequence are pairwise distinct. */
  predicate Distinct<T(==)>(s: seq<T>) {
    forall i, j :: 0 <= i < j < |s| ==> s[i] != s[j]
  }
}
