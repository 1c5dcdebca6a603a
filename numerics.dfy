/** Numeric vocabulary shared by the simulation model: Python's float-to-int
    conversion and float modulo, numpy's clip, and the transcendental
    functions the simulation takes from `math` and `numpy`.

    All arithmetic is over `real`; floating-point rounding is not modelled.
    The transcendental functions are not defined here: a `Maths` value
    carries them and `Lawful` states the only laws the proofs rely on. */
module Numerics {

  datatype Option<+T> = None | Some(value: T)

  /** A 2-D vector (positions, offsets, ray directions). */
  datatype Vec = Vec(x: real, y: real)

  function Sub(a: Vec, b: Vec): Vec { Vec(a.x - b.x, a.y - b.y) }
  function Add(a: Vec, b: Vec): Vec { Vec(a.x + b.x, a.y + b.y) }
  function Dot(a: Vec, b: Vec): real { a.x * b.x + a.y * b.y }
  function NormSq(a: Vec): real { a.x * a.x + a.y * a.y }
  function Scale(a: Vec, k: real): Vec { Vec(a.x * k, a.y * k) }

  lemma NormSqScale(a: Vec, k: real)
    ensures NormSq(Scale(a, k)) == k * k * NormSq(a)
  {
  }

  /** `math.pi` and `2 * math.pi` (the double is written to 16 digits). */
  const PI: real := 3.141592653589793
  const TAU: real := 2.0 * PI

  function Min(a: real, b: real): real { if a <= b then a else b }
  function Abs(v: real): real { if v >= 0.0 then v else -v }
  function Max(a: real, b: real): real { if a >= b then a else b }

  /** Python's `int(v)` for a float `v`: truncation toward zero. */
  function Trunc(v: real): (r: int)
    ensures 0.0 <= v ==> r as real <= v < r as real + 1.0
    ensures v < 0.0 ==> r as real - 1.0 < v <= r as real
  {
    if v >= 0.0 then v.Floor else -((-v).Floor)
  }

  lemma TruncMonotone(a: real, b: real)
    requires a <= b
    ensures Trunc(a) <= Trunc(b)
  {
  }

  /** Python's float `a % m` with `m > 0`: the floored remainder, which
      lies in `[0, m)` and differs from `a` by a whole multiple of `m`. */
  function PyMod(a: real, m: real): (r: real)
    requires m > 0.0
    ensures 0.0 <= r < m
    ensures 0.0 <= a < m ==> r == a
    ensures ((a - r) / m).Floor as real == (a - r) / m
  {
    var q := (a / m).Floor;
    PyModFacts(a, m, q);
    a - q as real * m
  }

  /** Python's `%` on a value in [-m, 0) adds one modulus. */
  lemma PyModNegative(a: real, m: real)
    requires m > 0.0 && -m <= a < 0.0
    ensures PyMod(a, m) == a + m
  {
    var r := PyMod(a, m);
    var k := ((a - r) / m).Floor;
    assert (a - r) / m == k as real;
    assert a - r == k as real * m;
    assert 0.0 <= r < m && -m <= a;
    OnlyMultipleBetween(k, m, a - r);
  }

  /** The only multiple of a positive `m` strictly between -2m and 0 is -m. */
  lemma OnlyMultipleBetween(k: int, m: real, v: real)
    requires m > 0.0 && v == k as real * m && -2.0 * m < v < 0.0
    ensures k == -1
  {
    if k <= -2 {
      MulRight(k as real, -2.0, m);
      assert false;
    } else if k >= 0 {
      MulRight(0.0, k as real, m);
      assert false;
    }
  }

  lemma PyModFacts(a: real, m: real, q: int)
    requires m > 0.0 && q == (a / m).Floor
    ensures 0.0 <= a - q as real * m < m
    ensures 0.0 <= a < m ==> q == 0
    ensures (q as real * m) / m == q as real
  {
    FloorTimes(a, m, q);
    if 0.0 <= a < m {
      QuotientNonNegative(a, m);
      QuotientBelowOne(a, m);
    }
    ProductOverFactor(q as real, m);
  }

  /** The floor `q` of `a / m` puts `a` in [q·m, q·m + m). */
  lemma FloorTimes(a: real, m: real, q: int)
    requires m > 0.0 && q == (a / m).Floor
    ensures q as real * m <= a < q as real * m + m
  {
    AtMostQuotient(a, m, q as real);
    BelowQuotient(a, m, q as real + 1.0);
    AddOneTimes(q as real, m);
  }

  lemma AtMostQuotient(a: real, m: real, b: real)
    requires m > 0.0 && b <= a / m
    ensures b * m <= a
  {
  }

  lemma BelowQuotient(a: real, m: real, b: real)
    requires m > 0.0 && a / m < b
    ensures a < b * m
  {
  }

  lemma AddOneTimes(x: real, m: real)
    ensures (x + 1.0) * m == x * m + m
  {
  }

  /** Dividing a product by one of its non-zero factors gives the other. */
  lemma ProductOverFactor(x: real, m: real)
    requires m != 0.0
    ensures (x * m) / m == x
  {
  }

  /** The quotient of two reals below a positive one is below 1. */
  lemma QuotientBelowOne(a: real, e: real)
    requires e > 0.0 && a < e
    ensures a / e < 1.0
  {
  }

  /** The quotient of a non-negative real by a positive one is
      non-negative. */
  lemma QuotientNonNegative(a: real, e: real)
    requires e > 0.0 && a >= 0.0
    ensures a / e >= 0.0
  {
  }

  lemma MulRight(a: real, b: real, m: real)
    requires a <= b && m > 0.0
    ensures a * m <= b * m
  {
  }

  lemma MulRightStrict(a: real, b: real, m: real)
    requires a < b && m > 0.0
    ensures a * m < b * m
  {
  }

  /** numpy's `np.clip(v, lo, hi)`, which is `minimum(maximum(v, lo), hi)`:
      when `lo > hi` the result is `hi`. */
  function Clip(v: real, lo: real, hi: real): (r: real)
    ensures lo <= hi ==> lo <= r <= hi
    ensures lo <= v <= hi ==> r == v
    ensures hi < lo ==> r == hi
  {
    Min(Max(v, lo), hi)
  }

  /** The numeric library the simulation calls: `math.sqrt`/`np.sqrt`
      (and `hypot` through it), `cos`, `sin`, `atan2` and `tanh`. */
  datatype Maths = Maths(
    sqrt: real -> real,
    cos: real -> real,
    sin: real -> real,
    atan2: (real, real) -> real,
    tanh: real -> real)

  /** The laws of the library that the model relies on. */
  ghost predicate Lawful(m: Maths)
  {
    (forall v :: 0.0 <= v ==> 0.0 <= m.sqrt(v) && m.sqrt(v) * m.sqrt(v) == v) &&
    (forall t :: m.cos(t) * m.cos(t) + m.sin(t) * m.sin(t) == 1.0) &&
    TanhBounded(m.tanh) &&
    m.atan2(0.0, 0.0) == 0.0
  }

  ghost predicate TanhBounded(tanh: real -> real)
  {
    forall t :: -1.0 <= tanh(t) <= 1.0
  }

  /** `math.hypot(dx, dy)`. */
  function Hypot(m: Maths, d: Vec): real
  {
    m.sqrt(NormSq(d))
  }

  /** The square root of a square is the non-negative base. */
  lemma SqrtOfSquare(m: Maths, v: real)
    requires Lawful(m) && 0.0 <= v
    ensures m.sqrt(v * v) == v
  {
    var s := m.sqrt(v * v);
    assert 0.0 <= s && s * s == v * v;
    assert (s - v) * (s + v) == s * s - v * v;
    if s + v == 0.0 {
      assert s == 0.0 && v == 0.0;
    } else {
      ZeroProduct(s - v, s + v);
    }
  }

  lemma ZeroProduct(a: real, b: real)
    requires a * b == 0.0 && b != 0.0
    ensures a == 0.0
  {
    assert a == a * b / b;
  }

  /** A square `p == a * a` is non-negative, and positive unless `a` is 0. */
  lemma SquareSign(a: real, p: real)
    requires p == a * a
    ensures p >= 0.0
    ensures a != 0.0 ==> p > 0.0
    ensures a == 0.0 ==> p == 0.0
  {
    if a < 0.0 {
      assert a * a == (-a) * (-a);
      ProductPositive(-a, -a, p);
    } else if a > 0.0 {
      ProductPositive(a, a, p);
    } else {
      MulZero(a, a);
    }
  }

  lemma MulPositive(a: real, b: real)
    requires a > 0.0 && b > 0.0
    ensures a * b > 0.0
  {
    MulRightStrict(0.0, a, b);
  }

  lemma ProductPositive(a: real, b: real, p: real)
    requires a > 0.0 && b > 0.0 && p == a * b
    ensures p > 0.0
  {
    MulPositive(a, b);
  }

  /** The two laws of `sqrt` at one point. */
  lemma SqrtLaw(m: Maths, v: real)
    requires Lawful(m) && 0.0 <= v
    ensures 0.0 <= m.sqrt(v) && m.sqrt(v) * m.sqrt(v) == v
  {
  }

  /** `hypot` is zero exactly on the zero vector. */
  lemma HypotZero(m: Maths, d: Vec)
    requires Lawful(m)
    ensures Hypot(m, d) >= 0.0
    ensures Hypot(m, d) == 0.0 <==> d.x == 0.0 && d.y == 0.0
  {
    NormSqZero(d);
    SqrtLaw(m, NormSq(d));
    SqrtZero(m.sqrt(NormSq(d)), NormSq(d));
  }

  lemma SqrtZero(h: real, n: real)
    requires 0.0 <= h && h * h == n
    ensures h == 0.0 <==> n == 0.0
  {
    if h != 0.0 {
      ProductPositive(h, h, n);
    } else {
      MulZero(h, h);
    }
  }

  lemma NormSqZero(d: Vec)
    ensures NormSq(d) >= 0.0
    ensures NormSq(d) == 0.0 <==> d.x == 0.0 && d.y == 0.0
  {
    var px, py := d.x * d.x, d.y * d.y;
    assert NormSq(d) == px + py;
    SquareSign(d.x, px);
    SquareSign(d.y, py);
  }

  lemma MulZero(a: real, b: real)
    requires a == 0.0
    ensures a * b == 0.0
  {
  }

  /** Square roots are monotone: `sqrt(v) <= b` when `v <= b*b`. */
  lemma SqrtBelow(m: Maths, v: real, b: real)
    requires Lawful(m) && 0.0 <= v <= b * b && 0.0 <= b
    ensures m.sqrt(v) <= b
  {
    SqrtLaw(m, v);
    SquareRootBelow(m.sqrt(v), v, b);
  }

  lemma SquareRootBelow(s: real, v: real, b: real)
    requires s * s == v && v <= b * b && 0.0 <= b
    ensures s <= b
  {
    if s > b {
      MulPositive(s - b, s + b);
    }
  }

  /** Rescaling a non-zero vector by `L / |d|` gives it length `L`. */
  lemma ScaleToLength(m: Maths, d: Vec, L: real)
    requires Lawful(m) && Hypot(m, d) > 0.0 && L >= 0.0
    ensures Hypot(m, Scale(d, L / Hypot(m, d))) == L
  {
    var h := Hypot(m, d);
    var k := L / h;
    SqrtLaw(m, NormSq(d));
    NormSqScale(d, k);
    ScaledSquare(k, h, L, NormSq(d));
    assert NormSq(Scale(d, k)) == L * L;
    SqrtOfSquare(m, L);
  }

  lemma ScaledSquare(k: real, h: real, L: real, n: real)
    requires h > 0.0 && k == L / h && n == h * h
    ensures k * k * n == L * L
  {
    assert k * h == L;
  }

  /** Square roots are monotone from below: `b <= sqrt(v)` when `b*b <= v`. */
  lemma SqrtAbove(m: Maths, v: real, b: real)
    requires Lawful(m) && 0.0 <= b && b * b <= v
    ensures b <= m.sqrt(v)
  {
    var s := m.sqrt(v);
    SqrtLaw(m, v);
    if s < b {
      SquareBelow(s, b, s * s, b * b);
    }
  }

  lemma SquareBelow(a: real, b: real, pa: real, pb: real)
    requires 0.0 <= a < b && pa == a * a && pb == b * b
    ensures pa < pb
  {
    SquareSign(b, pb);
    if a == 0.0 {
      SquareSign(a, pa);
    } else {
      var ab := a * b;
      MulRightStrict(a, b, a);
      assert pa < ab;
      MulRightStrict(a, b, b);
      assert ab < pb;
    }
  }
}
