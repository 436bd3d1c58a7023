/**
 * The scalar and vector vocabulary shared by the model (the `Math` library the
 * repository calls into).  `FReal`/`float` are modelled as mathematical reals;
 * the transcendental functions are not computed here but passed in, as the
 * fields of a `Funcs` value.  Only two laws of the square root are assumed, and
 * only where a member states them as a precondition.
 */
module Numerics {
  /** `Math::Pi`, as a decimal literal so that integer multiples of it stay linear. */
  const Pi: real := 3.141592653589793
  const TwoPi: real := 2.0 * Pi

  function Abs(x: real): (r: real)
    ensures r >= 0.0
    ensures r == x || r == -x
  {
    if x < 0.0 then -x else x
  }

  function Avg(a: real, b: real): (r: real)
    ensures r - a == b - r
  {
    (a + b) / 2.0
  }

  function Sign(x: real): (s: int)
    ensures s == 1 <==> x > 0.0
    ensures s == -1 <==> x < 0.0
    ensures s == 0 <==> x == 0.0
  {
    if x > 0.0 then 1 else if x < 0.0 then -1 else 0
  }

  /** `Math::Equal(a, b, tol)`: the two values are within `tol` of each other. */
  predicate Equal(a: real, b: real, tol: real) {
    Abs(a - b) <= tol
  }

  /** The least natural number not below a positive real. */
  function CeilNat(x: real): (n: nat)
    requires x > 0.0
    ensures n as real >= x && (n as real) - 1.0 < x
  {
    if x.Floor as real == x then x.Floor else x.Floor + 1
  }

  /** For a natural `n`, reaching a positive real is reaching its ceiling. */
  lemma CeilNatReached(x: real, n: nat)
    requires x > 0.0
    ensures n as real >= x <==> n >= CeilNat(x)
  {
  }

  lemma DivTimes(x: real, d: real)
    requires d != 0.0
    ensures x / d * d == x
  {
  }

  lemma CancelFactor(x: real, y: real, d: real)
    requires d != 0.0 && x * d == y * d
    ensures x == y
  {
    assert (x - y) * d == 0.0;
  }

  lemma ScaleOrder(a: real, b: real, c: real)
    requires c > 0.0
    ensures a * c < b * c <==> a < b
  {
    if a < b {
      assert (b - a) * c > 0.0;
    } else {
      assert (a - b) * c >= 0.0;
    }
  }

  /** The sign and the size of a quotient, relative to 1, for a positive divisor. */
  lemma QuotientSign(a: real, b: real)
    requires b > 0.0
    ensures a > 0.0 ==> a / b > 0.0
    ensures a > b ==> a / b > 1.0
    ensures a <= b ==> a / b <= 1.0
  {
    DivTimes(a, b);
    ScaleOrder(0.0, a / b, b);
    ScaleOrder(1.0, a / b, b);
  }

  lemma CeilShift(x: real)
    requires x > 1.0
    ensures CeilNat(x - 1.0) == CeilNat(x) - 1
  {
    CeilNatReached(x, CeilNat(x - 1.0) + 1);
    CeilNatReached(x - 1.0, CeilNat(x) - 1);
  }

  lemma CeilAtMostOne(x: real)
    requires 0.0 < x <= 1.0
    ensures CeilNat(x) == 1
  {
  }

  lemma DivShift(a: real, b: real)
    requires b > 0.0
    ensures (a - b) / b == a / b - 1.0
  {
    var q := a / b;
    DivTimes(a, b);
    DivTimes(a - b, b);
    assert (q - 1.0) * b == q * b - b;
    CancelFactor((a - b) / b, q - 1.0, b);
  }

  /** How many of the times `t, t + step, ...` lie below `te`. */
  function StepsLeft(t: real, te: real, step: real): nat
    requires step > 0.0
  {
    if t < te then CeilNat((te - t) / step) else 0
  }

  /** One step forward uses up exactly one of the times left. */
  lemma StepsLeftStep(t: real, te: real, step: real)
    requires step > 0.0 && t < te
    ensures StepsLeft(t, te, step) >= 1 && StepsLeft(t + step, te, step) == StepsLeft(t, te, step) - 1
  {
    var a := te - t;
    var x := a / step;
    QuotientSign(a, step);
    assert StepsLeft(t, te, step) == CeilNat(x);
    if t + step < te {
      DivShift(a, step);
      assert te - (t + step) == a - step;
      CeilShift(x);
    } else {
      CeilAtMostOne(x);
    }
  }

  function Sq(x: real): real { x * x }

  datatype Vec3 = Vec3(x: real, y: real, z: real)

  const Zero: Vec3 := Vec3(0.0, 0.0, 0.0)

  function Sub(a: Vec3, b: Vec3): Vec3 { Vec3(a.x - b.x, a.y - b.y, a.z - b.z) }

  /**
   * The functions of the C runtime and of the repository's `Math` library that
   * the model treats as given: `Sqrt`, the trigonometric functions, `std::pow`,
   * and `Math::Angle2` in its two modes (the positive-angle mode
   * `EPosAngles()` and the default one).
   */
  datatype Funcs = Funcs(
    sqrt: real -> real,
    sin: real -> real,
    cos: real -> real,
    tan: real -> real,
    atan: real -> real,
    acos: real -> real,
    pow: (real, real) -> real,
    angle2Pos: (Vec3, Vec3) -> real,
    angle2: (Vec3, Vec3) -> real)

  /** The two laws of the square root the model relies on. */
  ghost predicate SqrtLaws(f: Funcs) {
    (forall x :: 0.0 <= x ==> 0.0 <= f.sqrt(x))
    && (forall x :: 0.0 <= x ==> f.sqrt(Sq(x)) == x)
  }

  /** The cosine stays within [-1, 1]. */
  ghost predicate CosBounded(f: Funcs) {
    forall x :: -1.0 <= f.cos(x) <= 1.0
  }

  /** The arc cosine lands in [0, pi]. */
  ghost predicate AcosRange(f: Funcs) {
    forall x :: 0.0 <= f.acos(x) <= Pi
  }

  /** `FVector::Size`. */
  function Size(f: Funcs, v: Vec3): real {
    f.sqrt(v.x * v.x + v.y * v.y + v.z * v.z)
  }

  lemma SizeNonNegative(f: Funcs, v: Vec3)
    requires SqrtLaws(f)
    ensures Size(f, v) >= 0.0
  {
    assert v.x * v.x + v.y * v.y + v.z * v.z >= 0.0;
  }

  lemma SizeOfZero(f: Funcs)
    requires SqrtLaws(f)
    ensures Size(f, Zero) == 0.0
  {
    assert Sq(0.0) == 0.0;
  }
}
