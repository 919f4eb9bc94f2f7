/** Configuration constants of the simulation (Ball.h). */
module Constants {
  /** When true, a collision is only resolved while the two bodies are not already separating. */
  const StutterProtection: bool := true

  /** The source's own (truncated) value of pi. */
  const Pi: real := 3.1415926535897932

  /** Caps the speed given to constructors and setters only, never a speed produced by a collision. */
  const MaxSpeed: real := 2000.0
  const MaxRadius: real := 500.0

  const DefaultRadius: real := 20.0
  const DefaultDensity: real := 1.0
  const DefaultThickness: real := 4.0

  /** The defaults the convenience constructors fall back on satisfy the entity invariants. */
  lemma DefaultsArePositive()
    ensures 0.0 < DefaultRadius <= MaxRadius
    ensures DefaultDensity > 0.0 && DefaultThickness > 0.0
    ensures MaxSpeed > 0.0
  {
  }
}

/** Free vector operations of the simulation, over exact reals. */
module Vectors {
  import opened Constants

  datatype Vector2 = Vector2(x: real, y: real)

  const Zero: Vector2 := Vector2(0.0, 0.0)

  function Add(a: Vector2, b: Vector2): Vector2 { Vector2(a.x + b.x, a.y + b.y) }
  function Sub(a: Vector2, b: Vector2): Vector2 { Vector2(a.x - b.x, a.y - b.y) }
  function Scale(k: real, v: Vector2): Vector2 { Vector2(k * v.x, k * v.y) }

  /** Zero exactly when the two vectors are parallel (or one of them is zero). */
  function Cross(v: Vector2, w: Vector2): real { v.x * w.y - v.y * w.x }

  function Abs(a: real): real { if a < 0.0 then -a else a }

  /**
   * The library functions of the C math header that have no exact counterpart over the
   * reals: square root, arc tangent, sine and cosine (the last three in radians).
   * They are supplied by the caller; `Lawful` states everything the model assumes of them.
   */
  datatype Math = Math(sqrt: real -> real, atan: real -> real, sin: real -> real, cos: real -> real)

  /** The square root of a nonnegative number is the nonnegative number squaring to it. */
  ghost predicate SqrtLaw(m: Math, x: real) {
    x >= 0.0 ==> m.sqrt(x) >= 0.0 && m.sqrt(x) * m.sqrt(x) == x
  }

  /** cos^2 + sin^2 == 1. */
  ghost predicate TrigLaw(m: Math, t: real) {
    m.cos(t) * m.cos(t) + m.sin(t) * m.sin(t) == 1.0
  }

  /**
   * atan has the sign of its argument and stays inside (-2, 2): the true range is
   * (-pi/2, pi/2), and the looser bound avoids comparing it with the truncated constant Pi.
   */
  ghost predicate AtanLaw(m: Math, t: real) {
    -2.0 < m.atan(t) < 2.0 && (t < 0.0 <==> m.atan(t) < 0.0) && (t == 0.0 <==> m.atan(t) == 0.0)
  }

  /** Everything the model assumes of the math functions it is given. */
  ghost predicate Lawful(m: Math) {
    (forall x :: SqrtLaw(m, x)) && (forall t :: TrigLaw(m, t)) && (forall t :: AtanLaw(m, t))
  }

  /** The square root is determined: it is the unique nonnegative root. */
  lemma SqrtUnique(m: Math, x: real, y: real)
    requires Lawful(m)
    requires y >= 0.0 && y * y == x
    ensures m.sqrt(x) == y
  {
    var s := m.sqrt(x);
    assert SqrtLaw(m, x);
    assert s >= 0.0 && s * s == x;
    assert (s - y) * (s + y) == 0.0;
    ProductZero(s - y, s + y);
  }

  lemma ProductZero(a: real, b: real)
    requires a * b == 0.0
    ensures a == 0.0 || b == 0.0
  {
  }

  lemma SumOfSquares(a: real, b: real)
    ensures a * a + b * b >= 0.0
    ensures a * a + b * b == 0.0 <==> a == 0.0 && b == 0.0
  {
    assert a * a >= 0.0 && b * b >= 0.0;
    if a * a + b * b == 0.0 {
      ProductZero(a, a);
      ProductZero(b, b);
    }
  }

  lemma SqrtOfSquare(m: Math, a: real)
    requires Lawful(m)
    ensures m.sqrt(a * a) == Abs(a)
  {
    SqrtUnique(m, a * a, Abs(a));
  }

  /** dot(v, w) (Ball.cpp:36-39). */
  function Dot(v: Vector2, w: Vector2): real {
    v.x * w.x + v.y * w.y
  }

  /** A vector's dot product with itself is positive unless the vector is zero. */
  lemma DotSelf(v: Vector2)
    ensures Dot(v, v) >= 0.0 && (Dot(v, v) == 0.0 <==> v == Zero)
  {
    SumOfSquares(v.x, v.y);
  }

  lemma SqrtFacts(m: Math, d: real)
    requires Lawful(m) && d >= 0.0
    ensures m.sqrt(d) >= 0.0 && m.sqrt(d) * m.sqrt(d) == d
    ensures m.sqrt(d) == 0.0 <==> d == 0.0
  {
    assert SqrtLaw(m, d);
    if m.sqrt(d) == 0.0 {
      assert d == 0.0 * 0.0;
    }
    if d == 0.0 {
      ProductZero(m.sqrt(d), m.sqrt(d));
    }
  }

  /** magnitude(v) (Ball.cpp:5-8): the Euclidean length, zero only for the zero vector. */
  function Magnitude(m: Math, v: Vector2): (r: real)
    requires Lawful(m)
    ensures r >= 0.0
    ensures r == 0.0 <==> v == Zero
  {
    DotSelf(v);
    SqrtFacts(m, Dot(v, v));
    m.sqrt(Dot(v, v))
  }

  /** The length squares back to the dot product of the vector with itself. */
  lemma MagnitudeSquared(m: Math, v: Vector2)
    requires Lawful(m)
    ensures Magnitude(m, v) * Magnitude(m, v) == Dot(v, v)
  {
    DotSelf(v);
    SqrtFacts(m, Dot(v, v));
  }

  /** Scaling a vector scales its length by the absolute value of the factor. */
  lemma MagnitudeOfScale(m: Math, k: real, v: Vector2)
    requires Lawful(m)
    ensures Magnitude(m, Scale(k, v)) == Abs(k) * Magnitude(m, v)
  {
    var c := Magnitude(m, v);
    var kv := Scale(k, v);
    MagnitudeSquared(m, v);
    ScaledDot(k, v, c);
    NonnegProduct(Abs(k), c);
    SqrtUnique(m, Dot(kv, kv), Abs(k) * c);
    assert Magnitude(m, kv) == m.sqrt(Dot(kv, kv));
  }

  lemma ScaledDot(k: real, v: Vector2, c: real)
    requires c * c == Dot(v, v)
    ensures Dot(Scale(k, v), Scale(k, v)) == (Abs(k) * c) * (Abs(k) * c)
  {
    DotScale(k, v, Scale(k, v));
    DotScaleRight(k, v, v);
    ScaledSquare(k, c);
  }

  lemma DotScale(k: real, v: Vector2, w: Vector2)
    ensures Dot(Scale(k, v), w) == k * Dot(v, w)
  {
  }

  lemma DotScaleRight(k: real, v: Vector2, w: Vector2)
    ensures Dot(v, Scale(k, w)) == k * Dot(v, w)
  {
  }

  lemma ScaledSquare(k: real, c: real)
    ensures k * (k * (c * c)) == (Abs(k) * c) * (Abs(k) * c)
  {
  }

  lemma NonnegProduct(a: real, b: real)
    requires a >= 0.0 && b >= 0.0
    ensures a * b >= 0.0
  {
  }

  /** distance(v, w) (Ball.cpp:11-14). */
  function Distance(m: Math, v: Vector2, w: Vector2): (r: real)
    requires Lawful(m)
    ensures r >= 0.0 && (r == 0.0 <==> v == w)
  {
    Magnitude(m, Sub(v, w))
  }

  lemma {:induction false} DistanceSymmetric(m: Math, v: Vector2, w: Vector2)
    requires Lawful(m)
    ensures Distance(m, v, w) == Distance(m, w, v)
  {
    assert Sub(w, v) == Scale(-1.0, Sub(v, w));
    MagnitudeOfScale(m, -1.0, Sub(v, w));
  }

  /**
   * angle(v) (Ball.cpp:20-33): the direction of v in degrees, 0 due east, counted
   * towards the positive y axis; the zero vector has angle 90.
   */
  function Angle(m: Math, v: Vector2): (r: real)
    requires Lawful(m)
    ensures 0.0 <= r < 360.0
    ensures v == Zero ==> r == 90.0
    ensures v.x == 0.0 && v.y > 0.0 ==> r == 90.0
    ensures v.x == 0.0 && v.y < 0.0 ==> r == 270.0
    ensures v.y == 0.0 && v.x > 0.0 ==> r == 0.0
    ensures v.y == 0.0 && v.x < 0.0 ==> r == 180.0
  {
    if v.x == 0.0 then
      (if v.y < 0.0 then 270.0 else 90.0)
    else
      var t := v.y / v.x;
      var a := m.atan(t) * 180.0 / Pi;
      AtanDegrees(m, t);
      if v.x < 0.0 then a + 180.0
      else if v.y < 0.0 then (assert t < 0.0; a + 360.0)
      else (assert t >= 0.0; a)
  }

  /** In degrees, atan stays strictly inside (-180, 180) and keeps the sign of its argument. */
  lemma AtanDegrees(m: Math, t: real)
    requires Lawful(m)
    ensures -180.0 < m.atan(t) * 180.0 / Pi < 180.0
    ensures t < 0.0 <==> m.atan(t) * 180.0 / Pi < 0.0
    ensures t == 0.0 <==> m.atan(t) * 180.0 / Pi == 0.0
  {
    assert AtanLaw(m, t);
  }

  /**
   * set_magnitude(v, len) (Ball.cpp:44-49). The source overwrites its by-reference
   * argument; here the new value is returned and callers assign it back. The result has
   * length |len|, points the same way as v for len > 0 and the opposite way for len < 0;
   * the zero vector becomes (0, len).
   */
  function SetMagnitude(m: Math, v: Vector2, len: real): (r: Vector2)
    requires Lawful(m)
    ensures Magnitude(m, r) == Abs(len)
    ensures v == Zero ==> r == Vector2(0.0, len)
    ensures v != Zero ==> Cross(r, v) == 0.0
    ensures v != Zero && len > 0.0 ==> Dot(r, v) > 0.0
    ensures v != Zero && len < 0.0 ==> Dot(r, v) < 0.0
  {
    var curr := Magnitude(m, v);
    if curr == 0.0 then
      MagnitudeOfAxis(m, len);
      Vector2(0.0, len)
    else
      var k := len / curr;
      MagnitudeOfScale(m, k, v);
      QuotientTimesDivisor(len, curr);
      DotScale(k, v, v);
      DotSelf(v);
      QuotientSign(len, curr);
      ProductSign(k, Dot(v, v));
      assert Cross(Scale(k, v), v) == k * Cross(v, v);
      Scale(k, v)
  }

  lemma MagnitudeOfAxis(m: Math, a: real)
    requires Lawful(m)
    ensures Magnitude(m, Vector2(0.0, a)) == Abs(a)
  {
    assert Dot(Vector2(0.0, a), Vector2(0.0, a)) == a * a;
    SqrtOfSquare(m, a);
  }

  lemma QuotientTimesDivisor(a: real, c: real)
    requires c > 0.0
    ensures Abs(a / c) * c == Abs(a)
  {
  }

  lemma QuotientSign(a: real, c: real)
    requires c > 0.0
    ensures (a / c > 0.0 <==> a > 0.0) && (a / c < 0.0 <==> a < 0.0)
  {
  }

  lemma ProductSign(a: real, b: real)
    requires b > 0.0
    ensures (a * b > 0.0 <==> a > 0.0) && (a * b < 0.0 <==> a < 0.0)
  {
  }

  /**
   * set_vector_angle(v, ang) (Ball.cpp:52-57): keeps the length of v and turns it to
   * `ang` degrees; returned instead of overwriting the argument.
   */
  function SetVectorAngle(m: Math, v: Vector2, ang: real): (r: Vector2)
    requires Lawful(m)
    ensures Magnitude(m, r) == Magnitude(m, v)
  {
    var curr := Magnitude(m, v);
    var rad := ang * Pi / 180.0;
    var r := Vector2(curr * m.cos(rad), curr * m.sin(rad));
    assert TrigLaw(m, rad);
    assert Dot(r, r) == (curr * curr) * (m.cos(rad) * m.cos(rad) + m.sin(rad) * m.sin(rad));
    SqrtUnique(m, Dot(r, r), curr);
    r
  }

  /**
   * proj(v, w) (Ball.cpp:60-68): the vector projection of v onto w. Projecting onto the
   * zero vector is the source's one reported error; it yields v unchanged.
   */
  function Proj(v: Vector2, w: Vector2): (r: Vector2)
    ensures Dot(w, w) == 0.0 ==> r == v
    ensures Dot(w, w) != 0.0 ==> Cross(r, w) == 0.0 && Dot(Sub(v, r), w) == 0.0
  {
    if Dot(w, w) == 0.0 then
      v
    else
      var k := Dot(w, v) / Dot(w, w);
      assert Dot(Sub(v, Scale(k, w)), w) == Dot(v, w) - k * Dot(w, w);
      Scale(k, w)
  }

  /** The projection lies on w: it is w scaled by dot(w, v) / dot(w, w). */
  lemma ProjIsMultiple(v: Vector2, w: Vector2)
    requires w != Zero
    ensures Dot(w, w) != 0.0 && Proj(v, w) == Scale(Dot(w, v) / Dot(w, w), w)
  {
    DotSelf(w);
  }
}
