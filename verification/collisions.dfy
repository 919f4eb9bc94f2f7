/**
 * The two collide overloads (Ball.cpp:505-532): the elastic exchange between two balls and
 * the bounce of a ball off a wall.
 */
module Collisions {
  import opened Constants
  import opened Vectors
  import opened Walls
  import opened Balls

  /** The velocities of the two balls after a collision. */
  datatype VelocityPair = VelocityPair(v1: Vector2, v2: Vector2)

  /** The centres move towards each other: the relative velocity points against their offset. */
  predicate Approaching(v1: Vector2, v2: Vector2, x1: Vector2, x2: Vector2) {
    Dot(Sub(v2, v1), Sub(x2, x1)) < 0.0
  }

  /**
   * collide exchanges momentum only for distinct centres and, under stutter protection,
   * only for balls that are approaching (Ball.cpp:516-518).
   */
  predicate Exchanges(v1: Vector2, v2: Vector2, x1: Vector2, x2: Vector2, stutter: bool) {
    x1 != x2 && (!stutter || Approaching(v1, v2, x1, x2))
  }

  /**
   * The velocities collide leaves to balls of masses m1, m2 (Ball.cpp:505-526): the
   * one-dimensional elastic collision along the line of centres, applied to the projection
   * of the relative velocity onto that line. The masses must not sum to zero when the
   * exchange happens. Whatever happens, each velocity changes only along the line of centres.
   */
  function ElasticResponse(m1: real, m2: real, v1: Vector2, v2: Vector2, x1: Vector2, x2: Vector2, stutter: bool): (r: VelocityPair)
    requires Exchanges(v1, v2, x1, x2, stutter) ==> m1 + m2 != 0.0
    ensures !Exchanges(v1, v2, x1, x2, stutter) ==> r == VelocityPair(v1, v2)
    ensures Cross(Sub(r.v1, v1), Sub(x2, x1)) == 0.0
    ensures Cross(Sub(r.v2, v2), Sub(x2, x1)) == 0.0
  {
    if Exchanges(v1, v2, x1, x2, stutter) then
      var pr := Proj(Sub(v2, v1), Sub(x2, x1));
      var a := 2.0 * m2 / (m1 + m2);
      var b := 2.0 * m1 / (m1 + m2);
      NonzeroOffset(x1, x2);
      ImpulseAlongLine(v1, a, pr, Sub(x2, x1));
      ImpulseAlongLine(v2, -b, pr, Sub(x2, x1));
      assert Sub(v2, Scale(b, pr)) == Add(v2, Scale(-b, pr));
      VelocityPair(Add(v1, Scale(a, pr)), Sub(v2, Scale(b, pr)))
    else
      VelocityPair(v1, v2)
  }

  lemma NonzeroOffset(x1: Vector2, x2: Vector2)
    requires x1 != x2
    ensures Sub(x2, x1) != Zero && Dot(Sub(x2, x1), Sub(x2, x1)) != 0.0
  {
    var d := Sub(x2, x1);
    assert d != Zero by {
      assert x1.x != x2.x || x1.y != x2.y;
    }
    DotSelf(d);
  }

  /** Adding a multiple of a vector parallel to d changes v only along d. */
  lemma ImpulseAlongLine(v: Vector2, k: real, p: Vector2, d: Vector2)
    requires Cross(p, d) == 0.0
    ensures Cross(Sub(Add(v, Scale(k, p)), v), d) == 0.0
  {
    assert Sub(Add(v, Scale(k, p)), v) == Scale(k, p);
    assert Cross(Scale(k, p), d) == k * Cross(p, d);
  }

  /** The exchange coefficients: m1 * a == m2 * b and a + b == 2. */
  lemma Coefficients(m1: real, m2: real)
    requires m1 + m2 != 0.0
    ensures m1 * (2.0 * m2 / (m1 + m2)) == m2 * (2.0 * m1 / (m1 + m2))
    ensures 2.0 * m2 / (m1 + m2) + 2.0 * m1 / (m1 + m2) == 2.0
  {
    var s := m1 + m2;
    assert 2.0 * m2 / s + 2.0 * m1 / s == (2.0 * m2 + 2.0 * m1) / s;
    assert m1 * (2.0 * m2 / s) == (2.0 * m1 * m2) / s;
    assert m2 * (2.0 * m1 / s) == (2.0 * m1 * m2) / s;
  }

  /** Momentum m1 v1 + m2 v2 is the same before and after collide. */
  lemma {:induction false} MomentumConserved(m1: real, m2: real, v1: Vector2, v2: Vector2, x1: Vector2, x2: Vector2, stutter: bool)
    requires Exchanges(v1, v2, x1, x2, stutter) ==> m1 + m2 != 0.0
    ensures var r := ElasticResponse(m1, m2, v1, v2, x1, x2, stutter);
      Add(Scale(m1, r.v1), Scale(m2, r.v2)) == Add(Scale(m1, v1), Scale(m2, v2))
  {
    if Exchanges(v1, v2, x1, x2, stutter) {
      var pr := Proj(Sub(v2, v1), Sub(x2, x1));
      var a := 2.0 * m2 / (m1 + m2);
      var b := 2.0 * m1 / (m1 + m2);
      Coefficients(m1, m2);
      MomentumStep(m1, m2, a, b, v1.x, v2.x, pr.x);
      MomentumStep(m1, m2, a, b, v1.y, v2.y, pr.y);
    }
  }

  lemma MomentumStep(m1: real, m2: real, a: real, b: real, u1: real, u2: real, p: real)
    requires m1 * a == m2 * b
    ensures m1 * (u1 + a * p) + m2 * (u2 - b * p) == m1 * u1 + m2 * u2
  {
    calc {
      m1 * (u1 + a * p) + m2 * (u2 - b * p);
      m1 * u1 + m2 * u2 + (m1 * a) * p - (m2 * b) * p;
    }
  }

  /** The squared length of v + k w, expanded. */
  lemma DotAddScale(v: Vector2, k: real, w: Vector2)
    ensures Dot(Add(v, Scale(k, w)), Add(v, Scale(k, w))) == Dot(v, v) + 2.0 * k * Dot(v, w) + k * k * Dot(w, w)
  {
  }

  /** The projection of u on a line carries as much of u as its own squared length. */
  lemma ProjectionDot(u: Vector2, d: Vector2)
    requires d != Zero
    ensures Dot(u, Proj(u, d)) == Dot(Proj(u, d), Proj(u, d))
  {
    var pr := Proj(u, d);
    ProjIsMultiple(u, d);
    var p := Dot(d, u) / Dot(d, d);
    assert Dot(Sub(u, pr), d) == 0.0;
    DotScaleRight(p, Sub(u, pr), d);
    assert Dot(Sub(u, pr), pr) == 0.0;
  }

  lemma EnergyStep(m1: real, m2: real, a: real, b: real, A: real, B: real, P: real)
    requires m1 * a == m2 * b && a + b == 2.0 && B - A == P
    ensures m1 * (2.0 * a * A + a * a * P) + m2 * (2.0 * -b * B + -b * -b * P) == 0.0
  {
    var c := m1 * a;
    calc {
      m1 * (2.0 * a * A + a * a * P) + m2 * (2.0 * -b * B + -b * -b * P);
      2.0 * (m1 * a) * A + (m1 * a) * a * P - 2.0 * (m2 * b) * B + (m2 * b) * b * P;
      2.0 * c * A + c * a * P - 2.0 * c * B + c * b * P;
      2.0 * c * (A - B) + c * (a + b) * P;
      2.0 * c * (A - B) + 2.0 * c * P;
      2.0 * c * (A - B + P);
    }
  }

  /** Kinetic energy m1 |v1|^2 + m2 |v2|^2 (doubled) is the same before and after collide. */
  lemma {:induction false} KineticEnergyConserved(m1: real, m2: real, v1: Vector2, v2: Vector2, x1: Vector2, x2: Vector2, stutter: bool)
    requires Exchanges(v1, v2, x1, x2, stutter) ==> m1 + m2 != 0.0
    ensures var r := ElasticResponse(m1, m2, v1, v2, x1, x2, stutter);
      m1 * Dot(r.v1, r.v1) + m2 * Dot(r.v2, r.v2) == m1 * Dot(v1, v1) + m2 * Dot(v2, v2)
  {
    if Exchanges(v1, v2, x1, x2, stutter) {
      var u := Sub(v2, v1);
      var d := Sub(x2, x1);
      var pr := Proj(u, d);
      var a := 2.0 * m2 / (m1 + m2);
      var b := 2.0 * m1 / (m1 + m2);
      var r := ElasticResponse(m1, m2, v1, v2, x1, x2, stutter);
      Coefficients(m1, m2);
      NonzeroOffset(x1, x2);
      ProjectionDot(u, d);
      assert Dot(v2, pr) - Dot(v1, pr) == Dot(pr, pr);
      DotAddScale(v1, a, pr);
      assert Sub(v2, Scale(b, pr)) == Add(v2, Scale(-b, pr));
      DotAddScale(v2, -b, pr);
      EnergyStep(m1, m2, a, b, Dot(v1, pr), Dot(v2, pr), Dot(pr, pr));
      calc {
        m1 * Dot(r.v1, r.v1) + m2 * Dot(r.v2, r.v2);
        m1 * (Dot(v1, v1) + 2.0 * a * Dot(v1, pr) + a * a * Dot(pr, pr))
          + m2 * (Dot(v2, v2) + 2.0 * -b * Dot(v2, pr) + -b * -b * Dot(pr, pr));
        m1 * Dot(v1, v1) + m2 * Dot(v2, v2)
          + (m1 * (2.0 * a * Dot(v1, pr) + a * a * Dot(pr, pr)) + m2 * (2.0 * -b * Dot(v2, pr) + -b * -b * Dot(pr, pr)));
      }
    }
  }

  /**
   * An exchange reverses the relative velocity along the line of centres (a coefficient of
   * restitution of 1).
   */
  lemma {:induction false} RelativeVelocityReversed(m1: real, m2: real, v1: Vector2, v2: Vector2, x1: Vector2, x2: Vector2, stutter: bool)
    requires Exchanges(v1, v2, x1, x2, stutter) && m1 + m2 != 0.0
    ensures var r := ElasticResponse(m1, m2, v1, v2, x1, x2, stutter);
      Dot(Sub(r.v2, r.v1), Sub(x2, x1)) == -Dot(Sub(v2, v1), Sub(x2, x1))
  {
    var u := Sub(v2, v1);
    var d := Sub(x2, x1);
    var pr := Proj(u, d);
    var a := 2.0 * m2 / (m1 + m2);
    var b := 2.0 * m1 / (m1 + m2);
    var r := ElasticResponse(m1, m2, v1, v2, x1, x2, stutter);
    Coefficients(m1, m2);
    NonzeroOffset(x1, x2);
    assert Sub(r.v2, r.v1) == Sub(u, Scale(a + b, pr));
    assert Sub(r.v2, r.v1) == Sub(u, Scale(2.0, pr));
    assert Dot(Sub(u, pr), d) == 0.0;
  }

  /**
   * With stutter protection a collision is never applied twice: once two balls have
   * exchanged momentum they are separating, so calling collide again at the same
   * positions changes nothing.
   */
  lemma {:induction false} NoRepeatedExchange(m1: real, m2: real, v1: Vector2, v2: Vector2, x1: Vector2, x2: Vector2)
    requires Exchanges(v1, v2, x1, x2, true) ==> m1 + m2 != 0.0
    ensures var r := ElasticResponse(m1, m2, v1, v2, x1, x2, true);
      !Exchanges(r.v1, r.v2, x1, x2, true) && ElasticResponse(m1, m2, r.v1, r.v2, x1, x2, true) == r
  {
    if Exchanges(v1, v2, x1, x2, true) {
      RelativeVelocityReversed(m1, m2, v1, v2, x1, x2, true);
    }
  }

  /** The projection of a vector parallel to a nonzero d onto d is the vector itself. */
  lemma ParallelProjection(v: Vector2, d: Vector2)
    requires d != Zero && Cross(v, d) == 0.0
    ensures Proj(v, d) == v
  {
    ProjIsMultiple(v, d);
    var n := Dot(d, d);
    assert v.x * d.y == v.y * d.x;
    assert Dot(d, v) * d.x == v.x * n;
    assert Dot(d, v) * d.y == v.y * n;
    DivMul(Dot(d, v), n, d.x, v.x);
    DivMul(Dot(d, v), n, d.y, v.y);
  }

  lemma DivMul(s: real, n: real, c: real, e: real)
    requires n != 0.0 && s * c == e * n
    ensures s / n * c == e
  {
    assert s / n * c == (s * c) / n;
  }

  /**
   * The billiard shot: a ball hitting an equally heavy ball at rest head-on stops, and the
   * other ball leaves with its velocity.
   */
  lemma {:induction false} HeadOnEqualMasses(mass: real, v1: Vector2, x1: Vector2, x2: Vector2, stutter: bool)
    requires mass > 0.0 && x1 != x2 && Cross(v1, Sub(x2, x1)) == 0.0
    requires Exchanges(v1, Zero, x1, x2, stutter)
    ensures ElasticResponse(mass, mass, v1, Zero, x1, x2, stutter) == VelocityPair(Zero, v1)
  {
    var u := Sub(Zero, v1);
    NonzeroOffset(x1, x2);
    assert Cross(u, Sub(x2, x1)) == 0.0;
    ParallelProjection(u, Sub(x2, x1));
    assert 2.0 * mass / (mass + mass) == 1.0;
  }

  /** collide(ball1, ball2) (Ball.cpp:505-526); it does not check that the balls touch. */
  method Collide(ball1: Ball, ball2: Ball)
    requires Exchanges(ball1.velocity, ball2.velocity, ball1.position, ball2.position, StutterProtection) ==> ball1.mass + ball2.mass != 0.0
    modifies ball1, ball2
    ensures var r := old(ElasticResponse(ball1.mass, ball2.mass, ball1.velocity, ball2.velocity, ball1.position, ball2.position, StutterProtection));
      ball1.velocity == r.v1 && ball2.velocity == r.v2
    ensures ball1.position == old(ball1.position) && ball1.radius == old(ball1.radius)
    ensures ball1.density == old(ball1.density) && ball1.mass == old(ball1.mass)
    ensures ball2.position == old(ball2.position) && ball2.radius == old(ball2.radius)
    ensures ball2.density == old(ball2.density) && ball2.mass == old(ball2.mass)
  {
    var m := ball1.mass;
    var n := ball2.mass;
    var v1 := ball1.velocity;
    var v2 := ball2.velocity;
    var x1 := ball1.position;
    var x2 := ball2.position;
    if x1 != x2 {
      if !StutterProtection || Dot(Sub(v2, v1), Sub(x2, x1)) < 0.0 {
        var pr := Proj(Sub(v2, v1), Sub(x2, x1));
        ball1.velocity := Add(v1, Scale(2.0 * n / (m + n), pr));
        ball2.velocity := Sub(v2, Scale(2.0 * m / (m + n), pr));
      }
    }
  }

  /** collide(ball, wall) (Ball.cpp:529-532): bounce_off_wall. */
  method CollideWithWall(m: Math, b: Ball, w: Wall)
    requires Lawful(m) && w.Valid() && w.pt1 != w.pt2
    modifies b
    ensures b.velocity == old(b.WallBounce(m, w, StutterProtection))
    ensures b.Speed(m) == old(b.Speed(m))
    ensures b.position == old(b.position) && b.radius == old(b.radius)
    ensures b.density == old(b.density) && b.mass == old(b.mass)
  {
    b.BounceOffWall(m, w);
  }
}
