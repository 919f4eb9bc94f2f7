/** The ball of the simulation (Ball.h:83-148, Ball.cpp:199-499). */
module Balls {
  import opened Constants
  import opened Vectors
  import opened Walls

  /** The materials of Ball.h:22; only the density each one fixes is modelled. */
  datatype Material = Wood | Stone | Iron | Gold | Def

  /** The densities (g/cm^3) the material constructor passes on (Ball.cpp:244-271). */
  function MaterialDensity(mat: Material): (d: real)
    ensures d > 0.0
    ensures mat == Def ==> d == DefaultDensity
  {
    match mat
    case Wood => 0.70
    case Stone => 2.00
    case Iron => 7.87
    case Gold => 19.32
    case Def => DefaultDensity
  }

  /** The radius rule of the primary constructor and set_radius: |r|, capped at MaxRadius. */
  function ClampedRadius(r: real): (c: real)
    ensures 0.0 <= c <= MaxRadius
    ensures Abs(r) <= MaxRadius ==> c == Abs(r)
    ensures Abs(r) > MaxRadius ==> c == MaxRadius
  {
    var a := if r < 0.0 then -r else r;
    if a > MaxRadius then MaxRadius else a
  }

  /** The speed rule of set_speed: the argument clamped to [-MaxSpeed, MaxSpeed]. */
  function ClampedSpeed(sp: real): (c: real)
    ensures -MaxSpeed <= c <= MaxSpeed
    ensures -MaxSpeed <= sp <= MaxSpeed ==> c == sp
    ensures sp > MaxSpeed ==> c == MaxSpeed
    ensures sp < -MaxSpeed ==> c == -MaxSpeed
  {
    if sp > MaxSpeed then MaxSpeed else if sp < -MaxSpeed then -MaxSpeed else sp
  }

  /** The mass of a solid sphere: density * 4/3 * pi * radius^3. */
  function Mass(density: real, radius: real): (mass: real)
    ensures density >= 0.0 && radius >= 0.0 ==> mass >= 0.0
    ensures density == 0.0 || radius == 0.0 ==> mass == 0.0
  {
    var k := density * 4.0 / 3.0 * Pi;
    MassSign(k, radius);
    k * radius * radius * radius
  }

  lemma MassSign(k: real, r: real)
    ensures k >= 0.0 && r >= 0.0 ==> k * r * r * r >= 0.0
  {
    if k >= 0.0 && r >= 0.0 {
      NonnegProduct(k, r);
      NonnegProduct(k * r, r);
      NonnegProduct(k * r * r, r);
    }
  }

  /**
   * The speed cap of the primary constructor and set_velocity: a velocity faster than
   * MaxSpeed is scaled down to exactly MaxSpeed without turning it; others are kept.
   */
  function CappedVelocity(m: Math, vel: Vector2): (c: Vector2)
    requires Lawful(m)
    ensures Magnitude(m, c) <= MaxSpeed
    ensures Magnitude(m, vel) <= MaxSpeed ==> c == vel
    ensures Magnitude(m, vel) > MaxSpeed ==> Magnitude(m, c) == MaxSpeed && Cross(c, vel) == 0.0 && Dot(c, vel) > 0.0
  {
    if Magnitude(m, vel) > MaxSpeed then SetMagnitude(m, vel, ClampedSpeed(MaxSpeed)) else vel
  }

  /** The velocity of the speed-and-angle constructors (Ball.cpp:292-307): length |spd|. */
  function PolarVelocity(m: Math, spd: real, ang: real): (v: Vector2)
    requires Lawful(m)
    ensures Magnitude(m, v) == Abs(spd)
  {
    var rad := ang * Pi / 180.0;
    var v := Vector2(spd * m.cos(rad), spd * m.sin(rad));
    assert v == Scale(spd, Vector2(m.cos(rad), m.sin(rad)));
    MagnitudeOfScale(m, spd, Vector2(m.cos(rad), m.sin(rad)));
    UnitDirection(m, rad);
    v
  }

  lemma UnitDirection(m: Math, rad: real)
    requires Lawful(m)
    ensures Magnitude(m, Vector2(m.cos(rad), m.sin(rad))) == 1.0
  {
    assert TrigLaw(m, rad);
    SqrtUnique(m, Dot(Vector2(m.cos(rad), m.sin(rad)), Vector2(m.cos(rad), m.sin(rad))), 1.0);
  }

  /**
   * What bounce(ang) does to a velocity (Ball.cpp:446-452): its angle alpha becomes
   * 2 * (ang + 90) - alpha, a reflection across the line at ang + 90 degrees; its length is kept.
   */
  function Reflected(m: Math, v: Vector2, ang: real): (r: Vector2)
    requires Lawful(m)
    ensures Magnitude(m, r) == Magnitude(m, v)
    ensures v == Zero ==> r == Zero
  {
    SetVectorAngle(m, v, 2.0 * (ang + 90.0) - Angle(m, v))
  }

  class Ball {
    var position: Vector2
    var velocity: Vector2
    var radius: real
    var density: real
    var mass: real

    /** The field invariants of Ball.h:89-95, with the mass derived from density and radius. */
    ghost predicate Valid()
      reads this
    {
      0.0 <= radius <= MaxRadius && density >= 0.0 && mass == Mass(density, radius)
    }

    /**
     * The primary constructor (Ball.cpp:225-241): radius made nonnegative and capped, density
     * made nonnegative, speed capped at MaxSpeed. The fill colour is not modelled.
     */
    constructor (m: Math, pos: Vector2, vel: Vector2, r: real, dens: real)
      requires Lawful(m)
      ensures Valid()
      ensures position == pos && radius == ClampedRadius(r) && density == Abs(dens)
      ensures velocity == CappedVelocity(m, vel)
      ensures Speed(m) <= MaxSpeed
    {
      var rr := ClampedRadius(r);
      var dd := if dens < 0.0 then -dens else dens;
      position := pos;
      velocity := vel;
      radius := rr;
      density := dd;
      mass := Mass(dd, rr);
      new;
      if Speed(m) > MaxSpeed {
        SetSpeed(m, MaxSpeed);
      }
    }

    /** Ball() (Ball.cpp:200-203), through Ball(pos, vel) (Ball.cpp:206-209). */
    static method Default(m: Math) returns (b: Ball)
      requires Lawful(m)
      ensures fresh(b) && b.Valid()
      ensures b.position == Vector2(50.0, 50.0) && b.velocity == Vector2(50.0, 50.0)
      ensures b.radius == DefaultRadius && b.density == DefaultDensity
    {
      DefaultVelocityUnderCap(m);
      b := new Ball(m, Vector2(50.0, 50.0), Vector2(50.0, 50.0), DefaultRadius, DefaultDensity);
    }

    /** Ball(pos, vel, r) and Ball(pos, vel, r, c) (Ball.cpp:212-221): the default density. */
    static method WithRadius(m: Math, pos: Vector2, vel: Vector2, r: real) returns (b: Ball)
      requires Lawful(m)
      ensures fresh(b) && b.Valid()
      ensures b.position == pos && b.velocity == CappedVelocity(m, vel)
      ensures b.radius == ClampedRadius(r) && b.density == DefaultDensity
    {
      b := new Ball(m, pos, vel, r, DefaultDensity);
    }

    /** Ball(pos, vel, r, mat) (Ball.cpp:244-271): the density of the material. */
    static method OfMaterial(m: Math, pos: Vector2, vel: Vector2, r: real, mat: Material) returns (b: Ball)
      requires Lawful(m)
      ensures fresh(b) && b.Valid()
      ensures b.position == pos && b.velocity == CappedVelocity(m, vel)
      ensures b.radius == ClampedRadius(r) && b.density == MaterialDensity(mat)
    {
      b := new Ball(m, pos, vel, r, MaterialDensity(mat));
    }

    /**
     * Ball(pos, spd, ang, r, c, dens) (Ball.cpp:292-298), which the shorter speed-and-angle
     * overloads (Ball.cpp:274-289) call with the defaults: the speed is |spd| capped at MaxSpeed.
     */
    static method FromPolar(m: Math, pos: Vector2, spd: real, ang: real, r: real, dens: real) returns (b: Ball)
      requires Lawful(m)
      ensures fresh(b) && b.Valid()
      ensures b.position == pos && b.velocity == CappedVelocity(m, PolarVelocity(m, spd, ang))
      ensures b.radius == ClampedRadius(r) && b.density == Abs(dens)
      ensures b.Speed(m) == if Abs(spd) > MaxSpeed then MaxSpeed else Abs(spd)
    {
      b := new Ball(m, pos, PolarVelocity(m, spd, ang), r, dens);
    }

    /** Ball(pos, spd, ang, r, mat) (Ball.cpp:301-307). */
    static method FromPolarOfMaterial(m: Math, pos: Vector2, spd: real, ang: real, r: real, mat: Material) returns (b: Ball)
      requires Lawful(m)
      ensures fresh(b) && b.Valid()
      ensures b.position == pos && b.velocity == CappedVelocity(m, PolarVelocity(m, spd, ang))
      ensures b.radius == ClampedRadius(r) && b.density == MaterialDensity(mat)
    {
      b := OfMaterial(m, pos, PolarVelocity(m, spd, ang), r, mat);
    }

    /** Ball(pos, b) (Ball.cpp:311-314): a copy of `other` at another position. */
    static method CopyAt(m: Math, pos: Vector2, other: Ball) returns (b: Ball)
      requires Lawful(m) && other.Valid()
      ensures fresh(b) && b.Valid()
      ensures b.position == pos && b.velocity == CappedVelocity(m, other.velocity)
      ensures b.radius == other.radius && b.density == other.density && b.mass == other.mass
    {
      b := new Ball(m, pos, other.velocity, other.radius, other.density);
    }

    /** Ball(pos, vel, b) (Ball.cpp:318-321): a copy of `other` with another position and velocity. */
    static method CopyWithVelocity(m: Math, pos: Vector2, vel: Vector2, other: Ball) returns (b: Ball)
      requires Lawful(m) && other.Valid()
      ensures fresh(b) && b.Valid()
      ensures b.position == pos && b.velocity == CappedVelocity(m, vel)
      ensures b.radius == other.radius && b.density == other.density && b.mass == other.mass
    {
      b := new Ball(m, pos, vel, other.radius, other.density);
    }

    /** Ball(pos, spd, ang, b) (Ball.cpp:325-328). */
    static method CopyWithPolar(m: Math, pos: Vector2, spd: real, ang: real, other: Ball) returns (b: Ball)
      requires Lawful(m) && other.Valid()
      ensures fresh(b) && b.Valid()
      ensures b.position == pos && b.velocity == CappedVelocity(m, PolarVelocity(m, spd, ang))
      ensures b.radius == other.radius && b.density == other.density && b.mass == other.mass
    {
      b := new Ball(m, pos, PolarVelocity(m, spd, ang), other.radius, other.density);
    }

    /** get_speed (Ball.cpp:331-334). */
    function Speed(m: Math): (s: real)
      reads this
      requires Lawful(m)
      ensures s >= 0.0 && (s == 0.0 <==> velocity == Zero)
    {
      Magnitude(m, velocity)
    }

    /** get_angle (Ball.cpp:340-343): in [0, 360), and 90 for a ball at rest. */
    function Heading(m: Math): (a: real)
      reads this
      requires Lawful(m)
      ensures 0.0 <= a < 360.0
      ensures velocity == Zero ==> a == 90.0
    {
      Angle(m, velocity)
    }

    /** set_position, both overloads (Ball.cpp:357-365). */
    method SetPosition(pos: Vector2)
      modifies this
      ensures position == pos
      ensures velocity == old(velocity) && radius == old(radius) && density == old(density) && mass == old(mass)
    {
      position := pos;
    }

    /** set_velocity, both overloads (Ball.cpp:368-379): the new speed never exceeds MaxSpeed. */
    method SetVelocity(m: Math, vel: Vector2)
      requires Lawful(m)
      modifies this
      ensures velocity == CappedVelocity(m, vel)
      ensures Speed(m) <= MaxSpeed
      ensures position == old(position) && radius == old(radius) && density == old(density) && mass == old(mass)
    {
      velocity := vel;
      var spd := Speed(m);
      if spd > MaxSpeed {
        SetSpeed(m, MaxSpeed);
      }
    }

    /** set_radius (Ball.cpp:383-389): clamps the radius and recomputes the mass. */
    method SetRadius(r: real)
      requires Valid()
      modifies this
      ensures Valid()
      ensures radius == ClampedRadius(r) && mass == Mass(density, radius)
      ensures position == old(position) && velocity == old(velocity) && density == old(density)
    {
      var rr := ClampedRadius(r);
      radius := rr;
      mass := Mass(density, rr);
    }

    /**
     * set_speed (Ball.cpp:394-400): the argument is clamped to [-MaxSpeed, MaxSpeed] and
     * becomes the length of the velocity, reversing it when negative; a ball at rest gets
     * (0, sp).
     */
    method SetSpeed(m: Math, sp: real)
      requires Lawful(m)
      modifies this
      ensures velocity == SetMagnitude(m, old(velocity), ClampedSpeed(sp))
      ensures Speed(m) == Abs(ClampedSpeed(sp)) <= MaxSpeed
      ensures old(velocity) == Zero ==> velocity == Vector2(0.0, ClampedSpeed(sp))
      ensures position == old(position) && radius == old(radius) && density == old(density) && mass == old(mass)
    {
      var s := sp;
      if s > MaxSpeed {
        s := MaxSpeed;
      } else if s < -MaxSpeed {
        s := -MaxSpeed;
      }
      velocity := SetMagnitude(m, velocity, s);
    }

    /** set_angle (Ball.cpp:403-406): turns the velocity, keeping the speed. */
    method SetAngle(m: Math, ang: real)
      requires Lawful(m)
      modifies this
      ensures velocity == SetVectorAngle(m, old(velocity), ang)
      ensures Speed(m) == old(Speed(m))
      ensures position == old(position) && radius == old(radius) && density == old(density) && mass == old(mass)
    {
      velocity := SetVectorAngle(m, velocity, ang);
    }

    /**
     * is_colliding_with(Ball) (Ball.cpp:410-414): the centres are closer than the sum of the
     * radii; balls that only touch do not collide.
     */
    predicate CollidesWithBall(m: Math, b: Ball)
      reads this, b
      requires Lawful(m)
      ensures CollidesWithBall(m, b) ==> radius + b.radius > 0.0
      ensures position == b.position && radius + b.radius > 0.0 ==> CollidesWithBall(m, b)
    {
      Distance(m, position, b.position) - (radius + b.radius) < 0.0
    }

    /** is_colliding_with(point) (Ball.cpp:418-422): the point is strictly inside the ball. */
    predicate CollidesWithPoint(m: Math, point: Vector2)
      reads this
      requires Lawful(m)
      ensures CollidesWithPoint(m, point) ==> radius > 0.0
      ensures point == position && radius > 0.0 ==> CollidesWithPoint(m, point)
    {
      Distance(m, position, point) < radius
    }

    /**
     * is_colliding_with(Wall) (Ball.cpp:426-442), in the wall's frame: outside the band
     * widened by the radius there is no collision; over the wall's length or beside its
     * ends there is; otherwise the nearest corner must be closer than the radius.
     */
    predicate CollidesWithWall(m: Math, w: Wall)
      reads this, w
      requires Lawful(m) && w.Valid() && w.pt1 != w.pt2
      ensures CollidesWithWall(m, w) ==>
        var c := w.RelativeCoordinates(m, position);
        -w.thickness - radius < c.y < w.thickness + radius && -radius < c.x < w.Length(m) + radius
    {
      var c := w.RelativeCoordinates(m, position);
      if c.y <= -w.thickness - radius || c.y >= w.thickness + radius then false
      else if c.x <= -radius || c.x >= w.Length(m) + radius then false
      else if 0.0 <= c.x <= w.Length(m) then true
      else if -w.thickness <= c.y <= w.thickness then true
      else Distance(m, position, w.NearestCorner(m, c)) < radius
    }

    /**
     * The velocity bounce_off_wall leaves (Ball.cpp:458-489): the same rejections and the
     * same three cases as CollidesWithWall; in each case the velocity is reflected off the
     * feature hit (the thickness vector for the side, the length vector for an end, the
     * direction from the corner for a corner), and with stutter protection only while
     * the ball is not already moving away from that feature.
     */
    function WallBounce(m: Math, w: Wall, stutter: bool): (v: Vector2)
      reads this, w
      requires Lawful(m) && w.Valid() && w.pt1 != w.pt2
      ensures Magnitude(m, v) == Magnitude(m, velocity)
    {
      var c := w.RelativeCoordinates(m, position);
      if c.y <= -w.thickness - radius || c.y >= w.thickness + radius then velocity
      else if c.x <= -radius || c.x >= w.Length(m) + radius then velocity
      else if 0.0 <= c.x <= w.Length(m) then
        if !stutter || Dot(velocity, w.thicknessVector) * c.y <= 0.0
        then Reflected(m, velocity, Angle(m, w.thicknessVector)) else velocity
      else if -w.thickness <= c.y <= w.thickness then
        if !stutter || Dot(velocity, w.lengthVector) * c.x <= 0.0
        then Reflected(m, velocity, Angle(m, w.lengthVector)) else velocity
      else
        var corner := w.NearestCorner(m, c);
        if Distance(m, position, corner) < radius && (!stutter || Dot(velocity, Sub(position, corner)) <= 0.0)
        then Reflected(m, velocity, Angle(m, Sub(position, corner))) else velocity
    }

    /**
     * bounce (Ball.cpp:446-452): reflects the velocity off a surface perpendicular to `ang`.
     * The speed is kept; it is not capped.
     */
    method Bounce(m: Math, ang: real)
      requires Lawful(m)
      modifies this
      ensures velocity == Reflected(m, old(velocity), ang)
      ensures Speed(m) == old(Speed(m))
      ensures position == old(position) && radius == old(radius) && density == old(density) && mass == old(mass)
    {
      var alpha := Heading(m);
      var beta := ang + 90.0;
      SetAngle(m, 2.0 * beta - alpha);
    }

    /**
     * bounce_off_wall (Ball.cpp:458-489): safe to call without asking for a collision
     * first. Only the velocity changes, and only by a reflection.
     */
    method BounceOffWall(m: Math, w: Wall)
      requires Lawful(m) && w.Valid() && w.pt1 != w.pt2
      modifies this
      ensures velocity == old(WallBounce(m, w, StutterProtection))
      ensures !old(CollidesWithWall(m, w)) ==> velocity == old(velocity)
      ensures Speed(m) == old(Speed(m))
      ensures position == old(position) && radius == old(radius) && density == old(density) && mass == old(mass)
    {
      NoCollisionNoBounce(m, this, w, StutterProtection);
      var coords := w.RelativeCoordinates(m, position);
      if coords.y <= -w.thickness - radius || coords.y >= w.thickness + radius {
        return;
      }
      if coords.x <= -radius || coords.x >= w.Length(m) + radius {
        return;
      }
      if 0.0 <= coords.x <= w.Length(m) {
        if !StutterProtection || Dot(velocity, w.thicknessVector) * coords.y <= 0.0 {
          Bounce(m, Angle(m, w.thicknessVector));
        }
      } else {
        if -w.thickness <= coords.y <= w.thickness {
          if !StutterProtection || Dot(velocity, w.lengthVector) * coords.x <= 0.0 {
            Bounce(m, Angle(m, w.lengthVector));
          }
        } else {
          var corner := w.NearestCorner(m, coords);
          if Distance(m, position, corner) < radius {
            if !StutterProtection || Dot(velocity, Sub(position, corner)) <= 0.0 {
              Bounce(m, Angle(m, Sub(position, corner)));
            }
          }
        }
      }
    }

    /** update_position (Ball.cpp:493-499): moves by velocity * dt without checking for collisions. */
    method UpdatePosition(dt: real)
      modifies this
      ensures position == Add(old(position), Scale(dt, velocity))
      ensures velocity == old(velocity) && radius == old(radius) && density == old(density) && mass == old(mass)
    {
      position := Vector2(position.x + velocity.x * dt, position.y + velocity.y * dt);
    }
  }

  /** The default velocity (50, 50) is slower than MaxSpeed, so the default ball keeps it. */
  lemma DefaultVelocityUnderCap(m: Math)
    requires Lawful(m)
    ensures Magnitude(m, Vector2(50.0, 50.0)) <= MaxSpeed
  {
    var v := Vector2(50.0, 50.0);
    MagnitudeSquared(m, v);
    assert Dot(v, v) <= MaxSpeed * MaxSpeed;
    SquareBound(Magnitude(m, v), MaxSpeed);
  }

  /** Squares of nonnegative numbers are ordered like the numbers. */
  lemma SquareBound(s: real, c: real)
    requires s >= 0.0 && c >= 0.0 && s * s <= c * c
    ensures s <= c
  {
    if s + c > 0.0 {
      assert (s - c) * (s + c) == s * s - c * c;
      ProductSign(s - c, s + c);
    }
  }

  /** bounce_off_wall changes nothing when is_colliding_with(Wall) is false. */
  lemma NoCollisionNoBounce(m: Math, b: Ball, w: Wall, stutter: bool)
    requires Lawful(m) && w.Valid() && w.pt1 != w.pt2
    ensures !b.CollidesWithWall(m, w) ==> b.WallBounce(m, w, stutter) == b.velocity
  {
  }

  /** Ball/ball collision does not depend on which ball asks. */
  lemma CollisionIsSymmetric(m: Math, a: Ball, b: Ball)
    requires Lawful(m)
    ensures a.CollidesWithBall(m, b) == b.CollidesWithBall(m, a)
  {
    DistanceSymmetric(m, a.position, b.position);
  }

  /** A point collides with a ball exactly when a ball of radius 0 placed there would. */
  lemma PointIsZeroRadiusBall(m: Math, a: Ball, p: Ball)
    requires Lawful(m) && p.radius == 0.0
    ensures a.CollidesWithPoint(m, p.position) == a.CollidesWithBall(m, p)
  {
  }

  /**
   * Two balls of radius 10: centres 19 apart collide, centres 20 apart only touch and do
   * not.
   */
  lemma TouchingIsNotColliding(m: Math, a: Ball, b: Ball, c: Ball)
    requires Lawful(m)
    requires a.radius == 10.0 && b.radius == 10.0 && c.radius == 10.0
    requires a.position == Zero && b.position == Vector2(19.0, 0.0) && c.position == Vector2(20.0, 0.0)
    ensures a.CollidesWithBall(m, b)
    ensures !a.CollidesWithBall(m, c)
  {
    assert Dot(Sub(a.position, b.position), Sub(a.position, b.position)) == 361.0;
    SqrtUnique(m, 361.0, 19.0);
    assert Dot(Sub(a.position, c.position), Sub(a.position, c.position)) == 400.0;
    SqrtUnique(m, 400.0, 20.0);
  }

  /** A ball of positive radius whose centre lies in the wall's closed rectangle collides with it. */
  lemma ContainedCentreCollides(m: Math, b: Ball, w: Wall)
    requires Lawful(m) && w.Valid() && w.pt1 != w.pt2
    requires b.radius > 0.0 && w.Contains(m, b.position)
    ensures b.CollidesWithWall(m, w)
  {
  }

  /**
   * A ball of radius 0 collides with a wall exactly when its centre lies in the open
   * rectangle (0, length) x (-thickness, thickness) of the wall's frame: the closed
   * boundary that contains accepts is not a collision.
   */
  lemma ZeroRadiusCollidesInInterior(m: Math, b: Ball, w: Wall)
    requires Lawful(m) && w.Valid() && w.pt1 != w.pt2 && b.radius == 0.0
    ensures var c := w.RelativeCoordinates(m, b.position);
      b.CollidesWithWall(m, w) <==> 0.0 < c.x < w.Length(m) && -w.thickness < c.y < w.thickness
  {
  }
}
