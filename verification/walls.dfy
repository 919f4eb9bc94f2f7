/** The wall of the simulation: a line segment with a thickness (Ball.h:35-79, Ball.cpp:72-195). */
module Walls {
  import opened Constants
  import opened Vectors

  /** The thickness rule of the primary constructor and set_thickness: strictly positive, |th| unless th is 0. */
  function NormalizedThickness(th: real): (r: real)
    ensures r > 0.0
    ensures th != 0.0 ==> r == Abs(th)
    ensures th == 0.0 ==> r == DefaultThickness
  {
    if th < 0.0 then -th else if th == 0.0 then DefaultThickness else th
  }

  /**
   * The thickness vector update_vectors derives from the length vector: (0, th) turned to
   * angle(lengthVector) + 90 degrees, or left as (0, th) when the wall has no length.
   * Either way it has length th.
   */
  function ThicknessVectorFor(m: Math, lengthVector: Vector2, th: real): (r: Vector2)
    requires Lawful(m) && th > 0.0
    ensures Dot(r, r) == th * th
    ensures lengthVector == Zero ==> r == Vector2(0.0, th)
  {
    if Magnitude(m, lengthVector) > 0.0 then
      var r := SetVectorAngle(m, Vector2(0.0, th), Angle(m, lengthVector) + 90.0);
      TurnedAxisLength(m, th, Angle(m, lengthVector) + 90.0);
      r
    else
      Vector2(0.0, th)
  }

  /** Turning (0, th) keeps its squared length th^2. */
  lemma TurnedAxisLength(m: Math, th: real, ang: real)
    requires Lawful(m) && th > 0.0
    ensures Dot(SetVectorAngle(m, Vector2(0.0, th), ang), SetVectorAngle(m, Vector2(0.0, th), ang)) == th * th
  {
    var r := SetVectorAngle(m, Vector2(0.0, th), ang);
    MagnitudeOfAxis(m, th);
    assert Magnitude(m, r) == th;
    MagnitudeSquared(m, r);
  }

  /** Arithmetic behind the thickness vector of set_thickness. */
  lemma RescaledThickness(v: Vector2, old_th: real, th: real)
    requires old_th > 0.0 && th > 0.0
    requires Dot(v, v) == old_th * old_th
    ensures Dot(Scale(th / old_th, v), Scale(th / old_th, v)) == th * th
    ensures v == Vector2(0.0, old_th) ==> Scale(th / old_th, v) == Vector2(0.0, th)
  {
    ScaledDot(th / old_th, v, old_th);
    QuotientTimesDivisor(th, old_th);
  }

  /** Dividing the dot product by |w| twice gives the factor of the projection onto w. */
  lemma ProjectionCoordinate(v: Vector2, w: Vector2, l: real)
    requires l > 0.0 && l * l == Dot(w, w) && w != Zero
    ensures Scale((Dot(v, w) / l) / l, w) == Proj(v, w)
  {
    DotSelf(w);
    DivDiv(Dot(v, w), l, l);
    assert Dot(w, v) == Dot(v, w);
  }

  /** A vector whose squared length is t^2 with t > 0 is not zero. */
  lemma NonzeroOfSquaredLength(v: Vector2, t: real)
    requires t > 0.0 && Dot(v, v) == t * t
    ensures v != Zero
  {
    if v == Zero {
      ProductZero(t, t);
    }
  }

  lemma DivDiv(d: real, a: real, b: real)
    requires a != 0.0 && b != 0.0
    ensures a * b != 0.0 && (d / a) / b == d / (a * b)
  {
  }

  /** Bounds on a coordinate d / l, multiplied back by the positive unit l. */
  lemma ScaledInterval(d: real, l: real)
    requires l > 0.0
    ensures 0.0 <= d / l <==> 0.0 <= d
    ensures d / l <= l <==> d <= l * l
    ensures -l <= d / l <==> -(l * l) <= d
  {
    ShiftedQuotient(d, l, 0.0);
    ShiftedQuotient(d, l, -l);
    ShiftedQuotient(d, l, l);
  }

  /** A coordinate c = d / l lies in [0, l] or [-l, l] exactly when d lies in [0, l^2] or [-l^2, l^2]. */
  lemma UnscaledBounds(c: real, d: real, l: real, sq: real)
    requires l > 0.0 && c == d / l && l * l == sq
    ensures (0.0 <= c <= l) <==> (0.0 <= d <= sq)
    ensures (-l <= c <= l) <==> (-sq <= d <= sq)
  {
    ScaledInterval(d, l);
  }

  /** For l > 0, d / l + k has the sign of d + k * l. */
  lemma ShiftedQuotient(d: real, l: real, k: real)
    requires l > 0.0
    ensures d / l + k >= 0.0 <==> d + k * l >= 0.0
    ensures d / l + k > 0.0 <==> d + k * l > 0.0
  {
    var e := d / l + k;
    assert e * l == d + k * l;
    ProductSign(e, l);
  }

  class Wall {
    var pt1: Vector2
    var pt2: Vector2
    /** Half of the wall's width. */
    var thickness: real
    /** Points from pt1 to pt2. */
    var lengthVector: Vector2
    /** Has length thickness and points from pt1 to a corner. */
    var thicknessVector: Vector2

    /** The field invariants of Ball.h:41-47: thickness > 0, cached vectors consistent with the points. */
    ghost predicate Valid()
      reads this
    {
      thickness > 0.0
      && lengthVector == Sub(pt2, pt1)
      && Dot(thicknessVector, thicknessVector) == thickness * thickness
      && (pt1 == pt2 ==> thicknessVector == Vector2(0.0, thickness))
    }

    /** The primary constructor (Ball.cpp:92-104); the fill colour is not modelled. */
    constructor (m: Math, p1: Vector2, p2: Vector2, th: real)
      requires Lawful(m)
      ensures Valid()
      ensures pt1 == p1 && pt2 == p2 && thickness == NormalizedThickness(th)
      ensures lengthVector == Sub(p2, p1)
      ensures thicknessVector == ThicknessVectorFor(m, lengthVector, thickness)
    {
      pt1 := p1;
      pt2 := p2;
      thickness := NormalizedThickness(th);
      new;
      UpdateVectors(m);
    }

    /** Wall() (Ball.cpp:73-76): from (20, 20) to (30, 30) with the default thickness. */
    static method Default(m: Math) returns (w: Wall)
      requires Lawful(m)
      ensures fresh(w) && w.Valid()
      ensures w.pt1 == Vector2(20.0, 20.0) && w.pt2 == Vector2(30.0, 30.0)
      ensures w.thickness == DefaultThickness
      ensures w.thicknessVector == ThicknessVectorFor(m, w.lengthVector, w.thickness)
    {
      w := new Wall(m, Vector2(20.0, 20.0), Vector2(30.0, 30.0), DefaultThickness);
    }

    /** Wall(p1, p2) (Ball.cpp:79-82): the default thickness. */
    static method Between(m: Math, p1: Vector2, p2: Vector2) returns (w: Wall)
      requires Lawful(m)
      ensures fresh(w) && w.Valid()
      ensures w.pt1 == p1 && w.pt2 == p2 && w.thickness == DefaultThickness
      ensures w.thicknessVector == ThicknessVectorFor(m, w.lengthVector, w.thickness)
    {
      w := new Wall(m, p1, p2, DefaultThickness);
    }

    /** Wall(p1, w) (Ball.cpp:107-110): a copy of `other` moved to start at p1. */
    static method Translated(m: Math, p1: Vector2, other: Wall) returns (w: Wall)
      requires Lawful(m) && other.Valid()
      ensures fresh(w) && w.Valid()
      ensures w.pt1 == p1 && w.lengthVector == other.lengthVector
      ensures w.thickness == other.thickness
      ensures w.thicknessVector == ThicknessVectorFor(m, w.lengthVector, w.thickness)
    {
      w := new Wall(m, p1, Add(p1, other.lengthVector), other.thickness);
      assert Sub(Add(p1, other.lengthVector), p1) == other.lengthVector;
    }

    /** Wall(p1, p2, w) (Ball.cpp:113-116): new endpoints, the thickness of `other`. */
    static method Reshaped(m: Math, p1: Vector2, p2: Vector2, other: Wall) returns (w: Wall)
      requires Lawful(m) && other.Valid()
      ensures fresh(w) && w.Valid()
      ensures w.pt1 == p1 && w.pt2 == p2 && w.thickness == other.thickness
      ensures w.thicknessVector == ThicknessVectorFor(m, w.lengthVector, w.thickness)
    {
      w := new Wall(m, p1, p2, other.thickness);
    }

    /** update_vectors (Ball.cpp:122-128): recomputes both cached vectors from the points. */
    method UpdateVectors(m: Math)
      requires Lawful(m) && thickness > 0.0
      modifies this
      ensures Valid()
      ensures pt1 == old(pt1) && pt2 == old(pt2) && thickness == old(thickness)
      ensures lengthVector == Sub(pt2, pt1)
      ensures thicknessVector == ThicknessVectorFor(m, lengthVector, thickness)
    {
      var lv := Sub(pt2, pt1);
      var tv := ThicknessVectorFor(m, lv, thickness);
      assert Dot(tv, tv) == thickness * thickness;
      assert pt1 == pt2 ==> lv == Zero;
      lengthVector := lv;
      thicknessVector := tv;
    }

    /** set_points (Ball.cpp:143-149). */
    method SetPoints(m: Math, p1: Vector2, p2: Vector2)
      requires Lawful(m) && Valid()
      modifies this
      ensures Valid()
      ensures pt1 == p1 && pt2 == p2 && thickness == old(thickness)
      ensures thicknessVector == ThicknessVectorFor(m, lengthVector, thickness)
    {
      pt1 := p1;
      pt2 := p2;
      UpdateVectors(m);
    }

    /**
     * set_thickness (Ball.cpp:153-160): normalises the thickness and rescales the thickness
     * vector to it without turning it.
     */
    method SetThickness(m: Math, th: real)
      requires Lawful(m) && Valid()
      modifies this
      ensures Valid()
      ensures thickness == NormalizedThickness(th)
      ensures pt1 == old(pt1) && pt2 == old(pt2) && lengthVector == old(lengthVector)
      ensures thicknessVector == Scale(thickness / old(thickness), old(thicknessVector))
      ensures Magnitude(m, thicknessVector) == thickness
    {
      var old_th := thickness;
      var v := thicknessVector;
      thickness := NormalizedThickness(th);
      SqrtUnique(m, Dot(v, v), old_th);
      DotSelf(v);
      thicknessVector := SetMagnitude(m, thicknessVector, thickness);
      assert thicknessVector == Scale(thickness / old_th, v);
      RescaledThickness(v, old_th, thickness);
    }

    /** get_length (Ball.h:62): the length of the wall, zero exactly for a degenerate wall. */
    function Length(m: Math): (r: real)
      reads this
      requires Lawful(m) && Valid()
      ensures r >= 0.0 && (r == 0.0 <==> pt1 == pt2)
    {
      assert pt1 == pt2 <==> lengthVector == Zero;
      Magnitude(m, lengthVector)
    }

    /**
     * relative_coordinates (Ball.cpp:165-169): pt in the wall's frame, pt1 at the origin and
     * the x axis along the wall. The two coordinates are the scalar projections of pt - pt1
     * onto the length vector and onto the thickness vector, the latter in units of the
     * thickness. The source divides by the length: the wall must not be degenerate.
     */
    function RelativeCoordinates(m: Math, pt: Vector2): (r: Vector2)
      reads this
      requires Lawful(m) && Valid() && pt1 != pt2
      ensures Scale(r.x / Length(m), lengthVector) == Proj(Sub(pt, pt1), lengthVector)
      ensures Scale(r.y / thickness, thicknessVector) == Proj(Sub(pt, pt1), thicknessVector)
    {
      var rel := Sub(pt, pt1);
      var l := Length(m);
      MagnitudeSquared(m, lengthVector);
      ProjectionCoordinate(rel, lengthVector, l);
      NonzeroOfSquaredLength(thicknessVector, thickness);
      ProjectionCoordinate(rel, thicknessVector, thickness);
      Vector2(Dot(rel, lengthVector) / l, Dot(rel, thicknessVector) / thickness)
    }

    /**
     * contains (Ball.cpp:172-177): the closed rectangle [0, length] x [-thickness, thickness]
     * of the wall's frame; pt1 itself, on the boundary, is contained. The same rectangle in
     * world terms is ContainsInWorldFrame below.
     */
    predicate Contains(m: Math, pt: Vector2): (inside: bool)
      reads this
      requires Lawful(m) && Valid() && pt1 != pt2
      ensures pt == pt1 ==> inside
    {
      var c := RelativeCoordinates(m, pt);
      assert pt == pt1 ==> c == Zero by {
        if pt == pt1 {
          DotSelf(lengthVector);
          DotSelf(thicknessVector);
        }
      }
      0.0 <= c.x <= Length(m) && -thickness <= c.y <= thickness
    }

    /**
     * nearest_corner (Ball.cpp:181-195): one of the four corners pt1 +- v_th, pt2 +- v_th,
     * chosen by the quadrant of the local point `rel` (not by measuring distances): the pt1
     * end when rel.x is at most half the length, the +v_th side when rel.y >= 0.
     */
    function NearestCorner(m: Math, rel: Vector2): (r: Vector2)
      reads this
      requires Lawful(m) && Valid()
      ensures rel.x <= Length(m) / 2.0 ==> r == Add(pt1, thicknessVector) || r == Sub(pt1, thicknessVector)
      ensures rel.x > Length(m) / 2.0 ==> r == Add(pt2, thicknessVector) || r == Sub(pt2, thicknessVector)
      ensures rel.y >= 0.0 ==> r == Add(pt1, thicknessVector) || r == Add(pt2, thicknessVector)
      ensures rel.y < 0.0 ==> r == Sub(pt1, thicknessVector) || r == Sub(pt2, thicknessVector)
    {
      if rel.x <= Length(m) / 2.0 then
        (if rel.y >= 0.0 then Add(pt1, thicknessVector) else Sub(pt1, thicknessVector))
      else
        (if rel.y >= 0.0 then Add(pt2, thicknessVector) else Sub(pt2, thicknessVector))
    }
  }

  /** The wall's own endpoints sit at the origin and at (length, _) of its frame. */
  lemma EndpointsInLocalFrame(m: Math, w: Wall)
    requires Lawful(m) && w.Valid() && w.pt1 != w.pt2
    ensures w.RelativeCoordinates(m, w.pt1) == Zero
    ensures w.RelativeCoordinates(m, w.pt2).x == w.Length(m)
  {
    var l := w.Length(m);
    assert Sub(w.pt2, w.pt1) == w.lengthVector;
    MagnitudeSquared(m, w.lengthVector);
    DotSelf(w.lengthVector);
    QuotientOfSquare(l, Dot(w.lengthVector, w.lengthVector));
  }

  /**
   * contains in world terms: pt - pt1 projects onto the segment (its dot product with the
   * length vector lies in [0, |lengthVector|^2]) and lies within the thickness band on either
   * side (its dot product with the thickness vector lies in [-thickness^2, thickness^2]).
   */
  lemma ContainsInWorldFrame(m: Math, w: Wall, pt: Vector2)
    requires Lawful(m) && w.Valid() && w.pt1 != w.pt2
    ensures w.Contains(m, pt) <==>
      0.0 <= Dot(Sub(pt, w.pt1), w.lengthVector) <= Dot(w.lengthVector, w.lengthVector)
      && -Dot(w.thicknessVector, w.thicknessVector) <= Dot(Sub(pt, w.pt1), w.thicknessVector)
      && Dot(Sub(pt, w.pt1), w.thicknessVector) <= Dot(w.thicknessVector, w.thicknessVector)
    ensures Dot(w.thicknessVector, w.thicknessVector) == w.thickness * w.thickness
  {
    var c := w.RelativeCoordinates(m, pt);
    var l := w.Length(m);
    var d := Sub(pt, w.pt1);
    assert c.x == Dot(d, w.lengthVector) / l;
    assert c.y == Dot(d, w.thicknessVector) / w.thickness;
    MagnitudeSquared(m, w.lengthVector);
    UnscaledBounds(c.x, Dot(d, w.lengthVector), l, Dot(w.lengthVector, w.lengthVector));
    UnscaledBounds(c.y, Dot(d, w.thicknessVector), w.thickness, Dot(w.thicknessVector, w.thicknessVector));
    assert w.Contains(m, pt) == (0.0 <= c.x <= l && -w.thickness <= c.y <= w.thickness);
  }

  lemma QuotientOfSquare(l: real, sq: real)
    requires l > 0.0 && l * l == sq
    ensures sq / l == l
  {
  }
}
