# Ball-class in Dafny

A model of the physics core of the Ball-class repository. That repository is a small C++/SFML
library of balls and walls in the plane. It holds:

- vector helpers: magnitude, distance, angle, dot product, set-magnitude, set-angle, projection;
- a `Wall`, a thick line segment;
- a `Ball` with position, velocity, radius, density and mass;
- the collision predicates between balls, points and walls;
- the bounce of a ball off a wall;
- the elastic collision of two balls.

The model follows the two source files:

| Dafny file | module | source |
|---|---|---|
| `vectors.dfy` | `Constants`, `Vectors` | Ball.h constants, Ball.cpp:1-68 |
| `walls.dfy` | `Walls` | `Wall`, Ball.cpp:72-195 |
| `balls.dfy` | `Balls` | `Ball`, Ball.cpp:199-499 |
| `collisions.dfy` | `Collisions` | the two `collide` overloads, Ball.cpp:501-532 |

## How the model is built

- **Numbers.** `float` is modelled as `real`, so there is no rounding.
- **Math functions.** `sqrt`, `atan`, `sin` and `cos` are passed in as a `Math` value.
  - Everything the model assumes of them is stated in `Lawful`:
    - `sqrt` is the nonnegative square root of a nonnegative number;
    - `cos² + sin² = 1`;
    - `atan` has the sign of its argument and stays inside (-2, 2).
  - Every member that needs these functions takes `m: Math` and requires `Lawful(m)`.
- **Constants.** `PI` is the literal of Ball.h:7. `STUTTER_PROTECTION` is the constant `StutterProtection`, and the methods `BounceOffWall`, `Collide` and `CollideWithWall` read it as the source does. The functions that specify them, `WallBounce` and `ElasticResponse`, take it as a `stutter` parameter, so the lemmas cover both settings.
- **Classes.** `Wall` and `Ball` are classes whose methods update their fields. `Valid()` holds the invariants of Ball.h:41-47 and Ball.h:89-95.
- **Reference parameters.**
  - The C++ helpers `set_magnitude` and `set_vector_angle` overwrite a vector passed by reference. Here they are the functions `SetMagnitude` and `SetVectorAngle`, and their callers assign the result back.
  - The methods `UpdateVectors`, `SetThickness`, `SetSpeed` and `SetAngle` do exactly that.
- **Constructors.** The C++ constructors that delegate with `*this = Ball(...)` are static factory methods that call the primary constructor with the same arguments.

## Model

| member | source | states |
|---|---|---|
| `Constants.DefaultsArePositive` | Ball.h:15-19 | the default radius, density and wall thickness are positive, and the default radius is within MAX_RADIUS |
| `Vectors.DotSelf` | Ball.cpp:36-39 | `dot(v, v)` is nonnegative and is zero exactly for the zero vector |
| `Vectors.Magnitude` | Ball.cpp:5-8 | the length is nonnegative and is zero exactly for the zero vector |
| `Vectors.MagnitudeSquared` | Ball.cpp:5-8 | the square of the length is `dot(v, v)` |
| `Vectors.MagnitudeOfScale` | Ball.cpp:5-8 | scaling a vector by k multiplies its length by abs(k) |
| `Vectors.Distance` | Ball.cpp:11-14 | the distance is nonnegative and is zero exactly when the points coincide |
| `Vectors.DistanceSymmetric` | Ball.cpp:11-14 | the distance from v to w equals the distance from w to v |
| `Vectors.Angle` | Ball.cpp:16-33 | the angle lies in [0, 360); the zero vector gives 90; the positive and negative y axes give 90 and 270; the positive and negative x axes give 0 and 180 |
| `Vectors.SetMagnitude` | Ball.cpp:41-49 | the result has length abs(len); a zero vector becomes (0, len); otherwise the result is parallel to v, pointing the same way for positive len and the opposite way for negative len |
| `Vectors.SetVectorAngle` | Ball.cpp:51-57 | the length of the vector is kept |
| `Vectors.Proj` | Ball.cpp:59-68 | `v` is returned unchanged when `dot(w, w)` is zero; otherwise the result is parallel to w and `v - proj` is orthogonal to w |
| `Vectors.ProjIsMultiple` | Ball.cpp:67 | for a nonzero w the projection is `dot(w, v) / dot(w, w)` times w |
| `Walls.NormalizedThickness` | Ball.cpp:97-99 | the thickness is positive: a negative input is negated, zero becomes the default thickness, a positive input is kept |
| `Walls.ThicknessVectorFor` | Ball.cpp:122-128 | `v_th` has length `thickness`, and is (0, thickness) for a zero-length wall |
| `Walls.Wall.constructor` | Ball.cpp:90-104 | the primary constructor stores the points, normalizes the thickness and leaves the length and thickness vectors consistent |
| `Walls.Wall.Default` | Ball.cpp:72-76 | the default wall runs from (20, 20) to (30, 30) with the default thickness, and its `v_th` is the thickness vector of its length vector |
| `Walls.Wall.Between` | Ball.cpp:78-88 | a wall between two points gets the default thickness, and its `v_th` is the thickness vector of its length vector |
| `Walls.Wall.Translated` | Ball.cpp:106-110 | the copy starts at p1 and has the length vector and thickness of the original; its `v_th` is recomputed from that length vector and thickness |
| `Walls.Wall.Reshaped` | Ball.cpp:112-116 | the copy has the new endpoints and the thickness of the original, and its `v_th` is the thickness vector of the new length vector |
| `Walls.Wall.UpdateVectors` | Ball.cpp:118-128 | `v_l` becomes `pt2 - pt1` and `v_th` the thickness vector of that length vector; points and thickness are unchanged |
| `Walls.Wall.SetPoints` | Ball.cpp:142-149 | the endpoints are replaced and both vectors recomputed; the thickness is kept |
| `Walls.Wall.SetThickness` | Ball.cpp:151-160 | the thickness is normalized; `v_th` is rescaled by a positive factor, so it keeps its direction and has the new thickness as its length; points and `v_l` are unchanged |
| `Walls.Wall.Length` | Ball.h:62 | `get_length` is nonnegative and is zero exactly when the endpoints coincide |
| `Walls.Wall.RelativeCoordinates` | Ball.cpp:162-169 | the x coordinate, times the unit length vector, is the projection of `pt - pt1` onto `v_l`; the y coordinate, times `v_th / thickness`, is its projection onto `v_th` |
| `Walls.EndpointsInLocalFrame` | Ball.cpp:162-164 | in the wall's frame, pt1 sits at the origin and pt2 at x = length |
| `Walls.Wall.Contains` | Ball.cpp:171-177 | pt1 itself is contained, because the intervals are closed |
| `Walls.ContainsInWorldFrame` | Ball.cpp:171-177 | a point is contained exactly when `dot(pt - pt1, v_l)` lies in [0, dot(v_l, v_l)] and `dot(pt - pt1, v_th)` lies in [-thickness², thickness²]: the closed rectangle of length get_length() and half-width thickness, in world terms |
| `Walls.Wall.NearestCorner` | Ball.cpp:179-192 | the corner is on the pt1 side exactly when `rel.x <= length/2` and on the `+v_th` side exactly when `rel.y >= 0`, which makes it one of the four corners |
| `Balls.MaterialDensity` | Ball.cpp:243-271 | each material has a positive density, and the default material has the default density |
| `Balls.ClampedRadius` | Ball.cpp:227-228 | the radius is abs(r) capped at MAX_RADIUS, so it lies in [0, MAX_RADIUS] |
| `Balls.ClampedSpeed` | Ball.cpp:396-397 | the speed argument is clamped to [-MAX_SPEED, MAX_SPEED] and kept when already inside |
| `Balls.Mass` | Ball.cpp:240 | the mass is nonnegative for a nonnegative density and radius, and zero when either is zero |
| `Balls.CappedVelocity` | Ball.cpp:235 | the result has speed at most MAX_SPEED; a slower velocity is kept; a faster one is scaled to exactly MAX_SPEED in the same direction |
| `Balls.PolarVelocity` | Ball.cpp:294-295 | the velocity built from speed and angle has length abs(spd) |
| `Balls.Reflected` | Ball.cpp:444-452 | a bounce keeps the speed, and a ball at rest stays at rest |
| `Balls.Ball.constructor` | Ball.cpp:224-241 | the radius is clamped, the density made nonnegative and the mass derived from them; the speed is capped at MAX_SPEED |
| `Balls.Ball.Default` | Ball.cpp:199-203 | the default ball is at (50, 50) with velocity (50, 50), the default radius and the default density |
| `Balls.DefaultVelocityUnderCap` | Ball.cpp:199-203 | the default velocity (50, 50) is below MAX_SPEED, so the primary constructor keeps it unchanged |
| `Balls.Ball.WithRadius` | Ball.cpp:211-221 | these overloads use the default density |
| `Balls.Ball.OfMaterial` | Ball.cpp:243-271 | the ball gets the density of its material |
| `Balls.Ball.FromPolar` | Ball.cpp:273-298 | the speed is abs(spd) capped at MAX_SPEED |
| `Balls.Ball.FromPolarOfMaterial` | Ball.cpp:300-307 | the ball from speed and angle gets the density of its material |
| `Balls.Ball.CopyAt` | Ball.cpp:309-314 | the copy has the original's radius, density and mass, at the new position, with the speed capped |
| `Balls.Ball.CopyWithVelocity` | Ball.cpp:316-321 | the copy has the original's radius, density and mass, with the given position and capped velocity |
| `Balls.Ball.CopyWithPolar` | Ball.cpp:323-328 | the copy has the original's radius, density and mass, with a velocity from speed and angle |
| `Balls.Ball.Speed` | Ball.cpp:330-334 | the speed is nonnegative and is zero exactly for a ball at rest |
| `Balls.Ball.Heading` | Ball.cpp:335-343 | the heading lies in [0, 360) and is 90 for a ball at rest |
| `Balls.Ball.SetPosition` | Ball.cpp:355-365 | only the position changes |
| `Balls.Ball.SetVelocity` | Ball.cpp:367-379 | the new velocity is capped at MAX_SPEED; nothing else changes |
| `Balls.Ball.SetRadius` | Ball.cpp:381-389 | the radius is clamped and the mass recomputed; density, position and velocity are unchanged |
| `Balls.Ball.SetSpeed` | Ball.cpp:391-400 | the speed becomes abs of the clamped argument, so it is at most MAX_SPEED; a ball at rest gets (0, sp); nothing but the velocity changes |
| `Balls.Ball.SetAngle` | Ball.cpp:402-406 | the velocity is turned and the speed kept |
| `Balls.Ball.CollidesWithBall` | Ball.cpp:408-414 | colliding balls have a positive sum of radii; concentric balls with a positive sum of radii collide |
| `Balls.CollisionIsSymmetric` | Ball.cpp:408-414 | ball/ball collision does not depend on which ball asks |
| `Balls.TouchingIsNotColliding` | Ball.cpp:408-409 | two balls of radius 10 collide at centre distance 19 and only touch, without colliding, at 20 |
| `Balls.Ball.CollidesWithPoint` | Ball.cpp:416-422 | a point can only collide with a ball of positive radius, and always does at its centre |
| `Balls.PointIsZeroRadiusBall` | Ball.cpp:416-417 | point collision is collision with a ball of radius 0 at that point |
| `Balls.Ball.CollidesWithWall` | Ball.cpp:424-442 | a collision places the centre within the wall's rectangle widened by the radius |
| `Balls.ContainedCentreCollides` | Ball.cpp:424-442 | a ball of positive radius whose centre the wall contains collides with it |
| `Balls.ZeroRadiusCollidesInInterior` | Ball.cpp:424-442 | a ball of radius 0 collides exactly when its centre is in the open rectangle of the wall's frame, so touching is not colliding |
| `Balls.Ball.WallBounce` | Ball.cpp:458-489 | the velocity after a wall bounce has the same speed |
| `Balls.Ball.Bounce` | Ball.cpp:444-452 | the velocity is reflected and the speed kept, without a speed cap; nothing else changes |
| `Balls.Ball.BounceOffWall` | Ball.cpp:454-489 | the velocity becomes the wall bounce under `STUTTER_PROTECTION`; without a collision it is unchanged; the speed is kept; position, radius, density and mass never change |
| `Balls.NoCollisionNoBounce` | Ball.cpp:454-456 | when the ball does not collide with the wall, the bounce leaves its velocity alone |
| `Balls.Ball.UpdatePosition` | Ball.cpp:491-499 | the position moves by velocity times dt; nothing else changes |
| `Collisions.ElasticResponse` | Ball.cpp:505-526 | nothing changes for coincident centres, or under stutter protection for balls that are not approaching; each velocity only changes along the line of centres |
| `Collisions.MomentumConserved` | Ball.cpp:501-526 | total momentum `m v1 + n v2` is preserved |
| `Collisions.KineticEnergyConserved` | Ball.cpp:501-526 | total kinetic energy is preserved, so the collision is elastic |
| `Collisions.RelativeVelocityReversed` | Ball.cpp:516-523 | an exchange reverses the component of the relative velocity along the line of centres |
| `Collisions.NoRepeatedExchange` | Ball.cpp:501-518 | with stutter protection, after an exchange the balls separate, and a second call at the same positions changes nothing |
| `Collisions.HeadOnEqualMasses` | Ball.cpp:505-526 | an equal-mass ball at rest, hit head-on, takes over the velocity of the moving ball, which stops |
| `Collisions.Collide` | Ball.cpp:501-526 | both velocities become the elastic response under `STUTTER_PROTECTION`; positions, radii, densities and masses are unchanged |
| `Collisions.CollideWithWall` | Ball.cpp:528-532 | the ball's velocity becomes its wall bounce under `STUTTER_PROTECTION` and its speed is kept |

## Left out

- Rendering: `get_rectangleShape`, `get_circleShape`, `fill_color` and the colour constants are not modelled, and neither is the colour half of the material switch.
- `main.cpp` is not part of this model. It holds the window, event loop, clock and drawing.
- `handle_error` is not modelled. It only returns its argument; `proj` calls it on the `dot(w, w) == 0` path, and `Vectors.Proj` returns `v` there as the source does.
- Floating point: rounding is not modelled, and neither are NaN and infinities.
  - A zero-length wall makes `relative_coordinates` divide by zero. Every member that uses relative coordinates therefore requires `pt1 != pt2`.
  - `collide` divides by `m + n`. `Collisions.ElasticResponse` and `Collisions.Collide` require `m + n != 0` whenever the exchange happens.
- `sf::Time` is a plain `dt: real`. The `virtual` dispatch of `update_position` is not modelled.
- The inline getters of Ball.h:63-67 and Ball.h:117-121 are not separate members. They only read a field, and the fields of the Dafny classes are readable directly.
- `set_magnitude` and `set_vector_angle` are functions that return the new vector, not procedures that overwrite their argument. No aliasing between the argument and other state is modelled.
- Vectors.Angle: the exact degrees of a general direction are not proved. Only the range and the axis cases are, because `atan` is only assumed to have the right sign and to stay inside (-2, 2).
- Walls.ThicknessVectorFor: it is not proved that `v_th` is perpendicular to `v_l`. That needs more trigonometry than `cos² + sin² = 1`.
- Walls.Wall.Translated: it does not state that the copy's `v_th` equals the original's. The copy's `v_th` is recomputed, while the original's may come from an earlier `set_thickness` rescaling.
- Walls.Wall.NearestCorner: it states which of the four corners is returned. It does not prove that this corner is the nearest in distance.
- Vectors.SetVectorAngle: the result is not proved to point at the angle `ang`. That would need `angle(set_vector_angle(v, A)) == A mod 360`, which the assumed laws (`cos² + sin² = 1` and the sign and range of `atan`) cannot give. Only the length is proved.
- Balls.PolarVelocity: likewise, the velocity is not proved to point at `ang`; only its length abs(spd) is proved.
- Balls.Reflected: the reflection angle `2 (ang + 90) - alpha` is not proved to be a geometric mirror image, and bouncing twice is not proved to restore the velocity. Both need the values of `sin` and `cos`, which the model does not assume. Only the speed is proved.
- Balls.Ball.WallBounce: only speed preservation is stated for the bounced velocity. The numeric outcome of a wall bounce depends on the same angle values.
