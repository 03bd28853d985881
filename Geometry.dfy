/** Points of the ground plane and of the world, and the turn test that
    every geometric decision of the shadow-hiding component is built on.
    Coordinates are exact reals; the component itself uses single-precision
    floats. */
module Geometry {

  /** A point of the ground plane. As in the component, `x` is the world x
      and `y` holds the world z. */
  datatype Vector2 = Vector2(x: real, y: real)

  /** A point of the world; `y` is the up axis. */
  datatype Vector3 = Vector3(x: real, y: real, z: real)

  /** The value a freshly allocated vertex array holds in every slot. */
  const ORIGIN: Vector3 := Vector3(0.0, 0.0, 0.0)

  /** The cross product of (p2 - p1) and (p3 - p1): positive when
      p1, p2, p3 turn counter-clockwise, negative when they turn clockwise,
      zero when they are collinear. */
  function Orientation(p1: Vector2, p2: Vector2, p3: Vector2): real
  {
    (p2.x - p1.x) * (p3.y - p1.y) - (p2.y - p1.y) * (p3.x - p1.x)
  }

  /** Drops the up axis: the world point (x, y, z) becomes (x, z). */
  function Flatten(v: Vector3): Vector2
  {
    Vector2(v.x, v.z)
  }

  /** Puts a ground-plane point back into the world at height 0. */
  function Lift(p: Vector2): (v: Vector3)
    ensures v.y == 0.0
    ensures Flatten(v) == p
  {
    Vector3(p.x, 0.0, p.y)
  }

  /** Swapping the last two points reverses the turn. */
  lemma OrientationSwap(p1: Vector2, p2: Vector2, p3: Vector2)
    ensures Orientation(p1, p3, p2) == -Orientation(p1, p2, p3)
  {
  }

  /** Rotating the three points cyclically keeps the turn. */
  lemma OrientationRotate(p1: Vector2, p2: Vector2, p3: Vector2)
    ensures Orientation(p2, p3, p1) == Orientation(p1, p2, p3)
  {
  }

  /** Three points two of which coincide never turn. */
  lemma OrientationOfRepeatedPoint(p1: Vector2, p2: Vector2, p3: Vector2)
    requires p1 == p2 || p2 == p3 || p1 == p3
    ensures Orientation(p1, p2, p3) == 0.0
  {
  }

  /** The sign means what its documentation says: walking from the origin
      along the positive x axis, a point with positive y lies to the left
      (a counter-clockwise turn) and one with negative y to the right. */
  lemma OrientationSign(a: real, p: Vector2)
    requires a > 0.0
    ensures Orientation(Vector2(0.0, 0.0), Vector2(a, 0.0), p) > 0.0 <==> p.y > 0.0
    ensures Orientation(Vector2(0.0, 0.0), Vector2(a, 0.0), p) < 0.0 <==> p.y < 0.0
  {
    assert Orientation(Vector2(0.0, 0.0), Vector2(a, 0.0), p) == a * p.y;
  }

  /** Moving all three points by the same offset keeps the turn, so the sign
      depends only on the shape of the triangle. */
  lemma OrientationTranslate(p1: Vector2, p2: Vector2, p3: Vector2, d: Vector2)
    ensures Orientation(Vector2(p1.x + d.x, p1.y + d.y), Vector2(p2.x + d.x, p2.y + d.y),
                        Vector2(p3.x + d.x, p3.y + d.y))
            == Orientation(p1, p2, p3)
  {
  }
}
