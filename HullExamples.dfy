/** The footprint of an axis-aligned square, 2 by 2, run through the hull builder
    with the upper-pass guard as written at Assets/ShadowHideChecher.cs:213
    and with it corrected. As written, the far corner C is popped when the
    upper pass meets B again (C, B, B do not turn): the hull is the
    triangle A, B, D, and the square's own corner C lies outside it.
    Three collinear points come out as their left end alone, and as their
    two ends with the guard corrected. */
module HullExamples {
  import opened Geometry
  import opened PointOrder
  import opened MonotoneChain
  import opened Containment

  /** The square with corner (x, z) and side 2, on the ground plane. */
  function A(x: real, z: real): Vector2 { Vector2(x, z) }
  function B(x: real, z: real): Vector2 { Vector2(x + 2.0, z) }
  function C(x: real, z: real): Vector2 { Vector2(x + 2.0, z + 2.0) }
  function D(x: real, z: real): Vector2 { Vector2(x, z + 2.0) }

  /** Its corners in the world, counter-clockwise from (x, z). */
  function Square(x: real, z: real): seq<Vector3>
  {
    [Lift(A(x, z)), Lift(B(x, z)), Lift(C(x, z)), Lift(D(x, z))]
  }

  /** Sorting by x, then by z, puts D before B. */
  lemma SquareSorted(x: real, z: real)
    ensures var a, b, c, d := A(x, z), B(x, z), C(x, z), D(x, z);
            SortPoints(FlattenAll(Square(x, z))) == [a, d, b, c]
  {
    var a, b, c, d := A(x, z), B(x, z), C(x, z), D(x, z);
    assert FlattenAll(Square(x, z)) == [a, b, c, d];
    SquareOrder(x, z);
    assert multiset([a, d, b, c]) == multiset([a, b, c, d]);
    SortIsDetermined([a, b, c, d], [a, d, b, c]);
  }

  lemma SquareOrder(x: real, z: real)
    ensures Sorted([A(x, z), D(x, z), B(x, z), C(x, z)])
  {
  }

  /** One step of a pass: the first point of `qs` is pushed after the
      pops, giving `pushed`. */
  lemma ScanPush(hull: seq<Vector2>, floor: nat, qs: seq<Vector2>, pushed: seq<Vector2>)
    requires floor >= 2 && qs != []
    requires PopNonLeftTurns(hull, floor, qs[0]) + [qs[0]] == pushed
    ensures Scan(hull, floor, qs) == Scan(pushed, floor, qs[1..])
  {
  }

  /** The stack keeps its top when there are too few entries to pop or the
      turn to the new point is strictly left. */
  lemma PopNone(hull: seq<Vector2>, floor: nat, p: Vector2)
    requires floor >= 2
    requires |hull| < floor || Orientation(hull[|hull| - 2], hull[|hull| - 1], p) > 0.0
    ensures PopNonLeftTurns(hull, floor, p) == hull
  {
  }

  /** The top is popped when the turn to the new point is not left. */
  lemma PopOne(hull: seq<Vector2>, floor: nat, p: Vector2)
    requires floor >= 2 && |hull| >= floor
    requires Orientation(hull[|hull| - 2], hull[|hull| - 1], p) <= 0.0
    ensures PopNonLeftTurns(hull, floor, p) == PopNonLeftTurns(hull[..|hull| - 1], floor, p)
  {
  }

  /** The turns the two passes test on the square. */
  lemma SquareTurns(x: real, z: real)
    ensures var a, b, c, d := A(x, z), B(x, z), C(x, z), D(x, z);
            && Orientation(a, d, b) < 0.0 && Orientation(a, b, c) > 0.0
            && Orientation(b, c, b) == 0.0 && Orientation(b, b, d) == 0.0
            && Orientation(b, d, a) > 0.0 && Orientation(c, b, d) < 0.0
            && Orientation(c, d, a) > 0.0
  {
    var a, b, c, d := A(x, z), B(x, z), C(x, z), D(x, z);
    OrientationOfSteps(a, d, b, 0.0, 2.0, 2.0, 0.0);
    OrientationOfSteps(a, b, c, 2.0, 0.0, 2.0, 2.0);
    OrientationOfSteps(b, c, b, 0.0, 2.0, 0.0, 0.0);
    OrientationOfSteps(b, b, d, 0.0, 0.0, -2.0, 2.0);
    OrientationOfSteps(b, d, a, -2.0, 2.0, -2.0, 0.0);
    OrientationOfSteps(c, b, d, 0.0, -2.0, -2.0, 0.0);
    OrientationOfSteps(c, d, a, -2.0, 0.0, -2.0, -2.0);
  }

  /** The turn of three points from the steps between them, so that the
      products are of constants. */
  lemma OrientationOfSteps(p1: Vector2, p2: Vector2, p3: Vector2, dx2: real, dy2: real, dx3: real, dy3: real)
    requires p2.x - p1.x == dx2 && p2.y - p1.y == dy2
    requires p3.x - p1.x == dx3 && p3.y - p1.y == dy3
    ensures Orientation(p1, p2, p3) == dx2 * dy3 - dy2 * dx3
  {
  }

  /** The lower pass pops D when B comes and keeps A, B, C. */
  lemma SquareLowerChain(x: real, z: real)
    ensures var a, b, c, d := A(x, z), B(x, z), C(x, z), D(x, z);
            LowerChain([a, d, b, c]) == [a, b, c]
  {
    var a, b, c, d := A(x, z), B(x, z), C(x, z), D(x, z);
    SquareTurns(x, z);
    assert LowerChain([a, d, b, c]) == Scan([], 2, [a, d, b, c]);
    PopNone([], 2, a);
    ScanPush([], 2, [a, d, b, c], [a]);
    PopNone([a], 2, d);
    ScanPush([a], 2, [d, b, c], [a, d]);
    PopOne([a, d], 2, b);
    assert [a, d][..1] == [a];
    PopNone([a], 2, b);
    ScanPush([a, d], 2, [b, c], [a, b]);
    PopNone([a, b], 2, c);
    ScanPush([a, b], 2, [c], [a, b, c]);
  }

  /** The upper pass visits B, D and A. */
  lemma SquareUpperInput(a: Vector2, b: Vector2, c: Vector2, d: Vector2)
    ensures Reverse([a, d, b, c][..3]) == [b, d, a]
  {
    assert [a, d, b, c][..3] == [a, d, b];
  }

  /** As written, the upper pass pops C, the last vertex of the lower chain,
      when B comes, and B again when D comes. */
  lemma SquareChainsAsWritten(x: real, z: real)
    ensures var a, b, c, d := A(x, z), B(x, z), C(x, z), D(x, z);
            MonotoneChain2D([a, d, b, c], false) == [a, b, d]
  {
    var a, b, c, d := A(x, z), B(x, z), C(x, z), D(x, z);
    SquareLowerChain(x, z);
    SquareUpperInput(a, b, c, d);
    SquareTurns(x, z);
    assert BothChains([a, d, b, c], false) == Scan([a, b, c], 3, [b, d, a]);
    PopOne([a, b, c], 3, b);
    assert [a, b, c][..2] == [a, b];
    PopNone([a, b], 3, b);
    ScanPush([a, b, c], 3, [b, d, a], [a, b, b]);
    PopOne([a, b, b], 3, d);
    assert [a, b, b][..2] == [a, b];
    PopNone([a, b], 3, d);
    ScanPush([a, b, b], 3, [d, a], [a, b, d]);
    PopNone([a, b, d], 3, a);
    ScanPush([a, b, d], 3, [a], [a, b, d, a]);
    assert [a, b, d, a][..3] == [a, b, d];
  }

  /** With the guard corrected, C stays and D is pushed after it. */
  lemma SquareChainsCorrected(x: real, z: real)
    ensures var a, b, c, d := A(x, z), B(x, z), C(x, z), D(x, z);
            MonotoneChain2D([a, d, b, c], true) == [a, b, c, d]
  {
    var a, b, c, d := A(x, z), B(x, z), C(x, z), D(x, z);
    SquareLowerChain(x, z);
    SquareUpperInput(a, b, c, d);
    SquareTurns(x, z);
    assert BothChains([a, d, b, c], true) == Scan([a, b, c], 4, [b, d, a]);
    PopNone([a, b, c], 4, b);
    ScanPush([a, b, c], 4, [b, d, a], [a, b, c, b]);
    PopOne([a, b, c, b], 4, d);
    assert [a, b, c, b][..3] == [a, b, c];
    PopNone([a, b, c], 4, d);
    ScanPush([a, b, c, b], 4, [d, a], [a, b, c, d]);
    PopNone([a, b, c, d], 4, a);
    ScanPush([a, b, c, d], 4, [a], [a, b, c, d, a]);
    assert [a, b, c, d, a][..4] == [a, b, c, d];
  }

  /** With the guard as written, the square's hull is the triangle A, B, D:
      it leaves out the corner C, and C is not inside it. */
  lemma SquareAsWritten(x: real, z: real)
    ensures var square := Square(x, z);
            HullAsWritten(square) == [square[0], square[1], square[3]]
    ensures Square(x, z)[2] !in HullAsWritten(Square(x, z))
    ensures !PointInside(Square(x, z)[2], HullAsWritten(Square(x, z)))
  {
    var a, b, c, d := A(x, z), B(x, z), C(x, z), D(x, z);
    SquareSorted(x, z);
    SquareChainsAsWritten(x, z);
    LiftThree(a, b, d);
    CornerOutsideTriangle(x, z);
  }

  /** C is not a vertex of the triangle, and it is strictly on the right
      of the edge from B to D. */
  lemma CornerOutsideTriangle(x: real, z: real)
    ensures var triangle := [Lift(A(x, z)), Lift(B(x, z)), Lift(D(x, z))];
            Lift(C(x, z)) !in triangle && !LeftOfEdge(triangle, 1, Lift(C(x, z)))
  {
    assert (1 + 1) % 3 == 2;
  }

  /** With the guard corrected, the square's hull is the square itself,
      counter-clockwise, and every corner is inside or on it. */
  lemma SquareCorrected(x: real, z: real)
    ensures HullOf(Square(x, z)) == Square(x, z)
    ensures VerticesInside(Square(x, z), HullOf(Square(x, z)))
  {
    var a, b, c, d := A(x, z), B(x, z), C(x, z), D(x, z);
    SquareSorted(x, z);
    SquareChainsCorrected(x, z);
    LiftFour(a, b, c, d);
    CornersInsideSquare(x, z);
  }

  lemma CornersInsideSquare(x: real, z: real)
    ensures VerticesInside(Square(x, z), Square(x, z))
  {
    var square := Square(x, z);
    SquareContains(x, z, square[0]);
    SquareContains(x, z, square[1]);
    SquareContains(x, z, square[2]);
    SquareContains(x, z, square[3]);
  }

  lemma LiftThree(p: Vector2, q: Vector2, r: Vector2)
    ensures LiftAll([p, q, r]) == [Lift(p), Lift(q), Lift(r)]
  {
  }

  lemma LiftFour(p: Vector2, q: Vector2, r: Vector2, t: Vector2)
    ensures LiftAll([p, q, r, t]) == [Lift(p), Lift(q), Lift(r), Lift(t)]
  {
  }

  /** Every point of the closed square, at any height, is inside its
      outline. */
  lemma SquareContains(x: real, z: real, point: Vector3)
    requires x <= point.x <= x + 2.0 && z <= point.z <= z + 2.0
    ensures PointInside(point, Square(x, z))
  {
    var square := Square(x, z);
    var p := Flatten(point);
    assert (0 + 1) % 4 == 1 && (1 + 1) % 4 == 2 && (2 + 1) % 4 == 3 && (3 + 1) % 4 == 0;
    OrientationOfSteps(A(x, z), B(x, z), p, 2.0, 0.0, p.x - x, p.y - z);
    OrientationOfSteps(B(x, z), C(x, z), p, 0.0, 2.0, p.x - x - 2.0, p.y - z);
    OrientationOfSteps(C(x, z), D(x, z), p, -2.0, 0.0, p.x - x - 2.0, p.y - z - 2.0);
    OrientationOfSteps(D(x, z), A(x, z), p, 0.0, -2.0, p.x - x, p.y - z - 2.0);
    assert LeftOfEdge(square, 0, point) && LeftOfEdge(square, 1, point);
    assert LeftOfEdge(square, 2, point) && LeftOfEdge(square, 3, point);
  }

  /** Three collinear points (x, z), (x + 1, z), (x + 2, z), on the ground
      plane. */
  function Line(x: real, z: real): seq<Vector3>
  {
    [Lift(A(x, z)), Lift(Vector2(x + 1.0, z)), Lift(B(x, z))]
  }

  /** Every turn the two passes test on the line is 0. */
  lemma LineTurns(x: real, z: real)
    ensures var p, q, r := A(x, z), Vector2(x + 1.0, z), B(x, z);
            && Orientation(p, q, r) == 0.0 && Orientation(p, r, q) == 0.0
            && Orientation(p, q, p) == 0.0 && Orientation(r, q, p) == 0.0
  {
    var p, q, r := A(x, z), Vector2(x + 1.0, z), B(x, z);
    OrientationOfSteps(p, q, r, 1.0, 0.0, 2.0, 0.0);
    OrientationOfSteps(p, r, q, 2.0, 0.0, 1.0, 0.0);
    OrientationOfRepeatedPoint(p, q, p);
    OrientationOfSteps(r, q, p, -1.0, 0.0, -2.0, 0.0);
  }

  /** The points of the line are already sorted. */
  lemma LineSorted(x: real, z: real)
    ensures var p, q, r := A(x, z), Vector2(x + 1.0, z), B(x, z);
            SortPoints(FlattenAll(Line(x, z))) == [p, q, r]
  {
    var p, q, r := A(x, z), Vector2(x + 1.0, z), B(x, z);
    assert FlattenAll(Line(x, z)) == [p, q, r];
    assert Sorted([p, q, r]);
    SortIsDetermined([p, q, r], [p, q, r]);
  }

  /** The lower pass pops the middle point and keeps the two ends. */
  lemma LineLowerChain(x: real, z: real)
    ensures var p, q, r := A(x, z), Vector2(x + 1.0, z), B(x, z);
            LowerChain([p, q, r]) == [p, r]
  {
    var p, q, r := A(x, z), Vector2(x + 1.0, z), B(x, z);
    LineTurns(x, z);
    assert LowerChain([p, q, r]) == Scan([], 2, [p, q, r]);
    PopNone([], 2, p);
    ScanPush([], 2, [p, q, r], [p]);
    PopNone([p], 2, q);
    ScanPush([p], 2, [q, r], [p, q]);
    PopOne([p, q], 2, r);
    assert [p, q][..1] == [p];
    PopNone([p], 2, r);
    ScanPush([p, q], 2, [r], [p, r]);
  }

  /** As written, the upper pass pops the right end, and the line comes out
      as its left end alone. */
  lemma LineChainsAsWritten(x: real, z: real)
    ensures var p, q, r := A(x, z), Vector2(x + 1.0, z), B(x, z);
            MonotoneChain2D([p, q, r], false) == [p]
  {
    var p, q, r := A(x, z), Vector2(x + 1.0, z), B(x, z);
    LineLowerChain(x, z);
    LineTurns(x, z);
    assert [p, q, r][..2] == [p, q];
    assert Reverse([p, q]) == [q, p];
    assert BothChains([p, q, r], false) == Scan([p, r], 2, [q, p]);
    PopOne([p, r], 2, q);
    assert [p, r][..1] == [p];
    PopNone([p], 2, q);
    ScanPush([p, r], 2, [q, p], [p, q]);
    PopOne([p, q], 2, p);
    assert [p, q][..1] == [p];
    PopNone([p], 2, p);
    ScanPush([p, q], 2, [p], [p, p]);
    assert [p, p][..1] == [p];
  }

  /** Corrected, the line comes out as its two ends. */
  lemma LineChainsCorrected(x: real, z: real)
    ensures var p, q, r := A(x, z), Vector2(x + 1.0, z), B(x, z);
            MonotoneChain2D([p, q, r], true) == [p, r]
  {
    var p, q, r := A(x, z), Vector2(x + 1.0, z), B(x, z);
    LineLowerChain(x, z);
    LineTurns(x, z);
    assert [p, q, r][..2] == [p, q];
    assert Reverse([p, q]) == [q, p];
    assert BothChains([p, q, r], true) == Scan([p, r], 3, [q, p]);
    PopNone([p, r], 3, q);
    ScanPush([p, r], 3, [q, p], [p, r, q]);
    PopOne([p, r, q], 3, p);
    assert [p, r, q][..2] == [p, r];
    PopNone([p, r], 3, p);
    ScanPush([p, r, q], 3, [p], [p, r, p]);
    assert [p, r, p][..2] == [p, r];
  }

  /** As written, three collinear points give their left end alone. */
  lemma LineHullAsWritten(x: real, z: real)
    ensures HullAsWritten(Line(x, z)) == [Lift(A(x, z))]
  {
    LineSorted(x, z);
    LineChainsAsWritten(x, z);
    LiftOne(A(x, z));
  }

  /** Corrected, three collinear points give their two ends. */
  lemma LineHullCorrected(x: real, z: real)
    ensures HullOf(Line(x, z)) == [Lift(A(x, z)), Lift(B(x, z))]
  {
    LineSorted(x, z);
    LineChainsCorrected(x, z);
    LiftTwo(A(x, z), B(x, z));
  }

  lemma LiftOne(p: Vector2)
    ensures LiftAll([p]) == [Lift(p)]
  {
  }

  lemma LiftTwo(p: Vector2, q: Vector2)
    ensures LiftAll([p, q]) == [Lift(p), Lift(q)]
  {
  }
}
