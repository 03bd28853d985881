/** The containment test of the shadow-hiding component
    (Assets/ShadowHideChecher.cs:231-268): a point is inside the hull, or on
    its boundary, when it lies on the left of, or on, every edge from a hull
    vertex to the next one, the last edge closing back to the first vertex.
    Hulls of fewer than three vertices are not treated specially. */
module Containment {
  import opened Geometry

  /** The point lies on the left of, or on, edge `i` of the hull. */
  predicate LeftOfEdge(hull: seq<Vector3>, i: nat, point: Vector3)
    requires i < |hull|
  {
    Orientation(Flatten(hull[i]), Flatten(hull[(i + 1) % |hull|]), Flatten(point)) >= 0.0
  }

  /** The meaning of IsPointInside. */
  predicate PointInside(point: Vector3, hull: seq<Vector3>)
  {
    forall i :: 0 <= i < |hull| ==> LeftOfEdge(hull, i, point)
  }

  /** The meaning of IsVerticesInside. */
  predicate VerticesInside(points: seq<Vector3>, hull: seq<Vector3>)
  {
    forall j :: 0 <= j < |points| ==> PointInside(points[j], hull)
  }

  /** Lines 250-268: walks the edges and answers false at the first one the
      point lies strictly to the right of. */
  method IsPointInside(pointToCheck: Vector3, convexHullVertices: array<Vector3>) returns (inside: bool)
    ensures inside <==> PointInside(pointToCheck, convexHullVertices[..])
    ensures !inside <==> exists i :: 0 <= i < convexHullVertices.Length &&
                           !LeftOfEdge(convexHullVertices[..], i, pointToCheck)
  {
    var point2D := Flatten(pointToCheck);
    var n := convexHullVertices.Length;
    for i := 0 to n
      invariant forall k :: 0 <= k < i ==> LeftOfEdge(convexHullVertices[..], k, pointToCheck)
    {
      var p1 := Flatten(convexHullVertices[i]);
      var p2 := Flatten(convexHullVertices[(i + 1) % n]);
      if Orientation(p1, p2, point2D) < 0.0 {
        assert !LeftOfEdge(convexHullVertices[..], i, pointToCheck);
        return false;
      }
    }
    return true;
  }

  /** Lines 235-244: answers false at the first point that is not inside,
      true when every point is (and so for no points at all). */
  method IsVerticesInside(verticesToCheck: array<Vector3>, convexVertices: array<Vector3>) returns (allInside: bool)
    ensures allInside <==> VerticesInside(verticesToCheck[..], convexVertices[..])
  {
    for i := 0 to verticesToCheck.Length
      invariant forall k :: 0 <= k < i ==> PointInside(verticesToCheck[k], convexVertices[..])
    {
      var isInside := IsPointInside(verticesToCheck[i], convexVertices);
      if !isInside {
        return false;
      }
    }
    return true;
  }

  /** A hull whose vertices all lie over one ground point (no vertex, one
      vertex, or copies of one) has no edge a point can be strictly on the
      right of, so every point is inside it. */
  lemma CollapsedHullContainsEverything(point: Vector3, hull: seq<Vector3>)
    requires forall i :: 0 <= i < |hull| ==> Flatten(hull[i]) == Flatten(hull[0])
    ensures PointInside(point, hull)
  {
    forall i | 0 <= i < |hull|
      ensures LeftOfEdge(hull, i, point)
    {
      var q := Flatten(hull[0]);
      OrientationOfRepeatedPoint(q, q, Flatten(point));
    }
  }

  /** The test does not depend on which vertex the hull starts with: a
      rotated hull contains the same points. */
  lemma PointInsideRotated(point: Vector3, hull: seq<Vector3>, k: nat)
    requires k <= |hull|
    ensures PointInside(point, hull[k..] + hull[..k]) <==> PointInside(point, hull)
  {
    var n := |hull|;
    var rotated := hull[k..] + hull[..k];
    if PointInside(point, hull) {
      forall i | 0 <= i < n
        ensures LeftOfEdge(rotated, i, point)
      {
        RotatedEdge(point, hull, k, i);
      }
    }
    if PointInside(point, rotated) {
      forall j | 0 <= j < n
        ensures LeftOfEdge(hull, j, point)
      {
        var i := (j + n - k) % n;
        ModuloShift(j, k, n);
        RotatedEdge(point, hull, k, i);
      }
    }
  }

  /** Edge i of the rotated hull is edge (i + k) % n of the original. */
  lemma RotatedEdge(point: Vector3, hull: seq<Vector3>, k: nat, i: nat)
    requires k <= |hull| && i < |hull|
    ensures LeftOfEdge(hull[k..] + hull[..k], i, point) <==> LeftOfEdge(hull, (i + k) % |hull|, point)
  {
    var n := |hull|;
    RotatedVertex(hull, k, i);
    RotatedVertex(hull, k, (i + 1) % n);
    ModuloStep(i, k, n);
  }

  /** Vertex i of the rotated hull is vertex (i + k) % n of the original. */
  lemma RotatedVertex(hull: seq<Vector3>, k: nat, i: nat)
    requires k <= |hull| && i < |hull|
    ensures (hull[k..] + hull[..k])[i] == hull[(i + k) % |hull|]
  {
    ModuloBelowTwice(i + k, |hull|);
  }

  /** The successor of vertex i of the rotated hull is the successor of its
      vertex in the original hull. */
  lemma ModuloStep(i: nat, k: nat, n: nat)
    requires 0 <= i < n && k <= n
    ensures ((i + 1) % n + k) % n == ((i + k) % n + 1) % n
  {
    ModuloBelowTwice(i + 1, n);
    ModuloBelowTwice(i + k, n);
    ModuloBelowTwice((i + 1) % n + k, n);
    ModuloBelowTwice((i + k) % n + 1, n);
  }

  /** Vertex j of the original hull is vertex (j + n - k) % n of the
      rotated one. */
  lemma ModuloShift(j: nat, k: nat, n: nat)
    requires 0 <= j < n && k <= n
    ensures ((j + n - k) % n + k) % n == j
  {
    ModuloBelowTwice(j + n - k, n);
    ModuloBelowTwice((j + n - k) % n + k, n);
  }

  /** The remainder of a number below twice the divisor. */
  lemma ModuloBelowTwice(x: int, n: int)
    requires 0 <= x < 2 * n
    ensures x % n == if x < n then x else x - n
  {
    if x < n {
      assert x == 0 * n + x;
    } else {
      assert x == 1 * n + (x - n);
    }
  }
}
