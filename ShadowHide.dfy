/** The shadow-hiding component (Assets/ShadowHideChecher.cs:5-165): it keeps
    the caster's vertices in world coordinates, drops a ray from each along
    the light's direction to find the shadow, takes the convex hull of the
    shadow on the ground plane and decides whether every vertex of the
    target lies inside it. */
module ShadowHide {
  import opened Geometry
  import opened Engine
  import opened MonotoneChain
  import opened Containment

  /** Every vertex transformed by the matrix. */
  function TransformAll(vertices: seq<Vector3>, matrix: Matrix4x4, ops: MatrixOps): (r: seq<Vector3>)
    ensures |r| == |vertices|
  {
    seq(|vertices|, i requires 0 <= i < |vertices| => ops.multiplyPoint3x4(matrix, vertices[i]))
  }

  /** The matrix that carries points placed by `prevMatrix` to where
      `currentMatrix` places them. */
  function UpdateMatrix(currentMatrix: Matrix4x4, prevMatrix: Matrix4x4, ops: MatrixOps): Matrix4x4
  {
    ops.multiply(currentMatrix, ops.inverse(prevMatrix))
  }

  /** Where the shadow of a vertex falls: the point the ray from it along
      the light's direction hits, and the origin when the ray hits nothing,
      as a fresh array slot that is never written holds the origin. */
  function ShadowPoint(hit: RaycastHit): Vector3
  {
    match hit
    case Hit(point) => point
    case Miss => ORIGIN
  }

  /** The shadow of every vertex. */
  function ShadowPoints(castVertices: seq<Vector3>, lightAngles: Vector3, raycast: Raycast): (r: seq<Vector3>)
    ensures |r| == |castVertices|
  {
    seq(|castVertices|, i requires 0 <= i < |castVertices| => ShadowPoint(raycast(castVertices[i], lightAngles)))
  }

  /** Lines 133-138 and 145-152 together: placing the vertices by one matrix
      and then moving them by the update matrix places them by the current
      matrix, provided the inverse of the snapshot matrix undoes it and the
      product formed at line 136 applies as its two factors in turn (true
      when that inverse is affine). Only then may the component keep
      transforming the same array frame after frame. After a snapshot at
      zero scale the snapshot matrix is singular: the vertices have
      collapsed, and no later frame restores them. */
  lemma UpdateKeepsWorldPlacement(mesh: seq<Vector3>, prevMatrix: Matrix4x4, currentMatrix: Matrix4x4, ops: MatrixOps)
    requires AppliesAsProduct(ops, currentMatrix, ops.inverse(prevMatrix))
    requires InvertedBy(ops, prevMatrix)
    ensures TransformAll(TransformAll(mesh, prevMatrix, ops), UpdateMatrix(currentMatrix, prevMatrix, ops), ops)
            == TransformAll(mesh, currentMatrix, ops)
  {
    var placed := TransformAll(mesh, prevMatrix, ops);
    var moved := TransformAll(placed, UpdateMatrix(currentMatrix, prevMatrix, ops), ops);
    forall i | 0 <= i < |mesh|
      ensures moved[i] == TransformAll(mesh, currentMatrix, ops)[i]
    {
      calc {
        moved[i];
        ops.multiplyPoint3x4(ops.multiply(currentMatrix, ops.inverse(prevMatrix)), placed[i]);
        ops.multiplyPoint3x4(currentMatrix, ops.multiplyPoint3x4(ops.inverse(prevMatrix),
                                                                 ops.multiplyPoint3x4(prevMatrix, mesh[i])));
        ops.multiplyPoint3x4(currentMatrix, mesh[i]);
      }
    }
  }

  /** Every vertex of the hull of the shadow is, on the ground plane, the
      point some ray hit, or the origin that a missed ray leaves behind. */
  lemma ShadowHullComesFromHits(castVertices: seq<Vector3>, lightAngles: Vector3, raycast: Raycast, corrected: bool)
    ensures forall v :: v in Hull(ShadowPoints(castVertices, lightAngles, raycast), corrected) ==>
              v == ORIGIN ||
              exists i :: 0 <= i < |castVertices| && raycast(castVertices[i], lightAngles).Hit? &&
                          v == Lift(Flatten(raycast(castVertices[i], lightAngles).point))
  {
    var shadow := ShadowPoints(castVertices, lightAngles, raycast);
    HullComesFromInput(shadow, corrected);
    forall v | v in Hull(shadow, corrected)
      ensures v == ORIGIN ||
              exists i :: 0 <= i < |castVertices| && raycast(castVertices[i], lightAngles).Hit? &&
                          v == Lift(Flatten(raycast(castVertices[i], lightAngles).point))
    {
      var u :| u in shadow && v == Lift(Flatten(u));
      var i :| 0 <= i < |shadow| && shadow[i] == u;
      if raycast(castVertices[i], lightAngles).Miss? {
        assert v == Lift(Flatten(ORIGIN)) == ORIGIN;
      }
    }
  }

  /** When no ray hits anything, every shadow point is the origin, and so is
      every vertex of the hull, with either guard, which then contains every
      target point: the target counts as hidden wherever it is. */
  lemma AllMissesHideEverything(castVertices: seq<Vector3>, lightAngles: Vector3, raycast: Raycast, corrected: bool)
    requires |castVertices| >= 1
    requires forall i :: 0 <= i < |castVertices| ==> raycast(castVertices[i], lightAngles) == Miss
    ensures var hull := Hull(ShadowPoints(castVertices, lightAngles, raycast), corrected);
            hull != [] && (forall v :: v in hull ==> v == ORIGIN) &&
            forall targetVertices :: VerticesInside(targetVertices, hull)
  {
    var hull := Hull(ShadowPoints(castVertices, lightAngles, raycast), corrected);
    AllMissesCollapseHull(castVertices, lightAngles, raycast, corrected);
    forall targetVertices: seq<Vector3>
      ensures VerticesInside(targetVertices, hull)
    {
      forall j | 0 <= j < |targetVertices|
        ensures PointInside(targetVertices[j], hull)
      {
        CollapsedHullContainsEverything(targetVertices[j], hull);
      }
    }
  }

  /** When no ray hits anything, the hull is the origin, once or twice. */
  lemma AllMissesCollapseHull(castVertices: seq<Vector3>, lightAngles: Vector3, raycast: Raycast, corrected: bool)
    requires |castVertices| >= 1
    requires forall i :: 0 <= i < |castVertices| ==> raycast(castVertices[i], lightAngles) == Miss
    ensures var hull := Hull(ShadowPoints(castVertices, lightAngles, raycast), corrected);
            1 <= |hull| <= 2 && forall i :: 0 <= i < |hull| ==> hull[i] == ORIGIN
  {
    var shadow := ShadowPoints(castVertices, lightAngles, raycast);
    assert forall i :: 0 <= i < |shadow| ==> shadow[i] == ORIGIN;
    assert Lift(Flatten(ORIGIN)) == ORIGIN;
    if corrected {
      HullOfRepeatedPoint(shadow);
    } else {
      HullAsWrittenOfRepeatedPoint(shadow);
    }
  }

  /** The component attached to a scene, with the state it keeps from one
      frame to the next. The caster's and the target's meshes, the light's
      direction and the engine's matrix operations are given once, at Start. */
  class ShadowHideManager {
    /** The engine's matrix operations. */
    const ops: MatrixOps

    /** Which guard the hull builder uses at line 213: false for the code
        as written, true for the corrected one (see MonotoneChain). */
    const guardCorrected: bool

    /** The direction of the light, read once at Start. */
    var lightAngles: Vector3

    /** The caster's vertices in world coordinates. */
    var casterVertices: array<Vector3>

    /** The computed shadow of each caster vertex. */
    var shadowVertices: array<Vector3>

    /** The convex hull of the shadow; null until the first recomputation. */
    var convexVertices: array?<Vector3>

    /** The caster's transform at the last recomputation. */
    var casterTempPosition: Vector3
    var casterTempQuaternion: Quaternion
    var casterTempScale: Vector3
    var casterTempMatrix: Matrix4x4

    /** The target's vertices in world coordinates, as they were at Start. */
    var targetVertices: array<Vector3>

    /** Whether the target hides in the shadow. */
    var isHide: bool

    /** The hull is that of the current shadow, and the verdict is that of
        the target against the hull; before the first hull, the verdict is
        false. */
    ghost predicate VerdictCurrent()
      reads this`shadowVertices, this`convexVertices, this`targetVertices, this`isHide
      reads shadowVertices, convexVertices, targetVertices
    {
      && (convexVertices == null ==> !isHide)
      && (convexVertices != null ==>
            && convexVertices[..] == Hull(shadowVertices[..], guardCorrected)
            && isHide == VerticesInside(targetVertices[..], convexVertices[..]))
    }

    ghost predicate Valid()
      reads this, casterVertices, shadowVertices, convexVertices, targetVertices
    {
      && casterVertices != targetVertices
      && shadowVertices.Length == casterVertices.Length
      && VerdictCurrent()
    }

    /** Start (lines 61-77): reads the light's direction, places both meshes
        in the world and takes the caster's transform as the first snapshot.
        The meshes are given with their duplicate vertices already removed,
        and `corrected` chooses the guard the hull builder uses. */
    constructor Start(lightForward: Vector3, caster: Transform, casterMeshVertices: seq<Vector3>,
                      target: Transform, targetMeshVertices: seq<Vector3>, matrixOps: MatrixOps,
                      corrected: bool)
      ensures Valid()
      ensures fresh(casterVertices) && fresh(shadowVertices) && fresh(targetVertices)
      ensures ops == matrixOps && guardCorrected == corrected && lightAngles == lightForward
      ensures casterVertices[..] == TransformAll(casterMeshVertices, caster.localToWorldMatrix, matrixOps)
      ensures targetVertices[..] == TransformAll(targetMeshVertices, target.localToWorldMatrix, matrixOps)
      ensures shadowVertices[..] == seq(casterVertices.Length, _ => ORIGIN)
      ensures convexVertices == null && !isHide
      ensures casterTempPosition == caster.position && casterTempQuaternion == caster.rotation
      ensures casterTempScale == caster.lossyScale && casterTempMatrix == caster.localToWorldMatrix
    {
      ops := matrixOps;
      guardCorrected := corrected;
      lightAngles := lightForward;
      var casterPlaced := GetMeshVertices(casterMeshVertices, caster.localToWorldMatrix, matrixOps);
      var targetPlaced := GetMeshVertices(targetMeshVertices, target.localToWorldMatrix, matrixOps);
      casterVertices := casterPlaced;
      targetVertices := targetPlaced;
      shadowVertices := new Vector3[casterPlaced.Length](_ => ORIGIN);
      convexVertices := null;
      casterTempPosition := caster.position;
      casterTempQuaternion := caster.rotation;
      casterTempScale := caster.lossyScale;
      casterTempMatrix := caster.localToWorldMatrix;
      isHide := false;
    }

    /** The caster has not moved, turned or been rescaled since the snapshot. */
    predicate Unmoved(caster: Transform)
      reads this
    {
      && casterTempPosition == caster.position
      && casterTempQuaternion == caster.rotation
      && casterTempScale == caster.lossyScale
    }

    /** Update (lines 79-114), once per frame. Unless the caster has moved,
        turned or been rescaled, or this is the first frame, nothing changes.
        Otherwise the caster's vertices follow it, the shadow, its hull and
        the verdict are recomputed, and the caster's transform becomes the
        snapshot. The target's vertices are never re-read, so the verdict
        does not follow a target that moves on its own. */
    method Update(caster: Transform, isFirstFrame: bool, raycast: Raycast)
      requires Valid()
      modifies this, casterVertices
      ensures Valid()
      ensures casterVertices == old(casterVertices) && targetVertices == old(targetVertices)
      ensures targetVertices[..] == old(targetVertices[..])
      ensures lightAngles == old(lightAngles)
      ensures old(Unmoved(caster)) && !isFirstFrame ==>
                unchanged(this) && casterVertices[..] == old(casterVertices[..])
      ensures !(old(Unmoved(caster)) && !isFirstFrame) ==>
                && casterVertices[..] == TransformAll(old(casterVertices[..]),
                                                      UpdateMatrix(caster.localToWorldMatrix, old(casterTempMatrix), ops), ops)
                && fresh(shadowVertices)
                && shadowVertices[..] == ShadowPoints(casterVertices[..], lightAngles, raycast)
                && convexVertices != null && fresh(convexVertices)
                && convexVertices[..] == Hull(shadowVertices[..], guardCorrected)
                && isHide == VerticesInside(targetVertices[..], convexVertices[..])
                && Unmoved(caster) && casterTempMatrix == caster.localToWorldMatrix
    {
      if Unmoved(caster) && !isFirstFrame {
        return;
      }
      Recompute(caster, raycast);
    }

    /** Lines 86-113: the work Update does when the caster has changed. */
    method Recompute(caster: Transform, raycast: Raycast)
      requires casterVertices != targetVertices
      modifies this, casterVertices
      ensures Valid()
      ensures casterVertices == old(casterVertices) && targetVertices == old(targetVertices)
      ensures targetVertices[..] == old(targetVertices[..])
      ensures lightAngles == old(lightAngles)
      ensures casterVertices[..] == TransformAll(old(casterVertices[..]),
                                                 UpdateMatrix(caster.localToWorldMatrix, old(casterTempMatrix), ops), ops)
      ensures fresh(shadowVertices)
      ensures shadowVertices[..] == ShadowPoints(casterVertices[..], lightAngles, raycast)
      ensures convexVertices != null && fresh(convexVertices)
      ensures convexVertices[..] == Hull(shadowVertices[..], guardCorrected)
      ensures isHide == VerticesInside(targetVertices[..], convexVertices[..])
      ensures Unmoved(caster) && casterTempMatrix == caster.localToWorldMatrix
    {
      ghost var targetSeq := targetVertices[..];
      casterVertices := UpdateVertices(caster, casterVertices, casterTempMatrix);
      assert targetVertices[..] == targetSeq;
      ghost var casterSeq := casterVertices[..];
      RefreshVerdict(raycast);
      TakeSnapshot(caster);
      assert casterVertices[..] == casterSeq;
      assert targetVertices[..] == targetSeq;
    }

    /** Lines 110-113: the caster's transform becomes the snapshot. */
    method TakeSnapshot(caster: Transform)
      modifies this`casterTempPosition, this`casterTempQuaternion, this`casterTempScale, this`casterTempMatrix
      ensures Unmoved(caster) && casterTempMatrix == caster.localToWorldMatrix
    {
      casterTempPosition := caster.position;
      casterTempQuaternion := caster.rotation;
      casterTempScale := caster.lossyScale;
      casterTempMatrix := caster.localToWorldMatrix;
    }

    /** Lines 92-110: the shadow of the caster's vertices, its hull and the
        target's verdict against it, each in a new array. */
    method RefreshVerdict(raycast: Raycast)
      modifies this`shadowVertices, this`convexVertices, this`isHide
      ensures fresh(shadowVertices)
      ensures shadowVertices[..] == ShadowPoints(casterVertices[..], lightAngles, raycast)
      ensures convexVertices != null && fresh(convexVertices)
      ensures convexVertices[..] == Hull(shadowVertices[..], guardCorrected)
      ensures isHide == VerticesInside(targetVertices[..], convexVertices[..])
    {
      var shadow := UpdateShadowVertices(casterVertices, raycast);
      var hull := FindConvexHull(shadow, guardCorrected);
      var hidden := IsVerticesInside(targetVertices, hull);
      ghost var shadowSeq, hullSeq := shadow[..], hull[..];
      shadowVertices, convexVertices, isHide := shadow, hull, hidden;
      assert shadowVertices[..] == shadowSeq;
      assert convexVertices[..] == hullSeq;
    }

    /** GetMeshVertices (lines 119-128): the mesh's vertices placed in the
        world by the object's local-to-world matrix, in a new array. */
    static method GetMeshVertices(meshVertices: seq<Vector3>, localToWorld: Matrix4x4, matrixOps: MatrixOps)
      returns (vertices: array<Vector3>)
      ensures fresh(vertices)
      ensures vertices[..] == TransformAll(meshVertices, localToWorld, matrixOps)
    {
      var local := new Vector3[|meshVertices|](i requires 0 <= i < |meshVertices| => meshVertices[i]);
      vertices := TransformVertices(local, localToWorld, matrixOps);
    }

    /** UpdateVertices (lines 133-138): moves the vertices, in place, from
        where the previous matrix put them to where the caster's current
        matrix puts them. */
    method UpdateVertices(caster: Transform, vertices: array<Vector3>, prevMatrix: Matrix4x4)
      returns (r: array<Vector3>)
      modifies vertices
      ensures r == vertices
      ensures vertices[..] == TransformAll(old(vertices[..]), UpdateMatrix(caster.localToWorldMatrix, prevMatrix, ops), ops)
    {
      var updateMatrix := ops.multiply(caster.localToWorldMatrix, ops.inverse(prevMatrix));
      r := TransformVertices(vertices, updateMatrix, ops);
    }

    /** TransformVertices (lines 145-152): overwrites every vertex with its
        transform and hands back the same array. */
    static method TransformVertices(vertices: array<Vector3>, matrix: Matrix4x4, matrixOps: MatrixOps)
      returns (r: array<Vector3>)
      modifies vertices
      ensures r == vertices
      ensures vertices[..] == TransformAll(old(vertices[..]), matrix, matrixOps)
    {
      for i := 0 to vertices.Length
        invariant vertices[..i] == TransformAll(old(vertices[..]), matrix, matrixOps)[..i]
        invariant vertices[i..] == old(vertices[..])[i..]
      {
        vertices[i] := matrixOps.multiplyPoint3x4(matrix, vertices[i]);
        assert vertices[..i + 1] == vertices[..i] + [vertices[i]];
      }
      return vertices;
    }

    /** UpdateShadowVertices (lines 158-166): a new array holding, for each
        vertex, the point the ray from it along the light's direction hits;
        a slot whose ray hits nothing keeps the origin it was created with. */
    method UpdateShadowVertices(castVertices: array<Vector3>, raycast: Raycast) returns (hitPoints: array<Vector3>)
      ensures fresh(hitPoints)
      ensures hitPoints[..] == ShadowPoints(castVertices[..], lightAngles, raycast)
    {
      hitPoints := new Vector3[castVertices.Length](_ => ORIGIN);
      for i := 0 to castVertices.Length
        invariant hitPoints[..i] == ShadowPoints(castVertices[..], lightAngles, raycast)[..i]
        invariant forall k :: i <= k < hitPoints.Length ==> hitPoints[k] == ORIGIN
      {
        var hit := raycast(castVertices[i], lightAngles);
        if hit.Hit? {
          hitPoints[i] := hit.point;
        }
        assert hitPoints[..i + 1] == hitPoints[..i] + [hitPoints[i]];
      }
    }
  }
}
