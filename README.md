# Shadow hide checker: a Dafny model

This project models the geometry at the heart of the Unity script
`Assets/ShadowHideChecher.cs`. The script has a shadow-casting object
(the caster), a light and a target object. Each time the caster moves,
turns or is rescaled, the script does four things:

- it moves the caster's vertices to their new world positions;
- it casts a ray from every vertex along the light's direction and keeps
  the hit points as the shadow;
- it builds the convex hull of the shadow on the ground plane with
  Andrew's monotone chain;
- it decides whether every vertex of the target lies inside that hull.

The model is in seven modules:

- `Geometry`: points of the ground plane and of the world, the turn test
  `Orientation`, and the projection to the ground plane and back.
- `PointOrder`: the x-then-z comparison handed to the sort, and the
  sorted list it yields.
- `MonotoneChain`: the hull builder. `FindConvexHull` is a method over
  arrays whose passes run on a sequence used as a stack. Each is proved
  equal to a specification function, and the properties of the hull are
  lemmas about those functions.
- `Containment`: the half-plane test of one point and of a list of
  points.
- `Engine`: what the script takes from the engine. These are transforms,
  the matrix operations and the ray cast, handed in as functions, and an
  exact model of Unity's matrix product and point transform that shows
  when the matrix law the incremental update needs holds.
- `ShadowHide`: the component as a class whose fields are the script's
  fields. `Start` is its constructor and `Update` its per-frame method.
  The helpers that fill or overwrite arrays are methods with loops.
- `HullExamples`: a square and three collinear points, which show the
  effect of the guard at line 213.

The guard of the upper pass at line 213, `Count >= lowerHullCount`, pops
while the stack holds at least `lowerHullCount` entries, so the stack can
go down to `lowerHullCount - 1` entries. Andrew's `Count > lowerHullCount`
stops at `lowerHullCount`. So the upper pass as written can pop the last
vertex of the lower chain, which is the rightmost point. The hull builder and the component therefore take a flag
`corrected`.

- With `false`, they do what the code as written does (`HullAsWritten`).
- With `true`, line 213 reads `Count > lowerHullCount` (`HullOf`).

Each general property below is proved for the guard as written, for
the corrected guard, or for both, and its row says which. The corrected
guard is Andrew's `Count > lowerHullCount`. It keeps the rightmost
point, which the comment at line 208 expects to end the lower chain.

Coordinates are exact reals. The ray cast and the matrix operations are
parameters, and nothing in the model does input or output.

Three edge cases of the code are stated as lemmas:

- A hull with no vertex, or one vertex, contains every point.
  `IsPointInside` has no special case for them: an empty hull has no
  edges, and the edge of a one-vertex hull from its vertex to itself
  never has a point strictly on its right.
- A ray that hits nothing leaves the origin in its slot of the shadow,
  because a fresh array holds zeros. That origin then takes part in the
  hull.
- Collinear points such as (0,0), (1,0), (2,0) give the two end points
  only with the corrected guard. As written, they give (0,0) alone.

## Model

| member | source | states |
|---|---|---|
| Geometry.Orientation | Assets/ShadowHideChecher.cs:274-277 | the turn test of line 276: the cross product of the steps from the first point to the second and to the third, on exact reals |
| Geometry.Flatten | Assets/ShadowHideChecher.cs:177 | the projection to the ground plane, (x, y, z) to (x, z), also used at lines 252, 257 and 259 |
| Geometry.Lift | Assets/ShadowHideChecher.cs:226 | a ground point put back at height 0 projects back to itself |
| Geometry.OrientationSwap | Assets/ShadowHideChecher.cs:274-277 | swapping the last two points negates the turn |
| Geometry.OrientationRotate | Assets/ShadowHideChecher.cs:274-277 | rotating the three points cyclically keeps the turn |
| Geometry.OrientationOfRepeatedPoint | Assets/ShadowHideChecher.cs:274-277 | three points two of which coincide have turn 0 |
| Geometry.OrientationSign | Assets/ShadowHideChecher.cs:271-277 | positive means a counter-clockwise (left) turn and negative a clockwise (right) one, both directions |
| Geometry.OrientationTranslate | Assets/ShadowHideChecher.cs:274-277 | moving all three points by one offset keeps the turn |
| PointOrder.ComparePoints | Assets/ShadowHideChecher.cs:181-189 | the comparison handed to the sort: by x, and by z when the x are equal, as -1, 0 or 1 |
| PointOrder.ComparePointsIsTotalOrder | Assets/ShadowHideChecher.cs:181-189 | the comparison is 0 exactly on equal points, antisymmetric, total and transitive |
| PointOrder.Insert | Assets/ShadowHideChecher.cs:181-189 | inserting into a sorted list gives a sorted list one longer with the point added to its entries |
| PointOrder.SortPoints | Assets/ShadowHideChecher.cs:181-189 | the sorted list is ordered by x then z and is a permutation of the input |
| PointOrder.SortedPermutationIsUnique | Assets/ShadowHideChecher.cs:181-189 | two sorted permutations of one list are equal, so the sort's algorithm and stability do not matter |
| PointOrder.SortIsDetermined | Assets/ShadowHideChecher.cs:181-189 | any sorted permutation of the points is SortPoints of them |
| PointOrder.SortedHeadIsMinimum | Assets/ShadowHideChecher.cs:181-189 | the first sorted point precedes every input point |
| MonotoneChain.PopNonLeftTurns | Assets/ShadowHideChecher.cs:198-201 | the pops leave a prefix of the stack, never go below `floor - 1` entries, and stop where the top two entries and the point turn strictly left |
| MonotoneChain.Scan | Assets/ShadowHideChecher.cs:194-203 | after pushing a non-empty list of points the top of the stack is the last point pushed |
| MonotoneChain.Reverse | Assets/ShadowHideChecher.cs:210 | the upper pass visits the points from the last index down: entry i is entry n-1-i of the input |
| MonotoneChain.LowerChain | Assets/ShadowHideChecher.cs:191-203 | the lower chain is no longer than the input, starts with the first sorted point, and holds at least two entries for two or more points |
| MonotoneChain.BothChains | Assets/ShadowHideChecher.cs:191-218 | the stack after the lower pass and the upper pass, whose pops can take the stack down to `lowerHullCount - 1` entries as written (line 213) and only to `lowerHullCount` corrected |
| MonotoneChain.MonotoneChain2D | Assets/ShadowHideChecher.cs:191-222 | both passes on sorted ground points, then the closing entry dropped when more than one is left |
| MonotoneChain.Hull | Assets/ShadowHideChecher.cs:173-229 | what FindConvexHull returns: project, sort, both passes, drop the closing entry, lift to height 0; the flag chooses the guard at line 213 |
| MonotoneChain.HullOf | Assets/ShadowHideChecher.cs:173-229 | Hull with the guard corrected to `Count > lowerHullCount` |
| MonotoneChain.HullAsWritten | Assets/ShadowHideChecher.cs:173-229 | Hull with the guard `Count >= lowerHullCount` as written |
| MonotoneChain.FindConvexHull | Assets/ShadowHideChecher.cs:173-229 | a fresh array holding the hull of the input, as written or corrected according to the flag |
| MonotoneChain.MonotoneChainPasses | Assets/ShadowHideChecher.cs:191-222 | the two passes and the removal of the closing entry compute MonotoneChain2D |
| MonotoneChain.LowerPass | Assets/ShadowHideChecher.cs:191-203 | the loop leaves the lower chain on the stack |
| MonotoneChain.UpperPass | Assets/ShadowHideChecher.cs:205-218 | the loop from the second-to-last point down to the first leaves both chains on the stack; every index it reads is in range |
| MonotoneChain.PopWhileNotLeft | Assets/ShadowHideChecher.cs:213-216 | the inner pop loop of either pass computes PopNonLeftTurns, and its `Count - 2` index is in range |
| MonotoneChain.LiftToArray | Assets/ShadowHideChecher.cs:224-226 | a fresh array holding each hull point at height 0, in order |
| MonotoneChain.UpperPassStart | Assets/ShadowHideChecher.cs:207-210 | when the upper loop runs the floor is at least 2, so the reads at line 213 are in range |
| MonotoneChain.ScanLength | Assets/ShadowHideChecher.cs:194-218 | a pass grows the stack by at most one entry per point |
| MonotoneChain.ScanKeepsBase | Assets/ShadowHideChecher.cs:207-218 | a pass never removes the entries below its floor, and ends with at least `floor` entries when it pushes anything |
| MonotoneChain.ScanElements | Assets/ShadowHideChecher.cs:194-218 | every entry of the stack was on it before or is one of the pushed points |
| MonotoneChain.ScanKeepsLeftTurns | Assets/ShadowHideChecher.cs:194-218 | a pass keeps every three consecutive stack entries from index `floor - 2` on turning strictly left; for the lower pass that is the whole stack |
| MonotoneChain.PrefixKeepsLeftTurns | Assets/ShadowHideChecher.cs:198-201 | removing entries from the top of the stack keeps the left turns of the entries that stay |
| MonotoneChain.PushKeepsLeftTurns | Assets/ShadowHideChecher.cs:194-218 | in either pass, the push after the pops keeps every triple from index `floor - 2` on turning strictly left |
| MonotoneChain.LowerScanBounds | Assets/ShadowHideChecher.cs:194-203 | the lower pass from the empty stack keeps the first point at the bottom, is no longer than its input, and holds two entries once two points are pushed |
| MonotoneChain.ScanTurnsLeftButOne | Assets/ShadowHideChecher.cs:207-218 | a pass on a strictly left-turning stack of at least `floor - 1` entries leaves every triple turning strictly left except the one at index `floor - 3` |
| MonotoneChain.BothChainsTurnLeft | Assets/ShadowHideChecher.cs:191-218 | with either guard and two or more points, every consecutive triple of the stack after both passes turns strictly left, except the one where the upper pass joins the lower chain: index `lowerHullCount - 2` corrected, `lowerHullCount - 3` as written |
| MonotoneChain.ScanIsSubsequence | Assets/ShadowHideChecher.cs:194-218 | the stack stays a subsequence of the points it was built from |
| MonotoneChain.LowerChainIsConvexSubsequence | Assets/ShadowHideChecher.cs:194-203 | the lower chain is a subsequence of the sorted points with every consecutive triple strictly counter-clockwise |
| MonotoneChain.UpperPassAsWrittenKeepsLowerChain | Assets/ShadowHideChecher.cs:207-218 | as written, the upper pass removes only stack indices from `lowerHullCount - 1` up |
| MonotoneChain.UpperPassKeepsLowerChain | Assets/ShadowHideChecher.cs:213 | corrected, the upper pass keeps the whole lower chain |
| MonotoneChain.ClosingEntryIsStart | Assets/ShadowHideChecher.cs:220-222 | with two or more points, with either guard, the entry dropped at line 222 is the first sorted point, as the comment says |
| MonotoneChain.MonotoneChainElements | Assets/ShadowHideChecher.cs:191-222 | with either guard, every hull entry is one of the sorted points |
| MonotoneChain.MonotoneChainStart | Assets/ShadowHideChecher.cs:191-222 | with either guard, the hull is empty exactly when there are no points, and otherwise starts with the first sorted point |
| MonotoneChain.HullComesFromInput | Assets/ShadowHideChecher.cs:173-229 | with either guard, every output vertex has height 0 and is some input vertex projected and lifted |
| MonotoneChain.HullStartsAtLeastPoint | Assets/ShadowHideChecher.cs:173-229 | with either guard, the output is empty exactly for empty input, and starts with the least input point by x then z |
| MonotoneChain.HullAsWrittenOfRepeatedPoint | Assets/ShadowHideChecher.cs:198-222 | as written, any number of copies of one ground point give exactly that point |
| MonotoneChain.HullOfRepeatedPoint | Assets/ShadowHideChecher.cs:213-222 | corrected, one copy gives the point and two or more give it twice |
| MonotoneChain.ChainOfRepeatedPoint | Assets/ShadowHideChecher.cs:191-222 | both passes on copies of one point, with either guard |
| MonotoneChain.ScanOfRepeatedPoint | Assets/ShadowHideChecher.cs:198-201 | pushing copies of q onto [q, q] with floor 2 leaves [q, q] |
| MonotoneChain.ScanOfRepeatedPointAboveFloor | Assets/ShadowHideChecher.cs:213-216 | pushing copies of q onto [q, q, q] with floor 3 leaves [q, q, q] |
| MonotoneChain.SortTwoPoints | Assets/ShadowHideChecher.cs:181-189 | two points sort lesser first |
| MonotoneChain.LowerChainOfTwo | Assets/ShadowHideChecher.cs:191-203 | the lower pass keeps both of two sorted points |
| MonotoneChain.ChainsOfTwo | Assets/ShadowHideChecher.cs:205-222 | on two sorted points the passes give the lesser alone as written, and both corrected |
| MonotoneChain.HullAsWrittenOfTwoPoints | Assets/ShadowHideChecher.cs:213 | as written, two input points give only the lesser one |
| MonotoneChain.HullOfTwoPoints | Assets/ShadowHideChecher.cs:213 | corrected, two input points give both, the lesser first |
| MonotoneChain.ChainKeepsExtremePoints | Assets/ShadowHideChecher.cs:191-222 | corrected, with two or more sorted points the hull has at least two entries, starts with the least point and keeps the greatest |
| MonotoneChain.HullKeepsExtremePoints | Assets/ShadowHideChecher.cs:173-229 | corrected, with two or more inputs the hull starts with the least point and contains the greatest, lifted |
| Containment.LeftOfEdge | Assets/ShadowHideChecher.cs:257-262 | the point is on the left of, or on, the edge from vertex i to vertex (i + 1) mod n of the hull, compared on the ground plane |
| Containment.PointInside | Assets/ShadowHideChecher.cs:255-266 | the point is on the left of, or on, every cyclic edge of the hull |
| Containment.IsPointInside | Assets/ShadowHideChecher.cs:250-268 | true exactly when the point is on the left of or on every cyclic edge; false exactly when some edge has it strictly on the right |
| Containment.IsVerticesInside | Assets/ShadowHideChecher.cs:235-244 | true exactly when every point is inside, and so for no points |
| Containment.CollapsedHullContainsEverything | Assets/ShadowHideChecher.cs:255-266 | a hull with no vertex, or whose vertices all project to one point, contains every point |
| Containment.PointInsideRotated | Assets/ShadowHideChecher.cs:255-266 | the test does not depend on which vertex the hull starts with |
| ShadowHide.UpdateMatrix | Assets/ShadowHideChecher.cs:136 | the update matrix: the current local-to-world matrix times the inverse of the snapshot matrix |
| ShadowHide.ShadowPoint | Assets/ShadowHideChecher.cs:160-164 | the hit point of a vertex's ray, or the origin that the fresh array holds when the ray misses |
| Engine.ExactMultiply | Assets/ShadowHideChecher.cs:136 | Unity's 4x4 matrix product on exact reals, entry by entry |
| Engine.ExactMultiplyPoint3x4 | Assets/ShadowHideChecher.cs:149 | Unity's `MultiplyPoint3x4` on exact reals: the top three rows applied to (x, y, z, 1) |
| Engine.ExactProductApplies | Assets/ShadowHideChecher.cs:136 | with exact arithmetic, a product whose second factor is affine transforms every point as its two factors in turn, so the hypothesis of UpdateKeepsWorldPlacement can be met |
| Engine.NonAffineProductFails | Assets/ShadowHideChecher.cs:136 | with a non-affine second factor the law fails on the origin: the point transform ignores the bottom row |
| ShadowHide.TransformAll | Assets/ShadowHideChecher.cs:145-152 | transforming every vertex keeps the count |
| ShadowHide.ShadowPoints | Assets/ShadowHideChecher.cs:158-166 | there is one shadow point per caster vertex |
| ShadowHide.UpdateKeepsWorldPlacement | Assets/ShadowHideChecher.cs:133-152 | when a product transforms as its two factors in turn and the inverse of the snapshot matrix undoes it, moving placed vertices by current times inverse of previous places them by the current matrix |
| ShadowHide.ShadowHullComesFromHits | Assets/ShadowHideChecher.cs:158-166 | with either guard, every hull vertex is the origin or the ground projection of a point some ray hit |
| ShadowHide.AllMissesHideEverything | Assets/ShadowHideChecher.cs:160-164 | with either guard, when no ray hits, the hull is non-empty and all origin, and every target counts as hidden |
| ShadowHide.AllMissesCollapseHull | Assets/ShadowHideChecher.cs:160-164 | with either guard, when no ray hits, the hull is the origin once or twice |
| ShadowHide.ShadowHideManager.Unmoved | Assets/ShadowHideChecher.cs:82-83 | the caster's position, rotation and lossy scale equal the snapshot, compared exactly |
| ShadowHide.ShadowHideManager.Start | Assets/ShadowHideChecher.cs:61-77 | both meshes placed in the world, a shadow array of one origin per caster vertex, no hull, no verdict, and the caster's transform as snapshot |
| ShadowHide.ShadowHideManager.Update | Assets/ShadowHideChecher.cs:79-114 | if the caster's transform matches the snapshot and it is not the first frame, nothing changes; otherwise the caster is moved, the shadow, hull and verdict are recomputed, and the snapshot is retaken; the target's vertices never change |
| ShadowHide.ShadowHideManager.Recompute | Assets/ShadowHideChecher.cs:86-113 | the caster's vertices moved by the update matrix, then the fresh shadow, its hull, the verdict and the new snapshot |
| ShadowHide.ShadowHideManager.TakeSnapshot | Assets/ShadowHideChecher.cs:110-113 | the snapshot equals the caster's current position, rotation, scale and matrix |
| ShadowHide.ShadowHideManager.RefreshVerdict | Assets/ShadowHideChecher.cs:92-106 | fresh arrays hold the shadow of the caster's vertices and its hull, and the verdict is whether every target vertex is inside the hull |
| ShadowHide.ShadowHideManager.GetMeshVertices | Assets/ShadowHideChecher.cs:119-128 | a fresh array of the mesh's vertices transformed by the local-to-world matrix |
| ShadowHide.ShadowHideManager.UpdateVertices | Assets/ShadowHideChecher.cs:133-138 | the same array, overwritten with each vertex moved by current matrix times inverse of previous |
| ShadowHide.ShadowHideManager.TransformVertices | Assets/ShadowHideChecher.cs:145-152 | each slot overwritten in place with its transform, and the same array returned |
| ShadowHide.ShadowHideManager.UpdateShadowVertices | Assets/ShadowHideChecher.cs:158-166 | a fresh array with, for each vertex, the ray's hit point, or the origin on a miss |
| HullExamples.SquareOrder | Assets/ShadowHideChecher.cs:181-189 | the square's corners in the order A, D, B, C are sorted by x then z |
| HullExamples.SquareSorted | Assets/ShadowHideChecher.cs:181-189 | sorting the square's corners puts D before B |
| HullExamples.OrientationOfSteps | Assets/ShadowHideChecher.cs:274-277 | the turn is the cross product of the two steps from the first point |
| HullExamples.SquareTurns | Assets/ShadowHideChecher.cs:198 | the signs of the turns both passes test on the square |
| HullExamples.SquareLowerChain | Assets/ShadowHideChecher.cs:191-203 | the lower pass on the square keeps A, B, C |
| HullExamples.SquareUpperInput | Assets/ShadowHideChecher.cs:210 | the upper pass on the square visits B, D, A |
| HullExamples.SquareChainsAsWritten | Assets/ShadowHideChecher.cs:205-222 | as written, the passes on the square give A, B, D |
| HullExamples.SquareChainsCorrected | Assets/ShadowHideChecher.cs:205-222 | corrected, the passes on the square give A, B, C, D |
| HullExamples.SquareAsWritten | Assets/ShadowHideChecher.cs:213 | as written, the hull of a square is a triangle that leaves out the corner C and does not contain it |
| HullExamples.CornerOutsideTriangle | Assets/ShadowHideChecher.cs:262 | C is not a triangle vertex and is strictly on the right of the edge from B to D |
| HullExamples.SquareCorrected | Assets/ShadowHideChecher.cs:213 | corrected, the hull of the square is the square, counter-clockwise, and contains all its corners |
| HullExamples.CornersInsideSquare | Assets/ShadowHideChecher.cs:250-268 | every corner of the square is inside its outline |
| HullExamples.SquareContains | Assets/ShadowHideChecher.cs:250-268 | every point of the closed square, at any height, is inside its outline |
| HullExamples.LineTurns | Assets/ShadowHideChecher.cs:274-277 | every turn the passes test on three collinear points is 0 |
| HullExamples.LineSorted | Assets/ShadowHideChecher.cs:181-189 | three collinear points from left to right are already sorted |
| HullExamples.LineLowerChain | Assets/ShadowHideChecher.cs:194-203 | the lower pass pops the middle point and keeps the two ends |
| HullExamples.LineChainsAsWritten | Assets/ShadowHideChecher.cs:205-222 | as written, the passes give the left end alone |
| HullExamples.LineChainsCorrected | Assets/ShadowHideChecher.cs:205-222 | corrected, the passes give the two ends |
| HullExamples.LineHullAsWritten | Assets/ShadowHideChecher.cs:213 | as written, three collinear points give their left end alone |
| HullExamples.LineHullCorrected | Assets/ShadowHideChecher.cs:213 | corrected, three collinear points give their two ends, left first |

## Left out

- Floating point: coordinates are exact reals. Rounding, NaN in `CompareTo` at lines 183 and 186, and near-collinear cancellation in `Orientation` are not modelled.
- Unity's approximate `Vector3 ==` and `Quaternion ==` at line 82 are modelled as exact equality of values.
- `Time.frameCount != 1` at line 83 is a boolean "first frame" input of `Update`.
- The matrix arithmetic at lines 126, 136 and 149 belongs to the engine. It is handed in as three functions (product, inverse, point transform). Their laws are assumed only as the two hypotheses of `UpdateKeepsWorldPlacement`. `AppliesAsProduct` says the product formed at line 136 applies as its two factors in turn. It holds when the inverse of the snapshot matrix is affine, because the point transform ignores a matrix's bottom row. `InvertedBy` says the inverse of the snapshot matrix undoes it.
- `Physics.Raycast` at line 164 belongs to the engine. It is a function from an origin and a direction to a hit point or a miss.
- `MeshFilter` access and LINQ `Distinct()` at line 123 are left out. `GetMeshVertices` and `Start` take the mesh's vertex list as given. The vertices are not required to be distinct, and no contract depends on it.
- The game objects and the light are given to `Start` as their transforms and meshes, and to `Update` as the caster's current transform.
- `Debug.DrawLine` at lines 89, 95 and 102, and `print` at line 108, only draw or log, so they are left out.
- Unity's scheduling of `Start` and `Update` is left out: `Update` is a method a caller invokes once per frame.
- The algorithm inside `List.Sort` at line 181 is left out. The sort is specified by its result, and SortIsDetermined shows that any sorted permutation is that result.
- The target's own motion is not modelled, because the script never re-reads the target's vertices after `Start`. The `Update` contract states that they never change.
- HullKeepsExtremePoints: this and the other corrected-guard lemmas do not prove that the corrected hull contains every input point in general. Only the square example proves containment.
- HullOf: convexity and counter-clockwise order are proved only in part for general inputs. BothChainsTurnLeft leaves open the triple where the upper pass joins the lower chain and the triples that close the outline. Only the square is proved to be counter-clockwise, and copies of one point give that point twice (HullOfRepeatedPoint).
- UpdateKeepsWorldPlacement: needs the inverse of the snapshot matrix to undo it. A snapshot at zero scale has a singular matrix: the vertices collapse onto fewer points at line 136, and no later frame restores them. The model does not state what the component shows after that.

## Findings

| source | as written | input that shows it | evidently intended | confidence | as-written member | corrected member |
|---|---|---|---|---|---|---|
| Assets/ShadowHideChecher.cs:213 | `hull2D.Count >= lowerHullCount` lets the upper pass pop the last vertex of the lower chain, the rightmost point | the square (x, z), (x+2, z), (x+2, z+2), (x, z+2) gives the triangle (x, z), (x+2, z), (x, z+2), and its own corner (x+2, z+2) is outside; two distinct points give only the lesser one | `hull2D.Count > lowerHullCount`, as in Andrew's monotone chain, so the lower chain is kept whole | not executed | HullExamples.SquareAsWritten | HullExamples.SquareCorrected |
