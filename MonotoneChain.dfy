/** The convex hull builder of the shadow-hiding component
    (Assets/ShadowHideChecher.cs:173-229): Andrew's monotone chain over the
    ground-plane projections of the vertices, with a list used as a stack.

    Both passes run the same step: before pushing a point, pop the top of the
    stack while the stack holds at least `floor` entries and its last two
    entries and the point do not turn strictly left. The lower pass pops down
    to two entries (line 198). The upper pass, as written at line 213
    (`Count >= lowerHullCount`), may pop down to `lowerHullCount - 1`
    entries and so remove the last vertex of the lower chain: a square
    comes out as a triangle. Andrew's algorithm stops at `lowerHullCount`
    entries (`Count > lowerHullCount`). The passes take a flag `corrected`
    that chooses between the guard as written (HullAsWritten) and the
    corrected one (HullOf); the component takes the same choice. */
module MonotoneChain {
  import opened Geometry
  import opened PointOrder

  /** The pops before one push (lines 198-201 with floor 2, lines 213-216
      with floor lowerHullCount). */
  function PopNonLeftTurns(hull: seq<Vector2>, floor: nat, p: Vector2): (r: seq<Vector2>)
    requires floor >= 2
    ensures |r| <= |hull| && r == hull[..|r|]
    ensures |hull| >= floor - 1 ==> |r| >= floor - 1
    ensures |r| >= floor ==> Orientation(r[|r| - 2], r[|r| - 1], p) > 0.0
    decreases |hull|
  {
    if |hull| >= floor && Orientation(hull[|hull| - 2], hull[|hull| - 1], p) <= 0.0
    then PopNonLeftTurns(hull[..|hull| - 1], floor, p)
    else hull
  }

  /** Pushes the points of `qs` in order, each after its pops: the body of
      the loops at lines 194-203 and 210-218. */
  function Scan(hull: seq<Vector2>, floor: nat, qs: seq<Vector2>): (r: seq<Vector2>)
    requires floor >= 2
    ensures qs != [] ==> |r| >= 1 && r[|r| - 1] == qs[|qs| - 1]
    decreases |qs|
  {
    if qs == [] then hull
    else Scan(PopNonLeftTurns(hull, floor, qs[0]) + [qs[0]], floor, qs[1..])
  }

  function Reverse(s: seq<Vector2>): (r: seq<Vector2>)
    ensures |r| == |s|
    ensures forall i :: 0 <= i < |s| ==> r[i] == s[|s| - 1 - i]
  {
    if s == [] then [] else [s[|s| - 1]] + Reverse(s[..|s| - 1])
  }

  /** The stack after the lower pass (lines 191-203). */
  function LowerChain(points2D: seq<Vector2>): (lower: seq<Vector2>)
    ensures |lower| <= |points2D|
    ensures |points2D| >= 1 ==> |lower| >= 1 && lower[0] == points2D[0]
    ensures |points2D| >= 2 ==> |lower| >= 2
  {
    if points2D == [] then []
    else
      LowerScanBounds(points2D);
      Scan([], 2, points2D)
  }

  /** The lower pass starts from the empty stack: the first point is pushed
      without pops and is never popped, and the stack ends with at least two
      entries when there are two points. */
  lemma LowerScanBounds(points2D: seq<Vector2>)
    requires |points2D| >= 1
    ensures var lower := Scan([], 2, points2D);
            |lower| <= |points2D| && |lower| >= 1 && lower[0] == points2D[0] &&
            (|points2D| >= 2 ==> |lower| >= 2)
  {
    var p := points2D[0];
    var rest := points2D[1..];
    // pushing onto the empty stack pops nothing
    assert PopNonLeftTurns([], 2, p) + [p] == [p];
    assert Scan([], 2, points2D) == Scan([p], 2, rest);
    ScanKeepsBase([p], 2, rest);
    ScanLength([p], 2, rest);
    var lower := Scan([p], 2, rest);
    assert lower[..1] == [p];
    assert lower[0] == lower[..1][0];
    assert |points2D| >= 2 ==> rest != [];
  }

  /** The least number of entries the upper pass leaves on the stack, plus
      one: `lowerHullCount` as written at line 213, `lowerHullCount + 1`
      with the guard corrected. */
  function UpperFloor(lowerHullCount: nat, corrected: bool): nat
  {
    if corrected then lowerHullCount + 1 else lowerHullCount
  }

  /** The stack after the upper pass (lines 205-218), before line 222. The
      upper pass visits the sorted points from the second-to-last down to
      the first; with fewer than two points it does not run. */
  function BothChains(points2D: seq<Vector2>, corrected: bool): seq<Vector2>
  {
    var lower := LowerChain(points2D);
    if |points2D| < 2 then lower
    else Scan(lower, UpperFloor(|lower|, corrected), Reverse(points2D[..|points2D| - 1]))
  }

  /** The hull of already sorted points: both passes, then the last entry
      dropped when more than one is left (line 222). */
  function MonotoneChain2D(points2D: seq<Vector2>, corrected: bool): seq<Vector2>
  {
    var full := BothChains(points2D, corrected);
    if |full| > 1 then full[..|full| - 1] else full
  }

  function FlattenAll(vs: seq<Vector3>): seq<Vector2>
  {
    seq(|vs|, i requires 0 <= i < |vs| => Flatten(vs[i]))
  }

  function LiftAll(ps: seq<Vector2>): seq<Vector3>
  {
    seq(|ps|, i requires 0 <= i < |ps| => Lift(ps[i]))
  }

  /** What FindConvexHull returns for the given vertices, with
      `Count > lowerHullCount` at line 213. */
  function HullOf(inputVertices: seq<Vector3>): seq<Vector3>
  {
    LiftAll(MonotoneChain2D(SortPoints(FlattenAll(inputVertices)), true))
  }

  /** What FindConvexHull returns with line 213 as written. */
  function HullAsWritten(inputVertices: seq<Vector3>): seq<Vector3>
  {
    LiftAll(MonotoneChain2D(SortPoints(FlattenAll(inputVertices)), false))
  }

  /** The hull with the guard at line 213 as written or corrected. */
  function Hull(inputVertices: seq<Vector3>, corrected: bool): seq<Vector3>
  {
    if corrected then HullOf(inputVertices) else HullAsWritten(inputVertices)
  }

  /** The hull builder: projects the vertices to the ground plane, sorts
      them, runs the lower and the upper pass on a stack and lifts the
      result back to height 0. With `corrected` false it is lines 173-229
      as written; with `corrected` true line 213 reads `Count >
      lowerHullCount`. */
  method FindConvexHull(inputVertices: array<Vector3>, corrected: bool) returns (outlineVertices: array<Vector3>)
    ensures fresh(outlineVertices)
    ensures outlineVertices[..] == Hull(inputVertices[..], corrected)
  {
    var points2D: seq<Vector2> := [];
    for k := 0 to inputVertices.Length
      invariant points2D == FlattenAll(inputVertices[..k])
    {
      points2D := points2D + [Flatten(inputVertices[k])];
    }
    assert inputVertices[..inputVertices.Length] == inputVertices[..];
    points2D := SortPoints(points2D);
    var hull2D := MonotoneChainPasses(points2D, corrected);
    outlineVertices := LiftToArray(hull2D);
  }

  /** Lines 191-222 on the sorted points: the lower pass, the upper pass
      and the removal of the closing entry, on a list used as a stack. */
  method MonotoneChainPasses(points2D: seq<Vector2>, corrected: bool) returns (hull2D: seq<Vector2>)
    ensures hull2D == MonotoneChain2D(points2D, corrected)
  {
    hull2D := LowerPass(points2D);
    hull2D := UpperPass(points2D, hull2D, corrected);
    // the closing entry repeats the first one
    if |hull2D| > 1 {
      hull2D := hull2D[..|hull2D| - 1];
    }
  }

  /** Lines 191-203: every sorted point is pushed, after popping while the
      stack holds two entries that with it do not turn strictly left. */
  method LowerPass(points2D: seq<Vector2>) returns (hull2D: seq<Vector2>)
    ensures hull2D == LowerChain(points2D)
  {
    hull2D := [];
    for k := 0 to |points2D|
      invariant Scan(hull2D, 2, points2D[k..]) == LowerChain(points2D)
    {
      var p := points2D[k];
      hull2D := PopWhileNotLeft(hull2D, 2, p);
      assert points2D[k..] == [p] + points2D[k + 1..];
      hull2D := hull2D + [p];
    }
  }

  /** Lines 205-218: the sorted points from the second-to-last down to the
      first are pushed onto the lower chain, popping while the stack holds
      at least `lowerHullCount` entries (as written) or more than
      `lowerHullCount` entries (corrected) that with the point do not turn
      strictly left. Every index read is in range: the pops need
      `lowerHullCount >= 2`, which holds whenever the loop runs. */
  method UpperPass(points2D: seq<Vector2>, lower: seq<Vector2>, corrected: bool) returns (hull2D: seq<Vector2>)
    requires lower == LowerChain(points2D)
    ensures hull2D == BothChains(points2D, corrected)
  {
    hull2D := lower;
    var n := |points2D|;
    if n < 2 {
      // the loop below does not run
      UpperPassSkipped(points2D, corrected);
      return;
    }
    var lowerHullCount := |hull2D|;
    var floor := if corrected then lowerHullCount + 1 else lowerHullCount;
    ghost var both := BothChains(points2D, corrected);
    UpperPassStart(points2D, corrected, hull2D, floor);
    for i := n - 1 downto 0
      invariant Scan(hull2D, floor, Reverse(points2D[..i])) == both
    {
      var p := points2D[i];
      ScanDownStep(hull2D, floor, points2D, i);
      hull2D := PopWhileNotLeft(hull2D, floor, p);
      hull2D := hull2D + [p];
    }
    ScanOfNothing(hull2D, floor, points2D);
  }

  /** With fewer than two points the upper pass pushes nothing. */
  lemma UpperPassSkipped(points2D: seq<Vector2>, corrected: bool)
    requires |points2D| < 2
    ensures BothChains(points2D, corrected) == LowerChain(points2D)
  {
  }

  /** After the upper loop no point is left to push. */
  lemma ScanOfNothing(hull: seq<Vector2>, floor: nat, points: seq<Vector2>)
    requires floor >= 2
    ensures Scan(hull, floor, Reverse(points[..0])) == hull
  {
    assert points[..0] == [];
  }

  /** Before the upper pass: the loop starts from the lower chain at the
      second-to-last point. */
  lemma UpperPassStart(points2D: seq<Vector2>, corrected: bool, lower: seq<Vector2>, floor: nat)
    requires |points2D| >= 2 && lower == LowerChain(points2D)
    requires floor == if corrected then |lower| + 1 else |lower|
    ensures floor >= 2
    ensures Scan(lower, floor, Reverse(points2D[..|points2D| - 1])) == BothChains(points2D, corrected)
  {
  }

  /** One iteration of the upper pass: the point at index i is pushed
      first, then the points below it. */
  lemma ScanDownStep(hull: seq<Vector2>, floor: nat, points: seq<Vector2>, i: nat)
    requires floor >= 2 && i < |points|
    ensures Scan(hull, floor, Reverse(points[..i + 1])) ==
            Scan(PopNonLeftTurns(hull, floor, points[i]) + [points[i]], floor, Reverse(points[..i]))
  {
    assert points[..i + 1][..i] == points[..i];
    assert Reverse(points[..i + 1]) == [points[i]] + Reverse(points[..i]);
  }

  /** The inner loops at lines 198-201 and 213-216: pops the top of the
      stack while it holds at least `floor` entries and its last two
      entries and `p` do not turn strictly left. The index `Count - 2` is
      in range because `floor >= 2`. */
  method PopWhileNotLeft(hull: seq<Vector2>, floor: nat, p: Vector2) returns (popped: seq<Vector2>)
    requires floor >= 2
    ensures popped == PopNonLeftTurns(hull, floor, p)
  {
    popped := hull;
    while |popped| >= floor && Orientation(popped[|popped| - 2], popped[|popped| - 1], p) <= 0.0
      invariant PopNonLeftTurns(popped, floor, p) == PopNonLeftTurns(hull, floor, p)
      decreases |popped|
    {
      popped := popped[..|popped| - 1];
    }
  }

  /** Lines 225-226: a new array holding each ground point at height 0. */
  method LiftToArray(hull2D: seq<Vector2>) returns (outlineVertices: array<Vector3>)
    ensures fresh(outlineVertices)
    ensures outlineVertices[..] == LiftAll(hull2D)
  {
    outlineVertices := new Vector3[|hull2D|](_ => ORIGIN);
    for k := 0 to |hull2D|
      invariant forall j :: 0 <= j < k ==> outlineVertices[j] == Lift(hull2D[j])
    {
      outlineVertices[k] := Lift(hull2D[k]);
    }
  }

  // ---------------------------------------------------------------------
  // The stack

  /** Pushing grows the stack by at most one entry per point. */
  lemma {:induction false} ScanLength(hull: seq<Vector2>, floor: nat, qs: seq<Vector2>)
    requires floor >= 2
    ensures |Scan(hull, floor, qs)| <= |hull| + |qs|
    decreases |qs|
  {
    if qs != [] {
      ScanLength(PopNonLeftTurns(hull, floor, qs[0]) + [qs[0]], floor, qs[1..]);
    }
  }

  /** A pass never pops below its floor: once the stack holds `floor - 1`
      entries they stay, and a pass that pushes anything ends with at least
      `floor` entries. */
  lemma {:induction false} ScanKeepsBase(hull: seq<Vector2>, floor: nat, qs: seq<Vector2>)
    requires floor >= 2 && |hull| >= floor - 1
    ensures |Scan(hull, floor, qs)| >= floor - 1
    ensures Scan(hull, floor, qs)[..floor - 1] == hull[..floor - 1]
    ensures qs != [] ==> |Scan(hull, floor, qs)| >= floor
    decreases |qs|
  {
    if qs != [] {
      var popped := PopNonLeftTurns(hull, floor, qs[0]);
      var pushed := popped + [qs[0]];
      assert pushed[..floor - 1] == hull[..floor - 1];
      ScanKeepsBase(pushed, floor, qs[1..]);
    }
  }

  /** Every entry of the stack is a point that was on it or was pushed. */
  lemma {:induction false} ScanElements(hull: seq<Vector2>, floor: nat, qs: seq<Vector2>)
    requires floor >= 2
    ensures forall v :: v in Scan(hull, floor, qs) ==> v in hull || v in qs
    decreases |qs|
  {
    if qs != [] {
      var popped := PopNonLeftTurns(hull, floor, qs[0]);
      ScanElements(popped + [qs[0]], floor, qs[1..]);
      assert forall v :: v in popped ==> v in hull;
    }
  }

  /** The entries at `i`, `i + 1` and `i + 2` turn strictly left. */
  predicate TurnsLeftAt(h: seq<Vector2>, i: int)
    requires 0 <= i && i + 2 < |h|
  {
    Orientation(h[i], h[i + 1], h[i + 2]) > 0.0
  }

  /** Every three consecutive entries from index `k` on turn strictly left. */
  predicate LeftTurningFrom(h: seq<Vector2>, k: nat)
  {
    forall i :: k <= i < |h| - 2 ==> TurnsLeftAt(h, i)
  }

  /** Every three consecutive entries turn strictly left. */
  predicate StrictlyLeftTurning(h: seq<Vector2>)
  {
    LeftTurningFrom(h, 0)
  }

  /** A pass keeps every three consecutive stack entries from index
      `floor - 2` on turning strictly left: a point is pushed only once the
      top two entries and it turn strictly left, or once the stack is down to
      `floor - 1` entries, where the new triple starts below `floor - 2`. */
  lemma {:induction false} ScanKeepsLeftTurns(hull: seq<Vector2>, floor: nat, qs: seq<Vector2>)
    requires floor >= 2 && LeftTurningFrom(hull, floor - 2)
    ensures LeftTurningFrom(Scan(hull, floor, qs), floor - 2)
    decreases |qs|
  {
    if qs != [] {
      var popped := PopNonLeftTurns(hull, floor, qs[0]);
      PrefixKeepsLeftTurns(hull, |popped|, floor - 2);
      PushKeepsLeftTurns(popped, floor, qs[0]);
      ScanKeepsLeftTurns(popped + [qs[0]], floor, qs[1..]);
    }
  }

  /** Popping entries keeps the left turns of those that stay. */
  lemma PrefixKeepsLeftTurns(h: seq<Vector2>, n: nat, k: nat)
    requires n <= |h| && LeftTurningFrom(h, k)
    ensures LeftTurningFrom(h[..n], k)
  {
    forall i | k <= i < n - 2
      ensures TurnsLeftAt(h[..n], i)
    {
      assert TurnsLeftAt(h, i);
      assert h[..n][i] == h[i] && h[..n][i + 1] == h[i + 1] && h[..n][i + 2] == h[i + 2];
    }
  }

  /** Pushing `p` after the pops keeps the left turns from index
      `floor - 2` on: the top two entries and `p` turn strictly left, or the
      stack holds fewer than `floor` entries, so that the new triple starts
      below `floor - 2`. */
  lemma PushKeepsLeftTurns(popped: seq<Vector2>, floor: nat, p: Vector2)
    requires floor >= 2 && LeftTurningFrom(popped, floor - 2)
    requires |popped| >= floor ==> Orientation(popped[|popped| - 2], popped[|popped| - 1], p) > 0.0
    ensures LeftTurningFrom(popped + [p], floor - 2)
  {
    var pushed := popped + [p];
    forall i | floor - 2 <= i < |pushed| - 2
      ensures TurnsLeftAt(pushed, i)
    {
      if i < |popped| - 2 {
        assert TurnsLeftAt(popped, i);
        assert pushed[i] == popped[i] && pushed[i + 1] == popped[i + 1] && pushed[i + 2] == popped[i + 2];
      } else {
        assert pushed[i] == popped[|popped| - 2] && pushed[i + 1] == popped[|popped| - 1] && pushed[i + 2] == p;
      }
    }
  }

  /** `h` can be obtained from `s` by deleting entries. */
  predicate IsSubsequence(h: seq<Vector2>, s: seq<Vector2>)
    decreases |s|
  {
    if h == [] then true
    else if s == [] then false
    else if h[|h| - 1] == s[|s| - 1] then IsSubsequence(h[..|h| - 1], s[..|s| - 1])
    else IsSubsequence(h, s[..|s| - 1])
  }

  lemma {:induction false} SubsequenceDropLast(h: seq<Vector2>, s: seq<Vector2>)
    requires h != [] && IsSubsequence(h, s)
    ensures IsSubsequence(h[..|h| - 1], s)
    decreases |s|
  {
    var h' := h[..|h| - 1];
    if h' != [] {
      var s' := s[..|s| - 1];
      if h[|h| - 1] == s[|s| - 1] {
        SubsequenceDropLast(h', s');
      } else {
        SubsequenceDropLast(h, s');
        if h'[|h'| - 1] == s[|s| - 1] {
          SubsequenceDropLast(h', s');
        }
      }
    }
  }

  lemma {:induction false} SubsequencePrefix(h: seq<Vector2>, s: seq<Vector2>, k: nat)
    requires k <= |h| && IsSubsequence(h, s)
    ensures IsSubsequence(h[..k], s)
    decreases |h| - k
  {
    if k < |h| {
      SubsequenceDropLast(h, s);
      SubsequencePrefix(h[..|h| - 1], s, k);
      assert h[..|h| - 1][..k] == h[..k];
    } else {
      assert h[..k] == h;
    }
  }

  /** The stack stays a subsequence of the points it was built from. */
  lemma {:induction false} ScanIsSubsequence(hull: seq<Vector2>, floor: nat, qs: seq<Vector2>, s: seq<Vector2>)
    requires floor >= 2 && IsSubsequence(hull, s)
    ensures IsSubsequence(Scan(hull, floor, qs), s + qs)
    decreases |qs|
  {
    if qs == [] {
      assert s + qs == s;
    } else {
      var popped := PopNonLeftTurns(hull, floor, qs[0]);
      var pushed := popped + [qs[0]];
      SubsequencePrefix(hull, s, |popped|);
      assert pushed[..|pushed| - 1] == popped;
      assert (s + [qs[0]])[..|s|] == s;
      assert IsSubsequence(pushed, s + [qs[0]]);
      ScanIsSubsequence(pushed, floor, qs[1..], s + [qs[0]]);
      assert s + [qs[0]] + qs[1..] == s + qs;
    }
  }

  // ---------------------------------------------------------------------
  // The lower and the upper pass

  /** The lower chain is a subsequence of the sorted points in which every
      three consecutive entries turn strictly counter-clockwise. */
  lemma LowerChainIsConvexSubsequence(points2D: seq<Vector2>)
    ensures IsSubsequence(LowerChain(points2D), points2D)
    ensures StrictlyLeftTurning(LowerChain(points2D))
  {
    ScanIsSubsequence([], 2, points2D, []);
    assert [] + points2D == points2D;
    ScanKeepsLeftTurns([], 2, points2D);
  }

  /** With two or more points, the upper pass as written may pop the last
      vertex of the lower chain but never an earlier one, so the result
      starts with all of the lower chain but possibly its last vertex. */
  lemma UpperPassAsWrittenKeepsLowerChain(points2D: seq<Vector2>)
    requires |points2D| >= 2
    ensures var lower := LowerChain(points2D);
            var hull := MonotoneChain2D(points2D, false);
            |hull| >= |lower| - 1 && hull[..|lower| - 1] == lower[..|lower| - 1]
  {
    var lower := LowerChain(points2D);
    var upperInput := Reverse(points2D[..|points2D| - 1]);
    var full := Scan(lower, |lower|, upperInput);
    assert full == BothChains(points2D, false);
    ScanKeepsBase(lower, |lower|, upperInput);
    assert MonotoneChain2D(points2D, false) == full[..|full| - 1];
    assert full[..|full| - 1][..|lower| - 1] == full[..|lower| - 1];
  }

  /** With the corrected guard the result starts with the whole lower
      chain. */
  lemma UpperPassKeepsLowerChain(points2D: seq<Vector2>)
    requires |points2D| >= 2
    ensures var lower := LowerChain(points2D);
            var hull := MonotoneChain2D(points2D, true);
            |hull| >= |lower| && hull[..|lower|] == lower
  {
    var lower := LowerChain(points2D);
    var upperInput := Reverse(points2D[..|points2D| - 1]);
    var full := Scan(lower, |lower| + 1, upperInput);
    assert full == BothChains(points2D, true);
    ScanKeepsBase(lower, |lower| + 1, upperInput);
    assert MonotoneChain2D(points2D, true) == full[..|full| - 1];
    assert full[..|full| - 1][..|lower|] == full[..|lower|];
    assert lower[..|lower|] == lower;
  }

  /** With two or more points, every three consecutive entries of the stack
      after both passes turn strictly left, except the three around the
      point where the upper pass starts: corrected, the last two vertices
      of the lower chain and the first point pushed on them; as written,
      one triple earlier, since the last vertex of the lower chain may be
      popped. That triple, and those that close the outline back to its
      first vertex, may be collinear or worse. */
  lemma BothChainsTurnLeft(points2D: seq<Vector2>, corrected: bool)
    requires |points2D| >= 2
    ensures var lower := LowerChain(points2D);
            var full := BothChains(points2D, corrected);
            var junction := if corrected then |lower| - 2 else |lower| - 3;
            forall i :: 0 <= i < |full| - 2 && i != junction ==> TurnsLeftAt(full, i)
  {
    var lower := LowerChain(points2D);
    var floor := UpperFloor(|lower|, corrected);
    var upperInput := Reverse(points2D[..|points2D| - 1]);
    var full := BothChains(points2D, corrected);
    assert full == Scan(lower, floor, upperInput);
    LowerChainIsConvexSubsequence(points2D);
    ScanTurnsLeftButOne(lower, floor, upperInput);
  }

  /** A pass on a strictly left-turning stack of at least `floor - 1`
      entries leaves every triple strictly left-turning but the one at
      index `floor - 3`, whose last entry is the first one the pass may
      have replaced. */
  lemma ScanTurnsLeftButOne(hull: seq<Vector2>, floor: nat, qs: seq<Vector2>)
    requires floor >= 2 && |hull| >= floor - 1 && StrictlyLeftTurning(hull)
    ensures forall i :: 0 <= i < |Scan(hull, floor, qs)| - 2 && i != floor - 3 ==>
              TurnsLeftAt(Scan(hull, floor, qs), i)
  {
    var full := Scan(hull, floor, qs);
    ScanKeepsLeftTurns(hull, floor, qs);
    ScanKeepsBase(hull, floor, qs);
    KeptPrefixTurnsLeft(hull, full, floor - 1);
  }

  /** A stack that keeps the first `k` entries of a strictly left-turning
      one turns strictly left in every triple within them. */
  lemma KeptPrefixTurnsLeft(hull: seq<Vector2>, full: seq<Vector2>, k: nat)
    requires k <= |hull| && k <= |full| && full[..k] == hull[..k]
    requires StrictlyLeftTurning(hull)
    ensures forall i :: 0 <= i && i + 2 < k ==> TurnsLeftAt(full, i)
  {
    forall i | 0 <= i && i + 2 < k
      ensures TurnsLeftAt(full, i)
    {
      assert TurnsLeftAt(hull, i);
      assert full[i] == full[..k][i] == hull[i];
      assert full[i + 1] == full[..k][i + 1] == hull[i + 1];
      assert full[i + 2] == full[..k][i + 2] == hull[i + 2];
    }
  }

  /** The entry dropped at line 222 repeats the first entry, the least
      point, as the comment at line 220 says. */
  lemma ClosingEntryIsStart(points2D: seq<Vector2>, corrected: bool)
    requires |points2D| >= 2
    ensures var full := BothChains(points2D, corrected);
            |full| >= 2 && full[0] == points2D[0] && full[|full| - 1] == points2D[0]
  {
    var lower := LowerChain(points2D);
    var upperInput := Reverse(points2D[..|points2D| - 1]);
    ScanKeepsBase(lower, UpperFloor(|lower|, corrected), upperInput);
  }

  /** Every entry of the result is one of the points. */
  lemma MonotoneChainElements(points2D: seq<Vector2>, corrected: bool)
    ensures forall v :: v in MonotoneChain2D(points2D, corrected) ==> v in points2D
  {
    var lower := LowerChain(points2D);
    ScanElements([], 2, points2D);
    if |points2D| >= 2 {
      var upperInput := Reverse(points2D[..|points2D| - 1]);
      ScanElements(lower, UpperFloor(|lower|, corrected), upperInput);
      assert forall v :: v in upperInput ==> v in points2D;
    }
    var full := BothChains(points2D, corrected);
    assert forall v :: v in MonotoneChain2D(points2D, corrected) ==> v in full;
  }

  /** The result is empty exactly when there are no points, and starts with
      the first point otherwise. */
  lemma MonotoneChainStart(points2D: seq<Vector2>, corrected: bool)
    ensures MonotoneChain2D(points2D, corrected) == [] <==> points2D == []
    ensures points2D != [] ==> MonotoneChain2D(points2D, corrected)[0] == points2D[0]
  {
    if |points2D| >= 2 {
      ClosingEntryIsStart(points2D, corrected);
    }
  }

  // ---------------------------------------------------------------------
  // What FindConvexHull returns

  /** Every output vertex is an input vertex moved to height 0. */
  lemma HullComesFromInput(inputVertices: seq<Vector3>, corrected: bool)
    ensures forall v :: v in Hull(inputVertices, corrected) ==>
              v.y == 0.0 && exists u :: u in inputVertices && v == Lift(Flatten(u))
  {
    var points := FlattenAll(inputVertices);
    var sorted := SortPoints(points);
    var hull2D := MonotoneChain2D(sorted, corrected);
    assert Hull(inputVertices, corrected) == LiftAll(hull2D);
    MonotoneChainElements(sorted, corrected);
    forall v | v in LiftAll(hull2D)
      ensures v.y == 0.0 && exists u :: u in inputVertices && v == Lift(Flatten(u))
    {
      var i :| 0 <= i < |hull2D| && LiftAll(hull2D)[i] == v;
      var p := hull2D[i];
      assert p in sorted;
      assert p in multiset(points);
      var j :| 0 <= j < |points| && points[j] == p;
      assert inputVertices[j] in inputVertices && v == Lift(Flatten(inputVertices[j]));
    }
  }

  /** An empty input gives an empty hull and any other input a non-empty
      one, whose first vertex is the least input point: no input point has
      a smaller x, or the same x and a smaller z. */
  lemma HullStartsAtLeastPoint(inputVertices: seq<Vector3>, corrected: bool)
    ensures Hull(inputVertices, corrected) == [] <==> inputVertices == []
    ensures inputVertices != [] ==>
              Hull(inputVertices, corrected)[0] == Lift(SortPoints(FlattenAll(inputVertices))[0])
    ensures inputVertices != [] ==>
              forall j :: 0 <= j < |inputVertices| ==>
                Precedes(Flatten(Hull(inputVertices, corrected)[0]), Flatten(inputVertices[j]))
  {
    var points := FlattenAll(inputVertices);
    var sorted := SortPoints(points);
    var hull2D := MonotoneChain2D(sorted, corrected);
    assert Hull(inputVertices, corrected) == LiftAll(hull2D);
    MonotoneChainStart(sorted, corrected);
    if inputVertices != [] {
      assert LiftAll(hull2D)[0] == Lift(sorted[0]);
      SortedHeadIsMinimum(points);
      forall j | 0 <= j < |inputVertices|
        ensures Precedes(Flatten(LiftAll(hull2D)[0]), Flatten(inputVertices[j]))
      {
        assert Flatten(inputVertices[j]) == points[j];
      }
    }
  }

  /** Copies of one ground point (at any heights) give that point once
      when there is one copy and twice otherwise: the lower chain is the
      point twice, and the upper pass may not pop below it. */
  lemma HullOfRepeatedPoint(inputVertices: seq<Vector3>)
    requires |inputVertices| >= 1
    requires forall i :: 0 <= i < |inputVertices| ==> Flatten(inputVertices[i]) == Flatten(inputVertices[0])
    ensures var v := Lift(Flatten(inputVertices[0]));
            HullOf(inputVertices) == if |inputVertices| == 1 then [v] else [v, v]
  {
    var q := Flatten(inputVertices[0]);
    var sorted := SortPoints(FlattenAll(inputVertices));
    SortedCopies(inputVertices);
    ChainOfRepeatedPoint(q, sorted);
    if |sorted| == 1 {
      assert HullOf(inputVertices) == LiftAll([q]);
    } else {
      assert HullOf(inputVertices) == LiftAll([q, q]);
    }
  }

  /** With the guard as written, any number of copies of one ground point
      (at any heights) give exactly that point. */
  lemma HullAsWrittenOfRepeatedPoint(inputVertices: seq<Vector3>)
    requires |inputVertices| >= 1
    requires forall i :: 0 <= i < |inputVertices| ==> Flatten(inputVertices[i]) == Flatten(inputVertices[0])
    ensures HullAsWritten(inputVertices) == [Lift(Flatten(inputVertices[0]))]
  {
    var q := Flatten(inputVertices[0]);
    var sorted := SortPoints(FlattenAll(inputVertices));
    SortedCopies(inputVertices);
    ChainOfRepeatedPoint(q, sorted);
    assert HullAsWritten(inputVertices) == LiftAll([q]);
  }

  /** Sorting copies of one ground point gives the same copies. */
  lemma SortedCopies(inputVertices: seq<Vector3>)
    requires |inputVertices| >= 1
    requires forall i :: 0 <= i < |inputVertices| ==> Flatten(inputVertices[i]) == Flatten(inputVertices[0])
    ensures var sorted := SortPoints(FlattenAll(inputVertices));
            |sorted| == |inputVertices| &&
            forall i :: 0 <= i < |sorted| ==> sorted[i] == Flatten(inputVertices[0])
  {
    var points := FlattenAll(inputVertices);
    var sorted := SortPoints(points);
    forall i | 0 <= i < |sorted|
      ensures sorted[i] == Flatten(inputVertices[0])
    {
      assert sorted[i] in multiset(points);
    }
  }

  /** Both passes on copies of one point. */
  lemma ChainOfRepeatedPoint(q: Vector2, points2D: seq<Vector2>)
    requires |points2D| >= 1
    requires forall i :: 0 <= i < |points2D| ==> points2D[i] == q
    ensures MonotoneChain2D(points2D, false) == [q]
    ensures MonotoneChain2D(points2D, true) == if |points2D| == 1 then [q] else [q, q]
  {
    var lower := LowerChain(points2D);
    assert PopNonLeftTurns([], 2, q) + [q] == [q];
    assert lower == Scan([q], 2, points2D[1..]);
    if |points2D| >= 2 {
      assert lower == [q, q] by {
        assert PopNonLeftTurns([q], 2, q) + [q] == [q, q];
        assert points2D[1..][1..] == points2D[2..];
        assert Scan([q], 2, points2D[1..]) == Scan([q, q], 2, points2D[2..]);
        ScanOfRepeatedPoint(q, points2D[2..]);
      }
      var upperInput := Reverse(points2D[..|points2D| - 1]);
      ScanOfRepeatedPoint(q, upperInput);
      assert upperInput[0] == q;
      assert PopNonLeftTurns([q, q], 3, upperInput[0]) + [upperInput[0]] == [q, q, q];
      assert Scan([q, q], 3, upperInput) == Scan([q, q, q], 3, upperInput[1..]);
      ScanOfRepeatedPointAboveFloor(q, upperInput[1..]);
      assert [q, q, q][..2] == [q, q];
    }
  }

  /** On the stack [q, q] with floor 2, each further copy of q is popped
      and pushed again. */
  lemma {:induction false} ScanOfRepeatedPoint(q: Vector2, qs: seq<Vector2>)
    requires forall i :: 0 <= i < |qs| ==> qs[i] == q
    ensures Scan([q, q], 2, qs) == [q, q]
    decreases |qs|
  {
    if qs != [] {
      assert qs[0] == q;
      OrientationOfRepeatedPoint(q, q, q);
      assert [q, q][..1] == [q];
      assert PopNonLeftTurns([q], 2, q) == [q];
      assert PopNonLeftTurns([q, q], 2, q) == [q];
      ScanOfRepeatedPoint(q, qs[1..]);
    }
  }

  /** On the stack [q, q, q] with floor 3, each further copy of q is popped
      and pushed again. */
  lemma {:induction false} ScanOfRepeatedPointAboveFloor(q: Vector2, qs: seq<Vector2>)
    requires forall i :: 0 <= i < |qs| ==> qs[i] == q
    ensures Scan([q, q, q], 3, qs) == [q, q, q]
    decreases |qs|
  {
    if qs != [] {
      assert qs[0] == q;
      OrientationOfRepeatedPoint(q, q, q);
      assert [q, q, q][..2] == [q, q];
      assert PopNonLeftTurns([q, q], 3, q) == [q, q];
      assert PopNonLeftTurns([q, q, q], 3, q) == [q, q];
      ScanOfRepeatedPointAboveFloor(q, qs[1..]);
    }
  }

  /** Sorting two points. */
  lemma SortTwoPoints(a: Vector2, b: Vector2)
    ensures SortPoints([a, b]) == if Precedes(a, b) then [a, b] else [b, a]
  {
    assert [a, b][1..] == [b] && [b][1..] == [];
    assert SortPoints([b]) == [b];
    assert SortPoints([a, b]) == Insert(a, [b]);
    if !Precedes(a, b) {
      assert Insert(a, [b]) == [b] + Insert(a, []);
    }
  }

  /** The lower pass on two sorted points keeps both. */
  lemma LowerChainOfTwo(least: Vector2, greatest: Vector2)
    ensures LowerChain([least, greatest]) == [least, greatest]
  {
    assert PopNonLeftTurns([], 2, least) + [least] == [least];
    assert [least, greatest][1..] == [greatest];
    assert Scan([], 2, [least, greatest]) == Scan([least], 2, [greatest]);
    assert PopNonLeftTurns([least], 2, greatest) + [greatest] == [least, greatest];
    assert Scan([least], 2, [greatest]) == Scan([least, greatest], 2, []);
  }

  /** Both passes on two sorted points. */
  lemma ChainsOfTwo(least: Vector2, greatest: Vector2)
    ensures MonotoneChain2D([least, greatest], false) == [least]
    ensures MonotoneChain2D([least, greatest], true) == [least, greatest]
  {
    LowerChainOfTwo(least, greatest);
    assert [least, greatest][..1] == [least];
    assert BothChains([least, greatest], false) == [least, least] by {
      assert Orientation(least, greatest, least) == 0.0;
      assert PopNonLeftTurns([least], 2, least) == [least];
      assert PopNonLeftTurns([least, greatest], 2, least) == [least];
      assert Scan([least, greatest], 2, [least]) == Scan([least, least], 2, []);
    }
    assert BothChains([least, greatest], true) == [least, greatest, least] by {
      assert PopNonLeftTurns([least, greatest], 3, least) == [least, greatest];
      assert Scan([least, greatest], 3, [least]) == Scan([least, greatest, least], 3, []);
    }
  }

  /** Two vertices flattened and sorted: the lesser point first. */
  lemma SortedTwoVertices(u: Vector3, v: Vector3)
    ensures var a, b := Flatten(u), Flatten(v);
            SortPoints(FlattenAll([u, v])) == if Precedes(a, b) then [a, b] else [b, a]
  {
    assert FlattenAll([u, v]) == [Flatten(u), Flatten(v)];
    SortTwoPoints(Flatten(u), Flatten(v));
  }

  /** With the guard as written, two input points give only the lesser of
      them: the upper pass pops the other one. */
  lemma HullAsWrittenOfTwoPoints(u: Vector3, v: Vector3)
    ensures HullAsWritten([u, v]) ==
            [Lift(if Precedes(Flatten(u), Flatten(v)) then Flatten(u) else Flatten(v))]
  {
    var a, b := Flatten(u), Flatten(v);
    var least := if Precedes(a, b) then a else b;
    var greatest := if Precedes(a, b) then b else a;
    var sorted := SortPoints(FlattenAll([u, v]));
    SortedTwoVertices(u, v);
    ChainsOfTwo(least, greatest);
    assert MonotoneChain2D(sorted, false) == [least];
    assert HullAsWritten([u, v]) == LiftAll([least]);
    assert LiftAll([least]) == [Lift(least)];
  }

  /** Two input points give both, the lesser first. */
  lemma HullOfTwoPoints(u: Vector3, v: Vector3)
    ensures var a, b := Flatten(u), Flatten(v);
            HullOf([u, v]) ==
            if Precedes(a, b) then [Lift(a), Lift(b)] else [Lift(b), Lift(a)]
  {
    var a, b := Flatten(u), Flatten(v);
    var least := if Precedes(a, b) then a else b;
    var greatest := if Precedes(a, b) then b else a;
    var sorted := SortPoints(FlattenAll([u, v]));
    SortedTwoVertices(u, v);
    ChainsOfTwo(least, greatest);
    assert MonotoneChain2D(sorted, true) == [least, greatest];
    assert HullOf([u, v]) == LiftAll([least, greatest]);
    assert LiftAll([least, greatest]) == [Lift(least), Lift(greatest)];
  }

  /** The least and the greatest point in the sort order are on every hull
      of two or more points: the hull starts with the least one, and the
      greatest one, which ends the lower chain, stays on the stack. The
      guard as written can lose the greatest one (HullExamples). */
  lemma HullKeepsExtremePoints(inputVertices: seq<Vector3>)
    requires |inputVertices| >= 2
    ensures var sorted := SortPoints(FlattenAll(inputVertices));
            var hull := HullOf(inputVertices);
            |sorted| == |inputVertices| &&
            |hull| >= 2 && hull[0] == Lift(sorted[0]) && Lift(sorted[|sorted| - 1]) in hull
  {
    var points := FlattenAll(inputVertices);
    assert |points| == |inputVertices|;
    var sorted := SortPoints(points);
    assert |sorted| == |inputVertices|;
    var hull2D := MonotoneChain2D(sorted, true);
    ChainKeepsExtremePoints(sorted);
    LiftKeepsMember(hull2D, sorted[|sorted| - 1]);
    var hull := LiftAll(hull2D);
    assert HullOf(inputVertices) == hull;
    assert |hull| == |hull2D|;
    assert hull[0] == Lift(hull2D[0]);
  }

  lemma LiftKeepsMember(ps: seq<Vector2>, p: Vector2)
    requires p in ps
    ensures Lift(p) in LiftAll(ps)
  {
    var k :| 0 <= k < |ps| && ps[k] == p;
    assert LiftAll(ps)[k] == Lift(p);
  }

  /** The same on the sorted ground points. */
  lemma ChainKeepsExtremePoints(points2D: seq<Vector2>)
    requires |points2D| >= 2
    ensures var hull := MonotoneChain2D(points2D, true);
            |hull| >= 2 && hull[0] == points2D[0] && points2D[|points2D| - 1] in hull
  {
    var lower := LowerChain(points2D);
    var hull := MonotoneChain2D(points2D, true);
    UpperPassKeepsLowerChain(points2D);
    assert lower[|lower| - 1] == points2D[|points2D| - 1];
    assert hull[|lower| - 1] == lower[|lower| - 1];
    MonotoneChainStart(points2D, true);
  }
}
