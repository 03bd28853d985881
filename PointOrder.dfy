/** The order in which the hull builder sorts the ground-plane points:
    by x, and by y (the world z) among points with the same x
    (Assets/ShadowHideChecher.cs:181-189). */
module PointOrder {
  import opened Geometry

  /** `a.CompareTo(b)` on two coordinates, as -1, 0 or 1. */
  function CompareTo(a: real, b: real): int
  {
    if a < b then -1 else if a == b then 0 else 1
  }

  /** The comparison handed to the sort. */
  function ComparePoints(a: Vector2, b: Vector2): int
  {
    var compareX := CompareTo(a.x, b.x);
    if compareX == 0 then CompareTo(a.y, b.y) else compareX
  }

  /** `a` may stand before `b` in the sorted list. */
  predicate Precedes(a: Vector2, b: Vector2)
  {
    ComparePoints(a, b) <= 0
  }

  predicate Sorted(s: seq<Vector2>)
  {
    forall i, j :: 0 <= i < j < |s| ==> Precedes(s[i], s[j])
  }

  /** The comparison is a total order on points, so that a sorted
      permutation of a list is unique (see SortedPermutationIsUnique) and
      it does not matter which algorithm the sort uses, nor whether it is
      stable. */
  lemma ComparePointsIsTotalOrder(a: Vector2, b: Vector2, c: Vector2)
    ensures ComparePoints(a, b) == 0 <==> a == b
    ensures ComparePoints(a, b) == -ComparePoints(b, a)
    ensures Precedes(a, b) || Precedes(b, a)
    ensures Precedes(a, b) && Precedes(b, a) ==> a == b
    ensures Precedes(a, b) && Precedes(b, c) ==> Precedes(a, c)
  {
  }

  /** Inserts `p` into the sorted list `s`, before the first entry it precedes. */
  function Insert(p: Vector2, s: seq<Vector2>): (r: seq<Vector2>)
    requires Sorted(s)
    ensures Sorted(r)
    ensures |r| == |s| + 1
    ensures multiset(r) == multiset(s) + multiset{p}
  {
    if s == [] then [p]
    else if Precedes(p, s[0]) then [p] + s
    else
      var rest := Insert(p, s[1..]);
      assert s == [s[0]] + s[1..];
      ComparePointsIsTotalOrder(p, s[0], p);
      forall k | 0 <= k < |rest|
        ensures Precedes(s[0], rest[k])
      {
        assert rest[k] in multiset(rest);
        if rest[k] != p {
          assert rest[k] in multiset(s[1..]);
          var i :| 1 <= i < |s| && s[i] == rest[k];
        }
      }
      [s[0]] + rest
  }

  /** The list sorted by the comparison: the result of the in-place sort. */
  function SortPoints(s: seq<Vector2>): (r: seq<Vector2>)
    ensures Sorted(r)
    ensures |r| == |s|
    ensures multiset(r) == multiset(s)
  {
    if s == [] then []
    else
      assert s == [s[0]] + s[1..];
      Insert(s[0], SortPoints(s[1..]))
  }

  /** Two sorted lists with the same entries are the same list. */
  lemma {:induction false} SortedPermutationIsUnique(a: seq<Vector2>, b: seq<Vector2>)
    requires Sorted(a) && Sorted(b)
    requires multiset(a) == multiset(b)
    ensures a == b
  {
    if a != [] {
      assert |b| == |multiset(b)| == |multiset(a)| == |a|;
      SortedHeadsAgree(a, b);
      assert a == [a[0]] + a[1..] && b == [b[0]] + b[1..];
      assert multiset(a[1..]) == multiset(a) - multiset{a[0]} == multiset(b[1..]);
      SortedPermutationIsUnique(a[1..], b[1..]);
    }
  }

  lemma SortedHeadsAgree(a: seq<Vector2>, b: seq<Vector2>)
    requires Sorted(a) && Sorted(b)
    requires multiset(a) == multiset(b)
    requires a != [] && b != []
    ensures a[0] == b[0]
  {
    assert a[0] in multiset(b);
    assert b[0] in multiset(a);
    var i :| 0 <= i < |b| && b[i] == a[0];
    var j :| 0 <= j < |a| && a[j] == b[0];
    assert Precedes(b[0], a[0]) && Precedes(a[0], b[0]);
    ComparePointsIsTotalOrder(a[0], b[0], a[0]);
  }

  /** Whatever algorithm sorts the list, it yields SortPoints. */
  lemma SortIsDetermined(s: seq<Vector2>, sorted: seq<Vector2>)
    requires Sorted(sorted) && multiset(sorted) == multiset(s)
    ensures sorted == SortPoints(s)
  {
    SortedPermutationIsUnique(sorted, SortPoints(s));
  }

  /** The first entry of a sorted permutation is the least point of the
      list: no entry stands strictly before it. */
  lemma SortedHeadIsMinimum(s: seq<Vector2>)
    requires |s| >= 1
    ensures forall j :: 0 <= j < |s| ==> Precedes(SortPoints(s)[0], s[j])
  {
    var r := SortPoints(s);
    forall j | 0 <= j < |s|
      ensures Precedes(r[0], s[j])
    {
      assert s[j] in multiset(r);
      var k :| 0 <= k < |r| && r[k] == s[j];
      if k > 0 {
        assert Precedes(r[0], r[k]);
      } else {
        ComparePointsIsTotalOrder(r[0], r[0], r[0]);
      }
    }
  }
}
