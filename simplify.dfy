/**
 * Douglas-Peucker simplification of a polyline (simplify_polyline in src/astro-core/src/scout.rs).
 * The interior point farthest from the chord between the endpoints is found by a scan; when it is
 * farther than the tolerance the line is split there and both halves are simplified, otherwise
 * only the endpoints are kept. The perpendicular distance is a parameter.
 */
module Simplify {

  type Point2 = (real, real)

  /** The distance of a point from the chord between two others. */
  type ChordDistance = (Point2, Point2, Point2) -> real

  /** The scan's state: the farthest point so far and its distance (index 0 with distance 0 at the start). */
  datatype Farthest = Farthest(index: nat, distance: real)

  /** The scan over the interior indices 1 .. k - 1: a later point replaces the best only if strictly farther. */
  function FarthestUpTo(points: seq<Point2>, perp: ChordDistance, k: nat): (f: Farthest)
    requires 2 <= |points| && k < |points|
    ensures f.index < k || f.index == 0
    ensures f.index == 0 ==> f.distance == 0.0
  {
    if k <= 1 then Farthest(0, 0.0)
    else
      var best := FarthestUpTo(points, perp, k - 1);
      var d := perp(points[k - 1], points[0], points[|points| - 1]);
      if d > best.distance then Farthest(k - 1, d) else best
  }

  function ChordDist(points: seq<Point2>, perp: ChordDistance, i: int): real
    requires 2 <= |points| && 0 <= i < |points|
  {
    perp(points[i], points[0], points[|points| - 1])
  }

  /**
   * What the scan finds: index 0 and distance 0 when no interior point is farther than 0;
   * otherwise the first interior point of greatest distance, with that distance.
   */
  lemma {:induction false} FarthestUpToSpec(points: seq<Point2>, perp: ChordDistance, k: nat)
    requires 2 <= |points| && k < |points|
    ensures FarthestUpTo(points, perp, k).distance >= 0.0
    ensures forall i :: 1 <= i < k ==> ChordDist(points, perp, i) <= FarthestUpTo(points, perp, k).distance
    ensures FarthestUpTo(points, perp, k).index == 0 ==> FarthestUpTo(points, perp, k).distance == 0.0
    ensures FarthestUpTo(points, perp, k).index != 0 ==>
              1 <= FarthestUpTo(points, perp, k).index < k
              && FarthestUpTo(points, perp, k).distance == ChordDist(points, perp, FarthestUpTo(points, perp, k).index)
    ensures forall i :: 1 <= i < FarthestUpTo(points, perp, k).index ==>
              ChordDist(points, perp, i) < FarthestUpTo(points, perp, k).distance
  {
    if k > 1 {
      FarthestUpToSpec(points, perp, k - 1);
    }
  }

  /** The scan of simplify_polyline over the interior points. */
  method FindFarthest(points: seq<Point2>, perp: ChordDistance) returns (maxIdx: nat, maxDist: real)
    requires 2 <= |points|
    ensures Farthest(maxIdx, maxDist) == FarthestUpTo(points, perp, |points| - 1)
  {
    maxDist := 0.0;
    maxIdx := 0;
    var first := points[0];
    var last := points[|points| - 1];
    for i := 1 to |points| - 1
      invariant Farthest(maxIdx, maxDist) == FarthestUpTo(points, perp, i)
    {
      var dist := perp(points[i], first, last);
      if dist > maxDist {
        maxDist := dist;
        maxIdx := i;
      }
    }
  }

  /**
   * simplify_polyline. A tolerance of at least 0 makes a split point interior (its distance
   * exceeds 0), so both halves are shorter than the whole.
   */
  function SimplifyPolyline(points: seq<Point2>, tolerance: real, perp: ChordDistance): (r: seq<Point2>)
    requires tolerance >= 0.0
    ensures |points| <= 2 ==> r == points
    ensures |points| > 2 ==> 2 <= |r| <= |points| && r[0] == points[0] && r[|r| - 1] == points[|points| - 1]
    decreases |points|
  {
    if |points| <= 2 then points
    else
      var f := FarthestUpTo(points, perp, |points| - 1);
      if f.distance > tolerance then
        var left := SimplifyPolyline(points[..f.index + 1], tolerance, perp);
        var right := SimplifyPolyline(points[f.index..], tolerance, perp);
        left[..|left| - 1] + right
      else
        [points[0], points[|points| - 1]]
  }

  /** The indices of the input points that simplify_polyline keeps, mirroring its recursion. */
  ghost function KeptIndices(points: seq<Point2>, tolerance: real, perp: ChordDistance): (r: seq<int>)
    requires tolerance >= 0.0
    decreases |points|
  {
    if |points| == 0 then []
    else if |points| == 1 then [0]
    else if |points| == 2 then [0, 1]
    else
      var f := FarthestUpTo(points, perp, |points| - 1);
      if f.distance > tolerance then
        var left := KeptIndices(points[..f.index + 1], tolerance, perp);
        var right := KeptIndices(points[f.index..], tolerance, perp);
        (if |left| > 0 then left[..|left| - 1] else []) + Shift(right, f.index)
      else
        [0, |points| - 1]
  }

  function Shift(idx: seq<int>, m: int): (r: seq<int>)
    ensures |r| == |idx| && forall k :: 0 <= k < |idx| ==> r[k] == idx[k] + m
  {
    seq(|idx|, k requires 0 <= k < |idx| => idx[k] + m)
  }

  /** `r` is `points` at the strictly increasing indices `idx`, from the first point to the last. */
  ghost predicate SubsequenceAt(r: seq<Point2>, points: seq<Point2>, idx: seq<int>)
  {
    |idx| == |r|
    && (forall k :: 0 <= k < |idx| ==> 0 <= idx[k] < |points| && r[k] == points[idx[k]])
    && (forall j, k :: 0 <= j < k < |idx| ==> idx[j] < idx[k])
    && (|points| > 0 ==> |idx| > 0 && idx[0] == 0 && idx[|idx| - 1] == |points| - 1)
  }

  /** One step of the recursion, where the farthest point is split on. */
  lemma SimplifySplits(points: seq<Point2>, tolerance: real, perp: ChordDistance, m: nat)
    requires tolerance >= 0.0 && |points| > 2
    requires FarthestUpTo(points, perp, |points| - 1).distance > tolerance
    requires m == FarthestUpTo(points, perp, |points| - 1).index
    ensures 0 < m < |points| - 1
    ensures SimplifyPolyline(points, tolerance, perp)
         == SimplifyPolyline(points[..m + 1], tolerance, perp)[..|SimplifyPolyline(points[..m + 1], tolerance, perp)| - 1]
            + SimplifyPolyline(points[m..], tolerance, perp)
  {
  }

  /** Up to two points are kept as they are. */
  lemma ShortKept(points: seq<Point2>, tolerance: real, perp: ChordDistance)
    requires tolerance >= 0.0 && |points| <= 2
    ensures SubsequenceAt(SimplifyPolyline(points, tolerance, perp), points, KeptIndices(points, tolerance, perp))
  {
  }

  /** Without a split only the two endpoints are kept. */
  lemma ChordKept(points: seq<Point2>, tolerance: real, perp: ChordDistance)
    requires tolerance >= 0.0 && |points| > 2
    requires FarthestUpTo(points, perp, |points| - 1).distance <= tolerance
    ensures SubsequenceAt(SimplifyPolyline(points, tolerance, perp), points, KeptIndices(points, tolerance, perp))
  {
    assert SimplifyPolyline(points, tolerance, perp) == [points[0], points[|points| - 1]];
    assert KeptIndices(points, tolerance, perp) == [0, |points| - 1];
  }

  /** The same step for the kept indices, the right half's shifted by the split point. */
  lemma KeptSplits(points: seq<Point2>, tolerance: real, perp: ChordDistance, m: nat)
    requires tolerance >= 0.0 && |points| > 2
    requires FarthestUpTo(points, perp, |points| - 1).distance > tolerance
    requires m == FarthestUpTo(points, perp, |points| - 1).index
    requires |KeptIndices(points[..m + 1], tolerance, perp)| > 0
    ensures KeptIndices(points, tolerance, perp)
         == KeptIndices(points[..m + 1], tolerance, perp)[..|KeptIndices(points[..m + 1], tolerance, perp)| - 1]
            + Shift(KeptIndices(points[m..], tolerance, perp), m)
  {
  }

  /** Joining the two halves at the split point, dropping the left half's copy of it. */
  lemma JoinSubsequences(points: seq<Point2>, m: int, left: seq<Point2>, li: seq<int>,
                         right: seq<Point2>, ri: seq<int>)
    requires 0 < m < |points| - 1
    requires SubsequenceAt(left, points[..m + 1], li)
    requires SubsequenceAt(right, points[m..], ri)
    ensures SubsequenceAt(left[..|left| - 1] + right, points, li[..|li| - 1] + Shift(ri, m))
  {
    var r := left[..|left| - 1] + right;
    var idx := li[..|li| - 1] + Shift(ri, m);
    forall k | 0 <= k < |idx|
      ensures 0 <= idx[k] < |points| && r[k] == points[idx[k]]
    {
      if k < |li| - 1 {
        assert r[k] == left[k];
      } else {
        assert r[k] == right[k - (|li| - 1)];
      }
    }
    forall j, k | 0 <= j < k < |idx|
      ensures idx[j] < idx[k]
    {
      if j < |li| - 1 && k >= |li| - 1 {
        assert idx[j] < li[|li| - 1] == m;
      }
    }
  }

  /** The simplified line is a subsequence of the input that starts and ends where the input does. */
  lemma {:induction false} SimplifyIsSubsequence(points: seq<Point2>, tolerance: real, perp: ChordDistance)
    requires tolerance >= 0.0
    ensures SubsequenceAt(SimplifyPolyline(points, tolerance, perp), points, KeptIndices(points, tolerance, perp))
    decreases |points|
  {
    if |points| <= 2 {
      ShortKept(points, tolerance, perp);
    } else {
      var f := FarthestUpTo(points, perp, |points| - 1);
      if f.distance <= tolerance {
        ChordKept(points, tolerance, perp);
      } else {
        var m := f.index;
        var lp := points[..m + 1];
        var rp := points[m..];
        SimplifyIsSubsequence(lp, tolerance, perp);
        SimplifyIsSubsequence(rp, tolerance, perp);
        var left := SimplifyPolyline(lp, tolerance, perp);
        var li := KeptIndices(lp, tolerance, perp);
        var right := SimplifyPolyline(rp, tolerance, perp);
        var ri := KeptIndices(rp, tolerance, perp);
        SimplifySplits(points, tolerance, perp, m);
        KeptSplits(points, tolerance, perp, m);
        JoinSubsequences(points, m, left, li, right, ri);
      }
    }
  }

  /**
   * On more than two points, the line collapses to its endpoints exactly when every interior
   * point lies within the tolerance of the chord.
   */
  lemma SimplifyToChordIff(points: seq<Point2>, tolerance: real, perp: ChordDistance)
    requires tolerance >= 0.0 && |points| > 2
    ensures |SimplifyPolyline(points, tolerance, perp)| == 2 <==>
              forall i :: 1 <= i < |points| - 1 ==> ChordDist(points, perp, i) <= tolerance
  {
    var f := FarthestUpTo(points, perp, |points| - 1);
    FarthestUpToSpec(points, perp, |points| - 1);
    if f.distance > tolerance {
      var m := f.index;
      assert ChordDist(points, perp, m) > tolerance;
      var left := SimplifyPolyline(points[..m + 1], tolerance, perp);
      var right := SimplifyPolyline(points[m..], tolerance, perp);
      assert |left| >= 2 && |right| >= 2;
    }
  }
}
