/** What greedy path smoothing promises, stated on the positions of the
    points it keeps. */
module Smoothing {
  import opened Geometry

  predicate StrictlyIncreasing(idx: seq<int>)
  {
    forall i, j :: 0 <= i < j < |idx| ==> idx[i] < idx[j]
  }

  /** Every point strictly after path[a + 1] up to path[b] is visible from path[a]. */
  ghost predicate SkippedVisible(path: seq<Point>, clear: (Point, Point) -> bool, a: int, b: int)
    requires 0 <= a && b < |path|
  {
    forall j :: a + 2 <= j <= b ==> clear(path[a], path[j])
  }

  predicate IndicesIn(idx: seq<int>, n: int)
  {
    forall k :: 0 <= k < |idx| ==> 0 <= idx[k] < n
  }

  /** The greedy smoothing rule, stated on the positions `idx` of the kept
      points: the first and last points are kept, positions increase, every
      skipped point was visible from the last kept point before it, and an
      inner point is kept only because the point after it was not visible. */
  ghost predicate Smoothed(path: seq<Point>, clear: (Point, Point) -> bool, idx: seq<int>)
  {
    && |idx| >= 2 && IndicesIn(idx, |path|)
    && idx[0] == 0 && idx[|idx| - 1] == |path| - 1
    && StrictlyIncreasing(idx)
    && (forall k, l :: 0 <= k && l == k + 1 && l < |idx| ==> SkippedVisible(path, clear, idx[k], idx[l]))
    && (forall k, l :: 0 <= k && l == k + 1 && l < |idx| - 1 ==> !clear(path[idx[k]], path[idx[l] + 1]))
  }

  /** The points at the given positions. */
  function Pick(path: seq<Point>, idx: seq<int>): (r: seq<Point>)
    requires IndicesIn(idx, |path|)
    ensures |r| == |idx| && forall k :: 0 <= k < |idx| ==> r[k] == path[idx[k]]
  {
    seq(|idx|, k requires 0 <= k < |idx| => path[idx[k]])
  }

  /** The loop invariant of smoothPath after looking at path[2 .. i - 1]. */
  ghost predicate Scanned(path: seq<Point>, clear: (Point, Point) -> bool, idx: seq<int>, i: int)
  {
    && |idx| >= 1 && idx[0] == 0 && StrictlyIncreasing(idx)
    && 2 <= i <= |path|
    && (forall k :: 0 <= k < |idx| ==> 0 <= idx[k] <= i - 2)
    && (forall k, l :: 0 <= k && l == k + 1 && l < |idx| ==> SkippedVisible(path, clear, idx[k], idx[l]))
    && (forall k, l :: 0 <= k && l == k + 1 && l < |idx| ==> !clear(path[idx[k]], path[idx[l] + 1]))
    && (forall j :: idx[|idx| - 1] + 2 <= j < i ==> clear(path[idx[|idx| - 1]], path[j]))
  }
}
