/** Ramer–Douglas–Peucker simplification of a drawn stroke.

    `Math.hypot` is not modelled directly: every distance is carried as its
    square. The square root is strictly increasing on non-negative reals, so
    `hypot(u) > hypot(v)` holds exactly when the squares compare the same way,
    and `hypot(u) > tolerance` exactly when `ExceedsTolerance(u², tolerance)`. */
module Simplify {
  import opened JsRuntime
  import opened Drawing

  /** `Math.hypot(u, v)` squared. */
  function HypotSq(u: real, v: real): (r: real)
    ensures r >= 0.0
  {
    u * u + v * v
  }

  /** The dot product of `(ux, uy)` and `(dx, dy)`. */
  function Dot(ux: real, uy: real, dx: real, dy: real): real
  {
    ux * dx + uy * dy
  }

  /** A position in the plane. */
  datatype Vec = Vec(x: real, y: real)

  /** The point `a + s·(b - a)` of the line through `a` and `b`. */
  function Along(a: Point, b: Point, s: real): Vec
  {
    Vec(a.x + s * (b.x - a.x), a.y + s * (b.y - a.y))
  }

  /** Squared distance from `p` to the position `q`. */
  function DistanceSq(p: Point, q: Vec): (r: real)
    ensures r >= 0.0
  {
    HypotSq(p.x - q.x, p.y - q.y)
  }

  /** Where the foot of the perpendicular from `p` falls on the line through
      `a` and `b`, as a multiple of `b - a`: `((p - a)·(b - a)) / |b - a|²`. */
  function FootParameter(p: Point, a: Point, b: Point): (t: real)
    requires a.x != b.x || a.y != b.y
    ensures p.x == a.x && p.y == a.y ==> t == 0.0
  {
    HypotSqPositive(b.x - a.x, b.y - a.y);
    Dot(p.x - a.x, p.y - a.y, b.x - a.x, b.y - a.y) / HypotSq(b.x - a.x, b.y - a.y)
  }

  /** Squared distance from `p` to the line through `a` and `b` (the foot of
      the perpendicular), or to `a` itself when the chord has zero length. */
  function PerpendicularDistanceSq(p: Point, a: Point, b: Point): (r: real)
    ensures r >= 0.0
    ensures a.x == b.x && a.y == b.y ==> r == HypotSq(p.x - a.x, p.y - a.y)
    ensures p.x == a.x && p.y == a.y ==> r == 0.0
  {
    if a.x == b.x && a.y == b.y then
      HypotSq(p.x - a.x, p.y - a.y)
    else
      DistanceSq(p, Along(a, b, FootParameter(p, a, b)))
  }

  // Sign facts about products. The solver loses track of a square once it
  // is named, so these lemmas take the product as a separate argument `r`.

  lemma ProductPositive(x: real, y: real, r: real)
    requires x > 0.0 && y > 0.0 && r == x * y
    ensures r > 0.0
  {
  }

  lemma SquareNonNegative(u: real, r: real)
    requires r == u * u
    ensures r >= 0.0
  {
  }

  lemma ProductNonNegative(x: real, y: real, r: real)
    requires x >= 0.0 && y >= 0.0 && r == x * y
    ensures r >= 0.0
  {
  }

  /** A chord of non-zero length has a positive squared length. */
  lemma HypotSqPositive(u: real, v: real)
    requires u != 0.0 || v != 0.0
    ensures HypotSq(u, v) > 0.0
  {
    var su, sv := u * u, v * v;
    SquareNonNegative(u, su);
    SquareNonNegative(v, sv);
    if u > 0.0 {
      ProductPositive(u, u, su);
    } else if u < 0.0 {
      ProductPositive(-u, -u, su);
    } else if v > 0.0 {
      ProductPositive(v, v, sv);
    } else {
      ProductPositive(-v, -v, sv);
    }
  }

  /** `c - 2·s·dot + s²·n2`: a squared distance along a line, as a
      polynomial in the parameter `s`. */
  function Quadratic(c: real, dot: real, n2: real, s: real): real
  {
    c - 2.0 * s * dot + s * s * n2
  }

  /** Squared distance from `p` to the point at parameter `s` on the line
      through `a` and `b`, expanded in `s`. */
  lemma AlongExpanded(p: Point, a: Point, b: Point, s: real)
    ensures DistanceSq(p, Along(a, b, s))
         == Quadratic(HypotSq(p.x - a.x, p.y - a.y), Dot(p.x - a.x, p.y - a.y, b.x - a.x, b.y - a.y),
                      HypotSq(b.x - a.x, b.y - a.y), s)
  {
    var q := Along(a, b, s);
    assert DistanceSq(p, q) == HypotSq(p.x - q.x, p.y - q.y);
    LineDistanceExpanded(p.x - q.x, p.y - q.y, p.x - a.x, p.y - a.y, b.x - a.x, b.y - a.y, s);
  }

  /** `AlongExpanded` on coordinates: the offset `(ex, ey) = u - s·d`. */
  lemma LineDistanceExpanded(ex: real, ey: real, ux: real, uy: real, dx: real, dy: real, s: real)
    requires ex == ux - s * dx && ey == uy - s * dy
    ensures HypotSq(ex, ey) == Quadratic(HypotSq(ux, uy), Dot(ux, uy, dx, dy), HypotSq(dx, dy), s)
  {
  }

  /** `Quadratic(c, dot, n2, s)` is least at `s = dot / n2`. */
  lemma QuadraticLeastAt(c: real, dot: real, n2: real, s: real, t: real)
    requires n2 > 0.0 && t * n2 == dot
    ensures Quadratic(c, dot, n2, t) <= Quadratic(c, dot, n2, s)
  {
    var q := (s - t) * (s - t);
    SquareNonNegative(s - t, q);
    var gap := n2 * q;
    ProductNonNegative(n2, q, gap);
    assert t * t * n2 == t * dot;
    assert s * dot == s * t * n2;
    assert Quadratic(c, dot, n2, s) - Quadratic(c, dot, n2, t) == gap;
  }

  /** On the line through `a` and `b`, the point at the parameter `t` with
      `t·|b - a|² = (p - a)·(b - a)` is the nearest to `p`. */
  lemma FootIsNearest(p: Point, a: Point, b: Point, t: real, s: real)
    requires HypotSq(b.x - a.x, b.y - a.y) > 0.0
    requires t * HypotSq(b.x - a.x, b.y - a.y) == Dot(p.x - a.x, p.y - a.y, b.x - a.x, b.y - a.y)
    ensures DistanceSq(p, Along(a, b, t)) <= DistanceSq(p, Along(a, b, s))
  {
    AlongExpanded(p, a, b, s);
    AlongExpanded(p, a, b, t);
    QuadraticLeastAt(HypotSq(p.x - a.x, p.y - a.y), Dot(p.x - a.x, p.y - a.y, b.x - a.x, b.y - a.y),
      HypotSq(b.x - a.x, b.y - a.y), s, t);
  }

  /** The foot parameter times the squared chord length is the dot product
      it was divided from. */
  lemma FootParameterScaled(p: Point, a: Point, b: Point)
    requires a.x != b.x || a.y != b.y
    ensures FootParameter(p, a, b) * HypotSq(b.x - a.x, b.y - a.y) == Dot(p.x - a.x, p.y - a.y, b.x - a.x, b.y - a.y)
  {
    HypotSqPositive(b.x - a.x, b.y - a.y);
    DivThenMul(Dot(p.x - a.x, p.y - a.y, b.x - a.x, b.y - a.y), HypotSq(b.x - a.x, b.y - a.y));
  }

  /** The perpendicular distance is the least distance from `p` to any point
      `a + s·(b - a)` of the chord's line. */
  lemma PerpendicularIsClosest(p: Point, a: Point, b: Point, s: real)
    ensures PerpendicularDistanceSq(p, a, b) <= DistanceSq(p, Along(a, b, s))
  {
    if a.x == b.x && a.y == b.y {
      assert Along(a, b, s) == Vec(a.x, a.y);
    } else {
      HypotSqPositive(b.x - a.x, b.y - a.y);
      FootParameterScaled(p, a, b);
      FootIsNearest(p, a, b, FootParameter(p, a, b), s);
    }
  }

  /** The far end of the chord is at distance 0 from it. */
  lemma ChordEndOnChord(a: Point, b: Point)
    ensures PerpendicularDistanceSq(b, a, b) == 0.0
  {
    if a.x != b.x || a.y != b.y {
      HypotSqPositive(b.x - a.x, b.y - a.y);
      assert Dot(b.x - a.x, b.y - a.y, b.x - a.x, b.y - a.y) == HypotSq(b.x - a.x, b.y - a.y);
      DivSelf(HypotSq(b.x - a.x, b.y - a.y));
      assert FootParameter(b, a, b) == 1.0;
      assert Along(a, b, 1.0) == Vec(b.x, b.y);
    }
  }

  /** `hypot > tolerance` for a distance whose square is `distanceSq`. */
  predicate ExceedsTolerance(distanceSq: real, tolerance: real)
  {
    tolerance < 0.0 || distanceSq > tolerance * tolerance
  }

  /** The split test of `simplifyPath` for a given tolerance, as a value. */
  function ToleranceTest(tolerance: real): (exceeds: real -> bool)
    ensures forall d :: exceeds(d) == ExceedsTolerance(d, tolerance)
  {
    d => ExceedsTolerance(d, tolerance)
  }

  /** A tolerance that is not negative never splits at distance 0. */
  lemma ToleranceRejectsZero(tolerance: real)
    requires tolerance >= 0.0
    ensures !ToleranceTest(tolerance)(0.0)
  {
    var sq := tolerance * tolerance;
    SquareNonNegative(tolerance, sq);
  }

  // The recursion below is stated for any squared distance `dist` to the
  // chord and any split test `exceeds`; `simplifyPath` itself uses
  // `PerpendicularDistanceSq` and `ToleranceTest(tolerance)`. Nothing in the
  // recursion depends on the geometry, only on the comparisons.

  /** A squared distance of a point to the chord between two others. */
  type Distance = (Point, Point, Point) -> real

  /** Squared distance of point `i` to the chord from the first to the last point. */
  function ChordDistanceSq(dist: Distance, p: seq<Point>, i: int): real
    requires 0 <= i < |p|
  {
    dist(p[i], p[0], p[|p| - 1])
  }

  /** The `maxDistance` record of the search: the largest distance seen so far
      and where it was found. */
  datatype Farthest = Farthest(distance: real, index: nat)

  /** The record after the search has looked at the interior points 1 .. end-1:
      the first of them with the largest distance, or (0, 0) when no distance
      is above 0 (the comparison is strict and the record starts at 0). */
  function Scan(dist: Distance, p: seq<Point>, end: int): (f: Farthest)
    requires 2 <= |p| && 1 <= end <= |p| - 1
    ensures f.index < end && f.distance >= 0.0
    ensures f.index == 0 ==> f.distance == 0.0
    ensures f.index >= 1 ==> f.distance == ChordDistanceSq(dist, p, f.index) > 0.0
    decreases end
  {
    if end == 1 then Farthest(0.0, 0)
    else
      var prev := Scan(dist, p, end - 1);
      var d := ChordDistanceSq(dist, p, end - 1);
      if d > prev.distance then Farthest(d, end - 1) else prev
  }

  /** The record holds the largest distance among the interior points looked
      at, and the first point with that distance. */
  lemma {:induction false} ScanIsFirstMaximum(dist: Distance, p: seq<Point>, end: int)
    requires 2 <= |p| && 1 <= end <= |p| - 1
    ensures forall i :: 1 <= i < end ==> ChordDistanceSq(dist, p, i) <= Scan(dist, p, end).distance
    ensures forall i :: 1 <= i < Scan(dist, p, end).index ==> ChordDistanceSq(dist, p, i) < Scan(dist, p, end).distance
    decreases end
  {
    if end > 1 {
      ScanIsFirstMaximum(dist, p, end - 1);
    }
  }

  /** `simplifyPath`, as a recursive function on slices. A split test that
      rejects distance 0 only ever splits at an interior point, so both
      halves are shorter and the recursion ends. */
  function Simplify(dist: Distance, exceeds: real -> bool, p: seq<Point>): (r: seq<Point>)
    requires !exceeds(0.0)
    ensures |p| <= 2 ==> r == p
    ensures |p| >= 2 ==> 2 <= |r| <= |p|
    decreases |p|, 1
  {
    if |p| <= 2 then p
    else
      var f := Scan(dist, p, |p| - 1);
      if exceeds(f.distance) then Joined(dist, exceeds, p, f.index) else [p[0], p[|p| - 1]]
  }

  /** The two halves around the interior point `m`, each simplified, joined
      so that `m` appears once. */
  function Joined(dist: Distance, exceeds: real -> bool, p: seq<Point>, m: int): (r: seq<Point>)
    requires !exceeds(0.0) && 0 < m < |p| - 1
    ensures 3 <= |r| <= |p|
    decreases |p|, 0
  {
    var left := Simplify(dist, exceeds, p[..m + 1]);
    var right := Simplify(dist, exceeds, p[m..]);
    left[..|left| - 1] + right
  }

  /** `Joined` for halves already simplified. */
  lemma JoinedOf(dist: Distance, exceeds: real -> bool, p: seq<Point>, m: int, left: seq<Point>, right: seq<Point>)
    requires !exceeds(0.0) && 0 < m < |p| - 1
    requires left == Simplify(dist, exceeds, p[..m + 1]) && right == Simplify(dist, exceeds, p[m..])
    ensures 2 <= |left| && 2 <= |right|
    ensures Joined(dist, exceeds, p, m) == left[..|left| - 1] + right
  {
  }

  /** One unfolding of `Simplify` when the farthest point is too far. */
  lemma SimplifySplits(dist: Distance, exceeds: real -> bool, p: seq<Point>, m: int)
    requires !exceeds(0.0) && |p| > 2
    requires m == Scan(dist, p, |p| - 1).index && exceeds(Scan(dist, p, |p| - 1).distance)
    ensures 0 < m < |p| - 1
    ensures Simplify(dist, exceeds, p) == Joined(dist, exceeds, p, m)
  {
  }

  /** One unfolding of `Simplify` when no interior point is too far. */
  lemma SimplifyCollapses(dist: Distance, exceeds: real -> bool, p: seq<Point>)
    requires !exceeds(0.0) && |p| > 2
    requires !exceeds(Scan(dist, p, |p| - 1).distance)
    ensures Simplify(dist, exceeds, p) == [p[0], p[|p| - 1]]
  {
  }

  /** The search loop of `simplifyPath`: scans the interior points, replacing
      the record whenever a strictly larger distance turns up. */
  method FarthestFromChord(points: seq<Point>) returns (maxDistance: Farthest)
    requires |points| >= 2
    ensures maxDistance == Scan(PerpendicularDistanceSq, points, |points| - 1)
  {
    maxDistance := Farthest(0.0, 0);
    for i := 1 to |points| - 1
      invariant maxDistance == Scan(PerpendicularDistanceSq, points, i)
    {
      var distance := PerpendicularDistanceSq(points[i], points[0], points[|points| - 1]);
      if distance > maxDistance.distance {
        maxDistance := maxDistance.(distance := distance, index := i);
      }
    }
  }

  /** The simplifier: polylines of at most two points come back as they are;
      otherwise the interior point farthest from the chord is found and, when
      it is farther than `tolerance`, both halves are simplified and joined
      sharing that point once; else only the two endpoints remain. */
  method SimplifyPath(points: seq<Point>, tolerance: real) returns (r: seq<Point>)
    requires tolerance >= 0.0
    ensures r == Simplify(PerpendicularDistanceSq, ToleranceTest(tolerance), points)
    decreases |points|, 1
  {
    ToleranceRejectsZero(tolerance);
    if |points| <= 2 {
      return points;
    }
    var maxDistance := FarthestFromChord(points);
    if ExceedsTolerance(maxDistance.distance, tolerance) {
      r := SimplifyHalves(points, tolerance, maxDistance.index);
      return;
    }
    SimplifyCollapses(PerpendicularDistanceSq, ToleranceTest(tolerance), points);
    return [points[0], points[|points| - 1]];
  }

  /** The recursive step of `simplifyPath`: both halves around the farthest
      point `m` are simplified and joined, sharing that point once. */
  method SimplifyHalves(points: seq<Point>, tolerance: real, m: int) returns (r: seq<Point>)
    requires tolerance >= 0.0 && |points| > 2
    requires m == Scan(PerpendicularDistanceSq, points, |points| - 1).index
    requires ExceedsTolerance(Scan(PerpendicularDistanceSq, points, |points| - 1).distance, tolerance)
    ensures r == Simplify(PerpendicularDistanceSq, ToleranceTest(tolerance), points)
    decreases |points|, 0
  {
    ToleranceRejectsZero(tolerance);
    SimplifySplits(PerpendicularDistanceSq, ToleranceTest(tolerance), points, m);
    var left := SimplifyPath(points[..m + 1], tolerance);
    var right := SimplifyPath(points[m..], tolerance);
    JoinedOf(PerpendicularDistanceSq, ToleranceTest(tolerance), points, m, left, right);
    return left[..|left| - 1] + right;
  }

  /** `r` is the subsequence of `s` picked by the strictly increasing positions `idx`. */
  ghost predicate SubsequenceAt(r: seq<Point>, s: seq<Point>, idx: seq<int>)
  {
    && |idx| == |r|
    && (forall i :: 0 <= i < |idx| ==> 0 <= idx[i] < |s| && r[i] == s[idx[i]])
    && (forall i, j :: 0 <= i < j < |idx| ==> idx[i] < idx[j])
  }

  /** `r` is picked from `p` by `idx`, keeping the first and the last position. */
  ghost predicate PicksEnds(r: seq<Point>, p: seq<Point>, idx: seq<int>)
  {
    && SubsequenceAt(r, p, idx)
    && (|p| > 0 ==> |idx| > 0 && idx[0] == 0 && idx[|idx| - 1] == |p| - 1)
  }

  /** Joining the picks of the two halves, dropping the duplicate of the split
      position `m`, picks from the whole polyline. */
  lemma JoinIndices(p: seq<Point>, m: int, left: seq<Point>, right: seq<Point>, il: seq<int>, ir: seq<int>)
    returns (idx: seq<int>)
    requires 0 < m < |p| - 1
    requires PicksEnds(left, p[..m + 1], il) && PicksEnds(right, p[m..], ir)
    ensures PicksEnds(left[..|left| - 1] + right, p, idx)
    ensures 1 <= |left| - 1 < |idx| - 1 && idx[|left| - 1] == m
  {
    assert |il| >= 2 && |ir| >= 2;
    var shifted := seq(|ir|, i requires 0 <= i < |ir| => m + ir[i]);
    idx := il[..|il| - 1] + shifted;
    var r := left[..|left| - 1] + right;
    forall i | 0 <= i < |idx|
      ensures 0 <= idx[i] < |p| && r[i] == p[idx[i]]
    {
      if i < |il| - 1 {
        assert r[i] == left[i] == p[..m + 1][il[i]];
      } else {
        var q := i - (|il| - 1);
        assert r[i] == right[q] == p[m..][ir[q]];
      }
    }
    forall i, j | 0 <= i < j < |idx|
      ensures idx[i] < idx[j]
    {
      if j < |il| - 1 {
      } else if i < |il| - 1 {
        assert idx[i] < m;
      } else {
      }
    }
  }

  /** The simplified polyline is an order-preserving subsequence of the input
      that keeps its first and last positions: no point is made up, moved or
      repeated. */
  lemma {:induction false} SimplifyIndices(dist: Distance, exceeds: real -> bool, p: seq<Point>)
    returns (idx: seq<int>)
    requires !exceeds(0.0)
    ensures PicksEnds(Simplify(dist, exceeds, p), p, idx)
    decreases |p|
  {
    if |p| <= 2 {
      idx := ShortPicks(dist, exceeds, p);
    } else if !exceeds(Scan(dist, p, |p| - 1).distance) {
      idx := CollapsePicks(dist, exceeds, p);
    } else {
      var j;
      idx, j := SplitPicks(dist, exceeds, p, Scan(dist, p, |p| - 1).index);
    }
  }

  /** A polyline of at most two points is its own subsequence. */
  lemma ShortPicks(dist: Distance, exceeds: real -> bool, p: seq<Point>) returns (idx: seq<int>)
    requires !exceeds(0.0) && |p| <= 2
    ensures PicksEnds(Simplify(dist, exceeds, p), p, idx)
  {
    if |p| == 0 {
      idx := [];
    } else if |p| == 1 {
      idx := [0];
    } else {
      idx := [0, 1];
    }
  }

  /** A collapsed polyline picks the first and the last point. */
  lemma CollapsePicks(dist: Distance, exceeds: real -> bool, p: seq<Point>) returns (idx: seq<int>)
    requires !exceeds(0.0) && |p| > 2
    requires !exceeds(Scan(dist, p, |p| - 1).distance)
    ensures PicksEnds(Simplify(dist, exceeds, p), p, idx)
  {
    SimplifyCollapses(dist, exceeds, p);
    idx := [0, |p| - 1];
  }

  /** The picks of a split: the result is a subsequence of the input whose
      position `j` holds the split point, with the two simplified halves on
      either side of it. */
  lemma {:induction false} SplitPicks(dist: Distance, exceeds: real -> bool, p: seq<Point>, m: int)
    returns (idx: seq<int>, j: int)
    requires !exceeds(0.0) && |p| > 2
    requires m == Scan(dist, p, |p| - 1).index && exceeds(Scan(dist, p, |p| - 1).distance)
    ensures PicksEnds(Simplify(dist, exceeds, p), p, idx)
    ensures 1 <= j < |idx| - 1 && idx[j] == m
    ensures Simplify(dist, exceeds, p)[..j + 1] == Simplify(dist, exceeds, p[..m + 1])
    ensures Simplify(dist, exceeds, p)[j..] == Simplify(dist, exceeds, p[m..])
    decreases |p|, 0
  {
    SimplifySplits(dist, exceeds, p, m);
    var lp, rp := p[..m + 1], p[m..];
    var il := SimplifyIndices(dist, exceeds, lp);
    var ir := SimplifyIndices(dist, exceeds, rp);
    var left, right := Simplify(dist, exceeds, lp), Simplify(dist, exceeds, rp);
    idx := JoinIndices(p, m, left, right, il, ir);
    j := |left| - 1;
    JoinedHalves(left, right);
    JoinedOf(dist, exceeds, p, m, left, right);
  }

  /** Cutting `r` at `j` and joining the halves, sharing position `j` once,
      gives `r` back. */
  lemma Rejoined(r: seq<Point>, j: int, left: seq<Point>, right: seq<Point>)
    requires 0 <= j < |r| && left == r[..j + 1] && right == r[j..]
    ensures left[..|left| - 1] + right == r
  {
    assert left[..|left| - 1] == r[..j];
  }

  /** When `right` starts with the last point of `left`, dropping that point
      from `left` and appending `right` keeps `left` up to position
      `|left| - 1` and `right` from there on. */
  lemma JoinedHalves(left: seq<Point>, right: seq<Point>)
    requires |left| >= 1 && |right| >= 1 && right[0] == left[|left| - 1]
    ensures (left[..|left| - 1] + right)[..|left|] == left
    ensures (left[..|left| - 1] + right)[|left| - 1..] == right
  {
  }

  /** A point of a subsequence that keeps the endpoints has the same chord
      distance as in the original. */
  lemma SamePick(dist: Distance, r: seq<Point>, p: seq<Point>, i: int, k: int)
    requires 0 <= i < |r| && 0 <= k < |p| && r[i] == p[k]
    requires r[0] == p[0] && r[|r| - 1] == p[|p| - 1]
    ensures ChordDistanceSq(dist, r, i) == ChordDistanceSq(dist, p, k)
  {
  }

  /** The record stays below `v` while every distance seen is below `v`. */
  lemma {:induction false} ScanBelow(dist: Distance, r: seq<Point>, end: int, v: real)
    requires 2 <= |r| && 1 <= end <= |r| - 1 && v > 0.0
    requires forall i :: 1 <= i < end ==> ChordDistanceSq(dist, r, i) < v
    ensures Scan(dist, r, end).distance < v
    decreases end
  {
    if end > 1 {
      ScanBelow(dist, r, end - 1, v);
    }
  }

  /** When point `j` is strictly farther than every earlier interior point
      and at least as far as every later one, the search ends on `j`. */
  lemma {:induction false} ScanFindsUnique(dist: Distance, r: seq<Point>, j: int, v: real, end: int)
    requires 2 <= |r| && 1 <= j < end <= |r| - 1
    requires ChordDistanceSq(dist, r, j) == v && v > 0.0
    requires forall i :: 1 <= i < j ==> ChordDistanceSq(dist, r, i) < v
    requires forall i :: j < i < |r| - 1 ==> ChordDistanceSq(dist, r, i) <= v
    ensures Scan(dist, r, end) == Farthest(v, j)
    decreases end
  {
    if end == j + 1 {
      ScanBelow(dist, r, j, v);
    } else {
      ScanFindsUnique(dist, r, j, v, end - 1);
    }
  }

  /** For three or more points and a tolerance that is not negative, the
      result is just the two endpoints exactly when no interior point is
      farther from the chord than `tolerance`; otherwise it keeps at least
      one interior point. */
  lemma CollapseExactly(dist: Distance, p: seq<Point>, tolerance: real)
    requires tolerance >= 0.0 && |p| >= 3
    ensures (forall i :: 1 <= i < |p| - 1 ==> !ExceedsTolerance(ChordDistanceSq(dist, p, i), tolerance))
      <==> Simplify(dist, ToleranceTest(tolerance), p) == [p[0], p[|p| - 1]]
    ensures |Simplify(dist, ToleranceTest(tolerance), p)| == 2
      <==> Simplify(dist, ToleranceTest(tolerance), p) == [p[0], p[|p| - 1]]
  {
    ToleranceRejectsZero(tolerance);
    var exceeds := ToleranceTest(tolerance);
    var f := Scan(dist, p, |p| - 1);
    if exceeds(f.distance) {
      var idx, j := SplitPicks(dist, exceeds, p, f.index);
      assert ChordDistanceSq(dist, p, f.index) == f.distance;
    } else {
      SimplifyCollapses(dist, exceeds, p);
      ScanIsFirstMaximum(dist, p, |p| - 1);
      forall i | 1 <= i < |p| - 1
        ensures !ExceedsTolerance(ChordDistanceSq(dist, p, i), tolerance)
      {
        assert ChordDistanceSq(dist, p, i) <= f.distance;
      }
    }
  }

  /** With a negative tolerance and a slice whose interior lies on the chord,
      the search ends on index 0, the tolerance test still passes, and the
      right-hand slice is the whole input again: the source recurses on the
      same array without end. */
  lemma NegativeToleranceStalls(dist: Distance, p: seq<Point>, tolerance: real)
    requires tolerance < 0.0 && |p| >= 3
    requires forall i :: 1 <= i < |p| - 1 ==> ChordDistanceSq(dist, p, i) == 0.0
    ensures Scan(dist, p, |p| - 1) == Farthest(0.0, 0)
    ensures ExceedsTolerance(Scan(dist, p, |p| - 1).distance, tolerance)
    ensures p[Scan(dist, p, |p| - 1).index..] == p
  {
  }

  /** Simplifying a simplified polyline again changes nothing. */
  lemma {:induction false} SimplifyIdempotent(dist: Distance, exceeds: real -> bool, p: seq<Point>)
    requires !exceeds(0.0)
    ensures Simplify(dist, exceeds, Simplify(dist, exceeds, p)) == Simplify(dist, exceeds, p)
    decreases |p|, 1
  {
    if |p| > 2 {
      if exceeds(Scan(dist, p, |p| - 1).distance) {
        SplitIdempotent(dist, exceeds, p);
      } else {
        SimplifyCollapses(dist, exceeds, p);
      }
    }
  }

  /** `SimplifyIdempotent` when the polyline is split: the result splits
      again at the same point, into halves that are already simplified. */
  lemma {:induction false} SplitIdempotent(dist: Distance, exceeds: real -> bool, p: seq<Point>)
    requires !exceeds(0.0) && |p| > 2 && exceeds(Scan(dist, p, |p| - 1).distance)
    ensures Simplify(dist, exceeds, Simplify(dist, exceeds, p)) == Simplify(dist, exceeds, p)
    decreases |p|, 0
  {
    var f := Scan(dist, p, |p| - 1);
    ScanIsFirstMaximum(dist, p, |p| - 1);
    var m := f.index;
    var r := Simplify(dist, exceeds, p);
    var idx, j := SplitPicks(dist, exceeds, p, m);
    PicksKeepFarthest(dist, p, r, idx, j, f.distance);
    SimplifyIdempotent(dist, exceeds, p[..m + 1]);
    SimplifyIdempotent(dist, exceeds, p[m..]);
    FixedBySplit(dist, exceeds, r, j, Simplify(dist, exceeds, p[..m + 1]), Simplify(dist, exceeds, p[m..]));
  }

  /** When a subsequence keeps the endpoints and the first farthest interior
      point (at its position `j`), the search over the subsequence ends on `j`
      with the same distance: every other point it keeps is no farther, and
      strictly nearer when it comes first. */
  lemma PicksKeepFarthest(dist: Distance, p: seq<Point>, r: seq<Point>, idx: seq<int>, j: int, v: real)
    requires |p| > 2 && PicksEnds(r, p, idx) && 1 <= j < |idx| - 1
    requires 0 < idx[j] < |p| - 1 && ChordDistanceSq(dist, p, idx[j]) == v && v > 0.0
    requires forall i :: 1 <= i < |p| - 1 ==> ChordDistanceSq(dist, p, i) <= v
    requires forall i :: 1 <= i < idx[j] ==> ChordDistanceSq(dist, p, i) < v
    ensures Scan(dist, r, |r| - 1) == Farthest(v, j)
  {
    forall i | 1 <= i < |r| - 1 && i != j
      ensures ChordDistanceSq(dist, r, i) <= v
      ensures i < j ==> ChordDistanceSq(dist, r, i) < v
    {
      assert idx[0] < idx[i] < idx[|idx| - 1];
      assert i < j ==> idx[i] < idx[j];
      SamePick(dist, r, p, i, idx[i]);
    }
    SamePick(dist, r, p, j, idx[j]);
    ScanFindsUnique(dist, r, j, v, |r| - 1);
  }

  /** A polyline that splits at `j` into two halves that are each already
      simplified is itself already simplified. */
  lemma FixedBySplit(dist: Distance, exceeds: real -> bool, r: seq<Point>, j: int, left: seq<Point>, right: seq<Point>)
    requires !exceeds(0.0) && |r| > 2 && 1 <= j < |r| - 1
    requires Scan(dist, r, |r| - 1).index == j && exceeds(Scan(dist, r, |r| - 1).distance)
    requires r[..j + 1] == left && r[j..] == right
    requires Simplify(dist, exceeds, left) == left && Simplify(dist, exceeds, right) == right
    ensures Simplify(dist, exceeds, r) == r
  {
    SimplifySplits(dist, exceeds, r, j);
    JoinedOf(dist, exceeds, r, j, left, right);
    Rejoined(r, j, left, right);
  }
}
