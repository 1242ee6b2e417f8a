/** Corner-cutting smoothing of a stroke: every pass replaces each edge by
    its points at one quarter and three quarters of the way along, keeping
    the first and the last point of the stroke. */
module Smoothing {
  import opened JsRuntime
  import opened Drawing

  /** The cut one quarter of the way from `p0` to `p1`. */
  function QuarterCut(p0: Point, p1: Point): Point
  {
    Point(0.75 * p0.x + 0.25 * p1.x, 0.75 * p0.y + 0.25 * p1.y, (p0.t + p1.t) / 2.0)
  }

  /** The cut three quarters of the way from `p0` to `p1`. */
  function ThreeQuarterCut(p0: Point, p1: Point): Point
  {
    Point(0.25 * p0.x + 0.75 * p1.x, 0.25 * p0.y + 0.75 * p1.y, (p0.t + p1.t) / 2.0)
  }

  /** The two cuts of each of the first `edges` edges of `s`, in order. */
  function Cuts(s: seq<Point>, edges: int): (r: seq<Point>)
    requires 0 <= edges < |s|
    ensures |r| == 2 * edges
  {
    if edges == 0 then []
    else Cuts(s, edges - 1) + [QuarterCut(s[edges - 1], s[edges]), ThreeQuarterCut(s[edges - 1], s[edges])]
  }

  /** One smoothing pass: the first point, the two cuts of every edge, the
      last point. */
  function ChaikinPass(s: seq<Point>): (r: seq<Point>)
    requires |s| >= 1
    ensures |r| == 2 * |s|
    ensures r[0] == s[0] && r[|r| - 1] == s[|s| - 1]
  {
    [s[0]] + Cuts(s, |s| - 1) + [s[|s| - 1]]
  }

  function Pow2(k: nat): (r: nat)
    ensures r >= 1
  {
    if k == 0 then 1 else 2 * Pow2(k - 1)
  }

  /** `k` passes in a row. */
  function Smoothed(s: seq<Point>, k: nat): (r: seq<Point>)
    requires |s| >= 1
    ensures |r| == |s| * Pow2(k)
    ensures r[0] == s[0] && r[|r| - 1] == s[|s| - 1]
  {
    if k == 0 then s else ChaikinPass(Smoothed(s, k - 1))
  }

  /** `Math.min(6, Math.max(1, Math.round(passes)))`. */
  function PassCount(passes: real): (n: int)
    ensures 1 <= n <= 6
    ensures 1 <= Round(passes) <= 6 ==> n == Round(passes)
    ensures Round(passes) < 1 ==> n == 1
    ensures Round(passes) > 6 ==> n == 6
  {
    var rounded := Round(passes);
    var atLeastOne := if rounded >= 1 then rounded else 1;
    if atLeastOne <= 6 then atLeastOne else 6
  }

  /** `smoothPath`: short strokes and `passes <= 1` are left alone; otherwise
      `PassCount(passes)` passes. */
  function Smooth(points: seq<Point>, passes: real): (r: seq<Point>)
    ensures |points| < 3 || passes <= 1.0 ==> r == points
    ensures |points| >= 3 && passes > 1.0 ==> |r| == |points| * Pow2(PassCount(passes))
    ensures |points| >= 1 ==> r[0] == points[0] && r[|r| - 1] == points[|points| - 1]
  {
    if |points| < 3 || passes <= 1.0 then points else Smoothed(points, PassCount(passes))
  }

  /** The smoother as the program runs it: an outer loop of passes. The input
      is not changed; each pass makes a new sequence. */
  method SmoothPath(points: seq<Point>, passes: real) returns (smoothed: seq<Point>)
    ensures smoothed == Smooth(points, passes)
  {
    if |points| < 3 || passes <= 1.0 {
      return points;
    }
    smoothed := points;
    var iterations := PassCount(passes);
    for iter := 0 to iterations
      invariant smoothed == Smoothed(points, iter)
    {
      smoothed := SmoothingPass(smoothed);
    }
  }

  /** The body of one pass: the next stroke is built point by point, first
      point, two cuts per edge, last point. */
  method SmoothingPass(smoothed: seq<Point>) returns (next: seq<Point>)
    requires |smoothed| >= 1
    ensures next == ChaikinPass(smoothed)
  {
    next := [smoothed[0]];
    for i := 0 to |smoothed| - 1
      invariant next == [smoothed[0]] + Cuts(smoothed, i)
    {
      var p0 := smoothed[i];
      var p1 := smoothed[i + 1];
      var q := Point(0.75 * p0.x + 0.25 * p1.x, 0.75 * p0.y + 0.25 * p1.y, (p0.t + p1.t) / 2.0);
      var r := Point(0.25 * p0.x + 0.75 * p1.x, 0.25 * p0.y + 0.75 * p1.y, (p0.t + p1.t) / 2.0);
      next := next + [q, r];
    }
    next := next + [smoothed[|smoothed| - 1]];
  }

  /** Edge `k` contributes its quarter cut at position `2k` of the cuts and
      its three-quarter cut right after it. */
  lemma {:induction false} CutsAt(s: seq<Point>, edges: int, k: int)
    requires 0 <= k < edges < |s|
    ensures Cuts(s, edges)[2 * k] == QuarterCut(s[k], s[k + 1])
    ensures Cuts(s, edges)[2 * k + 1] == ThreeQuarterCut(s[k], s[k + 1])
  {
    if k < edges - 1 {
      CutsAt(s, edges - 1, k);
    }
  }

  /** In a pass, positions `2k + 1` and `2k + 2` hold the cuts of edge `k`. */
  lemma PassAt(s: seq<Point>, k: int)
    requires 0 <= k < |s| - 1
    ensures ChaikinPass(s)[2 * k + 1] == QuarterCut(s[k], s[k + 1])
    ensures ChaikinPass(s)[2 * k + 2] == ThreeQuarterCut(s[k], s[k + 1])
  {
    CutsAt(s, |s| - 1, k);
  }

  /** Every position of a pass other than the two ends is a cut of the edge
      `(j - 1) / 2`, on the side `(j - 1) % 2`. */
  lemma PassPoint(s: seq<Point>, j: int)
    requires 0 < j < 2 * |s| - 1
    ensures var k := (j - 1) / 2;
      && 0 <= k < |s| - 1
      && ChaikinPass(s)[j] == (if j % 2 == 1 then QuarterCut(s[k], s[k + 1]) else ThreeQuarterCut(s[k], s[k + 1]))
  {
    var k := (j - 1) / 2;
    PassAt(s, k);
    if j % 2 == 1 {
      assert j == 2 * k + 1;
    } else {
      assert j == 2 * k + 2;
    }
  }

  /** An axis-aligned box of the canvas. */
  datatype Box = Box(left: real, right: real, top: real, bottom: real)

  predicate InBox(p: Point, b: Box)
  {
    b.left <= p.x <= b.right && b.top <= p.y <= b.bottom
  }

  /** A pass never leaves a box that holds the whole stroke: every cut lies on
      a segment between two points of the stroke. */
  lemma PassStaysInBox(s: seq<Point>, b: Box)
    requires |s| >= 1
    requires forall i :: 0 <= i < |s| ==> InBox(s[i], b)
    ensures forall j :: 0 <= j < |ChaikinPass(s)| ==> InBox(ChaikinPass(s)[j], b)
  {
    var r := ChaikinPass(s);
    forall j | 0 <= j < |r|
      ensures InBox(r[j], b)
    {
      if 0 < j < |r| - 1 {
        PassPoint(s, j);
        var k := (j - 1) / 2;
        assert InBox(s[k], b) && InBox(s[k + 1], b);
      }
    }
  }

  /** Any number of passes keeps the stroke in its box. */
  lemma {:induction false} SmoothedStaysInBox(s: seq<Point>, k: nat, b: Box)
    requires |s| >= 1
    requires forall i :: 0 <= i < |s| ==> InBox(s[i], b)
    ensures forall j :: 0 <= j < |Smoothed(s, k)| ==> InBox(Smoothed(s, k)[j], b)
  {
    if k > 0 {
      SmoothedStaysInBox(s, k - 1, b);
      PassStaysInBox(Smoothed(s, k - 1), b);
    }
  }

  /** Points whose timestamps never decrease along the stroke. */
  predicate TimeAscending(s: seq<Point>)
  {
    forall i :: 0 <= i < |s| - 1 ==> s[i].t <= s[i + 1].t
  }

  /** A pass keeps a stroke ordered in x and ordered in time: neighbouring
      cuts of one edge sit in order along it, and the last cut of an edge and
      the first cut of the next both lie around their shared point. */
  lemma PassKeepsOrder(s: seq<Point>)
    requires |s| >= 1
    ensures XAscending(s) ==> XAscending(ChaikinPass(s))
    ensures TimeAscending(s) ==> TimeAscending(ChaikinPass(s))
  {
    var r := ChaikinPass(s);
    forall j | 0 <= j < |r| - 1
      ensures XAscending(s) ==> r[j].x <= r[j + 1].x
      ensures TimeAscending(s) ==> r[j].t <= r[j + 1].t
    {
      if 0 < j {
        PassPoint(s, j);
      }
      if j + 1 < |r| - 1 {
        PassPoint(s, j + 1);
      }
      var k := (j - 1) / 2;
      if 0 < j && j % 2 == 0 && j + 1 < |r| - 1 {
        assert (j + 1 - 1) / 2 == k + 1;
        assert k + 2 < |s|;
      }
    }
  }

  /** Any number of passes keeps a stroke ordered in x and in time. */
  lemma {:induction false} SmoothedKeepsOrder(s: seq<Point>, k: nat)
    requires |s| >= 1
    ensures XAscending(s) ==> XAscending(Smoothed(s, k))
    ensures TimeAscending(s) ==> TimeAscending(Smoothed(s, k))
  {
    if k > 0 {
      SmoothedKeepsOrder(s, k - 1);
      PassKeepsOrder(Smoothed(s, k - 1));
    }
  }

  /** Whenever smoothing applies, the stroke comes back longer. */
  lemma SmoothingLengthens(points: seq<Point>, passes: real)
    requires |points| >= 3 && passes > 1.0
    ensures |Smooth(points, passes)| >= 2 * |points|
  {
    var k := PassCount(passes);
    var m := Pow2(k);
    assert m >= 2 by {
      assert m == 2 * Pow2(k - 1);
    }
    MulMonotoneNat(2, m, |points|);
  }

  lemma MulMonotoneNat(a: nat, b: nat, c: nat)
    requires a <= b
    ensures a * c <= b * c
  {
    assert b * c - a * c == (b - a) * c;
  }
}
