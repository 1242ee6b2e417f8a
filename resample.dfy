/** The resampler: the stroke is sorted by x and read off at evenly spaced x
    positions across the canvas by linear interpolation between the two
    neighbouring points, then mapped from canvas y to a value. Despite its
    name it does not measure arc length. */
module Resample {
  import opened JsRuntime
  import opened Drawing

  datatype ResampleOptions = ResampleOptions(samples: real, height: real, width: real)

  /** The sample grid `u` in [0, 1], the values and the canvas x of each sample. */
  datatype ResampleResult = ResampleResult(u: seq<real>, values: seq<real>, x: seq<real>)

  /** Every earlier entry is at most every later one. */
  predicate Ascending(v: seq<real>)
  {
    forall i, j :: 0 <= i < j < |v| ==> v[i] <= v[j]
  }

  // ---------------------------------------------------------------------
  // lowerBound

  /** What `lowerBound` answers: the first index whose value is at least
      `target`, or the last index when there is none (-1 for no values). */
  function FirstAtLeast(values: seq<real>, target: real): (r: int)
    ensures |values| == 0 ==> r == -1
    ensures |values| > 0 ==> 0 <= r < |values|
    ensures forall k :: 0 <= k < r ==> values[k] < target
    ensures 0 <= r ==> values[r] >= target || (r == |values| - 1 && values[r] < target)
  {
    if |values| == 0 then -1
    else if values[0] >= target then 0
    else if |values| == 1 then 0
    else 1 + FirstAtLeast(values[1..], target)
  }

  /** The binary search: `low`/`high` close in on the boundary, and `answer`
      holds the last index seen whose value reached `target`. */
  method LowerBound(values: seq<real>, target: real) returns (answer: int)
    requires Ascending(values)
    ensures answer == FirstAtLeast(values, target)
  {
    var low := 0;
    var high := |values| - 1;
    answer := |values| - 1;
    while low <= high
      invariant 0 <= low <= high + 1 <= |values|
      invariant forall k :: 0 <= k < low ==> values[k] < target
      invariant forall k :: high < k < |values| ==> values[k] >= target
      invariant answer == if high == |values| - 1 then |values| - 1 else high + 1
      decreases high - low
    {
      var mid := (low + high) / 2;
      if values[mid] >= target {
        answer := mid;
        high := mid - 1;
      } else {
        low := mid + 1;
      }
    }
    if low < |values| {
      assert values[low] >= target;
    }
  }

  /** On a non-empty array the answer is always an index of the array, so the
      resampler's `idx >= length` branch never runs. */
  lemma SearchStaysInside(values: seq<real>, target: real)
    requires |values| > 0
    ensures 0 <= FirstAtLeast(values, target) <= |values| - 1
    ensures FirstAtLeast(values, target) == |values| - 1 <==> forall k :: 0 <= k < |values| - 1 ==> values[k] < target
  {
  }

  /** The search the resampler's hold-last branch evidently expects: the
      array's length when no value reaches `target`. */
  function FirstAtLeastOrLength(values: seq<real>, target: real): (r: int)
    ensures 0 <= r <= |values|
    ensures forall k :: 0 <= k < r ==> values[k] < target
    ensures r < |values| ==> values[r] >= target
  {
    if |values| == 0 then 0
    else if values[0] >= target then 0
    else 1 + FirstAtLeastOrLength(values[1..], target)
  }

  /** The two searches agree except past the last value, where the written
      one stops at the last index. */
  lemma SearchesAgree(values: seq<real>, target: real)
    requires |values| > 0
    ensures FirstAtLeastOrLength(values, target) == |values|
        || FirstAtLeastOrLength(values, target) == FirstAtLeast(values, target)
    ensures FirstAtLeastOrLength(values, target) == |values| ==> FirstAtLeast(values, target) == |values| - 1
  {
  }

  // ---------------------------------------------------------------------
  // Sorting by x

  /** Inserts `p` in front of the first point whose x is at least its own. */
  function InsertByX(p: Point, s: seq<Point>): (r: seq<Point>)
    ensures |r| == |s| + 1
  {
    if |s| == 0 || p.x <= s[0].x then [p] + s
    else [s[0]] + InsertByX(p, s[1..])
  }

  /** `[...points].sort((a, b) => a.x - b.x)`: the points in ascending x,
      points of equal x keeping their order. */
  function SortByX(points: seq<Point>): (r: seq<Point>)
    ensures |r| == |points|
  {
    if |points| == 0 then []
    else InsertByX(points[0], SortByX(points[1..]))
  }

  /** Insertion adds exactly `p`. */
  lemma {:induction false} InsertByXPermutes(p: Point, s: seq<Point>)
    ensures multiset(InsertByX(p, s)) == multiset(s) + multiset{p}
  {
    if |s| > 0 && p.x > s[0].x {
      InsertByXPermutes(p, s[1..]);
      assert s == [s[0]] + s[1..];
    }
  }

  /** Insertion starts with `p` or with the old first point, and keeps a
      stroke ordered in x. */
  lemma {:induction false} InsertByXOrdered(p: Point, s: seq<Point>)
    ensures |s| > 0 ==> InsertByX(p, s)[0] == p || InsertByX(p, s)[0] == s[0]
    ensures XAscending(s) ==> XAscending(InsertByX(p, s))
  {
    if |s| > 0 && p.x > s[0].x {
      InsertByXOrdered(p, s[1..]);
    }
  }

  /** The sort keeps exactly the points it was given. */
  lemma {:induction false} SortByXPermutes(points: seq<Point>)
    ensures multiset(SortByX(points)) == multiset(points)
  {
    if |points| > 0 {
      SortByXPermutes(points[1..]);
      InsertByXPermutes(points[0], SortByX(points[1..]));
      assert points == [points[0]] + points[1..];
    }
  }

  /** The sort leaves the points in ascending x. */
  lemma {:induction false} SortByXAscending(points: seq<Point>)
    ensures XAscending(SortByX(points))
  {
    if |points| > 0 {
      SortByXAscending(points[1..]);
      InsertByXOrdered(points[0], SortByX(points[1..]));
    }
  }

  /** The sort is a permutation of its input, ordered in x. */
  lemma SortByXSorts(points: seq<Point>)
    ensures multiset(SortByX(points)) == multiset(points)
    ensures XAscending(SortByX(points))
  {
    SortByXPermutes(points);
    SortByXAscending(points);
  }

  /** The x-coordinates of a stroke, in order. */
  function Xs(points: seq<Point>): (xs: seq<real>)
    ensures |xs| == |points|
    ensures forall i :: 0 <= i < |points| ==> xs[i] == points[i].x
  {
    seq(|points|, i requires 0 <= i < |points| => points[i].x)
  }

  /** The y-coordinates of a stroke, in order. */
  function Ys(points: seq<Point>): (ys: seq<real>)
    ensures |ys| == |points|
    ensures forall i :: 0 <= i < |points| ==> ys[i] == points[i].y
  {
    seq(|points|, i requires 0 <= i < |points| => points[i].y)
  }

  /** Neighbours in order make every pair in order. */
  lemma {:induction false} XsAscending(points: seq<Point>)
    requires XAscending(points)
    ensures Ascending(Xs(points))
    decreases |points|
  {
    var xs := Xs(points);
    if |points| > 1 {
      XsAscending(points[1..]);
      forall i, j | 0 <= i < j < |xs|
        ensures xs[i] <= xs[j]
      {
        if i == 0 {
          assert Xs(points[1..])[0] <= Xs(points[1..])[j - 1];
        } else {
          assert Xs(points[1..])[i - 1] <= Xs(points[1..])[j - 1];
        }
      }
    }
  }

  // ---------------------------------------------------------------------
  // The resampler

  /** `Math.max(2, Math.floor(samples))`. */
  function SampleCount(samples: real): (n: int)
    ensures n >= 2 && n >= samples.Floor
    ensures samples.Floor >= 2 ==> n == samples.Floor
  {
    if samples.Floor >= 2 then samples.Floor else 2
  }

  /** Position `i` of the grid of `n` positions: `i / (n - 1)`, in [0, 1]. */
  function GridAt(i: int, n: int): (v: real)
    requires n >= 2 && 0 <= i < n
    ensures 0.0 <= v <= 1.0
    ensures i == 0 ==> v == 0.0
    ensures i == n - 1 ==> v == 1.0
  {
    DivMonotone(0.0, i as real, (n - 1) as real);
    DivMonotone(i as real, (n - 1) as real, (n - 1) as real);
    DivSelf((n - 1) as real);
    i as real / (n - 1) as real
  }

  /** The evenly spaced grid `u`: `n` positions from 0 to 1. */
  function Grid(n: int): (u: seq<real>)
    requires n >= 2
    ensures |u| == n && u[0] == 0.0 && u[n - 1] == 1.0
    ensures forall i :: 0 <= i < n ==> 0.0 <= u[i] <= 1.0
    ensures forall i :: 0 <= i < n ==> u[i] == i as real / (n - 1) as real
  {
    seq(n, i requires 0 <= i < n => if n == 1 then 0.0 else GridAt(i, n))
  }

  /** The canvas x of grid position `u` on a canvas `width` pixels wide:
      `u * (width - 1)`. */
  function CanvasX(u: real, width: real): real
  {
    u * (width - 1.0)
  }

  /** The canvas x of sample `k` of `n`: its grid position times `width - 1`. */
  function GridX(k: int, n: int, width: real): real
    requires n >= 2
  {
    CanvasX(k as real / (n - 1) as real, width)
  }

  /** `1 - (2 * y) / (height - 1 || 1)`: canvas y to a value, 1 at the top row
      and -1 at the row `height - 1`. */
  function MathY(yCanvas: real, height: real): real
  {
    1.0 - (2.0 * yCanvas) / (if height - 1.0 == 0.0 then 1.0 else height - 1.0)
  }

  /** The canvas y read at `xq`, given the index `idx` the search returned:
      the first y before the stroke, the last y past its end, and otherwise
      the line through the points `idx - 1` and `idx`. */
  function CanvasYAt(xs: seq<real>, ys: seq<real>, xq: real, idx: int): real
    requires |xs| == |ys| >= 1
  {
    if idx <= 0 then ys[0]
    else if idx >= |xs| then ys[|ys| - 1]
    else
      var x1, x2, y1, y2 := xs[idx - 1], xs[idx], ys[idx - 1], ys[idx];
      var t := (xq - x1) / (if x2 - x1 == 0.0 then 1.0 else x2 - x1);
      y1 + t * (y2 - y1)
  }

  /** The search the resampler uses: as written (`holdLast` false), or the
      one its hold-last branch expects (`holdLast` true). */
  function Search(xs: seq<real>, xq: real, holdLast: bool): (idx: int)
    ensures |xs| > 0 ==> 0 <= idx <= |xs|
    ensures |xs| > 0 && !holdLast ==> idx < |xs|
    ensures holdLast ==> (idx == |xs| <==> forall k :: 0 <= k < |xs| ==> xs[k] < xq)
  {
    if holdLast then FirstAtLeastOrLength(xs, xq) else FirstAtLeast(xs, xq)
  }

  /** The value read at `xq` from a stroke sorted by x. */
  function SampleAt(xs: seq<real>, ys: seq<real>, xq: real, height: real, holdLast: bool): real
    requires |xs| == |ys| >= 1
  {
    MathY(CanvasYAt(xs, ys, xq, Search(xs, xq, holdLast)), height)
  }

  /** The general case: the value read at each grid x of a stroke sorted by x. */
  function SampleValues(xs: seq<real>, ys: seq<real>, n: int, width: real, height: real, holdLast: bool): (values: seq<real>)
    requires |xs| == |ys| >= 1 && n >= 2
    ensures |values| == n
  {
    seq(n, k requires 0 <= k < n => SampleAt(xs, ys, GridX(k, n, width), height, holdLast))
  }

  /** The general case's x positions: the grid x of every sample. */
  function SampleXs(n: int, width: real): (xs: seq<real>)
    requires n >= 2
    ensures |xs| == n
  {
    seq(n, k requires 0 <= k < n => GridX(k, n, width))
  }

  /** `new Array(n).fill(v)`. */
  function Filled(n: int, v: real): (r: seq<real>)
    requires n >= 0
    ensures |r| == n && forall i :: 0 <= i < n ==> r[i] == v
  {
    seq(n, _ => v)
  }

  /** The default x positions: every grid position scaled to `width - 1`. */
  function ScaledGrid(n: int, width: real): (xs: seq<real>)
    requires n >= 2
    ensures |xs| == n && forall i :: 0 <= i < n ==> xs[i] == CanvasX(Grid(n)[i], width)
  {
    seq(n, i requires 0 <= i < n => CanvasX(Grid(n)[i], width))
  }

  /** `resampleArcLength`: no points give zeros along the default x; one
      point gives its value and its x everywhere; otherwise the stroke, sorted
      by x, is read off at the grid x positions. */
  function Resample(points: seq<Point>, options: ResampleOptions, holdLast: bool): (res: ResampleResult)
    ensures |res.u| == |res.values| == |res.x| == SampleCount(options.samples)
  {
    var n := SampleCount(options.samples);
    var width := Max(options.width, 2.0);
    var height := Max(options.height, 2.0);
    var u := Grid(n);
    if |points| == 0 then
      ResampleResult(u, Filled(n, 0.0), ScaledGrid(n, width))
    else if |points| == 1 then
      ResampleResult(u, Filled(n, MathY(points[0].y, height)), Filled(n, points[0].x))
    else
      var sorted := SortByX(points);
      ResampleResult(u, SampleValues(Xs(sorted), Ys(sorted), n, width, height, holdLast), SampleXs(n, width))
  }

  /** `resampleArcLength` as the program runs it. */
  method ResampleArcLength(points: seq<Point>, options: ResampleOptions) returns (res: ResampleResult)
    ensures res == Resample(points, options, false)
  {
    var samples := SampleCount(options.samples);
    var width := Max(options.width, 2.0);
    var height := Max(options.height, 2.0);
    var u := Grid(samples);
    var defaultX := ScaledGrid(samples, width);
    if |points| == 0 {
      return ResampleResult(u, Filled(samples, 0.0), defaultX);
    }
    if |points| == 1 {
      var yCanvas := points[0].y;
      var mathY := 1.0 - (2.0 * yCanvas) / (if height - 1.0 == 0.0 then 1.0 else height - 1.0);
      return ResampleResult(u, Filled(samples, mathY), Filled(samples, points[0].x));
    }
    var sorted := SortByX(points);
    SortByXSorts(points);
    XsAscending(sorted);
    var values, xs := SampleSorted(Xs(sorted), Ys(sorted), samples, width, height);
    res := ResampleResult(u, values, xs);
  }

  /** The sampling loop of the general case: one value and one x pushed per
      grid position, each found by the binary search over the sorted xs. */
  method SampleSorted(xsSource: seq<real>, ysSource: seq<real>, samples: int, width: real, height: real)
    returns (values: seq<real>, xs: seq<real>)
    requires |xsSource| == |ysSource| >= 1 && samples >= 2 && Ascending(xsSource)
    ensures values == SampleValues(xsSource, ysSource, samples, width, height, false)
    ensures xs == SampleXs(samples, width)
  {
    values := [];
    xs := [];
    for n := 0 to samples
      invariant values == SampleValues(xsSource, ysSource, samples, width, height, false)[..n]
      invariant xs == SampleXs(samples, width)[..n]
    {
      var xq := (n as real / (samples - 1) as real) * (width - 1.0);
      assert xq == SampleXs(samples, width)[n];
      var idx := LowerBound(xsSource, xq);
      var yCanvas := ReadCanvasY(xsSource, ysSource, xq, idx);
      var mathY := 1.0 - (2.0 * yCanvas) / (if height - 1.0 == 0.0 then 1.0 else height - 1.0);
      assert mathY == SampleValues(xsSource, ysSource, samples, width, height, false)[n];
      values := values + [mathY];
      xs := xs + [xq];
    }
  }

  /** The branch on the search result inside the sampling loop: the first y,
      the last y, or the line through the two bracketing points. */
  method ReadCanvasY(xsSource: seq<real>, ysSource: seq<real>, xq: real, idx: int) returns (yCanvas: real)
    requires |xsSource| == |ysSource| >= 1
    ensures yCanvas == CanvasYAt(xsSource, ysSource, xq, idx)
  {
    if idx <= 0 {
      yCanvas := ysSource[0];
    } else if idx >= |xsSource| {
      yCanvas := ysSource[|ysSource| - 1];
    } else {
      var x1 := xsSource[idx - 1];
      var x2 := xsSource[idx];
      var y1 := ysSource[idx - 1];
      var y2 := ysSource[idx];
      var t := (xq - x1) / (if x2 - x1 == 0.0 then 1.0 else x2 - x1);
      yCanvas := y1 + t * (y2 - y1);
    }
  }

  // ---------------------------------------------------------------------
  // Properties

  /** The grid runs from 0 to 1 in equal steps. */
  lemma ResampleGrid(points: seq<Point>, options: ResampleOptions, holdLast: bool)
    ensures var res := Resample(points, options, holdLast);
      var n := SampleCount(options.samples);
      && res.u[0] == 0.0 && res.u[n - 1] == 1.0
      && (forall i :: 0 <= i < n ==> res.u[i] == i as real / (n - 1) as real)
  {
  }

  /** With no points the values are all 0, at the grid scaled to the canvas
      width. */
  lemma ResampleEmpty(options: ResampleOptions, holdLast: bool)
    ensures var res := Resample([], options, holdLast);
      && (forall i :: 0 <= i < |res.values| ==> res.values[i] == 0.0)
      && (forall i :: 0 <= i < |res.x| ==> res.x[i] == CanvasX(res.u[i], Max(options.width, 2.0)))
  {
    var n := SampleCount(options.samples);
    var width := Max(options.width, 2.0);
    assert Resample([], options, holdLast) == ResampleResult(Grid(n), Filled(n, 0.0), ScaledGrid(n, width));
  }

  /** With two or more points the x positions are the same scaled grid. */
  lemma ResampleGridX(points: seq<Point>, options: ResampleOptions, holdLast: bool)
    requires |points| >= 2
    ensures var res := Resample(points, options, holdLast);
      forall i :: 0 <= i < |res.x| ==> res.x[i] == CanvasX(res.u[i], Max(options.width, 2.0))
  {
    ResampleSortedGrids(points, options, holdLast);
  }

  /** The general case's x positions are the default ones. */
  lemma SampleXsScaled(n: int, width: real)
    requires n >= 2
    ensures SampleXs(n, width) == ScaledGrid(n, width)
  {
    forall i | 0 <= i < n
      ensures SampleXs(n, width)[i] == ScaledGrid(n, width)[i]
    {
      GridXScaled(i, n, width);
    }
  }

  /** With two or more points the result's grid and x positions are `Grid`
      and the default x positions. */
  lemma ResampleSortedGrids(points: seq<Point>, options: ResampleOptions, holdLast: bool)
    requires |points| >= 2
    ensures Resample(points, options, holdLast).u == Grid(SampleCount(options.samples))
    ensures Resample(points, options, holdLast).x == ScaledGrid(SampleCount(options.samples), Max(options.width, 2.0))
  {
    SampleXsScaled(SampleCount(options.samples), Max(options.width, 2.0));
  }

  /** The canvas x of sample `k` is grid position `k` scaled to the width. */
  lemma GridXScaled(k: int, n: int, width: real)
    requires n >= 2 && 0 <= k < n
    ensures SampleXs(n, width)[k] == CanvasX(Grid(n)[k], width)
  {
  }

  /** A single point gives the same value everywhere, at the same x. */
  lemma ResampleSinglePoint(p: Point, options: ResampleOptions, holdLast: bool)
    ensures var res := Resample([p], options, holdLast);
      && (forall i :: 0 <= i < |res.values| ==> res.values[i] == res.values[0] == MathY(p.y, Max(options.height, 2.0)))
      && (forall i :: 0 <= i < |res.x| ==> res.x[i] == p.x)
  {
  }

  /** A canvas row between the top and the row `height - 1` maps into [-1, 1]. */
  lemma MathYRange(y: real, height: real)
    requires height >= 2.0 && 0.0 <= y <= height - 1.0
    ensures -1.0 <= MathY(y, height) <= 1.0
  {
    var d := height - 1.0;
    DivMonotone(0.0, 2.0 * y, d);
    DivMonotone(2.0 * y, 2.0 * d, d);
    assert 2.0 * d / d == 2.0;
  }

  /** Between two points whose x differ, the line through them stays between
      their two ys. */
  lemma LineBetween(x1: real, x2: real, y1: real, y2: real, xq: real)
    requires x1 < xq <= x2
    ensures var t := (xq - x1) / (x2 - x1);
      0.0 < t <= 1.0 && Min(y1, y2) <= y1 + t * (y2 - y1) <= Max(y1, y2)
  {
    var t := (xq - x1) / (x2 - x1);
    DivStrictMonotone(0.0, xq - x1, x2 - x1);
    DivMonotone(xq - x1, x2 - x1, x2 - x1);
    DivSelf(x2 - x1);
    LerpBetween(y1, y2, t);
  }

  /** A fraction of a non-negative value lies between 0 and that value. */
  lemma ProductBounds(t: real, v: real, r: real)
    requires 0.0 <= t <= 1.0 && v >= 0.0 && r == t * v
    ensures 0.0 <= r <= v
  {
    MulMonotone(0.0, t, v);
    MulMonotone(t, 1.0, v);
  }

  /** `y1 + t·(y2 - y1)` for `t` in [0, 1] lies between `y1` and `y2`. */
  lemma LerpBetween(y1: real, y2: real, t: real)
    requires 0.0 <= t <= 1.0
    ensures Min(y1, y2) <= y1 + t * (y2 - y1) <= Max(y1, y2)
  {
    var d := t * (y2 - y1);
    if y1 <= y2 {
      ProductBounds(t, y2 - y1, d);
    } else {
      ProductBounds(t, y1 - y2, -d);
    }
  }

  /** What the read at `xq` does on a stroke sorted by x: before the first x
      it holds the first y; between two xs it stays between their ys and hits
      the y of the first point at exactly its x; past the last x the written
      search still answers the last index, so the line through the last two
      points is extended. */
  lemma ReadBrackets(xs: seq<real>, ys: seq<real>, xq: real)
    requires |xs| == |ys| >= 2 && Ascending(xs)
    ensures var idx := FirstAtLeast(xs, xq);
      && (xq <= xs[0] ==> idx == 0 && CanvasYAt(xs, ys, xq, idx) == ys[0])
      && (0 < idx && xq <= xs[idx] ==>
            xs[idx - 1] < xq <= xs[idx]
            && Min(ys[idx - 1], ys[idx]) <= CanvasYAt(xs, ys, xq, idx) <= Max(ys[idx - 1], ys[idx]))
      && (0 < idx && xq == xs[idx] ==> CanvasYAt(xs, ys, xq, idx) == ys[idx])
      && (xq > xs[|xs| - 1] ==> idx == |xs| - 1)
  {
    var idx := FirstAtLeast(xs, xq);
    if 0 < idx && xq <= xs[idx] {
      LineBetween(xs[idx - 1], xs[idx], ys[idx - 1], ys[idx], xq);
      if xq == xs[idx] {
        DivSelf(xs[idx] - xs[idx - 1]);
      }
    }
    if xq > xs[|xs| - 1] {
      SearchStaysInside(xs, xq);
      forall k | 0 <= k < |xs| - 1
        ensures xs[k] < xq
      {
        assert xs[k] <= xs[|xs| - 1];
      }
    }
  }

  /** With the hold-last search, a stroke whose rows all lie between the top
      and the row `height - 1` is sampled to values in [-1, 1]. */
  lemma HeldValuesInRange(points: seq<Point>, options: ResampleOptions)
    requires forall i :: 0 <= i < |points| ==> 0.0 <= points[i].y <= Max(options.height, 2.0) - 1.0
    ensures forall v :: v in Resample(points, options, true).values ==> -1.0 <= v <= 1.0
  {
    var height := Max(options.height, 2.0);
    if |points| == 1 {
      MathYRange(points[0].y, height);
    } else if |points| >= 2 {
      var sorted := SortByX(points);
      SortByXSorts(points);
      XsAscending(sorted);
      forall i | 0 <= i < |sorted|
        ensures 0.0 <= Ys(sorted)[i] <= height - 1.0
      {
        assert sorted[i] in multiset(points);
      }
      HeldSamplesInRange(Xs(sorted), Ys(sorted), SampleCount(options.samples), Max(options.width, 2.0), height);
    }
  }

  /** The general case of `HeldValuesInRange`, on the sorted xs and their ys. */
  lemma HeldSamplesInRange(xs: seq<real>, ys: seq<real>, n: int, width: real, height: real)
    requires |xs| == |ys| >= 1 && n >= 2 && height >= 2.0 && Ascending(xs)
    requires forall i :: 0 <= i < |ys| ==> 0.0 <= ys[i] <= height - 1.0
    ensures forall k :: 0 <= k < n ==> -1.0 <= SampleValues(xs, ys, n, width, height, true)[k] <= 1.0
  {
    forall k | 0 <= k < n
      ensures -1.0 <= SampleAt(xs, ys, GridX(k, n, width), height, true) <= 1.0
    {
      HeldReadInRange(xs, ys, GridX(k, n, width), height);
    }
  }

  /** One read with the hold-last search stays between the top and the row
      `height - 1`, and so maps into [-1, 1]. */
  lemma HeldReadInRange(xs: seq<real>, ys: seq<real>, xq: real, height: real)
    requires |xs| == |ys| >= 1 && height >= 2.0 && Ascending(xs)
    requires forall i :: 0 <= i < |ys| ==> 0.0 <= ys[i] <= height - 1.0
    ensures -1.0 <= SampleAt(xs, ys, xq, height, true) <= 1.0
  {
    var idx := FirstAtLeastOrLength(xs, xq);
    var y := CanvasYAt(xs, ys, xq, idx);
    if 0 < idx < |xs| {
      var x1, x2, y1, y2 := xs[idx - 1], xs[idx], ys[idx - 1], ys[idx];
      assert x1 < xq <= x2;
      LineBetween(x1, x2, y1, y2, xq);
      assert y == y1 + ((xq - x1) / (x2 - x1)) * (y2 - y1);
      assert 0.0 <= Min(y1, y2) && Max(y1, y2) <= height - 1.0;
    }
    MathYRange(y, height);
  }

  /** As written, a stroke with both points on the canvas can be sampled to a
      value above 1: the grid reaches x = 119 on a 120-wide canvas, the last
      point is at x = 50, the search answers index 1 instead of the length,
      and the line from (0, 100) through (50, 0) is extended to y = -138. */
  lemma AsWrittenExtrapolates()
    ensures var points := [Point(0.0, 100.0, 0.0), Point(50.0, 0.0, 1.0)];
      var res := Resample(points, ResampleOptions(2.0, 200.0, 120.0), false);
      |res.values| == 2 && res.values[1] > 1.0
  {
    var points := [Point(0.0, 100.0, 0.0), Point(50.0, 0.0, 1.0)];
    var options := ResampleOptions(2.0, 200.0, 120.0);
    assert SampleCount(2.0) == 2;
    assert SortByX(points) == points by {
      assert SortByX(points[1..]) == points[1..];
    }
    var xs, ys := Xs(points), Ys(points);
    assert xs == [0.0, 50.0] && ys == [100.0, 0.0];
    var xq := GridX(1, 2, 120.0);
    assert xq == 119.0;
    assert FirstAtLeast(xs, xq) == 1 by {
      assert FirstAtLeast(xs[1..], xq) == 0;
    }
    assert CanvasYAt(xs, ys, xq, 1) == -138.0;
    assert MathY(-138.0, 200.0) == 1.0 + 276.0 / 199.0;
  }

  /** The stroke that doubles back: out to x = 100 along the top half of a
      loop and back along the bottom half. */
  const LoopStroke: seq<Point> := [
    Point(0.0, 100.0, 0.0), Point(50.0, 50.0, 1.0), Point(100.0, 100.0, 2.0),
    Point(50.0, 150.0, 3.0), Point(0.0, 100.0, 4.0)]

  /** Resampling the loop to 8 samples on a 120 by 200 canvas gives 8 values,
      all in [-1, 1]. */
  lemma LoopStrokeInRange()
    ensures var res := Resample(LoopStroke, ResampleOptions(8.0, 200.0, 120.0), false);
      |res.values| == 8 && |res.x| == 8
      && forall v :: v in res.values ==> -1.0 <= v <= 1.0
  {
    assert SampleCount(8.0) == 8;
    LoopStrokeSorted();
    var xs := LoopXs();
    var ys := LoopYs();
    var values := SampleValues(xs, ys, 8, 120.0, 200.0, false);
    assert Resample(LoopStroke, ResampleOptions(8.0, 200.0, 120.0), false).values == values;
    forall k | 0 <= k < 8
      ensures -1.0 <= values[k] <= 1.0
    {
      LoopReadInRange(k);
    }
  }

  /** The loop sorted by x; the two points at x = 0 and the two at x = 50
      keep their order. */
  const LoopSorted: seq<Point> := [
    Point(0.0, 100.0, 0.0), Point(0.0, 100.0, 4.0), Point(50.0, 50.0, 1.0),
    Point(50.0, 150.0, 3.0), Point(100.0, 100.0, 2.0)]

  lemma LoopXs() returns (xs: seq<real>)
    ensures xs == Xs(LoopSorted) == [0.0, 0.0, 50.0, 50.0, 100.0]
  {
    xs := Xs(LoopSorted);
  }

  lemma LoopYs() returns (ys: seq<real>)
    ensures ys == Ys(LoopSorted) == [100.0, 100.0, 50.0, 150.0, 100.0]
  {
    ys := Ys(LoopSorted);
  }

  lemma LoopStrokeSorted()
    ensures SortByX(LoopStroke) == LoopSorted
  {
    var p := LoopStroke;
    assert p == [p[0], p[1], p[2], p[3], p[4]];
    SortLoopShape(p[0], p[1], p[2], p[3], p[4]);
  }

  /** Sorting five points whose xs are 0, 50, 100, 50, 0, as the loop's are:
      each point is inserted into the sorted points after it. */
  lemma SortLoopShape(p0: Point, p1: Point, p2: Point, p3: Point, p4: Point)
    requires p0.x == 0.0 && p1.x == 50.0 && p2.x == 100.0 && p3.x == 50.0 && p4.x == 0.0
    ensures SortByX([p0, p1, p2, p3, p4]) == [p0, p4, p1, p3, p2]
  {
    var s, rest, sortedRest := [p0, p1, p2, p3, p4], [p1, p2, p3, p4], [p4, p1, p3, p2];
    assert s[0] == p0 && s[1..] == rest;
    SortFirst(s);
    SortLoopTail(p1, p2, p3, p4);
    InsertFront(p0, sortedRest);
    assert [p0] + sortedRest == [p0, p4, p1, p3, p2];
  }

  lemma SortLoopTail(p1: Point, p2: Point, p3: Point, p4: Point)
    requires p1.x == 50.0 && p2.x == 100.0 && p3.x == 50.0 && p4.x == 0.0
    ensures SortByX([p1, p2, p3, p4]) == [p4, p1, p3, p2]
  {
    var s, rest, sortedRest := [p1, p2, p3, p4], [p2, p3, p4], [p4, p3, p2];
    assert s[0] == p1 && s[1..] == rest;
    SortFirst(s);
    SortLoopLast3(p2, p3, p4);
    InsertPast(p1, sortedRest);
    assert sortedRest[1..] == [p3, p2];
    InsertFront(p1, [p3, p2]);
    assert [p4] + ([p1] + [p3, p2]) == [p4, p1, p3, p2];
  }

  lemma SortLoopLast3(p2: Point, p3: Point, p4: Point)
    requires p2.x == 100.0 && p3.x == 50.0 && p4.x == 0.0
    ensures SortByX([p2, p3, p4]) == [p4, p3, p2]
  {
    var s, rest, sortedRest := [p2, p3, p4], [p3, p4], [p4, p3];
    assert s[0] == p2 && s[1..] == rest;
    SortFirst(s);
    SortLoopLast2(p3, p4);
    InsertPast(p2, sortedRest);
    assert sortedRest[1..] == [p3];
    InsertPast(p2, [p3]);
    assert [p3][1..] == [];
    InsertFront(p2, []);
    assert [p4] + ([p3] + ([p2] + [])) == [p4, p3, p2];
  }

  lemma SortLoopLast2(p3: Point, p4: Point)
    requires p3.x == 50.0 && p4.x == 0.0
    ensures SortByX([p3, p4]) == [p4, p3]
  {
    var s := [p3, p4];
    assert s[0] == p3 && s[1..] == [p4];
    SortFirst(s);
    assert [p4][0] == p4 && [p4][1..] == [];
    SortFirst([p4]);
    InsertFront(p4, []);
    InsertPast(p3, [p4]);
    InsertFront(p3, []);
    assert [p4] + ([p3] + []) == [p4, p3];
  }

  /** One step of the sort: the first point is inserted into the sorted rest. */
  lemma SortFirst(s: seq<Point>)
    requires |s| > 0
    ensures SortByX(s) == InsertByX(s[0], SortByX(s[1..]))
  {
  }

  /** A point goes in front of a stroke starting at an x at least its own. */
  lemma InsertFront(p: Point, s: seq<Point>)
    requires |s| == 0 || p.x <= s[0].x
    ensures InsertByX(p, s) == [p] + s
  {
  }

  /** A point goes past a first point of smaller x. */
  lemma InsertPast(p: Point, s: seq<Point>)
    requires |s| > 0 && p.x > s[0].x
    ensures InsertByX(p, s) == [s[0]] + InsertByX(p, s[1..])
  {
  }

  /** Sample `k` of the sorted loop: up to x = 100 each read lies between two
      of the ys 50 .. 150, and the two grid positions past x = 100 extend the
      last segment only to y = 98 and y = 81. */
  lemma LoopReadInRange(k: int)
    requires 0 <= k < 8
    ensures -1.0 <= SampleAt([0.0, 0.0, 50.0, 50.0, 100.0], [100.0, 100.0, 50.0, 150.0, 100.0], GridX(k, 8, 120.0), 200.0, false) <= 1.0
  {
    var xs, ys := [0.0, 0.0, 50.0, 50.0, 100.0], [100.0, 100.0, 50.0, 150.0, 100.0];
    var xq := GridX(k, 8, 120.0);
    assert xq == 17.0 * k as real;
    if k < 6 {
      LoopReadInside(xq);
    } else {
      LoopReadPast(xq);
    }
    MathYRange(CanvasYAt(xs, ys, xq, FirstAtLeast(xs, xq)), 200.0);
  }

  /** Up to x = 100 the loop is read between two of its ys. */
  lemma LoopReadInside(xq: real)
    requires 0.0 <= xq <= 100.0
    ensures var xs, ys := [0.0, 0.0, 50.0, 50.0, 100.0], [100.0, 100.0, 50.0, 150.0, 100.0];
      50.0 <= CanvasYAt(xs, ys, xq, FirstAtLeast(xs, xq)) <= 150.0
  {
    var xs, ys := [0.0, 0.0, 50.0, 50.0, 100.0], [100.0, 100.0, 50.0, 150.0, 100.0];
    ReadBrackets(xs, ys, xq);
    assert xs[FirstAtLeast(xs, xq)] >= xq;
  }

  /** Past x = 100 the search falls off the end and the last segment, from
      (50, 150) to (100, 100), is extended. */
  lemma LoopReadPast(xq: real)
    requires 100.0 < xq <= 119.0
    ensures var xs, ys := [0.0, 0.0, 50.0, 50.0, 100.0], [100.0, 100.0, 50.0, 150.0, 100.0];
      CanvasYAt(xs, ys, xq, FirstAtLeast(xs, xq)) == 150.0 + ((xq - 50.0) / 50.0) * (100.0 - 150.0)
  {
    var xs := [0.0, 0.0, 50.0, 50.0, 100.0];
    ReadBrackets(xs, [100.0, 100.0, 50.0, 150.0, 100.0], xq);
    assert FirstAtLeast(xs, xq) == 4;
  }
}
