/** The sequence helpers behind the spectral activity panel: a centred
    moving average, the clamp of the visible part of the period, and the
    SVG path of a signal over a 640 × 220 view box. */
module SpectralViz {
  import opened JsRuntime

  /** The view box of the panel. */
  const Width: real := 640.0
  const Height: real := 220.0

  // ---------------------------------------------------------------------
  // Moving average
  // ---------------------------------------------------------------------

  /** The sum of `values[j]` over the indices `lo <= j < hi` that lie in the
      array. */
  function ClippedSum(values: seq<real>, lo: int, hi: int): real
    decreases hi - lo
  {
    if hi <= lo then 0.0 else
      ClippedSum(values, lo, hi - 1) + (if 0 <= hi - 1 < |values| then values[hi - 1] else 0.0)
  }

  /** How many of the indices `lo <= j < hi` lie in an array of length `n`. */
  function ClippedCount(n: int, lo: int, hi: int): nat
    decreases hi - lo
  {
    if hi <= lo then 0 else
      ClippedCount(n, lo, hi - 1) + (if 0 <= hi - 1 < n then 1 else 0)
  }

  /** Entry `i` of the moving average: the mean of the window
      `[i - radius, i + radius]` clipped to the array, or `values[i]` for an
      empty window. */
  function SmoothedAt(values: seq<real>, i: int, radius: int): real
    requires 0 <= i < |values|
  {
    var count := ClippedCount(|values|, i - radius, i + radius + 1);
    if count != 0 then ClippedSum(values, i - radius, i + radius + 1) / count as real else values[i]
  }

  /** `smoothValues`, as a value: the input itself when it is empty or the
      radius is not positive. */
  function Smooth(values: seq<real>, radius: int): (r: seq<real>)
    ensures |r| == |values|
    ensures radius <= 0 ==> r == values
  {
    if |values| == 0 || radius <= 0 then values
    else seq(|values|, i requires 0 <= i < |values| => SmoothedAt(values, i, radius))
  }

  /** `smoothValues`: for each entry, an inner loop over the window offsets
      `-radius … radius`, then the mean written to a fresh array. */
  method SmoothValues(values: seq<real>, radius: int) returns (result: seq<real>)
    ensures result == Smooth(values, radius)
  {
    if |values| == 0 || radius <= 0 {
      return values;
    }
    var out := new real[|values|];
    for i := 0 to |values|
      invariant forall j :: 0 <= j < i ==> out[j] == SmoothedAt(values, j, radius)
    {
      var sum, count := WindowSum(values, i, radius);
      out[i] := if count != 0 then sum / count as real else values[i];
    }
    result := out[..];
  }

  /** The inner loop of `smoothValues`: the sum and the number of the
      entries at offsets `-radius … radius` from `i` that lie in the array. */
  method WindowSum(values: seq<real>, i: int, radius: int) returns (sum: real, count: int)
    requires 0 <= i < |values| && radius > 0
    ensures sum == ClippedSum(values, i - radius, i + radius + 1)
    ensures count == ClippedCount(|values|, i - radius, i + radius + 1)
  {
    sum := 0.0;
    count := 0;
    var k := -radius;
    while k <= radius
      invariant -radius <= k <= radius + 1
      invariant sum == ClippedSum(values, i - radius, i + k)
      invariant count == ClippedCount(|values|, i - radius, i + k)
    {
      var idx := i + k;
      if idx >= 0 && idx < |values| {
        sum := sum + values[idx];
        count := count + 1;
      }
      k := k + 1;
    }
  }

  /** The clipped window has exactly as many indices as the overlap of
      `[lo, hi)` with `[0, n)`. */
  lemma {:induction false} ClippedCountIsOverlap(n: int, lo: int, hi: int)
    requires 0 <= n && lo <= hi
    ensures ClippedCount(n, lo, hi)
      == if hi <= 0 || lo >= n then 0 else (if hi < n then hi else n) - (if lo > 0 then lo else 0)
    decreases hi - lo
  {
    if hi > lo {
      ClippedCountIsOverlap(n, lo, hi - 1);
    }
  }

  /** The window of an entry always holds the entry itself, so the
      `values[i]` fallback of `smoothValues` is never taken. */
  lemma WindowNeverEmpty(n: int, i: int, radius: int)
    requires 0 <= i < n && radius >= 0
    ensures ClippedCount(n, i - radius, i + radius + 1) >= 1
  {
    ClippedCountIsOverlap(n, i - radius, i + radius + 1);
  }

  /** Bounds on the entries of a window bound its sum. */
  lemma {:induction false} ClippedSumBounds(values: seq<real>, lo: int, hi: int, a: real, b: real)
    requires forall j :: lo <= j < hi && 0 <= j < |values| ==> a <= values[j] <= b
    ensures ClippedCount(|values|, lo, hi) as real * a <= ClippedSum(values, lo, hi)
    ensures ClippedSum(values, lo, hi) <= ClippedCount(|values|, lo, hi) as real * b
    decreases hi - lo
  {
    if hi > lo {
      ClippedSumBounds(values, lo, hi - 1, a, b);
    }
  }

  /** Each entry of the moving average lies between the least and the
      greatest input of its window. */
  lemma SmoothedWithinWindow(values: seq<real>, radius: int, i: int, a: real, b: real)
    requires radius > 0 && 0 <= i < |values|
    requires forall j :: i - radius <= j <= i + radius && 0 <= j < |values| ==> a <= values[j] <= b
    ensures a <= Smooth(values, radius)[i] <= b
  {
    assert Smooth(values, radius)[i] == SmoothedAt(values, i, radius);
    SmoothedAtWithin(values, radius, i, a, b);
  }

  lemma SmoothedAtWithin(values: seq<real>, radius: int, i: int, a: real, b: real)
    requires radius > 0 && 0 <= i < |values|
    requires forall j :: i - radius <= j < i + radius + 1 && 0 <= j < |values| ==> a <= values[j] <= b
    ensures a <= SmoothedAt(values, i, radius) <= b
  {
    SmoothedIsMean(values, i, radius);
    WindowMeanBounds(values, i - radius, i + radius + 1, a, b);
  }

  /** Bounds on the entries of a non-empty window bound its mean. */
  lemma WindowMeanBounds(values: seq<real>, lo: int, hi: int, a: real, b: real)
    requires forall j :: lo <= j < hi && 0 <= j < |values| ==> a <= values[j] <= b
    requires ClippedCount(|values|, lo, hi) >= 1
    ensures a <= ClippedSum(values, lo, hi) / ClippedCount(|values|, lo, hi) as real <= b
  {
    ClippedSumBounds(values, lo, hi, a, b);
    MeanWithin(ClippedSum(values, lo, hi), ClippedCount(|values|, lo, hi) as real, a, b);
  }

  /** Entry `i` of the moving average is the window's sum over its count. */
  lemma SmoothedIsMean(values: seq<real>, i: int, radius: int)
    requires radius >= 0 && 0 <= i < |values|
    ensures ClippedCount(|values|, i - radius, i + radius + 1) >= 1
    ensures SmoothedAt(values, i, radius)
      == ClippedSum(values, i - radius, i + radius + 1) / ClippedCount(|values|, i - radius, i + radius + 1) as real
  {
    WindowNeverEmpty(|values|, i, radius);
  }

  /** A sum of `c` terms between `a` and `b` has its mean between them. */
  lemma MeanWithin(sum: real, c: real, a: real, b: real)
    requires c >= 1.0 && c * a <= sum <= c * b
    ensures a <= sum / c <= b
  {
    DivMonotone(c * a, sum, c);
    DivMonotone(sum, c * b, c);
    assert (c * a) / c == a && (c * b) / c == b;
  }

  /** A constant signal is left as it is. */
  lemma SmoothKeepsConstant(values: seq<real>, radius: int, v: real)
    requires forall j :: 0 <= j < |values| ==> values[j] == v
    ensures Smooth(values, radius) == values
  {
    if |values| > 0 && radius > 0 {
      forall i | 0 <= i < |values|
        ensures Smooth(values, radius)[i] == values[i]
      {
        SmoothedWithinWindow(values, radius, i, v, v);
      }
    }
  }

  // ---------------------------------------------------------------------
  // Visible range
  // ---------------------------------------------------------------------

  /** The part of the period `[start, end]` that is drawn. */
  datatype VisibleRange = VisibleRange(start: JsNumber, end: JsNumber)

  /** A range whose bounds are finite with `0 <= start <= end <= 1`. */
  predicate IsUnitRange(r: VisibleRange)
  {
    IsFinite(r.start) && IsFinite(r.end) && 0.0 <= r.start.value <= r.end.value <= 1.0
  }

  /** `clampRange`: a missing range is the whole period; a bound that is not
      finite falls back to 0 (start) or 1 (end), a finite one is clamped to
      `[0, 1]`, and an end before the start is moved up to it. */
  function ClampRange(range: Option<VisibleRange>): (r: VisibleRange)
    ensures IsUnitRange(r)
    ensures range.None? ==> r == VisibleRange(Finite(0.0), Finite(1.0))
    ensures range.Some? && !IsFinite(range.value.start) ==> r.start == Finite(0.0)
    ensures range.Some? && IsFinite(range.value.start) ==>
      r.start == Finite(Clamp(range.value.start.value, 0.0, 1.0))
    ensures range.Some? ==>
      var end := if IsFinite(range.value.end) then Clamp(range.value.end.value, 0.0, 1.0) else 1.0;
      r.end == Finite(if end < r.start.value then r.start.value else end)
  {
    if range.None? then VisibleRange(Finite(0.0), Finite(1.0))
    else
      var start := if IsFinite(range.value.start) then Max(0.0, Min(1.0, range.value.start.value)) else 0.0;
      var end := if IsFinite(range.value.end) then Max(0.0, Min(1.0, range.value.end.value)) else 1.0;
      VisibleRange(Finite(start), Finite(if end < start then start else end))
  }

  /** Clamping changes a given range exactly when it is not already a unit
      range. */
  lemma ClampRangeFixesExactlyUnit(range: VisibleRange)
    ensures ClampRange(Some(range)) == range <==> IsUnitRange(range)
  {
  }

  /** Clamping twice is clamping once. */
  lemma ClampRangeIdempotent(range: Option<VisibleRange>)
    ensures ClampRange(Some(ClampRange(range))) == ClampRange(range)
  {
    ClampRangeFixesExactlyUnit(ClampRange(range));
  }

  // ---------------------------------------------------------------------
  // SVG path
  // ---------------------------------------------------------------------

  /** The x-coordinates used: `xs` when it has one per value, the indices
      otherwise. */
  function SafeXs(xs: seq<real>, values: seq<real>): (r: seq<real>)
    ensures |r| == |values|
    ensures |xs| == |values| ==> r == xs
    ensures |xs| != |values| ==> forall i :: 0 <= i < |r| ==> r[i] == i as real
  {
    if |xs| == |values| then xs else seq(|values|, i requires 0 <= i < |values| => i as real)
  }

  /** `Math.min(...s)`. */
  function SeqMin(s: seq<real>): (m: real)
    requires |s| > 0
    ensures forall i :: 0 <= i < |s| ==> m <= s[i]
    ensures m in s
  {
    if |s| == 1 then s[0] else Min(SeqMin(s[..|s| - 1]), s[|s| - 1])
  }

  /** `Math.max(...s)`. */
  function SeqMax(s: seq<real>): (m: real)
    requires |s| > 0
    ensures forall i :: 0 <= i < |s| ==> s[i] <= m
    ensures m in s
  {
    if |s| == 1 then s[0] else Max(SeqMax(s[..|s| - 1]), s[|s| - 1])
  }

  /** The divisor that maps the x-coordinates onto `[0, 1]`: their extent,
      but never less than 1. */
  function PathSpan(minX: real, maxX: real): (span: real)
    ensures span >= 1.0 && span >= maxX - minX
  {
    Max(maxX - minX, 1.0)
  }

  /** The position `u` of an x-coordinate within the period. */
  function Position(x: real, minX: real, span: real): real
    requires span > 0.0
  {
    (x - minX) / span
  }

  /** A sample is drawn unless its position falls outside `[start, end]`. */
  predicate Visible(u: real, range: VisibleRange)
    requires IsUnitRange(range)
  {
    !(u < range.start.value || u > range.end.value)
  }

  /** The `x,y` pair of a sample, each printed by toFixed(2) (`fixed2`). */
  function PointText(u: real, value: real, fixed2: real -> string): string
  {
    fixed2(u * Width) + "," + fixed2((1.0 - (value + 1.0) / 2.0) * Height)
  }

  /** The points of the first `m` samples that are visible, in order. */
  function Points(xs: seq<real>, smoothed: seq<real>, minX: real, span: real, range: VisibleRange,
                  fixed2: real -> string, m: int): (r: seq<string>)
    requires |xs| == |smoothed| && 0 <= m <= |xs|
    requires span > 0.0 && IsUnitRange(range)
    ensures |r| <= m
  {
    if m == 0 then [] else
      var u := Position(xs[m - 1], minX, span);
      Points(xs, smoothed, minX, span, range, fixed2, m - 1)
        + (if Visible(u, range) then [PointText(u, smoothed[m - 1], fixed2)] else [])
  }

  /** The points `buildPath` keeps for a non-empty signal. */
  function PathPoints(xs: seq<real>, values: seq<real>, range: Option<VisibleRange>, fixed2: real -> string): seq<string>
    requires |values| > 0
  {
    var safeXs := SafeXs(xs, values);
    var minX := SeqMin(safeXs);
    Points(safeXs, Smooth(values, 3), minX, PathSpan(minX, SeqMax(safeXs)), ClampRange(range), fixed2, |values|)
  }

  /** `buildPath`, as a value: empty for an empty signal or when nothing is
      visible, else `M` followed by the points joined with `L`. */
  function Path(xs: seq<real>, values: seq<real>, range: Option<VisibleRange>, fixed2: real -> string): string
  {
    if |values| == 0 then ""
    else
      var points := PathPoints(xs, values, range, fixed2);
      if |points| == 0 then "" else "M " + Join(points, " L ")
  }

  /** `buildPath`: the values smoothed with radius 3, the x-coordinates
      normalised by their extent, then a loop that skips invisible samples
      and pushes the others. */
  method BuildPath(xs: seq<real>, values: seq<real>, range: Option<VisibleRange>, fixed2: real -> string)
    returns (d: string)
    ensures d == Path(xs, values, range, fixed2)
  {
    if |values| == 0 {
      return "";
    }
    var smoothed := SmoothValues(values, 3);
    var safeXs := SafeXs(xs, values);
    var minX := SeqMin(safeXs);
    var maxX := SeqMax(safeXs);
    var span := Max(maxX - minX, 1.0);
    var visible := ClampRange(range);
    var points := CollectPoints(safeXs, smoothed, minX, span, visible, fixed2);
    assert points == PathPoints(xs, values, range, fixed2);
    if |points| == 0 {
      return "";
    }
    return "M " + Join(points, " L ");
  }

  /** The loop of `buildPath`: a sample outside the visible range is
      skipped, the others are pushed as `x,y` pairs. */
  method CollectPoints(safeXs: seq<real>, smoothed: seq<real>, minX: real, span: real, visible: VisibleRange,
                       fixed2: real -> string) returns (points: seq<string>)
    requires |safeXs| == |smoothed| && span > 0.0 && IsUnitRange(visible)
    ensures points == Points(safeXs, smoothed, minX, span, visible, fixed2, |smoothed|)
  {
    points := [];
    for index := 0 to |smoothed|
      invariant points == Points(safeXs, smoothed, minX, span, visible, fixed2, index)
    {
      var u := (safeXs[index] - minX) / span;
      if u < visible.start.value || u > visible.end.value {
        continue;
      }
      var normX := u * Width;
      var value := smoothed[index];
      var normY := (1.0 - (value + 1.0) / 2.0) * Height;
      PointStep(safeXs, smoothed, minX, span, visible, fixed2, index, u, normX, normY);
      points := points + [fixed2(normX) + "," + fixed2(normY)];
    }
  }

  /** One step of the loop of `buildPath`, for a sample at position `u`. */
  lemma PointStep(xs: seq<real>, smoothed: seq<real>, minX: real, span: real, range: VisibleRange,
                  fixed2: real -> string, index: int, u: real, normX: real, normY: real)
    requires |xs| == |smoothed| && 0 <= index < |xs|
    requires span > 0.0 && IsUnitRange(range)
    requires u == (xs[index] - minX) / span
    requires normX == u * Width && normY == (1.0 - (smoothed[index] + 1.0) / 2.0) * Height
    ensures Points(xs, smoothed, minX, span, range, fixed2, index + 1)
      == Points(xs, smoothed, minX, span, range, fixed2, index)
        + (if u < range.start.value || u > range.end.value then [] else [fixed2(normX) + "," + fixed2(normY)])
  {
  }

  /** The divisor is at least 1 and at least the extent of the x-values. */
  lemma SpanAtLeastOne(s: seq<real>)
    requires |s| > 0
    ensures PathSpan(SeqMin(s), SeqMax(s)) >= 1.0
    ensures PathSpan(SeqMin(s), SeqMax(s)) >= SeqMax(s) - SeqMin(s) >= 0.0
  {
    assert SeqMin(s) <= s[0] <= SeqMax(s);
  }

  /** Every sample's position lies in `[0, 1]`. */
  lemma PositionInUnit(s: seq<real>, i: int)
    requires 0 <= i < |s|
    ensures 0.0 <= Position(s[i], SeqMin(s), PathSpan(SeqMin(s), SeqMax(s))) <= 1.0
  {
    var minX, maxX := SeqMin(s), SeqMax(s);
    var span := PathSpan(minX, maxX);
    SpanAtLeastOne(s);
    DivMonotone(0.0, s[i] - minX, span);
    DivMonotone(s[i] - minX, span, span);
    DivSelf(span);
  }

  /** The number of points is the number of visible samples: all of them
      when every sample is visible, none exactly when no sample is. */
  lemma {:induction false} PointsCount(xs: seq<real>, smoothed: seq<real>, minX: real, span: real,
                                       range: VisibleRange, fixed2: real -> string, m: int)
    requires |xs| == |smoothed| && 0 <= m <= |xs|
    requires span > 0.0 && IsUnitRange(range)
    ensures (forall i :: 0 <= i < m ==> Visible(Position(xs[i], minX, span), range)) ==>
      |Points(xs, smoothed, minX, span, range, fixed2, m)| == m
    ensures |Points(xs, smoothed, minX, span, range, fixed2, m)| == 0 <==>
      forall i :: 0 <= i < m ==> !Visible(Position(xs[i], minX, span), range)
  {
    if m > 0 {
      PointsCount(xs, smoothed, minX, span, range, fixed2, m - 1);
    }
  }

  /** Without a visible range every sample is drawn. */
  lemma WholeRangeDrawsEverySample(xs: seq<real>, values: seq<real>, fixed2: real -> string)
    requires |values| > 0
    ensures |PathPoints(xs, values, None, fixed2)| == |values|
  {
    var safeXs := SafeXs(xs, values);
    var minX, maxX := SeqMin(safeXs), SeqMax(safeXs);
    var span := PathSpan(minX, maxX);
    SpanAtLeastOne(safeXs);
    forall i | 0 <= i < |values|
      ensures Visible(Position(safeXs[i], minX, span), ClampRange(None))
    {
      PositionInUnit(safeXs, i);
    }
    PointsCount(safeXs, Smooth(values, 3), minX, span, ClampRange(None), fixed2, |values|);
  }

  /** The path is empty exactly when the signal is empty or none of its
      samples falls in the visible range; otherwise it starts with `M `. */
  lemma PathEmptyIffNothingVisible(xs: seq<real>, values: seq<real>, range: Option<VisibleRange>, fixed2: real -> string)
    ensures var d := Path(xs, values, range, fixed2);
      d == "" <==> (|values| == 0 ||
        var safeXs := SafeXs(xs, values);
        var minX := SeqMin(safeXs);
        var span := PathSpan(minX, SeqMax(safeXs));
        forall i :: 0 <= i < |values| ==> !Visible(Position(safeXs[i], minX, span), ClampRange(range)))
    ensures var d := Path(xs, values, range, fixed2);
      d != "" ==> "M " <= d
  {
    if |values| > 0 {
      var safeXs := SafeXs(xs, values);
      SpanAtLeastOne(safeXs);
      var minX := SeqMin(safeXs);
      PointsCount(safeXs, Smooth(values, 3), minX, PathSpan(minX, SeqMax(safeXs)), ClampRange(range), fixed2, |values|);
    }
  }
}
