# Fourier-Sketch numeric pipeline, modelled in Dafny

Fourier-Sketch lets a user draw a stroke on a canvas and shows the stroke's
truncated Fourier series. This project models the numeric core behind it:

- the canvas helpers (`src/lib/drawing.ts`): canvas row ↔ value mapping,
  `valuesToPoints`, `pointsToPath` and the built-in test signals;
- Ramer–Douglas–Peucker simplification (`src/lib/simplify.ts`);
- corner-cutting smoothing (`src/lib/smoothing.ts`);
- resampling onto a uniform grid (`src/lib/resampleArcLength.ts`);
- Fourier coefficients, the Lanczos sigma taper and series evaluation
  (`src/lib/fourier.ts`);
- the series text and the graphing-calculator export (`src/lib/formatting.ts`);
- domain normalisation (`src/lib/domain.ts`);
- the pure helpers of the spectral panel (`src/components/SpectralViz.tsx`):
  the moving average, the visible-range clamp and the SVG path builder.

There is one Dafny module per source file, plus `JsRuntime`
(`js_runtime.dfy`). `JsRuntime` holds the slice of JavaScript the pipeline
relies on:

- numbers with NaN and ±Infinity, where they matter;
- `Math.round`, `Math.min`/`Math.max` clamping and `Array.prototype.join`;
- the rendering of an integer as decimal text.

Numbers are modelled as `real`. The host functions are parameters:
`Math.sin`/`Math.cos` are `sin`/`cos`, `Number#toString` of a finite value is
`show`, and `toFixed(2)` is `fixed2`. `Math.hypot` is compared through squared
distances.

Code that works by loops is a `method` proved equal to a specification
function:

- `Simplify.FarthestFromChord`, `Smoothing.SmoothPath`, `Resample.LowerBound`;
- `Resample.ResampleArcLength`, `Fourier.ComputeFourierCoefficients`,
  `Fourier.EvaluateFourierSeries`;
- `Formatting.FormatSeriesText`, `Formatting.BuildDesmosExport`;
- `SpectralViz.SmoothValues`, `SpectralViz.BuildPath`, `Drawing.PointsToPath`.

The properties are lemmas about those functions.

Where the explanatory text of the application and the code disagree, the model
follows the code:

- The resampler sorts a copy of the stroke by x and interpolates in x; it does
  not measure arc length (`src/lib/resampleArcLength.ts:58-81`).
- The coefficients are plain `2/N` sums at the angles `2πn/N`
  (`src/lib/fourier.ts:17-37`), not the endpoint-half-weight quadrature the UI
  describes.
- The export multiplies every amplitude by the span `b - a`
  (`src/lib/formatting.ts:40-56`).

## Model

| member | source | states |
|---|---|---|
| JsRuntime.Sub | src/lib/formatting.ts:40 | `b - a` on JS numbers: the real difference for finite operands, NaN when either is NaN or both are the same infinity |
| JsRuntime.ShowNumber | src/lib/domain.ts:19 | a number in a template literal: `show` of a finite value, `NaN`, `Infinity` or `-Infinity` otherwise |
| JsRuntime.NatToString | src/lib/formatting.ts:23 | the text of a harmonic index `k` is non-empty, all decimal digits, with no leading zero |
| JsRuntime.NatToStringRoundTrip | src/lib/formatting.ts:23 | reading the decimal text of `k` back gives `k`, so distinct harmonics get distinct labels |
| JsRuntime.Clamp | src/lib/drawing.ts:21 | `Math.max(lo, Math.min(hi, v))` lies in `[lo, hi]`, is `v` inside it and the nearer bound outside |
| JsRuntime.Round | src/lib/smoothing.ts:6 | `Math.round(x)` is the integer within half of `x`, halves rounded up |
| JsRuntime.Join | src/lib/drawing.ts:36 | `join` of no parts is empty, of one part is that part, otherwise has the parts' total length plus one separator per gap and starts with the first part |
| JsRuntime.Scale | src/lib/formatting.ts:45-54 | multiplication of a finite value by a JS number is finite exactly when the factor is |
| Domain.OrDefault | src/lib/domain.ts:10-11 | a finite bound is kept and a NaN or infinite one is replaced by its default |
| Domain.NormalizeDomain | src/lib/domain.ts:8-16 | the result is always valid; a finite `a` is kept and any other becomes 0; `b` (non-finite → 4) is kept when above `a` and becomes `a + 1` otherwise |
| Domain.DefaultIsValid | src/lib/domain.ts:6 | the default domain `DefaultDomain`, `{0, 4}`, is valid and normalises to itself |
| Domain.NormalizeFixesExactlyValid | src/lib/domain.ts:8-16 | normalising leaves a domain unchanged if and only if it is valid (finite bounds, `b > a`) |
| Domain.NormalizeIdempotent | src/lib/domain.ts:8-16 | normalising twice is normalising once |
| Domain.FormatDomain | src/lib/domain.ts:18-20 | `{a<x<b}` is braced and five characters longer than the two numbers' texts |
| Domain.FormatDomainInjective | src/lib/domain.ts:18-20 | for a one-to-one number rendering without `<`, two valid domains with the same text are equal |
| Domain.IsValidDomain | src/lib/domain.ts:22-24 | `isValidDomain`: both bounds finite and `b > a`; `NormalizeFixesExactlyValid` shows these are exactly the domains normalisation leaves alone (no contract of its own) |
| Drawing.CanvasYToValue | src/lib/drawing.ts:18-22 | 0 for height 0, always in `[-1, 1]`, and on the canvas `value · height = height - 2y` |
| Drawing.ValueToCanvasY | src/lib/drawing.ts:24-27 | for a height ≥ 0 the row lies in `[0, height]`; values ≥ 1 go to the top row, values ≤ -1 to `height` |
| Drawing.ValueRoundTrip | src/lib/drawing.ts:18-27 | value → row → value gives the value clamped to `[-1, 1]` |
| Drawing.CanvasRoundTrip | src/lib/drawing.ts:18-27 | row → value → row gives back any row on the canvas |
| Drawing.CanvasYToValueAntitone | src/lib/drawing.ts:18-22 | a lower row never has a larger value |
| Drawing.SampleXIncreasing | src/lib/drawing.ts:127-129 | sample x positions strictly increase with the index on a canvas of positive width |
| Drawing.ValuesToPoints | src/lib/drawing.ts:118-133 | one point per value, `t` is the index, `x = i / max(n-1, 1) · width` (0 first, the width last), `y` is the value's row on the canvas size (960 × 520 defaults) |
| Drawing.ValuesToPointsRoundTrip | src/lib/drawing.ts:118-133 | each point reads back as its value clamped to `[-1, 1]`, and the xs strictly increase |
| Drawing.ValuesToPointsReadBack | src/lib/drawing.ts:118-133 | each point's row reads back as its value clamped to `[-1, 1]` |
| Drawing.ValuesToPointsIncreasing | src/lib/drawing.ts:127-129 | the points' xs strictly increase |
| Drawing.Command | src/lib/drawing.ts:32-34 | a path command starts with its letter and a space |
| Drawing.PathCommands | src/lib/drawing.ts:29-37 | one command per point: `M` for the first, `L` for every other |
| Drawing.PointsToPath | src/lib/drawing.ts:29-37 | empty for no points, else the commands joined by single spaces |
| Drawing.Generate | src/lib/drawing.ts:48-116 | a test signal has exactly `samples` values, value `i` taken at `u = i / max(samples-1, 1)` |
| Drawing.SignalUBeforeHalf | src/lib/drawing.ts:89-91 | sample `i` lies before `u = 1/2` if and only if `2i < samples - 1` |
| Drawing.SquareWaveValues | src/lib/drawing.ts:83-93 | every square-wave value is 1 or -1, and it is 1 exactly for the samples before the midpoint |
| Drawing.SawPosition | src/lib/drawing.ts:100-101 | sample `i` sits at `u = i/(samples-1)` in `[0, 1]`, the last at 1 |
| Drawing.SawWaveRange | src/lib/drawing.ts:94-104 | the sawtooth runs from -1 to 1, strictly increasing, within `[-1, 1]` |
| Drawing.TriangleWaveRange | src/lib/drawing.ts:72-82 | every triangle-wave value lies in `[-1, 1]` |
| Drawing.CanvasSize | src/lib/drawing.ts:123-126 | neither size is ever 0 (a 0 width or height falls back to 960 × 520), and positive sizes stay positive |
| Drawing.SampleFraction | src/lib/drawing.ts:127-129 | `index / max(n - 1, 1)` is 0 for the first sample, 1 for the last of at least two, and in `[0, 1]` for every sample |
| Drawing.SampleX | src/lib/drawing.ts:127-129 | the sample's fraction times the width; strictly increasing by `SampleXIncreasing` (no contract of its own) |
| Drawing.SignalU | src/lib/drawing.ts:55-56 | `i / max(samples - 1, 1)`; placed in `[0, 1]` by `SawPosition` and split at 1/2 by `SignalUBeforeHalf` (no contract of its own) |
| Drawing.SignalValue | src/lib/drawing.ts:48-115 | the six waveforms at position `u`: the square wave is always 1 or -1, the triangle wave stays in `[-1, 1]`, the sawtooth stays in `[-1, 1]` for `u` in `[0, 1]`; the sine-based ones use the `sin`/`cos` parameters |
| Drawing.TestSignalsCatalogue | src/lib/drawing.ts:48-116 | `TEST_SIGNALS` (`TestSignals`) lists six signals with pairwise distinct ids and pairwise distinct waveforms |
| Simplify.PerpendicularDistanceSq | src/lib/simplify.ts:3-13 | the squared distance is ≥ 0; for a zero-length chord it is the squared distance to `a`; a point at `a` has distance 0 |
| Simplify.FootParameter | src/lib/simplify.ts:9 | the projection parameter `t` of a point at `a` is 0 |
| Simplify.FootParameterScaled | src/lib/simplify.ts:9 | `t · |b - a|² = (p - a)·(b - a)` |
| Simplify.AlongExpanded | src/lib/simplify.ts:10-12 | the squared distance to the point `a + s(b - a)` is the quadratic `|p-a|² - 2s(p-a)·(b-a) + s²|b-a|²` |
| Simplify.QuadraticLeastAt | src/lib/simplify.ts:9 | that quadratic is least at `s = (p-a)·(b-a)/|b-a|²` |
| Simplify.FootIsNearest | src/lib/simplify.ts:9-12 | the projection is no farther from `p` than any other point of the line |
| Simplify.PerpendicularIsClosest | src/lib/simplify.ts:3-13 | the computed distance is the least distance from `p` to the line through `a` and `b` |
| Simplify.ChordEndOnChord | src/lib/simplify.ts:19 | the chord's end point is at distance 0 from the chord |
| Simplify.ToleranceTest | src/lib/simplify.ts:25 | the split test is `hypot > tolerance`, stated on squared distances |
| Simplify.ToleranceRejectsZero | src/lib/simplify.ts:17-25 | a tolerance ≥ 0 never splits at distance 0, the search's starting record |
| Simplify.Scan | src/lib/simplify.ts:17-24 | the record's index is below the end; index 0 only with distance 0; otherwise it holds that point's positive distance |
| Simplify.ScanIsFirstMaximum | src/lib/simplify.ts:18-24 | the record holds the largest distance seen, and every earlier interior point is strictly nearer (the first maximum wins) |
| Simplify.FarthestFromChord | src/lib/simplify.ts:17-24 | the search loop computes exactly `Scan` over the interior points |
| Simplify.Simplify | src/lib/simplify.ts:15-31 | at most two points come back unchanged; otherwise 2 ≤ length ≤ input length; the recursion terminates |
| Simplify.Joined | src/lib/simplify.ts:26-28 | the joined halves have at least 3 and at most as many points as the input |
| Simplify.JoinedOf | src/lib/simplify.ts:26-28 | the join of two simplified halves drops the last point of the left half |
| Simplify.SimplifySplits | src/lib/simplify.ts:17-28 | a split happens only at an interior index `1..n-2`, so both slices are shorter |
| Simplify.SimplifyCollapses | src/lib/simplify.ts:25-30 | no interior point too far: the result is `[first, last]` |
| Simplify.SimplifyPath | src/lib/simplify.ts:15-31 | the recursive method computes `Simplify` with the perpendicular distance and the tolerance test |
| Simplify.SimplifyHalves | src/lib/simplify.ts:25-28 | the split branch computes `Simplify` of the whole polyline |
| Simplify.JoinIndices | src/lib/simplify.ts:26-28 | joining the halves' picks picks from the whole input, with the split point once, at an interior position |
| Simplify.SimplifyIndices | src/lib/simplify.ts:15-31 | the result is an order-preserving subsequence of the input keeping its first and last points |
| Simplify.ShortPicks | src/lib/simplify.ts:16 | a polyline of at most two points is a subsequence of itself keeping its ends |
| Simplify.CollapsePicks | src/lib/simplify.ts:30 | `[first, last]` is a subsequence keeping the ends |
| Simplify.SplitPicks | src/lib/simplify.ts:26-28 | a split result is a subsequence whose interior position `j` holds the split point, with the simplified halves before and after it |
| Simplify.CollapseExactly | src/lib/simplify.ts:25-30 | for ≥ 3 points: the result is `[first, last]` if and only if no interior point is farther than the tolerance, if and only if it has 2 points |
| Simplify.NegativeToleranceStalls | src/lib/simplify.ts:17-27 | with a negative tolerance and a straight slice, the search ends on index 0, the test passes and the right slice is the whole input again |
| Simplify.ScanBelow | src/lib/simplify.ts:18-24 | the record stays below any bound that every distance seen stays below |
| Simplify.ScanFindsUnique | src/lib/simplify.ts:18-24 | a point strictly farther than every earlier one and as far as every later one is the one the search ends on |
| Simplify.PicksKeepFarthest | src/lib/simplify.ts:18-24 | a subsequence keeping the ends and the first farthest point is searched to that same point and distance |
| Simplify.FixedBySplit | src/lib/simplify.ts:25-28 | a polyline that splits into two already simplified halves is already simplified |
| Simplify.SimplifyIdempotent | src/lib/simplify.ts:15-31 | simplifying a simplified polyline changes nothing |
| Simplify.SplitIdempotent | src/lib/simplify.ts:25-28 | idempotence in the split case |
| Simplify.HypotSq | src/lib/simplify.ts:7-12 | `Math.hypot(u, v)` squared, `u² + v²`, is never negative |
| Simplify.ChordDistanceSq | src/lib/simplify.ts:19 | point `i`'s squared distance to the chord from the first to the last point (no contract of its own) |
| Simplify.ExceedsTolerance | src/lib/simplify.ts:25 | `hypot > tolerance` on the squared distance: a negative tolerance is always exceeded, otherwise `d² > tolerance²`; `ToleranceTest`, `ToleranceRejectsZero` and `CollapseExactly` carry its consequences (no contract of its own) |
| Smoothing.Cuts | src/lib/smoothing.ts:8-23 | the first `e` edges give exactly `2e` cut points |
| Smoothing.ChaikinPass | src/lib/smoothing.ts:7-25 | a pass maps `n` points to `2n`, keeping the first and last point |
| Smoothing.Smoothed | src/lib/smoothing.ts:7-26 | `k` passes give `n · 2^k` points, same first and last point |
| Smoothing.PassCount | src/lib/smoothing.ts:6 | the pass count is `round(passes)` clamped to `[1, 6]` |
| Smoothing.Smooth | src/lib/smoothing.ts:3-28 | fewer than 3 points or `passes ≤ 1`: unchanged; else `n · 2^PassCount` points; ends always kept |
| Smoothing.SmoothPath | src/lib/smoothing.ts:3-28 | the outer loop computes `Smooth`, building a new sequence each pass |
| Smoothing.SmoothingPass | src/lib/smoothing.ts:8-25 | the inner loop computes one `ChaikinPass` |
| Smoothing.CutsAt | src/lib/smoothing.ts:10-22 | edge `k` contributes its quarter and three-quarter cuts at positions `2k` and `2k+1` |
| Smoothing.PassAt | src/lib/smoothing.ts:10-22 | in a pass, edge `k`'s cuts sit at positions `2k+1` and `2k+2` |
| Smoothing.PassPoint | src/lib/smoothing.ts:10-22 | every interior point of a pass is the 1/4 or 3/4 cut of the edge `(j-1)/2`, with the edge's mean timestamp |
| Smoothing.PassStaysInBox | src/lib/smoothing.ts:12-21 | a pass keeps every point inside any box that held the input |
| Smoothing.SmoothedStaysInBox | src/lib/smoothing.ts:7-26 | any number of passes stays inside the input's box |
| Smoothing.PassKeepsOrder | src/lib/smoothing.ts:12-21 | a pass keeps points ascending in x and in time when the input was |
| Smoothing.SmoothedKeepsOrder | src/lib/smoothing.ts:7-26 | so do any number of passes |
| Smoothing.SmoothingLengthens | src/lib/smoothing.ts:4-26 | when smoothing applies the output has at least twice as many points |
| Smoothing.QuarterCut | src/lib/smoothing.ts:12-16 | the point `q`: 3/4 of `p0` plus 1/4 of `p1`, with the mean timestamp; kept in the box and in order by `PassStaysInBox` and `PassKeepsOrder` (no contract of its own) |
| Smoothing.ThreeQuarterCut | src/lib/smoothing.ts:17-21 | the point `r`: 1/4 of `p0` plus 3/4 of `p1`, with the mean timestamp (no contract of its own) |
| Resample.FirstAtLeast | src/lib/resampleArcLength.ts:15-29 | the answer is the first index whose value reaches the target, or the last index when none does; -1 for no values |
| Resample.LowerBound | src/lib/resampleArcLength.ts:15-29 | on an ascending array the binary search computes `FirstAtLeast` |
| Resample.SearchStaysInside | src/lib/resampleArcLength.ts:18-72 | on a non-empty array the answer is always an index, so the `idx >= length` branch never runs; it is the last index if and only if all earlier values are below the target |
| Resample.FirstAtLeastOrLength | src/lib/resampleArcLength.ts:72-73 | the corrected search: the first index reaching the target, or the length |
| Resample.SearchesAgree | src/lib/resampleArcLength.ts:15-72 | the two searches agree except past the last value, where the written one answers the last index |
| Resample.InsertByXPermutes | src/lib/resampleArcLength.ts:58 | insertion adds exactly the inserted point |
| Resample.InsertByXOrdered | src/lib/resampleArcLength.ts:58 | insertion starts with the point or the old first point and keeps the points ascending in x |
| Resample.SortByXPermutes | src/lib/resampleArcLength.ts:58 | the sort is a permutation of the stroke |
| Resample.SortByXAscending | src/lib/resampleArcLength.ts:58 | the sort leaves the stroke ascending in x |
| Resample.SortByXSorts | src/lib/resampleArcLength.ts:58 | the sort is a permutation ascending in x |
| Resample.Xs | src/lib/resampleArcLength.ts:59 | one x per point, in order |
| Resample.Ys | src/lib/resampleArcLength.ts:60 | one y per point, in order |
| Resample.XsAscending | src/lib/resampleArcLength.ts:58-59 | an x-sorted stroke has ascending xs, as the search needs |
| Resample.SampleCount | src/lib/resampleArcLength.ts:35 | the sample count is `floor(samples)`, at least 2 |
| Resample.GridAt | src/lib/resampleArcLength.ts:41 | grid position `i/(n-1)` lies in `[0, 1]`, 0 first and 1 last |
| Resample.Grid | src/lib/resampleArcLength.ts:39-42 | `u` has `n` entries `u[i] = i/(n-1)` in `[0, 1]`, `u[0] = 0`, `u[n-1] = 1` |
| Resample.ScaledGrid | src/lib/resampleArcLength.ts:44 | the default x positions are `u[i] · (width - 1)` |
| Resample.Filled | src/lib/resampleArcLength.ts:47-54 | `new Array(n).fill(v)` has `n` entries, all `v` |
| Resample.SampleValues | src/lib/resampleArcLength.ts:65-86 | one value per sample |
| Resample.SampleXs | src/lib/resampleArcLength.ts:65-85 | one x per sample |
| Resample.Resample | src/lib/resampleArcLength.ts:31-89 | `u`, `values` and `x` all have exactly the sample count |
| Resample.ResampleArcLength | src/lib/resampleArcLength.ts:31-89 | the method, with its sampling loop, computes `Resample` with the search as written |
| Resample.SampleSorted | src/lib/resampleArcLength.ts:62-86 | the sampling loop pushes exactly the values and xs of `Resample`'s general case |
| Resample.ReadCanvasY | src/lib/resampleArcLength.ts:69-81 | the three-way branch computes `CanvasYAt` |
| Resample.ResampleGrid | src/lib/resampleArcLength.ts:39-42 | the result's grid is `i/(n-1)` from 0 to 1 |
| Resample.ResampleEmpty | src/lib/resampleArcLength.ts:44-48 | no points: all values 0 and `x[i] = u[i]·(width-1)` |
| Resample.ResampleGridX | src/lib/resampleArcLength.ts:65-85 | two or more points: `x[i] = u[i]·(width-1)` as well |
| Resample.ResampleSortedGrids | src/lib/resampleArcLength.ts:39-66 | two or more points: the grid is `Grid` and the xs are the default xs |
| Resample.SampleXsScaled | src/lib/resampleArcLength.ts:44-66 | the loop's x positions equal the default ones |
| Resample.GridXScaled | src/lib/resampleArcLength.ts:44-66 | sample `k`'s x is grid position `k` scaled to the width |
| Resample.ResampleSinglePoint | src/lib/resampleArcLength.ts:50-56 | one point: every value is `1 - 2y/(height-1)` and every x is the point's x |
| Resample.MathYRange | src/lib/resampleArcLength.ts:52-83 | a row between 0 and `height - 1` maps into `[-1, 1]` |
| Resample.LineBetween | src/lib/resampleArcLength.ts:79-80 | between two xs the interpolation stays between the two ys |
| Resample.LerpBetween | src/lib/resampleArcLength.ts:80 | `y1 + t(y2 - y1)` for `t ∈ [0, 1]` lies between `y1` and `y2` |
| Resample.ReadBrackets | src/lib/resampleArcLength.ts:67-81 | before the first x the read is `ys[0]`; between `xs[idx-1] < xq ≤ xs[idx]` it lies between the two ys (and is `ys[idx]` at `xs[idx]`); past the last x the search answers the last index |
| Resample.AsWrittenExtrapolates | src/lib/resampleArcLength.ts:67-81 | a two-point stroke on the canvas is sampled to a value above 1 |
| Resample.HeldValuesInRange | src/lib/resampleArcLength.ts:72-73 | with the corrected search every value of a stroke on the canvas lies in `[-1, 1]` |
| Resample.HeldSamplesInRange | src/lib/resampleArcLength.ts:65-86 | the general case of that bound, sample by sample |
| Resample.HeldReadInRange | src/lib/resampleArcLength.ts:67-83 | one corrected read of rows on the canvas maps into `[-1, 1]` |
| Resample.LoopStrokeInRange | src/tests/resampleArcLength.spec.ts:14-24 | the test's five-point loop, resampled to 8 samples on 120 × 200, gives 8 values all in `[-1, 1]` |
| Resample.LoopStrokeSorted | src/lib/resampleArcLength.ts:58 | the loop sorted by x, equal xs keeping their order |
| Resample.LoopReadInRange | src/lib/resampleArcLength.ts:65-83 | each of the loop's 8 reads maps into `[-1, 1]` |
| Resample.LoopReadInside | src/lib/resampleArcLength.ts:67-81 | up to x = 100 the loop is read between its ys 50 and 150 |
| Resample.LoopReadPast | src/lib/resampleArcLength.ts:67-81 | past x = 100 the loop's last segment is extended |
| Resample.InsertByX | src/lib/resampleArcLength.ts:58 | insertion in front of the first point whose x is at least the point's own: one point longer; its multiset and order are stated by `InsertByXPermutes` and `InsertByXOrdered` |
| Resample.SortByX | src/lib/resampleArcLength.ts:58 | the stable sort by x keeps the length; `SortByXSorts` proves it a permutation ascending in x |
| Resample.Search | src/lib/resampleArcLength.ts:67 | the index the sampling loop reads at: in `[0, length]` for a non-empty stroke; as written always below the length; corrected, equal to the length exactly when every x is below the query |
| Resample.CanvasYAt | src/lib/resampleArcLength.ts:69-81 | the first y for `idx ≤ 0`, the last y for `idx ≥ length`, else the line through points `idx - 1` and `idx` with divisor `x2 - x1 \|\| 1`; bracketed by `ReadBrackets` (no contract of its own) |
| Resample.CanvasX | src/lib/resampleArcLength.ts:44 | `u · (width - 1)` (no contract of its own) |
| Resample.GridX | src/lib/resampleArcLength.ts:66 | `xq = (n / (samples - 1)) · (width - 1)`; equal to the default x by `GridXScaled` (no contract of its own) |
| Resample.MathY | src/lib/resampleArcLength.ts:83 | `1 - 2y / (height - 1 \|\| 1)`; in `[-1, 1]` for rows on the canvas by `MathYRange` (no contract of its own) |
| Resample.SampleAt | src/lib/resampleArcLength.ts:66-84 | search, read the canvas y, map it to a value; bounded by `HeldReadInRange` (no contract of its own) |
| Fourier.SafeHarmonics | src/lib/fourier.ts:15 | the harmonic count is `harmonics` clamped to `[1, 50]` |
| Fourier.Coefficients | src/lib/fourier.ts:7-40 | an empty signal gives `{0, [], []}`; else `an` and `bn` have the clamped count and `a0 · N = 2 Σ values` |
| Fourier.ComputeFourierCoefficients | src/lib/fourier.ts:7-40 | the loops compute `Coefficients` |
| Fourier.HarmonicTables | src/lib/fourier.ts:23-37 | entry `k - 1` of `an`/`bn` is harmonic `k`'s cosine/sine coefficient |
| Fourier.FillHarmonics | src/lib/fourier.ts:26-37 | the outer loop fills every entry of both arrays |
| Fourier.StoreHarmonic | src/lib/fourier.ts:35-36 | one step writes entry `k - 1` of each array and nothing else |
| Fourier.SumValues | src/lib/fourier.ts:17-20 | the loop sums the values |
| Fourier.HarmonicSums | src/lib/fourier.ts:27-34 | the inner loop accumulates `Σ values[n] · cos/sin(k · 2πn/N)` |
| Fourier.ScaledSum | src/lib/fourier.ts:35-36 | `(2/N) · sum` is the harmonic coefficient |
| Fourier.SumConstant | src/lib/fourier.ts:17-20 | the sum of `m` copies of `c` is `m · c` |
| Fourier.ConstantSignal | src/lib/fourier.ts:17-21 | a constant signal `c` gives `a0 = 2c` |
| Fourier.WaveSumOfZeros | src/lib/fourier.ts:17-34 | an all-zero signal has zero sums |
| Fourier.ZeroSignal | src/lib/fourier.ts:17-37 | an all-zero signal gives `a0 = 0` and all-zero `an`, `bn` |
| Fourier.Order | src/lib/fourier.ts:43 | the order is the longer of the two arrays' lengths |
| Fourier.ApplyLanczosSigma | src/lib/fourier.ts:42-63 | `a0` and both lengths are kept; order 0 gives empty arrays |
| Fourier.Taper | src/lib/fourier.ts:55-56 | one tapered entry per entry |
| Fourier.SigmaPointInside | src/lib/fourier.ts:49 | `πk/(order+1)` lies strictly inside `(0, π)` for `1 ≤ k ≤ order` |
| Fourier.SigmaInUnit | src/lib/fourier.ts:48-53 | `0 < sigma(k) < 1` for every tapered harmonic, given `0 < sin x < x` on `(0, π)` |
| Fourier.TaperShrinksEach | src/lib/fourier.ts:55-56 | no tapered entry grows in magnitude; nonzero ones strictly shrink |
| Fourier.TaperShrinks | src/lib/fourier.ts:42-63 | the taper never enlarges a coefficient and strictly shrinks every nonzero one |
| Fourier.FundamentalSigma | src/lib/fourier.ts:48-53 | `sigma(1) > 0.7` when the order is at least 2 |
| Fourier.FundamentalKept | src/tests/fourier.spec.ts:34-35 | with order ≥ 2 the fundamental keeps more than 70% of its magnitude |
| Fourier.EvalLength | src/lib/fourier.ts:69-76 | the length is the array's length, `max(n, 0)` for a number, or 256 |
| Fourier.Ceil | src/lib/fourier.ts:83 | the loop `n < length` runs `ceil(length)` times |
| Fourier.TermSumStep | src/lib/fourier.ts:86-90 | one more harmonic adds `an[k-1] cos(kx) + (bn[k-1] ?? 0) sin(kx)` |
| Fourier.Evaluate | src/lib/fourier.ts:65-94 | as many values as the loop runs; an array gives its length, the default 256, length 0 gives `[]` |
| Fourier.EvaluateFourierSeries | src/lib/fourier.ts:65-94 | the nested loops compute `Evaluate` |
| Fourier.SeriesValue | src/lib/fourier.ts:85-90 | the inner loop computes the series at one angle |
| Fourier.FlatWithoutHarmonics | src/lib/fourier.ts:85-90 | with `an` empty every value is `a0/2` |
| Fourier.OnlyLengthMatters | src/lib/fourier.ts:70-84 | an array argument matters only through its length, and evaluates like that count |
| Fourier.ZeroPadded | src/lib/fourier.ts:88 | `bn` cut or padded with zeros to `n` entries |
| Fourier.TermSumAgrees | src/lib/fourier.ts:86-90 | equal `an` and equal sine coefficients (missing as 0) give equal sums |
| Fourier.SineTermsFollowCosineTerms | src/lib/fourier.ts:86-89 | extra `bn` entries are never read and missing ones count as 0 |
| Fourier.Sum | src/lib/fourier.ts:17-20 | the sum of the first `m` values; `SumConstant` evaluates it for a constant signal (no contract of its own) |
| Fourier.Angle | src/lib/fourier.ts:30 | the sample angle `2πn / length` (no contract of its own) |
| Fourier.WaveSum | src/lib/fourier.ts:29-34 | `Σ values[n] · wave(k · 2πn/N)` over the first `m` samples; one step by `WaveSumStep` (no contract of its own) |
| Fourier.HarmonicCoefficient | src/lib/fourier.ts:26-36 | `(2/N) · WaveSum`: entry `k - 1` of `an` (cosine) or `bn` (sine), as `HarmonicTables` and `ScaledSum` state (no contract of its own) |
| Fourier.SigmaPoint | src/lib/fourier.ts:49 | `πk / (order + 1)`; in `(0, π)` for `1 ≤ k ≤ order` by `SigmaPointInside` (no contract of its own) |
| Fourier.Sigma | src/lib/fourier.ts:48-53 | `sin(x)/x` at the sigma point and 1 at `x = 0`; in `(0, 1)` by `SigmaInUnit`, above 0.7 for the fundamental by `FundamentalSigma` (no contract of its own) |
| Fourier.BAt | src/lib/fourier.ts:88 | `bn[i] ?? 0` (no contract of its own) |
| Fourier.TermSum | src/lib/fourier.ts:86-90 | the first `k` harmonic terms at angle `x`; one step by `TermSumStep` (no contract of its own) |
| Fourier.SeriesAt | src/lib/fourier.ts:84-90 | `a0/2` plus every harmonic term at angle `x`; computed by `SeriesValue` (no contract of its own) |
| Formatting.Round4 | src/lib/formatting.ts:4-10 | rounding to 4 fraction digits: within 0.00005, sign kept, 0 only below 0.00005 |
| Formatting.Fmt | src/lib/formatting.ts:9-13 | `0` for magnitudes that round below 0.0001, else `show` of the rounded value; `NaN` for a non-finite number |
| Formatting.SineEntry | src/lib/formatting.ts:25 | `bn[index]` is the entry, or NaN past the end |
| Formatting.Harmonics | src/lib/formatting.ts:20-29 | two candidate terms per harmonic |
| Formatting.Kept | src/lib/formatting.ts:17-26 | keeping the shown terms never lengthens the list |
| Formatting.TermTexts | src/lib/formatting.ts:17-27 | one text per term, in order |
| Formatting.FormatSeriesText | src/lib/formatting.ts:15-34 | the method computes `SeriesText` |
| Formatting.CollectTexts | src/lib/formatting.ts:16-29 | the pushes produce exactly the texts of the shown terms, in order |
| Formatting.AmplitudeScale | src/lib/formatting.ts:40-41 | the amplitude factor is the span `b - a`, or 1 when the span is 0 |
| Formatting.AngleDivisor | src/lib/formatting.ts:42 | `span \|\| 1` is the span when nonzero, never 0 and never NaN |
| Formatting.ScaleEntry | src/lib/formatting.ts:54 | a sine coefficient times the factor, NaN for a missing one |
| Formatting.TermParts | src/lib/formatting.ts:44-56 | one export part per term, in order |
| Formatting.BuildDesmosExport | src/lib/formatting.ts:36-59 | the method computes `DesmosExport` |
| Formatting.CollectParts | src/lib/formatting.ts:43-56 | the pushes produce exactly the parts of the shown terms, in order |
| Formatting.KeptAppend | src/lib/formatting.ts:17-29 | keeping distributes over concatenation |
| Formatting.KeptMembers | src/lib/formatting.ts:17-26 | a term is kept if and only if it is a candidate and its raw coefficient is nonzero |
| Formatting.HarmonicAt | src/lib/formatting.ts:20-29 | harmonic `k`'s cosine and sine sit at candidate positions `2k-2` and `2k-1` |
| Formatting.TermAppearsIffNonzero | src/lib/formatting.ts:17-26 | the constant, cosine `k` and sine `k` appear if and only if their raw coefficient is nonzero (a missing sine counts as nonzero) |
| Formatting.HarmonicRanks | src/lib/formatting.ts:20-29 | the candidates are listed in rank order |
| Formatting.KeptInOrder | src/lib/formatting.ts:17-29 | keeping preserves rank order |
| Formatting.TermsInOrder | src/lib/formatting.ts:17-29 | the terms come constant first, then cosine `k` before sine `k`, by increasing `k` |
| Formatting.NoTermsIffAllZero | src/lib/formatting.ts:17-32 | no term is written if and only if every coefficient is 0 and `bn` is at least as long as `an` |
| Formatting.AllZeroRendersZero | src/lib/formatting.ts:30-58 | with every coefficient 0 the texts are `f(u) ≈ 0` and `y = 0` |
| Formatting.TinyCoefficientStillWritten | src/lib/formatting.ts:22-23 | a cosine coefficient of 0.00001 is written as `0·cos(1·2πu)` |
| Formatting.TinyTerms | src/lib/formatting.ts:22 | that coefficient is kept because the test is on the raw value |
| Formatting.NaNSineText | src/lib/formatting.ts:25-27 | a missing sine coefficient is written as `NaN·sin(k·2πu)` |
| Formatting.MissingSineIsNaN | src/lib/formatting.ts:25-27 | a `bn` shorter than `an` puts a `NaN` sine term in the series |
| Formatting.Shown | src/lib/formatting.ts:17-26 | the filter `!== 0` on the raw coefficient, a missing sine counting as shown; `KeptMembers` states what it keeps (no contract of its own) |
| Formatting.Candidates | src/lib/formatting.ts:17-29 | the constant, then cosine and sine of each harmonic of `an`; ranked by `HarmonicRanks` (no contract of its own) |
| Formatting.Terms | src/lib/formatting.ts:17-29 | at most `1 + 2·|an|` terms are written; which ones and in what order by `TermAppearsIffNonzero` and `TermsInOrder` |
| Formatting.TermText | src/lib/formatting.ts:18-27 | `fmt(a0/2)`, `fmt(c)·cos(k·2πu)` or `fmt(s)·sin(k·2πu)`; edge cases by `NaNSineText` and `TinyCoefficientStillWritten` (no contract of its own) |
| Formatting.SeriesText | src/lib/formatting.ts:15-34 | always starts with `f(u) ≈ `, and is `f(u) ≈ 0` when no term is written |
| Formatting.Span | src/lib/formatting.ts:40 | `domain.b - domain.a` on JS numbers, as `JsRuntime.Sub` states (no contract of its own) |
| Formatting.AngleText | src/lib/formatting.ts:42 | `(2π*(x - a))/(span \|\| 1)`, its divisor from `AngleDivisor`, never 0 or NaN (no contract of its own) |
| Formatting.TermPart | src/lib/formatting.ts:44-55 | `fmt(a0/2 · scale)`, `fmt(c · scale)*cos(k*x')` or `fmt(s · scale)*sin(k*x')` (no contract of its own) |
| Formatting.DesmosExport | src/lib/formatting.ts:36-59 | always starts with `y = `, and is `y = 0` when no term is written |
| SpectralViz.Smooth | src/components/SpectralViz.tsx:8-24 | the moving average keeps the length, and a radius ≤ 0 returns the input |
| SpectralViz.SmoothValues | src/components/SpectralViz.tsx:8-24 | the nested loops compute `Smooth` |
| SpectralViz.WindowSum | src/components/SpectralViz.tsx:12-20 | the inner loop computes the clipped window's sum and count |
| SpectralViz.ClippedCountIsOverlap | src/components/SpectralViz.tsx:14-19 | the count is the size of the window's overlap with the array |
| SpectralViz.WindowNeverEmpty | src/components/SpectralViz.tsx:21 | every window holds at least its own entry, so the `values[i]` fallback never runs |
| SpectralViz.ClippedSumBounds | src/components/SpectralViz.tsx:14-19 | bounds on the window's entries bound its sum by count times the bound |
| SpectralViz.SmoothedWithinWindow | src/components/SpectralViz.tsx:8-24 | each average lies between the least and greatest input of its window |
| SpectralViz.SmoothedAtWithin | src/components/SpectralViz.tsx:21 | the same for one entry |
| SpectralViz.WindowMeanBounds | src/components/SpectralViz.tsx:21 | a window's mean lies between bounds of its entries |
| SpectralViz.SmoothedIsMean | src/components/SpectralViz.tsx:21 | entry `i` is the window's sum over its count |
| SpectralViz.SmoothKeepsConstant | src/components/SpectralViz.tsx:8-24 | a constant signal is unchanged |
| SpectralViz.ClampRange | src/components/SpectralViz.tsx:28-35 | none gives `{0, 1}`; a non-finite start becomes 0 and end 1; finite ones are clamped to `[0, 1]`; an end before the start is raised to it; always `0 ≤ start ≤ end ≤ 1` |
| SpectralViz.ClampRangeFixesExactlyUnit | src/components/SpectralViz.tsx:28-35 | a range is unchanged if and only if it is already finite with `0 ≤ start ≤ end ≤ 1` |
| SpectralViz.ClampRangeIdempotent | src/components/SpectralViz.tsx:28-35 | clamping twice is clamping once |
| SpectralViz.SafeXs | src/components/SpectralViz.tsx:40 | `xs` when it has one entry per value, else the indices |
| SpectralViz.SeqMin | src/components/SpectralViz.tsx:41 | the least entry |
| SpectralViz.SeqMax | src/components/SpectralViz.tsx:42 | the greatest entry |
| SpectralViz.PathSpan | src/components/SpectralViz.tsx:43 | the span is at least 1 and at least the extent |
| SpectralViz.Points | src/components/SpectralViz.tsx:46-53 | at most one point per sample |
| SpectralViz.BuildPath | src/components/SpectralViz.tsx:37-56 | the method computes `Path` |
| SpectralViz.CollectPoints | src/components/SpectralViz.tsx:45-53 | the loop pushes exactly the visible samples' points, in order |
| SpectralViz.PointStep | src/components/SpectralViz.tsx:47-52 | one step appends the sample's point exactly when it is visible |
| SpectralViz.SpanAtLeastOne | src/components/SpectralViz.tsx:41-43 | the divisor is ≥ 1 and covers the extent |
| SpectralViz.PositionInUnit | src/components/SpectralViz.tsx:47 | every normalised position lies in `[0, 1]` |
| SpectralViz.PointsCount | src/components/SpectralViz.tsx:46-53 | every sample visible: one point each; no point if and only if no sample is visible |
| SpectralViz.WholeRangeDrawsEverySample | src/components/SpectralViz.tsx:44-53 | without a range every sample is drawn |
| SpectralViz.PathEmptyIffNothingVisible | src/components/SpectralViz.tsx:37-56 | the path is empty if and only if there are no values or no sample is visible; otherwise it starts with `M ` |
| SpectralViz.ClippedSum | src/components/SpectralViz.tsx:14-19 | the sum of the window entries that lie in the array; bounded by `ClippedSumBounds` (no contract of its own) |
| SpectralViz.ClippedCount | src/components/SpectralViz.tsx:14-19 | how many window indices lie in the array; the overlap size by `ClippedCountIsOverlap` (no contract of its own) |
| SpectralViz.SmoothedAt | src/components/SpectralViz.tsx:12-21 | `count ? sum / count : values[i]`; the mean of the clipped window by `SmoothedIsMean`, never the fallback by `WindowNeverEmpty` (no contract of its own) |
| SpectralViz.Position | src/components/SpectralViz.tsx:47 | `u = (x - minX) / span`; in `[0, 1]` by `PositionInUnit` (no contract of its own) |
| SpectralViz.Visible | src/components/SpectralViz.tsx:48 | a sample is skipped when `u < start \|\| u > end` (no contract of its own) |
| SpectralViz.PointText | src/components/SpectralViz.tsx:49-52 | the `x,y` text of a sample scaled to the 640 × 220 view box (no contract of its own) |
| SpectralViz.PathPoints | src/components/SpectralViz.tsx:39-53 | the points of a non-empty signal smoothed with radius 3; all samples by `WholeRangeDrawsEverySample` (no contract of its own) |
| SpectralViz.Path | src/components/SpectralViz.tsx:37-56 | `''` or `M ` and the points joined with ` L `; computed by `BuildPath`, characterised by `PathEmptyIffNothingVisible` (no contract of its own) |

## Left out

- Floating point: numbers are reals. Rounding, overflow and the `a + 1 == a` case of huge domains are not modelled. The model carries NaN and ±Infinity only at: the domain bounds, the visible-range bounds, the out-of-range read `coeffs.bn[index]` (`undefined`, rendered as NaN, `src/lib/formatting.ts:25` and `:52`), and the span of the export.
- Smoothing.PassCount: a NaN `passes` is not modelled; in the source `Math.round(NaN)` makes the pass count NaN, no pass runs and the input comes back (`src/lib/smoothing.ts:6-7`).
- Fourier.EvalLength: a NaN or infinite count is not modelled; in the source a NaN count makes `n < length` false at once and gives `[]`, while `Infinity` passes `Math.max(count, 0)` and the loop never ends (`src/lib/fourier.ts:72-83`).
- `Math.sin`, `Math.cos`, `Number#toString` and `toFixed(2)` are parameters of the functions that use them. `Math.hypot` is replaced by squared distances; comparisons of hypot values are compared squared.
- Fourier.SigmaInUnit, Fourier.TaperShrinks, Fourier.FundamentalKept: these assume `0 < sin x < x` and `sin x ≥ x - x³/6` on `(0, π)` about the `sin` parameter. They are not derived from an implementation of sine.
- Fourier.Sigma: the fallback to 1 for a non-finite quotient cannot arise over the reals, and is not modelled.
- Fourier.Coefficients: `harmonics` is an integer. A fractional or NaN `harmonics` (where `new Array` throws) is not modelled.
- Formatting.Fmt: the en-US grouping separator, which makes values of 1000 or more read back as NaN, is not modelled. `Round4` models the formatter's rounding to four digits, halves away from zero.
- Fourier and resample accuracy tests (`toBeCloseTo`) are approximation claims about doubles and are not modelled.
- Simplify.SimplifyPath: requires `tolerance ≥ 0`. A negative tolerance can make the source recurse forever on the same array; `Simplify.NegativeToleranceStalls` shows the input that does it.
- Resample.SortByX: the stable engine sort is modelled by a stable insertion sort on a copy.
- Resample.LowerBound: proved for ascending arrays only, the only arrays the resampler passes.
- The resampler's default-x array (`u.map`) and `new Array(n).fill` are built as sequences, not arrays.
- SpectralViz.SmoothValues: the radius is an integer; a fractional radius is not modelled.
- Helper methods (`HarmonicTables`, `FillHarmonics`, `StoreHarmonic`, `SumValues`, `HarmonicSums`, `CollectTexts`, `CollectParts`, `CollectPoints`, `WindowSum`, `SimplifyHalves`, `SampleSorted`, `ReadCanvasY`, `SmoothingPass`) are the bodies of loops of the source split out. The loops' order of updates is kept.
- `createPoint` (it reads a DOM pointer event) is not modelled.
- The React components, canvas drawing, timers, clipboard, local storage and the application shell (`src/app/App.tsx`, `src/components/CanvasPane.tsx` and the presentational components) are not part of this model.

## Findings

| source | as written | input that shows it | evidently intended | confidence | as-written member | corrected member |
|---|---|---|---|---|---|---|
| src/lib/resampleArcLength.ts:18-73 | `lowerBound` starts `answer` at the last index, so it never returns the length; the `idx >= xsSource.length` branch that holds the last y never runs, and a grid x past the last point extrapolates the last segment | the points (0, 100) and (50, 0), 2 samples, width 120, height 200: sample 1 reads at x = 119, the line through the two points gives y = -138, and the value is 1 + 276/199 > 1 | past the last point, hold the last y: a search that answers the length when no x reaches the query, which keeps every value of an on-canvas stroke in [-1, 1] | not executed; high | Resample.AsWrittenExtrapolates | Resample.HeldValuesInRange |
