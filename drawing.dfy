/** Canvas geometry of the sketch pad: the point record, the mapping between a
    canvas y-coordinate and a signal value in [-1, 1], turning a signal into
    canvas points and points into an SVG path, and the built-in test signals. */
module Drawing {
  import opened JsRuntime

  /** A captured sample in canvas pixels with its timestamp. */
  datatype Point = Point(x: real, y: real, t: real)

  /** Points whose x never decreases along the stroke. */
  predicate XAscending(s: seq<Point>)
  {
    forall i :: 0 <= i < |s| - 1 ==> s[i].x <= s[i + 1].x
  }

  /** Canvas size used when a caller passes a zero width or height. */
  const DefaultWidth: real := 960.0
  const DefaultHeight: real := 520.0

  /** Canvas y (0 at the top) to a signal value; 0 for a zero-height canvas. */
  function CanvasYToValue(y: real, height: real): (r: real)
    ensures height == 0.0 ==> r == 0.0
    ensures -1.0 <= r <= 1.0
    ensures height > 0.0 && 0.0 <= y <= height ==> r * height == height - 2.0 * y
  {
    if height == 0.0 then 0.0
    else
      var normalized := 1.0 - (y / height) * 2.0;
      DivThenMul(y, height);
      assert normalized * height == height - 2.0 * ((y / height) * height);
      if height > 0.0 && 0.0 <= y <= height then
        DivMonotone(0.0, y, height);
        DivMonotone(y, height, height);
        Clamp(normalized, -1.0, 1.0)
      else
        Clamp(normalized, -1.0, 1.0)
  }

  /** Signal value to canvas y: values outside [-1, 1] are clamped first, so
      the top edge (y = 0) is 1 and the bottom edge (y = height) is -1. */
  function ValueToCanvasY(value: real, height: real): (r: real)
    ensures height >= 0.0 ==> 0.0 <= r <= height
    ensures value >= 1.0 ==> r == 0.0
    ensures value <= -1.0 ==> r == height
  {
    var clamped := Clamp(value, -1.0, 1.0);
    var share := 1.0 - (clamped + 1.0) / 2.0;
    if height >= 0.0 then
      MulMonotone(0.0, share, height);
      MulMonotone(share, 1.0, height);
      share * height
    else
      share * height
  }

  /** Mapping a value to the canvas and back yields the value clamped to [-1, 1]. */
  lemma ValueRoundTrip(v: real, h: real)
    requires h > 0.0
    ensures CanvasYToValue(ValueToCanvasY(v, h), h) == Clamp(v, -1.0, 1.0)
  {
    var c := Clamp(v, -1.0, 1.0);
    var y := ValueToCanvasY(v, h);
    assert y == (1.0 - c) / 2.0 * h;
    assert 0.0 <= y <= h;
    assert CanvasYToValue(y, h) * h == h - 2.0 * y;
    assert CanvasYToValue(y, h) * h == c * h;
  }

  /** Mapping an on-canvas y to a value and back yields the same y. */
  lemma CanvasRoundTrip(y: real, h: real)
    requires h > 0.0 && 0.0 <= y <= h
    ensures ValueToCanvasY(CanvasYToValue(y, h), h) == y
  {
    var v := CanvasYToValue(y, h);
    assert v * h == h - 2.0 * y;
    assert (1.0 - (v + 1.0) / 2.0) * h == (h - v * h) / 2.0;
  }

  /** Higher on the canvas means a larger value. */
  lemma CanvasYToValueAntitone(y1: real, y2: real, h: real)
    requires h > 0.0 && y1 <= y2
    ensures CanvasYToValue(y1, h) >= CanvasYToValue(y2, h)
  {
    DivMonotone(y1, y2, h);
  }

  /** The width and height `valuesToPoints` uses: the defaults when either is 0. */
  function CanvasSize(width: real, height: real): (size: (real, real))
    ensures size.0 != 0.0 && size.1 != 0.0
    ensures width > 0.0 && height > 0.0 ==> size.0 > 0.0 && size.1 > 0.0
  {
    if width == 0.0 || height == 0.0 then (DefaultWidth, DefaultHeight) else (width, height)
  }

  /** Where sample `i` of `n` sits across the canvas: the index over
      `max(n - 1, 1)`. */
  function SampleFraction(i: int, n: int): (f: real)
    ensures i == 0 ==> f == 0.0
    ensures n >= 2 && i == n - 1 ==> f == 1.0
    ensures 0 <= i < n ==> 0.0 <= f <= 1.0
  {
    var maxIndex := (if n - 1 > 1 then n - 1 else 1) as real;
    assert 0 <= i < n ==> i as real / maxIndex <= 1.0 by {
      if 0 <= i < n {
        DivMonotone(i as real, maxIndex, maxIndex);
        DivSelf(maxIndex);
      }
    }
    i as real / maxIndex
  }

  /** The x-coordinate of sample `i` of `n`: its fraction of the width. */
  function SampleX(i: int, n: int, w: real): real
  {
    SampleFraction(i, n) * w
  }

  /** Later samples lie further right on a canvas of positive width. */
  lemma SampleXIncreasing(i: int, j: int, n: int, w: real)
    requires i < j && w > 0.0
    ensures SampleX(i, n, w) < SampleX(j, n, w)
  {
    var m := (if n - 1 > 1 then n - 1 else 1) as real;
    DivStrictMonotone(i as real, j as real, m);
    var fi, fj := SampleFraction(i, n), SampleFraction(j, n);
    MulStrictMonotone(fi, fj, w);
  }

  /** One point per value, spread evenly across the canvas width, with the
      sample index as timestamp. */
  function ValuesToPoints(values: seq<real>, width: real, height: real): (ps: seq<Point>)
    ensures |ps| == |values|
    ensures forall i :: 0 <= i < |ps| ==> ps[i].t == i as real
    ensures forall i :: 0 <= i < |ps| ==> ps[i].x == SampleX(i, |values|, CanvasSize(width, height).0)
    ensures forall i :: 0 <= i < |ps| ==> ps[i].y == ValueToCanvasY(values[i], CanvasSize(width, height).1)
    ensures |ps| > 0 ==> ps[0].x == 0.0
    ensures |ps| >= 2 ==> ps[|ps| - 1].x == CanvasSize(width, height).0
  {
    var (w, h) := CanvasSize(width, height);
    var maxIndex := if |values| - 1 > 1 then |values| - 1 else 1;
    var ps := seq(|values|, i requires 0 <= i < |values| =>
      Point(SampleX(i, |values|, w), ValueToCanvasY(values[i], h), i as real));
    DivSelf(maxIndex as real);
    ps
  }

  /** The points of a signal read back, through the canvas mapping, as the
      signal clamped to [-1, 1], and their x-coordinates increase with the index. */
  lemma ValuesToPointsRoundTrip(values: seq<real>, width: real, height: real)
    requires width > 0.0 && height > 0.0
    ensures var ps := ValuesToPoints(values, width, height);
      && (forall i :: 0 <= i < |ps| ==> CanvasYToValue(ps[i].y, height) == Clamp(values[i], -1.0, 1.0))
      && (forall i, j :: 0 <= i < j < |ps| ==> ps[i].x < ps[j].x)
  {
    ValuesToPointsReadBack(values, width, height);
    ValuesToPointsIncreasing(values, width, height);
  }

  lemma ValuesToPointsReadBack(values: seq<real>, width: real, height: real)
    requires width > 0.0 && height > 0.0
    ensures var ps := ValuesToPoints(values, width, height);
      forall i :: 0 <= i < |ps| ==> CanvasYToValue(ps[i].y, height) == Clamp(values[i], -1.0, 1.0)
  {
    var ps := ValuesToPoints(values, width, height);
    forall i | 0 <= i < |ps|
      ensures CanvasYToValue(ps[i].y, height) == Clamp(values[i], -1.0, 1.0)
    {
      ValueRoundTrip(values[i], height);
    }
  }

  lemma ValuesToPointsIncreasing(values: seq<real>, width: real, height: real)
    requires width > 0.0 && height > 0.0
    ensures var ps := ValuesToPoints(values, width, height);
      forall i, j :: 0 <= i < j < |ps| ==> ps[i].x < ps[j].x
  {
    var ps := ValuesToPoints(values, width, height);
    forall i, j | 0 <= i < j < |ps|
      ensures ps[i].x < ps[j].x
    {
      SampleXIncreasing(i, j, |values|, width);
    }
  }

  /** One SVG path command: `letter x y`, the coordinates through toFixed(2). */
  function Command(letter: string, p: Point, fixed2: real -> string): (r: string)
    ensures letter + " " <= r
  {
    letter + " " + fixed2(p.x) + " " + fixed2(p.y)
  }

  /** The commands of a polyline's path: a move to the first point and a line
      to each later one. */
  function PathCommands(points: seq<Point>, fixed2: real -> string): (cs: seq<string>)
    ensures |cs| == |points|
    ensures forall i :: 0 <= i < |cs| ==> (if i == 0 then "M " else "L ") <= cs[i]
  {
    seq(|points|, i requires 0 <= i < |points| =>
      Command(if i == 0 then "M" else "L", points[i], fixed2))
  }

  /** `pointsToPath`: the commands joined by single spaces; empty for no points. */
  method PointsToPath(points: seq<Point>, fixed2: real -> string) returns (d: string)
    ensures |points| == 0 ==> d == ""
    ensures d == Join(PathCommands(points, fixed2), " ")
  {
    if |points| == 0 {
      return "";
    }
    var commands := [Command("M", points[0], fixed2)];
    for i := 1 to |points|
      invariant commands == PathCommands(points[..i], fixed2)
    {
      commands := commands + [Command("L", points[i], fixed2)];
    }
    assert points[..|points|] == points;
    d := Join(commands, " ");
  }

  /** The waveforms of the built-in test signals. */
  datatype SignalKind = Sine | Mix | Triangle | Square | Saw | OffsetSine

  /** An entry of the test-signal menu. */
  datatype TestSignal = TestSignal(id: string, caption: string, description: string, kind: SignalKind)

  const TestSignals: seq<TestSignal> := [
    TestSignal("sine", "Pure Sine", "A single 1 Hz sine wave to validate reconstruction.", Sine),
    TestSignal("mix", "cos(x)+0.5sin(2x)", "Combination that stresses both cosine and sine coefficients.", Mix),
    TestSignal("triangle", "Triangle Wave", "Odd-harmonic rich waveform.", Triangle),
    TestSignal("square", "Square Wave", "Idealized square wave in [-1,1].", Square),
    TestSignal("saw", "Sawtooth", "Linearly increasing sawtooth.", Saw),
    TestSignal("offset-sine", "Offset Sine", "Tests constant + oscillatory content.", OffsetSine)
  ]

  /** The menu lists six signals under distinct ids, one per waveform. */
  lemma TestSignalsCatalogue()
    ensures |TestSignals| == 6
    ensures forall i, j :: 0 <= i < j < |TestSignals| ==>
      TestSignals[i].id != TestSignals[j].id && TestSignals[i].kind != TestSignals[j].kind
  {
  }

  /** The position in [0, 1] of sample `i` of `samples`. */
  function SignalU(i: nat, samples: nat): real
  {
    var denom := if samples - 1 > 1 then samples - 1 else 1;
    i as real / denom as real
  }

  /** The waveform's value at position `u`, with the host's Math.sin / Math.cos. */
  function SignalValue(kind: SignalKind, u: real, sin: real -> real, cos: real -> real): (v: real)
    ensures kind == Square ==> v == 1.0 || v == -1.0
    ensures kind == Saw && 0.0 <= u <= 1.0 ==> -1.0 <= v <= 1.0
    ensures kind == Triangle ==> -1.0 <= v <= 1.0
  {
    var x := Pi * 2.0 * u;
    match kind
    case Sine => sin(x)
    case Mix => cos(x) + 0.5 * sin(2.0 * x)
    case Triangle =>
      var d := 2.0 * (u - (u + 0.5).Floor as real);
      2.0 * (if d < 0.0 then -d else d) - 1.0
    case Square => if u < 0.5 then 1.0 else -1.0
    case Saw => 2.0 * u - 1.0
    case OffsetSine => 0.4 + 0.6 * sin(x)
  }

  /** `generate(samples)` of a test signal: `samples` evenly spaced values. */
  function Generate(kind: SignalKind, samples: nat, sin: real -> real, cos: real -> real): (r: seq<real>)
    ensures |r| == samples
    ensures forall i :: 0 <= i < samples ==> r[i] == SignalValue(kind, SignalU(i, samples), sin, cos)
  {
    seq(samples, i requires 0 <= i < samples => SignalValue(kind, SignalU(i, samples), sin, cos))
  }

  /** Sample `i` of `samples` lies before the midpoint u = 1/2 exactly when 2i < samples - 1. */
  lemma SignalUBeforeHalf(i: nat, samples: nat)
    requires samples >= 2
    ensures SignalU(i, samples) < 0.5 <==> 2 * i < samples - 1
  {
    var n := (samples - 1) as real;
    assert SignalU(i, samples) == i as real / n;
    assert 0.5 == (0.5 * n) / n;
    if 2 * i < samples - 1 {
      DivStrictMonotone(i as real, 0.5 * n, n);
    } else {
      DivMonotone(0.5 * n, i as real, n);
    }
  }

  /** The square wave takes only the values 1 and -1: 1 on the first half of
      the samples (strictly before u = 1/2) and -1 from there on. */
  lemma SquareWaveValues(samples: nat, sin: real -> real, cos: real -> real)
    requires samples >= 2
    ensures var r := Generate(Square, samples, sin, cos);
      forall i :: 0 <= i < samples ==> (r[i] == 1.0 <==> 2 * i < samples - 1) && (r[i] == 1.0 || r[i] == -1.0)
  {
    var r := Generate(Square, samples, sin, cos);
    forall i | 0 <= i < samples
      ensures (r[i] == 1.0 <==> 2 * i < samples - 1)
    {
      SignalUBeforeHalf(i, samples);
    }
  }

  /** The sawtooth rises strictly from -1 at the first sample to 1 at the last. */
  lemma SawWaveRange(samples: nat, sin: real -> real, cos: real -> real)
    requires samples >= 2
    ensures var r := Generate(Saw, samples, sin, cos);
      && r[0] == -1.0 && r[samples - 1] == 1.0
      && (forall i :: 0 <= i < samples ==> -1.0 <= r[i] <= 1.0)
      && (forall i, j :: 0 <= i < j < samples ==> r[i] < r[j])
  {
    var r := Generate(Saw, samples, sin, cos);
    SawPosition(samples - 1, samples);
    forall i | 0 <= i < samples
      ensures -1.0 <= r[i] <= 1.0
    {
      SawPosition(i, samples);
    }
    forall i, j | 0 <= i < j < samples
      ensures r[i] < r[j]
    {
      SawPosition(i, samples);
      SawPosition(j, samples);
      DivStrictMonotone(i as real, j as real, (samples - 1) as real);
    }
  }

  /** Position `i` of a sampled signal is `i / (samples - 1)`, within [0, 1]. */
  lemma SawPosition(i: nat, samples: nat)
    requires samples >= 2 && i < samples
    ensures SignalU(i, samples) == i as real / (samples - 1) as real
    ensures 0.0 <= SignalU(i, samples) <= 1.0
    ensures i == samples - 1 ==> SignalU(i, samples) == 1.0
  {
    var n := (samples - 1) as real;
    DivMonotone(0.0, i as real, n);
    DivMonotone(i as real, n, n);
  }

  /** The triangle wave stays within [-1, 1]. */
  lemma TriangleWaveRange(samples: nat, sin: real -> real, cos: real -> real)
    ensures forall v :: v in Generate(Triangle, samples, sin, cos) ==> -1.0 <= v <= 1.0
  {
    var r := Generate(Triangle, samples, sin, cos);
    forall i | 0 <= i < samples
      ensures -1.0 <= r[i] <= 1.0
    {
      var u := SignalU(i, samples);
      var f := (u + 0.5).Floor as real;
      assert u + 0.5 - 1.0 < f <= u + 0.5;
    }
  }
}
