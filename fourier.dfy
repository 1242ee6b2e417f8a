/** The spectral stage: Fourier coefficients of a sampled signal by plain
    `2/N` sums at the angles `2πn/N`, the Lanczos sigma taper, and the
    evaluation of a truncated series on a uniform grid. `Math.sin` and
    `Math.cos` are the parameters `sin` and `cos`. */
module Fourier {
  import opened JsRuntime

  datatype FourierCoefficients = FourierCoefficients(a0: real, an: seq<real>, bn: seq<real>)

  /** The largest number of harmonics ever computed. */
  const MaxHarmonics: int := 50

  /** `Math.max(1, Math.min(harmonics, 50))`. */
  function SafeHarmonics(harmonics: int): (h: int)
    ensures 1 <= h <= MaxHarmonics
    ensures 1 <= harmonics <= MaxHarmonics ==> h == harmonics
    ensures harmonics < 1 ==> h == 1
    ensures harmonics > MaxHarmonics ==> h == MaxHarmonics
  {
    var capped := if harmonics <= MaxHarmonics then harmonics else MaxHarmonics;
    if capped >= 1 then capped else 1
  }

  /** The sum of the first `m` values, added left to right. */
  function Sum(values: seq<real>, m: int): real
    requires 0 <= m <= |values|
  {
    if m == 0 then 0.0 else Sum(values, m - 1) + values[m - 1]
  }

  /** The sample angle `(2π n) / length`. */
  function Angle(n: int, length: real): real
    requires length != 0.0
  {
    (2.0 * Pi * n as real) / length
  }

  /** The first `m` terms of `Σ values[n] · wave(k · 2πn/N)`, with `wave` the
      cosine or the sine. */
  function WaveSum(values: seq<real>, k: int, m: int, wave: real -> real): real
    requires 0 <= m <= |values|
  {
    if m == 0 then 0.0
    else WaveSum(values, k, m - 1, wave) + values[m - 1] * wave(k as real * Angle(m - 1, |values| as real))
  }

  /** `(2/N) · Σ values[n] · wave(k · 2πn/N)`: the cosine (`an`) or sine (`bn`)
      coefficient of harmonic `k`. */
  function HarmonicCoefficient(values: seq<real>, k: int, wave: real -> real): real
    requires |values| > 0
  {
    (2.0 / |values| as real) * WaveSum(values, k, |values|, wave)
  }

  /** `computeFourierCoefficients`: an empty signal has no spectrum; otherwise
      `a0` is twice the mean and harmonic `k` sits at index `k - 1`. */
  function Coefficients(values: seq<real>, harmonics: int, sin: real -> real, cos: real -> real): (r: FourierCoefficients)
    ensures |values| == 0 ==> r == FourierCoefficients(0.0, [], [])
    ensures |values| > 0 ==> |r.an| == |r.bn| == SafeHarmonics(harmonics)
    ensures |values| > 0 ==> r.a0 * |values| as real == 2.0 * Sum(values, |values|)
  {
    if |values| == 0 then FourierCoefficients(0.0, [], [])
    else
      var h := SafeHarmonics(harmonics);
      FourierCoefficients(
        (2.0 / |values| as real) * Sum(values, |values|),
        seq(h, i requires 0 <= i < h => HarmonicCoefficient(values, i + 1, cos)),
        seq(h, i requires 0 <= i < h => HarmonicCoefficient(values, i + 1, sin)))
  }

  /** The coefficients as the program computes them: the empty case, the
      clamped harmonic count, one pass for the sum, then the two tables. */
  method ComputeFourierCoefficients(values: seq<real>, harmonics: int, sin: real -> real, cos: real -> real)
    returns (coeffs: FourierCoefficients)
    ensures coeffs == Coefficients(values, harmonics, sin, cos)
  {
    var length := |values|;
    if length == 0 {
      return FourierCoefficients(0.0, [], []);
    }
    var safeHarmonics := SafeHarmonics(harmonics);

    var sum := SumValues(values);
    var a0 := (2.0 / length as real) * sum;

    var an, bn := HarmonicTables(values, safeHarmonics, sin, cos);
    return FourierCoefficients(a0, an, bn);
  }

  /** The zero-filled arrays `an` and `bn` of length `h`, then the loop over
      `k = 1 … h` that fills entry `k - 1` of each. */
  method HarmonicTables(values: seq<real>, h: int, sin: real -> real, cos: real -> real)
    returns (cosines: seq<real>, sines: seq<real>)
    requires |values| > 0 && h >= 0
    ensures cosines == seq(h, i requires 0 <= i < h => HarmonicCoefficient(values, i + 1, cos))
    ensures sines == seq(h, i requires 0 <= i < h => HarmonicCoefficient(values, i + 1, sin))
  {
    var an := new real[h];
    var bn := new real[h];
    FillHarmonics(values, sin, cos, an, bn);
    cosines := an[..];
    sines := bn[..];
  }

  /** The loop over `k = 1 … h`, filling entry `k - 1` of each array. */
  method FillHarmonics(values: seq<real>, sin: real -> real, cos: real -> real, an: array<real>, bn: array<real>)
    requires |values| > 0
    requires an != bn && an.Length == bn.Length
    modifies an, bn
    ensures forall i :: 0 <= i < an.Length ==> an[i] == HarmonicCoefficient(values, i + 1, cos)
    ensures forall i :: 0 <= i < bn.Length ==> bn[i] == HarmonicCoefficient(values, i + 1, sin)
  {
    for k := 1 to an.Length + 1
      invariant forall i :: 0 <= i < k - 1 ==> an[i] == HarmonicCoefficient(values, i + 1, cos)
      invariant forall i :: 0 <= i < k - 1 ==> bn[i] == HarmonicCoefficient(values, i + 1, sin)
    {
      StoreHarmonic(values, k, sin, cos, an, bn);
    }
  }

  /** The body of the loop over harmonics: the two sums for harmonic `k`,
      scaled by `2/N`, written to entry `k - 1` of each array. */
  method StoreHarmonic(values: seq<real>, k: int, sin: real -> real, cos: real -> real, an: array<real>, bn: array<real>)
    requires |values| > 0
    requires an != bn && an.Length == bn.Length
    requires 1 <= k <= an.Length
    modifies an, bn
    ensures an[k - 1] == HarmonicCoefficient(values, k, cos)
    ensures bn[k - 1] == HarmonicCoefficient(values, k, sin)
    ensures forall i :: 0 <= i < an.Length && i != k - 1 ==> an[i] == old(an[i]) && bn[i] == old(bn[i])
  {
    var length := |values|;
    var c, s := HarmonicSums(values, k, sin, cos);
    an[k - 1] := (2.0 / length as real) * c;
    ScaledSum(values, k, cos, c, an[k - 1]);
    bn[k - 1] := (2.0 / length as real) * s;
    ScaledSum(values, k, sin, s, bn[k - 1]);
  }

  /** The first loop: the samples added left to right. */
  method SumValues(values: seq<real>) returns (sum: real)
    ensures sum == Sum(values, |values|)
  {
    sum := 0.0;
    for n := 0 to |values|
      invariant sum == Sum(values, n)
    {
      sum := sum + values[n];
    }
  }

  /** A wave sum, in whatever form the caller holds it, scaled by `2/N`. */
  lemma ScaledSum(values: seq<real>, k: int, wave: real -> real, sum: real, coefficient: real)
    requires |values| > 0
    requires sum == WaveSum(values, k, |values|, wave)
    requires coefficient == (2.0 / |values| as real) * sum
    ensures coefficient == HarmonicCoefficient(values, k, wave)
  {
  }

  /** The inner loop for harmonic `k`: the cosine and the sine sums together. */
  method HarmonicSums(values: seq<real>, k: int, sin: real -> real, cos: real -> real) returns (c: real, s: real)
    requires |values| > 0
    ensures c == WaveSum(values, k, |values|, cos)
    ensures s == WaveSum(values, k, |values|, sin)
  {
    var length := |values|;
    c := 0.0;
    s := 0.0;
    for n := 0 to length
      invariant c == WaveSum(values, k, n, cos)
      invariant s == WaveSum(values, k, n, sin)
    {
      var x := (2.0 * Pi * n as real) / length as real;
      var value := values[n];
      WaveSumStep(values, k, n, cos, k as real * x);
      WaveSumStep(values, k, n, sin, k as real * x);
      c := c + value * cos(k as real * x);
      s := s + value * sin(k as real * x);
    }
  }

  /** One more sample in a wave sum, with the harmonic's argument `kx`
      given in whatever form the caller computed it. */
  lemma WaveSumStep(values: seq<real>, k: int, n: int, wave: real -> real, kx: real)
    requires 0 <= n < |values|
    requires kx == k as real * Angle(n, |values| as real)
    ensures WaveSum(values, k, n + 1, wave) == WaveSum(values, k, n, wave) + values[n] * wave(kx)
  {
  }

  /** A constant sum: `m` copies of `c` add up to `m · c`. */
  lemma {:induction false} SumConstant(values: seq<real>, c: real, m: int)
    requires 0 <= m <= |values|
    requires forall i :: 0 <= i < |values| ==> values[i] == c
    ensures Sum(values, m) == m as real * c
  {
    if m > 0 {
      SumConstant(values, c, m - 1);
    }
  }

  /** A constant signal `c` has `a0 = 2c`, so the series' constant term
      `a0 / 2` is the signal itself. */
  lemma ConstantSignal(values: seq<real>, c: real, harmonics: int, sin: real -> real, cos: real -> real)
    requires |values| > 0
    requires forall i :: 0 <= i < |values| ==> values[i] == c
    ensures Coefficients(values, harmonics, sin, cos).a0 == 2.0 * c
  {
    var n := |values| as real;
    SumConstant(values, c, |values|);
    assert (2.0 / n) * (n * c) == 2.0 * c by {
      assert (2.0 / n) * n == 2.0 by {
        DivThenMul(2.0, n);
      }
    }
  }

  /** All-zero samples make every wave sum zero. */
  lemma {:induction false} WaveSumOfZeros(values: seq<real>, k: int, m: int, wave: real -> real)
    requires 0 <= m <= |values|
    requires forall i :: 0 <= i < |values| ==> values[i] == 0.0
    ensures WaveSum(values, k, m, wave) == 0.0
    ensures Sum(values, m) == 0.0
  {
    if m > 0 {
      WaveSumOfZeros(values, k, m - 1, wave);
    }
  }

  /** Any factor times zero is zero, whatever the factor's form. */
  lemma MulZero(a: real, w: real)
    requires w == 0.0
    ensures a * w == 0.0
  {
  }

  /** A silent signal has a silent spectrum. */
  lemma ZeroSignal(values: seq<real>, harmonics: int, sin: real -> real, cos: real -> real)
    requires forall i :: 0 <= i < |values| ==> values[i] == 0.0
    ensures var r := Coefficients(values, harmonics, sin, cos);
      && r.a0 == 0.0
      && (forall i :: 0 <= i < |r.an| ==> r.an[i] == 0.0)
      && (forall i :: 0 <= i < |r.bn| ==> r.bn[i] == 0.0)
  {
    if |values| > 0 {
      var r := Coefficients(values, harmonics, sin, cos);
      var scale := 2.0 / |values| as real;
      WaveSumOfZeros(values, 0, |values|, cos);
      MulZero(scale, Sum(values, |values|));
      forall i | 0 <= i < |r.an|
        ensures r.an[i] == 0.0 && r.bn[i] == 0.0
      {
        WaveSumOfZeros(values, i + 1, |values|, cos);
        WaveSumOfZeros(values, i + 1, |values|, sin);
        MulZero(scale, WaveSum(values, i + 1, |values|, cos));
        MulZero(scale, WaveSum(values, i + 1, |values|, sin));
      }
    }
  }

  // ---------------------------------------------------------------------
  // Lanczos sigma taper

  /** The number of harmonics the taper spreads over: the longer array. */
  function Order(coeffs: FourierCoefficients): (order: int)
    ensures order >= |coeffs.an| && order >= |coeffs.bn|
    ensures order == |coeffs.an| || order == |coeffs.bn|
  {
    if |coeffs.an| >= |coeffs.bn| then |coeffs.an| else |coeffs.bn|
  }

  /** The point `πk/(order+1)` at which `sigma(k)` samples `sin(x)/x`. */
  function SigmaPoint(k: int, order: int): real
    requires order >= 0
  {
    (Pi * k as real) / (order + 1) as real
  }

  /** `sigma(k) = sin(x)/x` at `x = πk/(order+1)`, and 1 at `x = 0`. The
      fallback to 1 for a non-finite quotient cannot arise over the reals. */
  function Sigma(k: int, order: int, sin: real -> real): real
    requires order >= 0
  {
    var x := SigmaPoint(k, order);
    if x == 0.0 then 1.0 else sin(x) / x
  }

  /** `applyLanczosSigma`: entry `i` of each array is multiplied by
      `sigma(i + 1)`; `a0` is kept. */
  function ApplyLanczosSigma(coeffs: FourierCoefficients, sin: real -> real): (r: FourierCoefficients)
    ensures r.a0 == coeffs.a0
    ensures |r.an| == |coeffs.an| && |r.bn| == |coeffs.bn|
    ensures Order(coeffs) == 0 ==> r.an == [] && r.bn == []
  {
    var order := Order(coeffs);
    if order == 0 then FourierCoefficients(coeffs.a0, [], [])
    else FourierCoefficients(coeffs.a0, Taper(coeffs.an, order, sin), Taper(coeffs.bn, order, sin))
  }

  /** One array of the taper: entry `i` times `sigma(i + 1)`. */
  function Taper(values: seq<real>, order: int, sin: real -> real): (r: seq<real>)
    requires order >= 0
    ensures |r| == |values|
  {
    seq(|values|, i requires 0 <= i < |values| => values[i] * Sigma(i + 1, order, sin))
  }

  /** What the taper relies on about `Math.sin`: on `(0, π)` it is positive
      and below the identity. */
  ghost predicate SineBelowIdentity(sin: real -> real)
  {
    forall x :: 0.0 < x < Pi ==> 0.0 < sin(x) < x
  }

  /** The cubic lower bound `sin(x) >= x - x³/6` on `(0, π)`, used only for
      the fundamental's share. */
  ghost predicate SineAboveCubic(sin: real -> real)
  {
    forall x :: 0.0 < x < Pi ==> sin(x) >= x - x * x * x / 6.0
  }

  /** The sample point `πk/(order+1)` of a harmonic `1 ≤ k ≤ order` lies
      strictly inside `(0, π)`. */
  lemma SigmaPointInside(k: int, order: int)
    requires 1 <= k <= order
    ensures 0.0 < SigmaPoint(k, order) < Pi
  {
    var kr := k as real;
    var o1 := (order + 1) as real;
    assert Pi * kr > 0.0;
    assert Pi * kr < Pi * o1;
    DivStrictMonotone(Pi * kr, Pi * o1, o1);
    MulThenDiv(Pi, o1);
  }

  /** For every harmonic that is tapered, `0 < sigma(k) < 1`. */
  lemma SigmaInUnit(k: int, order: int, sin: real -> real)
    requires SineBelowIdentity(sin)
    requires 1 <= k <= order
    ensures 0.0 < Sigma(k, order, sin) < 1.0
  {
    var x := SigmaPoint(k, order);
    SigmaPointInside(k, order);
    assert 0.0 < sin(x) < x;
    DivStrictMonotone(0.0, sin(x), x);
    DivStrictMonotone(sin(x), x, x);
    DivSelf(x);
  }

  /** Multiplying by a factor in `(0, 1)` never grows a magnitude and
      strictly shrinks a nonzero one. */
  lemma ShrinkBy(v: real, s: real)
    requires 0.0 < s < 1.0
    ensures Abs(v * s) <= Abs(v)
    ensures v != 0.0 ==> Abs(v * s) < Abs(v)
  {
    if v > 0.0 {
      assert v * s < v * 1.0;
    } else if v < 0.0 {
      assert (-v) * s < (-v) * 1.0;
    }
  }

  /** Within one array of at most `order` entries, the taper never makes
      a coefficient larger and strictly shrinks every nonzero one. */
  lemma TaperShrinksEach(values: seq<real>, order: int, sin: real -> real)
    requires SineBelowIdentity(sin)
    requires |values| <= order
    ensures forall i :: 0 <= i < |values| ==> Abs(Taper(values, order, sin)[i]) <= Abs(values[i])
    ensures forall i :: 0 <= i < |values| && values[i] != 0.0 ==> Abs(Taper(values, order, sin)[i]) < Abs(values[i])
  {
    var r := Taper(values, order, sin);
    forall i | 0 <= i < |values|
      ensures Abs(r[i]) <= Abs(values[i])
      ensures values[i] != 0.0 ==> Abs(r[i]) < Abs(values[i])
    {
      SigmaInUnit(i + 1, order, sin);
      ShrinkBy(values[i], Sigma(i + 1, order, sin));
      assert r[i] == values[i] * Sigma(i + 1, order, sin);
    }
  }

  /** The taper never makes a coefficient larger, and every nonzero
      coefficient comes out strictly smaller in magnitude. */
  lemma TaperShrinks(coeffs: FourierCoefficients, sin: real -> real)
    requires SineBelowIdentity(sin)
    ensures var r := ApplyLanczosSigma(coeffs, sin);
      && (forall i :: 0 <= i < |coeffs.an| ==> Abs(r.an[i]) <= Abs(coeffs.an[i]))
      && (forall i :: 0 <= i < |coeffs.an| && coeffs.an[i] != 0.0 ==> Abs(r.an[i]) < Abs(coeffs.an[i]))
      && (forall i :: 0 <= i < |coeffs.bn| ==> Abs(r.bn[i]) <= Abs(coeffs.bn[i]))
      && (forall i :: 0 <= i < |coeffs.bn| && coeffs.bn[i] != 0.0 ==> Abs(r.bn[i]) < Abs(coeffs.bn[i]))
  {
    if Order(coeffs) > 0 {
      TaperShrinksEach(coeffs.an, Order(coeffs), sin);
      TaperShrinksEach(coeffs.bn, Order(coeffs), sin);
    }
  }

  /** With at least two harmonics the fundamental keeps more than 70% of
      its amplitude: `x = π/(order+1) ≤ π/3`, so `sin(x)/x ≥ 1 - x²/6 > 0.8`. */
  lemma FundamentalSigma(order: int, sin: real -> real)
    requires SineBelowIdentity(sin) && SineAboveCubic(sin)
    requires order >= 2
    ensures Sigma(1, order, sin) > 0.7
  {
    var x := SigmaPoint(1, order);
    SigmaPointInside(1, order);
    FundamentalPointSmall(order);
    assert sin(x) >= x - x * x * x / 6.0;
    CubicAboveSeventy(x, sin(x));
    QuotientAbove(x, sin(x));
  }

  /** `π/(order+1) ≤ π/3 < 1.05`. */
  lemma FundamentalPointSmall(order: int)
    requires order >= 2
    ensures SigmaPoint(1, order) < 1.05
  {
    var o1 := (order + 1) as real;
    var x := SigmaPoint(1, order);
    assert x * o1 == Pi by {
      DivThenMul(Pi * 1 as real, o1);
    }
    assert x * 3.0 <= x * o1;
  }

  /** Below 1.05 the cubic bound leaves more than 70% of `x`. */
  lemma CubicAboveSeventy(x: real, sx: real)
    requires 0.0 < x < 1.05
    requires sx >= x - x * x * x / 6.0
    ensures sx > 0.7 * x
  {
    var q := x * x;
    assert q < 1.1025 by {
      assert x * x < 1.05 * x;
    }
    assert q * x < 1.1025 * x;
  }

  lemma QuotientAbove(x: real, sx: real)
    requires x > 0.0 && sx > 0.7 * x
    ensures sx / x > 0.7
  {
    DivStrictMonotone(0.7 * x, sx, x);
    MulThenDiv(0.7, x);
  }

  /** The fundamental's nonzero coefficients keep more than 70% of their
      magnitude whenever the taper spreads over two or more harmonics. */
  lemma FundamentalKept(coeffs: FourierCoefficients, sin: real -> real)
    requires SineBelowIdentity(sin) && SineAboveCubic(sin)
    requires Order(coeffs) >= 2
    ensures var r := ApplyLanczosSigma(coeffs, sin);
      && (|coeffs.an| > 0 && coeffs.an[0] != 0.0 ==> Abs(r.an[0]) > 0.7 * Abs(coeffs.an[0]))
      && (|coeffs.bn| > 0 && coeffs.bn[0] != 0.0 ==> Abs(r.bn[0]) > 0.7 * Abs(coeffs.bn[0]))
  {
    var s := Sigma(1, Order(coeffs), sin);
    FundamentalSigma(Order(coeffs), sin);
    if |coeffs.an| > 0 {
      KeepsMoreThan(coeffs.an[0], s);
    }
    if |coeffs.bn| > 0 {
      KeepsMoreThan(coeffs.bn[0], s);
    }
  }

  lemma KeepsMoreThan(v: real, s: real)
    requires s > 0.7
    ensures v != 0.0 ==> Abs(v * s) > 0.7 * Abs(v)
  {
    if v > 0.0 {
      assert v * s > v * 0.7;
    } else if v < 0.0 {
      assert (-v) * s > (-v) * 0.7;
    }
  }

  // ---------------------------------------------------------------------
  // Series evaluation

  /** The optional second argument of `evaluateFourierSeries`: an array,
      whose length alone is used, a count, or nothing. */
  datatype Resolution = Samples(samples: seq<real>) | Count(count: real) | Default

  /** The number of evaluation points asked for. */
  function EvalLength(res: Resolution): (length: real)
    ensures length >= 0.0
    ensures res.Samples? ==> length == |res.samples| as real
    ensures res.Count? && res.count >= 0.0 ==> length == res.count
    ensures res.Count? && res.count < 0.0 ==> length == 0.0
    ensures res.Default? ==> length == 256.0
  {
    match res
    case Samples(s) => Max(|s| as real, 0.0)
    case Count(n) => Max(n, 0.0)
    case Default => 256.0
  }

  /** The least integer at or above `x`: how many times `n < x` holds for
      `n = 0, 1, 2, …` when `x >= 0`. */
  function Ceil(x: real): (r: int)
    ensures r as real - 1.0 < x <= r as real
  {
    -((-x).Floor)
  }

  /** `bn[i] ?? 0`: a sine coefficient past the end of `bn` counts as 0. */
  function BAt(bn: seq<real>, i: int): real
    requires 0 <= i
  {
    if i < |bn| then bn[i] else 0.0
  }

  /** The first `k` harmonic terms at angle `x`. */
  function TermSum(coeffs: FourierCoefficients, x: real, k: int, sin: real -> real, cos: real -> real): real
    requires 0 <= k <= |coeffs.an|
  {
    if k == 0 then 0.0 else
      TermSum(coeffs, x, k - 1, sin, cos)
      + (coeffs.an[k - 1] * cos(k as real * x) + BAt(coeffs.bn, k - 1) * sin(k as real * x))
  }

  lemma TermSumStep(coeffs: FourierCoefficients, x: real, k: int, sin: real -> real, cos: real -> real)
    requires 1 <= k <= |coeffs.an|
    ensures TermSum(coeffs, x, k, sin, cos)
      == TermSum(coeffs, x, k - 1, sin, cos) + (coeffs.an[k - 1] * cos(k as real * x) + BAt(coeffs.bn, k - 1) * sin(k as real * x))
  {
  }

  /** The truncated series at angle `x`: `a0/2` plus one term per entry of
      `an`. */
  function SeriesAt(coeffs: FourierCoefficients, x: real, sin: real -> real, cos: real -> real): real
  {
    coeffs.a0 / 2.0 + TermSum(coeffs, x, |coeffs.an|, sin, cos)
  }

  /** `evaluateFourierSeries`: the series at `2πn/length` for every integer
      `0 <= n < length`. */
  function Evaluate(coeffs: FourierCoefficients, res: Resolution, sin: real -> real, cos: real -> real): (r: seq<real>)
    ensures |r| == Ceil(EvalLength(res))
    ensures res.Samples? ==> |r| == |res.samples|
    ensures res.Default? ==> |r| == 256
    ensures EvalLength(res) == 0.0 ==> r == []
  {
    var length := EvalLength(res);
    if length == 0.0 then []
    else seq(Ceil(length), n requires 0 <= n < Ceil(length) => SeriesAt(coeffs, Angle(n, length), sin, cos))
  }

  /** The evaluation loop as the program runs it: `n` counts up while
      `n < length`, one inner pass over the harmonics per point. */
  method EvaluateFourierSeries(coeffs: FourierCoefficients, res: Resolution, sin: real -> real, cos: real -> real)
    returns (result: seq<real>)
    ensures result == Evaluate(coeffs, res, sin, cos)
  {
    var length: real;
    if res.Samples? {
      length := Max(|res.samples| as real, 0.0);
    } else if res.Count? {
      length := Max(res.count, 0.0);
    } else {
      length := 256.0;
    }
    if length == 0.0 {
      return [];
    }
    assert length == EvalLength(res);
    result := [];
    var n := 0;
    while (n as real) < length
      invariant 0 <= n <= Ceil(length)
      invariant |result| == n
      invariant forall i :: 0 <= i < n ==> result[i] == SeriesAt(coeffs, Angle(i, length), sin, cos)
      decreases Ceil(length) - n
    {
      var x := (2.0 * Pi * n as real) / length;
      var value := SeriesValue(coeffs, x, sin, cos);
      result := result + [value];
      n := n + 1;
    }
  }

  /** The inner loop: `a0/2`, then `an[k-1]·cos(kx) + (bn[k-1] ?? 0)·sin(kx)`
      for `k = 1 … |an|`. */
  method SeriesValue(coeffs: FourierCoefficients, x: real, sin: real -> real, cos: real -> real) returns (value: real)
    ensures value == SeriesAt(coeffs, x, sin, cos)
  {
    value := coeffs.a0 / 2.0;
    for k := 1 to |coeffs.an| + 1
      invariant value == coeffs.a0 / 2.0 + TermSum(coeffs, x, k - 1, sin, cos)
    {
      var a := coeffs.an[k - 1];
      var b := if k - 1 < |coeffs.bn| then coeffs.bn[k - 1] else 0.0;
      TermSumStep(coeffs, x, k, sin, cos);
      value := value + (a * cos(k as real * x) + b * sin(k as real * x));
    }
  }

  /** With no harmonics the series is flat at `a0 / 2`. */
  lemma FlatWithoutHarmonics(coeffs: FourierCoefficients, res: Resolution, sin: real -> real, cos: real -> real)
    requires |coeffs.an| == 0
    ensures forall n :: 0 <= n < |Evaluate(coeffs, res, sin, cos)| ==> Evaluate(coeffs, res, sin, cos)[n] == coeffs.a0 / 2.0
  {
  }

  /** An array argument matters only through its length: it evaluates like
      any other array of that length, and like the count `|samples|`. */
  lemma OnlyLengthMatters(coeffs: FourierCoefficients, s1: seq<real>, s2: seq<real>, sin: real -> real, cos: real -> real)
    requires |s1| == |s2|
    ensures Evaluate(coeffs, Samples(s1), sin, cos) == Evaluate(coeffs, Samples(s2), sin, cos)
    ensures Evaluate(coeffs, Samples(s1), sin, cos) == Evaluate(coeffs, Count(|s1| as real), sin, cos)
  {
  }

  /** `bn` cut or zero-padded to exactly `n` entries. */
  function ZeroPadded(bn: seq<real>, n: nat): (r: seq<real>)
    ensures |r| == n
    ensures forall i :: 0 <= i < n ==> r[i] == BAt(bn, i)
  {
    seq(n, i requires 0 <= i < n => BAt(bn, i))
  }

  /** Two coefficient sets whose `an` agree and whose sine coefficients agree
      (missing ones read as 0) on the first `k` harmonics give the same
      first `k` terms. */
  lemma {:induction false} TermSumAgrees(c1: FourierCoefficients, c2: FourierCoefficients, x: real, k: int, sin: real -> real, cos: real -> real)
    requires c1.an == c2.an
    requires 0 <= k <= |c1.an|
    requires forall i :: 0 <= i < k ==> BAt(c1.bn, i) == BAt(c2.bn, i)
    ensures TermSum(c1, x, k, sin, cos) == TermSum(c2, x, k, sin, cos)
  {
    if k > 0 {
      TermSumAgrees(c1, c2, x, k - 1, sin, cos);
    }
  }

  /** Sine coefficients past the last cosine coefficient are never read, and
      missing ones count as 0: the series equals the one whose `bn` is cut or
      zero-padded to the length of `an`. */
  lemma SineTermsFollowCosineTerms(coeffs: FourierCoefficients, res: Resolution, sin: real -> real, cos: real -> real)
    ensures var padded := FourierCoefficients(coeffs.a0, coeffs.an, ZeroPadded(coeffs.bn, |coeffs.an|));
      Evaluate(coeffs, res, sin, cos) == Evaluate(padded, res, sin, cos)
  {
    var padded := FourierCoefficients(coeffs.a0, coeffs.an, ZeroPadded(coeffs.bn, |coeffs.an|));
    forall x {
      TermSumAgrees(coeffs, padded, x, |coeffs.an|, sin, cos);
    }
  }
}
