/** The two textual renderings of a set of Fourier coefficients: the
    series shown to the user, `f(u) ≈ …` over one period `u ∈ [0, 1)`, and
    the graphing calculator expression `y = …` over the interval `[a, b]`.
    Both list the same terms — the constant, then the cosine and the sine of
    each harmonic — and drop a term whose raw coefficient is zero. */
module Formatting {
  import opened JsRuntime
  import opened Fourier
  import opened Domain

  // ---------------------------------------------------------------------
  // Number formatting
  // ---------------------------------------------------------------------

  /** Rounding to four fraction digits as the en-US number formatter does
      it: to the nearest multiple of 0.0001, halves away from zero. */
  function Round4(v: real): (r: real)
    ensures Abs(r - v) <= 0.00005
    ensures Abs(v) < 0.00005 ==> r == 0.0
    ensures Abs(v) >= 0.00005 ==> Abs(r) >= 0.0001
    ensures (v >= 0.0 ==> r >= 0.0) && (v <= 0.0 ==> r <= 0.0)
  {
    if v >= 0.0 then ((v * 10000.0 + 0.5).Floor as real) / 10000.0
    else -((((-v) * 10000.0 + 0.5).Floor as real) / 10000.0)
  }

  /** `fmt`: the value rounded to four fraction digits, printed by the
      host's Number#toString (`show`), or `0` when the rounded magnitude is
      below 0.0001. A value that is not a finite number prints `NaN`: the
      formatter writes `NaN` or `∞`, and both read back as NaN. */
  function Fmt(value: JsNumber, show: real -> string): (r: string)
    ensures value.Finite? && Abs(value.value) < 0.00005 ==> r == "0"
    ensures value.Finite? && Abs(value.value) >= 0.00005 ==>
      r == show(Round4(value.value)) && Round4(value.value) != 0.0
    ensures !value.Finite? ==> r == "NaN"
  {
    match value
    case Finite(v) =>
      var rounded := Round4(v);
      if Abs(rounded) < 0.0001 then "0" else show(rounded)
    case _ => "NaN"
  }

  // ---------------------------------------------------------------------
  // The candidate terms
  // ---------------------------------------------------------------------

  /** One term of the series. A sine coefficient is a JavaScript number
      because `bn[index]` is read for every index of `an`, and reading past
      the end of `bn` gives `undefined`, which is not `0` and computes as
      NaN. */
  datatype Term = Constant(a0: real) | Cosine(k: nat, c: real) | Sine(k: nat, s: JsNumber)

  /** `coeffs.bn[index]`, NaN past the end of the array. */
  function SineEntry(bn: seq<real>, index: nat): (r: JsNumber)
    ensures index < |bn| ==> r == Finite(bn[index])
    ensures index >= |bn| ==> r.NaN?
  {
    if index < |bn| then Finite(bn[index]) else NaN
  }

  /** The terms of the first `m` harmonics, the cosine of each before its
      sine. */
  function Harmonics(coeffs: FourierCoefficients, m: nat): (r: seq<Term>)
    requires m <= |coeffs.an|
    ensures |r| == 2 * m
  {
    if m == 0 then [] else
      Harmonics(coeffs, m - 1) + [Cosine(m, coeffs.an[m - 1]), Sine(m, SineEntry(coeffs.bn, m - 1))]
  }

  /** Every term the series could have: the constant, then the harmonics of
      `an` in order. */
  function Candidates(coeffs: FourierCoefficients): seq<Term>
  {
    [Constant(coeffs.a0)] + Harmonics(coeffs, |coeffs.an|)
  }

  /** A term is written out when its raw coefficient is not zero (`!== 0`). */
  predicate Shown(t: Term)
  {
    match t
    case Constant(a0) => a0 != 0.0
    case Cosine(_, c) => c != 0.0
    case Sine(_, s) => s != Finite(0.0)
  }

  /** The terms of `ts` that are written out, in their order. */
  function Kept(ts: seq<Term>): (r: seq<Term>)
    ensures |r| <= |ts|
  {
    if |ts| == 0 then []
    else if Shown(ts[0]) then [ts[0]] + Kept(ts[1..])
    else Kept(ts[1..])
  }

  /** The terms the series and the export write out. */
  function Terms(coeffs: FourierCoefficients): (ts: seq<Term>)
    ensures |ts| <= 1 + 2 * |coeffs.an|
  {
    Kept(Candidates(coeffs))
  }

  // ---------------------------------------------------------------------
  // The series text
  // ---------------------------------------------------------------------

  /** One term of the series text. */
  function TermText(t: Term, show: real -> string): string
  {
    match t
    case Constant(a0) => Fmt(Finite(a0 / 2.0), show)
    case Cosine(k, c) => Fmt(Finite(c), show) + "·cos(" + NatToString(k) + "·2πu)"
    case Sine(k, s) => Fmt(s, show) + "·sin(" + NatToString(k) + "·2πu)"
  }

  function TermTexts(ts: seq<Term>, show: real -> string): (r: seq<string>)
    ensures |r| == |ts|
    ensures forall i :: 0 <= i < |ts| ==> r[i] == TermText(ts[i], show)
  {
    seq(|ts|, i requires 0 <= i < |ts| => TermText(ts[i], show))
  }

  /** `formatSeriesText`, as a value. */
  function SeriesText(coeffs: FourierCoefficients, show: real -> string): (r: string)
    ensures "f(u) ≈ " <= r
    ensures Terms(coeffs) == [] ==> r == "f(u) ≈ 0"
  {
    var terms := TermTexts(Terms(coeffs), show);
    if |terms| == 0 then "f(u) ≈ 0" else "f(u) ≈ " + Join(terms, " + ")
  }

  /** `formatSeriesText`: the terms are pushed one harmonic at a time, the
      constant first. */
  method FormatSeriesText(coeffs: FourierCoefficients, show: real -> string) returns (text: string)
    ensures text == SeriesText(coeffs, show)
  {
    var terms := CollectTexts(coeffs, show);
    if |terms| == 0 {
      return "f(u) ≈ 0";
    }
    return "f(u) ≈ " + Join(terms, " + ");
  }

  /** The `terms` array of `formatSeriesText`: the constant, then the loop
      over `an` pushing the cosine and the sine of each harmonic. */
  method CollectTexts(coeffs: FourierCoefficients, show: real -> string) returns (terms: seq<string>)
    ensures terms == TermTexts(Terms(coeffs), show)
  {
    terms := [];
    if coeffs.a0 != 0.0 {
      terms := terms + [TermText(Constant(coeffs.a0), show)];
    }
    StartStep(coeffs);
    for index := 0 to |coeffs.an|
      invariant terms == TextsUpTo(coeffs, index, show)
    {
      var k := index + 1;
      var value := coeffs.an[index];
      if value != 0.0 {
        terms := terms + [TermText(Cosine(k, value), show)];
      }
      var sineValue := SineEntry(coeffs.bn, index);
      if sineValue != Finite(0.0) {
        terms := terms + [TermText(Sine(k, sineValue), show)];
      }
      TextsStep(coeffs, index, k, value, sineValue, show);
    }
  }

  // ---------------------------------------------------------------------
  // The graphing calculator export
  // ---------------------------------------------------------------------

  /** `b - a`, the length of the interval one period is mapped onto. */
  function Span(domain: DomainRange): JsNumber
  {
    Sub(domain.b, domain.a)
  }

  /** The factor applied to every amplitude: the span, or 1 when the span
      is 0 (`span !== 0 ? span : 1`). */
  function AmplitudeScale(domain: DomainRange): (r: JsNumber)
    ensures IsFinite(domain.a) && IsFinite(domain.b) && domain.b.value != domain.a.value ==>
      r == Finite(domain.b.value - domain.a.value)
    ensures IsFinite(domain.a) && IsFinite(domain.b) && domain.b.value == domain.a.value ==>
      r == Finite(1.0)
  {
    var span := Span(domain);
    if span != Finite(0.0) then span else Finite(1.0)
  }

  /** The divisor of the angle: `span || 1`, which is 1 for a span of 0 and
      for a NaN span. */
  function AngleDivisor(domain: DomainRange): (r: JsNumber)
    ensures IsFinite(domain.a) && IsFinite(domain.b) && domain.b.value != domain.a.value ==>
      r == Finite(domain.b.value - domain.a.value)
    ensures !r.NaN? && r != Finite(0.0)
  {
    var span := Span(domain);
    if span == Finite(0.0) || span.NaN? then Finite(1.0) else span
  }

  /** `x'`, the angle `2π(x - a)/(b - a)` of a point `x` of the interval. */
  function AngleText(domain: DomainRange, show: real -> string): string
  {
    "(2π*(x - " + ShowNumber(domain.a, show) + "))/(" + ShowNumber(AngleDivisor(domain), show) + ")"
  }

  /** `sineValue * amplitudeScale`, NaN when the sine coefficient is. */
  function ScaleEntry(s: JsNumber, scale: JsNumber): (r: JsNumber)
    ensures s.Finite? ==> r == Scale(s.value, scale)
    ensures s.NaN? ==> r.NaN?
  {
    match s
    case Finite(v) => Scale(v, scale)
    case _ => NaN
  }

  /** One term of the export. */
  function TermPart(t: Term, domain: DomainRange, show: real -> string): string
  {
    var scale := AmplitudeScale(domain);
    match t
    case Constant(a0) => Fmt(Scale(a0 / 2.0, scale), show)
    case Cosine(k, c) =>
      Fmt(Scale(c, scale), show) + "*cos(" + NatToString(k) + "*" + AngleText(domain, show) + ")"
    case Sine(k, s) =>
      Fmt(ScaleEntry(s, scale), show) + "*sin(" + NatToString(k) + "*" + AngleText(domain, show) + ")"
  }

  function TermParts(ts: seq<Term>, domain: DomainRange, show: real -> string): (r: seq<string>)
    ensures |r| == |ts|
    ensures forall i :: 0 <= i < |ts| ==> r[i] == TermPart(ts[i], domain, show)
  {
    seq(|ts|, i requires 0 <= i < |ts| => TermPart(ts[i], domain, show))
  }

  /** `buildDesmosExport`, as a value. */
  function DesmosExport(coeffs: FourierCoefficients, domain: DomainRange, show: real -> string): (r: string)
    ensures "y = " <= r
    ensures Terms(coeffs) == [] ==> r == "y = 0"
  {
    var parts := TermParts(Terms(coeffs), domain, show);
    "y = " + (if |parts| == 0 then "0" else Join(parts, " + "))
  }

  /** `buildDesmosExport`: the parts are pushed one harmonic at a time, the
      constant first. */
  method BuildDesmosExport(coeffs: FourierCoefficients, domain: DomainRange, show: real -> string)
    returns (text: string)
    ensures text == DesmosExport(coeffs, domain, show)
  {
    var parts := CollectParts(coeffs, domain, show);
    var rhs := if |parts| == 0 then "0" else Join(parts, " + ");
    return "y = " + rhs;
  }

  /** The `parts` array of `buildDesmosExport`: the constant, then the loop
      over `an` pushing the cosine and the sine of each harmonic. */
  method CollectParts(coeffs: FourierCoefficients, domain: DomainRange, show: real -> string)
    returns (parts: seq<string>)
    ensures parts == TermParts(Terms(coeffs), domain, show)
  {
    parts := [];
    if coeffs.a0 != 0.0 {
      parts := parts + [TermPart(Constant(coeffs.a0), domain, show)];
    }
    StartStep(coeffs);
    for index := 0 to |coeffs.an|
      invariant parts == PartsUpTo(coeffs, index, domain, show)
    {
      var k := index + 1;
      var value := coeffs.an[index];
      if value != 0.0 {
        parts := parts + [TermPart(Cosine(k, value), domain, show)];
      }
      var sineValue := SineEntry(coeffs.bn, index);
      if sineValue != Finite(0.0) {
        parts := parts + [TermPart(Sine(k, sineValue), domain, show)];
      }
      PartsStep(coeffs, index, k, value, sineValue, domain, show);
    }
  }

  // ---------------------------------------------------------------------
  // Steps of the loops
  // ---------------------------------------------------------------------

  /** Filtering a concatenation filters each part. */
  lemma {:induction false} KeptAppend(a: seq<Term>, b: seq<Term>)
    ensures Kept(a + b) == Kept(a) + Kept(b)
  {
    if |a| > 0 {
      KeptAppend(a[1..], b);
      assert (a + b)[0] == a[0];
      assert (a + b)[1..] == a[1..] + b;
    } else {
      assert a + b == b;
    }
  }

  /** The terms kept after one more harmonic are those kept before, then
      its cosine and its sine when they are written out. */
  lemma KeptHarmonicStep(coeffs: FourierCoefficients, index: nat)
    requires index < |coeffs.an|
    ensures Kept([Constant(coeffs.a0)] + Harmonics(coeffs, index + 1))
      == Kept([Constant(coeffs.a0)] + Harmonics(coeffs, index))
        + Kept([Cosine(index + 1, coeffs.an[index])])
        + Kept([Sine(index + 1, SineEntry(coeffs.bn, index))])
  {
    var head := [Constant(coeffs.a0)] + Harmonics(coeffs, index);
    var cosine := [Cosine(index + 1, coeffs.an[index])];
    var sine := [Sine(index + 1, SineEntry(coeffs.bn, index))];
    assert [Constant(coeffs.a0)] + Harmonics(coeffs, index + 1) == head + cosine + sine;
    KeptAppend(head + cosine, sine);
    KeptAppend(head, cosine);
  }

  /** Filtering a single term. */
  lemma KeptSingle(t: Term)
    ensures Kept([t]) == if Shown(t) then [t] else []
  {
    assert [t][1..] == [];
  }

  /** The texts of the constant and the first `m` harmonics. */
  function TextsUpTo(coeffs: FourierCoefficients, m: nat, show: real -> string): seq<string>
    requires m <= |coeffs.an|
  {
    TermTexts(Kept([Constant(coeffs.a0)] + Harmonics(coeffs, m)), show)
  }

  /** The export parts of the constant and the first `m` harmonics. */
  function PartsUpTo(coeffs: FourierCoefficients, m: nat, domain: DomainRange, show: real -> string): seq<string>
    requires m <= |coeffs.an|
  {
    TermParts(Kept([Constant(coeffs.a0)] + Harmonics(coeffs, m)), domain, show)
  }

  /** Before the loop only the constant is a candidate. */
  lemma StartStep(coeffs: FourierCoefficients)
    ensures Kept([Constant(coeffs.a0)] + Harmonics(coeffs, 0))
      == if coeffs.a0 != 0.0 then [Constant(coeffs.a0)] else []
  {
    assert [Constant(coeffs.a0)] + Harmonics(coeffs, 0) == [Constant(coeffs.a0)];
    KeptSingle(Constant(coeffs.a0));
  }

  /** One loop step of `FormatSeriesText`: the texts after harmonic `k`
      extend those before it by its cosine, when written out, then its
      sine, when written out. */
  lemma TextsStep(coeffs: FourierCoefficients, index: nat, k: nat, value: real, sineValue: JsNumber, show: real -> string)
    requires index < |coeffs.an| && k == index + 1
    requires value == coeffs.an[index] && sineValue == SineEntry(coeffs.bn, index)
    ensures TextsUpTo(coeffs, index + 1, show) == TextsUpTo(coeffs, index, show)
      + (if value != 0.0 then [TermText(Cosine(k, value), show)] else [])
      + (if sineValue != Finite(0.0) then [TermText(Sine(k, sineValue), show)] else [])
  {
    var c := Cosine(k, value);
    var s := Sine(k, sineValue);
    KeptHarmonicStep(coeffs, index);
    KeptSingle(c);
    KeptSingle(s);
    TextsAppend(Kept([Constant(coeffs.a0)] + Harmonics(coeffs, index)), Kept([c]), Kept([s]), show);
  }

  lemma TextsAppend(a: seq<Term>, b: seq<Term>, c: seq<Term>, show: real -> string)
    ensures TermTexts(a + b + c, show) == TermTexts(a, show) + TermTexts(b, show) + TermTexts(c, show)
  {
  }

  /** One loop step of `BuildDesmosExport`. */
  lemma PartsStep(coeffs: FourierCoefficients, index: nat, k: nat, value: real, sineValue: JsNumber,
                  domain: DomainRange, show: real -> string)
    requires index < |coeffs.an| && k == index + 1
    requires value == coeffs.an[index] && sineValue == SineEntry(coeffs.bn, index)
    ensures PartsUpTo(coeffs, index + 1, domain, show) == PartsUpTo(coeffs, index, domain, show)
      + (if value != 0.0 then [TermPart(Cosine(k, value), domain, show)] else [])
      + (if sineValue != Finite(0.0) then [TermPart(Sine(k, sineValue), domain, show)] else [])
  {
    var c := Cosine(k, value);
    var s := Sine(k, sineValue);
    KeptHarmonicStep(coeffs, index);
    KeptSingle(c);
    KeptSingle(s);
    PartsAppend(Kept([Constant(coeffs.a0)] + Harmonics(coeffs, index)), Kept([c]), Kept([s]), domain, show);
  }

  lemma PartsAppend(a: seq<Term>, b: seq<Term>, c: seq<Term>, domain: DomainRange, show: real -> string)
    ensures TermParts(a + b + c, domain, show)
      == TermParts(a, domain, show) + TermParts(b, domain, show) + TermParts(c, domain, show)
  {
  }

  // ---------------------------------------------------------------------
  // Which terms appear, and in what order
  // ---------------------------------------------------------------------

  /** A term survives the filter exactly when it is a candidate and is
      written out. */
  lemma {:induction false} KeptMembers(ts: seq<Term>, t: Term)
    ensures t in Kept(ts) <==> t in ts && Shown(t)
  {
    if |ts| > 0 {
      KeptMembers(ts[1..], t);
      assert ts == [ts[0]] + ts[1..];
    }
  }

  /** The `k`-th harmonic contributes its cosine and its sine as candidates,
      in that order. */
  lemma {:induction false} HarmonicAt(coeffs: FourierCoefficients, m: nat, k: nat)
    requires m <= |coeffs.an|
    requires 1 <= k <= m
    ensures Harmonics(coeffs, m)[2 * k - 2] == Cosine(k, coeffs.an[k - 1])
    ensures Harmonics(coeffs, m)[2 * k - 1] == Sine(k, SineEntry(coeffs.bn, k - 1))
  {
    if k < m {
      HarmonicAt(coeffs, m - 1, k);
    }
  }

  /** A term appears in the series exactly when its raw coefficient is not
      zero — the test is on the coefficient, not on its rounded text. */
  lemma TermAppearsIffNonzero(coeffs: FourierCoefficients, k: nat)
    requires 1 <= k <= |coeffs.an|
    ensures Constant(coeffs.a0) in Terms(coeffs) <==> coeffs.a0 != 0.0
    ensures Cosine(k, coeffs.an[k - 1]) in Terms(coeffs) <==> coeffs.an[k - 1] != 0.0
    ensures Sine(k, SineEntry(coeffs.bn, k - 1)) in Terms(coeffs)
      <==> (k - 1 >= |coeffs.bn| || coeffs.bn[k - 1] != 0.0)
  {
    var all := Candidates(coeffs);
    HarmonicAt(coeffs, |coeffs.an|, k);
    assert all[2 * k - 1] == Cosine(k, coeffs.an[k - 1]);
    assert all[2 * k] == Sine(k, SineEntry(coeffs.bn, k - 1));
    KeptMembers(all, Constant(coeffs.a0));
    KeptMembers(all, Cosine(k, coeffs.an[k - 1]));
    KeptMembers(all, Sine(k, SineEntry(coeffs.bn, k - 1)));
  }

  /** The position of a term in the order the series lists them: the
      constant, then for each `k` its cosine, then its sine. */
  function Rank(t: Term): int
  {
    match t
    case Constant(_) => 0
    case Cosine(k, _) => 2 * k - 1
    case Sine(k, _) => 2 * k
  }

  predicate InOrder(ts: seq<Term>)
  {
    forall i, j :: 0 <= i < j < |ts| ==> Rank(ts[i]) < Rank(ts[j])
  }

  /** The candidates are listed at their rank. */
  lemma {:induction false} HarmonicRanks(coeffs: FourierCoefficients, m: nat)
    requires m <= |coeffs.an|
    ensures forall i :: 0 <= i < 2 * m ==> Rank(Harmonics(coeffs, m)[i]) == i + 1
  {
    if m > 0 {
      HarmonicRanks(coeffs, m - 1);
    }
  }

  /** Filtering keeps the order. */
  lemma {:induction false} KeptInOrder(ts: seq<Term>)
    requires InOrder(ts)
    ensures InOrder(Kept(ts))
  {
    if |ts| > 0 {
      var rest := ts[1..];
      assert InOrder(rest);
      KeptInOrder(rest);
      if Shown(ts[0]) {
        var r := Kept(ts);
        assert r == [ts[0]] + Kept(rest);
        forall j | 1 <= j < |r|
          ensures Rank(r[0]) < Rank(r[j])
        {
          assert r[j] in Kept(rest);
          KeptMembers(rest, r[j]);
          var n :| 0 <= n < |rest| && rest[n] == r[j];
          assert ts[n + 1] == r[j];
        }
      }
    }
  }

  /** The series and the export list their terms in the same order: the
      constant first, then harmonic by harmonic, cosine before sine. */
  lemma TermsInOrder(coeffs: FourierCoefficients)
    ensures InOrder(Terms(coeffs))
  {
    var all := Candidates(coeffs);
    HarmonicRanks(coeffs, |coeffs.an|);
    assert forall i :: 1 <= i < |all| ==> all[i] == Harmonics(coeffs, |coeffs.an|)[i - 1];
    assert forall i :: 0 <= i < |all| ==> Rank(all[i]) == i;
    KeptInOrder(all);
  }

  // ---------------------------------------------------------------------
  // The empty series
  // ---------------------------------------------------------------------

  /** Nothing is written out exactly when every coefficient is zero and
      `bn` is as long as `an`. */
  lemma NoTermsIffAllZero(coeffs: FourierCoefficients)
    ensures Terms(coeffs) == [] <==>
      coeffs.a0 == 0.0 && |coeffs.bn| >= |coeffs.an|
      && (forall i :: 0 <= i < |coeffs.an| ==> coeffs.an[i] == 0.0 && coeffs.bn[i] == 0.0)
  {
    var all := Candidates(coeffs);
    var terms := Terms(coeffs);
    if terms == [] {
      KeptMembers(all, Constant(coeffs.a0));
      forall i | 0 <= i < |coeffs.an|
        ensures coeffs.an[i] == 0.0 && i < |coeffs.bn| && coeffs.bn[i] == 0.0
      {
        TermAppearsIffNonzero(coeffs, i + 1);
      }
    } else {
      var t := terms[0];
      KeptMembers(all, t);
      var n :| 0 <= n < |all| && all[n] == t;
      if n > 0 {
        var k := (n + 1) / 2;
        HarmonicAt(coeffs, |coeffs.an|, k);
        assert all[2 * k - 1] == Harmonics(coeffs, |coeffs.an|)[2 * k - 2];
        assert all[2 * k] == Harmonics(coeffs, |coeffs.an|)[2 * k - 1];
      }
    }
  }

  /** With every coefficient zero the series reads `f(u) ≈ 0` and the export
      `y = 0`. */
  lemma AllZeroRendersZero(coeffs: FourierCoefficients, domain: DomainRange, show: real -> string)
    requires coeffs.a0 == 0.0 && |coeffs.bn| >= |coeffs.an|
    requires forall i :: 0 <= i < |coeffs.an| ==> coeffs.an[i] == 0.0 && coeffs.bn[i] == 0.0
    ensures SeriesText(coeffs, show) == "f(u) ≈ 0"
    ensures DesmosExport(coeffs, domain, show) == "y = 0"
  {
    NoTermsIffAllZero(coeffs);
  }

  /** A coefficient too small to show still yields a term: one cosine of
      0.00001 is written as a zero amplitude. */
  lemma TinyCoefficientStillWritten(show: real -> string)
    ensures SeriesText(FourierCoefficients(0.0, [0.00001], [0.0]), show) == "f(u) ≈ 0·cos(1·2πu)"
  {
    var coeffs := FourierCoefficients(0.0, [0.00001], [0.0]);
    var t := Cosine(1, 0.00001);
    TinyTerms();
    assert TermText(t, show) == "0·cos(1·2πu)" by {
      assert Digit(1) == '1';
      assert NatToString(1) == "1";
      assert Fmt(Finite(0.00001), show) == "0";
    }
    assert TermTexts([t], show) == [TermText(t, show)];
  }

  lemma TinyTerms()
    ensures Terms(FourierCoefficients(0.0, [0.00001], [0.0])) == [Cosine(1, 0.00001)]
  {
    var coeffs := FourierCoefficients(0.0, [0.00001], [0.0]);
    var t := Cosine(1, 0.00001);
    assert Harmonics(coeffs, 1) == [t, Sine(1, Finite(0.0))];
    assert Candidates(coeffs) == [Constant(0.0), t, Sine(1, Finite(0.0))];
  }

  lemma NaNSineText(k: nat, show: real -> string)
    ensures TermText(Sine(k, NaN), show) == "NaN·sin(" + NatToString(k) + "·2πu)"
  {
  }

  /** A `bn` shorter than `an` prints the missing sine coefficients as
      `NaN`. */
  lemma MissingSineIsNaN(coeffs: FourierCoefficients, show: real -> string)
    requires |coeffs.bn| < |coeffs.an|
    ensures "NaN·sin(" + NatToString(|coeffs.bn| + 1) + "·2πu)" in TermTexts(Terms(coeffs), show)
  {
    var k := |coeffs.bn| + 1;
    var t := Sine(k, NaN);
    var all := Candidates(coeffs);
    var terms := Terms(coeffs);
    HarmonicAt(coeffs, |coeffs.an|, k);
    assert all[2 * k] == t;
    KeptMembers(all, t);
    var i :| 0 <= i < |terms| && terms[i] == t;
    var texts := TermTexts(terms, show);
    assert texts[i] == TermText(t, show);
    NaNSineText(k, show);
  }
}
