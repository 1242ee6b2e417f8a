/** The x-interval `[a, b]` the export maps one period onto: repair of a
    user-entered interval, its validity test and its rendering as a graphing
    calculator restriction `{a<x<b}`. */
module Domain {
  import opened JsRuntime

  datatype DomainRange = DomainRange(a: JsNumber, b: JsNumber)

  /** The interval used when a bound is missing or not a number. */
  const DefaultDomain: DomainRange := DomainRange(Finite(0.0), Finite(4.0))

  /** `isValidDomain`: both bounds finite and `b > a`. */
  predicate IsValidDomain(range: DomainRange)
  {
    IsFinite(range.a) && IsFinite(range.b) && range.b.value > range.a.value
  }

  /** A bound that is NaN or infinite is replaced by `fallback`. */
  function OrDefault(n: JsNumber, fallback: JsNumber): (r: JsNumber)
    ensures IsFinite(n) ==> r == n
    ensures !IsFinite(n) ==> r == fallback
  {
    if n.NaN? || !IsFinite(n) then fallback else n
  }

  /** `normalizeDomain`: non-finite bounds fall back to the default ones, then
      an upper bound that does not exceed the lower one becomes `a + 1`. */
  function NormalizeDomain(input: DomainRange): (r: DomainRange)
    ensures IsValidDomain(r)
    ensures IsFinite(input.a) ==> r.a == input.a
    ensures !IsFinite(input.a) ==> r.a == DefaultDomain.a
    ensures var b := OrDefault(input.b, DefaultDomain.b);
      && (b.value > r.a.value ==> r.b == b)
      && (b.value <= r.a.value ==> r.b == Finite(r.a.value + 1.0))
  {
    var a := OrDefault(input.a, DefaultDomain.a);
    var b := OrDefault(input.b, DefaultDomain.b);
    if b.value <= a.value then DomainRange(a, Finite(a.value + 1.0)) else DomainRange(a, b)
  }

  /** The default interval is itself valid. */
  lemma DefaultIsValid()
    ensures IsValidDomain(DefaultDomain)
    ensures NormalizeDomain(DefaultDomain) == DefaultDomain
  {
  }

  /** Normalisation leaves an interval alone exactly when it is already
      valid. */
  lemma NormalizeFixesExactlyValid(d: DomainRange)
    ensures NormalizeDomain(d) == d <==> IsValidDomain(d)
  {
    if IsValidDomain(d) {
      assert OrDefault(d.b, DefaultDomain.b) == d.b;
    }
  }

  /** Normalising twice is normalising once. */
  lemma NormalizeIdempotent(d: DomainRange)
    ensures NormalizeDomain(NormalizeDomain(d)) == NormalizeDomain(d)
  {
    NormalizeFixesExactlyValid(NormalizeDomain(d));
  }

  /** `formatDomain`: `{a<x<b}`, each bound in the host's number syntax. */
  function FormatDomain(range: DomainRange, show: real -> string): (r: string)
    ensures |r| == |ShowNumber(range.a, show)| + |ShowNumber(range.b, show)| + 5
    ensures r[0] == '{' && r[|r| - 1] == '}'
  {
    "{" + ShowNumber(range.a, show) + "<x<" + ShowNumber(range.b, show) + "}"
  }

  /** The index of the first `<` in `s`, or `|s|` when there is none. */
  function FirstLess(s: string): (i: nat)
    ensures i <= |s|
    ensures forall j :: 0 <= j < i ==> s[j] != '<'
    ensures i < |s| ==> s[i] == '<'
  {
    if |s| == 0 then 0
    else if s[0] == '<' then 0
    else 1 + FirstLess(s[1..])
  }

  /** In a formatted interval whose lower bound has no `<` in it, the first
      `<` is the one right after that bound. */
  lemma FirstLessAfterLower(lower: string, upper: string)
    requires '<' !in lower
    ensures FirstLess("{" + lower + "<x<" + upper + "}") == |lower| + 1
  {
    var s := "{" + lower + "<x<" + upper + "}";
    assert s[|lower| + 1] == '<';
  }

  /** The rendering loses nothing for valid intervals: when the host's
      number syntax is one-to-one and never writes `<`, two valid intervals
      that print alike are the same interval. */
  lemma FormatDomainInjective(d1: DomainRange, d2: DomainRange, show: real -> string)
    requires IsValidDomain(d1) && IsValidDomain(d2)
    requires forall v :: '<' !in show(v)
    requires forall v, w :: show(v) == show(w) ==> v == w
    requires FormatDomain(d1, show) == FormatDomain(d2, show)
    ensures d1 == d2
  {
    var lo1, lo2 := show(d1.a.value), show(d2.a.value);
    var hi1, hi2 := show(d1.b.value), show(d2.b.value);
    var s := FormatDomain(d1, show);
    assert s == "{" + lo1 + "<x<" + hi1 + "}";
    assert s == "{" + lo2 + "<x<" + hi2 + "}";
    FirstLessAfterLower(lo1, hi1);
    FirstLessAfterLower(lo2, hi2);
    assert |lo1| == |lo2|;
    assert lo1 == s[1..|lo1| + 1] == lo2;
    assert |hi1| == |hi2|;
    assert hi1 == s[|lo1| + 4..|s| - 1] == hi2;
  }
}
