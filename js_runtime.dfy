/** The slice of the JavaScript runtime the drawing pipeline relies on: numbers
    with their special values, Math.round, Math.min/max clamping and
    Array.prototype.join. Foreign conversions (Number#toString, toFixed,
    Math.sin, Math.cos) are not defined here: the modules that use them take
    them as function parameters. */
module JsRuntime {

  /** Math.PI, written out as the decimal value of the double. */
  const Pi: real := 3.141592653589793

  /** A JavaScript number: a real value or one of the IEEE special values. */
  datatype JsNumber = Finite(value: real) | NaN | Infinity | NegInfinity

  datatype Option<T> = None | Some(value: T)

  /** `Number.isFinite(n)` (also false for NaN). */
  predicate IsFinite(n: JsNumber) {
    n.Finite?
  }

  /** IEEE subtraction `b - a` on JavaScript numbers. */
  function Sub(b: JsNumber, a: JsNumber): (r: JsNumber)
    ensures IsFinite(a) && IsFinite(b) ==> r == Finite(b.value - a.value)
    ensures b.NaN? || a.NaN? ==> r.NaN?
    ensures b == a && !IsFinite(a) ==> r.NaN?
  {
    match (b, a)
    case (NaN, _) => NaN
    case (_, NaN) => NaN
    case (Finite(x), Finite(y)) => Finite(x - y)
    case (Infinity, Infinity) => NaN
    case (NegInfinity, NegInfinity) => NaN
    case (Infinity, _) => Infinity
    case (NegInfinity, _) => NegInfinity
    case (Finite(_), Infinity) => NegInfinity
    case (Finite(_), NegInfinity) => Infinity
  }

  /** IEEE multiplication of a finite value by a JavaScript number. */
  function Scale(v: real, s: JsNumber): (r: JsNumber)
    ensures IsFinite(r) <==> IsFinite(s)
  {
    match s
    case Finite(x) => Finite(v * x)
    case NaN => NaN
    case Infinity => if v > 0.0 then Infinity else if v < 0.0 then NegInfinity else NaN
    case NegInfinity => if v > 0.0 then NegInfinity else if v < 0.0 then Infinity else NaN
  }

  /** `${n}` in a template literal; a finite value goes through the host's
      Number#toString, given as `show`. */
  function ShowNumber(n: JsNumber, show: real -> string): (r: string)
    ensures IsFinite(n) ==> r == show(n.value)
    ensures n.NaN? ==> r == "NaN"
    ensures !IsFinite(n) ==> r in {"NaN", "Infinity", "-Infinity"}
  {
    match n
    case Finite(v) => show(v)
    case NaN => "NaN"
    case Infinity => "Infinity"
    case NegInfinity => "-Infinity"
  }

  /** `Math.abs(x)`. */
  function Abs(x: real): real { if x < 0.0 then -x else x }

  /** The decimal digit for `d < 10`. */
  function Digit(d: nat): (c: char)
    requires d < 10
    ensures '0' <= c <= '9'
    ensures c as int - '0' as int == d
  {
    ('0' as int + d) as char
  }

  /** Number#toString of a non-negative integer: its decimal digits, with no
      leading zero. */
  function NatToString(n: nat): (s: string)
    ensures |s| >= 1
    ensures forall i :: 0 <= i < |s| ==> '0' <= s[i] <= '9'
    ensures |s| > 1 ==> s[0] != '0'
  {
    if n < 10 then [Digit(n)] else NatToString(n / 10) + [Digit(n % 10)]
  }

  /** The value of a string of decimal digits. */
  function DecimalValue(s: string): nat
    requires forall i :: 0 <= i < |s| ==> '0' <= s[i] <= '9'
  {
    if |s| == 0 then 0
    else DecimalValue(s[..|s| - 1]) * 10 + ((s[|s| - 1] as int) - ('0' as int))
  }

  /** Reading the digits back gives the number: the rendering of an integer
      is one-to-one. */
  lemma {:induction false} NatToStringRoundTrip(n: nat)
    ensures DecimalValue(NatToString(n)) == n
  {
    var s := NatToString(n);
    if n < 10 {
      assert s[..|s| - 1] == [];
    } else {
      var prefix := NatToString(n / 10);
      NatToStringRoundTrip(n / 10);
      assert s[..|s| - 1] == prefix;
    }
  }

  function Min(x: real, y: real): real { if x <= y then x else y }

  function Max(x: real, y: real): real { if x >= y then x else y }

  /** `Math.max(lo, Math.min(hi, v))`. */
  function Clamp(v: real, lo: real, hi: real): (r: real)
    requires lo <= hi
    ensures lo <= r <= hi
    ensures lo <= v <= hi ==> r == v
    ensures v <= lo ==> r == lo
    ensures v >= hi ==> r == hi
  {
    Max(lo, Min(hi, v))
  }

  /** `Math.round(x)`: the nearest integer, halves rounded up. */
  function Round(x: real): (r: int)
    ensures x - 0.5 < r as real <= x + 0.5
  {
    (x + 0.5).Floor
  }

  /** Total length of a list of strings. */
  function TotalLength(parts: seq<string>): nat {
    if |parts| == 0 then 0 else |parts[0]| + TotalLength(parts[1..])
  }

  /** `parts.join(sep)`. */
  function Join(parts: seq<string>, sep: string): (r: string)
    ensures |parts| == 0 ==> r == ""
    ensures |parts| == 1 ==> r == parts[0]
    ensures |parts| > 0 ==> |r| == TotalLength(parts) + (|parts| - 1) * |sep|
    ensures |parts| > 0 ==> parts[0] <= r
  {
    if |parts| == 0 then ""
    else if |parts| == 1 then parts[0]
    else parts[0] + sep + Join(parts[1..], sep)
  }

  // Facts about real division and multiplication that the solver does not
  // find on its own inside larger proofs.

  lemma DivThenMul(a: real, h: real)
    requires h != 0.0
    ensures (a / h) * h == a
  {
  }

  lemma MulThenDiv(a: real, h: real)
    requires h != 0.0
    ensures (a * h) / h == a
  {
  }

  lemma DivSelf(h: real)
    requires h != 0.0
    ensures h / h == 1.0
  {
  }

  lemma DivMonotone(a: real, b: real, h: real)
    requires h > 0.0 && a <= b
    ensures a / h <= b / h
  {
    assert b / h - a / h == (b - a) / h;
  }

  lemma DivStrictMonotone(a: real, b: real, h: real)
    requires h > 0.0 && a < b
    ensures a / h < b / h
  {
    assert b / h - a / h == (b - a) / h;
  }

  lemma MulStrictMonotone(a: real, b: real, c: real)
    requires a < b && c > 0.0
    ensures a * c < b * c
  {
    assert b * c - a * c == (b - a) * c;
  }

  lemma MulMonotone(a: real, b: real, c: real)
    requires a <= b && c >= 0.0
    ensures a * c <= b * c
  {
    assert b * c - a * c == (b - a) * c;
  }
}
