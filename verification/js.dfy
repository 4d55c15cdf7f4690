/** The slice of JavaScript value semantics that the extension's logic relies
    on: numbers with NaN and the infinities, the `typeof` tags the settings
    normaliser tests, `Math.max`/`Math.min`/`Math.round` and the decimal
    rendering `String(n)` of an integer. Real arithmetic stands in for IEEE-754
    doubles. */
module JsValues {
  import opened Wrappers

  /** A JavaScript number. `Finite(r)` covers every finite double (and both
      zeros, which compare equal as they do under `===`). */
  datatype Num = Finite(r: real) | PosInf | NegInf | NaN {

    /** `Number.isFinite` */
    predicate IsFinite() {
      Finite?
    }
  }

  /** An untrusted JavaScript value, distinguished only by `typeof`.
      `JOther` stands for undefined, null, objects and functions alike. */
  datatype JsValue = JNumber(n: Num) | JBool(b: bool) | JString(s: string) | JOther

  /** `Math.max(v, x)` for a finite second argument. */
  function MaxWith(v: Num, x: real): (r: Num)
    ensures v.NaN? <==> r.NaN?
    ensures v.Finite? ==> r.Finite? && r.r >= x && r.r >= v.r && (r.r == x || r.r == v.r)
    ensures v == PosInf <==> r == PosInf
    ensures v == NegInf ==> r == Finite(x)
  {
    match v
    case Finite(a) => Finite(if a >= x then a else x)
    case PosInf => PosInf
    case NegInf => Finite(x)
    case NaN => NaN
  }

  /** `Math.min(v, x)` for a finite second argument. */
  function MinWith(v: Num, x: real): (r: Num)
    ensures v.NaN? <==> r.NaN?
    ensures v.Finite? ==> r.Finite? && r.r <= x && r.r <= v.r && (r.r == x || r.r == v.r)
    ensures v == NegInf <==> r == NegInf
    ensures v == PosInf ==> r == Finite(x)
  {
    match v
    case Finite(a) => Finite(if a <= x then a else x)
    case PosInf => Finite(x)
    case NegInf => NegInf
    case NaN => NaN
  }

  /** `clamp(value, lo, hi)` of popup.js, i.e. `Math.min(Math.max(value, lo), hi)`.
      NaN is not caught: it propagates through both calls. */
  function Clamp(v: Num, lo: real, hi: real): (r: Num)
    ensures r.NaN? <==> v.NaN?
    ensures lo <= hi && !v.NaN? ==> r.Finite? && lo <= r.r <= hi
    ensures v.Finite? && lo <= v.r <= hi ==> r == v
    ensures lo <= hi && (v == PosInf || (v.Finite? && v.r > hi)) ==> r == Finite(hi)
    ensures lo <= hi && (v == NegInf || (v.Finite? && v.r < lo)) ==> r == Finite(lo)
  {
    MinWith(MaxWith(v, lo), hi)
  }

  /** `Math.round` on a finite value: the nearest integer, halves towards
      positive infinity. */
  function Round(x: real): (n: int)
    ensures n as real - 1.0 / 2.0 <= x < n as real + 1.0 / 2.0
  {
    (x + 1.0 / 2.0).Floor
  }

  lemma RoundOfInteger(n: int)
    ensures Round(n as real) == n
  {
  }

  /** `Math.round` on any number: non-finite values are returned unchanged. */
  function RoundNum(v: Num): (r: Num)
    ensures r.Finite? <==> v.Finite?
    ensures v.Finite? ==> r.r == Round(v.r) as real
    ensures !v.Finite? ==> r == v
  {
    match v
    case Finite(a) => Finite(Round(a) as real)
    case _ => v
  }

  /** `v * k` for a positive finite factor `k`. */
  function Scale(v: Num, k: real): (r: Num)
    requires k > 0.0
    ensures r.Finite? <==> v.Finite?
    ensures v.Finite? ==> r.r == v.r * k
    ensures !v.Finite? ==> r == v
  {
    match v
    case Finite(a) => Finite(a * k)
    case _ => v
  }

  /* ---- `String(n)` for an integer-valued number ---- */

  predicate IsDigit(c: char) {
    '0' <= c <= '9'
  }

  function DigitChar(d: int): (c: char)
    requires 0 <= d < 10
    ensures IsDigit(c) && c as int - '0' as int == d
  {
    (d + '0' as int) as char
  }

  /** A non-empty run of decimal digits without a leading zero, except for
      the single digit "0". */
  predicate CanonicalDigits(d: string) {
    && |d| >= 1
    && (forall i :: 0 <= i < |d| ==> IsDigit(d[i]))
    && (d[0] == '0' ==> |d| == 1)
  }

  /** The shape of `String(n)` for an integer `n`: canonical digits, preceded
      by a minus sign only when they are not "0". */
  predicate CanonicalDecimal(s: string) {
    || CanonicalDigits(s)
    || (|s| >= 2 && s[0] == '-' && s[1] != '0' && CanonicalDigits(s[1..]))
  }

  /** The decimal digits of `n`, most significant first, without leading zeros. */
  function NatDigits(n: nat): (s: string)
    ensures CanonicalDigits(s)
    ensures s[0] == '0' <==> n == 0
    decreases n
  {
    if n < 10 then [DigitChar(n)] else NatDigits(n / 10) + [DigitChar(n % 10)]
  }

  /** `String(n)` for an integer-valued `n`: an optional minus sign followed by
      canonical digits. */
  function DecimalString(n: int): (s: string)
    ensures CanonicalDecimal(s)
    ensures s[0] == '-' <==> n < 0
    ensures n == 0 ==> s == "0"
  {
    if n < 0 then "-" + NatDigits(-n) else NatDigits(n)
  }

  /** The value of a string of decimal digits. */
  function DigitsValue(s: string): nat
    requires forall i :: 0 <= i < |s| ==> IsDigit(s[i])
  {
    if |s| == 0 then 0
    else
      assert IsDigit(s[|s| - 1]);
      10 * DigitsValue(s[..|s| - 1]) + (s[|s| - 1] as int - '0' as int)
  }

  /** Reads a decimal integer with an optional leading minus sign, the inverse
      of `DecimalString`. */
  function ParseDecimal(s: string): (r: Option<int>)
    ensures r.Some? ==> |s| >= 1
    ensures r.Some? && r.value < 0 ==> s[0] == '-'
  {
    if |s| >= 2 && s[0] == '-' && forall i :: 1 <= i < |s| ==> IsDigit(s[i]) then
      var magnitude: int := DigitsValue(s[1..]);
      Some(-magnitude)
    else if |s| >= 1 && forall i :: 0 <= i < |s| ==> IsDigit(s[i]) then
      Some(DigitsValue(s))
    else
      None
  }

  lemma {:induction false} NatDigitsRoundTrip(n: nat)
    ensures DigitsValue(NatDigits(n)) == n
    decreases n
  {
    if n >= 10 {
      var s := NatDigits(n);
      NatDigitsRoundTrip(n / 10);
      assert s[..|s| - 1] == NatDigits(n / 10);
    }
  }

  /** Reading back the rendering of an integer gives the integer. */
  lemma DecimalRoundTrip(n: int)
    ensures ParseDecimal(DecimalString(n)) == Some(n)
  {
    if n < 0 {
      NatDigitsRoundTrip(-n);
      assert DecimalString(n)[1..] == NatDigits(-n);
    } else {
      NatDigitsRoundTrip(n);
    }
  }

  /** Canonical digits are the rendering of their own value. */
  lemma {:induction false} CanonicalDigitsRoundTrip(d: string)
    requires CanonicalDigits(d)
    ensures NatDigits(DigitsValue(d)) == d
    decreases |d|
  {
    var last := d[|d| - 1];
    var c := last as int - '0' as int;
    assert IsDigit(last);
    if |d| == 1 {
      assert d[..0] == [];
      assert DigitsValue(d) == c;
      assert NatDigits(c) == [DigitChar(c)];
    } else {
      var p := d[..|d| - 1];
      assert p[0] == d[0];
      assert CanonicalDigits(p);
      CanonicalDigitsRoundTrip(p);
      var v := DigitsValue(p);
      assert NatDigits(v)[0] != '0';
      assert DigitsValue(d) == 10 * v + c;
      assert DigitsValue(d) / 10 == v && DigitsValue(d) % 10 == c;
      assert DigitChar(c) == last;
      assert d == p + [last];
    }
  }

  /** Every canonical decimal string is `String(n)` of exactly one integer:
      the one it parses to. Together with `DecimalRoundTrip`, the canonical
      strings and the integers are in one-to-one correspondence. */
  lemma DecimalStringUnique(s: string)
    requires CanonicalDecimal(s)
    ensures ParseDecimal(s).Some? && DecimalString(ParseDecimal(s).value) == s
  {
    if CanonicalDigits(s) {
      assert IsDigit(s[0]);
      CanonicalDigitsRoundTrip(s);
    } else {
      var d := s[1..];
      CanonicalDigitsRoundTrip(d);
      assert NatDigits(DigitsValue(d))[0] != '0';
      assert s == "-" + d;
    }
  }
}
