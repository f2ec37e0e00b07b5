/** Decimal numbers as Bid Beacon reads and writes them: `parseFloat` on
    form fields and extracted amounts, `Number.prototype.toString`, and the
    text form PostgreSQL gives a `numeric(12, 2)` column. Values are exact
    decimals (mantissa / 10^scale); binary floating point is not modelled. */
module Numeric {
  import opened Wrappers
  import opened Text

  function Pow10(n: nat): (r: nat)
    ensures r >= 1
  {
    if n == 0 then 1 else 10 * Pow10(n - 1)
  }

  /** The number mantissa / 10^scale. */
  datatype Decimal = Decimal(mantissa: int, scale: nat)

  /** Two decimals denote the same number. */
  predicate SameValue(a: Decimal, b: Decimal) {
    a.mantissa * Pow10(b.scale) == b.mantissa * Pow10(a.scale)
  }

  /** `d > n` for an integer `n`, compared exactly. */
  predicate Exceeds(d: Decimal, n: int) {
    d.mantissa > n * Pow10(d.scale)
  }

  function Abs(n: int): nat { if n < 0 then -n else n }

  // ---------------------------------------------------------------------------
  // parseFloat

  /** End of the run of decimal digits of `s` starting at `i`. */
  function DigitRun(s: string, i: nat): (k: nat)
    requires i <= |s|
    ensures i <= k <= |s|
    ensures forall m :: i <= m < k ==> IsDigit(s[m])
    ensures k < |s| ==> !IsDigit(s[k])
    decreases |s| - i
  {
    if i < |s| && IsDigit(s[i]) then DigitRun(s, i + 1) else i
  }

  /** The unsigned part of a literal: integer digits, then (after a '.') the
      fraction digits; `None` when there is no digit at all. */
  function ParseUnsigned(u: string): (r: Option<Decimal>)
    ensures r.Some? ==> r.value.mantissa >= 0
  {
    var a := DigitRun(u, 0);
    var frac := if a < |u| && u[a] == '.' then u[a + 1..DigitRun(u, a + 1)] else "";
    if a + |frac| == 0 then None
    else Some(Decimal(DigitsValue(u[..a] + frac), |frac|))
  }

  /** `parseFloat(s)`: skips leading white space, reads an optional sign and
      the longest prefix of the form digits [ '.' digits ]; `None` stands for
      `NaN` (no digit where one is needed). */
  function ParseFloat(s: string): (r: Option<Decimal>)
  {
    var t := s[TrimStartFrom(s, 0)..];
    if |t| > 0 && (t[0] == '-' || t[0] == '+') then
      match ParseUnsigned(t[1..])
      case None => None
      case Some(d) => Some(if t[0] == '-' then Decimal(-d.mantissa, d.scale) else d)
    else ParseUnsigned(t)
  }

  /** A non-empty string of digits reads as its value. */
  lemma ParseFloatDigits(s: string)
    requires |s| >= 1 && forall i :: 0 <= i < |s| ==> IsDigit(s[i])
    ensures ParseFloat(s) == Some(Decimal(DigitsValue(s), 0))
  {
    assert TrimStartFrom(s, 0) == 0;
    assert s[0..] == s;
    assert DigitRun(s, 0) == |s| by { DigitRunAll(s, 0); }
    assert s[..|s|] + "" == s;
  }

  lemma {:induction false} DigitRunAll(s: string, i: nat)
    requires i <= |s| && forall m :: i <= m < |s| ==> IsDigit(s[m])
    ensures DigitRun(s, i) == |s|
    decreases |s| - i
  {
    if i < |s| {
      DigitRunAll(s, i + 1);
    }
  }

  // ---------------------------------------------------------------------------
  // digit strings

  lemma {:induction false} DigitsValueAppend(a: string, b: string)
    requires forall i :: 0 <= i < |a| ==> IsDigit(a[i])
    requires forall i :: 0 <= i < |b| ==> IsDigit(b[i])
    ensures DigitsValue(a + b) == DigitsValue(a) * Pow10(|b|) + DigitsValue(b)
    decreases |b|
  {
    if b == [] {
      assert a + b == a;
    } else {
      var c, b' := a + b, b[..|b| - 1];
      assert c[..|c| - 1] == a + b' && c[|c| - 1] == b[|b| - 1];
      DigitsValueAppend(a, b');
      ShiftDigit(DigitsValue(a), DigitsValue(b'), DigitValue(b[|b| - 1]), Pow10(|b'|));
    }
  }

  lemma ShiftDigit(x: int, y: int, d: int, p: int)
    ensures 10 * (x * p + y) + d == x * (10 * p) + (10 * y + d)
  {
  }

  /** `n` written with exactly `width` digits (leading zeros); `n < 10^width`. */
  function PadDigits(n: nat, width: nat): (s: string)
    requires n < Pow10(width)
    ensures |s| == width
    ensures forall i :: 0 <= i < |s| ==> IsDigit(s[i])
    ensures DigitsValue(s) == n
    decreases width
  {
    if width == 0 then ""
    else
      var s := PadDigits(n / 10, width - 1) + [DigitChar(n % 10)];
      assert s[..|s| - 1] == PadDigits(n / 10, width - 1);
      s
  }

  // ---------------------------------------------------------------------------
  // ---------------------------------------------------------------------------
  // text of numbers

  lemma DivMod(a: nat, p: nat)
    requires p >= 1
    ensures a / p >= 0 && a % p < p && a == (a / p) * p + a % p
  {
  }

  /** `a / 10^k` written with a decimal point and exactly `k` fraction digits. */
  function PointText(a: nat, k: nat): (s: string)
    ensures |s| >= k + 2 && s[|s| - k - 1] == '.' && IsDigit(s[0])
  {
    var p := Pow10(k);
    DivMod(a, p);
    NatToString(a / p) + "." + PadDigits(a % p, k)
  }

  /** `ip "." fp` with digit strings `ip` (non-empty) and `fp` reads as the
      digits of `ip + fp` scaled by the length of `fp`. */
  lemma UnsignedRoundTrip(ip: string, fp: string)
    requires |ip| >= 1
    requires forall i :: 0 <= i < |ip| ==> IsDigit(ip[i])
    requires forall i :: 0 <= i < |fp| ==> IsDigit(fp[i])
    ensures ParseUnsigned(ip + "." + fp) == Some(Decimal(DigitsValue(ip + fp), |fp|))
  {
    var u := ip + "." + fp;
    DigitRunUpTo(u, 0, |ip|);
    assert u[|ip|] == '.';
    DigitRunAll(u, |ip| + 1);
    assert u[..|ip|] == ip;
    assert u[|ip| + 1..|u|] == fp;
  }

  lemma {:induction false} DigitRunUpTo(u: string, i: nat, k: nat)
    requires i <= k < |u|
    requires forall m :: i <= m < k ==> IsDigit(u[m])
    requires !IsDigit(u[k])
    ensures DigitRun(u, i) == k
    decreases k - i
  {
    if i < k {
      DigitRunUpTo(u, i + 1, k);
    }
  }

  lemma PointTextRoundTrip(a: nat, k: nat)
    ensures ParseUnsigned(PointText(a, k)) == Some(Decimal(a, k))
  {
    var p := Pow10(k);
    DivMod(a, p);
    var ip := NatToString(a / p);
    var fp := PadDigits(a % p, k);
    UnsignedRoundTrip(ip, fp);
    DigitsValueAppend(ip, fp);
    NatToStringRoundTrip(a / p);
  }

  lemma NatTextRoundTrip(a: nat)
    ensures ParseUnsigned(NatToString(a)) == Some(Decimal(a, 0))
  {
    var s := NatToString(a);
    DigitRunAll(s, 0);
    assert s[..|s|] + "" == s;
    NatToStringRoundTrip(a);
  }

  /** An unsigned text that starts with a digit, with or without a leading
      '-', reads as the number or its negation. */
  lemma SignedRoundTrip(neg: bool, u: string, x: Decimal)
    requires |u| >= 1 && IsDigit(u[0]) && ParseUnsigned(u) == Some(x)
    ensures ParseFloat((if neg then "-" else "") + u) ==
      Some(if neg then Decimal(-x.mantissa, x.scale) else x)
  {
    var s := (if neg then "-" else "") + u;
    assert TrimStartFrom(s, 0) == 0;
    assert s[0..] == s;
    if neg {
      assert s[1..] == u;
    }
  }

  /** PostgreSQL's text for a `numeric(12, 2)` value held as integer cents:
      an optional '-', the integer part, '.', and exactly two digits. */
  function CentsToText(c: int): (s: string)
    ensures |s| >= 4 && s[|s| - 3] == '.'
  {
    (if c < 0 then "-" else "") + PointText(Abs(c), 2)
  }

  /** Reading a `numeric(12, 2)` text back gives the same number of cents. */
  lemma CentsToTextRoundTrip(c: int)
    ensures ParseFloat(CentsToText(c)) == Some(Decimal(c, 2))
  {
    PointTextRoundTrip(Abs(c), 2);
    SignedRoundTrip(c < 0, PointText(Abs(c), 2), Decimal(Abs(c), 2));
  }

  /** Removes trailing zeros of the fraction: the canonical form of a value. */
  function Normalize(d: Decimal): (r: Decimal)
    ensures SameValue(r, d)
    ensures r.scale <= d.scale
    ensures r.scale > 0 ==> r.mantissa % 10 != 0
    decreases d.scale
  {
    if d.scale > 0 && d.mantissa % 10 == 0 then
      var r := Normalize(Decimal(d.mantissa / 10, d.scale - 1));
      assert d.mantissa == 10 * (d.mantissa / 10);
      SameValueTransitive(r, Decimal(d.mantissa / 10, d.scale - 1), d);
      r
    else d
  }

  lemma SameValueTransitive(a: Decimal, b: Decimal, c: Decimal)
    requires SameValue(a, b) && SameValue(b, c)
    ensures SameValue(a, c)
  {
    var pa, pb, pc := Pow10(a.scale), Pow10(b.scale), Pow10(c.scale);
    assert a.mantissa * pb == b.mantissa * pa;
    assert b.mantissa * pc == c.mantissa * pb;
    calc {
      a.mantissa * pc * pb;
      == (a.mantissa * pb) * pc;
      == (b.mantissa * pa) * pc;
      == (b.mantissa * pc) * pa;
      == (c.mantissa * pb) * pa;
      == (c.mantissa * pa) * pb;
    }
    MulCancel(a.mantissa * pc, c.mantissa * pa, pb);
  }

  lemma MulCancel(x: int, y: int, k: int)
    requires k > 0 && x * k == y * k
    ensures x == y
  {
  }

  /** `Number.prototype.toString` on an exact decimal: the shortest text,
      without trailing fraction zeros (exponent notation is not modelled). */
  function NumberToString(d: Decimal): (s: string)
    ensures |s| >= 1
  {
    var n := Normalize(d);
    (if n.mantissa < 0 then "-" else "") +
      (if n.scale == 0 then NatToString(Abs(n.mantissa)) else PointText(Abs(n.mantissa), n.scale))
  }

  /** Reading back the text of a number gives the same number. */
  lemma NumberToStringRoundTrip(d: Decimal)
    ensures ParseFloat(NumberToString(d)).Some?
    ensures SameValue(ParseFloat(NumberToString(d)).value, d)
  {
    var n := Normalize(d);
    var a := Abs(n.mantissa);
    if n.scale == 0 {
      NatTextRoundTrip(a);
      SignedRoundTrip(n.mantissa < 0, NatToString(a), Decimal(a, 0));
    } else {
      PointTextRoundTrip(a, n.scale);
      SignedRoundTrip(n.mantissa < 0, PointText(a, n.scale), Decimal(a, n.scale));
    }
    assert ParseFloat(NumberToString(d)) == Some(n);
  }
}
