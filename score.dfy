/**
 * The score of a leaderboard cell: `parseFloat(cell) || 0` (index.js:35-36, index.js:44).
 *
 * `parseFloat` skips leading white space and reads the LONGEST prefix that is a
 * decimal literal (optional sign, digits, optional fraction, optional exponent);
 * anything after that prefix is ignored, and a text without such a prefix is NaN.
 * `|| 0` then turns NaN (and -0) into 0. The model gives the EXACT rational value
 * of the prefix; IEEE-754 rounding and the literal `Infinity` are not modelled.
 */
module Score {
  import opened Wrappers

  predicate IsDigit(c: char) { '0' <= c <= '9' }

  /** The value of a decimal digit (the parser applies it to digits only). */
  function DigitValue(c: char): (d: nat)
    ensures d < 10
  {
    if IsDigit(c) then c as int - '0' as int else 0
  }

  /** The characters `parseFloat` skips first (StrWhiteSpaceChar of ECMA-262: white space and line terminators). */
  predicate IsWhiteSpace(c: char) {
    || c == ' ' || c == '\t' || c == '\n' || c == '\r'
    || c == '\U{000B}' || c == '\U{000C}' || c == '\U{00A0}' || c == '\U{1680}'
    || ('\U{2000}' <= c <= '\U{200A}')
    || c == '\U{2028}' || c == '\U{2029}' || c == '\U{202F}' || c == '\U{205F}'
    || c == '\U{3000}' || c == '\U{FEFF}'
  }

  predicate AllDigits(s: string) { forall i :: 0 <= i < |s| ==> IsDigit(s[i]) }

  /** `s` with its leading white space removed. */
  function TrimStart(s: string): (r: string)
    ensures |r| <= |s| && r == s[|s| - |r|..]
    ensures r == [] || !IsWhiteSpace(r[0])
    ensures forall i :: 0 <= i < |s| - |r| ==> IsWhiteSpace(s[i])
  {
    if s != [] && IsWhiteSpace(s[0]) then TrimStart(s[1..]) else s
  }

  /** The length of the run of decimal digits at the start of `s`. */
  function LeadingDigits(s: string): (n: nat)
    ensures n <= |s|
    ensures forall i :: 0 <= i < n ==> IsDigit(s[i])
    ensures n == |s| || !IsDigit(s[n])
  {
    if s != [] && IsDigit(s[0]) then 1 + LeadingDigits(s[1..]) else 0
  }

  /** The natural number that a string of decimal digits denotes. */
  function DigitsValue(ds: string): nat {
    if ds == [] then 0 else DigitsValue(ds[..|ds| - 1]) * 10 + DigitValue(ds[|ds| - 1])
  }

  function Pow10(n: nat): (r: real)
    ensures r >= 1.0
  {
    if n == 0 then 1.0 else 10.0 * Pow10(n - 1)
  }

  /** Ten to the power `z`, for an integer `z` of either sign. */
  function Scale(z: int): (r: real)
    ensures r > 0.0
  {
    if z >= 0 then Pow10(z) else 1.0 / Pow10(-z)
  }

  /**
   * The exponent of an exponent part `e`/`E`, optional sign, digits at the start
   * of `a`; 0 when `a` does not start with a complete exponent part (then
   * `parseFloat` stops before the `e`).
   */
  function Exponent(a: string): int {
    if a != [] && (a[0] == 'e' || a[0] == 'E') then
      var b := a[1..];
      var negative := b != [] && b[0] == '-';
      var digits := if b != [] && (b[0] == '-' || b[0] == '+') then b[1..] else b;
      var n := LeadingDigits(digits);
      var e: int := DigitsValue(digits[..n]);
      if negative then -e else e
    else 0
  }

  /** True when `u` starts with a mantissa: a digit, or a point followed by a digit. */
  predicate StartsMantissa(u: string) {
    (u != [] && IsDigit(u[0])) || (|u| >= 2 && u[0] == '.' && IsDigit(u[1]))
  }

  /** The value of the longest unsigned decimal literal at the start of `u`, if any. */
  function UnsignedPrefix(u: string): (r: Option<real>)
    ensures r.None? <==> !StartsMantissa(u)
    ensures r.Some? ==> r.value >= 0.0
  {
    var i := LeadingDigits(u);
    Mantissa(u[..i], u[i..])
  }

  /**
   * The literal whose integer digits are `whole`, followed by `rest`: a point
   * and the fraction digits after it when `rest` starts with `.`, then an
   * optional exponent part. No digits on either side of the point is not a literal.
   */
  function Mantissa(whole: string, rest: string): (r: Option<real>)
    ensures r.None? <==> whole == [] && !(|rest| >= 2 && rest[0] == '.' && IsDigit(rest[1]))
    ensures r.Some? ==> r.value >= 0.0
  {
    if rest != [] && rest[0] == '.' then
      var f := LeadingDigits(rest[1..]);
      if whole == [] && f == 0 then None
      else Some(Literal(whole + rest[1..][..f], f, rest[1 + f..]))
    else if whole == [] then None
    else Some(Literal(whole, 0, rest))
  }

  /** The digits `ds`, of which the last `f` follow the point, scaled by the exponent part at the start of `tail`. */
  function Literal(ds: string, f: nat, tail: string): (v: real)
    ensures v >= 0.0
  {
    DigitsValue(ds) as real * Scale(Exponent(tail) - f)
  }

  /** True when `parseFloat(s)` is a number rather than NaN (leaving out `Infinity`). */
  predicate HasNumericPrefix(s: string) {
    var t := TrimStart(s);
    if t != [] && (t[0] == '-' || t[0] == '+') then StartsMantissa(t[1..]) else StartsMantissa(t)
  }

  /** `parseFloat(s)`: None stands for NaN. */
  function ParseFloat(s: string): (r: Option<real>)
    ensures r.None? <==> !HasNumericPrefix(s)
  {
    ParseTrimmed(TrimStart(s))
  }

  /** `parseFloat` once the leading white space is gone: an optional sign, then the unsigned literal. */
  function ParseTrimmed(t: string): (r: Option<real>)
    ensures r.None? <==> !(if t != [] && (t[0] == '-' || t[0] == '+') then StartsMantissa(t[1..]) else StartsMantissa(t))
  {
    if t != [] && t[0] == '-' then
      match UnsignedPrefix(t[1..])
      case None => None
      case Some(v) => Some(-v)
    else if t != [] && t[0] == '+' then UnsignedPrefix(t[1..])
    else UnsignedPrefix(t)
  }

  /**
   * `parseFloat(cell) || 0` for a cell that may be absent (a row shorter than
   * the column): `parseFloat(undefined)` is NaN, so an absent cell scores 0.
   */
  function CellScore(cell: Option<string>): (r: real)
    ensures cell.None? ==> r == 0.0
    ensures cell.Some? && !HasNumericPrefix(cell.value) ==> r == 0.0
    ensures cell.Some? && HasNumericPrefix(cell.value) ==> r == ParseFloat(cell.value).value
  {
    match cell
    case None => 0.0
    case Some(s) => ParseFloat(s).GetOr(0.0)
  }

  // ---------------------------------------------------------------------------
  // Decimal rendering of naturals, the partner of ParseFloat.

  function DigitChar(d: nat): (c: char)
    requires d < 10
    ensures IsDigit(c) && DigitValue(c) == d
  {
    ('0' as int + d) as char
  }

  /** The decimal digits of `n`, without leading zeros. */
  function NatToString(n: nat): (s: string)
    ensures s != [] && AllDigits(s)
    decreases n
  {
    if n < 10 then [DigitChar(n)] else NatToString(n / 10) + [DigitChar(n % 10)]
  }

  /** A character that ends a decimal literal that has no fraction and no exponent. */
  predicate EndsLiteral(t: string) {
    t == [] || !(IsDigit(t[0]) || t[0] == '.' || t[0] == 'e' || t[0] == 'E')
  }

  lemma {:induction false} DigitsValueOfNatToString(n: nat)
    ensures DigitsValue(NatToString(n)) == n
    decreases n
  {
    var s := NatToString(n);
    if n >= 10 {
      DigitsValueOfNatToString(n / 10);
      assert s[..|s| - 1] == NatToString(n / 10);
    }
  }

  lemma {:induction false} LeadingDigitsAppend(a: string, t: string)
    requires AllDigits(a)
    ensures LeadingDigits(a + t) == |a| + LeadingDigits(t)
    decreases |a|
  {
    if a != [] {
      assert (a + t)[1..] == a[1..] + t;
      LeadingDigitsAppend(a[1..], t);
    } else {
      assert a + t == t;
    }
  }

  /** A run of digits followed by text that does not continue the literal is read as the run's value. */
  lemma DigitsPrefix(a: string, t: string)
    requires a != [] && AllDigits(a) && EndsLiteral(t)
    ensures UnsignedPrefix(a + t) == Some(DigitsValue(a) as real)
  {
    var u := a + t;
    LeadingDigitsAppend(a, t);
    assert LeadingDigits(t) == 0;
    assert u[..|a|] == a && u[|a|..] == t;
    assert UnsignedPrefix(u) == Mantissa(a, t);
    assert Mantissa(a, t) == Some(Literal(a, 0, t));
    LiteralWithoutExponent(a, t);
  }

  lemma LiteralWithoutExponent(a: string, t: string)
    requires EndsLiteral(t)
    ensures Literal(a, 0, t) == DigitsValue(a) as real
  {
    assert Exponent(t) == 0;
    assert Scale(0) == 1.0;
    var d := DigitsValue(a) as real;
    assert d * 1.0 == d;
  }

  /** The unsigned literal made of the digits of `n`, followed by text that does not continue it, is worth n. */
  lemma NatRoundTrip(n: nat, t: string)
    requires EndsLiteral(t)
    ensures UnsignedPrefix(NatToString(n) + t) == Some(n as real)
  {
    DigitsPrefix(NatToString(n), t);
    DigitsValueOfNatToString(n);
  }

  /**
   * Round trip for negative integers: `parseFloat` reads `-` and the digits of
   * `n` back as -n, also when text that cannot continue the literal follows.
   */
  lemma NegativeRoundTrip(n: nat, t: string)
    requires EndsLiteral(t)
    ensures ParseFloat(['-'] + (NatToString(n) + t)) == Some(-(n as real))
  {
    var s := ['-'] + (NatToString(n) + t);
    assert TrimStart(s) == s;
    assert s[1..] == NatToString(n) + t;
    NatRoundTrip(n, t);
  }

  /**
   * Round trip for naturals: `parseFloat` reads the digits of `n` back as n,
   * also when text that cannot continue the literal follows ("12abc" is 12).
   */
  lemma NonNegativeRoundTrip(n: nat, t: string)
    requires EndsLiteral(t)
    ensures ParseFloat(NatToString(n) + t) == Some(n as real)
  {
    var s := NatToString(n) + t;
    assert s[0] == NatToString(n)[0];
    assert IsDigit(s[0]) && !IsWhiteSpace(s[0]) && s[0] != '-' && s[0] != '+';
    assert TrimStart(s) == s;
    NatRoundTrip(n, t);
    assert ParseTrimmed(s) == UnsignedPrefix(s);
  }

  lemma {:induction false} TrimStartSkipsWhiteSpace(w: string, s: string)
    requires forall i :: 0 <= i < |w| ==> IsWhiteSpace(w[i])
    ensures TrimStart(w + s) == TrimStart(s)
    decreases |w|
  {
    if w != [] {
      assert (w + s)[1..] == w[1..] + s;
      TrimStartSkipsWhiteSpace(w[1..], s);
    } else {
      assert w + s == s;
    }
  }

  /** A cell holding the digits of `n`, and nothing else, scores n. */
  lemma CellScoreOfDigits(n: nat)
    ensures CellScore(Some(NatToString(n))) == n as real
  {
    NonNegativeRoundTrip(n, []);
    assert NatToString(n) + [] == NatToString(n);
  }

  /** A cell that starts with something other than white space, a sign, a digit or a point scores 0. */
  lemma CellScoreOfWord(s: string)
    requires s != [] && !IsWhiteSpace(s[0]) && !IsDigit(s[0]) && s[0] != '.' && s[0] != '-' && s[0] != '+'
    ensures CellScore(Some(s)) == 0.0
  {
    assert TrimStart(s) == s;
    assert !HasNumericPrefix(s);
  }

  /** Leading white space never changes what `parseFloat` reads. */
  lemma ParseFloatSkipsWhiteSpace(w: string, s: string)
    requires forall i :: 0 <= i < |w| ==> IsWhiteSpace(w[i])
    ensures ParseFloat(w + s) == ParseFloat(s)
  {
    TrimStartSkipsWhiteSpace(w, s);
  }
}
