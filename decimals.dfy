/** Exact decimal numbers: the literal syntax that Python's `float(str)` and
    `Decimal(str)` accept (an optional sign, digits and at most one point),
    rendering of naturals as digit strings, and rounding to cents with ties
    away from zero (`quantize(Decimal("0.01"), ROUND_HALF_UP)`).
    Values are Dafny `real`s, which are exact rationals. */
module Decimals {
  import opened Wrappers
  import opened Text

  function DigitValue(c: char): (d: nat)
    requires IsDigit(c)
    ensures d < 10
  {
    (c as int) - ('0' as int)
  }

  function Pow10(n: nat): (p: nat)
    ensures p >= 1
  {
    if n == 0 then 1 else 10 * Pow10(n - 1)
  }

  /** The value of a string of decimal digits, most significant first. */
  function DigitsValue(ds: string): nat
    requires AllDigits(ds)
  {
    if ds == [] then 0 else 10 * DigitsValue(ds[..|ds| - 1]) + DigitValue(ds[|ds| - 1])
  }

  lemma {:induction false} DigitsValueBound(ds: string)
    requires AllDigits(ds)
    ensures DigitsValue(ds) < Pow10(|ds|)
  {
    if ds != [] { DigitsValueBound(ds[..|ds| - 1]); }
  }

  /** Prepending digits shifts their value by the length of the rest. */
  lemma {:induction false} DigitsValueConcat(a: string, b: string)
    requires AllDigits(a) && AllDigits(b)
    ensures AllDigits(a + b)
    ensures DigitsValue(a + b) == DigitsValue(a) * Pow10(|b|) + DigitsValue(b)
    decreases |b|
  {
    if b == [] {
      assert a + b == a;
    } else {
      var ab := a + b;
      var b' := b[..|b| - 1];
      assert ab[..|ab| - 1] == a + b';
      assert ab[|ab| - 1] == b[|b| - 1];
      DigitsValueConcat(a, b');
      ShiftByTen(DigitsValue(a), Pow10(|b'|), DigitsValue(b'), DigitValue(b[|b| - 1]));
    }
  }

  /** The arithmetic of one more digit. */
  lemma ShiftByTen(x: nat, p: nat, y: nat, d: nat)
    ensures 10 * (x * p + y) + d == x * (10 * p) + (10 * y + d)
  {
  }

  /** The decimal rendering of a natural number, without leading zeros
      (`str(n)`); zero renders as "0". */
  function NatToDigits(n: nat): (ds: string)
    ensures AllDigits(ds) && |ds| >= 1
    ensures DigitsValue(ds) == n
  {
    var last := ['0' + ((n % 10) as char)];
    assert DigitValue(last[0]) == n % 10;
    if n < 10 then
      assert DigitsValue(last) == 10 * DigitsValue([]) + n % 10;
      last
    else
      var front := NatToDigits(n / 10);
      var ds := front + last;
      assert ds[..|ds| - 1] == front;
      ds
  }

  /** A string of exactly `width` digits for `n < 10^width`, zero-padded on
      the left (the `%0<width>d` conversion). */
  function PadDigits(n: nat, width: nat): (ds: string)
    requires n < Pow10(width)
    ensures AllDigits(ds) && |ds| == width
    ensures DigitsValue(ds) == n
  {
    if width == 0 then []
    else
      var last := ['0' + ((n % 10) as char)];
      assert DigitValue(last[0]) == n % 10;
      var front := PadDigits(n / 10, width - 1);
      var ds := front + last;
      assert ds[..|ds| - 1] == front;
      ds
  }

  /** The unsigned part of a literal: digits with at most one point and at
      least one digit somewhere ("12", "12.5", "12.", ".5"). */
  predicate IsUnsignedLiteral(body: string) {
    var i := IndexOf(body, '.');
    if i < 0 then body != [] && AllDigits(body)
    else |body| >= 2 && AllDigits(body[..i]) && AllDigits(body[i + 1..])
  }

  /** The value of the digits `whole`, a point, and the digits `frac`. */
  function PointedValue(whole: string, frac: string): (v: real)
    requires AllDigits(whole) && AllDigits(frac)
    ensures v >= 0.0
  {
    DigitsValue(whole) as real + DigitsValue(frac) as real / Pow10(|frac|) as real
  }

  function UnsignedValue(body: string): (v: real)
    requires IsUnsignedLiteral(body)
    ensures v >= 0.0
  {
    var i := IndexOf(body, '.');
    if i < 0 then DigitsValue(body) as real
    else PointedValue(body[..i], body[i + 1..])
  }

  /** The value of a decimal literal with an optional `+`/`-` sign, or None
      when the text is not such a literal (where `float()` or `Decimal()`
      would raise). */
  function ParseDecimal(s: string): (r: Option<real>)
    ensures r.Some? && s != [] && s[0] != '-' ==> r.value >= 0.0
  {
    var signed := s != [] && (s[0] == '+' || s[0] == '-');
    var body := if signed then s[1..] else s;
    if !IsUnsignedLiteral(body) then None
    else
      var v := UnsignedValue(body);
      Some(if signed && s[0] == '-' then -v else v)
  }

  /** Only text with at least one digit is a number. */
  lemma ParseNeedsDigit(s: string)
    requires ParseDecimal(s).Some?
    ensures DigitsOf(s) != []
  {
    var signed := s != [] && (s[0] == '+' || s[0] == '-');
    var body := if signed then s[1..] else s;
    assert signed ==> s == [s[0]] + body;
    DigitsOfLiteral(body);
    DigitsOfConcat(if signed then [s[0]] else [], body);
  }

  /** Text with two points is not a number ("1.234.56"). */
  lemma ParseRejectsTwoPoints(s: string)
    requires '.' in s && IndexOf(s, '.') < LastIndexOf(s, '.')
    ensures ParseDecimal(s).None?
  {
    var signed := s != [] && (s[0] == '+' || s[0] == '-');
    var body := if signed then s[1..] else s;
    assert signed ==> s == [s[0]] + body;
    DotsInBody(s, body, signed);
  }

  lemma DotsInBody(s: string, body: string, signed: bool)
    requires signed ==> s != [] && !IsDigit(s[0]) && s[0] != '.' && s == [s[0]] + body
    requires !signed ==> s == body
    ensures '.' in s && IndexOf(s, '.') < LastIndexOf(s, '.') ==> !IsUnsignedLiteral(body)
  {
    if '.' in s && IndexOf(s, '.') < LastIndexOf(s, '.') {
      var l := LastIndexOf(s, '.');
      var i := IndexOf(body, '.');
      var k := if signed then l - 1 else l;
      assert body[k] == '.';
      assert i < k;
      assert body[i + 1..][k - i - 1] == '.';
    }
  }

  lemma DigitsOfLiteral(body: string)
    requires IsUnsignedLiteral(body)
    ensures DigitsOf(body) != []
  {
    var i := IndexOf(body, '.');
    if i < 0 {
      DigitsOfDigits(body);
    } else {
      assert body == body[..i] + ([body[i]] + body[i + 1..]);
      DigitsOfConcat(body[..i], [body[i]] + body[i + 1..]);
      DigitsOfConcat([body[i]], body[i + 1..]);
      DigitsOfDigits(body[..i]);
      DigitsOfDigits(body[i + 1..]);
    }
  }

  /** Without a sign, a literal parses to its unsigned value. */
  lemma ParseUnsigned(s: string)
    requires IsUnsignedLiteral(s) && s[0] != '+' && s[0] != '-'
    ensures ParseDecimal(s) == Some(UnsignedValue(s))
  {
  }

  /** A run of digits parses to its value. */
  lemma ParseDigits(d: string)
    requires AllDigits(d) && d != []
    ensures ParseDecimal(d) == Some(DigitsValue(d) as real)
  {
    assert IndexOf(d, '.') == -1;
  }

  /** Digits, a point and digits parse to the integer part plus the
      fraction scaled by its length. */
  lemma ParsePointed(d: string, f: string)
    requires AllDigits(d) && AllDigits(f) && |d| + |f| >= 1
    ensures ParseDecimal(d + "." + f) == Some(PointedValue(d, f))
  {
    var s := d + "." + f;
    PointAfterDigits(d, f);
    assert s[..|d|] == d;
    assert s[|d| + 1..] == f;
    ParseUnsigned(s);
  }

  /** In digits, a point and more text, the point is the first one and the
      text does not start with a sign. */
  lemma PointAfterDigits(d: string, f: string)
    requires AllDigits(d)
    ensures IndexOf(d + "." + f, '.') == |d|
    ensures (d + "." + f)[0] != '+' && (d + "." + f)[0] != '-'
  {
    var s := d + "." + f;
    assert s[|d|] == '.';
    assert s[..|d|] == d;
    assert '.' !in d by {
      forall k | 0 <= k < |d| ensures d[k] != '.' { assert IsDigit(d[k]); }
    }
    IndexOfAt(s, '.', |d|);
    if d != [] { assert s[0] == d[0]; }
  }

  /** Parsing inverts the canonical rendering of naturals. */
  lemma ParseNatToDigits(n: nat)
    ensures ParseDecimal(NatToDigits(n)) == Some(n as real)
  {
    ParseDigits(NatToDigits(n));
  }

  /** `r` is a whole number of cents. */
  predicate IsCents(r: real) {
    (r * 100.0).Floor as real == r * 100.0
  }

  function Abs(x: real): real {
    if x < 0.0 then -x else x
  }

  /** `r` is `x` rounded to cents, halves going away from zero: a whole
      number of cents no further than half a cent from `x`, and on a tie
      the one of larger magnitude. */
  predicate IsHalfUpRounding(x: real, r: real) {
    IsCents(r) && Abs(r - x) <= 0.005 && (Abs(r - x) == 0.005 ==> Abs(r) > Abs(x))
  }

  /** `quantize(Decimal("0.01"), rounding=ROUND_HALF_UP)`. */
  function RoundHalfUpCents(x: real): (r: real)
    ensures IsHalfUpRounding(x, r)
  {
    var c := if x >= 0.0 then (x * 100.0 + 0.5).Floor else -((-x * 100.0 + 0.5).Floor);
    assert (c as real / 100.0) * 100.0 == c as real;
    c as real / 100.0
  }

  /** Rounding half-up to cents has one answer: every value that meets
      `IsHalfUpRounding` is the one `RoundHalfUpCents` computes. */
  lemma HalfUpRoundingUnique(x: real, r: real)
    requires IsHalfUpRounding(x, r)
    ensures r == RoundHalfUpCents(x)
  {
    var c := (r * 100.0).Floor;
    assert r == c as real / 100.0;
    if x >= 0.0 {
      assert c as real <= x * 100.0 + 0.5;
      assert c as real > x * 100.0 - 0.5;
      assert c == (x * 100.0 + 0.5).Floor;
    } else {
      assert c as real >= x * 100.0 - 0.5;
      assert c as real < x * 100.0 + 0.5;
      assert -c == (-x * 100.0 + 0.5).Floor;
    }
  }
}
