/** Calendar dates as Python's `datetime.date` holds them, the ISO text
    form `"%Y-%m-%d"` in both directions (`strftime` and `strptime`), and
    why comparing those texts as strings orders the dates. */
module Dates {
  import opened Wrappers
  import opened Text
  import opened Decimals

  datatype Date = Date(year: int, month: int, day: int)

  predicate IsLeapYear(y: int) {
    y % 4 == 0 && (y % 100 != 0 || y % 400 == 0)
  }

  function DaysInMonth(y: int, m: int): (n: int)
    requires 1 <= m <= 12
    ensures 28 <= n <= 31
  {
    if m == 2 then (if IsLeapYear(y) then 29 else 28)
    else if m == 4 || m == 6 || m == 9 || m == 11 then 30
    else 31
  }

  /** A date `datetime.date` accepts: years 1..9999 (MINYEAR..MAXYEAR), a real
      month, and a day that month has. */
  predicate ValidDate(d: Date) {
    1 <= d.year <= 9999 && 1 <= d.month <= 12 && 1 <= d.day <= DaysInMonth(d.year, d.month)
  }

  /** Chronological order. */
  predicate DateLe(a: Date, b: Date) {
    a.year < b.year || (a.year == b.year && (a.month < b.month || (a.month == b.month && a.day <= b.day)))
  }

  /** `date.strftime("%Y-%m-%d")`: a four-digit year, two-digit month and day. */
  function IsoFormat(d: Date): (s: string)
    requires ValidDate(d)
    ensures |s| == 10 && s[4] == '-' && s[7] == '-'
    ensures AllDigits(s[..4]) && AllDigits(s[5..7]) && AllDigits(s[8..])
  {
    var y, m, dd := PadDigits(d.year, 4), PadDigits(d.month, 2), PadDigits(d.day, 2);
    var s := y + "-" + m + "-" + dd;
    assert s[..4] == y && s[5..7] == m && s[8..] == dd;
    s
  }

  /** `datetime.strptime(s, "%Y-%m-%d").date()` on text of the shape
      `DDDD-DD-DD`: the date it names, or None where `strptime` raises
      `ValueError` (a month or day the calendar does not have, year 0). */
  function ParseIsoDate(s: string): (r: Option<Date>)
    ensures r.Some? ==> ValidDate(r.value)
  {
    if |s| == 10 && s[4] == '-' && s[7] == '-' && AllDigits(s[..4]) && AllDigits(s[5..7]) && AllDigits(s[8..]) then
      var d := Date(DigitsValue(s[..4]), DigitsValue(s[5..7]), DigitsValue(s[8..]));
      if ValidDate(d) then Some(d) else None
    else None
  }

  /** Equal-length digit strings with equal values are equal. */
  lemma {:induction false} PadDigitsOfValue(ds: string)
    requires AllDigits(ds)
    ensures DigitsValue(ds) < Pow10(|ds|)
    ensures PadDigits(DigitsValue(ds), |ds|) == ds
  {
    DigitsValueBound(ds);
    if ds != [] {
      var front := ds[..|ds| - 1];
      PadDigitsOfValue(front);
      var n := DigitsValue(ds);
      assert n / 10 == DigitsValue(front) && n % 10 == DigitValue(ds[|ds| - 1]);
      assert ['0' + ((n % 10) as char)] == [ds[|ds| - 1]];
      assert ds == front + [ds[|ds| - 1]];
    }
  }

  /** Parsing undoes formatting. */
  lemma ParseIsoFormat(d: Date)
    requires ValidDate(d)
    ensures ParseIsoDate(IsoFormat(d)) == Some(d)
  {
    var s := IsoFormat(d);
    assert s[..4] == PadDigits(d.year, 4);
    assert s[5..7] == PadDigits(d.month, 2);
    assert s[8..] == PadDigits(d.day, 2);
  }

  /** Formatting undoes parsing: a text `strptime` accepts is the ISO form
      of the date it names. */
  lemma FormatParseIsoDate(s: string)
    requires ParseIsoDate(s).Some?
    ensures IsoFormat(ParseIsoDate(s).value) == s
  {
    var d := ParseIsoDate(s).value;
    PadDigitsOfValue(s[..4]);
    PadDigitsOfValue(s[5..7]);
    PadDigitsOfValue(s[8..]);
    assert s == s[..4] + "-" + s[5..7] + "-" + s[8..];
  }

  /** The leading digit weighs a full power of ten. */
  lemma DigitsValueHead(a: string)
    requires AllDigits(a) && a != []
    ensures DigitsValue(a) == DigitValue(a[0]) * Pow10(|a| - 1) + DigitsValue(a[1..])
  {
    var h, t := [a[0]], a[1..];
    assert h + t == a;
    DigitsValueConcat(h, t);
    SingleDigitValue(a[0]);
  }

  lemma SingleDigitValue(c: char)
    requires IsDigit(c)
    ensures DigitsValue([c]) == DigitValue(c)
  {
    assert [c][..0] == [];
  }

  /** On digit strings of one length, string order is numeric order. */
  lemma {:induction false} LexLeDigits(a: string, b: string)
    requires AllDigits(a) && AllDigits(b) && |a| == |b|
    ensures LexLe(a, b) <==> DigitsValue(a) <= DigitsValue(b)
    decreases |a|
  {
    if a != [] {
      var p := Pow10(|a| - 1);
      DigitsValueHead(a);
      DigitsValueHead(b);
      DigitsValueBound(a[1..]);
      DigitsValueBound(b[1..]);
      var x, y := DigitValue(a[0]), DigitValue(b[0]);
      if a[0] == b[0] {
        LexLeDigits(a[1..], b[1..]);
      } else if a[0] < b[0] {
        HeadDominates(x, y, p, DigitsValue(a[1..]), DigitsValue(b[1..]));
      } else {
        HeadDominates(y, x, p, DigitsValue(b[1..]), DigitsValue(a[1..]));
      }
    }
  }

  /** A smaller leading digit outweighs anything in the digits after it. */
  lemma HeadDominates(x: nat, y: nat, p: nat, ra: nat, rb: nat)
    requires x < y && ra < p
    ensures x * p + ra < y * p + rb
  {
    assert (y - x - 1) * p >= 0;
    assert y * p == (y - x - 1) * p + x * p + p;
  }

  /** Comparing concatenations whose first parts have one length decides on
      the first parts unless they are equal. */
  lemma {:induction false} LexLeConcat(x1: string, y1: string, x2: string, y2: string)
    requires |x1| == |x2|
    ensures LexLe(x1 + y1, x2 + y2) <==> if x1 == x2 then LexLe(y1, y2) else LexLe(x1, x2)
    decreases |x1|
  {
    if x1 == [] {
      assert x1 + y1 == y1 && x2 + y2 == y2;
    } else {
      assert (x1 + y1)[0] == x1[0] && (x2 + y2)[0] == x2[0];
      assert (x1 + y1)[1..] == x1[1..] + y1 && (x2 + y2)[1..] == x2[1..] + y2;
      LexLeConcat(x1[1..], y1, x2[1..], y2);
      if x1[0] == x2[0] {
        assert x1 == x2 <==> x1[1..] == x2[1..] by {
          assert x1 == [x1[0]] + x1[1..] && x2 == [x2[0]] + x2[1..];
        }
      }
    }
  }

  /** Digit strings of one length are equal exactly when their values are. */
  lemma DigitsEqual(a: string, b: string)
    requires AllDigits(a) && AllDigits(b) && |a| == |b|
    ensures a == b <==> DigitsValue(a) == DigitsValue(b)
  {
    LexLeDigits(a, b);
    LexLeDigits(b, a);
    if DigitsValue(a) == DigitsValue(b) { LexLeAntisymmetric(a, b); }
  }

  /** The ISO text, grouped from the right. */
  lemma IsoParts(d: Date)
    requires ValidDate(d)
    ensures IsoFormat(d) == PadDigits(d.year, 4) + ("-" + (PadDigits(d.month, 2) + ("-" + PadDigits(d.day, 2))))
  {
    var y, m, dd := PadDigits(d.year, 4), PadDigits(d.month, 2), PadDigits(d.day, 2);
    assert y + "-" + m + "-" + dd == y + ("-" + (m + ("-" + dd)));
  }

  /** Comparing ISO texts as strings, as the contract check does, is
      comparing the dates. */
  lemma IsoOrder(a: Date, b: Date)
    requires ValidDate(a) && ValidDate(b)
    ensures LexLe(IsoFormat(a), IsoFormat(b)) <==> DateLe(a, b)
  {
    var ya, ma, da := PadDigits(a.year, 4), PadDigits(a.month, 2), PadDigits(a.day, 2);
    var yb, mb, db := PadDigits(b.year, 4), PadDigits(b.month, 2), PadDigits(b.day, 2);
    IsoParts(a);
    IsoParts(b);
    LexLeConcat(ya, "-" + (ma + ("-" + da)), yb, "-" + (mb + ("-" + db)));
    LexLeConcat("-", ma + ("-" + da), "-", mb + ("-" + db));
    LexLeConcat(ma, "-" + da, mb, "-" + db);
    LexLeConcat("-", da, "-", db);
    DigitsEqual(ya, yb);
    DigitsEqual(ma, mb);
    LexLeDigits(ya, yb);
    LexLeDigits(ma, mb);
    LexLeDigits(da, db);
  }
}
