/** The PDF invoice extractor (`PDFProcessor`): field extraction from the
    text of a PDF and the locale heuristic that turns "1.234,56" and
    "1,234.56" into numbers. Regular-expression search is a parameter:
    `search(p, text)` is the first match of pattern `p` in `text`, as the
    text of its first group (or of the whole match when `p` has no group). */
module Processor {
  import opened Wrappers
  import opened Text
  import opened Decimals
  import opened Dates
  import opened Models

  // ---------------------------------------------------------------------
  // Number normalisation (`_normalize_currency_string`)
  // ---------------------------------------------------------------------

  /** The separator rewrite: with both separators the later one is the
      decimal point (EU when the comma is last, US otherwise); with only
      commas, a two-character last group makes the commas points and any
      other makes them thousands separators. */
  function NormalizeSeparators(v: string): string {
    if ',' in v && '.' in v then
      if LastIndexOf(v, ',') > LastIndexOf(v, '.') then ReplaceAll(RemoveAll(v, '.'), ',', '.')
      else RemoveAll(v, ',')
    else if ',' in v then
      if |Last(Split(v, ','))| == 2 then ReplaceAll(v, ',', '.') else RemoveAll(v, ',')
    else v
  }

  /** `_normalize_currency_string`: the number the rewritten text denotes,
      or 0.0 when `float()` refuses it. */
  function NormalizeCurrencyString(v: string): real {
    ParseDecimal(NormalizeSeparators(v)).GetOr(0.0)
  }

  /** No comma survives the rewrite. */
  lemma NormalizeRemovesCommas(v: string)
    ensures ',' !in NormalizeSeparators(v)
  {
    var r := NormalizeSeparators(v);
    if ',' in v && (('.' in v && LastIndexOf(v, ',') > LastIndexOf(v, '.'))
                    || ('.' !in v && |Last(Split(v, ','))| == 2)) {
      var u := if '.' in v then RemoveAll(v, '.') else v;
      assert r == ReplaceAll(u, ',', '.');
      assert forall k :: 0 <= k < |r| ==> r[k] != ',';
    }
  }

  /** The rewrite keeps every digit, in order. */
  lemma NormalizeKeepsDigits(v: string)
    ensures DigitsOf(NormalizeSeparators(v)) == DigitsOf(v)
  {
    if ',' in v && '.' in v {
      if LastIndexOf(v, ',') > LastIndexOf(v, '.') {
        DigitsOfRemoveAll(v, '.');
        DigitsOfReplaceAll(RemoveAll(v, '.'), ',', '.');
      } else {
        DigitsOfRemoveAll(v, ',');
      }
    } else if ',' in v {
      if |Last(Split(v, ','))| == 2 {
        DigitsOfReplaceAll(v, ',', '.');
      } else {
        DigitsOfRemoveAll(v, ',');
      }
    }
  }

  /** Normalising twice is normalising once. */
  lemma NormalizeIdempotent(v: string)
    ensures NormalizeSeparators(NormalizeSeparators(v)) == NormalizeSeparators(v)
  {
    NormalizeRemovesCommas(v);
  }

  /** In `g`, `c`, `f` with `g` made of digits and `o` and `f` of digits,
      `c` occurs last at the joint and `o` only before it. */
  lemma SeparatorPositions(g: string, c: char, f: string, o: char)
    requires DigitsAnd(g, o) && AllDigits(f) && !IsDigit(c) && !IsDigit(o) && c != o
    ensures LastIndexOf(g + [c] + f, c) == |g|
    ensures LastIndexOf(g + [c] + f, o) < |g|
  {
    var v := g + [c] + f;
    DigitsAfter(g, c, f, c);
    DigitsAfter(g, c, f, o);
    assert v[|g|] == c;
    LastIndexOfAt(v, c, |g|);
  }

  /** Past the joint there are only digits. */
  lemma DigitsAfter(g: string, c: char, f: string, x: char)
    requires AllDigits(f) && !IsDigit(x)
    ensures forall k :: |g| < k < |g| + 1 + |f| ==> (g + [c] + f)[k] != x
  {
    var v := g + [c] + f;
    forall k | |g| < k < |v|
      ensures v[k] != x
    {
      assert v[k] == f[k - |g| - 1];
      assert IsDigit(f[k - |g| - 1]);
    }
  }

  /** Deleting the grouping character `o` leaves the digits, `c` and `f`. */
  lemma DropGrouping(g: string, c: char, f: string, o: char)
    requires DigitsAnd(g, o) && AllDigits(f) && !IsDigit(o) && c != o
    ensures RemoveAll(g + [c] + f, o) == DigitsOf(g) + [c] + f
  {
    RemoveAllConcat(g + [c], f, o);
    RemoveAllConcat(g, [c], o);
    assert RemoveAll([c], o) == [c];
    RemoveAllLeavesDigits(g, o);
    RemoveAllAbsent(f, o);
  }

  /** Turning the comma between two digit runs into a point. */
  lemma CommaToPoint(d: string, f: string)
    requires AllDigits(d) && AllDigits(f)
    ensures ReplaceAll(d + "," + f, ',', '.') == d + "." + f
  {
    ReplaceAllConcat(d + ",", f, ',', '.');
    ReplaceAllConcat(d, ",", ',', '.');
    assert ReplaceAll(",", ',', '.') == ".";
    ReplaceAllAbsent(d, ',', '.');
    ReplaceAllAbsent(f, ',', '.');
  }

  /** EU format: digits grouped by points, a comma, then the decimals. */
  lemma EuropeanValue(g: string, f: string)
    requires DigitsAnd(g, '.') && '.' in g && AllDigits(f) && |DigitsOf(g)| + |f| >= 1
    ensures NormalizeCurrencyString(g + "," + f) == PointedValue(DigitsOf(g), f)
  {
    var v := g + "," + f;
    SeparatorPositions(g, ',', f, '.');
    assert '.' in v by { assert v[..|g|] == g; }
    assert ',' in v by { assert v[|g|] == ','; }
    DropGrouping(g, ',', f, '.');
    CommaToPoint(DigitsOf(g), f);
    assert NormalizeSeparators(v) == DigitsOf(g) + "." + f;
    ParsePointed(DigitsOf(g), f);
  }

  /** US format: digits grouped by commas, a point, then the decimals. */
  lemma UsValue(g: string, f: string)
    requires DigitsAnd(g, ',') && ',' in g && AllDigits(f) && |DigitsOf(g)| + |f| >= 1
    ensures NormalizeCurrencyString(g + "." + f) == PointedValue(DigitsOf(g), f)
  {
    var v := g + "." + f;
    SeparatorPositions(g, '.', f, ',');
    assert ',' in v by { assert v[..|g|] == g; }
    assert '.' in v by { assert v[|g|] == '.'; }
    DropGrouping(g, '.', f, ',');
    assert NormalizeSeparators(v) == DigitsOf(g) + "." + f;
    ParsePointed(DigitsOf(g), f);
  }

  /** A number with only commas whose last group is not two characters
      long (e.g. "12,000"): the commas are thousands separators. */
  lemma CommaThousandsValue(v: string)
    requires DigitsAnd(v, ',') && ',' in v && DigitsOf(v) != [] && |Last(Split(v, ','))| != 2
    ensures NormalizeCurrencyString(v) == DigitsValue(DigitsOf(v)) as real
  {
    assert '.' !in v;
    RemoveAllLeavesDigits(v, ',');
    ParseDigits(DigitsOf(v));
  }

  /** Two digit runs around one separator use only digits and it. */
  lemma JoinedRuns(g: string, c: char, f: string)
    requires AllDigits(g) && AllDigits(f)
    ensures DigitsAnd(g + [c] + f, c)
  {
    var v := g + [c] + f;
    forall k | 0 <= k < |v| ensures IsDigit(v[k]) || v[k] == c {
      if k < |g| { assert v[k] == g[k]; } else if k > |g| { assert v[k] == f[k - |g| - 1]; }
    }
  }

  /** Only commas and a two-character last group: the comma becomes the point. */
  lemma CommaDecimalRewrite(g: string, f: string)
    requires AllDigits(g) && AllDigits(f) && |f| == 2
    ensures NormalizeSeparators(g + "," + f) == g + "." + f
  {
    var v := g + "," + f;
    SeparatorPositions(g, ',', f, '.');
    assert v[|g| + 1..] == f;
    SplitLast(v, ',');
    JoinedRuns(g, ',', f);
    assert '.' !in v;
    assert ',' in v by { assert v[|g|] == ','; }
    assert |Last(Split(v, ','))| == 2;
    CommaToPoint(g, f);
  }

  /** The value of text whose rewrite is `w`. */
  lemma NormalizedValue(v: string, w: string)
    requires NormalizeSeparators(v) == w && ParseDecimal(w).Some?
    ensures NormalizeCurrencyString(v) == ParseDecimal(w).value
  {
  }

  lemma Hundredths(a: real, b: real, p: nat)
    requires p == 100
    ensures a + b / p as real == a + b / 100.0
  {
  }

  /** Only commas and a two-character last group (e.g. ",50"): with a single
      comma it is the decimal point. */
  lemma CommaDecimalValue(g: string, f: string)
    requires AllDigits(g) && AllDigits(f) && |f| == 2
    ensures NormalizeCurrencyString(g + "," + f)
            == DigitsValue(g) as real + DigitsValue(f) as real / 100.0
  {
    CommaDecimalRewrite(g, f);
    ParsePointed(g, f);
    NormalizedValue(g + "," + f, g + "." + f);
    assert Pow10(|f|) == 100 by { assert Pow10(1) == 10; }
    Hundredths(DigitsValue(g) as real, DigitsValue(f) as real, Pow10(|f|));
  }

  /** Digits, one grouping character `o`, digits: the digits are the two runs. */
  lemma GroupedDigits(a: string, o: char, b: string)
    requires AllDigits(a) && AllDigits(b) && !IsDigit(o)
    ensures DigitsOf(a + [o] + b) == a + b
    ensures DigitsAnd(a + [o] + b, o) && o in a + [o] + b
  {
    assert DigitsOf(a + [o]) == a by {
      DigitsOfConcat(a, [o]);
      DigitsOfDigits(a);
      assert [o][1..] == [];
      assert DigitsOf([o]) == [];
      assert a + [] == a;
    }
    assert DigitsOf(a + [o] + b) == a + b by {
      DigitsOfConcat(a + [o], b);
      DigitsOfDigits(b);
    }
    JoinedRuns(a, o, b);
    assert (a + [o] + b)[|a|] == o;
  }

  /** Digits, a comma, and a last group of other than two digits: the
      comma is a thousands separator. */
  lemma CommaGroupValue(g: string, f: string)
    requires AllDigits(g) && AllDigits(f) && |f| != 2 && |g| + |f| >= 1
    ensures AllDigits(g + f)
    ensures NormalizeCurrencyString(g + "," + f) == DigitsValue(g + f) as real
  {
    CommaJointShape(g, f);
    CommaDropped(g, f);
    assert NormalizeSeparators(g + "," + f) == g + f;
    DigitsValueConcat(g, f);
    ParseDigits(g + f);
  }

  /** Where the separators of two digit runs around a comma are. */
  lemma CommaJointShape(g: string, f: string)
    requires AllDigits(g) && AllDigits(f)
    ensures ',' in g + "," + f && '.' !in g + "," + f
    ensures Last(Split(g + "," + f, ',')) == f
  {
    var v := g + "," + f;
    JoinedRuns(g, ',', f);
    SeparatorPositions(g, ',', f, '.');
    assert v[|g| + 1..] == f;
    SplitLast(v, ',');
    assert v[|g|] == ',';
    forall k | 0 <= k < |v| ensures v[k] != '.' { assert IsDigit(v[k]) || v[k] == ','; }
  }

  /** Deleting the comma between two digit runs joins them. */
  lemma CommaDropped(g: string, f: string)
    requires AllDigits(g) && AllDigits(f)
    ensures RemoveAll(g + "," + f, ',') == g + f
  {
    NoCommaInDigits(g);
    NoCommaInDigits(f);
    RemoveAllConcat(g + ",", f, ',');
    RemoveAllConcat(g, ",", ',');
    assert ","[1..] == [];
    assert RemoveAll(",", ',') == [];
    RemoveAllAbsent(g, ',');
    RemoveAllAbsent(f, ',');
    assert RemoveAll(g + ",", ',') == g by { assert g + [] == g; }
  }

  lemma NoCommaInDigits(d: string)
    requires AllDigits(d)
    ensures ',' !in d
  {
    forall k | 0 <= k < |d| ensures d[k] != ',' { assert IsDigit(d[k]); }
  }

  /** The examples the heuristic is written for: EU grouping. */
  lemma NormalizeEuropeanExample(v: string)
    requires v == "1.234,56"
    ensures NormalizeCurrencyString(v) == 1234.56
  {
    var a, b, f := "1", "234", "56";
    var g := a + "." + b;
    assert v == g + "," + f;
    GroupedDigits(a, '.', b);
    EuropeanValue(g, f);
    ValueOf1234Point56(a, b, f);
  }

  /** US grouping. */
  lemma NormalizeUsExample(v: string)
    requires v == "1,234.56"
    ensures NormalizeCurrencyString(v) == 1234.56
  {
    var a, b, f := "1", "234", "56";
    var g := a + "," + b;
    assert v == g + "." + f;
    GroupedDigits(a, ',', b);
    UsValue(g, f);
    ValueOf1234Point56(a, b, f);
  }

  lemma ValueOf1234Point56(a: string, b: string, f: string)
    requires a == "1" && b == "234" && f == "56"
    ensures AllDigits(a + b) && PointedValue(a + b, f) == 1234.56
  {
    DigitsValueConcat(a, b);
    assert DigitsValue(a) == 1 by { assert a[..0] == []; }
    assert DigitsValue(b) == 234 by {
      assert b[..2] == "23" && "23"[..1] == "2" && "2"[..0] == [];
      assert DigitsValue("2") == 2 && DigitsValue("23") == 23;
    }
    assert Pow10(|b|) == 1000 by { assert |b| == 3; }
    assert DigitsValue(f) == 56 by {
      assert f[..1] == "5" && "5"[..0] == [];
      assert DigitsValue("5") == 5;
    }
    assert Pow10(|f|) == 100 by { assert |f| == 2; }
  }

  /** A bare comma with two decimals. */
  lemma NormalizeCommaDecimalExample(v: string)
    requires v == ",50"
    ensures NormalizeCurrencyString(v) == 0.5
  {
    var g, f := "", "50";
    assert v == g + "," + f;
    assert DigitsValue(f) == 50 by { assert f[..1] == "5"; }
    CommaDecimalValue(g, f);
  }

  /** A comma as thousands separator. */
  lemma NormalizeThousandsExample(v: string)
    requires v == "12,000"
    ensures NormalizeCurrencyString(v) == 12000.0
  {
    var g, f := "12", "000";
    assert v == g + "," + f;
    CommaGroupValue(g, f);
    TwelveThousand(g, f);
  }

  lemma TwelveThousand(g: string, f: string)
    requires g == "12" && f == "000"
    ensures AllDigits(g + f) && DigitsValue(g + f) == 12000
  {
    DigitsValueConcat(g, f);
    assert DigitsValue(g) == 12 by {
      assert g[..1] == "1" && "1"[..0] == [];
      assert DigitsValue("1") == 1;
    }
    assert DigitsValue(f) == 0 by {
      assert f[..2] == "00" && "00"[..1] == "0" && "0"[..0] == [];
      assert DigitsValue("0") == 0 && DigitsValue("00") == 0;
    }
    assert Pow10(|f|) == 1000 by { assert |f| == 3; }
  }

  /** A single decimal after a comma is read as a thousands group: "1,5" is fifteen. */
  lemma NormalizeOneDecimalExample(v: string)
    requires v == "1,5"
    ensures NormalizeCurrencyString(v) == 15.0
  {
    var g, f := "1", "5";
    assert v == g + "," + f;
    CommaGroupValue(g, f);
    var d := g + f;
    assert d[..1] == g && d[1] == '5';
    assert DigitsValue(d) == 10 * DigitsValue(g) + DigitValue('5');
  }

  /** The minus sign never appears from nowhere: text without one is
      normalised to a value that is not negative. */
  lemma NormalizeNonNegative(v: string)
    requires '-' !in v
    ensures NormalizeCurrencyString(v) >= 0.0
  {
    var w := NormalizeSeparators(v);
    if ',' in v && '.' in v {
      if LastIndexOf(v, ',') > LastIndexOf(v, '.') {
        var u := RemoveAll(v, '.');
        assert '-' !in u by { assert multiset(u)['-'] == multiset(v)['-']; }
        NoMinusReplaced(u);
      } else {
        assert '-' !in w by { assert multiset(w)['-'] == multiset(v)['-']; }
      }
    } else if ',' in v {
      if |Last(Split(v, ','))| == 2 {
        NoMinusReplaced(v);
      } else {
        assert '-' !in w by { assert multiset(w)['-'] == multiset(v)['-']; }
      }
    }
    assert w != [] ==> w[0] != '-';
  }

  lemma NoMinusReplaced(u: string)
    requires '-' !in u
    ensures '-' !in ReplaceAll(u, ',', '.')
  {
    var r := ReplaceAll(u, ',', '.');
    forall k | 0 <= k < |r| ensures r[k] != '-' { assert r[k] == '.' || r[k] == u[k]; }
  }

  // ---------------------------------------------------------------------
  // Field extraction
  // ---------------------------------------------------------------------

  /** The patterns the extractor searches for, each case-insensitively:
      the vendor label, the IBAN label, the labelled invoice number, the
      bare `INV-yyyy-n` invoice number, the labelled date, any ISO date,
      the total label and the department label. */
  datatype Pattern =
    | VendorPattern
    | IbanPattern
    | InvoiceIdLabelled
    | InvoiceIdBare
    | DateLabelled
    | DateBare
    | AmountPattern
    | DeptPattern

  /** Every pattern captures its value in group 1, except the bare invoice
      number, which has no group at all. */
  predicate HasGroup(p: Pattern) {
    p != InvoiceIdBare
  }

  /** `re.search`: the first match of a pattern in the text, given as its
      first group's text (the whole match for a pattern without a group). */
  type Search = (Pattern, string) -> Option<string>

  /** The invoice-number patterns, in the order they are tried. */
  const InvoiceIdPatterns: seq<Pattern> := [InvoiceIdLabelled, InvoiceIdBare]

  /** The date patterns, in the order they are tried. */
  const DatePatterns: seq<Pattern> := [DateLabelled, DateBare]

  /** Why `parse` raises: no text in the PDF, `group(1)` on a pattern
      without groups, or the extracted fields failing the `Invoice`
      constraints. Each is re-raised as `RuntimeError`. */
  datatype ParseError = NoTextContent | NoSuchGroup | InvalidInvoice(errors: seq<FieldError>)

  /** The index of the first pattern in `ps` that matches. */
  function FirstMatch(search: Search, text: string, ps: seq<Pattern>): (r: Option<nat>)
    ensures r.Some? ==> r.value < |ps| && search(ps[r.value], text).Some?
    ensures r.Some? ==> forall j :: 0 <= j < r.value ==> search(ps[j], text).None?
    ensures r.None? <==> forall j :: 0 <= j < |ps| ==> search(ps[j], text).None?
  {
    if ps == [] then None
    else if search(ps[0], text).Some? then Some(0)
    else
      match FirstMatch(search, text, ps[1..])
      case None => None
      case Some(k) => Some(k + 1)
  }

  /** The invoice number in a capture: the part before the first `/`, stripped. */
  function IdFromCapture(g: string): (r: string)
    ensures '/' !in r
    ensures |r| <= |g|
  {
    var head := Split(g, '/')[0];
    StripKeepsAbsent(head, '/');
    SplitFirst(g, '/');
    Strip(head)
  }

  /** `_extract_invoice_id`: the first matching pattern decides; with no
      match the number is "UNKNOWN"; a match by the pattern without a
      group raises. */
  function InvoiceIdFrom(search: Search, text: string): (r: Result<string, ParseError>)
    ensures r.Failure? <==> FirstMatch(search, text, InvoiceIdPatterns) == Some(1)
    ensures r.Failure? ==> r.error == NoSuchGroup
    ensures search(InvoiceIdLabelled, text).Some? ==>
      r == Success(IdFromCapture(search(InvoiceIdLabelled, text).value))
    ensures search(InvoiceIdLabelled, text).None? && search(InvoiceIdBare, text).None? ==>
      r == Success("UNKNOWN")
  {
    match FirstMatch(search, text, InvoiceIdPatterns)
    case None => Success("UNKNOWN")
    case Some(i) =>
      var p := InvoiceIdPatterns[i];
      if HasGroup(p) then Success(IdFromCapture(search(p, text).value)) else Failure(NoSuchGroup)
  }

  /** The loop over the invoice-number patterns. */
  method ExtractInvoiceId(search: Search, text: string) returns (r: Result<string, ParseError>)
    ensures r == InvoiceIdFrom(search, text)
  {
    var patterns := InvoiceIdPatterns;
    for i := 0 to |patterns|
      invariant forall j :: 0 <= j < i ==> search(patterns[j], text).None?
    {
      var m := search(patterns[i], text);
      if m.Some? {
        if !HasGroup(patterns[i]) {
          return Failure(NoSuchGroup);
        }
        return Success(IdFromCapture(m.value));
      }
    }
    return Success("UNKNOWN");
  }

  /** What the invoice-number extraction evidently means to do: a pattern
      without a group yields its whole match. It never fails. */
  function IntendedInvoiceId(search: Search, text: string): (r: string)
    ensures search(InvoiceIdLabelled, text).Some? ==>
      r == IdFromCapture(search(InvoiceIdLabelled, text).value)
    ensures search(InvoiceIdLabelled, text).None? && search(InvoiceIdBare, text).Some? ==>
      r == IdFromCapture(search(InvoiceIdBare, text).value)
    ensures search(InvoiceIdLabelled, text).None? && search(InvoiceIdBare, text).None? ==>
      r == "UNKNOWN"
    ensures InvoiceIdFrom(search, text).Success? ==> InvoiceIdFrom(search, text).value == r
  {
    assert InvoiceIdPatterns[0] == InvoiceIdLabelled && InvoiceIdPatterns[1] == InvoiceIdBare;
    match FirstMatch(search, text, InvoiceIdPatterns)
    case None => "UNKNOWN"
    case Some(i) => IdFromCapture(search(InvoiceIdPatterns[i], text).value)
  }

  /** The defect: text whose only invoice number is a bare `INV-yyyy-n`
      makes the as-written extraction raise instead of returning it. */
  lemma BareInvoiceIdRaises(search: Search, text: string)
    requires search(InvoiceIdLabelled, text).None? && search(InvoiceIdBare, text).Some?
    ensures InvoiceIdFrom(search, text) == Failure(NoSuchGroup)
    ensures IntendedInvoiceId(search, text) == IdFromCapture(search(InvoiceIdBare, text).value)
  {
    assert FirstMatch(search, text, InvoiceIdPatterns) == Some(1);
  }

  /** The header words that are not a vendor name. */
  const IgnoredHeaders: set<string> := {"INVOICE", "BILL", "RECEIPT", "CREDIT NOTE"}

  /** A line that can serve as the vendor name: not blank once stripped,
      and not a header word in any letter case. */
  predicate IsVendorLine(line: string) {
    Strip(line) != [] && ToUpper(Strip(line)) !in IgnoredHeaders
  }

  /** No line before index `i` can serve as the vendor name. */
  predicate NoVendorLineBefore(lines: seq<string>, i: int)
    requires 0 <= i <= |lines|
  {
    forall j :: 0 <= j < i ==> !IsVendorLine(lines[j])
  }

  /** The first vendor line, stripped; "Unknown Vendor" when there is none. */
  function FirstVendorLine(lines: seq<string>): (r: string)
    ensures NoVendorLineBefore(lines, |lines|) ==> r == "Unknown Vendor"
    ensures forall i :: 0 <= i < |lines| && IsVendorLine(lines[i]) && NoVendorLineBefore(lines, i) ==>
              r == Strip(lines[i])
  {
    if lines == [] then "Unknown Vendor"
    else if IsVendorLine(lines[0]) then Strip(lines[0])
    else
      var r := FirstVendorLine(lines[1..]);
      assert forall i :: 1 <= i < |lines| ==> lines[1..][i - 1] == lines[i];
      r
  }

  /** `_extract_vendor`: the labelled vendor, stripped, else the first line
      that is not blank and not a header word. */
  function VendorFrom(search: Search, text: string): (r: string)
    ensures search(VendorPattern, text).Some? ==> r == Strip(search(VendorPattern, text).value)
    ensures search(VendorPattern, text).None? ==> r == FirstVendorLine(Split(text, '\n'))
  {
    match search(VendorPattern, text)
    case Some(g) => Strip(g)
    case None => FirstVendorLine(Split(text, '\n'))
  }

  /** The labelled search, then the loop over the lines. */
  method ExtractVendor(search: Search, text: string) returns (r: string)
    ensures r == VendorFrom(search, text)
  {
    var m := search(VendorPattern, text);
    if m.Some? {
      return Strip(m.value);
    }
    var lines := Split(text, '\n');
    for i := 0 to |lines|
      invariant FirstVendorLine(lines[i..]) == FirstVendorLine(lines)
    {
      assert lines[i..][0] == lines[i];
      if IsVendorLine(lines[i]) {
        return Strip(lines[i]);
      }
      assert lines[i..][1..] == lines[i + 1..];
    }
    assert lines[|lines|..] == [];
    return "Unknown Vendor";
  }

  /** `_extract_iban`: the capture with all whitespace removed, or "UNKNOWN". */
  function IbanFrom(search: Search, text: string): (r: string)
    ensures search(IbanPattern, text).Some? ==>
      r == RemoveSpaces(search(IbanPattern, text).value) && forall k :: 0 <= k < |r| ==> !IsSpace(r[k])
    ensures search(IbanPattern, text).None? ==> r == "UNKNOWN"
  {
    match search(IbanPattern, text)
    case Some(g) =>
      RemoveSpacesStrip(g);
      RemoveSpaces(Strip(g))
    case None => "UNKNOWN"
  }

  /** The date one pattern yields: its match read as `%Y-%m-%d`, or nothing. */
  function DateAt(search: Search, text: string, p: Pattern): (r: Option<Date>)
    ensures r.Some? ==> ValidDate(r.value)
    ensures r.Some? ==> search(p, text).Some? && IsoFormat(r.value) == Strip(search(p, text).value)
  {
    match search(p, text)
    case None => None
    case Some(g) =>
      var d := ParseIsoDate(Strip(g));
      if d.Some? then FormatParseIsoDate(Strip(g)); d else d
  }

  /** No pattern before index `i` yields a date. */
  predicate NoDateBefore(search: Search, text: string, ps: seq<Pattern>, i: int)
    requires 0 <= i <= |ps|
  {
    forall j :: 0 <= j < i ==> DateAt(search, text, ps[j]).None?
  }

  /** The first pattern whose match is a real date decides; a match that
      is not one is skipped. */
  function FirstDate(search: Search, text: string, ps: seq<Pattern>): (r: Option<Date>)
    ensures r.Some? ==> ValidDate(r.value)
    ensures r.None? <==> NoDateBefore(search, text, ps, |ps|)
    ensures forall i :: 0 <= i < |ps| && DateAt(search, text, ps[i]).Some? && NoDateBefore(search, text, ps, i) ==>
              r == DateAt(search, text, ps[i])
  {
    if ps == [] then None
    else
      var d := DateAt(search, text, ps[0]);
      if d.Some? then d
      else
        var r := FirstDate(search, text, ps[1..]);
        assert forall i :: 1 <= i <= |ps| ==>
          (NoDateBefore(search, text, ps, i) <==> NoDateBefore(search, text, ps[1..], i - 1));
        r
  }

  /** `_extract_date`. */
  function DateFrom(search: Search, text: string): (r: Option<Date>)
    ensures r.Some? ==> ValidDate(r.value)
  {
    FirstDate(search, text, DatePatterns)
  }

  /** The loop over the date patterns, skipping matches that are not dates. */
  method ExtractDate(search: Search, text: string) returns (r: Option<Date>)
    ensures r == DateFrom(search, text)
  {
    var patterns := DatePatterns;
    for i := 0 to |patterns|
      invariant FirstDate(search, text, patterns[i..]) == FirstDate(search, text, patterns)
    {
      var m := search(patterns[i], text);
      if m.Some? {
        var d := ParseIsoDate(Strip(m.value));
        if d.Some? {
          return d;
        }
      }
      assert patterns[i..][1..] == patterns[i + 1..];
    }
    return None;
  }

  /** A labelled date is preferred; an unparsable one falls through to the
      first ISO date anywhere in the text. */
  lemma DatePreference(search: Search, text: string)
    ensures DateAt(search, text, DateLabelled).Some? ==> DateFrom(search, text) == DateAt(search, text, DateLabelled)
    ensures DateAt(search, text, DateLabelled).None? ==> DateFrom(search, text) == DateAt(search, text, DateBare)
  {
    assert DatePatterns[0] == DateLabelled && DatePatterns[1] == DateBare;
    assert NoDateBefore(search, text, DatePatterns, 0);
  }

  /** `_extract_amount`: the normalised capture, or 0.0. */
  function AmountFrom(search: Search, text: string): (r: real)
    ensures search(AmountPattern, text).Some? ==> r == NormalizeCurrencyString(Strip(search(AmountPattern, text).value))
    ensures search(AmountPattern, text).None? ==> r == 0.0
  {
    match search(AmountPattern, text)
    case Some(g) => NormalizeCurrencyString(Strip(g))
    case None => 0.0
  }

  /** A capture without a minus sign (a run of digits, points and commas)
      never gives a negative amount. */
  lemma AmountNonNegative(search: Search, text: string)
    requires search(AmountPattern, text).Some? ==> '-' !in search(AmountPattern, text).value
    ensures AmountFrom(search, text) >= 0.0
  {
    if search(AmountPattern, text).Some? {
      var g := search(AmountPattern, text).value;
      StripKeepsAbsent(g, '-');
      NormalizeNonNegative(Strip(g));
    }
  }

  /** `_extract_department`: the stripped capture, or "Unknown". */
  function DepartmentFrom(search: Search, text: string): (r: string)
    ensures search(DeptPattern, text).Some? ==> r == Strip(search(DeptPattern, text).value)
    ensures search(DeptPattern, text).None? ==> r == "Unknown"
  {
    match search(DeptPattern, text)
    case Some(g) => Strip(g)
    case None => "Unknown"
  }

  /** The texts of the pages that have any. */
  function NonEmptyPages(pages: seq<string>): (r: seq<string>)
    ensures forall k :: 0 <= k < |r| ==> r[k] != [] && r[k] in pages
    ensures |r| <= |pages|
    ensures (forall k :: 0 <= k < |pages| ==> pages[k] != []) ==> r == pages
  {
    if pages == [] then []
    else
      var init := pages[..|pages| - 1];
      var last := pages[|pages| - 1];
      assert forall k :: 0 <= k < |init| ==> init[k] == pages[k];
      assert pages == init + [last];
      NonEmptyPages(init) + (if last != [] then [last] else [])
  }

  /** `_extract_text_from_pdf` once the pages' texts are known: the
      non-empty ones joined by newlines, stripped. */
  function PdfText(pages: seq<string>): string {
    Strip(Join(NonEmptyPages(pages), '\n'))
  }

  /** The page loop. */
  method ExtractText(pages: seq<string>) returns (r: string)
    ensures r == PdfText(pages)
  {
    var content: seq<string> := [];
    for i := 0 to |pages|
      invariant content == NonEmptyPages(pages[..i])
    {
      assert pages[..i + 1][..i] == pages[..i];
      if pages[i] != [] {
        content := content + [pages[i]];
      }
    }
    assert pages[..|pages|] == pages;
    return Strip(Join(content, '\n'));
  }

  /** `parse` on the text of a PDF: every field extracted, then the
      `Invoice` constraints. */
  function ParseText(search: Search, text: string, filePath: string): (r: Result<Invoice, ParseError>)
    ensures r.Success? ==> r.value.Valid()
  {
    if text == [] then Failure(NoTextContent)
    else
      var invoiceId :- InvoiceIdFrom(search, text);
      match MakeInvoice(invoiceId, VendorFrom(search, text), IbanFrom(search, text), DateFrom(search, text),
                        AmountFrom(search, text), "EUR", DepartmentFrom(search, text), [], Some(filePath))
      case Success(invoice) => Success(invoice)
      case Failure(errors) => Failure(InvalidInvoice(errors))
  }

  /** `parse` with the intended invoice-number extraction: it never fails
      for want of a group, and wherever the as-written `parse` succeeds it
      returns the same invoice. */
  function IntendedParseText(search: Search, text: string, filePath: string): (r: Result<Invoice, ParseError>)
    ensures r.Success? ==> r.value.Valid()
    ensures r.Failure? ==> r.error != NoSuchGroup
    ensures ParseText(search, text, filePath).Success? ==> r == ParseText(search, text, filePath)
  {
    if text == [] then Failure(NoTextContent)
    else
      match MakeInvoice(IntendedInvoiceId(search, text), VendorFrom(search, text), IbanFrom(search, text),
                        DateFrom(search, text), AmountFrom(search, text), "EUR", DepartmentFrom(search, text),
                        [], Some(filePath))
      case Success(invoice) => Success(invoice)
      case Failure(errors) => Failure(InvalidInvoice(errors))
  }

  /** With the intended extraction a bare `INV-yyyy-n` number is the
      invoice's number, where the as-written `parse` raises. */
  lemma IntendedParseBareId(search: Search, text: string, filePath: string)
    requires text != [] && AmountFrom(search, text) > 0.0
    requires search(InvoiceIdLabelled, text).None? && search(InvoiceIdBare, text).Some?
    ensures ParseText(search, text, filePath) == Failure(NoSuchGroup)
    ensures IntendedParseText(search, text, filePath).Success?
    ensures IntendedParseText(search, text, filePath).value.invoiceId == IdFromCapture(search(InvoiceIdBare, text).value)
  {
    BareInvoiceIdRaises(search, text);
  }

  /** `parse`: the page texts stand for what `pdfplumber` extracts from the file. */
  method Parse(search: Search, pages: seq<string>, filePath: string) returns (r: Result<Invoice, ParseError>)
    ensures r == ParseText(search, PdfText(pages), filePath)
  {
    var rawText := ExtractText(pages);
    if rawText == [] {
      return Failure(NoTextContent);
    }
    var invoiceId :- ExtractInvoiceId(search, rawText);
    var vendorName := ExtractVendor(search, rawText);
    var iban := IbanFrom(search, rawText);
    var date := ExtractDate(search, rawText);
    var amount := AmountFrom(search, rawText);
    var department := DepartmentFrom(search, rawText);
    var invoice := MakeInvoice(invoiceId, vendorName, iban, date, amount, "EUR", department, [], Some(filePath));
    match invoice {
      case Success(v) => return Success(v);
      case Failure(errors) => return Failure(InvalidInvoice(errors));
    }
  }

  /** A parsed invoice carries exactly the extracted fields, in euros, with
      no line items and the file it came from. */
  lemma ParseFields(search: Search, text: string, filePath: string)
    requires ParseText(search, text, filePath).Success?
    ensures var v := ParseText(search, text, filePath).value;
      && InvoiceIdFrom(search, text) == Success(v.invoiceId)
      && v.vendorName == VendorFrom(search, text)
      && v.iban == IbanFrom(search, text)
      && v.date == DateFrom(search, text)
      && v.amount == AmountFrom(search, text) && v.amount > 0.0
      && v.currency == "EUR"
      && v.department == DepartmentFrom(search, text)
      && v.items == [] && v.filePath == Some(filePath)
  {
    assert ToUpper("EUR") == "EUR";
  }

  /** An empty PDF is refused. */
  lemma ParseEmptyText(search: Search, filePath: string)
    ensures ParseText(search, [], filePath) == Failure(NoTextContent)
  {
  }

  /** Text with no total line yields the 0.0 sentinel, which the invoice
      constraints refuse: such a PDF never parses. */
  lemma ParseNeedsAmount(search: Search, text: string, filePath: string)
    requires text != [] && InvoiceIdFrom(search, text).Success?
    requires AmountFrom(search, text) <= 0.0
    ensures ParseText(search, text, filePath) == Failure(InvalidInvoice([AmountNotPositive]))
  {
    MakeInvoiceAmountOnly(InvoiceIdFrom(search, text).value, VendorFrom(search, text), IbanFrom(search, text),
                          DateFrom(search, text), AmountFrom(search, text), "EUR", DepartmentFrom(search, text),
                          [], Some(filePath));
  }

  /** The invoice-number failure comes first, before any field constraint. */
  lemma ParseBareInvoiceId(search: Search, text: string, filePath: string)
    requires text != []
    requires search(InvoiceIdLabelled, text).None? && search(InvoiceIdBare, text).Some?
    ensures ParseText(search, text, filePath) == Failure(NoSuchGroup)
  {
    BareInvoiceIdRaises(search, text);
  }
}
