/** The domain records every other part relies on: invoices, line items,
    check outcomes and the aggregate processing result, with the field
    constraints their constructors enforce. Construction that Python
    rejects with a validation error is a `Failure` listing the offending
    fields, in declaration order. */
module Models {
  import opened Wrappers
  import opened Text
  import opened Dates

  /** The three vendor risk levels and the text each stands for. */
  datatype RiskLevel = Low | Medium | High {
    function Value(): (v: string)
      ensures |v| >= 3
    {
      match this
      case Low => "Low"
      case Medium => "Medium"
      case High => "High"
    }
  }

  /** Three levels, three different texts. */
  lemma RiskLevelValueInjective(a: RiskLevel, b: RiskLevel)
    requires a.Value() == b.Value()
    ensures a == b
  {
  }

  /** The outcome of one compliance check: exactly these three. */
  datatype CheckStatus = PASS | FAIL | WARNING

  /** One compliance check's result (its wall-clock timestamp is not kept). */
  datatype CheckResult = CheckResult(checkName: string, status: CheckStatus, message: string)

  /** The overall decision of a compliance run. */
  datatype FinalStatus = APPROVED | DRAFT | REJECTED

  /** The fields whose constraints a constructor can reject. */
  datatype FieldError =
    | AmountNotPositive        // Invoice.amount must be > 0
    | CurrencyNotThreeLetters  // Invoice.currency must have length 3
    | QuantityNotPositive      // LineItem.quantity must be > 0
    | UnitPriceNegative        // LineItem.unit_price must be >= 0
    | LineTotalNegative        // LineItem.total must be >= 0
    | RiskScoreOutOfRange      // ProcessingResult.risk_score must lie in [0, 100]

  datatype LineItem = LineItem(description: string, quantity: int, unitPrice: real, total: real) {
    predicate Valid() {
      quantity > 0 && unitPrice >= 0.0 && total >= 0.0
    }
  }

  /** `LineItem(...)`: the item, or the failing fields. */
  function MakeLineItem(description: string, quantity: int, unitPrice: real, total: real)
    : (r: Result<LineItem, seq<FieldError>>)
    ensures r.Success? <==> quantity > 0 && unitPrice >= 0.0 && total >= 0.0
    ensures r.Success? ==> r.value.Valid() && r.value == LineItem(description, quantity, unitPrice, total)
    ensures r.Failure? ==> (QuantityNotPositive in r.error <==> quantity <= 0)
    ensures r.Failure? ==> (UnitPriceNegative in r.error <==> unitPrice < 0.0)
    ensures r.Failure? ==> (LineTotalNegative in r.error <==> total < 0.0)
  {
    var errors := (if quantity > 0 then [] else [QuantityNotPositive])
                + (if unitPrice >= 0.0 then [] else [UnitPriceNegative])
                + (if total >= 0.0 then [] else [LineTotalNegative]);
    if errors == [] then Success(LineItem(description, quantity, unitPrice, total)) else Failure(errors)
  }

  /** Every letter of `s` is already upper case. */
  predicate IsUpperCase(s: string) {
    ToUpper(s) == s
  }

  lemma {:induction false} ToUpperIdempotent(s: string)
    ensures IsUpperCase(ToUpper(s))
  {
    var u := ToUpper(s);
    assert forall k :: 0 <= k < |u| ==> ToUpper(u)[k] == u[k];
  }

  datatype Invoice = Invoice(
    invoiceId: string,
    vendorName: string,
    iban: string,
    date: Option<Date>,
    amount: real,
    currency: string,
    department: string,
    items: seq<LineItem>,
    filePath: Option<string>)
  {
    /** What a constructed invoice always satisfies. */
    predicate Valid() {
      && amount > 0.0
      && |currency| == 3 && IsUpperCase(currency)
      && (date.Some? ==> ValidDate(date.value))
      && forall k :: 0 <= k < |items| ==> items[k].Valid()
    }
  }

  /** The `currency` validator: a code of length 3, stored upper-cased. */
  function ValidateCurrency(v: string): (r: Result<string, FieldError>)
    ensures r.Success? <==> |v| == 3
    ensures r.Success? ==> |r.value| == 3 && IsUpperCase(r.value)
    ensures r.Success? ==> forall k :: 0 <= k < 3 ==> LowerChar(r.value[k]) == LowerChar(v[k])
    ensures r.Failure? ==> r.error == CurrencyNotThreeLetters
  {
    if |v| != 3 then Failure(CurrencyNotThreeLetters)
    else
      ToUpperIdempotent(v);
      Success(ToUpper(v))
  }

  /** `Invoice(...)` with every field given: the invoice, or the fields
      whose constraints fail. The date and the items are values the
      caller already holds, so they are valid by construction. */
  function MakeInvoice(
    invoiceId: string, vendorName: string, iban: string, date: Option<Date>, amount: real,
    currency: string, department: string, items: seq<LineItem>, filePath: Option<string>)
    : (r: Result<Invoice, seq<FieldError>>)
    requires date.Some? ==> ValidDate(date.value)
    requires forall k :: 0 <= k < |items| ==> items[k].Valid()
    ensures r.Success? <==> amount > 0.0 && |currency| == 3
    ensures r.Success? ==> r.value.Valid()
    ensures r.Success? ==> r.value == Invoice(invoiceId, vendorName, iban, date, amount,
                                              ToUpper(currency), department, items, filePath)
    ensures r.Failure? ==> (AmountNotPositive in r.error <==> amount <= 0.0)
    ensures r.Failure? ==> (CurrencyNotThreeLetters in r.error <==> |currency| != 3)
  {
    var cur := ValidateCurrency(currency);
    var errors := (if amount > 0.0 then [] else [AmountNotPositive])
                + (if cur.Success? then [] else [cur.error]);
    if errors != [] then Failure(errors)
    else Success(Invoice(invoiceId, vendorName, iban, date, amount, cur.value, department, items, filePath))
  }

  /** With a good currency code, a non-positive amount is the only complaint. */
  lemma MakeInvoiceAmountOnly(
    invoiceId: string, vendorName: string, iban: string, date: Option<Date>, amount: real,
    currency: string, department: string, items: seq<LineItem>, filePath: Option<string>)
    requires date.Some? ==> ValidDate(date.value)
    requires forall k :: 0 <= k < |items| ==> items[k].Valid()
    requires amount <= 0.0 && |currency| == 3
    ensures MakeInvoice(invoiceId, vendorName, iban, date, amount, currency, department, items, filePath)
            == Failure([AmountNotPositive])
  {
    assert ValidateCurrency(currency).Success?;
    var none: seq<FieldError> := [];
    assert [AmountNotPositive] + none == [AmountNotPositive];
  }

  /** `Invoice(invoice_id=..., vendor_name=..., iban=..., amount=...)`, the
      other fields taking their declared defaults. */
  function MakeInvoiceWithDefaults(invoiceId: string, vendorName: string, iban: string, amount: real)
    : Result<Invoice, seq<FieldError>>
  {
    MakeInvoice(invoiceId, vendorName, iban, None, amount, "EUR", "Unknown", [], None)
  }

  /** The defaults: currency EUR, department "Unknown", no date, no items,
      no file; the only possible failure is a non-positive amount. */
  lemma InvoiceDefaults(invoiceId: string, vendorName: string, iban: string, amount: real)
    ensures var r := MakeInvoiceWithDefaults(invoiceId, vendorName, iban, amount);
      && (r.Success? <==> amount > 0.0)
      && (r.Success? ==> r.value.currency == "EUR" && r.value.department == "Unknown"
                         && r.value.date == None && r.value.items == [] && r.value.filePath == None)
      && (r.Failure? ==> r.error == [AmountNotPositive])
  {
    assert ToUpper("EUR") == "EUR";
  }

  /** A lower-case code is accepted and stored in capitals. */
  lemma CurrencyUpperCased()
    ensures ValidateCurrency("usd") == Success("USD")
  {
    assert ToUpper("usd") == "USD";
  }

  datatype ProcessingResult = ProcessingResult(
    invoice: Invoice, checks: seq<CheckResult>, finalStatus: FinalStatus, riskScore: int)
  {
    predicate Valid() {
      0 <= riskScore <= 100
    }
  }

  /** `ProcessingResult(...)`: rejected unless the risk score is in [0, 100]. */
  function MakeProcessingResult(invoice: Invoice, checks: seq<CheckResult>, finalStatus: FinalStatus, riskScore: int)
    : (r: Result<ProcessingResult, seq<FieldError>>)
    ensures r.Success? <==> 0 <= riskScore <= 100
    ensures r.Success? ==> r.value.Valid() && r.value == ProcessingResult(invoice, checks, finalStatus, riskScore)
    ensures r.Failure? ==> r.error == [RiskScoreOutOfRange]
  {
    if 0 <= riskScore <= 100 then Success(ProcessingResult(invoice, checks, finalStatus, riskScore))
    else Failure([RiskScoreOutOfRange])
  }
}
