/** The exact-arithmetic validator (`FinancialCalculator`): conversion of
    inputs to decimals, half-up rounding of tax to cents, and the check
    that an invoice's subtotal, tax and total agree with each other and
    with the tax rate. Decimal values are exact rationals here. */
module FinancialBody {
  import opened Wrappers
  import opened Text
  import opened Decimals

  /** What the validator may be handed: a number (int, float or Decimal,
      whose value a float's shortest rendering reproduces) or text that
      must be a decimal literal. */
  datatype MoneyInput = Numeric(value: real) | Literal(text: string)

  /** The message the conversion raises for `v`. */
  function InvalidInputMessage(text: string): string {
    "Invalid financial input: " + text
  }

  /** `_to_decimal`: numbers convert as they are; text converts when it is
      a decimal literal and otherwise raises `ValueError` with the message
      naming the input. */
  function ToDecimal(v: MoneyInput): (r: Result<real, string>)
    ensures v.Numeric? ==> r == Success(v.value)
    ensures v.Literal? ==> (r.Success? <==> ParseDecimal(v.text).Some?)
    ensures v.Literal? && r.Success? ==> r.value == ParseDecimal(v.text).value
    ensures r.Failure? ==> v.Literal? && r.error == InvalidInputMessage(v.text)
  {
    match v
    case Numeric(x) => Success(x)
    case Literal(s) =>
      match ParseDecimal(s)
      case Some(x) => Success(x)
      case None => Failure(InvalidInputMessage(s))
  }

  /** The canonical rendering of a whole amount converts back to it. */
  lemma ToDecimalNatRoundTrip(n: nat)
    ensures ToDecimal(Literal(NatToDigits(n))) == Success(n as real)
  {
    ParseNatToDigits(n);
  }

  /** Text with two decimal points is refused with the message naming it. */
  lemma ToDecimalRejectsTwoPoints(s: string)
    requires '.' in s && IndexOf(s, '.') < LastIndexOf(s, '.')
    ensures ToDecimal(Literal(s)) == Failure(InvalidInputMessage(s))
  {
    ParseRejectsTwoPoints(s);
  }

  /** `0.1 + 0.2` is exactly `0.3` once both are decimals. */
  lemma PointOnePlusPointTwo()
    ensures ToDecimal(Literal("0.1")).Success? && ToDecimal(Literal("0.2")).Success?
    ensures ToDecimal(Literal("0.1")).value + ToDecimal(Literal("0.2")).value == 0.3
  {
    OneTenthDigit("0.1", '1');
    OneTenthDigit("0.2", '2');
  }

  /** "0.d" is d tenths. */
  lemma OneTenthDigit(s: string, d: char)
    requires IsDigit(d) && s == "0." + [d]
    ensures ParseDecimal(s) == Some(DigitValue(d) as real / 10.0)
  {
    var f := [d];
    assert s == "0" + "." + f;
    ParsePointed("0", f);
    assert DigitsValue("0") == 0 by { assert "0"[..0] == []; }
    assert DigitsValue(f) == DigitValue(d) by { assert f[..0] == []; }
    assert Pow10(|f|) == 10;
  }

  /** `calculate_tax`: `amount * rate` quantized to cents, halves away from zero. */
  function CalculateTax(amount: real, rate: real): (r: real)
    ensures IsHalfUpRounding(amount * rate, r)
  {
    RoundHalfUpCents(amount * rate)
  }

  /** Any whole number of cents within half a cent of the product (and
      above it on a tie) is the tax: the rounding has a single answer. */
  lemma CalculateTaxCharacterised(amount: real, rate: real, t: real)
    requires IsHalfUpRounding(amount * rate, t)
    ensures CalculateTax(amount, rate) == t
  {
    HalfUpRoundingUnique(amount * rate, t);
  }

  /** 10.125 at 21% is 2.12625, which rounds to 2.13. */
  lemma TaxRoundsHalfUp()
    ensures CalculateTax(10.125, 0.21) == 2.13
  {
    assert IsHalfUpRounding(10.125 * 0.21, 2.13) by {
      assert 2.13 * 100.0 == 213.0;
    }
    CalculateTaxCharacterised(10.125, 0.21, 2.13);
  }

  /** A tie at half a cent goes up: 0.125 becomes 0.13. */
  lemma TaxTieGoesUp()
    ensures CalculateTax(0.125, 1.0) == 0.13
  {
    assert IsHalfUpRounding(0.125, 0.13) by {
      assert 0.13 * 100.0 == 13.0;
    }
    CalculateTaxCharacterised(0.125, 1.0, 0.13);
  }

  /** The tax may differ from the rate's tax by this much. */
  const TaxTolerance: real := 0.05

  const ArithmeticErrorReason: string := "Arithmetic Error: Subtotal + Tax != Total."
  const TaxLogicErrorReason: string := "Tax Logic Error: Tax amount doesn't match rate"
  const ValidatedReason: string := "Math Validated"

  /** The debug dictionary that accompanies the verdict. */
  datatype MathDetails =
    | NoDetails
    | TotalMismatch(expectedTotal: real, claimedTotal: real, diff: real)
    | TaxMismatch(expectedTax: real, claimedTax: real, diff: real)

  /** `(is_valid, reason, details)`. */
  datatype MathCheck = MathCheck(isValid: bool, reason: string, details: MathDetails)

  /** The four values after conversion. */
  datatype Converted = Converted(subtotal: real, tax: real, total: real, rate: real)

  /** The four conversions, in argument order; the first that raises
      decides the message. */
  function ConvertAll(subtotal: MoneyInput, taxAmount: MoneyInput, total: MoneyInput, taxRate: MoneyInput)
    : (r: Result<Converted, string>)
    ensures r.Success? <==> ToDecimal(subtotal).Success? && ToDecimal(taxAmount).Success?
                            && ToDecimal(total).Success? && ToDecimal(taxRate).Success?
    ensures r.Success? ==> r.value == Converted(ToDecimal(subtotal).value, ToDecimal(taxAmount).value,
                                                ToDecimal(total).value, ToDecimal(taxRate).value)
    ensures r.Failure? ==> r.error == (if ToDecimal(subtotal).Failure? then ToDecimal(subtotal).error
                                       else if ToDecimal(taxAmount).Failure? then ToDecimal(taxAmount).error
                                       else if ToDecimal(total).Failure? then ToDecimal(total).error
                                       else ToDecimal(taxRate).error)
  {
    var s :- ToDecimal(subtotal);
    var t :- ToDecimal(taxAmount);
    var g :- ToDecimal(total);
    var q :- ToDecimal(taxRate);
    Success(Converted(s, t, g, q))
  }

  /** The invoice's figures add up and its tax matches the rate within the tolerance. */
  predicate MathHolds(c: Converted) {
    c.subtotal + c.tax == c.total && Abs(CalculateTax(c.subtotal, c.rate) - c.tax) <= TaxTolerance
  }

  /** `validate_invoice_math`. */
  function ValidateInvoiceMath(subtotal: MoneyInput, taxAmount: MoneyInput, total: MoneyInput, taxRate: MoneyInput)
    : (r: MathCheck)
    // Valid exactly when every input converts and the figures hold.
    ensures r.isValid <==> ConvertAll(subtotal, taxAmount, total, taxRate).Success?
                           && MathHolds(ConvertAll(subtotal, taxAmount, total, taxRate).value)
    ensures r.isValid ==> r.reason == ValidatedReason && r.details == NoDetails
    // A conversion failure carries its own message and no details.
    ensures ConvertAll(subtotal, taxAmount, total, taxRate).Failure? ==>
      r == MathCheck(false, ConvertAll(subtotal, taxAmount, total, taxRate).error, NoDetails)
    // The arithmetic check comes first: its details are the sum, the claim and their difference.
    ensures r.details.TotalMismatch? <==>
      var c := ConvertAll(subtotal, taxAmount, total, taxRate);
      c.Success? && c.value.subtotal + c.value.tax != c.value.total
    ensures r.details.TotalMismatch? ==>
      var c := ConvertAll(subtotal, taxAmount, total, taxRate).value;
      && !r.isValid && r.reason == ArithmeticErrorReason
      && r.details == TotalMismatch(c.subtotal + c.tax, c.total, c.total - (c.subtotal + c.tax))
    // The tax check only runs when the sum agrees.
    ensures r.details.TaxMismatch? <==>
      var c := ConvertAll(subtotal, taxAmount, total, taxRate);
      c.Success? && c.value.subtotal + c.value.tax == c.value.total
      && Abs(CalculateTax(c.value.subtotal, c.value.rate) - c.value.tax) > TaxTolerance
    ensures r.details.TaxMismatch? ==>
      var c := ConvertAll(subtotal, taxAmount, total, taxRate).value;
      var expected := CalculateTax(c.subtotal, c.rate);
      && !r.isValid && r.reason == TaxLogicErrorReason
      && r.details == TaxMismatch(expected, c.tax, Abs(expected - c.tax))
  {
    match ConvertAll(subtotal, taxAmount, total, taxRate)
    case Failure(message) => MathCheck(false, message, NoDetails)
    case Success(c) =>
      var calculatedTotal := c.subtotal + c.tax;
      if calculatedTotal != c.total then
        MathCheck(false, ArithmeticErrorReason,
                  TotalMismatch(calculatedTotal, c.total, c.total - calculatedTotal))
      else
        var expectedTax := CalculateTax(c.subtotal, c.rate);
        var taxDiff := Abs(expectedTax - c.tax);
        if taxDiff > TaxTolerance then
          MathCheck(false, TaxLogicErrorReason, TaxMismatch(expectedTax, c.tax, taxDiff))
        else
          MathCheck(true, ValidatedReason, NoDetails)
  }

  /** The call with the default rate of 21%. */
  function ValidateAtDefaultRate(subtotal: MoneyInput, taxAmount: MoneyInput, total: MoneyInput): MathCheck {
    ValidateInvoiceMath(subtotal, taxAmount, total, Numeric(0.21))
  }

  /** Numbers never fail to convert, so on numbers the verdict is exactly
      the two figure checks. */
  lemma NumericVerdict(subtotal: real, tax: real, total: real, rate: real)
    ensures ValidateInvoiceMath(Numeric(subtotal), Numeric(tax), Numeric(total), Numeric(rate)).isValid
            <==> subtotal + tax == total && Abs(CalculateTax(subtotal, rate) - tax) <= TaxTolerance
  {
  }

  /** 100 + 21 = 121 at 21% is validated. */
  lemma GoldenPath()
    ensures ValidateAtDefaultRate(Numeric(100.0), Numeric(21.0), Numeric(121.0))
            == MathCheck(true, ValidatedReason, NoDetails)
  {
    assert CalculateTax(100.0, 0.21) == 21.0 by {
      CalculateTaxCharacterised(100.0, 0.21, 21.0);
    }
  }

  /** 100 + 21 claimed as 125 is an arithmetic error with a difference of 4. */
  lemma TotalMismatchDiff()
    ensures var r := ValidateAtDefaultRate(Numeric(100.0), Numeric(21.0), Numeric(125.0));
      !r.isValid && r.reason == ArithmeticErrorReason && r.details.TotalMismatch? && r.details.diff == 4.0
  {
  }

  /** 100 + 10 = 110 adds up, but 10 is not 21% of 100. */
  lemma TaxLogicFailure()
    ensures var r := ValidateAtDefaultRate(Numeric(100.0), Numeric(10.0), Numeric(110.0));
      !r.isValid && r.reason == TaxLogicErrorReason && r.details == TaxMismatch(21.0, 10.0, 11.0)
  {
    assert CalculateTax(100.0, 0.21) == 21.0 by {
      CalculateTaxCharacterised(100.0, 0.21, 21.0);
    }
  }

  /** The tolerance is inclusive: a tax five cents off still passes. */
  lemma ToleranceInclusive()
    ensures ValidateAtDefaultRate(Numeric(100.0), Numeric(21.05), Numeric(121.05)).isValid
    ensures !ValidateAtDefaultRate(Numeric(100.0), Numeric(21.06), Numeric(121.06)).isValid
  {
    assert CalculateTax(100.0, 0.21) == 21.0 by {
      CalculateTaxCharacterised(100.0, 0.21, 21.0);
    }
  }

  /** Text that is not a number is reported by the first bad argument. */
  lemma FirstBadInputReported()
    ensures ValidateAtDefaultRate(Numeric(100.0), Literal("abc"), Literal("1..2"))
            == MathCheck(false, InvalidInputMessage("abc"), NoDetails)
  {
    assert ParseDecimal("abc").None? by {
      assert IndexOf("abc", '.') == -1;
      assert !IsDigit("abc"[0]);
    }
  }
}
