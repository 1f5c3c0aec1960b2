# Invoice processing core, modelled in Dafny

This project models the decision logic of an invoice-processing assistant. It covers five parts.

* **The compliance engine** (`ComplianceService`). It runs four checks on an invoice against three reference tables: vendors, budgets and contracts. The checks are financial routing (IBAN), vendor risk, budget and contract coverage. Their PASS / FAIL / WARNING outcomes fold into APPROVED, DRAFT or REJECTED, with a risk score of 0, 50 or 100. Only an approved invoice is posted to the ERP.
* **The workflow engine** of the demo agent (`WorkflowEngine`). Every invoice gets a context in a registry. A step moves it from PENDING through PROCESSING. A high-risk vendor or an amount over 10,000 pauses it for a human, and otherwise it is approved. A human's signal then approves or rejects a paused workflow.
* **The exact-decimal validator** (`FinancialCalculator`). It converts its inputs to decimals and checks that subtotal plus tax equals the total exactly. It also checks that the tax lies within 0.05 of the subtotal times the rate, rounded to cents with ties away from zero.
* **Field extraction** from invoice text (`InvoiceProcessor`). Every field has an ordered list of patterns, the first match wins, and a sentinel stands in when nothing matches. The extractor also guesses whether `1.234,56` or `1,234.56` notation is meant.
* **The domain records** (`Invoice`, `LineItem`, `CheckResult`, `ProcessingResult` and their enumerations), with the constraints their constructors enforce.

Modules, by file:

* `wrappers.dfy` holds `Option` and `Result`.
* `text.dfy` holds the string operations the source relies on: `strip`, `lower`, `upper`, `replace`, `split`, `rfind` and string comparison.
* `decimals.dfy` holds decimal literals and half-up rounding to cents.
* `dates.dfy` holds calendar dates and their `%Y-%m-%d` form.
* `models.dfy`, `financial_body.dfy`, `processor.dfy`, `services.dfy` and `agent_brain.dfy` each model the source file of the same name.

Modelling choices:

* Money is exact: Python `Decimal`, and the `float` amounts, are Dafny `real`.
* The regular-expression engine is a parameter of type `Search`. It gives, for a pattern and a text, the text of the first match's group 1. For the one pattern without a group it gives the whole match. Only the ordering, fallback and post-processing around each search is modelled.
* The reference tables are sequences of rows, given to the service's constructor. When loading fails, the constructor is given `None` and the service starts with empty tables.
* The workflow id that `uuid4` would produce is a parameter of `StartWorkflow`.
* Timestamps are dropped from check results and from log entries.

## Model

| member | source | states |
|---|---|---|
| Models.RiskLevelValueInjective | backend/models.py:6-10 | The three risk levels have three distinct string values. |
| Models.MakeLineItem | backend/models.py:12-17 | A line item is built exactly when quantity > 0, unit price ≥ 0 and total ≥ 0. It then holds the given fields. Otherwise the error list names exactly the violated constraints. |
| Models.ValidateCurrency | backend/models.py:33-37 | It accepts exactly the codes of length 3. An accepted code is upper-case and equal to the input up to letter case. Any other code is refused. |
| Models.ToUpperIdempotent | backend/models.py:37 | Upper-casing yields an upper-case string. |
| Models.MakeInvoice | backend/models.py:19-37 | An invoice is built exactly when amount > 0 and the currency has 3 characters. It then satisfies `Valid()` and stores the currency upper-cased. Otherwise the errors name exactly the violated constraints. |
| Models.MakeInvoiceAmountOnly | backend/models.py:25 | With a valid currency, a non-positive amount is the sole error. |
| Models.InvoiceDefaults | backend/models.py:24-31 | With only the required fields given, the defaults are EUR, "Unknown" department, no date, no items and no file path. The invoice is built exactly when amount > 0. |
| Models.CurrencyUpperCased | backend/models.py:37 | "usd" is accepted and stored as "USD". |
| Models.MakeProcessingResult | backend/models.py:52-57 | A result is built exactly when 0 ≤ risk score ≤ 100, and it then holds the given fields. |
| FinancialBody.ToDecimal | backend/financial_body.py:13-23 | A number converts as it is. Text converts exactly when it is a decimal literal, to the value it denotes. Otherwise the failure carries "Invalid financial input: " and the text. |
| FinancialBody.ToDecimalNatRoundTrip | backend/financial_body.py:20 | The digits of a natural number convert back to that number. |
| FinancialBody.ToDecimalRejectsTwoPoints | backend/financial_body.py:20-23 | Text holding two decimal points is refused, with the message naming it. |
| FinancialBody.PointOnePlusPointTwo | tests/test_financial_integrity.py:14-26 | "0.1" and "0.2" convert, and their sum is exactly 0.3. |
| FinancialBody.CalculateTax | backend/financial_body.py:25-33 | The tax is a whole number of cents, at most half a cent from amount × rate, and above it in magnitude on a tie. |
| FinancialBody.CalculateTaxCharacterised | backend/financial_body.py:31-33 | Any value rounded that way is the computed tax, so the rounding has one answer. |
| FinancialBody.TaxRoundsHalfUp | tests/test_financial_integrity.py:28-41 | 10.125 × 0.21 gives 2.13. |
| FinancialBody.TaxTieGoesUp | backend/financial_body.py:33 | An exact half cent (0.125) rounds away from zero, to 0.13. |
| FinancialBody.ConvertAll | backend/financial_body.py:47-51 | The four inputs convert in order. The first failing input's message is the failure. |
| FinancialBody.ValidateInvoiceMath | backend/financial_body.py:35-78 | Valid exactly when every input converts, the sum is exact and the tax is within 0.05 of the expected tax; the reason is then "Math Validated" with no details. A conversion error is returned, not raised. A sum mismatch comes first and reports the sum, the claim and their difference. A tax mismatch is reported only when the sum is exact, with the tax difference. |
| FinancialBody.NumericVerdict | backend/financial_body.py:54-75 | On numbers, validity is exactly "sum exact and tax within tolerance". |
| FinancialBody.GoldenPath | tests/test_financial_integrity.py:43-53 | 100 + 21 = 121 validates with "Math Validated". |
| FinancialBody.TotalMismatchDiff | tests/test_financial_integrity.py:55-66 | 100 + 21 against 125 is an arithmetic error with a difference of 4. |
| FinancialBody.TaxLogicFailure | tests/test_financial_integrity.py:68-78 | 100 / 10 / 110 is a tax-logic error: tax 21 expected, 10 claimed, difference 11. |
| FinancialBody.ToleranceInclusive | backend/financial_body.py:67-68 | A tax difference of exactly 0.05 passes; 0.06 fails. |
| FinancialBody.FirstBadInputReported | backend/financial_body.py:77-78 | Two bad inputs give the first one's message, as a result rather than an exception. |
| Decimals.ParseDecimal | backend/processor.py:166 | Decimal-literal parsing, the text forms `float()` and `Decimal()` accept here. An accepted unsigned literal is non-negative. |
| Decimals.ParseDigits | backend/processor.py:166 | A digit string parses to its value. |
| Decimals.ParsePointed | backend/processor.py:166 | `d.f` parses to d + f / 10^\|f\|. |
| Decimals.ParseRejectsTwoPoints | backend/processor.py:166-169 | A string with two points is refused. |
| Decimals.ParseNatToDigits | backend/financial_body.py:20 | A natural number's digits parse back to it. |
| Decimals.RoundHalfUpCents | backend/financial_body.py:33 | `quantize(0.01, ROUND_HALF_UP)`: whole cents, at most half a cent off, away from zero on a tie. |
| Decimals.HalfUpRoundingUnique | backend/financial_body.py:33 | Every value meeting that rounding rule is the rounded value. |
| Dates.ParseIsoDate | backend/processor.py:122 | `strptime(..., "%Y-%m-%d")` accepts only real calendar dates. |
| Dates.ParseIsoFormat | backend/processor.py:122 | Formatting a date and parsing it back gives the date. |
| Dates.FormatParseIsoDate | backend/processor.py:122 | Parsing accepts only the canonical form: formatting a parsed date gives the text back. |
| Dates.IsoOrder | PROPOSAL_DELIVERY/backend/services.py:194-203 | Comparing two ISO dates as strings agrees with comparing them as dates. |
| Text.Strip | backend/processor.py:89 | `str.strip()` yields no more characters than its input. |
| Text.StripShape | backend/processor.py:89 | The stripped text is a slice of the input with only whitespace cut on each side. It neither starts nor ends with whitespace, and it is empty exactly when the input is all whitespace. |
| Text.StripKeepsAbsent | backend/processor.py:114 | Stripping adds no character, so a `/`-free head stays `/`-free. |
| Text.ToLower | PROPOSAL_DELIVERY/backend/services.py:132 | `str.lower()` maps each character to its lower case, position by position. |
| Text.ToUpper | backend/models.py:37 | `str.upper()` maps each character to its upper case, position by position. |
| Text.NormalFormUpToCase | PROPOSAL_DELIVERY/backend/services.py:132-135 | Two names equal up to letter case have the same stripped, lower-cased form. |
| Text.LowerStripCommute | Demo/backend/agent_brain.py:56 | `lower().strip()` equals `strip().lower()`. |
| Text.UpperSameUpToCase | backend/processor.py:96 | A string and its upper-case form are equal up to case. |
| Text.RemoveAll | PROPOSAL_DELIVERY/backend/services.py:113 | `replace(c, "")` leaves no `c` and keeps every other character with its multiplicity. |
| Text.ReplaceAll | backend/processor.py:150 | `replace(c, d)` changes exactly the `c` positions to `d`. |
| Text.IndexOf | backend/processor.py:114 | The first position of a character, or -1 when absent. |
| Text.LastIndexOf | backend/processor.py:145-146 | `rfind`: the last position of a character, or -1 when absent. |
| Text.Split | backend/processor.py:160 | `split(sep)` gives at least one part. |
| Text.SplitPiecesFree | backend/processor.py:160 | No part of a split holds the separator. |
| Text.SplitJoin | backend/processor.py:160 | Joining the parts with the separator gives the input back. |
| Text.SplitFirst | backend/processor.py:114 | The first part is the text before the first separator, or all of it when there is none. |
| Text.SplitLast | backend/processor.py:160-161 | The last part is the text after the last separator. |
| Text.RemoveSpaces | backend/processor.py:105 | `re.sub(r'[\s\n]', '', s)` leaves no whitespace and never lengthens the text. |
| Text.RemoveSpacesKeeps | backend/processor.py:105 | Every character that is not whitespace survives as often as it occurs in the input. |
| Text.RemoveSpacesConcat | backend/processor.py:105 | Removal works piece by piece: removing from a concatenation is concatenating the removals, so the kept characters stay in order. |
| Text.RemoveSpacesUnspaced | backend/processor.py:105 | A text without whitespace comes back unchanged. |
| Text.RemoveSpacesStrip | backend/processor.py:103-105 | Stripping before removing all whitespace changes nothing. |
| Text.LexLeTotal | PROPOSAL_DELIVERY/backend/services.py:203 | String comparison is total. |
| Text.LexLeTransitive | PROPOSAL_DELIVERY/backend/services.py:203 | String comparison is transitive. |
| Text.LexLeAntisymmetric | PROPOSAL_DELIVERY/backend/services.py:203 | String comparison is antisymmetric. |
| Processor.NormalizeRemovesCommas | backend/processor.py:144-164 | No comma survives the separator rewrite. |
| Processor.NormalizeKeepsDigits | backend/processor.py:144-164 | The rewrite keeps every digit, in order. |
| Processor.NormalizeIdempotent | backend/processor.py:144-164 | Rewriting a rewritten string changes nothing. |
| Processor.EuropeanValue | backend/processor.py:144-150 | When the last comma follows the last dot, dots are grouping and the comma is the decimal point. |
| Processor.UsValue | backend/processor.py:151-153 | When the last dot follows the last comma, commas are grouping. |
| Processor.CommaDecimalValue | backend/processor.py:156-162 | With commas only and two characters after the last comma, the comma is the decimal point. |
| Processor.CommaThousandsValue | backend/processor.py:156-164 | With commas only and any other last-part length, commas are dropped. |
| Processor.NormalizeEuropeanExample | backend/processor.py:148-150 | "1.234,56" gives 1234.56. |
| Processor.NormalizeUsExample | backend/processor.py:151-153 | "1,234.56" gives 1234.56. |
| Processor.NormalizeCommaDecimalExample | backend/processor.py:157-162 | ",50" gives 0.50. |
| Processor.NormalizeThousandsExample | backend/processor.py:158-164 | "12,000" gives 12000. |
| Processor.NormalizeOneDecimalExample | backend/processor.py:161-164 | "1,5" has a one-character last part, so the comma is dropped: 15. |
| Processor.NormalizeNonNegative | backend/processor.py:138-169 | Without a minus sign the value is never negative; an unparseable string gives 0.0. |
| Processor.FirstMatch | backend/processor.py:110-112 | The first pattern in list order that matches, and none before it. It is None exactly when no pattern matches. |
| Processor.IdFromCapture | backend/processor.py:114 | The id is the stripped text before the first `/`, so it holds no `/`. |
| Processor.InvoiceIdFrom | backend/processor.py:109-115 | The labelled pattern wins when it matches. No match gives "UNKNOWN". A match by the group-less bare pattern is an error exactly when it is the first match. |
| Processor.ExtractInvoiceId | backend/processor.py:109-115 | The pattern loop computes `InvoiceIdFrom`. |
| Processor.BareInvoiceIdRaises | backend/processor.py:109-115 | Text with only a bare `INV-yyyy-n` number makes the extraction fail, where the intended extraction returns that number. |
| Processor.IntendedInvoiceId | backend/processor.py:109-115 | The corrected extraction: the first match's text, the whole match for the bare pattern, or "UNKNOWN". It agrees with the as-written one wherever that succeeds. |
| Processor.FirstVendorLine | backend/processor.py:91-98 | The fallback vendor is the first non-blank stripped line that is not a header word in any case, or "Unknown Vendor" when there is none. |
| Processor.VendorFrom | backend/processor.py:86-98 | A labelled match gives its stripped text; otherwise the line fallback decides. |
| Processor.ExtractVendor | backend/processor.py:86-98 | The line loop computes `VendorFrom`. |
| Processor.IbanFrom | backend/processor.py:100-107 | The match with every whitespace character removed, or "UNKNOWN". |
| Processor.DateAt | backend/processor.py:119-124 | A pattern yields a date only when its stripped text is a valid date in ISO form. |
| Processor.FirstDate | backend/processor.py:117-125 | The first pattern yielding a valid date decides; None exactly when none does. |
| Processor.DateFrom | backend/processor.py:117-125 | An extracted date is always a valid calendar date. |
| Processor.ExtractDate | backend/processor.py:117-125 | The pattern loop computes `DateFrom`, skipping invalid dates. |
| Processor.DatePreference | backend/processor.py:117-125 | A valid labelled date wins; otherwise the bare pattern decides. |
| Processor.AmountFrom | backend/processor.py:127-132 | The normalised value of the stripped match, or the 0.0 sentinel. |
| Processor.AmountNonNegative | backend/processor.py:127-132 | Without a minus sign in the match the amount is never negative. |
| Processor.DepartmentFrom | backend/processor.py:134-136 | The stripped match, or the "Unknown" sentinel. |
| Processor.NonEmptyPages | backend/processor.py:78-83 | Only non-empty pages are kept, all of them when none is empty. |
| Processor.ExtractText | backend/processor.py:76-84 | The page loop joins the non-empty pages by newlines and strips the result. |
| Processor.ParseText | backend/processor.py:35-74 | A parsed invoice always satisfies the invoice constraints. |
| Processor.Parse | backend/processor.py:35-74 | Parsing the pages is `ParseText` on their extracted text. |
| Processor.ParseFields | backend/processor.py:57-67 | A parsed invoice holds exactly the extracted fields, in euros, with no items and with the file path. |
| Processor.ParseEmptyText | backend/processor.py:53-54 | Empty text is refused. |
| Processor.ParseNeedsAmount | backend/processor.py:127-132 | Text without a positive total never parses: the 0.0 sentinel fails `amount > 0`. |
| Processor.ParseBareInvoiceId | backend/processor.py:57-74 | A bare invoice number fails the whole parse before any field is checked. |
| Processor.IntendedParseText | backend/processor.py:35-74 | The corrected parse never fails for want of a group. It gives the same invoice wherever the as-written parse succeeds. |
| Processor.IntendedParseBareId | backend/processor.py:109-115 | With a bare number and a positive total, the corrected parse succeeds with that number, where the as-written one fails. |
| Compliance.EmptyTables | PROPOSAL_DELIVERY/backend/services.py:48-52 | The empty state has no rows, and every column is present. |
| Compliance.RiskOf | PROPOSAL_DELIVERY/backend/services.py:146 | A missing risk level counts as "Medium". |
| Compliance.NameMatchIgnoresCase | PROPOSAL_DELIVERY/backend/services.py:132-135 | Names equal up to case match the same rows. |
| Compliance.AuthorizedIbans | PROPOSAL_DELIVERY/backend/services.py:112-115 | Every vendor's IBAN, with spaces removed, is authorised, and no authorised IBAN holds a space. Without an `iban` column nothing is authorised. |
| Compliance.RoutingCheck | PROPOSAL_DELIVERY/backend/services.py:109-128 | PASS exactly when the IBAN is not "UNKNOWN" and is authorised, compared as written; it never warns. There is a distinct message for the missing IBAN, and the unauthorised message names the IBAN. |
| Compliance.IbanWithSpaceRejected | PROPOSAL_DELIVERY/backend/services.py:113-123 | An invoice IBAN that still holds a space always fails, because only the table side is normalised. |
| Compliance.RegisteredIbanAccepted | PROPOSAL_DELIVERY/backend/services.py:113-123 | A vendor's own IBAN, without spaces, passes. |
| Compliance.VendorLevelFirst | PROPOSAL_DELIVERY/backend/services.py:135-146 | The first matching vendor row decides the level, whatever later rows hold. |
| Compliance.VendorLevelNone | PROPOSAL_DELIVERY/backend/services.py:135-138 | No level is found exactly when no row's normalised name matches. |
| Compliance.RiskCheck | PROPOSAL_DELIVERY/backend/services.py:130-155 | WARNING exactly when no row matches. FAIL exactly when the first match's level is "High". PASS otherwise. |
| Compliance.MissingRiskLevelCleared | PROPOSAL_DELIVERY/backend/services.py:146-155 | A matched vendor without a level is cleared. |
| Compliance.RemainingBudgetFirst | PROPOSAL_DELIVERY/backend/services.py:160-169 | The first matching budget row decides the remaining budget. |
| Compliance.RemainingBudgetNone | PROPOSAL_DELIVERY/backend/services.py:160-166 | No budget is found exactly when no department matches. |
| Compliance.BudgetCheck | PROPOSAL_DELIVERY/backend/services.py:157-183 | WARNING exactly when the department is literally "Unknown". PASS exactly when it is not, a row matches and the amount ≤ remaining. The missing-allocation failure names the department. |
| Compliance.AnyCovering | PROPOSAL_DELIVERY/backend/services.py:187-203 | True exactly when some row of the vendor is active, with start ≤ date ≤ end as strings, under the default bounds. |
| Compliance.ContractCheck | PROPOSAL_DELIVERY/backend/services.py:185-211 | An undated invoice fails. Otherwise PASS exactly when some agreement covers its ISO date. It never warns. |
| Compliance.CoverageIsByDate | PROPOSAL_DELIVERY/backend/services.py:194-203 | With ISO-dated rows, coverage is the date interval from start to end. |
| Compliance.Aggregate | PROPOSAL_DELIVERY/backend/services.py:75-91 | REJECTED (100) exactly when some check fails. DRAFT (50) exactly when none fails and some warns. APPROVED (0) exactly when all pass. |
| Compliance.ChecksInOrder | PROPOSAL_DELIVERY/backend/services.py:67-72 | All four checks run, in the order routing, risk, budget, contract. |
| Compliance.ApprovedMeansAllPass | PROPOSAL_DELIVERY/backend/services.py:67-91 | An invoice is approved exactly when its IBAN is authorised and the risk, budget and contract checks pass. |
| Compliance.ApprovedOfFour | PROPOSAL_DELIVERY/backend/services.py:75-89 | Four checks are approved exactly when each passes. |
| Compliance.UnknownDepartmentNotApproved | PROPOSAL_DELIVERY/backend/services.py:163-164 | The "Unknown" department is never approved. |
| Compliance.OverBudgetRejected | PROPOSAL_DELIVERY/backend/services.py:170-176 | An amount over the remaining budget is rejected with score 100. |
| Compliance.EmptyTablesReject | PROPOSAL_DELIVERY/backend/services.py:41-52 | With no reference data every invoice is rejected. |
| Compliance.ComplianceService.constructor | PROPOSAL_DELIVERY/backend/services.py:21-46 | The loaded tables, or the empty state when loading failed; nothing posted. |
| Compliance.ComplianceService.PostToOdooMock | PROPOSAL_DELIVERY/backend/services.py:101-107 | The sync is recorded once and reports success. |
| Compliance.ComplianceService.VerifyContractualStanding | PROPOSAL_DELIVERY/backend/services.py:185-211 | The agreement loop with early return computes `ContractCheck`. |
| Compliance.ComplianceService.ProcessInvoice | PROPOSAL_DELIVERY/backend/services.py:54-99 | The result holds the invoice, the four checks and their verdict, with a score in range. The invoice is posted exactly once when approved and never otherwise. |
| AgentBrain.RetrieveContext | Demo/backend/agent_brain.py:40-59 | The risk is UNKNOWN (category "General") exactly when the key is absent, and HIGH exactly for "dark web corp". The labels are the `MemoryRisk` values, whose `Label` is the stored text. |
| AgentBrain.MemoryKeyIsNormalForm | Demo/backend/agent_brain.py:56 | The memory key is the stripped, lower-cased name. |
| AgentBrain.RetrieveIgnoresCase | Demo/backend/agent_brain.py:56-57 | Names equal up to case get the same context. |
| AgentBrain.StripUnpadded | Demo/backend/agent_brain.py:56 | A string without surrounding whitespace is its own strip. |
| AgentBrain.SteppedOutcome | Demo/backend/agent_brain.py:108-163 | What `Stepped` does: a step ends APPROVED exactly when the vendor is not HIGH and the amount ≤ 10000; otherwise it ends AWAITING_HUMAN with the high-risk or large-transaction reason. The math verdict has no part in this. The memory context is recorded and exactly three entries are appended to the log. |
| AgentBrain.Signalled | Demo/backend/agent_brain.py:165-185 | A context that is not waiting is unchanged. A waiting one becomes APPROVED or REJECTED, its reason is cleared and one entry is logged. |
| AgentBrain.SecondSignalIgnored | Demo/backend/agent_brain.py:174-176 | A second signal after a decision changes nothing. |
| AgentBrain.TransitionsSettle | Demo/backend/agent_brain.py:122-191 | A step leaves a context settled: under its id, decided or waiting, and with a reason when waiting. A signal keeps it so. |
| AgentBrain.ImpliedFiguresValidate | Demo/backend/agent_brain.py:140-149 | Under exact arithmetic only, the implied subtotal and tax pass the validator. The source's float figures usually fail its sum check; the step ignores the verdict either way. |
| AgentBrain.ImpliedFiguresCheck | Demo/backend/agent_brain.py:136-149 | Under exact arithmetic only, the check the step runs on the implied subtotal and tax at the 21% rate reports valid. The step's outcome does not depend on it (see SteppedOutcome). |
| AgentBrain.AmazonApproved | Demo/backend/agent_brain.py:40-57 | For the demo invoice in app.py: "Amazon Web Services" is not the memory's "aws", so the vendor is unknown, and at 120 it is approved. |
| AgentBrain.DarkWebPaused | Demo/backend/agent_brain.py:126-133 | For the demo invoice in app.py: "Dark Web Corp" is HIGH and waits with the CFO reason. |
| AgentBrain.McKenzieLargePaused | Demo/backend/agent_brain.py:126-154 | For the demo invoice in app.py: "McKenzie Consulting" is MEDIUM and at 15000 waits with the large-transaction reason. |
| AgentBrain.McKenzieKey | Demo/backend/agent_brain.py:43-56 | The memory key of "McKenzie Consulting" is "mckenzie consulting". |
| AgentBrain.WorkflowEngine.constructor | Demo/backend/agent_brain.py:83-86 | The registry starts empty and valid. |
| AgentBrain.WorkflowEngine.ExecuteStep | Demo/backend/agent_brain.py:108-163 | An unknown id changes nothing. Otherwise that workflow, and no other, becomes `Stepped` of its old state. |
| AgentBrain.WorkflowEngine.StartWorkflow | Demo/backend/agent_brain.py:88-106 | The returned id is registered under a pending context logged as initialised, then stepped. Other workflows are untouched, an id not yet filed grows the registry by exactly that key, and the registry stays valid. |
| AgentBrain.WorkflowEngine.SignalHumanApproval | Demo/backend/agent_brain.py:165-185 | An unknown id is a silent no-op. Otherwise that workflow becomes `Signalled` of its old state, with others untouched and the registry valid. |

## Left out

- Reading PDFs with pdfplumber and CSV files with pandas: the page texts and table rows are inputs.
- The regular-expression engine itself, which is the `Search` parameter. A search that could not match, such as the IBAN pattern on a short string, is not ruled out.
- Python floats: `Decimal(str(float))`, the `float(...)` values in the debug dictionaries, `amount / 1.21` in the workflow and `float()` in normalisation are exact arithmetic here. Decimal context precision, NaN, infinities, exponent notation and the whitespace `Decimal()` tolerates are not modelled.
- `float()` in `_normalize_currency_string` is the same decimal-literal parser as `Decimal()`, with an optional sign, digits and one point. Exponents, `inf`, `nan` and underscores are not accepted.
- Strings: case mapping and whitespace are the ASCII ones. Unicode case folding, and Unicode whitespace in `strip`, are not modelled.
- `strptime` is modelled as exactly the canonical `YYYY-MM-DD` form, which is all the date patterns can capture. Non-padded forms that `strptime` would accept cannot occur in a match.
- Timestamps (`time.time()`, `datetime.now()`), logging, and `uuid4`, which is a parameter.
- Check messages that print numbers, the budget amounts and the tax-rate text in reasons: the modelled messages stop before the numbers.
- Compliance.ComplianceService.PostToOdooMock keeps a ghost list of posted invoices instead of the ERP call. It counts posts without modelling the network.
- Compliance.RiskCheck: the table model cannot hold a NaN cell or a missing `vendor_name`/`department` column, so the pandas `KeyError` is not modelled. A missing `risk_level` column and a NaN cell both count as "Medium".
- Compliance.ContractCheck: a missing `is_active` column is modelled as inactive rows. Cells that are not strings, such as a NaN start date, are not modelled.
- AgentBrain.WorkflowEngine: contexts are values stored in the registry map, so references to a context held outside the registry (aliasing) are not modelled. The `_log` and `_pause_for_human` helpers are the functions `Logged` and `Paused` on those values. `math_verification` is never set by the source and is not a field here.
- AgentBrain.WorkflowEngine.ExecuteStep: the `except` branch ("Deterministic Math Engine Error") is not modelled. Conversion errors cannot reach it, because the validator returns them as a result (FinancialBody.FirstBadInputReported), and exact division by 1.21 cannot raise. One case remains unmodelled: `quantize` raises `decimal.InvalidOperation` when the rounded tax needs more than the 28 digits of the default decimal context. That happens for amounts of about 10^26 and above. `InvalidOperation` is not a `ValueError`, so it escapes the validator, and the source then pauses with the math-engine reason. The model gives the large-transaction reason instead.
- AgentBrain.ImpliedFiguresCheck: the verdict is valid only under the model's exact arithmetic. In the source, `amount / 1.21` is a float and the validator converts each figure through `str`, so the implied subtotal and tax usually do not add back to the amount exactly. The discarded verdict there is usually "Arithmetic Error". The workflow's outcome does not depend on the verdict in either case.
- AgentBrain.ImpliedFiguresValidate: holds only under exact arithmetic, for the same reason as AgentBrain.ImpliedFiguresCheck.
- AgentBrain.WorkflowEngine.StartWorkflow: ids are not assumed fresh. An id already in the registry is overwritten, as the source's dictionary assignment would overwrite on a `uuid4` prefix collision.
- The Streamlit front ends, the mock-data generator and the tests, which serve only as evidence for the lemmas above.

## Findings

| source | as written | input that shows it | evidently intended | confidence | as-written member | corrected member |
|---|---|---|---|---|---|---|
| backend/processor.py:26,114 | The second invoice-number pattern `INV-\d{4}-\d+` has no capture group, yet `match.group(1)` is called on every match, so it raises and `parse` fails with `RuntimeError`. | Text containing "INV-2024-001" and no "Invoice #:"/"REF:"/"ID:" label. | Return the matched number, "INV-2024-001". | high; not executed | Processor.BareInvoiceIdRaises | Processor.IntendedInvoiceId |

The corrected extraction is used by `Processor.IntendedParseText`. `Processor.Parse` models the code as written.
