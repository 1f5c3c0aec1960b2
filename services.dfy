/** The compliance engine (`ComplianceService`): four checks of an invoice
    against the vendor, budget and contract tables, and the verdict they
    add up to. Approved invoices are posted to the ERP. */
module Compliance {
  import opened Wrappers
  import opened Text
  import opened Dates
  import opened Models

  // ---------------------------------------------------------------------
  // Reference tables
  // ---------------------------------------------------------------------

  /** A row of vendors.csv; a missing risk level (an empty cell, or no such
      column) is `None`. */
  datatype VendorRow = VendorRow(vendorName: string, iban: string, riskLevel: Option<string>)

  /** A row of budgets.csv. */
  datatype BudgetRow = BudgetRow(department: string, totalBudget: real, remainingBudget: real)

  /** A row of contracts.csv; a missing start or end column is `None`. */
  datatype ContractRow = ContractRow(vendorName: string, startDate: Option<string>, endDate: Option<string>, isActive: bool)

  /** The three tables, and whether vendors.csv has an `iban` column. */
  datatype Tables = Tables(
    vendors: seq<VendorRow>, budgets: seq<BudgetRow>, contracts: seq<ContractRow>, vendorsHaveIban: bool)

  /** The reduced-capacity state used when the files cannot be loaded:
      no rows, every column present. */
  function EmptyTables(): (t: Tables)
    ensures t.vendors == [] && t.budgets == [] && t.contracts == [] && t.vendorsHaveIban
  {
    Tables([], [], [], true)
  }

  /** The risk level a vendor row stands for: an empty cell counts as "Medium". */
  function RiskOf(row: VendorRow): (r: string)
    ensures row.riskLevel.Some? ==> r == row.riskLevel.value
    ensures row.riskLevel.None? ==> r == Medium.Value()
  {
    row.riskLevel.GetOr("Medium")
  }

  /** How names are compared: stripped and lower-cased. */
  function NormalizeName(s: string): string {
    ToLower(Strip(s))
  }

  /** Matching does not see letter case. */
  lemma NameMatchIgnoresCase(a: string, b: string)
    requires SameUpToCase(a, b)
    ensures NormalizeName(a) == NormalizeName(b)
  {
    NormalFormUpToCase(a, b);
  }

  // ---------------------------------------------------------------------
  // Financial routing
  // ---------------------------------------------------------------------

  /** The authorised IBANs: every vendor's IBAN with its spaces removed. */
  function AuthorizedIbans(t: Tables): (r: set<string>)
    ensures forall x :: x in r ==> ' ' !in x
    ensures forall row :: row in t.vendors && t.vendorsHaveIban ==> RemoveAll(row.iban, ' ') in r
  {
    if t.vendorsHaveIban then set row | row in t.vendors :: RemoveAll(row.iban, ' ') else {}
  }

  const RoutingCheckName: string := "Financial Routing"

  /** `_verify_financial_routing`. */
  function RoutingCheck(t: Tables, invoice: Invoice): (r: CheckResult)
    ensures r.checkName == RoutingCheckName
    ensures r.status == PASS <==> invoice.iban != "UNKNOWN" && invoice.iban in AuthorizedIbans(t)
    ensures r.status != WARNING
    ensures invoice.iban == "UNKNOWN" ==> r.message == "Missing IBAN on document."
    ensures invoice.iban != "UNKNOWN" && invoice.iban !in AuthorizedIbans(t) ==>
      r.message == "Unauthorized IBAN detected: " + invoice.iban
  {
    var authorized := AuthorizedIbans(t);
    if invoice.iban == "UNKNOWN" then CheckResult(RoutingCheckName, FAIL, "Missing IBAN on document.")
    else if invoice.iban !in authorized then
      CheckResult(RoutingCheckName, FAIL, "Unauthorized IBAN detected: " + invoice.iban)
    else CheckResult(RoutingCheckName, PASS, "IBAN verified.")
  }

  /** An IBAN still holding a space can never match an authorised one. */
  lemma IbanWithSpaceRejected(t: Tables, invoice: Invoice)
    requires ' ' in invoice.iban
    ensures RoutingCheck(t, invoice).status == FAIL
  {
  }

  /** The vendor's own IBAN, however it is spaced in the table, is accepted. */
  lemma RegisteredIbanAccepted(t: Tables, invoice: Invoice, row: VendorRow)
    requires t.vendorsHaveIban && row in t.vendors
    requires invoice.iban == RemoveAll(row.iban, ' ') && invoice.iban != "UNKNOWN"
    ensures RoutingCheck(t, invoice).status == PASS
  {
  }

  // ---------------------------------------------------------------------
  // Vendor risk
  // ---------------------------------------------------------------------

  /** The risk level of the first vendor row whose normalised name is
      `key` (the first row the name mask selects), or `None` when no row
      matches. */
  predicate VendorNamed(row: VendorRow, key: string) {
    NormalizeName(row.vendorName) == key
  }

  function VendorLevel(rows: seq<VendorRow>, key: string): Option<string> {
    if rows == [] then None
    else if VendorNamed(rows[0], key) then Some(RiskOf(rows[0]))
    else VendorLevel(rows[1..], key)
  }

  /** The first matching row decides the level, whatever later rows say. */
  lemma {:induction false} VendorLevelFirst(rows: seq<VendorRow>, key: string, i: nat)
    requires i < |rows| && VendorNamed(rows[i], key)
    requires forall k :: 0 <= k < i ==> !VendorNamed(rows[k], key)
    ensures VendorLevel(rows, key) == Some(RiskOf(rows[i]))
  {
    if i > 0 {
      assert !VendorNamed(rows[0], key);
      forall k | 0 <= k < i - 1
        ensures !VendorNamed(rows[1..][k], key)
      {
        assert rows[1..][k] == rows[k + 1];
      }
      VendorLevelFirst(rows[1..], key, i - 1);
    }
  }

  /** No level is found exactly when no row matches. */
  lemma {:induction false} VendorLevelNone(rows: seq<VendorRow>, key: string)
    ensures VendorLevel(rows, key).None? <==> forall k :: 0 <= k < |rows| ==> !VendorNamed(rows[k], key)
  {
    if rows != [] && !VendorNamed(rows[0], key) {
      VendorLevelNone(rows[1..], key);
      assert VendorLevel(rows, key) == VendorLevel(rows[1..], key);
      if forall k :: 0 <= k < |rows| - 1 ==> !VendorNamed(rows[1..][k], key) {
        forall k | 1 <= k < |rows|
          ensures !VendorNamed(rows[k], key)
        {
          assert rows[k] == rows[1..][k - 1];
        }
      }
      if forall k :: 0 <= k < |rows| ==> !VendorNamed(rows[k], key) {
        forall k | 0 <= k < |rows| - 1
          ensures !VendorNamed(rows[1..][k], key)
        {
          assert rows[1..][k] == rows[k + 1];
        }
      }
    }
  }

  const RiskCheckName: string := "Vendor Risk"

  /** `_assess_vendor_risk`: unknown vendors are a warning; the first
      matching row decides, and only the level "High" fails. */
  function RiskCheck(t: Tables, invoice: Invoice): (r: CheckResult)
    ensures r.checkName == RiskCheckName
    ensures r.status == WARNING <==> VendorLevel(t.vendors, NormalizeName(invoice.vendorName)).None?
    ensures r.status == FAIL <==> VendorLevel(t.vendors, NormalizeName(invoice.vendorName)) == Some("High")
  {
    match VendorLevel(t.vendors, NormalizeName(invoice.vendorName))
    case None => CheckResult(RiskCheckName, WARNING, "Vendor unknown (First-time supplier).")
    case Some(level) =>
      if level == "High" then CheckResult(RiskCheckName, FAIL, "Vendor is flagged as HIGH RISK.")
      else CheckResult(RiskCheckName, PASS, "Vendor cleared.")
  }

  /** A vendor whose level is missing counts as Medium and is cleared. */
  lemma MissingRiskLevelCleared(t: Tables, invoice: Invoice)
    requires |t.vendors| >= 1 && t.vendors[0].riskLevel.None?
    requires NormalizeName(t.vendors[0].vendorName) == NormalizeName(invoice.vendorName)
    ensures RiskCheck(t, invoice).status == PASS
  {
  }

  // ---------------------------------------------------------------------
  // Budget
  // ---------------------------------------------------------------------

  /** The remaining budget of the first row whose normalised department is
      `key`, or `None` when no row matches. */
  predicate DepartmentNamed(row: BudgetRow, key: string) {
    NormalizeName(row.department) == key
  }

  function RemainingBudget(rows: seq<BudgetRow>, key: string): Option<real> {
    if rows == [] then None
    else if DepartmentNamed(rows[0], key) then Some(rows[0].remainingBudget)
    else RemainingBudget(rows[1..], key)
  }

  /** The first matching row decides the remaining budget. */
  lemma {:induction false} RemainingBudgetFirst(rows: seq<BudgetRow>, key: string, i: nat)
    requires i < |rows| && DepartmentNamed(rows[i], key)
    requires forall k :: 0 <= k < i ==> !DepartmentNamed(rows[k], key)
    ensures RemainingBudget(rows, key) == Some(rows[i].remainingBudget)
  {
    if i > 0 {
      assert !DepartmentNamed(rows[0], key);
      forall k | 0 <= k < i - 1
        ensures !DepartmentNamed(rows[1..][k], key)
      {
        assert rows[1..][k] == rows[k + 1];
      }
      RemainingBudgetFirst(rows[1..], key, i - 1);
    }
  }

  /** No budget is found exactly when no row matches. */
  lemma {:induction false} RemainingBudgetNone(rows: seq<BudgetRow>, key: string)
    ensures RemainingBudget(rows, key).None? <==> forall k :: 0 <= k < |rows| ==> !DepartmentNamed(rows[k], key)
  {
    if rows != [] && !DepartmentNamed(rows[0], key) {
      RemainingBudgetNone(rows[1..], key);
      assert RemainingBudget(rows, key) == RemainingBudget(rows[1..], key);
      if forall k :: 0 <= k < |rows| - 1 ==> !DepartmentNamed(rows[1..][k], key) {
        forall k | 1 <= k < |rows|
          ensures !DepartmentNamed(rows[k], key)
        {
          assert rows[k] == rows[1..][k - 1];
        }
      }
      if forall k :: 0 <= k < |rows| ==> !DepartmentNamed(rows[k], key) {
        forall k | 0 <= k < |rows| - 1
          ensures !DepartmentNamed(rows[1..][k], key)
        {
          assert rows[1..][k] == rows[k + 1];
        }
      }
    }
  }

  const BudgetCheckName: string := "Budget Check"

  /** `_validate_budgetary_alignment`: the literal department "Unknown" is a
      warning whatever the table says; otherwise the first matching row's
      remaining budget must cover the amount. */
  function BudgetCheck(t: Tables, invoice: Invoice): (r: CheckResult)
    ensures r.checkName == BudgetCheckName
    ensures r.status == WARNING <==> invoice.department == "Unknown"
    ensures r.status == PASS <==>
      var remaining := RemainingBudget(t.budgets, NormalizeName(invoice.department));
      invoice.department != "Unknown" && remaining.Some? && invoice.amount <= remaining.value
    ensures invoice.department != "Unknown" && RemainingBudget(t.budgets, NormalizeName(invoice.department)).None? ==>
      r.message == "No budget allocated for '" + invoice.department + "'."
  {
    if invoice.department == "Unknown" then CheckResult(BudgetCheckName, WARNING, "Unclassified Department.")
    else
      match RemainingBudget(t.budgets, NormalizeName(invoice.department))
      case None => CheckResult(BudgetCheckName, FAIL, "No budget allocated for '" + invoice.department + "'.")
      case Some(remaining) =>
        if invoice.amount > remaining then CheckResult(BudgetCheckName, FAIL, "Budget Exceeded.")
        else CheckResult(BudgetCheckName, PASS, "Approved.")
  }

  // ---------------------------------------------------------------------
  // Contract
  // ---------------------------------------------------------------------

  const DefaultStart: string := "1900-01-01"
  const DefaultEnd: string := "2099-12-31"

  function StartOf(row: ContractRow): string {
    row.startDate.GetOr(DefaultStart)
  }

  function EndOf(row: ContractRow): string {
    row.endDate.GetOr(DefaultEnd)
  }

  /** An agreement covers a day (as ISO text) when it is active and the day
      lies between its start and end, compared as strings. */
  predicate Covers(row: ContractRow, iso: string) {
    row.isActive && LexLe(StartOf(row), iso) && LexLe(iso, EndOf(row))
  }

  /** An agreement of this vendor that covers the day. */
  predicate AgreementCovers(row: ContractRow, vendor: string, iso: string) {
    NormalizeName(row.vendorName) == vendor && Covers(row, iso)
  }

  /** Some agreement in `rows` covers the day for this vendor (the loop's
      search, written as a recursion over the rows). */
  function AnyCovering(rows: seq<ContractRow>, vendor: string, iso: string): (b: bool)
    ensures b <==> exists k :: 0 <= k < |rows| && AgreementCovers(rows[k], vendor, iso)
  {
    if rows == [] then false
    else
      var rest := AnyCovering(rows[1..], vendor, iso);
      assert forall k :: 1 <= k < |rows| ==> rows[1..][k - 1] == rows[k];
      AgreementCovers(rows[0], vendor, iso) || rest
  }

  const ContractCheckName: string := "Contract Check"

  /** `_verify_contractual_standing`: an undated invoice fails; otherwise
      some active agreement of the vendor must cover its date. */
  function ContractCheck(t: Tables, invoice: Invoice): (r: CheckResult)
    requires invoice.Valid()
    ensures r.checkName == ContractCheckName
    ensures r.status != WARNING
    ensures r.status == PASS <==>
      invoice.date.Some? && AnyCovering(t.contracts, NormalizeName(invoice.vendorName), IsoFormat(invoice.date.value))
    ensures invoice.date.None? ==> r.message == "Invoice missing date info."
  {
    if invoice.date.None? then CheckResult(ContractCheckName, FAIL, "Invoice missing date info.")
    else if AnyCovering(t.contracts, NormalizeName(invoice.vendorName), IsoFormat(invoice.date.value)) then
      CheckResult(ContractCheckName, PASS, "Active Master Agreement found.")
    else CheckResult(ContractCheckName, FAIL, "No active contract covers this date.")
  }

  /** With ISO dates in the table, string comparison is date comparison:
      an active agreement covers exactly the days from its start to its end. */
  lemma CoverageIsByDate(row: ContractRow, start: Date, end: Date, day: Date)
    requires ValidDate(start) && ValidDate(end) && ValidDate(day)
    requires row.startDate == Some(IsoFormat(start)) && row.endDate == Some(IsoFormat(end))
    ensures Covers(row, IsoFormat(day)) <==> row.isActive && DateLe(start, day) && DateLe(day, end)
  {
    IsoOrder(start, day);
    IsoOrder(day, end);
  }

  // ---------------------------------------------------------------------
  // Aggregation
  // ---------------------------------------------------------------------

  /** Some check has this status (the filtered list is not empty). */
  predicate AnyWithStatus(checks: seq<CheckResult>, status: CheckStatus) {
    exists k :: 0 <= k < |checks| && checks[k].status == status
  }

  /** The verdict of a list of checks: any failure rejects (score 100), any
      remaining warning leaves a draft for review (score 50), and otherwise
      the invoice is approved (score 0). */
  function Aggregate(checks: seq<CheckResult>): (r: (FinalStatus, int))
    ensures r.0 == REJECTED <==> exists k :: 0 <= k < |checks| && checks[k].status == FAIL
    ensures r.0 == DRAFT <==> (forall k :: 0 <= k < |checks| ==> checks[k].status != FAIL)
                              && exists k :: 0 <= k < |checks| && checks[k].status == WARNING
    ensures r.0 == APPROVED <==> forall k :: 0 <= k < |checks| ==> checks[k].status == PASS
    ensures r.1 == (match r.0 case REJECTED => 100 case DRAFT => 50 case APPROVED => 0)
  {
    if AnyWithStatus(checks, FAIL) then (REJECTED, 100)
    else if AnyWithStatus(checks, WARNING) then (DRAFT, 50)
    else (APPROVED, 0)
  }

  /** The four checks, in the order they run. */
  function RunChecks(t: Tables, invoice: Invoice): seq<CheckResult>
    requires invoice.Valid()
  {
    [RoutingCheck(t, invoice), RiskCheck(t, invoice), BudgetCheck(t, invoice), ContractCheck(t, invoice)]
  }

  /** Every check runs once, in the order routing, risk, budget, contract. */
  lemma ChecksInOrder(t: Tables, invoice: Invoice)
    requires invoice.Valid()
    ensures var r := RunChecks(t, invoice);
      && |r| == 4
      && r[0].checkName == RoutingCheckName && r[1].checkName == RiskCheckName
      && r[2].checkName == BudgetCheckName && r[3].checkName == ContractCheckName
  {
    var r := RunChecks(t, invoice);
    assert r[0] == RoutingCheck(t, invoice) && r[1] == RiskCheck(t, invoice);
    assert r[2] == BudgetCheck(t, invoice) && r[3] == ContractCheck(t, invoice);
  }

  /** The verdict on an invoice. */
  function Verdict(t: Tables, invoice: Invoice): (FinalStatus, int)
    requires invoice.Valid()
  {
    Aggregate(RunChecks(t, invoice))
  }

  /** Approval needs every check to pass: the IBAN authorised, the vendor
      known and not high-risk, the budget sufficient and a contract in force. */
  lemma ApprovedMeansAllPass(t: Tables, invoice: Invoice)
    requires invoice.Valid()
    ensures Verdict(t, invoice).0 == APPROVED <==>
      && invoice.iban != "UNKNOWN" && invoice.iban in AuthorizedIbans(t)
      && RiskCheck(t, invoice).status == PASS
      && BudgetCheck(t, invoice).status == PASS
      && ContractCheck(t, invoice).status == PASS
  {
    var routing, risk, budget, contract :=
      RoutingCheck(t, invoice), RiskCheck(t, invoice), BudgetCheck(t, invoice), ContractCheck(t, invoice);
    assert RunChecks(t, invoice) == [routing, risk, budget, contract];
    ApprovedOfFour(routing, risk, budget, contract);
  }

  /** Four checks are approved exactly when each of them passes. */
  lemma ApprovedOfFour(a: CheckResult, b: CheckResult, c: CheckResult, d: CheckResult)
    ensures Aggregate([a, b, c, d]).0 == APPROVED <==>
      a.status == PASS && b.status == PASS && c.status == PASS && d.status == PASS
  {
    var checks := [a, b, c, d];
    assert checks[0] == a && checks[1] == b && checks[2] == c && checks[3] == d;
  }

  /** An invoice with the placeholder department is never approved. */
  lemma UnknownDepartmentNotApproved(t: Tables, invoice: Invoice)
    requires invoice.Valid() && invoice.department == "Unknown"
    ensures Verdict(t, invoice).0 != APPROVED
  {
    assert RunChecks(t, invoice)[2].status == WARNING;
  }

  /** An invoice over its department's remaining budget is rejected. */
  lemma OverBudgetRejected(t: Tables, invoice: Invoice)
    requires invoice.Valid() && invoice.department != "Unknown"
    requires var remaining := RemainingBudget(t.budgets, NormalizeName(invoice.department));
      remaining.Some? && invoice.amount > remaining.value
    ensures Verdict(t, invoice) == (REJECTED, 100)
  {
    assert RunChecks(t, invoice)[2].status == FAIL;
  }

  /** With no reference data nothing is approved: the IBAN is never authorised. */
  lemma EmptyTablesReject(invoice: Invoice)
    requires invoice.Valid()
    ensures Verdict(EmptyTables(), invoice) == (REJECTED, 100)
  {
    assert RunChecks(EmptyTables(), invoice)[0].status == FAIL;
  }

  // ---------------------------------------------------------------------
  // The service
  // ---------------------------------------------------------------------

  class ComplianceService {
    /** The reference tables, fixed once loaded. */
    const tables: Tables
    /** The invoices synced to the ERP, oldest first. */
    ghost var posted: seq<Invoice>

    /** `__init__`: `loaded` is the tables read from the data directory, or
        `None` when reading failed, in which case the empty state is used. */
    constructor (loaded: Option<Tables>)
      ensures tables == (if loaded.Some? then loaded.value else EmptyTables())
      ensures posted == []
    {
      tables := if loaded.Some? then loaded.value else EmptyTables();
      posted := [];
    }

    /** `_post_to_odoo_mock`: record the sync; it always succeeds. */
    method PostToOdooMock(invoice: Invoice) returns (ok: bool)
      modifies this
      ensures ok
      ensures posted == old(posted) + [invoice]
    {
      posted := posted + [invoice];
      ok := true;
    }

    /** The contract check as the loop over the vendor's agreements. */
    method VerifyContractualStanding(invoice: Invoice) returns (r: CheckResult)
      requires invoice.Valid()
      ensures r == ContractCheck(tables, invoice)
    {
      if invoice.date.None? {
        return CheckResult(ContractCheckName, FAIL, "Invoice missing date info.");
      }
      var vendor := NormalizeName(invoice.vendorName);
      var iso := IsoFormat(invoice.date.value);
      var contracts := tables.contracts;
      for k := 0 to |contracts|
        invariant AnyCovering(contracts[k..], vendor, iso) == AnyCovering(contracts, vendor, iso)
      {
        var agreement := contracts[k];
        assert contracts[k..][1..] == contracts[k + 1..];
        if NormalizeName(agreement.vendorName) == vendor && agreement.isActive {
          var start := StartOf(agreement);
          var end := EndOf(agreement);
          if LexLe(start, iso) && LexLe(iso, end) {
            return CheckResult(ContractCheckName, PASS, "Active Master Agreement found.");
          }
        }
      }
      return CheckResult(ContractCheckName, FAIL, "No active contract covers this date.");
    }

    /** `process_invoice`: run the checks, aggregate, and post the invoice
        to the ERP exactly when it is approved. */
    method ProcessInvoice(invoice: Invoice) returns (r: ProcessingResult)
      requires invoice.Valid()
      modifies this
      ensures r.invoice == invoice && r.checks == RunChecks(tables, invoice)
      ensures (r.finalStatus, r.riskScore) == Verdict(tables, invoice)
      ensures r.Valid()
      ensures posted == old(posted) + (if r.finalStatus == APPROVED then [invoice] else [])
    {
      var routing := RoutingCheck(tables, invoice);
      var risk := RiskCheck(tables, invoice);
      var budget := BudgetCheck(tables, invoice);
      var contract := VerifyContractualStanding(invoice);
      var checks := [routing, risk, budget, contract];
      assert checks == RunChecks(tables, invoice);
      var finalStatus := APPROVED;
      var riskScore := 0;
      if AnyWithStatus(checks, FAIL) {
        finalStatus, riskScore := REJECTED, 100;
      } else if AnyWithStatus(checks, WARNING) {
        finalStatus, riskScore := DRAFT, 50;
      } else {
        var _ := PostToOdooMock(invoice);
      }
      var result := MakeProcessingResult(invoice, checks, finalStatus, riskScore);
      return result.value;
    }
  }
}
