/** The workflow engine of the demo agent: one context per invoice, kept in
    a registry, moved from PENDING through PROCESSING to a verdict or to a
    pause for a human, and resumed by the human's signal. */
module AgentBrain {
  import opened Wrappers
  import opened Text
  import Models
  import opened Decimals
  import opened FinancialBody

  /** The lifecycle stages of a workflow. */
  datatype WorkflowState = PENDING | PROCESSING | AWAITING_HUMAN | APPROVED | REJECTED

  // ---------------------------------------------------------------------
  // Vendor memory
  // ---------------------------------------------------------------------

  /** The risk labels the memory uses; `Label` is the text it stores. */
  datatype MemoryRisk = HIGH | MEDIUM | LOW | UNKNOWN
  {
    function Label(): string {
      match this
      case HIGH => "HIGH"
      case MEDIUM => "MEDIUM"
      case LOW => "LOW"
      case UNKNOWN => "UNKNOWN"
    }
  }

  /** What the memory knows of a vendor: its risk, the average delay when
      recorded, and its category. */
  datatype VendorContext = VendorContext(risk: MemoryRisk, avgDelay: Option<int>, category: string)

  /** The simulated knowledge graph, keyed by lower-cased, trimmed name. */
  const VendorPatterns: map<string, VendorContext> := map[
    "dark web corp" := VendorContext(HIGH, Some(5), "Suspicious"),
    "aws" := VendorContext(LOW, None, "Infrastructure"),
    "mckenzie consulting" := VendorContext(MEDIUM, None, "Professional Services")
  ]

  /** The answer for a vendor the memory has never seen. */
  const UnknownVendor: VendorContext := VendorContext(UNKNOWN, None, "General")

  /** The lookup key: `lower()` then `strip()`. */
  function MemoryKey(vendorName: string): string {
    Strip(ToLower(vendorName))
  }

  /** `AgentMemory.retrieve_context`. */
  function RetrieveContext(vendorName: string): (c: VendorContext)
    ensures c.risk == UNKNOWN <==> MemoryKey(vendorName) !in VendorPatterns
    ensures c.risk == HIGH <==> MemoryKey(vendorName) == "dark web corp"
    ensures c.risk == UNKNOWN ==> c == UnknownVendor
  {
    var key := MemoryKey(vendorName);
    if key in VendorPatterns then VendorPatterns[key] else UnknownVendor
  }

  /** The memory sees neither letter case nor surrounding whitespace: its
      key is the same normal form the compliance engine matches names by. */
  lemma MemoryKeyIsNormalForm(vendorName: string)
    ensures MemoryKey(vendorName) == ToLower(Strip(vendorName))
  {
    LowerStripCommute(vendorName);
  }

  /** Names equal up to letter case get the same context. */
  lemma RetrieveIgnoresCase(a: string, b: string)
    requires SameUpToCase(a, b)
    ensures RetrieveContext(a) == RetrieveContext(b)
  {
    LowerStripCommute(a);
    LowerStripCommute(b);
    NormalFormUpToCase(a, b);
  }

  /** A string that neither starts nor ends with whitespace is its own strip. */
  lemma StripUnpadded(s: string)
    requires s != [] && !IsSpace(s[0]) && !IsSpace(s[|s| - 1])
    ensures Strip(s) == s
  {
    assert LeadingSpaces(s) == 0;
    assert s[0..] == s;
    assert TrailingSpaces(s) == 0;
  }

  // ---------------------------------------------------------------------
  // Workflow contexts
  // ---------------------------------------------------------------------

  /** The state of one workflow; the log holds the messages, oldest first. */
  datatype WorkflowContext = WorkflowContext(
    workflowId: string,
    status: WorkflowState,
    invoice: Models.Invoice,
    logs: seq<string>,
    memoryContext: Option<VendorContext>,
    humanActionNeeded: Option<string>)

  /** A fresh context: pending, with an empty log. */
  function NewContext(id: string, invoice: Models.Invoice): WorkflowContext {
    WorkflowContext(id, PENDING, invoice, [], None, None)
  }

  const TaxRate: real := 0.21
  const LargeTransactionLimit: real := 10000.0

  const StartedMessage: string := "Agent execution started."
  const ReleasedMessage: string := "Auto-Approval Logic satisfied. Transaction Released."
  const HighRiskReason: string := "High Risk Vendor detected. CFO Approval Required."
  const LargeTransactionReason: string := "Large Transaction (> €10k). Variance Protocol initiated."
  const ApprovedSignalMessage: string := "Signal Received: CFO APPROVED. Resuming..."
  const RejectedSignalMessage: string := "Signal Received: CFO REJECTED. Terminating."

  function InitializedMessage(invoiceId: string): string {
    "Workflow initialized for Invoice #" + invoiceId
  }

  function MemoryMessage(risk: string): string {
    "Memory Lookup: Identified as " + risk + " Risk."
  }

  function PausedMessage(reason: string): string {
    "Workflow Paused: " + reason
  }

  /** `_log` on a context value: one entry appended. */
  function Logged(ctx: WorkflowContext, message: string): WorkflowContext {
    ctx.(logs := ctx.logs + [message])
  }

  /** `_pause_for_human` on a context value. */
  function Paused(ctx: WorkflowContext, reason: string): WorkflowContext {
    Logged(ctx.(status := AWAITING_HUMAN, humanActionNeeded := Some(reason)), PausedMessage(reason))
  }

  /** `_execute_step` on a context value. The math verdict takes no part:
      the step approves or pauses on the vendor's risk and the amount alone. */
  function Stepped(ctx: WorkflowContext): WorkflowContext {
    SteppedWith(ctx, RetrieveContext(ctx.invoice.vendorName))
  }

  /** The step once the memory has answered `vendor`. */
  function SteppedWith(ctx: WorkflowContext, vendor: VendorContext): WorkflowContext {
    var remembered := Logged(Logged(ctx.(status := PROCESSING), StartedMessage).(memoryContext := Some(vendor)),
                             MemoryMessage(vendor.risk.Label()));
    if vendor.risk == HIGH then Paused(remembered, HighRiskReason)
    else if ctx.invoice.amount > LargeTransactionLimit then Paused(remembered, LargeTransactionReason)
    else Logged(remembered.(status := APPROVED), ReleasedMessage)
  }

  /** What a step does: it keeps the id and the invoice, records the
      memory's answer, and approves exactly when the vendor is not high
      risk and the amount is within the limit; otherwise it pauses with
      the reason, high risk taking precedence. Three entries are logged. */
  lemma SteppedOutcome(ctx: WorkflowContext, c: WorkflowContext)
    requires c == Stepped(ctx)
    ensures c.workflowId == ctx.workflowId && c.invoice == ctx.invoice
    ensures c.memoryContext == Some(RetrieveContext(ctx.invoice.vendorName))
    ensures c.status == AWAITING_HUMAN || c.status == APPROVED
    ensures c.status == APPROVED <==>
      RetrieveContext(ctx.invoice.vendorName).risk != HIGH && ctx.invoice.amount <= LargeTransactionLimit
    ensures RetrieveContext(ctx.invoice.vendorName).risk == HIGH ==> c.humanActionNeeded == Some(HighRiskReason)
    ensures RetrieveContext(ctx.invoice.vendorName).risk != HIGH && ctx.invoice.amount > LargeTransactionLimit ==>
      c.humanActionNeeded == Some(LargeTransactionReason)
    ensures c.status == APPROVED ==> c.humanActionNeeded == ctx.humanActionNeeded
    ensures c.logs == ctx.logs + [StartedMessage, MemoryMessage(RetrieveContext(ctx.invoice.vendorName).risk.Label()),
                                  if c.status == APPROVED then ReleasedMessage
                                  else PausedMessage(c.humanActionNeeded.value)]
  {
    SteppedWithOutcome(ctx, RetrieveContext(ctx.invoice.vendorName), c);
  }

  lemma SteppedWithOutcome(ctx: WorkflowContext, vendor: VendorContext, c: WorkflowContext)
    requires c == SteppedWith(ctx, vendor)
    ensures c.workflowId == ctx.workflowId && c.invoice == ctx.invoice
    ensures c.memoryContext == Some(vendor)
    ensures c.status == AWAITING_HUMAN || c.status == APPROVED
    ensures c.status == APPROVED <==> vendor.risk != HIGH && ctx.invoice.amount <= LargeTransactionLimit
    ensures vendor.risk == HIGH ==> c.humanActionNeeded == Some(HighRiskReason)
    ensures vendor.risk != HIGH && ctx.invoice.amount > LargeTransactionLimit ==>
      c.humanActionNeeded == Some(LargeTransactionReason)
    ensures c.status == APPROVED ==> c.humanActionNeeded == ctx.humanActionNeeded
    ensures c.logs == ctx.logs + [StartedMessage, MemoryMessage(vendor.risk.Label()),
                                  if c.status == APPROVED then ReleasedMessage
                                  else PausedMessage(c.humanActionNeeded.value)]
  {
    var remembered := Logged(Logged(ctx.(status := PROCESSING), StartedMessage).(memoryContext := Some(vendor)),
                             MemoryMessage(vendor.risk.Label()));
    assert remembered.logs == ctx.logs + [StartedMessage, MemoryMessage(vendor.risk.Label())];
    if vendor.risk == HIGH {
      assert c == Paused(remembered, HighRiskReason);
    } else if ctx.invoice.amount > LargeTransactionLimit {
      assert c == Paused(remembered, LargeTransactionReason);
    } else {
      assert c == Logged(remembered.(status := APPROVED), ReleasedMessage);
    }
  }

  /** `signal_human_approval` on a context value: only a paused workflow
      takes the decision, is logged, and has its pending reason cleared. */
  function Signalled(ctx: WorkflowContext, approved: bool): (c: WorkflowContext)
    ensures ctx.status != AWAITING_HUMAN ==> c == ctx
    ensures ctx.status == AWAITING_HUMAN ==>
      && c.status == (if approved then APPROVED else REJECTED)
      && c.humanActionNeeded.None?
      && c.logs == ctx.logs + [if approved then ApprovedSignalMessage else RejectedSignalMessage]
      && c.workflowId == ctx.workflowId && c.invoice == ctx.invoice && c.memoryContext == ctx.memoryContext
  {
    if ctx.status != AWAITING_HUMAN then ctx
    else if approved then Logged(ctx, ApprovedSignalMessage).(status := APPROVED, humanActionNeeded := None)
    else Logged(ctx, RejectedSignalMessage).(status := REJECTED, humanActionNeeded := None)
  }

  /** A decision is final: a second signal changes nothing. */
  lemma SecondSignalIgnored(ctx: WorkflowContext, first: bool, second: bool)
    requires ctx.status == AWAITING_HUMAN
    ensures Signalled(Signalled(ctx, first), second) == Signalled(ctx, first)
  {
  }

  /** A settled context, as every registered workflow is between calls:
      filed under its own id, past processing, and with a reason whenever
      it waits for a human. */
  predicate Settled(id: string, ctx: WorkflowContext) {
    && ctx.workflowId == id
    && (ctx.status == AWAITING_HUMAN || ctx.status == APPROVED || ctx.status == REJECTED)
    && (ctx.status == AWAITING_HUMAN ==> ctx.humanActionNeeded.Some?)
  }

  /** A step settles every context; a signal keeps a settled one settled. */
  lemma TransitionsSettle(id: string, ctx: WorkflowContext, approved: bool)
    ensures ctx.workflowId == id ==> Settled(id, Stepped(ctx))
    ensures Settled(id, ctx) ==> Settled(id, Signalled(ctx, approved))
  {
  }

  /** With exact figures the implied subtotal and tax always validate: they
      add up to the amount, and the tax is the subtotal times the rate before
      rounding, so within half a cent of the rounded expected tax. */
  lemma ImpliedFiguresValidate(amount: real)
    ensures var subtotal := amount / (1.0 + TaxRate);
      ValidateInvoiceMath(Numeric(subtotal), Numeric(amount - subtotal), Numeric(amount), Numeric(TaxRate)).isValid
  {
    var subtotal := amount / (1.0 + TaxRate);
    var tax := amount - subtotal;
    assert tax == subtotal * TaxRate;
    var expected := CalculateTax(subtotal, TaxRate);
    assert Abs(expected - tax) <= 0.005;
    NumericVerdict(subtotal, tax, amount, TaxRate);
  }

  /** The check `_execute_step` runs on the subtotal and tax implied by the
      amount at the fixed rate; with exact arithmetic it always passes. */
  function ImpliedFiguresCheck(amount: real): (r: MathCheck)
    ensures r.isValid
  {
    var subtotal := amount / (1.0 + TaxRate);
    ImpliedFiguresValidate(amount);
    ValidateInvoiceMath(Numeric(subtotal), Numeric(amount - subtotal), Numeric(amount), Numeric(TaxRate))
  }

  /** The first demo invoice: "Amazon Web Services" is not the memory's
      "aws", so the vendor is unknown, and at 120.00 it is approved. */
  lemma AmazonApproved(ctx: WorkflowContext, name: string)
    requires name == "Amazon Web Services" && ctx.invoice.vendorName == name && ctx.invoice.amount == 120.0
    ensures RetrieveContext(name) == UnknownVendor
    ensures Stepped(ctx).status == APPROVED
  {
    var lower := ToLower(name);
    assert |lower| == 19 && lower[0] == 'a' && lower[18] == 's';
    StripUnpadded(lower);
    assert MemoryKey(name)[0] != "mckenzie consulting"[0];
  }

  /** The second demo invoice: a high-risk vendor waits for the CFO. */
  lemma DarkWebPaused(ctx: WorkflowContext, name: string)
    requires name == "Dark Web Corp" && ctx.invoice.vendorName == name && ctx.invoice.amount == 500.0
    ensures RetrieveContext(name).risk == HIGH
    ensures Stepped(ctx).status == AWAITING_HUMAN && Stepped(ctx).humanActionNeeded == Some(HighRiskReason)
  {
    DarkWebLower(name);
    StripUnpadded(ToLower(name));
  }

  lemma DarkWebLower(name: string)
    requires name == "Dark Web Corp"
    ensures ToLower(name) == "dark web corp"
  {
  }

  /** The third demo invoice: a medium-risk vendor over the 10,000 limit
      waits for a human under the variance protocol. */
  lemma McKenzieLargePaused(ctx: WorkflowContext, name: string)
    requires name == "McKenzie Consulting" && ctx.invoice.vendorName == name && ctx.invoice.amount == 15000.0
    ensures RetrieveContext(name).risk == MEDIUM
    ensures Stepped(ctx).status == AWAITING_HUMAN && Stepped(ctx).humanActionNeeded == Some(LargeTransactionReason)
  {
    McKenzieKey(name);
  }

  lemma McKenzieKey(name: string)
    requires name == "McKenzie Consulting"
    ensures MemoryKey(name) == "mckenzie consulting"
  {
    McKenzieLower(name);
    StripUnpadded(ToLower(name));
  }

  lemma McKenzieLower(name: string)
    requires name == "McKenzie Consulting"
    ensures ToLower(name) == "mckenzie consulting"
  {
  }

  /** Every context of a registry is settled under its own id. */
  predicate AllSettled(workflows: map<string, WorkflowContext>) {
    forall id :: id in workflows ==> Settled(id, workflows[id])
  }

  /** Filing a settled context keeps a settled registry settled. */
  lemma FilingKeepsSettled(workflows: map<string, WorkflowContext>, id: string, ctx: WorkflowContext)
    requires AllSettled(workflows) && Settled(id, ctx)
    ensures AllSettled(workflows[id := ctx])
  {
    var updated := workflows[id := ctx];
    forall other | other in updated
      ensures Settled(other, updated[other])
    {
      if other != id {
        assert updated[other] == workflows[other];
      }
    }
  }

  /** Filing twice under one id keeps only the second. */
  lemma RefiledOnce(workflows: map<string, WorkflowContext>, id: string, first: WorkflowContext, second: WorkflowContext)
    ensures workflows[id := first][id := second] == workflows[id := second]
  {
  }

  // ---------------------------------------------------------------------
  // The engine
  // ---------------------------------------------------------------------

  class WorkflowEngine {
    /** The registry of workflows by id. */
    var activeWorkflows: map<string, WorkflowContext>

    /** Every registered workflow is settled. */
    predicate Valid()
      reads this
    {
      AllSettled(activeWorkflows)
    }

    constructor ()
      ensures activeWorkflows == map[]
      ensures Valid()
    {
      activeWorkflows := map[];
    }

    /** `_execute_step`: an unknown id is ignored; otherwise the step runs
        on that workflow and no other. The context is updated field by
        field, as the source does, and stored back under its id. */
    method ExecuteStep(id: string)
      modifies this
      ensures activeWorkflows ==
        if id in old(activeWorkflows) then old(activeWorkflows)[id := Stepped(old(activeWorkflows)[id])]
        else old(activeWorkflows)
    {
      if id !in activeWorkflows {
        return;
      }
      var ctx := activeWorkflows[id];
      ghost var start := ctx;
      ctx := ctx.(status := PROCESSING);
      ctx := Logged(ctx, StartedMessage);

      var vendor := RetrieveContext(ctx.invoice.vendorName);
      ctx := ctx.(memoryContext := Some(vendor));
      ctx := Logged(ctx, MemoryMessage(vendor.risk.Label()));

      if vendor.risk == HIGH {
        ctx := Paused(ctx, HighRiskReason);
        assert ctx == SteppedWith(start, vendor);
        activeWorkflows := activeWorkflows[id := ctx];
        return;
      }

      // The subtotal and tax implied by the amount are checked, and the
      // verdict is not consulted.
      var amount := ctx.invoice.amount;
      var _ := ImpliedFiguresCheck(amount);

      if amount > LargeTransactionLimit {
        ctx := Paused(ctx, LargeTransactionReason);
        assert ctx == SteppedWith(start, vendor);
        activeWorkflows := activeWorkflows[id := ctx];
        return;
      }

      ctx := ctx.(status := APPROVED);
      ctx := Logged(ctx, ReleasedMessage);
      assert ctx == SteppedWith(start, vendor);
      activeWorkflows := activeWorkflows[id := ctx];
    }

    /** `start_workflow`, with the generated id given as `id`: register a
        pending context under it, log its start and run the step. */
    method StartWorkflow(id: string, invoice: Models.Invoice) returns (workflowId: string)
      requires Valid()
      modifies this
      ensures workflowId == id && workflowId in activeWorkflows
      ensures activeWorkflows ==
        old(activeWorkflows)[id := Stepped(Logged(NewContext(id, invoice), InitializedMessage(invoice.invoiceId)))]
      ensures id !in old(activeWorkflows) ==> activeWorkflows.Keys == old(activeWorkflows).Keys + {id}
      ensures Valid()
    {
      var ctx := NewContext(id, invoice);
      ctx := Logged(ctx, InitializedMessage(invoice.invoiceId));
      activeWorkflows := activeWorkflows[id := ctx];
      ghost var filed := activeWorkflows;
      ExecuteStep(id);
      assert activeWorkflows == filed[id := Stepped(ctx)];
      RefiledOnce(old(activeWorkflows), id, ctx, Stepped(ctx));
      TransitionsSettle(id, ctx, false);
      FilingKeepsSettled(old(activeWorkflows), id, Stepped(ctx));
      return id;
    }

    /** `signal_human_approval`: an unknown id, or a workflow that is not
        waiting, is left alone; otherwise the decision is taken. */
    method SignalHumanApproval(id: string, approved: bool)
      requires Valid()
      modifies this
      ensures activeWorkflows ==
        if id in old(activeWorkflows) then old(activeWorkflows)[id := Signalled(old(activeWorkflows)[id], approved)]
        else old(activeWorkflows)
      ensures Valid()
    {
      if id !in activeWorkflows {
        return;
      }
      var ctx := activeWorkflows[id];
      if ctx.status != AWAITING_HUMAN {
        return;
      }
      TransitionsSettle(id, ctx, approved);
      FilingKeepsSettled(activeWorkflows, id, Signalled(ctx, approved));
      if approved {
        ctx := Logged(ctx, ApprovedSignalMessage);
        ctx := ctx.(status := APPROVED);
        ctx := ctx.(humanActionNeeded := None);
      } else {
        ctx := Logged(ctx, RejectedSignalMessage);
        ctx := ctx.(status := REJECTED);
        ctx := ctx.(humanActionNeeded := None);
      }
      activeWorkflows := activeWorkflows[id := ctx];
    }
  }
}
