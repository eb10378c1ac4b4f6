/** The project rollup, `calculateProjectFinancials` of
    utils/financialCalculations.ts: one project's records filtered out of
    the ledgers, then expected and paid revenue after credits, operating
    expenses, payables split into paid and outstanding, cash-basis and
    accrual-basis profit, budget variance and a monthly breakdown. */
module ProjectRollup {
  import opened Ledger
  import opened Credits
  import opened MonthlyAggregation

  // ---------------------------------------------------------------------
  // Scoping the ledgers to one project
  // ---------------------------------------------------------------------

  /** `invoices.filter(i => i.projectId === pid)` */
  function InvoicesOf(invoices: seq<Invoice>, pid: string): (r: seq<Invoice>)
    ensures |r| <= |invoices|
    ensures forall i :: 0 <= i < |r| ==> r[i].projectId == pid && r[i] in invoices
    decreases |invoices|
  {
    if invoices == [] then []
    else
      var inv := invoices[|invoices| - 1];
      assert invoices == invoices[..|invoices| - 1] + [inv];
      InvoicesOf(invoices[..|invoices| - 1], pid) + (if inv.projectId == pid then [inv] else [])
  }

  /** `expenses.filter(e => e.projectId === pid)` */
  function ExpensesOf(expenses: seq<Expense>, pid: string): (r: seq<Expense>)
    ensures |r| <= |expenses|
    ensures forall i :: 0 <= i < |r| ==> r[i].projectId == pid && r[i] in expenses
    decreases |expenses|
  {
    if expenses == [] then []
    else
      var e := expenses[|expenses| - 1];
      assert expenses == expenses[..|expenses| - 1] + [e];
      ExpensesOf(expenses[..|expenses| - 1], pid) + (if e.projectId == pid then [e] else [])
  }

  /** `payableInvoices.filter(p => p.projectId === pid)`: a payable without a
      project never matches. */
  function PayablesOf(payables: seq<PayableInvoice>, pid: string): (r: seq<PayableInvoice>)
    ensures |r| <= |payables|
    ensures forall i :: 0 <= i < |r| ==> r[i].projectId == Some(pid) && r[i] in payables
    decreases |payables|
  {
    if payables == [] then []
    else
      var p := payables[|payables| - 1];
      assert payables == payables[..|payables| - 1] + [p];
      PayablesOf(payables[..|payables| - 1], pid) + (if p.projectId == Some(pid) then [p] else [])
  }

  /** A credit note is one of the project's credits when it is tagged with
      the project and applied. */
  predicate ProjectCredit(cn: CreditNote, pid: string) {
    cn.projectId == pid && cn.status == CreditNoteStatus.Applied
  }

  /** `creditNotes.filter(cn => cn.projectId === pid && cn.status === 'applied')` */
  function CreditsOf(notes: seq<CreditNote>, pid: string): (r: seq<CreditNote>)
    ensures |r| <= |notes|
    ensures forall i :: 0 <= i < |r| ==> ProjectCredit(r[i], pid) && r[i] in notes
    decreases |notes|
  {
    if notes == [] then []
    else
      var cn := notes[|notes| - 1];
      assert notes == notes[..|notes| - 1] + [cn];
      CreditsOf(notes[..|notes| - 1], pid) + (if ProjectCredit(cn, pid) then [cn] else [])
  }

  // ---------------------------------------------------------------------
  // Status-filtered totals
  // ---------------------------------------------------------------------

  /** Every invoice status except `cancelled`. */
  const InvoiceNotCancelled: set<FinancialStatus> :=
    {FinancialStatus.Paid, FinancialStatus.Sent, FinancialStatus.Overdue, FinancialStatus.Pending,
     FinancialStatus.Draft, FinancialStatus.PartiallyCredited, FinancialStatus.FullyCredited}

  /** Every expense status except `cancelled`. */
  const ExpenseNotCancelled: set<ExpenseStatus> := {ExpenseStatus.Paid, ExpenseStatus.Pending}

  /** Every payable status except `cancelled`. */
  const PayableNotCancelled: set<PayableStatus> :=
    {PayableStatus.Draft, PayableStatus.Received, PayableStatus.Paid, PayableStatus.Overdue}

  /** Every payable status except `paid` and `cancelled`: still owed. */
  const PayableOutstanding: set<PayableStatus> :=
    {PayableStatus.Draft, PayableStatus.Received, PayableStatus.Overdue}

  /** Filter by status, then add up each invoice's net revenue after credits. */
  function InvoiceTotal(invoices: seq<Invoice>, credits: map<string, real>, statuses: set<FinancialStatus>): real
    decreases |invoices|
  {
    if invoices == [] then 0.0
    else
      var inv := invoices[|invoices| - 1];
      InvoiceTotal(invoices[..|invoices| - 1], credits, statuses)
        + (if inv.status in statuses then NetRevenue(inv, credits) else 0.0)
  }

  /** Filter by status, then add up the amounts. */
  function ExpenseTotal(expenses: seq<Expense>, statuses: set<ExpenseStatus>): real
    decreases |expenses|
  {
    if expenses == [] then 0.0
    else
      var e := expenses[|expenses| - 1];
      ExpenseTotal(expenses[..|expenses| - 1], statuses) + (if e.status in statuses then e.amount else 0.0)
  }

  /** Filter by status, then add up the amounts. */
  function PayableTotal(payables: seq<PayableInvoice>, statuses: set<PayableStatus>): real
    decreases |payables|
  {
    if payables == [] then 0.0
    else
      var p := payables[|payables| - 1];
      PayableTotal(payables[..|payables| - 1], statuses) + (if p.status in statuses then p.amount else 0.0)
  }

  // ---------------------------------------------------------------------
  // The rollup
  // ---------------------------------------------------------------------

  /** `calculateProjectFinancials` as a function of its inputs; `window` is
      the month window of the monthly breakdown. */
  function ProjectFinancialsOf(project: Project, invoices: seq<Invoice>, expenses: seq<Expense>,
                               payables: seq<PayableInvoice>, notes: seq<CreditNote>,
                               window: seq<string>): ProjectFinancialDetail
  {
    Rollup(project, InvoicesOf(invoices, project.id), ExpensesOf(expenses, project.id),
           PayablesOf(payables, project.id), CreditsOf(notes, project.id), window)
  }

  /** The figures of the rollup computed from the project's own records. */
  function Rollup(project: Project, pInvoices: seq<Invoice>, pExpenses: seq<Expense>,
                  pPayables: seq<PayableInvoice>, pCredits: seq<CreditNote>,
                  window: seq<string>): ProjectFinancialDetail
  {
    var credits := CreditMap(pCredits);
    var expectedRevenue := InvoiceTotal(pInvoices, credits, InvoiceNotCancelled);
    var paidRevenue := InvoiceTotal(pInvoices, credits, {FinancialStatus.Paid});
    var totalOpExpenses := ExpenseTotal(pExpenses, ExpenseNotCancelled);
    var paidOpExpenses := ExpenseTotal(pExpenses, {ExpenseStatus.Paid});
    var totalPayables := PayableTotal(pPayables, PayableNotCancelled);
    var outstandingPayables := PayableTotal(pPayables, PayableOutstanding);
    var paidPayables := PayableTotal(pPayables, {PayableStatus.Paid});
    var totalCashOutflow := paidOpExpenses + paidPayables;
    var totalExpectedOutflow := totalOpExpenses + totalPayables;
    var netProfit := paidRevenue - totalCashOutflow;
    var variance := project.budget - totalCashOutflow;
    ProjectFinancialDetail(
      project := project,
      expectedRevenue := expectedRevenue,
      paidRevenue := paidRevenue,
      totalOpExpenses := totalOpExpenses,
      paidOpExpenses := paidOpExpenses,
      totalPayables := totalPayables,
      paidPayables := paidPayables,
      outstandingPayables := outstandingPayables,
      netProfit := netProfit,
      netProfitExpected := expectedRevenue - totalExpectedOutflow,
      profitMargin := Percent(netProfit, paidRevenue),
      projectedRevenue := expectedRevenue,
      projectedExpenses := totalExpectedOutflow,
      monthlyBreakdown := MonthlyMetricsOf(window, pInvoices, pExpenses, pPayables, pCredits),
      budgetVsActual := BudgetVsActual(project.budget, totalCashOutflow, variance, Percent(variance, project.budget)))
  }

  /** The rollup with its two imperative steps: the credit dictionary filled
      by a loop over the project's applied credits, and the monthly breakdown
      computed by the aggregation loops. */
  method CalculateProjectFinancials(project: Project, invoices: seq<Invoice>, expenses: seq<Expense>,
                                    payables: seq<PayableInvoice>, notes: seq<CreditNote>,
                                    window: seq<string>)
    returns (r: ProjectFinancialDetail)
    ensures r == ProjectFinancialsOf(project, invoices, expenses, payables, notes, window)
  {
    var pInvoices := InvoicesOf(invoices, project.id);
    var pExpenses := ExpensesOf(expenses, project.id);
    var pPayables := PayablesOf(payables, project.id);
    var pCredits := CreditsOf(notes, project.id);
    var credits := BuildCreditMap(pCredits);
    var breakdown := CalculateMonthlyMetrics(window, pInvoices, pExpenses, pPayables, pCredits);
    var expectedRevenue := InvoiceTotal(pInvoices, credits, InvoiceNotCancelled);
    var paidRevenue := InvoiceTotal(pInvoices, credits, {FinancialStatus.Paid});
    var totalOpExpenses := ExpenseTotal(pExpenses, ExpenseNotCancelled);
    var paidOpExpenses := ExpenseTotal(pExpenses, {ExpenseStatus.Paid});
    var totalPayables := PayableTotal(pPayables, PayableNotCancelled);
    var paidPayables := PayableTotal(pPayables, {PayableStatus.Paid});
    var totalCashOutflow := paidOpExpenses + paidPayables;
    var netProfit := paidRevenue - totalCashOutflow;
    var variance := project.budget - totalCashOutflow;
    r := ProjectFinancialDetail(
      project := project,
      expectedRevenue := expectedRevenue,
      paidRevenue := paidRevenue,
      totalOpExpenses := totalOpExpenses,
      paidOpExpenses := paidOpExpenses,
      totalPayables := totalPayables,
      paidPayables := paidPayables,
      outstandingPayables := PayableTotal(pPayables, PayableOutstanding),
      netProfit := netProfit,
      netProfitExpected := expectedRevenue - (totalOpExpenses + totalPayables),
      profitMargin := Percent(netProfit, paidRevenue),
      projectedRevenue := expectedRevenue,
      projectedExpenses := totalOpExpenses + totalPayables,
      monthlyBreakdown := breakdown,
      budgetVsActual := BudgetVsActual(project.budget, totalCashOutflow, variance, Percent(variance, project.budget)));
  }

  // ---------------------------------------------------------------------
  // Totals over status sets
  // ---------------------------------------------------------------------

  /** Widening the status filter never lowers the revenue total, since every
      invoice's net revenue is clamped at zero. */
  lemma {:induction false} InvoiceTotalMonotone(invoices: seq<Invoice>, credits: map<string, real>,
                                                s: set<FinancialStatus>, t: set<FinancialStatus>)
    requires s <= t
    ensures InvoiceTotal(invoices, credits, s) <= InvoiceTotal(invoices, credits, t)
    decreases |invoices|
  {
    if invoices != [] {
      InvoiceTotalMonotone(invoices[..|invoices| - 1], credits, s, t);
    }
  }

  /** With non-negative amounts, widening the status filter never lowers the
      expense total. */
  lemma {:induction false} ExpenseTotalMonotone(expenses: seq<Expense>, s: set<ExpenseStatus>, t: set<ExpenseStatus>)
    requires s <= t
    requires forall i :: 0 <= i < |expenses| ==> expenses[i].amount >= 0.0
    ensures ExpenseTotal(expenses, s) <= ExpenseTotal(expenses, t)
    decreases |expenses|
  {
    if expenses != [] {
      ExpenseTotalMonotone(expenses[..|expenses| - 1], s, t);
    }
  }

  /** Totals over two disjoint status sets add up to the total over their
      union. */
  lemma {:induction false} PayableTotalSplit(payables: seq<PayableInvoice>, s: set<PayableStatus>, t: set<PayableStatus>)
    requires s !! t
    ensures PayableTotal(payables, s) + PayableTotal(payables, t) == PayableTotal(payables, s + t)
    decreases |payables|
  {
    if payables != [] {
      PayableTotalSplit(payables[..|payables| - 1], s, t);
    }
  }

  // ---------------------------------------------------------------------
  // Properties of the rollup
  // ---------------------------------------------------------------------

  /** Paid revenue never exceeds expected revenue, and the paid and
      outstanding payables make up the total payables. */
  lemma RollupBounds(project: Project, invoices: seq<Invoice>, expenses: seq<Expense>,
                     payables: seq<PayableInvoice>, notes: seq<CreditNote>, window: seq<string>)
    ensures var r := ProjectFinancialsOf(project, invoices, expenses, payables, notes, window);
      && 0.0 <= r.paidRevenue <= r.expectedRevenue
      && r.paidPayables + r.outstandingPayables == r.totalPayables
  {
    var credits := CreditMap(CreditsOf(notes, project.id));
    var pInvoices := InvoicesOf(invoices, project.id);
    InvoiceTotalMonotone(pInvoices, credits, {}, {FinancialStatus.Paid});
    InvoiceTotalMonotone(pInvoices, credits, {FinancialStatus.Paid}, InvoiceNotCancelled);
    EmptyInvoiceTotal(pInvoices, credits);
    PayableTotalSplit(PayablesOf(payables, project.id), {PayableStatus.Paid}, PayableOutstanding);
    assert {PayableStatus.Paid} + PayableOutstanding == PayableNotCancelled;
  }

  /** The total over no status at all is zero. */
  lemma {:induction false} EmptyInvoiceTotal(invoices: seq<Invoice>, credits: map<string, real>)
    ensures InvoiceTotal(invoices, credits, {}) == 0.0
    decreases |invoices|
  {
    if invoices != [] {
      EmptyInvoiceTotal(invoices[..|invoices| - 1], credits);
    }
  }

  /** With non-negative expense amounts, paid operating expenses never exceed
      total operating expenses. */
  lemma PaidExpensesBounded(project: Project, invoices: seq<Invoice>, expenses: seq<Expense>,
                            payables: seq<PayableInvoice>, notes: seq<CreditNote>, window: seq<string>)
    requires forall i :: 0 <= i < |expenses| ==> expenses[i].amount >= 0.0
    ensures var r := ProjectFinancialsOf(project, invoices, expenses, payables, notes, window);
      r.paidOpExpenses <= r.totalOpExpenses
  {
    var pExpenses := ExpensesOf(expenses, project.id);
    forall i | 0 <= i < |pExpenses| ensures pExpenses[i].amount >= 0.0 {
      assert pExpenses[i] in expenses;
    }
    ExpenseTotalMonotone(pExpenses, {ExpenseStatus.Paid}, ExpenseNotCancelled);
  }

  /** Cash-basis profit is paid revenue minus the actual cash outflow (paid
      operating expenses plus paid payables); that outflow is what the budget
      is compared with; the variance is what is left of the budget, and the
      margin and variance percentages fall back to zero without a positive
      base. The accrual-basis figures use everything not cancelled. */
  lemma RollupIdentities(project: Project, invoices: seq<Invoice>, expenses: seq<Expense>,
                         payables: seq<PayableInvoice>, notes: seq<CreditNote>, window: seq<string>)
    ensures var r := ProjectFinancialsOf(project, invoices, expenses, payables, notes, window);
      && r.project == project
      && r.netProfit == r.paidRevenue - (r.paidOpExpenses + r.paidPayables)
      && r.budgetVsActual.budget == project.budget
      && r.budgetVsActual.actual == r.paidOpExpenses + r.paidPayables
      && r.budgetVsActual.variance == r.budgetVsActual.budget - r.budgetVsActual.actual
      && IsPercentOf(r.budgetVsActual.variancePercent, r.budgetVsActual.variance, project.budget)
      && IsPercentOf(r.profitMargin, r.netProfit, r.paidRevenue)
      && r.projectedRevenue == r.expectedRevenue
      && r.projectedExpenses == r.totalOpExpenses + r.totalPayables
      && r.netProfitExpected == r.expectedRevenue - r.projectedExpenses
  {
    var r := ProjectFinancialsOf(project, invoices, expenses, payables, notes, window);
    PercentMeaning(r.budgetVsActual.variance, project.budget, r.budgetVsActual.variancePercent);
    PercentMeaning(r.netProfit, r.paidRevenue, r.profitMargin);
  }

  /** The monthly breakdown is the monthly aggregation of the project's own
      records and applied credits; when every record already belongs to the
      project and every note is one of its applied credits, it is the
      aggregation of the whole ledger. */
  lemma BreakdownIsScopedAggregation(project: Project, invoices: seq<Invoice>, expenses: seq<Expense>,
                                     payables: seq<PayableInvoice>, notes: seq<CreditNote>, window: seq<string>)
    ensures ProjectFinancialsOf(project, invoices, expenses, payables, notes, window).monthlyBreakdown
         == MonthlyMetricsOf(window, InvoicesOf(invoices, project.id), ExpensesOf(expenses, project.id),
                             PayablesOf(payables, project.id), CreditsOf(notes, project.id))
    ensures (forall i :: 0 <= i < |invoices| ==> invoices[i].projectId == project.id)
         && (forall i :: 0 <= i < |expenses| ==> expenses[i].projectId == project.id)
         && (forall i :: 0 <= i < |payables| ==> payables[i].projectId == Some(project.id))
         && (forall i :: 0 <= i < |notes| ==> ProjectCredit(notes[i], project.id))
         ==> ProjectFinancialsOf(project, invoices, expenses, payables, notes, window).monthlyBreakdown
             == MonthlyMetricsOf(window, invoices, expenses, payables, notes)
  {
    if && (forall i :: 0 <= i < |invoices| ==> invoices[i].projectId == project.id)
       && (forall i :: 0 <= i < |expenses| ==> expenses[i].projectId == project.id)
       && (forall i :: 0 <= i < |payables| ==> payables[i].projectId == Some(project.id))
       && (forall i :: 0 <= i < |notes| ==> ProjectCredit(notes[i], project.id))
    {
      InvoicesOfAll(invoices, project.id);
      ExpensesOfAll(expenses, project.id);
      PayablesOfAll(payables, project.id);
      CreditsOfAll(notes, project.id);
    }
  }

  lemma {:induction false} InvoicesOfAll(invoices: seq<Invoice>, pid: string)
    requires forall i :: 0 <= i < |invoices| ==> invoices[i].projectId == pid
    ensures InvoicesOf(invoices, pid) == invoices
    decreases |invoices|
  {
    if invoices != [] {
      var init := invoices[..|invoices| - 1];
      InvoicesOfAll(init, pid);
      assert invoices == init + [invoices[|invoices| - 1]];
    }
  }

  lemma {:induction false} ExpensesOfAll(expenses: seq<Expense>, pid: string)
    requires forall i :: 0 <= i < |expenses| ==> expenses[i].projectId == pid
    ensures ExpensesOf(expenses, pid) == expenses
    decreases |expenses|
  {
    if expenses != [] {
      var init := expenses[..|expenses| - 1];
      ExpensesOfAll(init, pid);
      assert expenses == init + [expenses[|expenses| - 1]];
    }
  }

  lemma {:induction false} PayablesOfAll(payables: seq<PayableInvoice>, pid: string)
    requires forall i :: 0 <= i < |payables| ==> payables[i].projectId == Some(pid)
    ensures PayablesOf(payables, pid) == payables
    decreases |payables|
  {
    if payables != [] {
      var init := payables[..|payables| - 1];
      PayablesOfAll(init, pid);
      assert payables == init + [payables[|payables| - 1]];
    }
  }

  lemma {:induction false} CreditsOfAll(notes: seq<CreditNote>, pid: string)
    requires forall i :: 0 <= i < |notes| ==> ProjectCredit(notes[i], pid)
    ensures CreditsOf(notes, pid) == notes
    decreases |notes|
  {
    if notes != [] {
      var init := notes[..|notes| - 1];
      CreditsOfAll(init, pid);
      assert notes == init + [notes[|notes| - 1]];
    }
  }

  /** The filter keeps order and multiplicity: it distributes over
      concatenation. */
  lemma {:induction false} InvoicesOfAppend(a: seq<Invoice>, b: seq<Invoice>, pid: string)
    ensures InvoicesOf(a + b, pid) == InvoicesOf(a, pid) + InvoicesOf(b, pid)
    decreases |b|
  {
    if b == [] {
      assert a + b == a;
    } else {
      var init, last := b[..|b| - 1], b[|b| - 1];
      InvoicesOfAppend(a, init, pid);
      var kept := if last.projectId == pid then [last] else [];
      assert (a + b)[..|a + b| - 1] == a + init;
      assert (a + b)[|a + b| - 1] == last;
      assert InvoicesOf(a + b, pid) == InvoicesOf(a + init, pid) + kept;
      assert InvoicesOf(b, pid) == InvoicesOf(init, pid) + kept;
    }
  }

  /** The filter keeps every record that matches, and only those. */
  lemma {:induction false} InvoicesOfComplete(invoices: seq<Invoice>, pid: string)
    ensures forall x :: x in InvoicesOf(invoices, pid) <==> x in invoices && x.projectId == pid
    decreases |invoices|
  {
    if invoices != [] {
      var init := invoices[..|invoices| - 1];
      InvoicesOfComplete(init, pid);
      assert invoices == init + [invoices[|invoices| - 1]];
    }
  }

  /** The filter keeps order and multiplicity: it distributes over
      concatenation. */
  lemma {:induction false} ExpensesOfAppend(a: seq<Expense>, b: seq<Expense>, pid: string)
    ensures ExpensesOf(a + b, pid) == ExpensesOf(a, pid) + ExpensesOf(b, pid)
    decreases |b|
  {
    if b == [] {
      assert a + b == a;
    } else {
      var init, last := b[..|b| - 1], b[|b| - 1];
      ExpensesOfAppend(a, init, pid);
      var kept := if last.projectId == pid then [last] else [];
      assert (a + b)[..|a + b| - 1] == a + init;
      assert (a + b)[|a + b| - 1] == last;
      assert ExpensesOf(a + b, pid) == ExpensesOf(a + init, pid) + kept;
      assert ExpensesOf(b, pid) == ExpensesOf(init, pid) + kept;
    }
  }

  /** The filter keeps every record that matches, and only those. */
  lemma {:induction false} ExpensesOfComplete(expenses: seq<Expense>, pid: string)
    ensures forall x :: x in ExpensesOf(expenses, pid) <==> x in expenses && x.projectId == pid
    decreases |expenses|
  {
    if expenses != [] {
      var init := expenses[..|expenses| - 1];
      ExpensesOfComplete(init, pid);
      assert expenses == init + [expenses[|expenses| - 1]];
    }
  }

  /** The filter keeps order and multiplicity: it distributes over
      concatenation. */
  lemma {:induction false} PayablesOfAppend(a: seq<PayableInvoice>, b: seq<PayableInvoice>, pid: string)
    ensures PayablesOf(a + b, pid) == PayablesOf(a, pid) + PayablesOf(b, pid)
    decreases |b|
  {
    if b == [] {
      assert a + b == a;
    } else {
      var init, last := b[..|b| - 1], b[|b| - 1];
      PayablesOfAppend(a, init, pid);
      var kept := if last.projectId == Some(pid) then [last] else [];
      assert (a + b)[..|a + b| - 1] == a + init;
      assert (a + b)[|a + b| - 1] == last;
      assert PayablesOf(a + b, pid) == PayablesOf(a + init, pid) + kept;
      assert PayablesOf(b, pid) == PayablesOf(init, pid) + kept;
    }
  }

  /** The filter keeps every record that matches, and only those. */
  lemma {:induction false} PayablesOfComplete(payables: seq<PayableInvoice>, pid: string)
    ensures forall x :: x in PayablesOf(payables, pid) <==> x in payables && x.projectId == Some(pid)
    decreases |payables|
  {
    if payables != [] {
      var init := payables[..|payables| - 1];
      PayablesOfComplete(init, pid);
      assert payables == init + [payables[|payables| - 1]];
    }
  }

  /** The filter keeps order and multiplicity: it distributes over
      concatenation. */
  lemma {:induction false} CreditsOfAppend(a: seq<CreditNote>, b: seq<CreditNote>, pid: string)
    ensures CreditsOf(a + b, pid) == CreditsOf(a, pid) + CreditsOf(b, pid)
    decreases |b|
  {
    if b == [] {
      assert a + b == a;
    } else {
      var init, last := b[..|b| - 1], b[|b| - 1];
      CreditsOfAppend(a, init, pid);
      var kept := if ProjectCredit(last, pid) then [last] else [];
      assert (a + b)[..|a + b| - 1] == a + init;
      assert (a + b)[|a + b| - 1] == last;
      assert CreditsOf(a + b, pid) == CreditsOf(a + init, pid) + kept;
      assert CreditsOf(b, pid) == CreditsOf(init, pid) + kept;
    }
  }

  /** The filter keeps every record that matches, and only those. */
  lemma {:induction false} CreditsOfComplete(notes: seq<CreditNote>, pid: string)
    ensures forall x :: x in CreditsOf(notes, pid) <==> x in notes && ProjectCredit(x, pid)
    decreases |notes|
  {
    if notes != [] {
      var init := notes[..|notes| - 1];
      CreditsOfComplete(init, pid);
      assert notes == init + [notes[|notes| - 1]];
    }
  }

  lemma InvoicesOfSkips(a: seq<Invoice>, b: seq<Invoice>, inv: Invoice, pid: string)
    requires inv.projectId != pid
    ensures InvoicesOf(a + [inv] + b, pid) == InvoicesOf(a + b, pid)
  {
    InvoicesOfAppend(a + [inv], b, pid);
    InvoicesOfAppend(a, [inv], pid);
    InvoicesOfAppend(a, b, pid);
    assert InvoicesOf([inv], pid) == [];
  }

  /** An invoice of another project, wherever it is listed, changes no
      figure of the rollup. */
  lemma ForeignInvoiceChangesNothing(project: Project, a: seq<Invoice>, b: seq<Invoice>, expenses: seq<Expense>,
                                     payables: seq<PayableInvoice>, notes: seq<CreditNote>, window: seq<string>,
                                     inv: Invoice)
    requires inv.projectId != project.id
    ensures ProjectFinancialsOf(project, a + [inv] + b, expenses, payables, notes, window)
         == ProjectFinancialsOf(project, a + b, expenses, payables, notes, window)
  {
    InvoicesOfSkips(a, b, inv, project.id);
  }

  lemma ExpensesOfSkips(a: seq<Expense>, b: seq<Expense>, e: Expense, pid: string)
    requires e.projectId != pid
    ensures ExpensesOf(a + [e] + b, pid) == ExpensesOf(a + b, pid)
  {
    ExpensesOfAppend(a + [e], b, pid);
    ExpensesOfAppend(a, [e], pid);
    ExpensesOfAppend(a, b, pid);
    assert ExpensesOf([e], pid) == [];
  }

  /** An expense of another project, wherever it is listed, changes no
      figure of the rollup. */
  lemma ForeignExpenseChangesNothing(project: Project, invoices: seq<Invoice>, a: seq<Expense>, b: seq<Expense>,
                                     payables: seq<PayableInvoice>, notes: seq<CreditNote>, window: seq<string>,
                                     e: Expense)
    requires e.projectId != project.id
    ensures ProjectFinancialsOf(project, invoices, a + [e] + b, payables, notes, window)
         == ProjectFinancialsOf(project, invoices, a + b, payables, notes, window)
  {
    ExpensesOfSkips(a, b, e, project.id);
  }

  lemma PayablesOfSkips(a: seq<PayableInvoice>, b: seq<PayableInvoice>, p: PayableInvoice, pid: string)
    requires p.projectId != Some(pid)
    ensures PayablesOf(a + [p] + b, pid) == PayablesOf(a + b, pid)
  {
    PayablesOfAppend(a + [p], b, pid);
    PayablesOfAppend(a, [p], pid);
    PayablesOfAppend(a, b, pid);
    assert PayablesOf([p], pid) == [];
  }

  /** A payable of another project or of none, wherever it is listed,
      changes no figure of the rollup. */
  lemma ForeignPayableChangesNothing(project: Project, invoices: seq<Invoice>, expenses: seq<Expense>,
                                     a: seq<PayableInvoice>, b: seq<PayableInvoice>, notes: seq<CreditNote>,
                                     window: seq<string>, p: PayableInvoice)
    requires p.projectId != Some(project.id)
    ensures ProjectFinancialsOf(project, invoices, expenses, a + [p] + b, notes, window)
         == ProjectFinancialsOf(project, invoices, expenses, a + b, notes, window)
  {
    PayablesOfSkips(a, b, p, project.id);
  }

  lemma CreditsOfSkips(a: seq<CreditNote>, b: seq<CreditNote>, cn: CreditNote, pid: string)
    requires !ProjectCredit(cn, pid)
    ensures CreditsOf(a + [cn] + b, pid) == CreditsOf(a + b, pid)
  {
    CreditsOfAppend(a + [cn], b, pid);
    CreditsOfAppend(a, [cn], pid);
    CreditsOfAppend(a, b, pid);
    assert CreditsOf([cn], pid) == [];
  }

  /** A credit note that is not an applied credit of the project, wherever
      it is listed, changes no figure of the rollup. */
  lemma ForeignCreditChangesNothing(project: Project, invoices: seq<Invoice>, expenses: seq<Expense>,
                                    payables: seq<PayableInvoice>, a: seq<CreditNote>, b: seq<CreditNote>,
                                    window: seq<string>, cn: CreditNote)
    requires !ProjectCredit(cn, project.id)
    ensures ProjectFinancialsOf(project, invoices, expenses, payables, a + [cn] + b, window)
         == ProjectFinancialsOf(project, invoices, expenses, payables, a + b, window)
  {
    CreditsOfSkips(a, b, cn, project.id);
  }

  lemma {:induction false} InvoiceTotalAppend(a: seq<Invoice>, b: seq<Invoice>, credits: map<string, real>,
                                              statuses: set<FinancialStatus>)
    ensures InvoiceTotal(a + b, credits, statuses) == InvoiceTotal(a, credits, statuses) + InvoiceTotal(b, credits, statuses)
    decreases |b|
  {
    if b == [] {
      assert a + b == a;
    } else {
      var init := b[..|b| - 1];
      InvoiceTotalAppend(a, init, credits, statuses);
      assert (a + b)[..|a + b| - 1] == a + init;
    }
  }

  /** The total over `a + [inv] + b` is the totals of `a` and `b` plus the
      one invoice's contribution. */
  lemma InvoiceTotalAround(a: seq<Invoice>, b: seq<Invoice>, inv: Invoice, credits: map<string, real>,
                           statuses: set<FinancialStatus>)
    ensures InvoiceTotal(a + [inv] + b, credits, statuses)
         == InvoiceTotal(a, credits, statuses) + InvoiceTotal(b, credits, statuses)
            + (if inv.status in statuses then NetRevenue(inv, credits) else 0.0)
  {
    InvoiceTotalAppend(a + [inv], b, credits, statuses);
    InvoiceTotalAppend(a, [inv], credits, statuses);
    assert [inv][..0] == [];
  }

  /** An invoice of the project listed between `a` and `b` is kept between
      their kept invoices. */
  lemma InvoicesAround(a: seq<Invoice>, b: seq<Invoice>, inv: Invoice, pid: string)
    requires inv.projectId == pid
    ensures InvoicesOf(a + [inv] + b, pid) == InvoicesOf(a, pid) + [inv] + InvoicesOf(b, pid)
  {
    InvoicesOfAppend(a + [inv], b, pid);
    InvoicesOfAppend(a, [inv], pid);
    assert InvoicesOf([inv], pid) == [inv];
  }

  lemma MarkInvoicePaid(project: Project, a: seq<Invoice>, b: seq<Invoice>, expenses: seq<Expense>,
                        payables: seq<PayableInvoice>, notes: seq<CreditNote>, window: seq<string>, inv: Invoice)
    requires inv.projectId == project.id
    ensures var before := ProjectFinancialsOf(project, a + [inv.(status := FinancialStatus.Sent)] + b, expenses, payables, notes, window);
      var after := ProjectFinancialsOf(project, a + [inv.(status := FinancialStatus.Paid)] + b, expenses, payables, notes, window);
      var credits := CreditMap(CreditsOf(notes, project.id));
      && after.paidRevenue == before.paidRevenue + NetRevenue(inv, credits)
      && after.netProfit == before.netProfit + NetRevenue(inv, credits)
      && after.expectedRevenue == before.expectedRevenue
  {
    var sent := inv.(status := FinancialStatus.Sent);
    var paid := inv.(status := FinancialStatus.Paid);
    var pid := project.id;
    var credits := CreditMap(CreditsOf(notes, pid));
    InvoicesAround(a, b, sent, pid);
    InvoicesAround(a, b, paid, pid);
    var x, y := InvoicesOf(a, pid), InvoicesOf(b, pid);
    InvoiceTotalAround(x, y, sent, credits, {FinancialStatus.Paid});
    InvoiceTotalAround(x, y, paid, credits, {FinancialStatus.Paid});
    InvoiceTotalAround(x, y, sent, credits, InvoiceNotCancelled);
    InvoiceTotalAround(x, y, paid, credits, InvoiceNotCancelled);
  }

  /** One paid 5000 invoice, one pending 2000 invoice and one paid 1000
      expense: paid revenue 5000, expected revenue 7000, profit 4000, margin
      80 percent. */
  lemma RollupExample(window: seq<string>)
    ensures var project := Project("p1", "Site", None, 10000.0, None, "2024-01-01", None, ProjectStatus.Active);
      var inv1 := Invoice("i1", "Client 1", "p1", "Site", 5000.0, "2024-05-02", FinancialStatus.Paid);
      var inv2 := Invoice("i2", "Client 1", "p1", "Site", 2000.0, "2024-05-02", FinancialStatus.Pending);
      var e := Expense("e1", "Software", "p1", 1000.0, "2024-05-02", ExpenseType.Variable, ExpenseStatus.Paid);
      var r := ProjectFinancialsOf(project, [inv1, inv2], [e], [], [], window);
      && r.paidRevenue == 5000.0 && r.expectedRevenue == 7000.0
      && r.paidOpExpenses == 1000.0 && r.netProfit == 4000.0 && r.profitMargin == 80.0
      && r.budgetVsActual.variance == 9000.0 && r.budgetVsActual.variancePercent == 90.0
  {
    var inv1 := Invoice("i1", "Client 1", "p1", "Site", 5000.0, "2024-05-02", FinancialStatus.Paid);
    var inv2 := Invoice("i2", "Client 1", "p1", "Site", 2000.0, "2024-05-02", FinancialStatus.Pending);
    var e := Expense("e1", "Software", "p1", 1000.0, "2024-05-02", ExpenseType.Variable, ExpenseStatus.Paid);
    assert [inv1, inv2][..1] == [inv1];
    assert [inv1][..0] == [];
    assert [e][..0] == [];
    assert InvoicesOf([inv1, inv2], "p1") == [inv1, inv2];
    assert ExpensesOf([e], "p1") == [e];
    assert InvoiceTotal([inv1], map[], {FinancialStatus.Paid}) == 5000.0;
    assert InvoiceTotal([inv1, inv2], map[], {FinancialStatus.Paid}) == 5000.0;
    assert FinancialStatus.Paid in InvoiceNotCancelled && FinancialStatus.Pending in InvoiceNotCancelled;
    assert InvoiceTotal([inv1], map[], InvoiceNotCancelled) == 5000.0;
    assert InvoiceTotal([inv1, inv2], map[], InvoiceNotCancelled) == 7000.0;
    assert Percent(4000.0, 5000.0) == 80.0;
    assert Percent(9000.0, 10000.0) == 90.0;
  }
}
