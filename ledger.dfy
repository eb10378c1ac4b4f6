/** The ledger records the engine consumes (types.ts), with closed status
    sets as datatypes and TypeScript's optional fields as `Option`. Money is
    modelled as `real`; a date is its ISO string. */
module Ledger {

  datatype Option<+T> = None | Some(value: T)

  /** `x || 0` on an optional number: an absent value reads as zero. */
  function OrZero(o: Option<real>): (r: real)
    ensures o.Some? ==> r == o.value
    ensures o.None? ==> r == 0.0
  {
    match o
    case Some(v) => v
    case None => 0.0
  }

  function Max(a: real, b: real): real { if a >= b then a else b }
  function Min(a: real, b: real): real { if a <= b then a else b }
  function Abs(a: real): real { if a >= 0.0 then a else -a }

  /** `whole > 0 ? (part / whole) * 100 : 0`: `part` in percent of a
      positive `whole`, and zero instead of a division by zero or by a
      negative amount. */
  function Percent(part: real, whole: real): real {
    if whole > 0.0 then part / whole * 100.0 else 0.0
  }

  /** `pct` is `part` in percent of `whole` when `whole` is positive, and
      zero otherwise. */
  predicate IsPercentOf(pct: real, part: real, whole: real) {
    && (whole > 0.0 ==> pct * whole == part * 100.0)
    && (whole <= 0.0 ==> pct == 0.0)
  }

  /** What `Percent` means, for a result `pct` passed in by name so that the
      fact can be used on the caller's own terms: the defining equation, the
      sign of `part`, and a bound when `part` lies between 0 and `whole`. */
  lemma PercentMeaning(part: real, whole: real, pct: real)
    requires pct == Percent(part, whole)
    ensures IsPercentOf(pct, part, whole)
    ensures whole > 0.0 ==> (pct > 0.0 <==> part > 0.0) && (pct < 0.0 <==> part < 0.0)
    ensures whole > 0.0 && 0.0 <= part <= whole ==> 0.0 <= pct <= 100.0
  {
    if whole > 0.0 {
      var q := part / whole;
      assert q * whole == part;
      assert q > 0.0 <==> part > 0.0;
      assert q < 0.0 <==> part < 0.0;
      if 0.0 <= part <= whole {
        assert q <= 1.0;
      }
    }
  }

  /** `prev !== 0 ? ((cur - prev) / Math.abs(prev)) * 100 : 0`: the change
      from `prev` to `cur` in percent of the magnitude of `prev`, so that a
      rise from a loss still reads as a positive change. */
  function ChangePercent(prev: real, cur: real): real {
    if prev != 0.0 then (cur - prev) / Abs(prev) * 100.0 else 0.0
  }

  /** What `ChangePercent` means, for a result `c` passed in by name: the
      change in percent of the magnitude of `prev` (zero when `prev` is zero),
      with the sign of the change. */
  lemma ChangePercentMeaning(prev: real, cur: real, c: real)
    requires c == ChangePercent(prev, cur)
    ensures IsPercentOf(c, cur - prev, Abs(prev))
    ensures prev != 0.0 ==> (c > 0.0 <==> cur > prev) && (c < 0.0 <==> cur < prev)
  {
    assert Abs(prev) > 0.0 <==> prev != 0.0;
    PercentMeaning(cur - prev, Abs(prev), c);
  }

  /** Status of an invoice (`FinancialStatus`). */
  datatype FinancialStatus =
    | Paid | Sent | Overdue | Pending | Cancelled | Draft | PartiallyCredited | FullyCredited

  datatype CreditNoteStatus = Pending | Applied | Void

  datatype ExpenseType = Fixed | Variable

  datatype ExpenseStatus = Paid | Pending | Cancelled

  datatype PayableStatus = Draft | Received | Paid | Overdue | Cancelled

  datatype ProjectStatus = Active | Completed | OnHold | Archived

  /** The status strings the records store. */
  function StatusName(s: FinancialStatus): string {
    match s
    case Paid => "paid"
    case Sent => "sent"
    case Overdue => "overdue"
    case Pending => "pending"
    case Cancelled => "cancelled"
    case Draft => "draft"
    case PartiallyCredited => "partially_credited"
    case FullyCredited => "fully_credited"
  }

  function CreditNoteStatusName(s: CreditNoteStatus): string {
    match s
    case Pending => "pending"
    case Applied => "applied"
    case Void => "void"
  }

  function ExpenseStatusName(s: ExpenseStatus): string {
    match s
    case Paid => "paid"
    case Pending => "pending"
    case Cancelled => "cancelled"
  }

  function PayableStatusName(s: PayableStatus): string {
    match s
    case Draft => "draft"
    case Received => "received"
    case Paid => "paid"
    case Overdue => "overdue"
    case Cancelled => "cancelled"
  }

  datatype Invoice = Invoice(
    id: string,
    clientName: string,
    projectId: string,
    projectName: string,
    amount: real,
    date: string,
    status: FinancialStatus)

  datatype Expense = Expense(
    id: string,
    category: string,
    projectId: string,
    amount: real,
    date: string,
    kind: ExpenseType,
    status: ExpenseStatus)

  /** A bill owed to a vendor; it need not belong to a project. */
  datatype PayableInvoice = PayableInvoice(
    id: string,
    vendorName: string,
    projectId: Option<string>,
    amount: real,
    date: string,
    dueDate: string,
    status: PayableStatus)

  /** `invoiceId` is a string whose empty value is the falsy "no invoice". */
  datatype CreditNote = CreditNote(
    id: string,
    invoiceId: string,
    projectId: string,
    amount: real,
    reason: Option<string>,
    status: CreditNoteStatus)

  datatype Project = Project(
    id: string,
    name: string,
    client: Option<string>,
    budget: real,
    expectedRevenue: Option<real>,
    startDate: string,
    endDate: Option<string>,
    status: ProjectStatus)

  /** One calendar-month bucket; the change fields are optional in the
      record type although the engine always fills them. */
  datatype MonthlyMetrics = MonthlyMetrics(
    month: string,
    revenue: real,
    expenses: real,
    netProfit: real,
    profitMargin: real,
    revenueChange: Option<real>,
    expensesChange: Option<real>,
    profitChange: Option<real>,
    marginChange: Option<real>)

  datatype BudgetVsActual = BudgetVsActual(
    budget: real,
    actual: real,
    variance: real,
    variancePercent: real)

  /** The rollup of one project. */
  datatype ProjectFinancialDetail = ProjectFinancialDetail(
    project: Project,
    expectedRevenue: real,
    paidRevenue: real,
    totalOpExpenses: real,
    paidOpExpenses: real,
    totalPayables: real,
    paidPayables: real,
    outstandingPayables: real,
    netProfit: real,
    netProfitExpected: real,
    profitMargin: real,
    projectedRevenue: real,
    projectedExpenses: real,
    monthlyBreakdown: seq<MonthlyMetrics>,
    budgetVsActual: BudgetVsActual)

  /** `date.substring(0, 7)`: the `YYYY-MM` prefix, or the whole string when
      it is shorter. */
  function MonthKey(date: string): (k: string)
    ensures |k| == if |date| < 7 then |date| else 7
    ensures k <= date
  {
    if |date| < 7 then date else date[..7]
  }
}
